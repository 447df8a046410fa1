/** What every operation keeps while no failure has been met: the order of the roles and the
    bracketing of each role's samples. */
module ProducerLive {
  import opened Evidence
  import opened Acceptor
  import opened Producer
  import opened ProducerInvariant

  ghost predicate QuietEvent(e: Event) {
    !e.body.FailureObserved? && !e.body.Contained? && !e.body.ControllerStopped?
  }

  ghost predicate NoFailureYet(events: seq<Event>) { forall i | 0 <= i < |events| :: QuietEvent(events[i]) }

  /** The cross-role order of a run that has met no failure. */
  ghost predicate RolesOrdered(roles: map<Role, RoleState>) {
    (Worker in roles ==>
       Egress in roles && roles[Egress].startedAt.Some? && roles[Egress].startedAt.value < roles[Worker].boundAt
       && (!roles[Worker].phase.ReleasedPhase? ==> roles[Egress].phase.RunningPhase?))
    && (Egress in roles && roles[Egress].stoppedAt.Some? ==>
          Worker in roles && roles[Worker].releasedAt.Some?
            && roles[Worker].releasedAt.value < roles[Egress].stoppedAt.value)
    && (Verifier in roles ==>
          Egress in roles && roles[Egress].releasedAt.Some? && roles[Egress].stoppedAt.Some?
          && roles[Egress].releasedAt.value < roles[Verifier].boundAt)
  }

  ghost predicate BracketedAt(roles: map<Role, RoleState>, r: Role) { r in roles ==> Bracketed(roles[r]) }
  ghost predicate AllBracketed(roles: map<Role, RoleState>) { forall r :: BracketedAt(roles, r) }

  /** The invariant between operations of a session that can still be used. */
  ghost predicate Live(cfg: Config, s: Session) {
    Consistent(cfg, s, 1) && s.terminal.None? && NoFailureYet(s.events) && RolesOrdered(s.roles)
      && AllBracketed(s.roles)
    && Aggregate(s.roles) <= cfg.binding.budget
  }

  /** All a containment needs of the session it starts from. */
  ghost predicate Containable(cfg: Config, s: Session) {
    Intact(cfg, s) && Aggregate(s.roles) <= MAX_UINT64
  }

  // ---- order ----

  /** The order of releases, as far as the given position: containment may stop egress early. */
  ghost predicate OrderedTo(roles: map<Role, RoleState>, n: int) {
    (Verifier in roles ==>
       Egress in roles && roles[Egress].releasedAt.Some? && roles[Egress].releasedAt.value < roles[Verifier].boundAt
       && Worker in roles && roles[Worker].releasedAt.Some? && roles[Worker].releasedAt.value < roles[Verifier].boundAt)
    && (Egress in roles && roles[Egress].stoppedAt.Some? && roles[Egress].stoppedAt.value <= n ==>
          Worker in roles && roles[Worker].releasedAt.Some?
            && roles[Worker].releasedAt.value < roles[Egress].stoppedAt.value)
  }

  lemma RolesOrderedTo(events: seq<Event>, roles: map<Role, RoleState>, n: int)
    requires AllRecorded(events, roles) && RolesOrdered(roles)
    ensures OrderedTo(roles, n)
  {
    assert RecordedAt(events, roles, Egress);
  }

  ghost predicate FailedAt(events: seq<Event>, n: int) { 1 <= n <= |events| && events[n - 1].body.FailureObserved? }

  /** The order holds throughout, or up to a failure. */
  ghost predicate OrderedUntilFailure(s: Session) {
    exists n :: OrderedTo(s.roles, n) && (n == |s.events| || FailedAt(s.events, n))
  }

  ghost predicate Reaches(st: RoleState, n: int) { InRange(st, n) && Coherent(st) }

  lemma AllReach(events: seq<Event>, roles: map<Role, RoleState>)
    requires AllRecorded(events, roles)
    ensures forall r | r in roles :: Reaches(roles[r], |events|)
  {
    forall r | r in roles
      ensures Reaches(roles[r], |events|)
    {
      assert RecordedAt(events, roles, r);
      RecordsInRange(r, events, roles[r]);
    }
  }

  /** The steps the producer allows outside containment. */
  ghost predicate Permitted(roles: map<Role, RoleState>, r: Role, e: Event)
    requires r in roles
  {
    (e.body.RoleStopped? && r.Egress? ==> Worker in roles && roles[Worker].phase.ReleasedPhase?)
    && (e.body.RoleReleased? ==> roles[r].phase.StoppedPhase?)
  }

  lemma AdvanceOrdered(roles: map<Role, RoleState>, n: int, r: Role, st: RoleState, e: Event)
    requires RolesOrdered(roles) && r in roles && Advances(r, roles[r], st, e) && e.position == n + 1
    requires forall q | q in roles :: Reaches(roles[q], n)
    requires Permitted(roles, r, e)
    ensures RolesOrdered(roles[r := st])
  {}

  lemma StartBracketed(was: RoleState, n: int)
    requires Bracketed(was) && Reaches(was, n) && was.phase.BoundPhase?
    ensures Bracketed(Started(was, n + 1))
  {}

  lemma ReleaseBracketed(was: RoleState, n: int)
    requires Bracketed(was) && Reaches(was, n) && was.phase.StoppedPhase?
    ensures Bracketed(Released(was, n + 1))
  {}

  lemma SampleBracketed(was: RoleState, n: int, usage: int)
    requires Bracketed(was) && Reaches(was, n) && was.phase.RunningPhase?
    ensures Bracketed(Sampled(was, usage, n + 1))
  {}

  lemma StopBracketed(was: RoleState, n: int, usage: int)
    requires Bracketed(was) && Reaches(was, n) && was.phase.RunningPhase?
    ensures Bracketed(Sampled(Stopped(was, n + 1), usage, n + 2))
  {}

  lemma AdvanceAccounts(roles: map<Role, RoleState>, r: Role, st: RoleState, e: Event)
    requires r in roles && Advances(r, roles[r], st, e) && !e.body.CpuSample?
    ensures Aggregate(roles[r := st]) == Aggregate(roles)
  {}

  lemma QuietExtends(events: seq<Event>, e: Event)
    requires NoFailureYet(events) && QuietEvent(e)
    ensures NoFailureYet(events + [e])
  {}

  lemma BracketsUpdate(roles: map<Role, RoleState>, r: Role, st: RoleState)
    requires AllBracketed(roles) && Bracketed(st)
    ensures AllBracketed(roles[r := st])
  {
    var roles' := roles[r := st];
    forall q
      ensures BracketedAt(roles', q)
    {
      assert BracketedAt(roles, q);
    }
  }

  // ---- operations ----

  /** One permitted event of role `r`, all but the account and the bracketing. */
  lemma AdvanceLive(cfg: Config, s: Session, r: Role, st: RoleState, body: EventBody, clock: Clock)
    requires Consistent(cfg, s, 1) && NoFailureYet(s.events) && RolesOrdered(s.roles)
    requires r in s.roles && !Append(s, body, clock).poisoned
    requires Advances(r, s.roles[r], st, Added(s, body, clock)) && Permitted(s.roles, r, Added(s, body, clock))
    ensures var s' := AppendFor(s, r, st, body, clock);
            Consistent(cfg, s', 1) && NoFailureYet(s'.events) && RolesOrdered(s'.roles)
            && s'.roles == s.roles[r := st] && s'.terminal == s.terminal && |s'.events| == |s.events| + 1
  {
    AppendAdds(s, body, clock);
    AdvanceKeeps(cfg, s, 1, r, st, body, clock);
    AllReach(s.events, s.roles);
    AdvanceOrdered(s.roles, |s.events|, r, st, Added(s, body, clock));
    QuietExtends(s.events, Added(s, body, clock));
  }

  lemma AdvanceBrackets(events: seq<Event>, roles: map<Role, RoleState>, r: Role, st: RoleState, e: Event)
    requires AllRecorded(events, roles) && AllBracketed(roles)
    requires r in roles && Advances(r, roles[r], st, e) && e.position == |events| + 1
    requires e.body.RoleStarted? || (e.body.RoleReleased? && roles[r].phase.StoppedPhase?)
    ensures AllBracketed(roles[r := st]) && Aggregate(roles[r := st]) == Aggregate(roles)
  {
    AllReach(events, roles);
    assert BracketedAt(roles, r);
    if e.body.RoleStarted? {
      StartBracketed(roles[r], |events|);
    } else {
      ReleaseBracketed(roles[r], |events|);
    }
    BracketsUpdate(roles, r, st);
    AdvanceAccounts(roles, r, st, e);
  }

  lemma StepLive(cfg: Config, s: Session, r: Role, st: RoleState, body: EventBody, clock: Clock)
    requires Live(cfg, s) && r in s.roles && !Append(s, body, clock).poisoned
    requires Advances(r, s.roles[r], st, Added(s, body, clock))
    requires body.RoleStarted? || (body.RoleReleased? && s.roles[r].phase.StoppedPhase?)
    ensures Live(cfg, AppendFor(s, r, st, body, clock))
  {
    AdvanceLive(cfg, s, r, st, body, clock);
    AdvanceBrackets(s.events, s.roles, r, st, Added(s, body, clock));
  }

  lemma StartLive(cfg: Config, s: Session, r: Role, clock: Clock)
    requires Live(cfg, s) && !StartRole(s, r, clock).next.poisoned
    ensures Live(cfg, StartRole(s, r, clock).next)
  {
    if StartRole(s, r, clock).reply.Done? {
      StepLive(cfg, s, r, Started(s.roles[r], |s.events| + 1), RoleStarted(r, s.roles[r].id.binding), clock);
    }
  }

  lemma ReleaseLive(cfg: Config, s: Session, r: Role, clock: Clock)
    requires Live(cfg, s) && InPhase(s, r, StoppedPhase) && !ReleaseEvent(s, r, clock).poisoned
    ensures Live(cfg, ReleaseEvent(s, r, clock))
  {
    StepLive(cfg, s, r, Released(s.roles[r], |s.events| + 1), RoleReleased(r, s.roles[r].id.binding), clock);
  }

  // ---- sampling ----

  /** A session whose account may just have passed the budget. */
  ghost predicate Intact(cfg: Config, s: Session) {
    Consistent(cfg, s, 1) && NoFailureYet(s.events) && RolesOrdered(s.roles) && s.terminal.None?
  }

  lemma RecordSampleKeeps(cfg: Config, s: Session, r: Role, usage: int, clock: Clock)
    requires Intact(cfg, s) && r in s.roles && !InPhase(s, r, ReleasedPhase)
    requires s.roles[r].last <= usage && IsUint64(usage) && !RecordSample(s, r, usage, clock).poisoned
    ensures var s' := RecordSample(s, r, usage, clock);
            Intact(cfg, s') && s'.roles == s.roles[r := Sampled(s.roles[r], usage, |s.events| + 1)]
  {
    var st := s.roles[r];
    AdvanceLive(cfg, s, r, Sampled(st, usage, |s.events| + 1), CpuSample(r, st.id.binding, |st.samples|, usage), clock);
  }

  lemma StopEventKeeps(cfg: Config, s: Session, r: Role, clock: Clock)
    requires Intact(cfg, s) && InPhase(s, r, RunningPhase) && (r.Egress? ==> InPhase(s, Worker, ReleasedPhase))
    requires !StopEvent(s, r, clock).poisoned
    ensures var s' := StopEvent(s, r, clock);
            Intact(cfg, s') && s'.roles == s.roles[r := Stopped(s.roles[r], |s.events| + 1)]
            && Aggregate(s'.roles) == Aggregate(s.roles) && |s'.events| == |s.events| + 1
  {
    var st := s.roles[r];
    AdvanceLive(cfg, s, r, Stopped(st, |s.events| + 1), RoleStopped(r, st.id.binding), clock);
    AdvanceAccounts(s.roles, r, Stopped(st, |s.events| + 1), Added(s, RoleStopped(r, st.id.binding), clock));
  }

  lemma SampleBrackets(events: seq<Event>, roles: map<Role, RoleState>, r: Role, usage: int)
    requires AllRecorded(events, roles) && AllBracketed(roles) && r in roles && roles[r].phase.RunningPhase?
    ensures AllBracketed(roles[r := Sampled(roles[r], usage, |events| + 1)])
  {
    AllReach(events, roles);
    assert BracketedAt(roles, r);
    SampleBracketed(roles[r], |events|, usage);
    BracketsUpdate(roles, r, Sampled(roles[r], usage, |events| + 1));
  }

  lemma StopBrackets(events: seq<Event>, roles: map<Role, RoleState>, r: Role, usage: int)
    requires AllRecorded(events, roles) && AllBracketed(roles) && r in roles && roles[r].phase.RunningPhase?
    ensures AllBracketed(roles[r := Sampled(Stopped(roles[r], |events| + 1), usage, |events| + 2)])
  {
    AllReach(events, roles);
    assert BracketedAt(roles, r);
    StopBracketed(roles[r], |events|, usage);
    BracketsUpdate(roles, r, Sampled(Stopped(roles[r], |events| + 1), usage, |events| + 2));
  }

  lemma SampleAccounted(cfg: Config, s: Session, r: Role, usage: int, clock: Clock)
    requires Live(cfg, s) && InPhase(s, r, RunningPhase) && s.roles[r].last <= usage && IsUint64(usage)
    requires !RecordSample(s, r, usage, clock).poisoned
    requires Aggregate(RecordSample(s, r, usage, clock).roles) <= cfg.binding.budget
    ensures Live(cfg, RecordSample(s, r, usage, clock))
  {
    RecordSampleKeeps(cfg, s, r, usage, clock);
    SampleBrackets(s.events, s.roles, r, usage);
  }

  /** Stopping a role: the stop event, then the final sample, both recorded. */
  lemma StopAccounted(cfg: Config, s: Session, r: Role, usage: int, clock: Clock)
    requires Live(cfg, s) && InPhase(s, r, RunningPhase) && (r.Egress? ==> InPhase(s, Worker, ReleasedPhase))
    requires !StopEvent(s, r, clock).poisoned && s.roles[r].last <= usage && IsUint64(usage)
    requires !RecordSample(StopEvent(s, r, clock), r, usage, clock).poisoned
    requires Aggregate(RecordSample(StopEvent(s, r, clock), r, usage, clock).roles) <= cfg.binding.budget
    ensures Live(cfg, RecordSample(StopEvent(s, r, clock), r, usage, clock))
  {
    var s1 := StopEvent(s, r, clock);
    var s2 := RecordSample(s1, r, usage, clock);
    StopEventKeeps(cfg, s, r, clock);
    RecordSampleKeeps(cfg, s1, r, usage, clock);
    StopBrackets(s.events, s.roles, r, usage);
    assert s2.roles == s.roles[r := Sampled(Stopped(s.roles[r], |s.events| + 1), usage, |s.events| + 2)];
  }

  // ---- admission ----

  function Bound(id: Identity, usage: int, n: nat): RoleState {
    RoleState(id, BoundPhase, usage, usage, [usage], [n + 2], n + 1, None, None, None)
  }

  lemma BindRecorded(events: seq<Event>, roles: map<Role, RoleState>, r: Role, id: Identity, usage: int, e1: Event,
                     e2: Event)
    requires AllRecorded(events, roles) && r !in roles && IsUint64(usage)
    requires e1.position == |events| + 1 && e1.body == RoleBound(r, id.binding)
    requires e2.position == |events| + 2 && e2.body == CpuSample(r, id.binding, 0, usage)
    ensures AllRecorded(events + [e1] + [e2], roles[r := Bound(id, usage, |events|)])
  {
    KeepRecorded(events, roles, e1);
    KeepRecorded(events + [e1], roles, e2);
    var st, events2 := Bound(id, usage, |events|), events + [e1] + [e2];
    var roles2 := roles[r := st];
    forall q
      ensures RecordedAt(events2, roles2, q)
    {
      assert RecordedAt(events2, roles, q);
    }
  }

  lemma BindExplained(events: seq<Event>, roles: map<Role, RoleState>, r: Role, id: Identity, usage: int, e1: Event,
                      e2: Event)
    requires AllExplained(events, roles) && r !in roles
    requires e1.position == |events| + 1 && e1.body == RoleBound(r, id.binding)
    requires e2.position == |events| + 2 && e2.body == CpuSample(r, id.binding, 0, usage)
    ensures AllExplained(events + [e1] + [e2], roles[r := Bound(id, usage, |events|)])
  {
    var st, events2 := Bound(id, usage, |events|), events + [e1] + [e2];
    var roles2 := roles[r := st];
    forall i
      ensures ExplainedAt(events2, roles2, i)
    {
      assert ExplainedAt(events, roles, i);
    }
  }

  lemma BindAdmissible(cfg: Config, s: Session, r: Role, st: RoleState)
    requires Admissible(cfg, s.roles) && AcceptsIdentity(cfg.h, cfg.binding, st.id, r) && !ReusesIdentity(s, st.id)
    requires r !in s.roles && (r.Worker? ==> Egress in s.roles) && (r.Verifier? ==> Worker in s.roles)
    ensures Admissible(cfg, s.roles[r := st])
  {
    var roles' := s.roles[r := st];
    forall q
      ensures IdentityKept(cfg, roles', q)
    {
      assert IdentityKept(cfg, s.roles, q);
    }
    forall p, q
      ensures Distinct(roles', p, q)
    {
      assert Distinct(s.roles, p, q);
    }
  }

  /** Roles are admitted in order, so their number says which. */
  lemma RolesByCount(roles: map<Role, RoleState>)
    requires (Worker in roles ==> Egress in roles) && (Verifier in roles ==> Worker in roles)
    ensures |roles| < 3 ==> ROLES[|roles|] !in roles
  {
    var keys := roles.Keys;
    assert |keys| == |roles|;
    forall q | q in keys
      ensures q in {Egress, Worker, Verifier}
    {
      match q { case Egress => case Worker => case Verifier => }
    }
    if Egress !in roles {
      assert keys == {};
    } else if Worker !in roles {
      assert keys == {Egress};
    } else if Verifier !in roles {
      assert keys == {Egress, Worker};
    } else {
      assert keys == {Egress, Worker, Verifier};
    }
  }

  lemma BindOrdered(roles: map<Role, RoleState>, n: int, r: Role, st: RoleState)
    requires RolesOrdered(roles) && r !in roles && st.boundAt == n + 1 && st.phase.BoundPhase? && st.startedAt.None?
             && st.stoppedAt.None?
    requires forall q | q in roles :: Reaches(roles[q], n)
    requires (Worker in roles ==> Egress in roles) && (Verifier in roles ==> Worker in roles)
    requires r.Worker? ==> Egress in roles && roles[Egress].phase.RunningPhase?
    requires r.Verifier? ==>
               Egress in roles && roles[Egress].phase.ReleasedPhase? && Worker in roles
               && roles[Worker].phase.ReleasedPhase?
    ensures RolesOrdered(roles[r := st])
  {}

  lemma CoreBinds(cfg: Config, events: seq<Event>, roles: map<Role, RoleState>, extra: nat, r: Role, id: Identity,
                  usage: int, e1: Event, e2: Event)
    requires Core(cfg, events, roles, extra) && r !in roles && IsUint64(usage)
    requires Admissible(cfg, roles[r := Bound(id, usage, |events|)])
    requires e1.position == |events| + 1 && e1.body == RoleBound(r, id.binding)
    requires e2.position == |events| + 2 && e2.body == CpuSample(r, id.binding, 0, usage)
    ensures Core(cfg, events + [e1] + [e2], roles[r := Bound(id, usage, |events|)], extra)
  {
    BindRecorded(events, roles, r, id, usage, e1, e2);
    BindExplained(events, roles, r, id, usage, e1, e2);
    AddWeighs(roles, r, Bound(id, usage, |events|));
  }

  lemma BindBrackets(roles: map<Role, RoleState>, r: Role, id: Identity, usage: int, n: nat)
    requires AllBracketed(roles) && r !in roles
    ensures AllBracketed(roles[r := Bound(id, usage, n)])
  {
    BracketsUpdate(roles, r, Bound(id, usage, n));
  }

  /** The two events and the record of an admission. */
  lemma BindAppends(s: Session, r: Role, id: Identity, usage: int, clock: Clock)
    requires ClockKept(s) && r !in s.roles && s.terminal.None?
    ensures var s1, s2 := BoundEvent(s, r, id, clock), FirstSampled(s, r, id, usage, clock);
            !s1.poisoned && !s2.poisoned ==>
              ClockKept(s2) && s2.terminal.None? && s2.roles == s.roles[r := Bound(id, usage, |s.events|)]
              && exists e1, e2: Event :: s2.events == s.events + [e1] + [e2]
                   && e1.position == |s.events| + 1 && e1.body == RoleBound(r, id.binding)
                   && e2.position == |s.events| + 2 && e2.body == CpuSample(r, id.binding, 0, usage)
  {
    var s1 := Append(s, RoleBound(r, id.binding), clock);
    if !s1.poisoned {
      AppendAdds(s, RoleBound(r, id.binding), clock);
      var st := RoleState(id, BoundPhase, usage, usage, [], [], |s.events| + 1, None, None, None);
      var u1, body := Update(s1, r, st), CpuSample(r, id.binding, 0, usage);
      var s2 := RecordSample(u1, r, usage, clock);
      if !s2.poisoned {
        AppendAdds(u1, body, clock);
        assert s2.events == s.events + [Added(s, RoleBound(r, id.binding), clock)] + [Added(u1, body, clock)];
        assert Sampled(st, usage, |u1.events| + 1) == Bound(id, usage, |s.events|);
        assert s2.roles == s.roles[r := Bound(id, usage, |s.events|)];
      }
    }
  }

  lemma BoundLive(cfg: Config, s: Session, s': Session, r: Role, id: Identity, usage: int, e1: Event, e2: Event)
    requires Live(cfg, s) && r !in s.roles && IsUint64(usage)
             && Admissible(cfg, s.roles[r := Bound(id, usage, |s.events|)])
    requires AdmissionInOrder(s, r)
    requires e1.position == |s.events| + 1 && e1.body == RoleBound(r, id.binding)
    requires e2.position == |s.events| + 2 && e2.body == CpuSample(r, id.binding, 0, usage)
    requires ClockKept(s') && !s'.poisoned && s'.terminal.None? && s'.events == s.events + [e1] + [e2]
    requires s'.roles == s.roles[r := Bound(id, usage, |s.events|)]
    ensures Live(cfg, s')
  {
    CoreBinds(cfg, s.events, s.roles, 1, r, id, usage, e1, e2);
    QuietExtends(s.events, e1);
    QuietExtends(s.events + [e1], e2);
    AllReach(s.events, s.roles);
    BindOrdered(s.roles, |s.events|, r, Bound(id, usage, |s.events|));
    BindBrackets(s.roles, r, id, usage, |s.events|);
  }

  /** What an admission has established. */
  lemma BindAdmits(cfg: Config, s: Session, o: Observation, aborted: bool, answer: Option<BoundAnswer>, clock: Clock)
    requires BindRole(cfg, s, o, aborted, answer, clock).reply.Admitted?
    ensures var step := BindRole(cfg, s, o, aborted, answer, clock);
            var id := step.reply.id;
            AdmissionInOrder(s, o.role) && AcceptsIdentity(cfg.h, cfg.binding, id, o.role) && !ReusesIdentity(s, id)
            && answer.Some? && IsUint64(answer.value.usage)
            && !BoundEvent(s, o.role, id, clock).poisoned && !step.next.poisoned
            && step.next == FirstSampled(s, o.role, id, answer.value.usage, clock)
  {}

  lemma AdmittedLive(cfg: Config, s: Session, r: Role, id: Identity, usage: int, clock: Clock)
    requires Live(cfg, s) && AdmissionInOrder(s, r) && AcceptsIdentity(cfg.h, cfg.binding, id, r)
             && !ReusesIdentity(s, id)
    requires IsUint64(usage) && !BoundEvent(s, r, id, clock).poisoned && !FirstSampled(s, r, id, usage, clock).poisoned
    ensures Live(cfg, FirstSampled(s, r, id, usage, clock))
  {
    var s', n := FirstSampled(s, r, id, usage, clock), |s.events|;
    RolesByCount(s.roles);
    BindAppends(s, r, id, usage, clock);
    BindAdmissible(cfg, s, r, Bound(id, usage, n));
    var e1, e2: Event :| s'.events == s.events + [e1] + [e2]
      && e1.position == n + 1 && e1.body == RoleBound(r, id.binding)
      && e2.position == n + 2 && e2.body == CpuSample(r, id.binding, 0, usage);
    BoundLive(cfg, s, s', r, id, usage, e1, e2);
  }

  lemma BindLive(cfg: Config, s: Session, o: Observation, aborted: bool, answer: Option<BoundAnswer>, clock: Clock)
    requires Live(cfg, s) && !BindRole(cfg, s, o, aborted, answer, clock).next.poisoned
    ensures Live(cfg, BindRole(cfg, s, o, aborted, answer, clock).next)
  {
    var step := BindRole(cfg, s, o, aborted, answer, clock);
    if step.reply.Admitted? {
      BindAdmits(cfg, s, o, aborted, answer, clock);
      AdmittedLive(cfg, s, o.role, step.reply.id, answer.value.usage, clock);
    }
  }
}
