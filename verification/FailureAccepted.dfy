/** The evidence of a containment is accepted: the acceptor's conditions, one by one. */
module FailureAccepted {
  import opened Evidence
  import opened Acceptor
  import opened Producer
  import opened ProducerInvariant
  import opened ProducerLive
  import opened Selection
  import opened ContainmentTail
  import opened Transcripts

  // ---- observed roles ----

  function RoleIndex(r: Role): nat { match r case Egress => 0 case Worker => 1 case Verifier => 2 }

  ghost predicate StateAt(s: Session, k: int) {
    0 <= k < |StatesOf(s)| ==> k < 3 && ROLES[k] in s.roles && StatesOf(s)[k] == s.roles[ROLES[k]]
  }

  lemma StatesInOrder(cfg: Config, s: Session)
    requires Admissible(cfg, s.roles)
    ensures |StatesOf(s)| <= 3 && (forall k :: StateAt(s, k))
    ensures forall r | r in s.roles :: RoleIndex(r) < |StatesOf(s)|
  {
    forall k
      ensures StateAt(s, k)
    {}
  }

  lemma ObservedState(cfg: Config, events: seq<Event>, st: RoleState, r: Role)
    requires AcceptsIdentity(cfg.h, cfg.binding, st.id, r) && Coherent(st)
    ensures AcceptsObservedRole(cfg.h, cfg.binding, ObservedRoleOf(st), r)
  {
    NeverNegative(st);
  }

  lemma ObservedAccepted(cfg: Config, s: Session, extra: nat)
    requires Consistent(cfg, s, extra)
    ensures var roles := ObservedRolesOf(s);
            |roles| <= 3 && forall k | 0 <= k < |roles| :: AcceptsObservedRole(cfg.h, cfg.binding, roles[k], ROLES[k])
  {
    var roles := ObservedRolesOf(s);
    StatesInOrder(cfg, s);
    forall k | 0 <= k < |roles|
      ensures AcceptsObservedRole(cfg.h, cfg.binding, roles[k], ROLES[k])
    {
      assert StateAt(s, k) && IdentityKept(cfg, s.roles, ROLES[k]) && RecordedAt(s.events, s.roles, ROLES[k]);
      ObservedState(cfg, s.events, s.roles[ROLES[k]], ROLES[k]);
    }
  }

  lemma ObservedDistinct(cfg: Config, s: Session)
    requires Admissible(cfg, s.roles)
    ensures DistinctIdentities(ObservedIds(ObservedRolesOf(s)))
  {
    var ids := ObservedIds(ObservedRolesOf(s));
    StatesInOrder(cfg, s);
    forall i, j | 0 <= i < j < |ids|
      ensures ids[i].docker.containerId != ids[j].docker.containerId && ids[i].cgroup != ids[j].cgroup
    {
      assert StateAt(s, i) && StateAt(s, j) && Distinct(s.roles, ROLES[i], ROLES[j]);
    }
  }

  lemma ObservedInOrder(cfg: Config, s: Session)
    requires Admissible(cfg, s.roles)
    ensures RolesInOrder(ObservedIds(ObservedRolesOf(s)))
  {
    var ids := ObservedIds(ObservedRolesOf(s));
    StatesInOrder(cfg, s);
    forall i | 0 <= i < |ids|
      ensures ValidIdentity(ids[i]) && ids[i].docker.role == ROLES[i]
    {
      assert StateAt(s, i) && IdentityKept(cfg, s.roles, ROLES[i]);
    }
  }

  lemma SumObservedAppend(roles: seq<ObservedRole>, o: ObservedRole)
    ensures SumObserved(roles + [o]) == SumObserved(roles) + if o.delta.Some? then o.delta.value else 0
  {
    assert (roles + [o])[..|roles|] == roles;
  }

  lemma ObservedSum(cfg: Config, s: Session)
    requires Admissible(cfg, s.roles)
    ensures SumObserved(ObservedRolesOf(s)) == Aggregate(s.roles)
  {
    var roles := ObservedRolesOf(s);
    if Egress in s.roles {
      var e := ObservedRoleOf(s.roles[Egress]);
      SumObservedAppend([], e);
      if Worker in s.roles {
        var w := ObservedRoleOf(s.roles[Worker]);
        SumObservedAppend([e], w);
        if Verifier in s.roles {
          var v := ObservedRoleOf(s.roles[Verifier]);
          SumObservedAppend([e, w], v);
          assert roles == [e] + [w] + [v];
        } else {
          assert roles == [e] + [w];
        }
      } else {
        assert roles == [] + [e];
      }
    } else {
      assert roles == [];
    }
  }

  // ---- digests ----

  lemma TranscriptDigest(cfg: Config, events: seq<Event>)
    requires ValidConfig(cfg) && |events| <= MAX_EVENTS
    ensures Digest(cfg.h, TranscriptInput(cfg.binding.run, cfg.controller, events)).Some?
  {
    TranscriptNodesBound(events);
  }

  /** No hash of a containment throws. */
  lemma ContainmentDigests(cfg: Config, s: Session)
    requires ValidConfig(cfg) && Admissible(cfg, s.roles) && |s.events| <= MAX_EVENTS
    ensures DigestsOf(cfg, s).Some? && |ObservedRolesOf(s)| <= 3
  {
    StatesInOrder(cfg, s);
    ObservedInOrder(cfg, s);
    TranscriptDigest(cfg, s.events);
  }

  lemma FailureDigest(cfg: Config, body: Evidence)
    requires body.ObservedFailure? && |body.events| <= MAX_EVENTS && |body.observedRoles| <= 3
    ensures Digest(cfg.h, EvidenceInput(body)).Some?
  {
    TranscriptNodesBound(body.events);
  }

  // ---- the transcript of a containment ----

  lemma NoneOfKind(events: seq<Event>, k: Kind)
    requires OnlySettles(events) && k in {KFailure, KAction, KControllerStopped, KControllerStarted}
    ensures Select(events, k) == []
  {
    forall i
      ensures NotKind(events, k, i)
    {
      assert SettlesAt(events, i);
    }
    SelectNone(events, k);
  }

  lemma QuietSelects(events: seq<Event>, k: Kind)
    requires NoFailureYet(events) && k in {KFailure, KAction, KControllerStopped}
    ensures Select(events, k) == []
  {
    forall i
      ensures NotKind(events, k, i)
    {
      if 0 <= i < |events| {
        assert QuietEvent(events[i]);
      }
    }
    SelectNone(events, k);
  }

  /** What the tail holds of the kinds that name no role. */
  function TailPart(t: Tail, k: Kind): seq<Event> {
    if k == KFailure then [t.failure] else if k == KAction then t.actions
    else if k == KControllerStopped then t.stops else []
  }

  lemma UniformSelects(events: seq<Event>, own: Kind, k: Kind)
    requires forall i :: IsKind(events, own, i)
    ensures Select(events, k) == if k == own then events else []
  {
    if k == own {
      SelectAll(events, k);
    } else {
      forall i
        ensures NotKind(events, k, i)
      {
        assert IsKind(events, own, i);
      }
      SelectNone(events, k);
    }
  }

  lemma FailureSelects(failure: Event, k: Kind)
    requires failure.body.FailureObserved?
    ensures Select([failure], k) == if k == KFailure then [failure] else []
  {
    UniformSelects([failure], KFailure, k);
  }

  lemma ActionSelects(acted: bool, c: Cleanup, actions: seq<Event>, k: Kind)
    requires ActionsTaken(acted, c, actions)
    ensures Select(actions, k) == if k == KAction then actions else []
  {
    UniformSelects(actions, KAction, k);
  }

  lemma StopSelects(stops: seq<Event>, k: Kind)
    requires stops == [] || (|stops| == 1 && stops[0].body.ControllerStopped?)
    ensures Select(stops, k) == if k == KControllerStopped then stops else []
  {
    UniformSelects(stops, KControllerStopped, k);
  }

  lemma TailSelects(cfg: Config, s: Session, phase: FailurePhase, code: FailureCode, c: Cleanup, t: Tail, k: Kind)
    requires TailOf(cfg, s, phase, code, c, t) && k in {KFailure, KAction, KControllerStopped, KControllerStarted}
    ensures Select(TailEvents(t), k) == TailPart(t, k)
  {
    SelectFour([t.failure], t.actions, t.settles, t.stops, k);
    FailureSelects(t.failure, k);
    ActionSelects(AnyUnfinished(s), c, t.actions, k);
    NoneOfKind(t.settles, k);
    StopSelects(t.stops, k);
  }

  lemma PartSelects(cfg: Config, s: Session, phase: FailurePhase, code: FailureCode, c: Cleanup, done: Session,
                    t: Tail, k: Kind)
    requires done.events == s.events + TailEvents(t) && TailOf(cfg, s, phase, code, c, t) && NoFailureYet(s.events)
    requires k in {KFailure, KAction, KControllerStopped}
    ensures Select(done.events, k) == TailPart(t, k)
  {
    SelectConcat(s.events, TailEvents(t), k);
    QuietSelects(s.events, k);
    TailSelects(cfg, s, phase, code, c, t, k);
  }

  /** The whole transcript's events of those kinds. */
  lemma ContainedSelects(cfg: Config, s: Session, phase: FailurePhase, code: FailureCode, c: Cleanup, done: Session,
                         t: Tail)
    requires ContainedBy(cfg, s, phase, code, c, done, t) && NoFailureYet(s.events)
    ensures Select(done.events, KFailure) == [t.failure] && Select(done.events, KAction) == t.actions
    ensures Select(done.events, KControllerStopped) == t.stops
  {
    PartSelects(cfg, s, phase, code, c, done, t, KFailure);
    PartSelects(cfg, s, phase, code, c, done, t, KAction);
    PartSelects(cfg, s, phase, code, c, done, t, KControllerStopped);
  }

  lemma OpenedSelects(cfg: Config, events: seq<Event>)
    requires Opened(cfg, events)
    ensures Select(events, KControllerStarted) == [events[0]]
  {
    var rest := events[1..];
    forall i
      ensures NotKind(rest, KControllerStarted, i)
    {
      if 0 <= i < |rest| {
        assert rest[i] == events[i + 1];
      }
    }
    SelectNone(rest, KControllerStarted);
    SelectConcat([events[0]], rest, KControllerStarted);
    assert events == [events[0]] + rest && KindOf(events[0].body) == KControllerStarted;
  }

  ghost predicate NoAdmission(events: seq<Event>, i: int) {
    0 <= i < |events| ==> !events[i].body.RoleBound? && !events[i].body.RoleStarted?
  }

  lemma TailAdmitsNone(cfg: Config, s: Session, phase: FailurePhase, code: FailureCode, c: Cleanup, t: Tail)
    requires TailOf(cfg, s, phase, code, c, t)
    ensures forall i :: NoAdmission(TailEvents(t), i)
  {
    forall i
      ensures NoAdmission(TailEvents(t), i)
    {
      assert SettlesAt(t.settles, i - 1 - |t.actions|);
    }
  }

  lemma NamesEvents(cfg: Config, s: Session, extra: nat)
    requires Consistent(cfg, s, extra)
    ensures NamesObserved(s.events, ObservedRolesOf(s))
  {
    var roles := ObservedRolesOf(s);
    StatesInOrder(cfg, s);
    forall i | 0 <= i < |s.events| && MentionsRole(s.events[i].body)
      ensures exists k | 0 <= k < |roles| ::
        roles[k].id.docker.role == s.events[i].body.role && roles[k].id.binding == s.events[i].body.binding
    {
      var r := s.events[i].body.role;
      assert ExplainedAt(s.events, s.roles, i) && IdentityKept(cfg, s.roles, r);
      assert StateAt(s, RoleIndex(r));
      assert roles[RoleIndex(r)].id == s.roles[r].id;
    }
  }

  lemma LinksEach(cfg: Config, s: Session, extra: nat)
    requires Consistent(cfg, s, extra)
    ensures forall k | 0 <= k < |ObservedRolesOf(s)| :: LinksObserved(s.events, ObservedRolesOf(s)[k])
  {
    StatesInOrder(cfg, s);
    forall k | 0 <= k < |ObservedRolesOf(s)|
      ensures LinksObserved(s.events, ObservedRolesOf(s)[k])
    {
      assert StateAt(s, k) && IdentityKept(cfg, s.roles, ROLES[k]);
      RoleLinks(s.events, s.roles, ROLES[k]);
    }
  }

  lemma ActionsMatch(acted: bool, c: Cleanup, actions: seq<Event>)
    requires ActionsTaken(acted, c, actions)
    ensures MatchesAction(actions, Freeze, StatusOf(acted, c.freeze))
            && MatchesAction(actions, Kill, StatusOf(acted, c.kill))
    ensures MatchesAction(actions, Reap, StatusOf(acted, ReapOf(c).succeeded)) && ActionsInOrder(actions)
  {
    if acted {
      assert actions == [actions[0], actions[1], actions[2]];
      ActionsOfThree(actions[0], actions[1], actions[2], Freeze);
      ActionsOfThree(actions[0], actions[1], actions[2], Kill);
      ActionsOfThree(actions[0], actions[1], actions[2], Reap);
    }
  }

  lemma ActionsOfAppend(actions: seq<Event>, e: Event, a: ContainmentAction)
    ensures ActionsOf(actions + [e], a) == ActionsOf(actions, a) + if e.body.Contained? && e.body.action == a then [e]
            else []
  {
    assert (actions + [e])[..|actions|] == actions;
  }

  lemma ActionsOfThree(x: Event, y: Event, z: Event, a: ContainmentAction)
    requires x.body.Contained? && x.body.action == Freeze && y.body.Contained? && y.body.action == Kill
    requires z.body.Contained? && z.body.action == Reap
    ensures ActionsOf([x, y, z], a) == match a { case Freeze => [x] case Kill => [y] case Reap => [z] }
  {
    ActionsOfAppend([], x, a);
    ActionsOfAppend([x], y, a);
    ActionsOfAppend([x, y], z, a);
    assert [] + [x] == [x] && [x] + [y] == [x, y] && [x, y] + [z] == [x, y, z];
  }

  /** Where the parts of the tail stand. */
  lemma TailPositions(cfg: Config, s: Session, phase: FailurePhase, code: FailureCode, c: Cleanup, done: Session,
                      t: Tail)
    requires ContainedBy(cfg, s, phase, code, c, done, t)
    ensures t.failure.position == |s.events| + 1
    ensures forall i | 0 <= i < |t.actions| :: t.failure.position < t.actions[i].position
    ensures forall i | 0 <= i < |done.events| && done.events[i].position > t.failure.position ::
              !done.events[i].body.RoleBound? && !done.events[i].body.RoleStarted?
    ensures t.stops != [] ==> t.stops == [done.events[|done.events| - 1]]
    ensures |done.events| == |s.events| + 1 + |t.actions| + |t.settles| + |t.stops|
  {
    var n, events, tail := |s.events|, done.events, TailEvents(t);
    assert events[n] == tail[0];
    forall i | 0 <= i < |t.actions|
      ensures t.failure.position < t.actions[i].position
    {
      assert events[n + 1 + i] == t.actions[i];
    }
    TailAdmitsNone(cfg, s, phase, code, c, t);
    forall i | 0 <= i < |events| && events[i].position > t.failure.position
      ensures !events[i].body.RoleBound? && !events[i].body.RoleStarted?
    {
      assert events[i] == tail[i - n] && NoAdmission(tail, i - n);
    }
    if t.stops != [] {
      assert events[|events| - 1] == tail[|tail| - 1] == t.stops[0];
    }
  }

  lemma TailStopsNamed(cfg: Config, s: Session, phase: FailurePhase, code: FailureCode, c: Cleanup, t: Tail)
    requires TailOf(cfg, s, phase, code, c, t)
    ensures forall i :: StopsNamed(cfg, TailEvents(t), i)
  {
    forall i
      ensures StopsNamed(cfg, TailEvents(t), i)
    {
      assert SettlesAt(t.settles, i - 1 - |t.actions|);
    }
  }

  lemma StopsAreNamed(cfg: Config, s: Session, phase: FailurePhase, code: FailureCode, c: Cleanup, done: Session,
                      t: Tail)
    requires done.events == s.events + TailEvents(t) && TailOf(cfg, s, phase, code, c, t) && NoFailureYet(s.events)
    ensures forall i :: StopsNamed(cfg, done.events, i)
  {
    TailStopsNamed(cfg, s, phase, code, c, t);
    forall i
      ensures StopsNamed(cfg, done.events, i)
    {
      assert StopsNamed(cfg, TailEvents(t), i - |s.events|);
      if 0 <= i < |s.events| {
        assert QuietEvent(s.events[i]);
      }
    }
  }

  /** A role executing at the failure was unfinished when the containment began. */
  lemma ActiveUnfinished(cfg: Config, s: Session, done: Session, extra: nat, r: Role)
    requires Consistent(cfg, s, 1) && Consistent(cfg, done, extra) && RolesKept(s.roles, done.roles, |s.events| + 1)
    requires r in done.roles && ActiveAt(done.events, r, |s.events| + 1)
    ensures AnyUnfinished(s)
  {
    assert KeptAt(s.roles, done.roles, |s.events| + 1, r);
    OnceSelected(done.events, done.roles, r);
    assert RecordedAt(s.events, s.roles, r);
  }

  lemma SomeActiveUnfinished(cfg: Config, s: Session, done: Session, extra: nat)
    requires Consistent(cfg, s, 1) && Consistent(cfg, done, extra) && RolesKept(s.roles, done.roles, |s.events| + 1)
    requires SomeActive(done.events, ObservedRolesOf(done), |s.events| + 1)
    ensures AnyUnfinished(s)
  {
    var roles := ObservedRolesOf(done);
    var k :| 0 <= k < |roles| && ActiveAt(done.events, roles[k].id.docker.role, |s.events| + 1);
    StatesInOrder(cfg, done);
    assert StateAt(done, k) && IdentityKept(cfg, done.roles, ROLES[k]);
    ActiveUnfinished(cfg, s, done, extra, ROLES[k]);
  }

  lemma ControllerLinks(cfg: Config, s: Session, phase: FailurePhase, code: FailureCode, c: Cleanup, done: Session,
                        t: Tail)
    requires ContainedBy(cfg, s, phase, code, c, done, t) && NoFailureYet(s.events)
    ensures LinksController(done.events, cfg.controller, phase, code, if c.stop then StopSucceeded else StopFailed)
    ensures FailureAt(done.events) == |s.events| + 1
  {
    ContainedSelects(cfg, s, phase, code, c, done, t);
    OpenedSelects(cfg, done.events);
    TailPositions(cfg, s, phase, code, c, done, t);
  }

  lemma ActionLinks(cfg: Config, s: Session, phase: FailurePhase, code: FailureCode, c: Cleanup, done: Session,
                    t: Tail, con: Containment)
    requires ContainedBy(cfg, s, phase, code, c, done, t) && NoFailureYet(s.events)
    requires con.freeze == StatusOf(AnyUnfinished(s), c.freeze) && con.kill == StatusOf(AnyUnfinished(s), c.kill)
    requires con.reap == StatusOf(AnyUnfinished(s), ReapOf(c).succeeded)
    ensures LinksActions(done.events, con)
  {
    ContainedSelects(cfg, s, phase, code, c, done, t);
    TailPositions(cfg, s, phase, code, c, done, t);
    ActionsMatch(AnyUnfinished(s), c, t.actions);
  }

  lemma FailureLinks(cfg: Config, s: Session, phase: FailurePhase, code: FailureCode, c: Cleanup, done: Session,
                     t: Tail, con: Containment)
    requires ContainedBy(cfg, s, phase, code, c, done, t) && Consistent(cfg, s, 1) && NoFailureYet(s.events)
    requires con.freeze == StatusOf(AnyUnfinished(s), c.freeze) && con.kill == StatusOf(AnyUnfinished(s), c.kill)
    requires con.reap == StatusOf(AnyUnfinished(s), ReapOf(c).succeeded)
    requires AnyUnfinished(s) ==> !con.status.NotRequired?
    ensures LinksFailure(done.events, ObservedRolesOf(done), cfg.controller, phase, code, con,
            if c.stop then StopSucceeded else StopFailed)
  {
    ControllerLinks(cfg, s, phase, code, c, done, t);
    ActionLinks(cfg, s, phase, code, c, done, t, con);
    NamesEvents(cfg, done, 2 + |t.actions| + |t.stops|);
    LinksEach(cfg, done, 2 + |t.actions| + |t.stops|);
    if SomeActive(done.events, ObservedRolesOf(done), |s.events| + 1) {
      SomeActiveUnfinished(cfg, s, done, 2 + |t.actions| + |t.stops|);
    }
  }

  // ---- acceptance ----

  /** When a failure code may be reported: the budget code exactly over the budget with a role
      to contain, and the action code only when an action fails. */
  ghost predicate Reportable(cfg: Config, s: Session, code: FailureCode, c: Cleanup) {
    (if code.CpuBudgetExceeded? then Aggregate(s.roles) > cfg.binding.budget && AnyUnfinished(s)
     else Aggregate(s.roles) <= cfg.binding.budget)
    && (code.ContainmentActionFailed? ==> ActionFails(s, c))
  }

  lemma ReleasedMeansFinished(cfg: Config, done: Session)
    requires Admissible(cfg, done.roles)
    ensures AllReleased(ObservedRolesOf(done)) <==> !AnyUnfinished(done)
  {
    var roles := ObservedRolesOf(done);
    StatesInOrder(cfg, done);
    if AllReleased(roles) {
      forall r | r in done.roles
        ensures done.roles[r].phase.ReleasedPhase?
      {
        assert StateAt(done, RoleIndex(r)) && roles[RoleIndex(r)].released;
      }
    } else {
      var k :| 0 <= k < |roles| && !roles[k].released;
      assert StateAt(done, k);
    }
  }

  lemma OutcomeConsistent(cfg: Config, s: Session, done: Session, phase: FailurePhase, code: FailureCode, c: Cleanup,
                          d: FailureDigests)
    requires Admissible(cfg, done.roles) && Aggregate(done.roles) == Aggregate(s.roles) && Reportable(cfg, s, code, c)
    requires ValidConfig(cfg) && PhaseOf(code) == phase && Aggregate(s.roles) <= MAX_UINT64
    ensures AcceptsOutcome(FailureBody(cfg, AnyUnfinished(s), done, phase, code, c, d))
  {
    ReleasedMeansFinished(cfg, done);
  }

  /** A misreport makes the acceptor refuse. */
  lemma OutcomeInconsistent(cfg: Config, s: Session, done: Session, phase: FailurePhase, code: FailureCode, c: Cleanup,
                            d: FailureDigests)
    requires Aggregate(done.roles) == Aggregate(s.roles) <= cfg.binding.budget
    requires code.CpuBudgetExceeded? || (code.ContainmentActionFailed? && !ActionFails(s, c))
    ensures !AcceptsOutcome(FailureBody(cfg, AnyUnfinished(s), done, phase, code, c, d))
  {}

  lemma RolesAccepted(cfg: Config, done: Session, extra: nat, body: Evidence)
    requires Consistent(cfg, done, extra) && Aggregate(done.roles) <= MAX_UINT64
    requires body.ObservedFailure? && body.binding == cfg.binding && body.observedRoles == ObservedRolesOf(done)
    requires body.aggregate == Aggregate(done.roles)
    ensures AcceptsRoles(cfg.h, body)
  {
    ObservedAccepted(cfg, done, extra);
    ObservedDistinct(cfg, done);
    ObservedSum(cfg, done);
    AggregateNonNegative(done.events, done.roles);
  }

  lemma AggregateNonNegative(events: seq<Event>, roles: map<Role, RoleState>)
    requires AllRecorded(events, roles)
    ensures 0 <= Aggregate(roles)
  {
    assert RecordedAt(events, roles, Egress) && RecordedAt(events, roles, Worker)
           && RecordedAt(events, roles, Verifier);
    forall r | r in roles
      ensures roles[r].baseline <= roles[r].last
    {
      assert RecordedAt(events, roles, r);
      NeverNegative(roles[r]);
    }
  }

  lemma FailureTranscript(cfg: Config, s: Session, phase: FailurePhase, code: FailureCode, c: Cleanup, done: Session,
                          t: Tail, transcript: string)
    requires ValidConfig(cfg) && NoFailureYet(s.events) && Consistent(cfg, s, 1)
             && ContainedBy(cfg, s, phase, code, c, done, t)
    requires Digest(cfg.h, TranscriptInput(cfg.binding.run, cfg.controller, done.events)) == Some(transcript)
    ensures AcceptsTranscript(cfg.h, cfg.binding, cfg.controller, done.events, |done.events|, transcript)
  {
    StopsAreNamed(cfg, s, phase, code, c, done, t);
    TranscriptValid(cfg, done, 2 + |t.actions| + |t.stops|);
  }

  lemma FailureAccepts(cfg: Config, s: Session, phase: FailurePhase, code: FailureCode, c: Cleanup, done: Session,
                       t: Tail, d: FailureDigests, sha: string)
    requires ValidConfig(cfg) && Containable(cfg, s) && ContainedBy(cfg, s, phase, code, c, done, t)
    requires PhaseOf(code) == phase && Reportable(cfg, s, code, c) && DigestsOf(cfg, done) == Some(d)
    requires Digest(cfg.h, EvidenceInput(FailureBody(cfg, AnyUnfinished(s), done, phase, code, c, d))) == Some(sha)
    requires IsSha256(sha)
    ensures AcceptsFailure(cfg.h, Sealed(FailureBody(cfg, AnyUnfinished(s), done, phase, code, c, d), sha), cfg.binding)
  {
    var body := FailureBody(cfg, AnyUnfinished(s), done, phase, code, c, d);
    KeptAggregate(s.roles, done.roles, |s.events| + 1);
    OutcomeConsistent(cfg, s, done, phase, code, c, d);
    RolesAccepted(cfg, done, 2 + |t.actions| + |t.stops|, body);
    FailureTranscript(cfg, s, phase, code, c, done, t, d.transcript);
    FailureLinks(cfg, s, phase, code, c, done, t, body.containment);
  }
}
