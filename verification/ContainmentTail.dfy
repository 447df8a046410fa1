/** What one containment adds to a session: the shape of the transcript's tail and what stays
    of the role records. */
module ContainmentTail {
  import opened Evidence
  import opened Producer
  import opened ProducerInvariant
  import opened ProducerLive

  // ---- role records ----

  /** A record after containment: only the stop and the release may be new, past `n`. */
  ghost predicate SettledFrom(was: RoleState, st: RoleState, n: int) {
    st.id == was.id && st.baseline == was.baseline && st.last == was.last && st.samples == was.samples
    && st.positions == was.positions && st.boundAt == was.boundAt && st.startedAt == was.startedAt
    && (if was.stoppedAt.Some? then st.stoppedAt == was.stoppedAt else st.stoppedAt.Some? ==> st.stoppedAt.value > n)
    && (if was.releasedAt.Some? then st.releasedAt == was.releasedAt
      else st.releasedAt.Some? ==> st.releasedAt.value > n)
  }

  ghost predicate KeptAt(roles: map<Role, RoleState>, roles': map<Role, RoleState>, n: int, r: Role) {
    (r in roles <==> r in roles') && (r in roles ==> SettledFrom(roles[r], roles'[r], n))
  }

  ghost predicate RolesKept(roles: map<Role, RoleState>, roles': map<Role, RoleState>, n: int) {
    forall r :: KeptAt(roles, roles', n, r)
  }

  lemma KeptThrough(a: map<Role, RoleState>, b: map<Role, RoleState>, c: map<Role, RoleState>, n: int, m: int)
    requires RolesKept(a, b, n) && RolesKept(b, c, m) && n <= m
    ensures RolesKept(a, c, n)
  {
    forall r
      ensures KeptAt(a, c, n, r)
    {
      assert KeptAt(a, b, n, r) && KeptAt(b, c, m, r);
    }
  }

  lemma KeptSame(roles: map<Role, RoleState>, n: int)
    ensures RolesKept(roles, roles, n)
  {
    forall r
      ensures KeptAt(roles, roles, n, r)
    {}
  }

  lemma KeptUpdate(roles: map<Role, RoleState>, r: Role, st: RoleState, n: int)
    requires r in roles && SettledFrom(roles[r], st, n)
    ensures RolesKept(roles, roles[r := st], n)
  {
    var roles' := roles[r := st];
    forall q
      ensures KeptAt(roles, roles', n, q)
    {}
  }

  lemma KeptAggregate(roles: map<Role, RoleState>, roles': map<Role, RoleState>, n: int)
    requires RolesKept(roles, roles', n)
    ensures Aggregate(roles') == Aggregate(roles)
  {
    assert KeptAt(roles, roles', n, Egress) && KeptAt(roles, roles', n, Worker) && KeptAt(roles, roles', n, Verifier);
  }

  // ---- the tail ----

  ghost predicate SettlesAt(events: seq<Event>, i: int) {
    0 <= i < |events| ==> events[i].body.RoleStopped? || events[i].body.RoleReleased?
  }

  ghost predicate OnlySettles(events: seq<Event>) { forall i :: SettlesAt(events, i) }

  lemma OnlySettlesConcat(a: seq<Event>, b: seq<Event>)
    requires OnlySettles(a) && OnlySettles(b)
    ensures OnlySettles(a + b)
  {
    forall i
      ensures SettlesAt(a + b, i)
    {
      assert SettlesAt(a, i) && SettlesAt(b, i - |a|);
    }
  }

  /** `d` is `s` after appending `tail` and settling some roles. */
  ghost predicate Settled(cfg: Config, s: Session, d: Session, extra: nat, tail: seq<Event>) {
    Consistent(cfg, d, extra) && d.terminal == s.terminal && d.events == s.events + tail && OnlySettles(tail)
    && RolesKept(s.roles, d.roles, |s.events|)
  }

  ghost predicate Settles(cfg: Config, s: Session, d: Session, extra: nat) { exists t :: Settled(cfg, s, d, extra, t) }

  lemma SettlesThrough(cfg: Config, a: Session, b: Session, c: Session, extra: nat)
    requires Settles(cfg, a, b, extra) && Settles(cfg, b, c, extra)
    ensures Settles(cfg, a, c, extra)
  {
    var t :| Settled(cfg, a, b, extra, t);
    var u :| Settled(cfg, b, c, extra, u);
    OnlySettlesConcat(t, u);
    KeptThrough(a.roles, b.roles, c.roles, |a.events|, |b.events|);
    assert a.events + t + u == a.events + (t + u);
    assert Settled(cfg, a, c, extra, t + u);
  }

  /** One settling event. */
  lemma SettleEvent(cfg: Config, s: Session, extra: nat, r: Role, st: RoleState, body: EventBody, clock: Clock)
    requires Consistent(cfg, s, extra) && r in s.roles && !Append(s, body, clock).poisoned
    requires body.RoleStopped? || body.RoleReleased?
    requires Advances(r, s.roles[r], st, Added(s, body, clock)) && SettledFrom(s.roles[r], st, |s.events|)
    ensures Settled(cfg, s, AppendFor(s, r, st, body, clock), extra, [Added(s, body, clock)])
  {
    AppendAdds(s, body, clock);
    AdvanceKeeps(cfg, s, extra, r, st, body, clock);
    KeptUpdate(s.roles, r, st, |s.events|);
  }

  lemma SettleStop(cfg: Config, s: Session, extra: nat, r: Role, clock: Clock)
    requires Consistent(cfg, s, extra) && InPhase(s, r, RunningPhase) && !StopEvent(s, r, clock).poisoned
    ensures Settles(cfg, s, StopEvent(s, r, clock), extra)
    ensures InPhase(StopEvent(s, r, clock), r, StoppedPhase)
  {
    var st := s.roles[r];
    assert RecordedAt(s.events, s.roles, r);
    SettleEvent(cfg, s, extra, r, Stopped(st, |s.events| + 1), RoleStopped(r, st.id.binding), clock);
  }

  lemma SettleRelease(cfg: Config, s: Session, extra: nat, r: Role, clock: Clock)
    requires Consistent(cfg, s, extra) && (InPhase(s, r, BoundPhase) || InPhase(s, r, StoppedPhase))
    requires !ReleaseEvent(s, r, clock).poisoned
    ensures Settles(cfg, s, ReleaseEvent(s, r, clock), extra)
  {
    var st := s.roles[r];
    assert RecordedAt(s.events, s.roles, r);
    SettleEvent(cfg, s, extra, r, Released(st, |s.events| + 1), RoleReleased(r, st.id.binding), clock);
  }

  lemma SettledSame(cfg: Config, s: Session, extra: nat)
    requires Consistent(cfg, s, extra)
    ensures Settles(cfg, s, s, extra)
  {
    KeptSame(s.roles, |s.events|);
    assert Settled(cfg, s, s, extra, []);
  }

  lemma SettleRoleKeeps(cfg: Config, s: Session, extra: nat, r: Role, released: bool, clock: Clock)
    requires Consistent(cfg, s, extra) && !SettleRole(s, r, released, clock).poisoned
    ensures Settles(cfg, s, SettleRole(s, r, released, clock), extra)
  {
    SettledSame(cfg, s, extra);
    if r in s.roles && !s.roles[r].phase.ReleasedPhase? {
      var s1 := if s.roles[r].phase.RunningPhase? then StopEvent(s, r, clock) else s;
      if s.roles[r].phase.RunningPhase? {
        SettleStop(cfg, s, extra, r, clock);
      }
      if released {
        SettleRelease(cfg, s1, extra, r, clock);
        SettlesThrough(cfg, s, s1, ReleaseEvent(s1, r, clock), extra);
      }
    }
  }

  function SettleOthers(s: Session, c: Cleanup, clock: Clock): Session {
    SettleRole(SettleRole(s, Worker, Worker in c.released, clock), Verifier, Verifier in c.released, clock)
  }

  lemma SettleOthersKeeps(cfg: Config, s: Session, extra: nat, c: Cleanup, clock: Clock)
    requires Consistent(cfg, s, extra) && !SettleOthers(s, c, clock).poisoned
    ensures Settles(cfg, s, SettleOthers(s, c, clock), extra)
  {
    var s1 := SettleRole(s, Worker, Worker in c.released, clock);
    SettleRoleKeeps(cfg, s, extra, Worker, Worker in c.released, clock);
    SettleRoleKeeps(cfg, s1, extra, Verifier, Verifier in c.released, clock);
    SettlesThrough(cfg, s, s1, SettleOthers(s, c, clock), extra);
  }

  lemma SettleRolesKeeps(cfg: Config, s: Session, extra: nat, c: Cleanup, clock: Clock)
    requires Consistent(cfg, s, extra) && !SettleRoles(s, c, clock).poisoned
    ensures Settles(cfg, s, SettleRoles(s, c, clock), extra)
  {
    var s1 := SettleRole(s, Egress, Egress in c.released, clock);
    SettleRoleKeeps(cfg, s, extra, Egress, Egress in c.released, clock);
    SettleOthersKeeps(cfg, s1, extra, c, clock);
    SettlesThrough(cfg, s, s1, SettleRoles(s, c, clock), extra);
  }

  // ---- the whole containment ----

  /** The parts a containment appends. */
  datatype Tail = Tail(failure: Event, actions: seq<Event>, settles: seq<Event>, stops: seq<Event>)

  function TailEvents(t: Tail): seq<Event> { [t.failure] + t.actions + t.settles + t.stops }

  ghost predicate ActionsTaken(acted: bool, c: Cleanup, actions: seq<Event>) {
    if acted then
      |actions| == 3 && actions[0].body == Contained(Freeze, c.freeze) && actions[1].body == Contained(Kill, c.kill)
      && actions[2].body == Contained(Reap, ReapOf(c).succeeded)
    else actions == []
  }

  ghost predicate TailOf(cfg: Config, s: Session, phase: FailurePhase, code: FailureCode, c: Cleanup, t: Tail) {
    t.failure.body == FailureObserved(phase, code) && ActionsTaken(AnyUnfinished(s), c, t.actions)
      && OnlySettles(t.settles)
    && (if c.stop then |t.stops| == 1 && t.stops[0].body == ControllerStopped(cfg.controller) else t.stops == [])
  }

  ghost predicate ContainedBy(cfg: Config, s: Session, phase: FailurePhase, code: FailureCode, c: Cleanup,
                              done: Session, t: Tail) {
    Consistent(cfg, done, 2 + |t.actions| + |t.stops|) && done.terminal == s.terminal
    && done.events == s.events + TailEvents(t) && TailOf(cfg, s, phase, code, c, t)
    && RolesKept(s.roles, done.roles, |s.events| + 1)
  }

  ghost predicate ActsBy(s: Session, d: Session, c: Cleanup, actions: seq<Event>) {
    d.events == s.events + actions && d.roles == s.roles && d.terminal == s.terminal
    && |actions| == 3 && actions[0].body == Contained(Freeze, c.freeze) && actions[1].body == Contained(Kill, c.kill)
    && actions[2].body == Contained(Reap, ReapOf(c).succeeded)
  }

  lemma ActsKeep(cfg: Config, s: Session, extra: nat, c: Cleanup, clock: Clock)
    requires Consistent(cfg, s, extra) && !ActOnRoles(s, c, clock).poisoned
    ensures Consistent(cfg, ActOnRoles(s, c, clock), extra + 3)
    ensures exists actions :: ActsBy(s, ActOnRoles(s, c, clock), c, actions)
  {
    var b1, b2, b3 := Contained(Freeze, c.freeze), Contained(Kill, c.kill), Contained(Reap, ReapOf(c).succeeded);
    var s1 := Append(s, b1, clock);
    var s2 := Append(s1, b2, clock);
    AppendKeeps(cfg, s, extra, b1, clock);
    AppendKeeps(cfg, s1, extra + 1, b2, clock);
    AppendKeeps(cfg, s2, extra + 2, b3, clock);
    AppendAdds(s, b1, clock);
    AppendAdds(s1, b2, clock);
    AppendAdds(s2, b3, clock);
    assert ActsBy(s, Append(s2, b3, clock), c, [Added(s, b1, clock), Added(s1, b2, clock), Added(s2, b3, clock)]);
  }

  ghost predicate HandledBy(s: Session, d: Session, acted: bool, c: Cleanup, actions: seq<Event>, settles: seq<Event>) {
    d.events == s.events + actions + settles && d.terminal == s.terminal && OnlySettles(settles)
    && ActionsTaken(acted, c, actions) && RolesKept(s.roles, d.roles, |s.events|)
  }

  lemma ActsThenSettles(cfg: Config, s: Session, m: Session, d: Session, extra: nat, c: Cleanup, actions: seq<Event>,
                        t: seq<Event>)
    requires ActsBy(s, m, c, actions) && Settled(cfg, m, d, extra, t)
    ensures HandledBy(s, d, true, c, actions, t)
  {
    KeptSame(s.roles, |s.events|);
    KeptThrough(s.roles, m.roles, d.roles, |s.events|, |m.events|);
  }

  lemma ActedKeeps(cfg: Config, s: Session, extra: nat, c: Cleanup, clock: Clock)
    requires Consistent(cfg, s, extra) && !Handled(s, true, c, clock).poisoned
    ensures Consistent(cfg, Handled(s, true, c, clock), extra + 3)
    ensures exists actions, settles :: HandledBy(s, Handled(s, true, c, clock), true, c, actions, settles)
  {
    var m := ActOnRoles(s, c, clock);
    assert !m.poisoned;
    ActsKeep(cfg, s, extra, c, clock);
    var actions :| ActsBy(s, m, c, actions);
    SettleRolesKeeps(cfg, m, extra + 3, c, clock);
    var t :| Settled(cfg, m, SettleRoles(m, c, clock), extra + 3, t);
    ActsThenSettles(cfg, s, m, SettleRoles(m, c, clock), extra + 3, c, actions, t);
  }

  lemma HandledKeeps(cfg: Config, s: Session, extra: nat, acted: bool, c: Cleanup, clock: Clock)
    requires Consistent(cfg, s, extra) && !Handled(s, acted, c, clock).poisoned
    ensures Consistent(cfg, Handled(s, acted, c, clock), extra + if acted then 3 else 0)
    ensures exists actions, settles :: HandledBy(s, Handled(s, acted, c, clock), acted, c, actions, settles)
  {
    if acted {
      ActedKeeps(cfg, s, extra, c, clock);
    } else {
      KeptSame(s.roles, |s.events|);
      assert HandledBy(s, s, acted, c, [], []);
    }
  }

  lemma StopsKeep(cfg: Config, s: Session, m: Session, d: Session, phase: FailurePhase, code: FailureCode, c: Cleanup,
                  f: Event, actions: seq<Event>, settles: seq<Event>)
    requires ClockKept(m) && m.events == s.events + [f] && f.body == FailureObserved(phase, code)
    requires m.roles == s.roles && m.terminal == s.terminal
    requires HandledBy(m, d, AnyUnfinished(s), c, actions, settles) && Consistent(cfg, d, 2 + |actions|)
    ensures !c.stop ==> ContainedBy(cfg, s, phase, code, c, d, Tail(f, actions, settles, []))
    ensures forall e: Event, d': Session | e.body == ControllerStopped(cfg.controller) && c.stop
              && d'.events == d.events + [e] && d'.roles == d.roles && d'.terminal == d.terminal
                && Consistent(cfg, d', 3 + |actions|) ::
              ContainedBy(cfg, s, phase, code, c, d', Tail(f, actions, settles, [e]))
  {}

  /** A containment that records everything keeps consistency and appends exactly its tail. */
  lemma ContainKeeps(cfg: Config, s: Session, phase: FailurePhase, code: FailureCode, c: Cleanup, clock: Clock)
    requires Consistent(cfg, s, 1) && !ContainedSession(cfg, s, phase, code, c, clock).poisoned
    ensures exists t :: ContainedBy(cfg, s, phase, code, c, ContainedSession(cfg, s, phase, code, c, clock), t)
  {
    var body, stop := FailureObserved(phase, code), ControllerStopped(cfg.controller);
    var m := Append(s, body, clock);
    var d := Handled(m, AnyUnfinished(s), c, clock);
    AppendKeeps(cfg, s, 1, body, clock);
    AppendAdds(s, body, clock);
    HandledKeeps(cfg, m, 2, AnyUnfinished(s), c, clock);
    var actions, settles :| HandledBy(m, d, AnyUnfinished(s), c, actions, settles);
    StopsKeep(cfg, s, m, d, phase, code, c, Added(s, body, clock), actions, settles);
    if c.stop {
      AppendKeeps(cfg, d, 2 + |actions|, stop, clock);
      AppendAdds(d, stop, clock);
    }
  }

  // ---- what a containment does to the order ----

  /** Up to its failure event a containment keeps the order. */
  lemma ContainOrdered(cfg: Config, s: Session, phase: FailurePhase, code: FailureCode, c: Cleanup, done: Session,
                       t: Tail)
    requires Intact(cfg, s) && ContainedBy(cfg, s, phase, code, c, done, t)
    ensures OrderedUntilFailure(done)
  {
    var n := |s.events| + 1;
    RolesOrderedTo(s.events, s.roles, n);
    assert KeptAt(s.roles, done.roles, n, Egress) && KeptAt(s.roles, done.roles, n, Worker)
           && KeptAt(s.roles, done.roles, n, Verifier);
    assert OrderedTo(done.roles, n) && FailedAt(done.events, n);
  }

  lemma EgressSettles(s: Session, released: bool, clock: Clock)
    requires InPhase(s, Egress, RunningPhase) && !SettleRole(s, Egress, released, clock).poisoned
    ensures var d := SettleRole(s, Egress, released, clock);
            Egress in d.roles && d.roles[Egress].stoppedAt == Some(|s.events| + 1) && |d.events| > |s.events|
            && (Worker in d.roles <==> Worker in s.roles) && (Worker in s.roles ==> d.roles[Worker] == s.roles[Worker])
  {
    var s1 := StopEvent(s, Egress, clock);
    assert !s.poisoned && !s1.poisoned;
  }

  /** The stop of egress `p` is kept, and the worker, unless it was, is released only after. */
  ghost predicate StoppedFirst(roles: map<Role, RoleState>, p: int) {
    Egress in roles && roles[Egress].stoppedAt == Some(p)
    && (Worker in roles && roles[Worker].releasedAt.Some? ==> roles[Worker].releasedAt.value > p)
  }

  lemma KeptStopsFirst(roles: map<Role, RoleState>, roles': map<Role, RoleState>, n: int, p: int)
    requires RolesKept(roles, roles', n) && StoppedFirst(roles, p) && p <= n
    ensures StoppedFirst(roles', p)
  {
    assert KeptAt(roles, roles', n, Egress) && KeptAt(roles, roles', n, Worker);
  }

  lemma SettledStopsFirst(cfg: Config, s: Session, d: Session, extra: nat, p: int)
    requires Settles(cfg, s, d, extra) && StoppedFirst(s.roles, p) && p <= |s.events|
    ensures StoppedFirst(d.roles, p)
  {
    var t :| Settled(cfg, s, d, extra, t);
    KeptStopsFirst(s.roles, d.roles, |s.events|, p);
  }

  /** Egress, if it runs, is stopped before any release that settling makes. */
  lemma EgressSettlesFirst(cfg: Config, s: Session, extra: nat, c: Cleanup, clock: Clock)
    requires Consistent(cfg, s, extra) && InPhase(s, Egress, RunningPhase) && !SettleRoles(s, c, clock).poisoned
    requires Worker in s.roles ==> s.roles[Worker].releasedAt.None?
    ensures StoppedFirst(SettleRoles(s, c, clock).roles, |s.events| + 1)
  {
    var s1 := SettleRole(s, Egress, Egress in c.released, clock);
    EgressSettles(s, Egress in c.released, clock);
    SettleRoleKeeps(cfg, s, extra, Egress, Egress in c.released, clock);
    SettleOthersKeeps(cfg, s1, extra, c, clock);
    SettledStopsFirst(cfg, s1, SettleRoles(s, c, clock), extra, |s.events| + 1);
  }
}
