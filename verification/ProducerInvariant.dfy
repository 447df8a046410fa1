/** The link between the role records and the transcript, the order of the roles, the
    account and the size of the transcript: what one recorded event keeps. */
module ProducerInvariant {
  import opened Evidence
  import opened Acceptor
  import opened Producer

  // ---- one role ----

  ghost predicate Before(p: Option<int>, q: int) { p.Some? ==> p.value < q }

  /** A role's record on its own: phase, counters and the order of its positions. */
  ghost predicate Coherent(st: RoleState) {
    var n := |st.samples|;
    n == |st.positions| && 1 <= n <= MAX_ROLE_SAMPLES
    && (forall i | 0 <= i < n :: IsUint64(st.samples[i])) && NonDecreasing(st.samples)
    && st.samples[0] == st.baseline && st.samples[n - 1] == st.last
    && Increasing(st.positions) && 1 <= st.boundAt < st.positions[0]
    && (st.startedAt.Some? ==> st.boundAt < st.startedAt.value)
    && (st.stoppedAt.Some? ==> st.startedAt.Some? && st.startedAt.value < st.stoppedAt.value)
    && (st.releasedAt.Some? ==>
          st.positions[n - 1] < st.releasedAt.value && (st.startedAt.Some? ==> st.stoppedAt.Some?)
          && Before(st.stoppedAt, st.releasedAt.value))
    && (st.phase.BoundPhase? <==> st.startedAt.None? && st.releasedAt.None?)
    && (st.phase.RunningPhase? <==> st.startedAt.Some? && st.stoppedAt.None? && st.releasedAt.None?)
    && (st.phase.StoppedPhase? <==> st.stoppedAt.Some? && st.releasedAt.None?)
    && (st.phase.ReleasedPhase? <==> st.releasedAt.Some?)
  }

  /** Outside containment: the first sample precedes the start, later ones follow it, and
      exactly the last one follows the stop. */
  ghost predicate Bracketed(st: RoleState) {
    var n := |st.positions|;
    n >= 1 && |st.samples| == n
    && (st.startedAt.None? ==> n == 1 && st.stoppedAt.None? && st.releasedAt.None?)
    && (st.startedAt.Some? ==>
          st.positions[0] < st.startedAt.value && forall i | 1 <= i < n :: st.startedAt.value < st.positions[i])
    && (st.stoppedAt.Some? ==>
          n >= 2 && st.stoppedAt.value < st.positions[n - 1]
          && forall i | 1 <= i < n - 1 :: st.positions[i] < st.stoppedAt.value)
  }

  /** The record `st` is `old` after the event `e` of role `r`. */
  ghost predicate Advances(r: Role, was: RoleState, st: RoleState, e: Event) {
    var b := was.id.binding;
    (e.body == RoleStarted(r, b) && was.phase.BoundPhase? && st == Started(was, e.position))
    || (e.body == RoleStopped(r, b) && was.phase.RunningPhase? && st == Stopped(was, e.position))
    || (e.body == RoleReleased(r, b) && (was.phase.BoundPhase? || was.phase.StoppedPhase?)
      && st == Released(was, e.position))
    || (e.body.CpuSample? && e.body == CpuSample(r, b, |was.samples|, e.body.usage) && !was.phase.ReleasedPhase?
        && was.last <= e.body.usage && IsUint64(e.body.usage) && |was.samples| < MAX_ROLE_SAMPLES
        && st == Sampled(was, e.body.usage, e.position))
  }

  // ---- records against the transcript ----

  ghost predicate SampleAt(events: seq<Event>, r: Role, st: RoleState, i: int) {
    0 <= i < |st.positions| && |st.positions| == |st.samples| ==>
      At(events, st.positions[i], CpuSample(r, st.id.binding, i, st.samples[i]))
  }

  /** Every position a record names holds the event it claims. */
  ghost predicate Records(events: seq<Event>, r: Role, st: RoleState) {
    var b := st.id.binding;
    At(events, st.boundAt, RoleBound(r, b))
    && (st.startedAt.Some? ==> At(events, st.startedAt.value, RoleStarted(r, b)))
    && (st.stoppedAt.Some? ==> At(events, st.stoppedAt.value, RoleStopped(r, b)))
    && (st.releasedAt.Some? ==> At(events, st.releasedAt.value, RoleReleased(r, b)))
    && |st.positions| == |st.samples|
    && forall i :: SampleAt(events, r, st, i)
  }

  /** The event, if it names a role, is the one that role's record names. */
  ghost predicate Explained(roles: map<Role, RoleState>, e: Event) {
    MentionsRole(e.body) ==>
      e.body.role in roles && e.body.binding == roles[e.body.role].id.binding
      && ExplainedBy(roles[e.body.role], e)
  }

  ghost predicate ExplainedBy(st: RoleState, e: Event) {
    match e.body
    case RoleBound(_, _) => st.boundAt == e.position
    case RoleStarted(_, _) => st.startedAt == Some(e.position)
    case RoleStopped(_, _) => st.stoppedAt == Some(e.position)
    case RoleReleased(_, _) => st.releasedAt == Some(e.position)
    case CpuSample(_, _, i, _) => 0 <= i < |st.positions| && st.positions[i] == e.position
    case _ => true
  }

  ghost predicate ExplainedAt(events: seq<Event>, roles: map<Role, RoleState>, i: int) {
    0 <= i < |events| ==> Explained(roles, events[i])
  }

  ghost predicate AllExplained(events: seq<Event>, roles: map<Role, RoleState>) {
    forall i :: ExplainedAt(events, roles, i)
  }

  ghost predicate RecordedAt(events: seq<Event>, roles: map<Role, RoleState>, r: Role) {
    r in roles ==> Coherent(roles[r]) && Records(events, r, roles[r])
  }

  ghost predicate AllRecorded(events: seq<Event>, roles: map<Role, RoleState>) {
    forall r :: RecordedAt(events, roles, r)
  }

  ghost predicate IdentityKept(cfg: Config, roles: map<Role, RoleState>, r: Role) {
    r in roles ==> AcceptsIdentity(cfg.h, cfg.binding, roles[r].id, r)
  }

  ghost predicate Distinct(roles: map<Role, RoleState>, p: Role, q: Role) {
    p in roles && q in roles && p != q ==>
      roles[p].id.docker.containerId != roles[q].id.docker.containerId && roles[p].id.cgroup != roles[q].id.cgroup
      && roles[p].id.binding != roles[q].id.binding
  }

  /** The admitted identities: never changed by a later operation. */
  ghost predicate Admissible(cfg: Config, roles: map<Role, RoleState>) {
    (Worker in roles ==> Egress in roles) && (Verifier in roles ==> Worker in roles)
    && (forall r :: IdentityKept(cfg, roles, r)) && (forall p, q :: Distinct(roles, p, q))
  }

  ghost predicate Opened(cfg: Config, events: seq<Event>) {
    |events| >= 1 && events[0].body == ControllerStarted(cfg.controller)
    && forall i | 1 <= i < |events| :: !events[i].body.ControllerStarted?
  }

  ghost predicate ClockKept(s: Session) {
    Contiguous(s.events) && ClockAdvances(s.events) && (forall i | 0 <= i < |s.events| :: IsUint64(s.events[i].ns))
    && s.lastNs == (if s.events == [] then None else Some(s.events[|s.events| - 1].ns))
  }

  /** How many events a role has in the transcript. */
  function WeightOf(st: RoleState): nat {
    1 + |st.samples| + (if st.startedAt.Some? then 1 else 0) + (if st.stoppedAt.Some? then 1 else 0)
    + (if st.releasedAt.Some? then 1 else 0)
  }

  function Weight(roles: map<Role, RoleState>, r: Role): nat { if r in roles then WeightOf(roles[r]) else 0 }

  function TotalWeight(roles: map<Role, RoleState>): nat {
    Weight(roles, Egress) + Weight(roles, Worker) + Weight(roles, Verifier)
  }

  // ---- what one recorded event keeps ----

  /** The positions a record names are past ones. */
  ghost predicate InRange(st: RoleState, n: int) {
    1 <= st.boundAt <= n && |st.positions| == |st.samples|
      && (forall i | 0 <= i < |st.positions| :: 1 <= st.positions[i] <= n)
    && (st.startedAt.Some? ==> 1 <= st.startedAt.value <= n) && (st.stoppedAt.Some? ==> 1 <= st.stoppedAt.value <= n)
    && (st.releasedAt.Some? ==> 1 <= st.releasedAt.value <= n)
  }

  lemma RecordsInRange(r: Role, events: seq<Event>, st: RoleState)
    requires Records(events, r, st)
    ensures InRange(st, |events|)
  {
    forall i | 0 <= i < |st.positions|
      ensures 1 <= st.positions[i] <= |events|
    {
      assert SampleAt(events, r, st, i);
    }
  }

  lemma SampleCoherent(was: RoleState, usage: int, n: int)
    requires Coherent(was) && InRange(was, n) && !was.phase.ReleasedPhase? && was.last <= usage && IsUint64(usage)
    requires |was.samples| < MAX_ROLE_SAMPLES
    ensures Coherent(Sampled(was, usage, n + 1))
  {
    var st := Sampled(was, usage, n + 1);
    forall i, j | 0 <= i < j < |st.samples|
      ensures Below(st.positions, i, j) && AtMost(st.samples, i, j)
    {
      assert Below(was.positions, i, j) && AtMost(was.samples, i, j) && AtMost(was.samples, i, |was.samples| - 1);
    }
  }

  lemma AdvanceCoherent(r: Role, n: int, was: RoleState, st: RoleState, e: Event)
    requires Coherent(was) && InRange(was, n) && Advances(r, was, st, e) && e.position == n + 1
    ensures Coherent(st) && st.id == was.id && WeightOf(st) == WeightOf(was) + 1
  {
    if e.body.CpuSample? {
      SampleCoherent(was, e.body.usage, n);
    }
  }

  lemma NeverNegative(st: RoleState)
    requires Coherent(st)
    ensures 0 <= st.baseline <= st.last <= MAX_UINT64
  {
    assert AtMost(st.samples, 0, |st.samples| - 1);
  }

  lemma AdvanceRecords(r: Role, events: seq<Event>, was: RoleState, st: RoleState, e: Event)
    requires Records(events, r, was) && Advances(r, was, st, e) && e.position == |events| + 1
    ensures Records(events + [e], r, st)
  {
    forall i
      ensures SampleAt(events + [e], r, st, i)
    {
      assert SampleAt(events, r, was, i);
    }
  }

  lemma KeepRecords(r: Role, events: seq<Event>, st: RoleState, e: Event)
    requires Records(events, r, st)
    ensures Records(events + [e], r, st)
  {
    forall i
      ensures SampleAt(events + [e], r, st, i)
    {
      assert SampleAt(events, r, st, i);
    }
  }

  lemma AdvanceExplains(events: seq<Event>, roles: map<Role, RoleState>, r: Role, st: RoleState, e: Event)
    requires AllExplained(events, roles) && r in roles && Advances(r, roles[r], st, e) && Coherent(roles[r])
    ensures AllExplained(events + [e], roles[r := st])
  {
    var roles', events' := roles[r := st], events + [e];
    forall i
      ensures ExplainedAt(events', roles', i)
    {
      assert ExplainedAt(events, roles, i);
    }
  }

  lemma KeepExplained(events: seq<Event>, roles: map<Role, RoleState>, e: Event)
    requires AllExplained(events, roles) && Explained(roles, e)
    ensures AllExplained(events + [e], roles)
  {
    forall i
      ensures ExplainedAt(events + [e], roles, i)
    {
      assert ExplainedAt(events, roles, i);
    }
  }

  lemma AdvanceRecorded(events: seq<Event>, roles: map<Role, RoleState>, r: Role, st: RoleState, e: Event)
    requires AllRecorded(events, roles) && r in roles && Advances(r, roles[r], st, e) && e.position == |events| + 1
    ensures AllRecorded(events + [e], roles[r := st])
  {
    assert RecordedAt(events, roles, r);
    RecordsInRange(r, events, roles[r]);
    AdvanceCoherent(r, |events|, roles[r], st, e);
    AdvanceRecords(r, events, roles[r], st, e);
    var events', roles' := events + [e], roles[r := st];
    forall q
      ensures RecordedAt(events', roles', q)
    {
      assert RecordedAt(events, roles, q);
      if q in roles && q != r {
        KeepRecords(q, events, roles[q], e);
      }
    }
  }

  lemma KeepRecorded(events: seq<Event>, roles: map<Role, RoleState>, e: Event)
    requires AllRecorded(events, roles)
    ensures AllRecorded(events + [e], roles)
  {
    var events' := events + [e];
    forall q
      ensures RecordedAt(events', roles, q)
    {
      assert RecordedAt(events, roles, q);
      if q in roles {
        KeepRecords(q, events, roles[q], e);
      }
    }
  }

  lemma UpdateAdmissible(cfg: Config, roles: map<Role, RoleState>, r: Role, st: RoleState)
    requires Admissible(cfg, roles) && r in roles && roles[r].id == st.id
    ensures Admissible(cfg, roles[r := st])
  {
    var roles' := roles[r := st];
    forall q
      ensures IdentityKept(cfg, roles', q)
    {
      assert IdentityKept(cfg, roles, q);
    }
    forall p, q
      ensures Distinct(roles', p, q)
    {
      assert Distinct(roles, p, q);
    }
  }

  lemma UpdateWeighs(roles: map<Role, RoleState>, r: Role, st: RoleState)
    requires r in roles
    ensures TotalWeight(roles[r := st]) == TotalWeight(roles) - WeightOf(roles[r]) + WeightOf(st)
  {}

  lemma AddWeighs(roles: map<Role, RoleState>, r: Role, st: RoleState)
    requires r !in roles
    ensures TotalWeight(roles[r := st]) == TotalWeight(roles) + WeightOf(st)
  {}

  // ---- the session ----

  /** Holds between all appends, containment included; `extra` counts the events of no role. */
  ghost predicate Core(cfg: Config, events: seq<Event>, roles: map<Role, RoleState>, extra: nat) {
    Opened(cfg, events) && Admissible(cfg, roles) && AllRecorded(events, roles) && AllExplained(events, roles)
    && |events| == extra + TotalWeight(roles)
  }

  ghost predicate Consistent(cfg: Config, s: Session, extra: nat) {
    !s.poisoned && ClockKept(s) && Core(cfg, s.events, s.roles, extra)
  }

  /** The event a successful append adds. */
  function Added(s: Session, body: EventBody, clock: Clock): Event
    requires !Append(s, body, clock).poisoned
  {
    Event(|s.events| + 1, Append(s, body, clock).lastNs.value, body)
  }

  /** A successful append adds one event, past all others in position and time. */
  lemma AppendAdds(s: Session, body: EventBody, clock: Clock)
    requires ClockKept(s) && !Append(s, body, clock).poisoned
    ensures var s' := Append(s, body, clock);
            ClockKept(s') && !s.poisoned && s'.roles == s.roles && s'.terminal == s.terminal
            && |s.events| < MAX_EVENTS && s'.events == s.events + [Added(s, body, clock)]
  {
    var events := Append(s, body, clock).events;
    forall i, j | 0 <= i < j < |events|
      ensures Earlier(events, i, j)
    {
      assert Earlier(s.events, i, j) && Earlier(s.events, i, |s.events| - 1);
    }
  }

  lemma CoreAdvances(cfg: Config, events: seq<Event>, roles: map<Role, RoleState>, extra: nat, r: Role, st: RoleState,
                     e: Event)
    requires Core(cfg, events, roles, extra) && r in roles && Advances(r, roles[r], st, e) && e.position == |events| + 1
    ensures Core(cfg, events + [e], roles[r := st], extra)
  {
    assert RecordedAt(events, roles, r);
    RecordsInRange(r, events, roles[r]);
    AdvanceCoherent(r, |events|, roles[r], st, e);
    AdvanceRecorded(events, roles, r, st, e);
    AdvanceExplains(events, roles, r, st, e);
    UpdateAdmissible(cfg, roles, r, st);
    UpdateWeighs(roles, r, st);
  }

  lemma CoreExtends(cfg: Config, events: seq<Event>, roles: map<Role, RoleState>, extra: nat, e: Event)
    requires Core(cfg, events, roles, extra) && !MentionsRole(e.body) && !e.body.ControllerStarted?
    ensures Core(cfg, events + [e], roles, extra + 1)
  {
    KeepRecorded(events, roles, e);
    KeepExplained(events, roles, e);
  }

  /** An event of role `r` recorded in its record keeps consistency. */
  lemma AdvanceKeeps(cfg: Config, s: Session, extra: nat, r: Role, st: RoleState, body: EventBody, clock: Clock)
    requires Consistent(cfg, s, extra) && r in s.roles && !Append(s, body, clock).poisoned
    requires Advances(r, s.roles[r], st, Added(s, body, clock))
    ensures Consistent(cfg, AppendFor(s, r, st, body, clock), extra)
  {
    AppendAdds(s, body, clock);
    CoreAdvances(cfg, s.events, s.roles, extra, r, st, Added(s, body, clock));
  }

  /** So does an event of no role, which counts as one more. */
  lemma AppendKeeps(cfg: Config, s: Session, extra: nat, body: EventBody, clock: Clock)
    requires Consistent(cfg, s, extra) && !Append(s, body, clock).poisoned
    requires !MentionsRole(body) && !body.ControllerStarted?
    ensures Consistent(cfg, Append(s, body, clock), extra + 1)
  {
    AppendAdds(s, body, clock);
    CoreExtends(cfg, s.events, s.roles, extra, Added(s, body, clock));
  }
}
