/** The independent acceptor of CPU evidence, version 2: predicates for what it admits, and
    its loops proved against them. */
module Acceptor {
  import opened Evidence

  // ---- transcript ----

  predicate ValidEvent(e: Event) {
    1 <= e.position <= MAX_EVENTS && IsUint64(e.ns)
    && match e.body
       case ControllerStarted(c) => IsSha256(c)
       case ControllerStopped(c) => IsSha256(c)
       case RoleBound(_, b) => IsSha256(b)
       case RoleStarted(_, b) => IsSha256(b)
       case RoleStopped(_, b) => IsSha256(b)
       case RoleReleased(_, b) => IsSha256(b)
       case CpuSample(_, b, index, usage) => IsSha256(b) && 0 <= index < MAX_ROLE_SAMPLES && IsUint64(usage)
       case FailureObserved(_, _) => true
       case Contained(_, _) => true
  }

  predicate Contiguous(events: seq<Event>) {
    forall i | 0 <= i < |events| :: events[i].position == i + 1
  }

  // Pairwise orders are quantified by name, so that proofs choose the pairs they look at.
  predicate Earlier(events: seq<Event>, i: int, j: int) { 0 <= i < j < |events| ==> events[i].ns < events[j].ns }
  predicate ClockAdvances(events: seq<Event>) { forall i, j | 0 <= i < j < |events| :: Earlier(events, i, j) }

  predicate ValidTranscript(events: seq<Event>) {
    2 <= |events| <= MAX_EVENTS && (forall i | 0 <= i < |events| :: ValidEvent(events[i]))
    && Contiguous(events) && ClockAdvances(events)
  }

  method ParseEvents(events: seq<Event>) returns (ok: bool)
    ensures ok <==> ValidTranscript(events)
  {
    if |events| < 2 || |events| > MAX_EVENTS || exists i | 0 <= i < |events| :: !ValidEvent(events[i]) {
      return false;
    }
    var previous := -1;
    var index := 0;
    while index < |events|
      invariant 0 <= index <= |events|
      invariant forall i | 0 <= i < index :: events[i].position == i + 1 && events[i].ns <= previous
      invariant forall i, j | 0 <= i < j < index :: events[i].ns < events[j].ns
      invariant previous == if index == 0 then -1 else events[index - 1].ns
    {
      var event := events[index];
      if event.position != index + 1 {
        return false;
      }
      if event.ns <= previous {
        assert ValidEvent(events[index]) && !Earlier(events, index - 1, index);
        return false;
      }
      previous := event.ns;
      index := index + 1;
    }
    return true;
  }

  method FilterEvents(events: seq<Event>, k: Kind) returns (matching: seq<Event>)
    ensures matching == Select(events, k)
  {
    matching := [];
    for i := 0 to |events|
      invariant matching == Select(events[..i], k)
    {
      assert events[..i + 1] == events[..i] + [events[i]];
      SelectAppend(events[..i], events[i], k);
      if KindOf(events[i].body) == k {
        matching := matching + [events[i]];
      }
    }
    assert events[..|events|] == events;
  }

  // ---- base ----

  predicate AcceptsBase(h: Hash, value: Sealed, expected: Binding) {
    ValidBinding(value.body.binding) && IsSha256(value.sha)
    && Digest(h, EvidenceInput(value.body)) == Some(value.sha) && value.body.binding == expected
  }

  predicate AcceptsTranscript(h: Hash, b: Binding, controller: string, events: seq<Event>,
                              eventCount: int, transcriptSha: string) {
    IsSha256(controller) && ValidTranscript(events) && eventCount == |events|
    && events[0].body == ControllerStarted(controller)
    && Digest(h, TranscriptInput(b.run, controller, events)) == Some(transcriptSha)
  }

  predicate AcceptsIdentity(h: Hash, b: Binding, id: Identity, role: Role) {
    ValidIdentity(id) && id.docker.role == role
    && Digest(h, RoleBindingOf(b.run, id.docker, id.cgroup)) == Some(id.binding)
  }

  predicate DistinctIdentities(ids: seq<Identity>) {
    forall i, j | 0 <= i < j < |ids| ::
      ids[i].docker.containerId != ids[j].docker.containerId && ids[i].cgroup != ids[j].cgroup
  }

  // ---- observed success ----

  predicate AtMost(xs: seq<int>, i: int, j: int) { 0 <= i < j < |xs| ==> xs[i] <= xs[j] }
  predicate NonDecreasing(xs: seq<int>) { forall i, j | 0 <= i < j < |xs| :: AtMost(xs, i, j) }

  predicate Below(xs: seq<int>, i: int, j: int) { 0 <= i < j < |xs| ==> xs[i] < xs[j] }
  predicate Increasing(xs: seq<int>) { forall i, j | 0 <= i < j < |xs| :: Below(xs, i, j) }

  method CheckSamples(samples: seq<int>, positions: seq<int>) returns (ok: bool)
    requires |samples| >= 1 && |positions| >= 1
    ensures ok <==> NonDecreasing(samples) && Increasing(positions)
  {
    var index := 1;
    while index < |samples|
      invariant 1 <= index <= |samples|
      invariant forall i, j | 0 <= i < j < index :: samples[i] <= samples[j]
    {
      if samples[index] < samples[index - 1] {
        assert !AtMost(samples, index - 1, index);
        return false;
      }
      index := index + 1;
    }
    index := 1;
    while index < |positions|
      invariant 1 <= index <= |positions|
      invariant NonDecreasing(samples)
      invariant forall i, j | 0 <= i < j < index :: positions[i] < positions[j]
    {
      if positions[index] <= positions[index - 1] {
        assert !Below(positions, index - 1, index);
        return false;
      }
      index := index + 1;
    }
    return true;
  }

  predicate AcceptsRoleProof(h: Hash, b: Binding, p: RoleProof, role: Role) {
    AcceptsIdentity(h, b, p.id, role) && p.released
    && 2 <= |p.samples| <= MAX_ROLE_SAMPLES
    && (forall i | 0 <= i < |p.samples| :: IsUint64(p.samples[i])) && NonDecreasing(p.samples)
    && p.sampleCount == |p.samples| == |p.samplePositions|
    && (forall i | 0 <= i < |p.samplePositions| :: 1 <= p.samplePositions[i] <= MAX_EVENTS)
    && Increasing(p.samplePositions)
    && p.samples[0] == p.baseline && p.samples[|p.samples| - 1] == p.final
    && IsUint64(p.delta) && p.final - p.baseline == p.delta
    && 1 <= p.boundAt <= MAX_EVENTS && 1 <= p.startedAt <= MAX_EVENTS
    && 1 <= p.stoppedAt <= MAX_EVENTS && 1 <= p.releasedAt <= MAX_EVENTS
  }

  predicate At(events: seq<Event>, position: int, body: EventBody) {
    1 <= position <= |events| && events[position - 1].body == body
  }

  function SampleBody(p: RoleProof, i: nat): EventBody
    requires i < |p.samples|
  {
    CpuSample(p.id.docker.role, p.id.binding, i, p.samples[i])
  }

  predicate LinksRole(events: seq<Event>, p: RoleProof) {
    var role, binding, n := p.id.docker.role, p.id.binding, |p.samples|;
    2 <= n == |p.samplePositions|
    && At(events, p.boundAt, RoleBound(role, binding)) && At(events, p.startedAt, RoleStarted(role, binding))
    && At(events, p.stoppedAt, RoleStopped(role, binding)) && At(events, p.releasedAt, RoleReleased(role, binding))
    && p.boundAt < p.startedAt < p.stoppedAt < p.releasedAt
    && (forall i | 0 <= i < n :: At(events, p.samplePositions[i], SampleBody(p, i)))
    && p.boundAt < p.samplePositions[0] < p.startedAt
    && p.stoppedAt < p.samplePositions[n - 1] < p.releasedAt
    && (forall i | 1 <= i < n - 1 :: p.startedAt < p.samplePositions[i] < p.stoppedAt)
  }

  function PositionsOf(p: RoleProof): set<int> {
    {p.boundAt, p.startedAt, p.stoppedAt, p.releasedAt} + set x | x in p.samplePositions
  }

  function LinkedPositions(n: int, roles: seq<RoleProof>): set<int> {
    if roles == [] then {1, n}
    else LinkedPositions(n, roles[..|roles| - 1]) + PositionsOf(roles[|roles| - 1])
  }

  predicate LinkedExactly(events: seq<Event>, roles: seq<RoleProof>) {
    |LinkedPositions(|events|, roles)| == |events|
    && forall i | 0 <= i < |events| :: events[i].position in LinkedPositions(|events|, roles)
  }

  method CheckLinkedExactly(events: seq<Event>, roles: seq<RoleProof>) returns (ok: bool)
    ensures ok <==> LinkedExactly(events, roles)
  {
    var expected := {1, |events|};
    for k := 0 to |roles|
      invariant expected == LinkedPositions(|events|, roles[..k])
    {
      assert roles[..k + 1][..k] == roles[..k];
      var entry := roles[k];
      expected := expected + {entry.boundAt, entry.startedAt, entry.stoppedAt, entry.releasedAt};
      ghost var before := expected;
      for i := 0 to |entry.samplePositions|
        invariant expected == before + set x | x in entry.samplePositions[..i]
      {
        expected := expected + {entry.samplePositions[i]};
      }
      assert entry.samplePositions[..|entry.samplePositions|] == entry.samplePositions;
    }
    assert roles[..|roles|] == roles;
    return |expected| == |events| && forall i | 0 <= i < |events| :: events[i].position in expected;
  }

  function SumDeltas(roles: seq<RoleProof>): int {
    if roles == [] then 0 else SumDeltas(roles[..|roles| - 1]) + roles[|roles| - 1].delta
  }

  lemma LinkedPositionsOfThree(n: int, a: RoleProof, b: RoleProof, c: RoleProof)
    ensures LinkedPositions(n, [a, b, c]) == {1, n} + PositionsOf(a) + PositionsOf(b) + PositionsOf(c)
  {
    assert [a, b, c][..2] == [a, b] && [a, b][..1] == [a] && [a][..0] == [];
    assert LinkedPositions(n, [a, b]) == LinkedPositions(n, [a]) + PositionsOf(b);
  }

  lemma SumOfThree(a: RoleProof, b: RoleProof, c: RoleProof)
    ensures SumDeltas([a, b, c]) == a.delta + b.delta + c.delta
  {
    assert [a, b, c][..2] == [a, b] && [a, b][..1] == [a] && [a][..0] == [];
    assert SumDeltas([a, b]) == SumDeltas([a]) + b.delta;
  }

  function ProofIds(roles: seq<RoleProof>): seq<Identity> {
    seq(|roles|, i requires 0 <= i < |roles| => roles[i].id)
  }

  function ClockAt(events: seq<Event>, position: int): int {
    if 1 <= position <= |events| then events[position - 1].ns else 0
  }

  /** Egress brackets worker, the verifier follows, and an egress sample falls strictly inside
      the worker's execution; all by the transcript's clock. */
  predicate OrderedByClock(events: seq<Event>, roles: seq<RoleProof>)
    requires |roles| == 3
  {
    var egress, worker, verifier := roles[0], roles[1], roles[2];
    ClockAt(events, egress.startedAt) < ClockAt(events, worker.startedAt)
    && ClockAt(events, worker.startedAt) < ClockAt(events, worker.stoppedAt)
    && ClockAt(events, worker.stoppedAt) < ClockAt(events, egress.stoppedAt)
    && ClockAt(events, egress.stoppedAt) < ClockAt(events, verifier.startedAt)
    && ClockAt(events, verifier.startedAt) < ClockAt(events, verifier.stoppedAt)
    && exists i | 0 <= i < |egress.samplePositions| ::
         ClockAt(events, worker.startedAt) < ClockAt(events, egress.samplePositions[i])
         && ClockAt(events, egress.samplePositions[i]) < ClockAt(events, worker.stoppedAt)
  }

  predicate ProvesRole(h: Hash, b: Binding, events: seq<Event>, roles: seq<RoleProof>, i: int) {
    0 <= i < |roles| && i < 3 ==> AcceptsRoleProof(h, b, roles[i], ROLES[i]) && LinksRole(events, roles[i])
  }

  /** The three role proofs and their links to the transcript. */
  predicate AcceptsProofs(h: Hash, b: Binding, events: seq<Event>, roles: seq<RoleProof>) {
    |roles| == 3
    && (forall i | 0 <= i < 3 :: ProvesRole(h, b, events, roles, i))
    && DistinctIdentities(ProofIds(roles))
    && (forall i, j | 0 <= i < j < 3 :: roles[i].id.binding != roles[j].id.binding)
    && LinkedExactly(events, roles) && OrderedByClock(events, roles)
  }

  predicate AcceptsObserved(h: Hash, value: Sealed, expected: Binding) {
    var e := value.body;
    e.Observed? && AcceptsBase(h, value, expected)
    && (e.nonCpu.Some? ==> ConsistentNonCpu(e.nonCpu.value))
    && AcceptsTranscript(h, e.binding, e.controller, e.events, e.eventCount, e.transcriptSha)
    && e.events[|e.events| - 1].body == ControllerStopped(e.controller)
    && AcceptsProofs(h, e.binding, e.events, e.roles)
    && IsUint64(e.aggregate) && e.aggregate == SumDeltas(e.roles) && e.aggregate <= e.binding.budget
    && Digest(h, DockerBindingOf(e.binding, ProofIds(e.roles))) == Some(e.dockerBinding)
  }

  // ---- observed failure ----

  predicate AcceptsObservedRole(h: Hash, b: Binding, o: ObservedRole, role: Role) {
    AcceptsIdentity(h, b, o.id, role) && 0 <= o.sampleCount <= MAX_ROLE_SAMPLES
    && if o.sampleCount == 0 then o.baseline.None? && o.last.None? && o.delta.None?
       else o.baseline.Some? && o.last.Some? && o.delta.Some?
            && IsUint64(o.baseline.value) && IsUint64(o.last.value) && IsUint64(o.delta.value)
            && o.baseline.value <= o.last.value && o.last.value - o.baseline.value == o.delta.value
  }

  predicate ConsistentContainment(c: Containment) {
    (c.status.NotRequired? ==> c.freeze.NotAttempted? && c.kill.NotAttempted? && c.reap.NotAttempted?)
    && (c.status.ContainmentSucceeded? ==> c.freeze.Succeeded? && c.kill.Succeeded? && c.reap.Succeeded?)
  }

  function UsageOf(e: Event): int { if e.body.CpuSample? then e.body.usage else 0 }
  function IndexOf(e: Event): int { if e.body.CpuSample? then e.body.index else -1 }

  /** Every event that names a role names an observed one by its binding. */
  predicate NamesObserved(events: seq<Event>, roles: seq<ObservedRole>) {
    forall i | 0 <= i < |events| && MentionsRole(events[i].body) ::
      exists k | 0 <= k < |roles| ::
        roles[k].id.docker.role == events[i].body.role && roles[k].id.binding == events[i].body.binding
  }

  method CheckNamesObserved(events: seq<Event>, roles: seq<ObservedRole>) returns (ok: bool)
    requires forall i, j | 0 <= i < j < |roles| :: roles[i].id.docker.role != roles[j].id.docker.role
    ensures ok <==> NamesObserved(events, roles)
  {
    var roleMap: map<Role, ObservedRole> := map[];
    for k := 0 to |roles|
      invariant forall r :: r in roleMap <==> exists i | 0 <= i < k :: roles[i].id.docker.role == r
      invariant forall i | 0 <= i < k ::
                roles[i].id.docker.role in roleMap && roleMap[roles[i].id.docker.role] == roles[i]
    {
      roleMap := roleMap[roles[k].id.docker.role := roles[k]];
    }
    for i := 0 to |events|
      invariant NamesObserved(events[..i], roles)
    {
      var body := events[i].body;
      if MentionsRole(body) {
        if body.role !in roleMap || roleMap[body.role].id.binding != body.binding {
          assert !exists k | 0 <= k < |roles| ::
            roles[k].id.docker.role == events[i].body.role && roles[k].id.binding == events[i].body.binding;
          return false;
        }
      }
    }
    assert events[..|events|] == events;
    return true;
  }

  /** The per-role part of a failure transcript, over the role's own events. */
  predicate LinksObserved(events: seq<Event>, o: ObservedRole) {
    var r := o.id.docker.role;
    var bound, samples := Select(events, KBound(r)), Select(events, KSample(r));
    var starts, stops, releases := Select(events, KStarted(r)), Select(events, KStopped(r)),
      Select(events, KReleased(r));
    && |bound| == 1
    && |samples| == o.sampleCount
    && (forall i | 0 <= i < |samples| :: IndexOf(samples[i]) == i)
    && (forall i | 1 <= i < |samples| :: UsageOf(samples[i - 1]) <= UsageOf(samples[i]))
    && (|samples| == 0 ==> o.baseline.None?)
    && (|samples| > 0 ==> o.baseline == Some(UsageOf(samples[0])) && o.last == Some(UsageOf(samples[|samples| - 1])))
    && |starts| <= 1 && |stops| <= 1 && |releases| <= 1
    && (|starts| == 1 ==> bound[0].position < starts[0].position)
    && (|stops| == 1 ==> |starts| == 1 && starts[0].position < stops[0].position)
    && (forall i | 0 <= i < |samples| :: bound[0].position < samples[i].position)
    && (|releases| == 1 ==>
          (forall i | 0 <= i < |samples| :: samples[i].position < releases[0].position)
          && (|starts| == 1 ==> |stops| == 1 && stops[0].position < releases[0].position)
          && (|starts| == 0 ==> bound[0].position < releases[0].position))
    && (|releases| == 1 <==> o.released)
  }

  /** The role was executing when the failure at `position` was observed. */
  predicate ActiveAt(events: seq<Event>, r: Role, position: int) {
    var starts, stops := Select(events, KStarted(r)), Select(events, KStopped(r));
    |starts| == 1 && starts[0].position < position
    && (|stops| == 0 || stops[0].position > position)
  }

  function ActionsOf(events: seq<Event>, a: ContainmentAction): seq<Event> {
    if events == [] then []
    else
      var rest := ActionsOf(events[..|events| - 1], a);
      var last := events[|events| - 1];
      if last.body.Contained? && last.body.action == a then rest + [last] else rest
  }

  predicate MatchesAction(actions: seq<Event>, a: ContainmentAction, status: ActionStatus) {
    var matching := ActionsOf(actions, a);
    if status.NotAttempted? then matching == []
    else |matching| == 1 && matching[0].body == Contained(a, status.Succeeded?)
  }

  /** FREEZE, KILL, REAP in that order, possibly cut short. */
  predicate ActionsInOrder(actions: seq<Event>) {
    |actions| <= 3 && forall i | 0 <= i < |actions| ::
      actions[i].body.Contained? && actions[i].body.action == [Freeze, Kill, Reap][i]
  }

  /** The position of the single failure. */
  function FailureAt(events: seq<Event>): int {
    var failures := Select(events, KFailure);
    if |failures| == 1 then failures[0].position else 0
  }

  /** One failure with nothing admitted or started after it, between the controller's start and
      its stop. */
  predicate LinksController(events: seq<Event>, controller: string, phase: FailurePhase, code: FailureCode,
                            stop: StopStatus) {
    var failures, stopped := Select(events, KFailure), Select(events, KControllerStopped);
    && |events| >= 1
    && |failures| == 1 && failures[0].body == FailureObserved(phase, code)
    && Select(events, KControllerStarted) == [events[0]] && events[0].body == ControllerStarted(controller)
    && (forall i | 0 <= i < |events| && events[i].position > failures[0].position ::
          !events[i].body.RoleBound? && !events[i].body.RoleStarted?)
    && (if stop.StopSucceeded? then
          stopped == [events[|events| - 1]] && events[|events| - 1].body == ControllerStopped(controller)
        else stopped == [])
  }

  predicate LinksActions(events: seq<Event>, c: Containment) {
    var actions := Select(events, KAction);
    && (forall i | 0 <= i < |actions| :: FailureAt(events) < actions[i].position)
    && MatchesAction(actions, Freeze, c.freeze) && MatchesAction(actions, Kill, c.kill)
    && MatchesAction(actions, Reap, c.reap) && ActionsInOrder(actions)
  }

  predicate SomeActive(events: seq<Event>, roles: seq<ObservedRole>, position: int) {
    exists k | 0 <= k < |roles| :: ActiveAt(events, roles[k].id.docker.role, position)
  }

  predicate LinksFailure(events: seq<Event>, roles: seq<ObservedRole>, controller: string,
                         phase: FailurePhase, code: FailureCode, c: Containment, stop: StopStatus) {
    LinksController(events, controller, phase, code, stop)
    && NamesObserved(events, roles) && (forall k | 0 <= k < |roles| :: LinksObserved(events, roles[k]))
    && LinksActions(events, c)
    && (SomeActive(events, roles, FailureAt(events)) ==> !c.status.NotRequired?)
  }

  function SumObserved(roles: seq<ObservedRole>): int {
    if roles == [] then 0
    else SumObserved(roles[..|roles| - 1])
         + (if roles[|roles| - 1].delta.Some? then roles[|roles| - 1].delta.value else 0)
  }

  function ObservedIds(roles: seq<ObservedRole>): seq<Identity> {
    seq(|roles|, i requires 0 <= i < |roles| => roles[i].id)
  }

  function TriggerOf(code: FailureCode): Trigger {
    if code.CpuBudgetExceeded? then BudgetTrigger
    else if code.RoleIdentityDrift? then IdentityDriftTrigger
    else ControllerFailureTrigger
  }

  predicate AnyFailed(c: Containment) { c.freeze.Failed? || c.kill.Failed? || c.reap.Failed? }

  predicate IsCleanupFailure(code: FailureCode) {
    code.ContainmentActionFailed? || code.ControllerStopFailed? || code.CgroupReleaseFailed?
  }

  predicate AllReleased(roles: seq<ObservedRole>) {
    forall k | 0 <= k < |roles| :: roles[k].released
  }

  /** The three outcomes against the observed cleanup. */
  predicate ConsistentOutcome(e: Evidence)
    requires e.ObservedFailure?
  {
    var over := e.aggregate - e.binding.budget;
    match e.outcome
    case OverBudgetContained =>
      e.code.CpuBudgetExceeded? && over > 0 && e.overage == Some(over)
      && e.containment.status.ContainmentSucceeded? && e.stopStatus.StopSucceeded?
      && e.remaining == 0 && AllReleased(e.observedRoles)
    case ContainmentIncomplete =>
      e.containment.status.Incomplete?
      && !(e.remaining == 0 && AllReleased(e.observedRoles) && e.stopStatus.StopSucceeded?
           && !(AnyFailed(e.containment) || IsCleanupFailure(e.code)))
      && (if e.code.CpuBudgetExceeded? then over > 0 && e.overage == Some(over)
          else over <= 0 && e.overage.None?)
    case LinuxControllerFailure =>
      !e.code.CpuBudgetExceeded? && over <= 0 && e.overage.None?
      && !e.containment.status.Incomplete? && e.remaining == 0 && AllReleased(e.observedRoles)
      && e.stopStatus.StopSucceeded?
  }

  /** The observed roles and the account they add up to. */
  predicate AcceptsRoles(h: Hash, e: Evidence)
    requires e.ObservedFailure?
  {
    |e.observedRoles| <= 3
    && (forall k | 0 <= k < |e.observedRoles| :: AcceptsObservedRole(h, e.binding, e.observedRoles[k], ROLES[k]))
    && DistinctIdentities(ObservedIds(e.observedRoles))
    && IsUint64(e.aggregate) && e.aggregate == SumObserved(e.observedRoles)
  }

  predicate AcceptsAttempt(h: Hash, e: Evidence)
    requires e.ObservedFailure?
  {
    var ids := ObservedIds(e.observedRoles);
    Digest(h, AttemptBindingInput(e.binding.run, e.binding.workerImage, e.controller, ids)) == Some(e.attemptBinding)
    && (if |ids| == 3 then e.optDockerBinding.Some? && Digest(h, DockerBindingOf(e.binding, ids)) == e.optDockerBinding
        else e.optDockerBinding.None?)
  }

  predicate AcceptsOutcome(e: Evidence)
    requires e.ObservedFailure?
  {
    (e.overage.Some? ==> IsUint64(e.overage.value)) && PhaseOf(e.code) == e.phase
    && ConsistentContainment(e.containment) && 0 <= e.remaining <= MAX_REMAINING
    && (e.executionStarted <==> exists i | 0 <= i < |e.events| :: e.events[i].body.RoleStarted?)
    && (e.code.ContainmentActionFailed? ==> AnyFailed(e.containment))
    && e.containment.trigger == TriggerOf(e.code) && ConsistentOutcome(e)
  }

  predicate AcceptsFailure(h: Hash, value: Sealed, expected: Binding) {
    var e := value.body;
    e.ObservedFailure? && AcceptsBase(h, value, expected) && AcceptsRoles(h, e) && AcceptsAttempt(h, e)
    && AcceptsTranscript(h, e.binding, e.controller, e.events, e.eventCount, e.transcriptSha)
    && LinksFailure(e.events, e.observedRoles, e.controller, e.phase, e.code, e.containment, e.stopStatus)
    && AcceptsOutcome(e)
  }

  /** The evidence the parser returns instead of throwing. */
  predicate Accepts(h: Hash, value: Sealed, expected: Binding) {
    if value.body.Observed? then AcceptsObserved(h, value, expected)
    else AcceptsFailure(h, value, expected)
  }
}
