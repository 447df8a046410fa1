/** The evidence producer as a function of its inputs: the session state, one step per
    operation, and whole runs.  Every answer of the system port, every clock reading and
    every abort is an input.  `ProducerSession` is the class proved against it. */
module Producer {
  import opened Evidence
  import opened Acceptor

  datatype Phase = BoundPhase | RunningPhase | StoppedPhase | ReleasedPhase

  datatype RoleState = RoleState(
    id: Identity, phase: Phase, baseline: int, last: int, samples: seq<int>, positions: seq<int>,
    boundAt: int, startedAt: Option<int>, stoppedAt: Option<int>, releasedAt: Option<int>)

  datatype Session = Session(events: seq<Event>, roles: map<Role, RoleState>, lastNs: Option<int>,
                             terminal: Option<Sealed>, poisoned: bool)

  datatype Config = Config(h: Hash, binding: Binding, controller: string)

  ghost predicate ValidConfig(cfg: Config) { ValidBinding(cfg.binding) && IsSha256(cfg.controller) }

  /** What happens when one event is appended: the signal, and the clock's answer if any. */
  datatype Tick = Tick(aborted: bool, reading: Option<int>)

  /** The tick met when the transcript holds the given number of events.  An append that fails
      poisons the session, so each index is used at most once in a run. */
  type Clock = nat -> Tick

  datatype BoundAnswer = BoundAnswer(cgroup: string, usage: int)
  datatype ReapAnswer = ReapAnswer(succeeded: bool, remaining: int)

  /** The port's answers to one containment; a call that throws answers as a failure. */
  datatype Cleanup = Cleanup(freeze: bool, kill: bool, reap: Option<ReapAnswer>,
                             released: set<Role>, stop: bool)

  /** What the caller sees.  `Rejected` is the acceptor refusing the producer's own evidence. */
  datatype Reply = Threw | Done | Admitted(id: Identity) | Candidate(value: Sealed) | Rejected(value: Sealed)

  datatype Step = Step(next: Session, reply: Reply)

  predicate Mutable(s: Session) { s.terminal.None? && !s.poisoned }

  function Poison(s: Session): Session { s.(poisoned := true) }

  /** Appends one event, at position |s.events| + 1, unless the session is poisoned, which every failure here causes. */
  function Append(s: Session, body: EventBody, clock: Clock): Session {
    if s.poisoned then s
    else
      var tick := clock(|s.events|);
      if tick.aborted || |s.events| >= MAX_EVENTS || tick.reading.None? || !IsUint64(tick.reading.value)
         || (s.lastNs.Some? && tick.reading.value <= s.lastNs.value) then
        Poison(s)
      else
        s.(events := s.events + [Event(|s.events| + 1, tick.reading.value, body)], lastNs := tick.reading)
  }

  function Delta(roles: map<Role, RoleState>, r: Role): int {
    if r in roles then roles[r].last - roles[r].baseline else 0
  }

  function Aggregate(roles: map<Role, RoleState>): int {
    Delta(roles, Egress) + Delta(roles, Worker) + Delta(roles, Verifier)
  }

  predicate InPhase(s: Session, r: Role, phase: Phase) { r in s.roles && s.roles[r].phase == phase }

  function Update(s: Session, r: Role, st: RoleState): Session { s.(roles := s.roles[r := st]) }

  /** Appends an event of role `r` and, when that succeeds, replaces the role's record. */
  function AppendFor(s: Session, r: Role, st: RoleState, body: EventBody, clock: Clock): Session {
    var s1 := Append(s, body, clock);
    if s1.poisoned then s1 else Update(s1, r, st)
  }

  function Sampled(st: RoleState, usage: int, at: int): RoleState {
    st.(last := usage, samples := st.samples + [usage], positions := st.positions + [at])
  }
  function Started(st: RoleState, at: int): RoleState { st.(startedAt := Some(at), phase := RunningPhase) }
  function Stopped(st: RoleState, at: int): RoleState { st.(stoppedAt := Some(at), phase := StoppedPhase) }
  function Released(st: RoleState, at: int): RoleState { st.(releasedAt := Some(at), phase := ReleasedPhase) }

  function RecordSample(s: Session, r: Role, usage: int, clock: Clock): Session
    requires r in s.roles
  {
    var st := s.roles[r];
    if s.poisoned || |st.samples| >= MAX_ROLE_SAMPLES then Poison(s)
    else AppendFor(s, r, Sampled(st, usage, |s.events| + 1), CpuSample(r, st.id.binding, |st.samples|, usage), clock)
  }

  predicate AdmissionInOrder(s: Session, r: Role) {
    |s.roles| < 3 && r == ROLES[|s.roles|]
    && (r.Worker? ==> InPhase(s, Egress, RunningPhase))
    && (r.Verifier? ==> InPhase(s, Worker, ReleasedPhase) && InPhase(s, Egress, ReleasedPhase))
  }

  predicate ValidObservation(o: Observation) {
    IsContainerId(o.containerId) && 1 <= o.pid <= 2_147_483_647 && IsAdmissionTimestamp(o.startedAt)
  }

  predicate ReusesIdentity(s: Session, id: Identity) {
    exists r | r in s.roles ::
      s.roles[r].id.docker.containerId == id.docker.containerId || s.roles[r].id.cgroup == id.cgroup
      || s.roles[r].id.binding == id.binding
  }

  function BoundEvent(s: Session, r: Role, id: Identity, clock: Clock): Session {
    Append(s, RoleBound(r, id.binding), clock)
  }

  /** The role's first record, then its baseline as the first sample. */
  function FirstSampled(s: Session, r: Role, id: Identity, usage: int, clock: Clock): Session {
    var st := RoleState(id, BoundPhase, usage, usage, [], [], |s.events| + 1, None, None, None);
    RecordSample(Update(BoundEvent(s, r, id, clock), r, st), r, usage, clock)
  }

  function BindRole(cfg: Config, s: Session, o: Observation, aborted: bool, answer: Option<BoundAnswer>,
                    clock: Clock): Step {
    if !Mutable(s) || aborted || !AdmissionInOrder(s, o.role) || !ValidObservation(o) then Step(s, Threw)
    else if answer.None? || !IsSha256(answer.value.cgroup) || !IsUint64(answer.value.usage) then Step(Poison(s), Threw)
    else
      var binding := Digest(cfg.h, RoleBindingOf(cfg.binding.run, o, answer.value.cgroup));
      if binding.None? then Step(s, Threw)
      else
        var id := Identity(o, answer.value.cgroup, binding.value);
        if ReusesIdentity(s, id) then Step(Poison(s), Threw)
        else
          var s1 := BoundEvent(s, o.role, id, clock);
          if s1.poisoned then Step(s1, Threw)
          else
            var s2 := FirstSampled(s, o.role, id, answer.value.usage, clock);
            if s2.poisoned then Step(s2.(roles := s2.roles - {o.role}), Threw) else Step(s2, Admitted(id))
  }

  function StartRole(s: Session, r: Role, clock: Clock): Step {
    if !Mutable(s) || !InPhase(s, r, BoundPhase) || (r.Worker? && !InPhase(s, Egress, RunningPhase))
       || (r.Verifier? && !(InPhase(s, Worker, ReleasedPhase) && InPhase(s, Egress, ReleasedPhase))) then
      Step(s, Threw)
    else
      var s1 := AppendFor(s, r, Started(s.roles[r], |s.events| + 1), RoleStarted(r, s.roles[r].id.binding), clock);
      Step(s1, if s1.poisoned then Threw else Done)
  }

  function StopEvent(s: Session, r: Role, clock: Clock): Session
    requires r in s.roles
  {
    AppendFor(s, r, Stopped(s.roles[r], |s.events| + 1), RoleStopped(r, s.roles[r].id.binding), clock)
  }

  function ReleaseEvent(s: Session, r: Role, clock: Clock): Session
    requires r in s.roles
  {
    if s.roles[r].phase.ReleasedPhase? then s
    else AppendFor(s, r, Released(s.roles[r], |s.events| + 1), RoleReleased(r, s.roles[r].id.binding), clock)
  }

  /** Why a reading cannot be recorded, if it cannot. */
  function FaultOf(st: RoleState, answer: Option<BoundAnswer>): Option<FailureCode> {
    if answer.None? || !IsSha256(answer.value.cgroup) || !IsUint64(answer.value.usage) then Some(CpuStatReadFailed)
    else if answer.value.cgroup != st.id.cgroup then Some(RoleIdentityDrift)
    else if answer.value.usage < st.last then Some(CpuCounterRegression)
    else None
  }

  /** Records a reading and checks the account it makes. */
  function AccountUsage(cfg: Config, s: Session, r: Role, usage: int, c: Cleanup, clock: Clock): Step
    requires r in s.roles
  {
    var s1 := RecordSample(s, r, usage, clock);
    if s1.poisoned then Step(s1, Threw)
    else if Aggregate(s1.roles) > MAX_UINT64 then Step(Poison(s1), Threw)
    else if Aggregate(s1.roles) > cfg.binding.budget then
      ContainFailure(cfg, s1, Sampling, CpuBudgetExceeded, c, clock)
    else Step(s1, Done)
  }

  /** Judges one usage reading of a running or just-stopped role and records it. */
  function ObserveUsage(cfg: Config, s: Session, r: Role, answer: Option<BoundAnswer>, c: Cleanup, clock: Clock): Step
    requires r in s.roles
  {
    var fault := FaultOf(s.roles[r], answer);
    if fault.Some? then ContainFailure(cfg, s, Sampling, fault.value, c, clock)
    else AccountUsage(cfg, s, r, answer.value.usage, c, clock)
  }

  function SampleRole(cfg: Config, s: Session, r: Role, answer: Option<BoundAnswer>, c: Cleanup, clock: Clock): Step {
    if !Mutable(s) || !InPhase(s, r, RunningPhase) then Step(s, Threw) else ObserveUsage(cfg, s, r, answer, c, clock)
  }

  function StopRole(cfg: Config, s: Session, r: Role, answer: Option<BoundAnswer>, c: Cleanup, clock: Clock): Step {
    if !Mutable(s) || !InPhase(s, r, RunningPhase) || (r.Egress? && !InPhase(s, Worker, ReleasedPhase))
      then Step(s, Threw)
    else
      var s1 := StopEvent(s, r, clock);
      if s1.poisoned then Step(s1, Threw) else ObserveUsage(cfg, s1, r, answer, c, clock)
  }

  function ReleaseRole(cfg: Config, s: Session, r: Role, released: bool, c: Cleanup, clock: Clock): Step {
    if !Mutable(s) || !InPhase(s, r, StoppedPhase) then Step(s, Threw)
    else if !released then ContainFailure(cfg, s, CgroupRelease, CgroupReleaseFailed, c, clock)
    else
      var s1 := ReleaseEvent(s, r, clock);
      Step(s1, if s1.poisoned then Threw else Done)
  }

  function Report(cfg: Config, s: Session, phase: FailurePhase, code: FailureCode, c: Cleanup, clock: Clock): Step {
    if !Mutable(s) || PhaseOf(code) != phase then Step(s, Threw) else ContainFailure(cfg, s, phase, code, c, clock)
  }

  // ---- containment ----

  predicate AnyUnfinished(s: Session) { exists r | r in s.roles :: !s.roles[r].phase.ReleasedPhase? }

  function ReapOf(c: Cleanup): ReapAnswer {
    if c.reap.Some? && 0 <= c.reap.value.remaining <= MAX_REMAINING then c.reap.value else ReapAnswer(false, 1)
  }

  function SettleRole(s: Session, r: Role, released: bool, clock: Clock): Session {
    if s.poisoned || r !in s.roles || s.roles[r].phase.ReleasedPhase? then s
    else
      var s1 := if s.roles[r].phase.RunningPhase? then StopEvent(s, r, clock) else s;
      if s1.poisoned || !released then s1 else ReleaseEvent(s1, r, clock)
  }

  function ActOnRoles(s: Session, c: Cleanup, clock: Clock): Session {
    var frozen := Append(s, Contained(Freeze, c.freeze), clock);
    var killed := Append(frozen, Contained(Kill, c.kill), clock);
    Append(killed, Contained(Reap, ReapOf(c).succeeded), clock)
  }

  function SettleRoles(s: Session, c: Cleanup, clock: Clock): Session {
    SettleRole(SettleRole(SettleRole(s, Egress, Egress in c.released, clock), Worker, Worker in c.released, clock),
               Verifier, Verifier in c.released, clock)
  }

  /** The session after the failure event and, when some role is unfinished, the actions and
      the settling. */
  function Handled(s: Session, acted: bool, c: Cleanup, clock: Clock): Session {
    if acted then SettleRoles(ActOnRoles(s, c, clock), c, clock) else s
  }

  /** The session with everything one containment records; poisoned if any append failed. */
  function ContainedSession(cfg: Config, s: Session, phase: FailurePhase, code: FailureCode, c: Cleanup,
                            clock: Clock): Session {
    var observed := Append(s, FailureObserved(phase, code), clock);
    var settled := Handled(observed, AnyUnfinished(s), c, clock);
    if c.stop then Append(settled, ControllerStopped(cfg.controller), clock) else settled
  }

  function ObservedRoleOf(st: RoleState): ObservedRole {
    ObservedRole(st.id, Some(st.baseline), Some(st.last), Some(st.last - st.baseline), |st.samples|,
      st.phase.ReleasedPhase?)
  }

  function StatesOf(s: Session): seq<RoleState> {
    (if Egress in s.roles then [s.roles[Egress]] else [])
    + (if Worker in s.roles then [s.roles[Worker]] else [])
    + (if Verifier in s.roles then [s.roles[Verifier]] else [])
  }

  function ObservedRolesOf(s: Session): seq<ObservedRole> {
    var states := StatesOf(s);
    seq(|states|, i requires 0 <= i < |states| => ObservedRoleOf(states[i]))
  }

  function StatusOf(attempted: bool, succeeded: bool): ActionStatus {
    if !attempted then NotAttempted else if succeeded then Succeeded else Failed
  }

  predicate ActionsSucceed(c: Cleanup) { c.freeze && c.kill && ReapOf(c).succeeded }

  predicate ActionFails(s: Session, c: Cleanup) { AnyUnfinished(s) && !ActionsSucceed(c) }

  predicate ContainmentComplete(acted: bool, done: Session, code: FailureCode, c: Cleanup) {
    !IsCleanupFailure(code) && (acted ==> ActionsSucceed(c) && ReapOf(c).remaining == 0) && !AnyUnfinished(done)
      && c.stop
  }

  datatype FailureDigests = FailureDigests(attempt: string, docker: Option<string>, transcript: string)

  /** The digests of a finished containment; None where a hash function throws. */
  function DigestsOf(cfg: Config, done: Session): Option<FailureDigests> {
    var ids := ObservedIds(ObservedRolesOf(done));
    var attempt := Digest(cfg.h, AttemptBindingInput(cfg.binding.run, cfg.binding.workerImage, cfg.controller, ids));
    var docker := if |ids| == 3 then Digest(cfg.h, DockerBindingOf(cfg.binding, ids)) else None;
    var transcript := Digest(cfg.h, TranscriptInput(cfg.binding.run, cfg.controller, done.events));
    if attempt.None? || (|ids| == 3 && docker.None?) || transcript.None? then None
    else Some(FailureDigests(attempt.value, docker, transcript.value))
  }

  /** The failure evidence of `done`, which one containment produced, with or without actions. */
  function FailureBody(cfg: Config, acted: bool, done: Session, phase: FailurePhase, code: FailureCode, c: Cleanup,
                       d: FailureDigests): Evidence {
    var complete, total := ContainmentComplete(acted, done, code, c), Aggregate(done.roles);
    ObservedFailure(
      if !complete then ContainmentIncomplete
      else if code.CpuBudgetExceeded? then OverBudgetContained else LinuxControllerFailure,
      cfg.binding, phase, code, exists i | 0 <= i < |done.events| :: done.events[i].body.RoleStarted?,
      cfg.controller, d.attempt, d.docker, total,
      if code.CpuBudgetExceeded? then Some(total - cfg.binding.budget) else None,
      |done.events|, done.events, d.transcript, ObservedRolesOf(done),
      Containment(
        if !complete then Incomplete else if acted then ContainmentSucceeded else NotRequired,
        TriggerOf(code), StatusOf(acted, c.freeze), StatusOf(acted, c.kill), StatusOf(acted, ReapOf(c).succeeded)),
      if c.stop then StopSucceeded else StopFailed,
      if acted then ReapOf(c).remaining else 0)
  }

  /** Seals evidence and submits it to the acceptor; a refusal poisons the session. */
  function FinishCandidate(cfg: Config, s: Session, body: Evidence): Step {
    var sha := Digest(cfg.h, EvidenceInput(body));
    if sha.None? then Step(s, Threw)
    else
      var value := Sealed(body, sha.value);
      if Accepts(cfg.h, value, cfg.binding) then Step(s.(terminal := Some(value)), Candidate(value))
      else Step(Poison(s), Rejected(value))
  }

  function ContainFailure(cfg: Config, s: Session, phase: FailurePhase, code: FailureCode, c: Cleanup,
                          clock: Clock): Step {
    if s.terminal.Some? then Step(s, Candidate(s.terminal.value))
    else if PhaseOf(code) != phase then Step(s, Threw)
    else
      var done := ContainedSession(cfg, s, phase, code, c, clock);
      if done.poisoned then Step(done, Threw)
      else if Aggregate(done.roles) > MAX_UINT64 then Step(Poison(done), Threw)
      else
        var d := DigestsOf(cfg, done);
        if d.None? then Step(done, Threw)
        else FinishCandidate(cfg, done, FailureBody(cfg, AnyUnfinished(s), done, phase, code, c, d.value))
  }

  // ---- success ----

  predicate Complete(s: Session, r: Role) {
    r in s.roles && s.roles[r].phase.ReleasedPhase? && s.roles[r].startedAt.Some? && s.roles[r].stoppedAt.Some?
    && s.roles[r].releasedAt.Some? && |s.roles[r].samples| >= 2
  }

  predicate AllComplete(s: Session) { Complete(s, Egress) && Complete(s, Worker) && Complete(s, Verifier) }

  function ProofOf(st: RoleState): RoleProof
    requires st.startedAt.Some? && st.stoppedAt.Some? && st.releasedAt.Some?
  {
    RoleProof(st.id, st.baseline, st.last, st.last - st.baseline, |st.samples|, st.samples, st.positions,
              st.boundAt, st.startedAt.value, st.stoppedAt.value, st.releasedAt.value, true)
  }

  function ProofsOf(s: Session): seq<RoleProof>
    requires AllComplete(s)
  {
    [ProofOf(s.roles[Egress]), ProofOf(s.roles[Worker]), ProofOf(s.roles[Verifier])]
  }

  predicate EgressSampledDuringWorker(s: Session)
    requires AllComplete(s)
  {
    exists i | 0 <= i < |s.roles[Egress].positions| ::
      s.roles[Worker].startedAt.value < s.roles[Egress].positions[i] < s.roles[Worker].stoppedAt.value
  }

  function SuccessBody(cfg: Config, s: Session, done: Session, nonCpu: Option<NonCpuFailure>, docker: string,
                       transcript: string): Evidence
    requires AllComplete(s)
  {
    Observed(nonCpu, cfg.binding, docker, Aggregate(s.roles), cfg.controller, |done.events|, done.events, transcript,
      ProofsOf(s))
  }

  function FinishSuccess(cfg: Config, s: Session, done: Session, nonCpu: Option<NonCpuFailure>): Step
    requires AllComplete(s)
  {
    var docker := Digest(cfg.h, DockerBindingOf(cfg.binding, ProofIds(ProofsOf(s))));
    var transcript := Digest(cfg.h, TranscriptInput(cfg.binding.run, cfg.controller, done.events));
    if docker.None? || transcript.None? then Step(done, Threw)
    else FinishCandidate(cfg, done, SuccessBody(cfg, s, done, nonCpu, docker.value, transcript.value))
  }

  function Finalize(cfg: Config, s: Session, nonCpu: Option<NonCpuFailure>, stop: bool, c: Cleanup,
                    clock: Clock): Step {
    if (nonCpu.Some? && !ConsistentNonCpu(nonCpu.value)) || !Mutable(s) || !AllComplete(s) then Step(s, Threw)
    else if !EgressSampledDuringWorker(s) then ContainFailure(cfg, s, Sampling, CpuStatReadFailed, c, clock)
    else if Aggregate(s.roles) > MAX_UINT64 then Step(Poison(s), Threw)
    else if Aggregate(s.roles) > cfg.binding.budget then ContainFailure(cfg, s, Sampling, CpuBudgetExceeded, c, clock)
    else if !stop then ContainFailure(cfg, s, ControllerStop, ControllerStopFailed, c, clock)
    else
      var done := Append(s, ControllerStopped(cfg.controller), clock);
      if done.poisoned then Step(done, Threw) else FinishSuccess(cfg, s, done, nonCpu)
  }

  // ---- runs ----

  datatype Call =
    | CallBind(o: Observation, aborted: bool, bound: Option<BoundAnswer>)
    | CallStart(role: Role)
    | CallSample(role: Role, usage: Option<BoundAnswer>, c: Cleanup)
    | CallStop(role: Role, usage: Option<BoundAnswer>, c: Cleanup)
    | CallRelease(role: Role, released: bool, c: Cleanup)
    | CallReport(phase: FailurePhase, code: FailureCode, c: Cleanup)
    | CallFinalize(nonCpu: Option<NonCpuFailure>, stop: bool, c: Cleanup)

  function Perform(cfg: Config, s: Session, call: Call, clock: Clock): Step {
    match call
    case CallBind(o, aborted, bound) => BindRole(cfg, s, o, aborted, bound, clock)
    case CallStart(r) => StartRole(s, r, clock)
    case CallSample(r, usage, c) => SampleRole(cfg, s, r, usage, c, clock)
    case CallStop(r, usage, c) => StopRole(cfg, s, r, usage, c, clock)
    case CallRelease(r, released, c) => ReleaseRole(cfg, s, r, released, c, clock)
    case CallReport(phase, code, c) => Report(cfg, s, phase, code, c, clock)
    case CallFinalize(nonCpu, stop, c) => Finalize(cfg, s, nonCpu, stop, c, clock)
  }

  const EMPTY: Session := Session([], map[], None, None, false)

  function Create(cfg: Config, clock: Clock): Session { Append(EMPTY, ControllerStarted(cfg.controller), clock) }

  function Run(cfg: Config, calls: seq<Call>, clock: Clock): Session {
    if calls == [] then Create(cfg, clock)
    else Perform(cfg, Run(cfg, calls[..|calls| - 1], clock), calls[|calls| - 1], clock).next
  }
}
