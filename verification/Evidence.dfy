/** The values of the Linux cgroup CPU evidence, version 2: what a producer emits and an
    acceptor re-checks.  Decimal strings are the integers they denote; a digest is the
    string a hash returns. */
module Evidence {

  datatype Option<+T> = None | Some(value: T)

  const MAX_UINT64: int := 0xFFFF_FFFF_FFFF_FFFF
  const MAX_EVENTS: int := 4096
  const MAX_ROLE_SAMPLES: int := 1024
  const MAX_REMAINING: int := 1_000_000
  const MAX_CANONICAL_NODES: int := 50_000

  predicate IsUint64(v: int) { 0 <= v <= MAX_UINT64 }

  // ---- strings ----

  predicate IsLowerHex(s: string, n: nat) {
    |s| == n && forall i | 0 <= i < |s| :: '0' <= s[i] <= '9' || 'a' <= s[i] <= 'f'
  }

  predicate IsSha256(s: string) { IsLowerHex(s, 64) }

  predicate IsWordCharacter(c: char) {
    'A' <= c <= 'Z' || 'a' <= c <= 'z' || '0' <= c <= '9' || c == '_' || c == '-'
  }

  predicate IsSafeId(s: string) {
    16 <= |s| <= 128 && forall i | 0 <= i < |s| :: IsWordCharacter(s[i]) || s[i] == '.'
  }

  predicate IsImageDigest(s: string) {
    |s| == 71 && s[..7] == "sha256:" && IsLowerHex(s[7..], 64)
  }

  /** 32 bytes in unpadded base64url: the last character carries four bits only. */
  predicate IsRunNonce(s: string) {
    |s| == 43 && (forall i | 0 <= i < 43 :: IsWordCharacter(s[i])) && s[42] in "AEIMQUYcgkosw048"
  }

  type Sha = s: string | IsSha256(s) witness seq(64, _ => '0')

  // ---- identities ----

  datatype Role = Egress | Worker | Verifier

  const ROLES: seq<Role> := [Egress, Worker, Verifier]

  /** A timestamp by its fields.  `engineParses` is the verdict of the JavaScript engine's
      own date parser on the same text. */
  datatype Timestamp = Timestamp(year: nat, month: nat, day: nat, hour: nat, minute: nat,
                                 second: nat, fractionDigits: nat, engineParses: bool)

  predicate IsLeapYear(year: nat) { year % 4 == 0 && (year % 100 != 0 || year % 400 == 0) }

  function DaysIn(year: nat, month: nat): nat {
    if month == 2 then (if IsLeapYear(year) then 29 else 28)
    else if month in {4, 6, 9, 11} then 30
    else 31
  }

  /** The acceptor's and the binding hash's calendar check. */
  predicate IsCalendarTimestamp(t: Timestamp) {
    1970 <= t.year <= 9999 && 1 <= t.month <= 12 && 1 <= t.day <= DaysIn(t.year, t.month)
    && t.hour <= 23 && t.minute <= 59 && t.second <= 59 && t.fractionDigits <= 9
  }

  /** The producer's own, different check at role admission. */
  predicate IsAdmissionTimestamp(t: Timestamp) {
    2 <= t.year <= 9999 && 3 <= t.fractionDigits <= 9 && t.engineParses
  }

  datatype Observation = Observation(role: Role, containerId: string, pid: int, startedAt: Timestamp)

  datatype Identity = Identity(docker: Observation, cgroup: string, binding: string)

  predicate IsContainerId(s: string) { IsLowerHex(s, 64) }

  predicate ValidIdentity(id: Identity) {
    IsContainerId(id.docker.containerId) && 1 <= id.docker.pid <= 2_147_483_647
    && IsCalendarTimestamp(id.docker.startedAt) && IsSha256(id.cgroup) && IsSha256(id.binding)
  }

  datatype RunContext = RunContext(requestId: string, runNonce: string, requestSha256: string,
                                   executionSha256: string, supervisorRunId: string)

  datatype Binding = Binding(run: RunContext, workerImage: string, policySha256: string,
                             corpusSha256: string, budget: int)

  predicate ValidRun(run: RunContext) {
    IsLowerHex(run.requestId, 32) && IsRunNonce(run.runNonce) && IsSha256(run.requestSha256)
    && IsSha256(run.executionSha256) && IsSafeId(run.supervisorRunId)
  }

  predicate ValidBinding(b: Binding) {
    ValidRun(b.run) && IsImageDigest(b.workerImage) && IsSha256(b.policySha256)
    && IsSha256(b.corpusSha256) && 1 <= b.budget <= MAX_UINT64
  }

  // ---- events ----

  datatype FailurePhase = RoleAdmission | Sampling | ContainmentPhase | ControllerStop | CgroupRelease

  datatype FailureCode =
    | CgroupBindFailed | CpuStatReadFailed | CpuCounterRegression | RoleIdentityDrift
    | CpuBudgetExceeded | ContainmentActionFailed | ControllerStopFailed | CgroupReleaseFailed

  function PhaseOf(code: FailureCode): FailurePhase {
    match code
    case CgroupBindFailed => RoleAdmission
    case CpuStatReadFailed => Sampling
    case CpuCounterRegression => Sampling
    case RoleIdentityDrift => Sampling
    case CpuBudgetExceeded => Sampling
    case ContainmentActionFailed => ContainmentPhase
    case ControllerStopFailed => ControllerStop
    case CgroupReleaseFailed => CgroupRelease
  }

  datatype ContainmentAction = Freeze | Kill | Reap

  datatype EventBody =
    | ControllerStarted(controller: string)
    | ControllerStopped(controller: string)
    | RoleBound(role: Role, binding: string)
    | RoleStarted(role: Role, binding: string)
    | RoleStopped(role: Role, binding: string)
    | RoleReleased(role: Role, binding: string)
    | CpuSample(role: Role, binding: string, index: int, usage: int)
    | FailureObserved(phase: FailurePhase, code: FailureCode)
    | Contained(action: ContainmentAction, succeeded: bool)

  datatype Event = Event(position: int, ns: int, body: EventBody)

  /** What an event is about: the selector of every filter over a transcript. */
  datatype Kind =
    | KControllerStarted | KControllerStopped | KFailure | KAction
    | KBound(role: Role) | KStarted(role: Role) | KStopped(role: Role)
    | KReleased(role: Role) | KSample(role: Role)

  function KindOf(body: EventBody): Kind {
    match body
    case ControllerStarted(_) => KControllerStarted
    case ControllerStopped(_) => KControllerStopped
    case RoleBound(r, _) => KBound(r)
    case RoleStarted(r, _) => KStarted(r)
    case RoleStopped(r, _) => KStopped(r)
    case RoleReleased(r, _) => KReleased(r)
    case CpuSample(r, _, _, _) => KSample(r)
    case FailureObserved(_, _) => KFailure
    case Contained(_, _) => KAction
  }

  predicate MentionsRole(body: EventBody) {
    body.RoleBound? || body.RoleStarted? || body.RoleStopped? || body.RoleReleased? || body.CpuSample?
  }

  /** The events of one kind, in transcript order. */
  function Select(events: seq<Event>, k: Kind): seq<Event> {
    if events == [] then []
    else
      var front := Select(events[..|events| - 1], k);
      var last := events[|events| - 1];
      if KindOf(last.body) == k then front + [last] else front
  }

  function AddIf(found: seq<Event>, k: Kind, e: Event): seq<Event> {
    if KindOf(e.body) == k then found + [e] else found
  }

  /** Exactly the events of the kind are selected. */
  lemma {:induction false} SelectExact(events: seq<Event>, k: Kind)
    ensures forall e :: e in Select(events, k) <==> e in events && KindOf(e.body) == k
  {
    if events != [] {
      var front, last := events[..|events| - 1], events[|events| - 1];
      assert events == front + [last];
      SelectExact(front, k);
    }
  }

  lemma SelectAppend(events: seq<Event>, e: Event, k: Kind)
    ensures Select(events + [e], k) == AddIf(Select(events, k), k, e)
  {
    assert (events + [e])[..|events|] == events;
  }

  // ---- evidence ----

  datatype RoleProof = RoleProof(
    id: Identity, baseline: int, final: int, delta: int, sampleCount: int,
    samples: seq<int>, samplePositions: seq<int>,
    boundAt: int, startedAt: int, stoppedAt: int, releasedAt: int, released: bool)

  datatype ObservedRole = ObservedRole(
    id: Identity, baseline: Option<int>, last: Option<int>, delta: Option<int>,
    sampleCount: int, released: bool)

  datatype ActionStatus = NotAttempted | Succeeded | Failed
  datatype ContainmentStatus = NotRequired | ContainmentSucceeded | Incomplete
  datatype Trigger = ControllerFailureTrigger | BudgetTrigger | IdentityDriftTrigger
  datatype Containment = Containment(status: ContainmentStatus, trigger: Trigger,
                                     freeze: ActionStatus, kill: ActionStatus, reap: ActionStatus)

  datatype StopStatus = StopSucceeded | StopFailed | StopNotAttempted
  datatype FailureOutcome = LinuxControllerFailure | OverBudgetContained | ContainmentIncomplete
  datatype NonCpuPhase = CodexExecution | Verification
  datatype NonCpuCode = WorkerReportedFailure | VerificationFailed
  datatype NonCpuFailure = NonCpuFailure(phase: NonCpuPhase, code: NonCpuCode)

  predicate ConsistentNonCpu(f: NonCpuFailure) {
    f.phase.CodexExecution? <==> f.code.WorkerReportedFailure?
  }

  datatype Evidence =
    | Observed(nonCpu: Option<NonCpuFailure>, binding: Binding, dockerBinding: string,
               aggregate: int, controller: string, eventCount: int, events: seq<Event>,
               transcriptSha: string, roles: seq<RoleProof>)
    | ObservedFailure(outcome: FailureOutcome, binding: Binding, phase: FailurePhase,
                      code: FailureCode, executionStarted: bool, controller: string,
                      attemptBinding: string, optDockerBinding: Option<string>, aggregate: int,
                      overage: Option<int>, eventCount: int, events: seq<Event>,
                      transcriptSha: string, observedRoles: seq<ObservedRole>,
                      containment: Containment, stopStatus: StopStatus, remaining: int)

  datatype Sealed = Sealed(body: Evidence, sha: string)

  // ---- hashing ----

  /** The structured inputs of the five domain-separated hashes. */
  datatype HashInput =
    | RoleBindingInput(requestId: string, runNonce: string, executionSha256: string,
                       supervisorRunId: string, docker: Observation, cgroup: string)
    | DockerBindingInput(requestSha256: string, executionSha256: string, supervisorRunId: string,
                         workerImage: string, roles: seq<Identity>)
    | AttemptBindingInput(run: RunContext, workerImage: string, controller: string,
                          observed: seq<Identity>)
    | TranscriptInput(run: RunContext, controller: string, events: seq<Event>)
    | EvidenceInput(body: Evidence)

  /** SHA-256 over the canonical text, left uninterpreted. */
  type Hash = HashInput -> Sha

  /** JSON nodes of one event: the object and its fields. */
  function EventNodes(e: Event): nat {
    match e.body
    case ControllerStarted(_) => 5
    case ControllerStopped(_) => 5
    case CpuSample(_, _, _, _) => 8
    case _ => 6
  }

  function TranscriptNodes(events: seq<Event>): nat {
    if events == [] then 0 else TranscriptNodes(events[..|events| - 1]) + EventNodes(events[|events| - 1])
  }

  function ProofNodes(roles: seq<RoleProof>): nat {
    if roles == [] then 0
    else ProofNodes(roles[..|roles| - 1])
         + 18 + |roles[|roles| - 1].samples| + |roles[|roles| - 1].samplePositions|
  }

  /** Values the canonical printer visits, counted as its node counter counts them. */
  function CanonicalNodes(input: HashInput): nat {
    match input
    case RoleBindingInput(_, _, _, _, _, _) => 11
    case DockerBindingInput(_, _, _, _, roles) => 7 + 7 * |roles|
    case AttemptBindingInput(_, _, _, observed) => 10 + 7 * |observed|
    case TranscriptInput(_, _, events) => 10 + TranscriptNodes(events)
    case EvidenceInput(body) =>
      if body.Observed? then
        33 + (if body.nonCpu.Some? then 2 else 0) + TranscriptNodes(body.events) + ProofNodes(body.roles)
      else
        37 + TranscriptNodes(body.events) + 12 * |body.observedRoles|
  }

  predicate RolesInOrder(ids: seq<Identity>) {
    |ids| <= 3 && forall i | 0 <= i < |ids| :: ValidIdentity(ids[i]) && ids[i].docker.role == ROLES[i]
  }

  /** The field checks each hash function makes before hashing. */
  predicate Normalizes(input: HashInput) {
    match input
    case RoleBindingInput(requestId, runNonce, executionSha256, supervisorRunId, docker, cgroup) =>
      IsLowerHex(requestId, 32) && IsRunNonce(runNonce) && IsSha256(executionSha256)
      && IsSafeId(supervisorRunId) && IsContainerId(docker.containerId)
      && 1 <= docker.pid <= 2_147_483_647 && IsCalendarTimestamp(docker.startedAt) && IsSha256(cgroup)
    case DockerBindingInput(requestSha256, executionSha256, supervisorRunId, workerImage, roles) =>
      IsSha256(requestSha256) && IsSha256(executionSha256) && IsSafeId(supervisorRunId)
      && IsImageDigest(workerImage) && |roles| == 3 && RolesInOrder(roles)
    case AttemptBindingInput(run, workerImage, controller, observed) =>
      ValidRun(run) && IsImageDigest(workerImage) && IsSha256(controller) && RolesInOrder(observed)
    case TranscriptInput(run, controller, _) => ValidRun(run) && IsSha256(controller)
    case EvidenceInput(_) => true
  }

  /** The digest, or None where the hash function throws. */
  function Digest(h: Hash, input: HashInput): (digest: Option<string>)
    ensures digest.Some? ==> IsSha256(digest.value)
  {
    if Normalizes(input) && CanonicalNodes(input) <= MAX_CANONICAL_NODES then Some(h(input)) else None
  }

  function RoleBindingOf(run: RunContext, docker: Observation, cgroup: string): HashInput {
    RoleBindingInput(run.requestId, run.runNonce, run.executionSha256, run.supervisorRunId, docker, cgroup)
  }

  function DockerBindingOf(b: Binding, ids: seq<Identity>): HashInput {
    DockerBindingInput(b.run.requestSha256, b.run.executionSha256, b.run.supervisorRunId, b.workerImage, ids)
  }

  lemma TranscriptNodesBound(events: seq<Event>)
    ensures TranscriptNodes(events) <= 8 * |events|
  {}
}
