/** A run in which nothing fails: three roles, any identities, readings and clock, ends in
    accepted success evidence of exactly the CPU time read. */
module HealthyRun {
  import opened Evidence
  import opened Acceptor
  import opened Producer
  import opened ProducerInvariant
  import opened ProducerLive
  import opened Completeness
  import opened Soundness
  import opened Runs
  import opened Outcomes

  /** A role as the outside world shows it: its container, its cgroup, and its counter when it is
      bound and when it has stopped. */
  datatype Visit = Visit(o: Observation, cgroup: string, first: int, last: int)

  function IdentityFor(cfg: Config, v: Visit): Identity { IdentityOf(cfg, v.o, v.cgroup) }

  predicate ValidVisit(v: Visit, r: Role) {
    v.o.role == r && ValidObservation(v.o) && IsCalendarTimestamp(v.o.startedAt) && IsSha256(v.cgroup)
    && 0 <= v.first <= v.last <= MAX_UINT64
  }

  ghost predicate Apart(cfg: Config, a: Visit, b: Visit) {
    a.o.containerId != b.o.containerId && a.cgroup != b.cgroup
    && IdentityFor(cfg, a).binding != IdentityFor(cfg, b).binding
  }

  /** Enough events for the whole run. */
  const ALL: nat := 40

  ghost predicate Serves(clock: Clock) { forall n: nat | n < ALL :: Runs.Advances(clock, n) }

  /** The session is live with the given number of events and records, and its clock at hand. */
  ghost predicate Stands(cfg: Config, s: Session, clock: Clock, n: nat, roles: map<Role, RoleState>) {
    Live(cfg, s) && |s.events| == n && s.roles == roles && 1 <= n <= ALL - ROOM
    && s.events[n - 1].ns == Stamp(clock, n - 1)
  }

  lemma StandsSteady(cfg: Config, s: Session, clock: Clock, n: nat, roles: map<Role, RoleState>)
    requires Stands(cfg, s, clock, n, roles) && Serves(clock)
    ensures Steady(s, clock, n + ROOM)
  {
    assert Runs.Advances(clock, n - 1);
  }

  lemma Begins(cfg: Config, clock: Clock)
    requires ValidConfig(cfg) && Serves(clock)
    ensures Stands(cfg, Create(cfg, clock), clock, 1, map[])
  {
    assert Runs.Advances(clock, 0);
    CreateLive(cfg, clock);
  }

  function BindStep(cfg: Config, s: Session, v: Visit, clock: Clock): Step {
    BindRole(cfg, s, v.o, false, Some(BoundAnswer(v.cgroup, v.first)), clock)
  }

  lemma BoundStands(cfg: Config, s: Session, clock: Clock, n: nat, v: Visit, step: Step)
    requires |s.events| == n && 1 <= n && n + 2 <= ALL - ROOM && FreshIdentity(s.roles, IdentityFor(cfg, v))
    requires BindAnswered(cfg, s, v.o, IdentityFor(cfg, v), v.first, clock, step)
    ensures Stands(cfg, step.next, clock, n + 2, s.roles[v.o.role := Bound(IdentityFor(cfg, v), v.first, n)])
  {}

  lemma BindIsAnswered(cfg: Config, s: Session, clock: Clock, v: Visit)
    requires ValidConfig(cfg) && Live(cfg, s) && Steady(s, clock, |s.events| + ROOM)
    requires ValidVisit(v, v.o.role) && AdmissionInOrder(s, v.o.role)
    ensures BindAnswered(cfg, s, v.o, IdentityFor(cfg, v), v.first, clock, BindStep(cfg, s, v, clock))
  {
    OrderRead(cfg, s, v.o.role);
    BindAnswers(cfg, s, v.o, false, Some(BoundAnswer(v.cgroup, v.first)), clock);
  }

  lemma Binds(cfg: Config, s: Session, clock: Clock, n: nat, roles: map<Role, RoleState>, v: Visit)
    requires ValidConfig(cfg) && Serves(clock) && Stands(cfg, s, clock, n, roles) && n + 2 <= ALL - ROOM
    requires ValidVisit(v, v.o.role) && AdmissionInOrder(s, v.o.role) && FreshIdentity(roles, IdentityFor(cfg, v))
    ensures Stands(cfg, BindStep(cfg, s, v, clock).next, clock, n + 2,
              roles[v.o.role := Bound(IdentityFor(cfg, v), v.first, n)])
  {
    StandsSteady(cfg, s, clock, n, roles);
    BindIsAnswered(cfg, s, clock, v);
    BoundStands(cfg, s, clock, n, v, BindStep(cfg, s, v, clock));
  }

  /** One more event and new records. */
  ghost predicate MovesOn(cfg: Config, s: Session, clock: Clock, body: EventBody, roles: map<Role, RoleState>,
                          s': Session) {
    Live(cfg, s') && s'.events == Extended(s.events, body, clock) && s'.roles == roles
  }

  lemma MovedStands(cfg: Config, s: Session, clock: Clock, n: nat, body: EventBody, roles: map<Role, RoleState>,
                    s': Session)
    requires MovesOn(cfg, s, clock, body, roles, s') && |s.events| == n && n + 1 <= ALL - ROOM
    ensures Stands(cfg, s', clock, n + 1, roles)
  {}

  lemma ReleaseMovesOn(cfg: Config, s: Session, r: Role, c: Cleanup, clock: Clock)
    requires ValidConfig(cfg) && Live(cfg, s) && Steady(s, clock, |s.events| + ROOM) && InPhase(s, r, StoppedPhase)
    ensures r in s.roles
            && MovesOn(cfg, s, clock, RoleReleased(r, s.roles[r].id.binding),
                       s.roles[r := Released(s.roles[r], |s.events| + 1)], ReleaseRole(cfg, s, r, true, c, clock).next)
  {
    PhaseRead(cfg, s, r);
    ReleaseAnswers(cfg, s, r, true, c, clock);
  }

  lemma Starts(cfg: Config, s: Session, clock: Clock, n: nat, roles: map<Role, RoleState>, r: Role)
    requires ValidConfig(cfg) && Serves(clock) && Stands(cfg, s, clock, n, roles) && n + 1 <= ALL - ROOM
    requires InPhase(s, r, BoundPhase) && (r.Worker? ==> InPhase(s, Egress, RunningPhase))
    requires r.Verifier? ==> InPhase(s, Worker, ReleasedPhase) && InPhase(s, Egress, ReleasedPhase)
    ensures Stands(cfg, StartRole(s, r, clock).next, clock, n + 1, roles[r := Started(roles[r], n + 1)])
  {
    StandsSteady(cfg, s, clock, n, roles);
    PhaseRead(cfg, s, r);
    PhaseRead(cfg, s, Egress);
    PhaseRead(cfg, s, Worker);
    StartAnswers(cfg, s, r, clock);
  }

  /** A reading within the records and the budget. */
  predicate Fits(cfg: Config, roles: map<Role, RoleState>, r: Role, usage: int) {
    r in roles && roles[r].phase.RunningPhase? && IsSha256(roles[r].id.cgroup) && |roles[r].samples| < MAX_ROLE_SAMPLES
    && roles[r].last <= usage <= MAX_UINT64 && 0 <= usage
    && Aggregate(roles) - roles[r].last + usage <= cfg.binding.budget
  }

  function Reading(st: RoleState, usage: int): Option<BoundAnswer> { Some(BoundAnswer(st.id.cgroup, usage)) }

  lemma FitsIsHealthy(cfg: Config, s: Session, r: Role, usage: int)
    requires Live(cfg, s) && Fits(cfg, s.roles, r, usage)
    ensures Healthy(cfg, s.events, r, s.roles[r].id.cgroup, Reading(s.roles[r], usage)) && NowRuns(s.events, r)
  {
    RoleRecords(cfg, s, r);
    PhaseRead(cfg, s, r);
  }

  lemma Samples(cfg: Config, s: Session, clock: Clock, n: nat, roles: map<Role, RoleState>, r: Role, usage: int,
                c: Cleanup)
    requires ValidConfig(cfg) && Serves(clock) && Stands(cfg, s, clock, n, roles) && n + 1 <= ALL - ROOM
    requires Fits(cfg, roles, r, usage)
    ensures Stands(cfg, SampleRole(cfg, s, r, Reading(roles[r], usage), c, clock).next, clock, n + 1,
              roles[r := Sampled(roles[r], usage, n + 1)])
  {
    StandsSteady(cfg, s, clock, n, roles);
    FitsIsHealthy(cfg, s, r, usage);
    SampleRecords(cfg, s, r, Reading(roles[r], usage), c, clock);
  }

  lemma RecordedStands(cfg: Config, s: Session, clock: Clock, n: nat, roles: map<Role, RoleState>, r: Role, usage: int,
                       st: RoleState, after: seq<Event>, step: Step)
    requires s.roles == roles && |after| == n && n + 1 <= ALL - ROOM
    requires Recorded(cfg, s, r, Reading(st, usage), st, after, clock, step)
    ensures Stands(cfg, step.next, clock, n + 1, roles[r := Sampled(st, usage, n + 1)])
  {}

  lemma MayStopNow(cfg: Config, s: Session, r: Role, usage: int)
    requires Live(cfg, s) && Fits(cfg, s.roles, r, usage) && (r.Egress? ==> InPhase(s, Worker, ReleasedPhase))
    ensures MayStop(s.events, r) && Healthy(cfg, s.events, r, s.roles[r].id.cgroup, Reading(s.roles[r], usage))
  {
    FitsIsHealthy(cfg, s, r, usage);
    PhaseRead(cfg, s, Worker);
  }

  lemma Stops(cfg: Config, s: Session, clock: Clock, n: nat, roles: map<Role, RoleState>, r: Role, usage: int,
              c: Cleanup)
    requires ValidConfig(cfg) && Serves(clock) && Stands(cfg, s, clock, n, roles) && n + 2 <= ALL - ROOM
    requires Fits(cfg, roles, r, usage) && (r.Egress? ==> InPhase(s, Worker, ReleasedPhase))
    ensures Stands(cfg, StopRole(cfg, s, r, Reading(roles[r], usage), c, clock).next, clock, n + 2,
              roles[r := Sampled(Stopped(roles[r], n + 1), usage, n + 2)])
  {
    StandsSteady(cfg, s, clock, n, roles);
    MayStopNow(cfg, s, r, usage);
    StopRecords(cfg, s, r, Reading(roles[r], usage), c, clock);
    RecordedStands(cfg, s, clock, n + 1, roles, r, usage, Stopped(roles[r], n + 1), StopEvents(s, r, clock),
      StopRole(cfg, s, r, Reading(roles[r], usage), c, clock));
  }

  lemma Releases(cfg: Config, s: Session, clock: Clock, n: nat, roles: map<Role, RoleState>, r: Role, c: Cleanup)
    requires ValidConfig(cfg) && Serves(clock) && Stands(cfg, s, clock, n, roles) && n + 1 <= ALL - ROOM
    requires InPhase(s, r, StoppedPhase)
    ensures Stands(cfg, ReleaseRole(cfg, s, r, true, c, clock).next, clock, n + 1,
              roles[r := Released(roles[r], n + 1)])
  {
    StandsSteady(cfg, s, clock, n, roles);
    ReleaseMovesOn(cfg, s, r, c, clock);
    MovedStands(cfg, s, clock, n, RoleReleased(r, s.roles[r].id.binding), roles[r := Released(roles[r], n + 1)],
      ReleaseRole(cfg, s, r, true, c, clock).next);
  }

  // ---- the same steps as calls of a run ----

  lemma RunAppend(cfg: Config, calls: seq<Call>, clock: Clock, call: Call)
    ensures Run(cfg, calls + [call], clock) == Perform(cfg, Run(cfg, calls, clock), call, clock).next
  {
    assert (calls + [call])[..|calls|] == calls;
  }

  function ReadingOf(v: Visit, usage: int): Option<BoundAnswer> { Some(BoundAnswer(v.cgroup, usage)) }

  function BindCall(v: Visit): Call { CallBind(v.o, false, ReadingOf(v, v.first)) }

  lemma RunBinds(cfg: Config, calls: seq<Call>, clock: Clock, n: nat, roles: map<Role, RoleState>, v: Visit)
    requires ValidConfig(cfg) && Serves(clock) && Stands(cfg, Run(cfg, calls, clock), clock, n, roles)
    requires n + 2 <= ALL - ROOM && ValidVisit(v, v.o.role) && FreshIdentity(roles, IdentityFor(cfg, v))
    requires AdmissionInOrder(Run(cfg, calls, clock), v.o.role)
    ensures Stands(cfg, Run(cfg, calls + [BindCall(v)], clock), clock, n + 2,
              roles[v.o.role := Bound(IdentityFor(cfg, v), v.first, n)])
  {
    var s := Run(cfg, calls, clock);
    RunAppend(cfg, calls, clock, BindCall(v));
    Binds(cfg, s, clock, n, roles, v);
    assert Perform(cfg, s, BindCall(v), clock) == BindStep(cfg, s, v, clock);
  }

  lemma RunStarts(cfg: Config, calls: seq<Call>, clock: Clock, n: nat, roles: map<Role, RoleState>, r: Role)
    requires ValidConfig(cfg) && Serves(clock) && Stands(cfg, Run(cfg, calls, clock), clock, n, roles)
    requires n + 1 <= ALL - ROOM && r in roles && roles[r].phase.BoundPhase?
    requires r.Worker? ==> Egress in roles && roles[Egress].phase.RunningPhase?
    requires r.Verifier? ==> Worker in roles && roles[Worker].phase.ReleasedPhase?
    requires r.Verifier? ==> Egress in roles && roles[Egress].phase.ReleasedPhase?
    ensures Stands(cfg, Run(cfg, calls + [CallStart(r)], clock), clock, n + 1, roles[r := Started(roles[r], n + 1)])
  {
    var s := Run(cfg, calls, clock);
    RunAppend(cfg, calls, clock, CallStart(r));
    Starts(cfg, s, clock, n, roles, r);
    assert Perform(cfg, s, CallStart(r), clock) == StartRole(s, r, clock);
  }

  lemma RunSamples(cfg: Config, calls: seq<Call>, clock: Clock, n: nat, roles: map<Role, RoleState>, r: Role,
                   usage: int, c: Cleanup)
    requires ValidConfig(cfg) && Serves(clock) && Stands(cfg, Run(cfg, calls, clock), clock, n, roles)
    requires n + 1 <= ALL - ROOM && Fits(cfg, roles, r, usage)
    ensures Stands(cfg, Run(cfg, calls + [CallSample(r, Reading(roles[r], usage), c)], clock), clock, n + 1,
              roles[r := Sampled(roles[r], usage, n + 1)])
  {
    var s, answer := Run(cfg, calls, clock), Reading(roles[r], usage);
    RunAppend(cfg, calls, clock, CallSample(r, answer, c));
    Samples(cfg, s, clock, n, roles, r, usage, c);
    assert Perform(cfg, s, CallSample(r, answer, c), clock) == SampleRole(cfg, s, r, answer, c, clock);
  }

  lemma StopCall(cfg: Config, s: Session, r: Role, answer: Option<BoundAnswer>, c: Cleanup, clock: Clock)
    ensures Perform(cfg, s, CallStop(r, answer, c), clock) == StopRole(cfg, s, r, answer, c, clock)
  {}

  lemma RunStops(cfg: Config, calls: seq<Call>, clock: Clock, n: nat, roles: map<Role, RoleState>, r: Role, usage: int,
                 c: Cleanup)
    requires ValidConfig(cfg) && Serves(clock) && Stands(cfg, Run(cfg, calls, clock), clock, n, roles)
    requires n + 2 <= ALL - ROOM && Fits(cfg, roles, r, usage)
    requires r.Egress? ==> Worker in roles && roles[Worker].phase.ReleasedPhase?
    ensures Stands(cfg, Run(cfg, calls + [CallStop(r, Reading(roles[r], usage), c)], clock), clock, n + 2,
              roles[r := Sampled(Stopped(roles[r], n + 1), usage, n + 2)])
  {
    var s, answer := Run(cfg, calls, clock), Reading(roles[r], usage);
    RunAppend(cfg, calls, clock, CallStop(r, answer, c));
    Stops(cfg, s, clock, n, roles, r, usage, c);
    StopCall(cfg, s, r, answer, c, clock);
  }

  lemma RunReleases(cfg: Config, calls: seq<Call>, clock: Clock, n: nat, roles: map<Role, RoleState>, r: Role,
                    c: Cleanup)
    requires ValidConfig(cfg) && Serves(clock) && Stands(cfg, Run(cfg, calls, clock), clock, n, roles)
    requires n + 1 <= ALL - ROOM && r in roles && roles[r].phase.StoppedPhase?
    ensures Stands(cfg, Run(cfg, calls + [CallRelease(r, true, c)], clock), clock, n + 1,
              roles[r := Released(roles[r], n + 1)])
  {
    var s := Run(cfg, calls, clock);
    RunAppend(cfg, calls, clock, CallRelease(r, true, c));
    Releases(cfg, s, clock, n, roles, r, c);
    assert Perform(cfg, s, CallRelease(r, true, c), clock) == ReleaseRole(cfg, s, r, true, c, clock);
  }

  // ---- the whole run ----

  /** What the outside world shows of a healthy run: three roles, and one more reading of egress
      while the worker runs. */
  datatype World = World(egress: Visit, worker: Visit, verifier: Visit, mid: int)

  function Spent(v: Visit): int { v.last - v.first }

  function TotalSpent(w: World): int { Spent(w.egress) + Spent(w.worker) + Spent(w.verifier) }

  ghost predicate HealthyWorld(cfg: Config, w: World) {
    ValidVisit(w.egress, Egress) && ValidVisit(w.worker, Worker) && ValidVisit(w.verifier, Verifier)
    && Apart(cfg, w.egress, w.worker) && Apart(cfg, w.egress, w.verifier) && Apart(cfg, w.worker, w.verifier)
    && w.egress.first <= w.mid <= w.egress.last && TotalSpent(w) <= cfg.binding.budget
  }

  function EgressUp(cfg: Config, w: World): RoleState {
    Started(Bound(IdentityFor(cfg, w.egress), w.egress.first, 1), 4)
  }

  function EgressSeen(cfg: Config, w: World): RoleState { Sampled(EgressUp(cfg, w), w.mid, 8) }

  function EgressDone(cfg: Config, w: World): RoleState {
    Released(Sampled(Stopped(EgressSeen(cfg, w), 12), w.egress.last, 13), 14)
  }

  function WorkerUp(cfg: Config, w: World): RoleState {
    Started(Bound(IdentityFor(cfg, w.worker), w.worker.first, 4), 7)
  }

  function WorkerDone(cfg: Config, w: World): RoleState {
    Released(Sampled(Stopped(WorkerUp(cfg, w), 9), w.worker.last, 10), 11)
  }

  function VerifierUp(cfg: Config, w: World): RoleState {
    Started(Bound(IdentityFor(cfg, w.verifier), w.verifier.first, 14), 17)
  }

  function VerifierDone(cfg: Config, w: World): RoleState {
    Released(Sampled(Stopped(VerifierUp(cfg, w), 18), w.verifier.last, 19), 20)
  }

  function EgressCalls(w: World): seq<Call> { [] + [BindCall(w.egress)] + [CallStart(Egress)] }

  function WorkerCalls(w: World, c: Cleanup): seq<Call> {
    EgressCalls(w) + [BindCall(w.worker)] + [CallStart(Worker)] + [CallSample(Egress, ReadingOf(w.egress, w.mid), c)]
    + [CallStop(Worker, ReadingOf(w.worker, w.worker.last), c)] + [CallRelease(Worker, true, c)]
  }

  function EgressEndCalls(w: World, c: Cleanup): seq<Call> {
    WorkerCalls(w, c) + [CallStop(Egress, ReadingOf(w.egress, w.egress.last), c)] + [CallRelease(Egress, true, c)]
  }

  /** All calls but the finalization. */
  function HealthyCalls(w: World, c: Cleanup): seq<Call> {
    EgressEndCalls(w, c) + [BindCall(w.verifier)] + [CallStart(Verifier)]
    + [CallStop(Verifier, ReadingOf(w.verifier, w.verifier.last), c)] + [CallRelease(Verifier, true, c)]
  }

  lemma EgressComesUp(cfg: Config, w: World, clock: Clock)
    requires ValidConfig(cfg) && Serves(clock) && HealthyWorld(cfg, w)
    ensures Stands(cfg, Run(cfg, EgressCalls(w), clock), clock, 4, map[Egress := EgressUp(cfg, w)])
  {
    Begins(cfg, clock);
    RunBinds(cfg, [], clock, 1, map[], w.egress);
    var roles := map[Egress := Bound(IdentityFor(cfg, w.egress), w.egress.first, 1)];
    assert map[][Egress := roles[Egress]] == roles;
    RunStarts(cfg, [] + [BindCall(w.egress)], clock, 3, roles, Egress);
    assert roles[Egress := EgressUp(cfg, w)] == map[Egress := EgressUp(cfg, w)];
  }

  /** The next role is bound in order. */
  lemma NextIs(cfg: Config, s: Session, clock: Clock, n: nat, roles: map<Role, RoleState>, r: Role)
    requires Stands(cfg, s, clock, n, roles) && r !in roles && (r.Worker? ==> Egress in roles)
    requires r.Verifier? ==> Worker in roles
    requires r.Worker? ==> roles[Egress].phase.RunningPhase?
    requires r.Verifier? ==> Egress in roles && roles[Egress].phase.ReleasedPhase? && roles[Worker].phase.ReleasedPhase?
    ensures AdmissionInOrder(s, r)
  {
    CountIs(roles, r);
  }

  lemma RunBindsNext(cfg: Config, calls: seq<Call>, clock: Clock, n: nat, roles: map<Role, RoleState>, v: Visit)
    requires ValidConfig(cfg) && Serves(clock) && Stands(cfg, Run(cfg, calls, clock), clock, n, roles)
    requires n + 2 <= ALL - ROOM && ValidVisit(v, v.o.role) && FreshIdentity(roles, IdentityFor(cfg, v))
    requires var r := v.o.role;
             r !in roles && (r.Worker? ==> Egress in roles && roles[Egress].phase.RunningPhase?)
             && (r.Verifier? ==>
                   Egress in roles && roles[Egress].phase.ReleasedPhase? && Worker in roles
                   && roles[Worker].phase.ReleasedPhase?)
    ensures Stands(cfg, Run(cfg, calls + [BindCall(v)], clock), clock, n + 2,
              roles[v.o.role := Bound(IdentityFor(cfg, v), v.first, n)])
  {
    NextIs(cfg, Run(cfg, calls, clock), clock, n, roles, v.o.role);
    RunBinds(cfg, calls, clock, n, roles, v);
  }

  function WorkerBound(cfg: Config, w: World): map<Role, RoleState> {
    map[Egress := EgressUp(cfg, w), Worker := Bound(IdentityFor(cfg, w.worker), w.worker.first, 4)]
  }

  lemma WorkerIsNext(cfg: Config, w: World)
    requires HealthyWorld(cfg, w)
    ensures var roles := map[Egress := EgressUp(cfg, w)];
            FreshIdentity(roles, IdentityFor(cfg, w.worker)) && Worker !in roles && roles[Egress].phase.RunningPhase?
            && roles[Worker := Bound(IdentityFor(cfg, w.worker), w.worker.first, 4)] == WorkerBound(cfg, w)
  {}

  lemma WorkerBinds(cfg: Config, w: World, clock: Clock)
    requires ValidConfig(cfg) && Serves(clock) && HealthyWorld(cfg, w)
    ensures Stands(cfg, Run(cfg, EgressCalls(w) + [BindCall(w.worker)], clock), clock, 6, WorkerBound(cfg, w))
  {
    EgressComesUp(cfg, w, clock);
    WorkerIsNext(cfg, w);
    RunBindsNext(cfg, EgressCalls(w), clock, 4, map[Egress := EgressUp(cfg, w)], w.worker);
  }

  lemma WorkerComesUp(cfg: Config, w: World, clock: Clock)
    requires ValidConfig(cfg) && Serves(clock) && HealthyWorld(cfg, w)
    ensures Stands(cfg, Run(cfg, EgressCalls(w) + [BindCall(w.worker)] + [CallStart(Worker)], clock), clock, 7,
              map[Egress := EgressUp(cfg, w), Worker := WorkerUp(cfg, w)])
  {
    WorkerBinds(cfg, w, clock);
    RunStarts(cfg, EgressCalls(w) + [BindCall(w.worker)], clock, 6, WorkerBound(cfg, w), Worker);
    assert WorkerBound(cfg, w)[Worker := WorkerUp(cfg, w)]
        == map[Egress := EgressUp(cfg, w), Worker := WorkerUp(cfg, w)];
  }

  function WorkerRunning(cfg: Config, w: World): map<Role, RoleState> {
    map[Egress := EgressUp(cfg, w), Worker := WorkerUp(cfg, w)]
  }

  function WorkerOver(cfg: Config, w: World): map<Role, RoleState> {
    map[Egress := EgressSeen(cfg, w), Worker := WorkerDone(cfg, w)]
  }

  /** The readings of the worker's run fit, one after another. */
  lemma WorkerFits(cfg: Config, w: World)
    requires HealthyWorld(cfg, w)
    ensures var roles := WorkerRunning(cfg, w);
            var roles2 := roles[Egress := EgressSeen(cfg, w)];
            var roles3 := roles2[Worker := Sampled(Stopped(WorkerUp(cfg, w), 9), w.worker.last, 10)];
            Fits(cfg, roles, Egress, w.mid) && Fits(cfg, roles2, Worker, w.worker.last)
            && roles3[Worker].phase.StoppedPhase? && roles3[Worker := WorkerDone(cfg, w)] == WorkerOver(cfg, w)
            && Reading(roles[Egress], w.mid) == ReadingOf(w.egress, w.mid)
            && Reading(roles2[Worker], w.worker.last) == ReadingOf(w.worker, w.worker.last)
  {}

  lemma WorkerRuns(cfg: Config, w: World, c: Cleanup, clock: Clock)
    requires ValidConfig(cfg) && Serves(clock) && HealthyWorld(cfg, w)
    ensures Stands(cfg, Run(cfg, WorkerCalls(w, c), clock), clock, 11, WorkerOver(cfg, w))
  {
    var calls := EgressCalls(w) + [BindCall(w.worker)] + [CallStart(Worker)];
    var roles := WorkerRunning(cfg, w);
    WorkerComesUp(cfg, w, clock);
    WorkerFits(cfg, w);
    RunSamples(cfg, calls, clock, 7, roles, Egress, w.mid, c);
    var calls2 := calls + [CallSample(Egress, ReadingOf(w.egress, w.mid), c)];
    var roles2 := roles[Egress := EgressSeen(cfg, w)];
    RunStops(cfg, calls2, clock, 8, roles2, Worker, w.worker.last, c);
    var calls3 := calls2 + [CallStop(Worker, ReadingOf(w.worker, w.worker.last), c)];
    var roles3 := roles2[Worker := Sampled(Stopped(WorkerUp(cfg, w), 9), w.worker.last, 10)];
    RunReleases(cfg, calls3, clock, 10, roles3, Worker, c);
  }

  lemma EgressFits(cfg: Config, w: World)
    requires HealthyWorld(cfg, w)
    ensures var roles := WorkerOver(cfg, w);
            var roles2 := roles[Egress := Sampled(Stopped(EgressSeen(cfg, w), 12), w.egress.last, 13)];
            Fits(cfg, roles, Egress, w.egress.last) && roles[Worker].phase.ReleasedPhase?
            && roles2[Egress].phase.StoppedPhase? && roles2[Egress := EgressDone(cfg, w)] == BothDone(cfg, w)
            && Reading(roles[Egress], w.egress.last) == ReadingOf(w.egress, w.egress.last)
  {}

  function EgressStopped(cfg: Config, w: World): map<Role, RoleState> {
    WorkerOver(cfg, w)[Egress := Sampled(Stopped(EgressSeen(cfg, w), 12), w.egress.last, 13)]
  }

  function EgressStop(w: World, c: Cleanup): Call { CallStop(Egress, ReadingOf(w.egress, w.egress.last), c) }

  lemma EgressStops(cfg: Config, w: World, c: Cleanup, clock: Clock)
    requires ValidConfig(cfg) && Serves(clock) && HealthyWorld(cfg, w)
    ensures Stands(cfg, Run(cfg, WorkerCalls(w, c) + [EgressStop(w, c)], clock), clock, 13, EgressStopped(cfg, w))
  {
    WorkerRuns(cfg, w, c, clock);
    EgressFits(cfg, w);
    RunStops(cfg, WorkerCalls(w, c), clock, 11, WorkerOver(cfg, w), Egress, w.egress.last, c);
  }

  lemma EgressEnds(cfg: Config, w: World, c: Cleanup, clock: Clock)
    requires ValidConfig(cfg) && Serves(clock) && HealthyWorld(cfg, w)
    ensures Stands(cfg, Run(cfg, EgressEndCalls(w, c), clock), clock, 14, BothDone(cfg, w))
  {
    EgressStops(cfg, w, c, clock);
    EgressFits(cfg, w);
    RunReleases(cfg, WorkerCalls(w, c) + [EgressStop(w, c)], clock, 13, EgressStopped(cfg, w), Egress, c);
  }

  function AllDone(cfg: Config, w: World): map<Role, RoleState> {
    map[Egress := EgressDone(cfg, w), Worker := WorkerDone(cfg, w), Verifier := VerifierDone(cfg, w)]
  }

  function VerifierBound(cfg: Config, w: World): map<Role, RoleState> {
    AllDone(cfg, w)[Verifier := Bound(IdentityFor(cfg, w.verifier), w.verifier.first, 14)]
  }

  function BothDone(cfg: Config, w: World): map<Role, RoleState> {
    map[Egress := EgressDone(cfg, w), Worker := WorkerDone(cfg, w)]
  }

  lemma VerifierIsNext(cfg: Config, w: World)
    requires HealthyWorld(cfg, w)
    ensures var roles := BothDone(cfg, w);
            FreshIdentity(roles, IdentityFor(cfg, w.verifier)) && roles.Keys == {Egress, Worker}
            && roles[Egress].phase.ReleasedPhase? && roles[Worker].phase.ReleasedPhase?
            && roles[Verifier := Bound(IdentityFor(cfg, w.verifier), w.verifier.first, 14)] == VerifierBound(cfg, w)
  {}

  lemma VerifierBinds(cfg: Config, w: World, c: Cleanup, clock: Clock)
    requires ValidConfig(cfg) && Serves(clock) && HealthyWorld(cfg, w)
    ensures Stands(cfg, Run(cfg, EgressEndCalls(w, c) + [BindCall(w.verifier)], clock), clock, 16,
              VerifierBound(cfg, w))
  {
    EgressEnds(cfg, w, c, clock);
    VerifierIsNext(cfg, w);
    RunBindsNext(cfg, EgressEndCalls(w, c), clock, 14, BothDone(cfg, w), w.verifier);
  }

  lemma VerifierComesUp(cfg: Config, w: World, c: Cleanup, clock: Clock)
    requires ValidConfig(cfg) && Serves(clock) && HealthyWorld(cfg, w)
    ensures Stands(cfg, Run(cfg, EgressEndCalls(w, c) + [BindCall(w.verifier)] + [CallStart(Verifier)], clock), clock,
            17,
              AllDone(cfg, w)[Verifier := VerifierUp(cfg, w)])
  {
    VerifierBinds(cfg, w, c, clock);
    RunStarts(cfg, EgressEndCalls(w, c) + [BindCall(w.verifier)], clock, 16, VerifierBound(cfg, w), Verifier);
    assert VerifierBound(cfg, w)[Verifier := VerifierUp(cfg, w)] == AllDone(cfg, w)[Verifier := VerifierUp(cfg, w)];
  }

  lemma VerifierFits(cfg: Config, w: World)
    requires HealthyWorld(cfg, w)
    ensures var roles := AllDone(cfg, w)[Verifier := VerifierUp(cfg, w)];
            var roles2 := roles[Verifier := Sampled(Stopped(VerifierUp(cfg, w), 18), w.verifier.last, 19)];
            Fits(cfg, roles, Verifier, w.verifier.last) && roles2[Verifier].phase.StoppedPhase?
            && roles2[Verifier := VerifierDone(cfg, w)] == AllDone(cfg, w)
            && Reading(roles[Verifier], w.verifier.last) == ReadingOf(w.verifier, w.verifier.last)
  {}

  lemma VerifierRuns(cfg: Config, w: World, c: Cleanup, clock: Clock)
    requires ValidConfig(cfg) && Serves(clock) && HealthyWorld(cfg, w)
    ensures Stands(cfg, Run(cfg, HealthyCalls(w, c), clock), clock, 20, AllDone(cfg, w))
  {
    var calls := EgressEndCalls(w, c) + [BindCall(w.verifier)] + [CallStart(Verifier)];
    var roles := AllDone(cfg, w)[Verifier := VerifierUp(cfg, w)];
    VerifierComesUp(cfg, w, c, clock);
    VerifierFits(cfg, w);
    RunStops(cfg, calls, clock, 17, roles, Verifier, w.verifier.last, c);
    var roles2 := roles[Verifier := Sampled(Stopped(VerifierUp(cfg, w), 18), w.verifier.last, 19)];
    RunReleases(cfg, calls + [CallStop(Verifier, ReadingOf(w.verifier, w.verifier.last), c)], clock, 19, roles2,
      Verifier, c);
  }

  lemma AllDoneEnds(cfg: Config, s: Session, w: World, clock: Clock)
    requires Stands(cfg, s, clock, 20, AllDone(cfg, w))
    ensures AllHaveReleased(s.events) && EgressSeenWithin(s.events) && TotalUsage(s.events) == TotalSpent(w)
  {
    EndRead(cfg, s);
    assert s.roles[Egress].positions[1] == 8;
    assert AllComplete(s) && EgressSampledDuringWorker(s);
  }

  lemma DoneFinalizes(cfg: Config, s: Session, w: World, nonCpu: Option<NonCpuFailure>, c: Cleanup, clock: Clock)
    requires ValidConfig(cfg) && Serves(clock) && Stands(cfg, s, clock, 20, AllDone(cfg, w))
    requires nonCpu.Some? ==> ConsistentNonCpu(nonCpu.value)
    ensures SucceedsAs(cfg, s.events, nonCpu, clock, Finalize(cfg, s, nonCpu, true, c, clock))
    ensures |s.events| == 20 && TotalUsage(s.events) == TotalSpent(w)
  {
    StandsSteady(cfg, s, clock, 20, AllDone(cfg, w));
    AllDoneEnds(cfg, s, w, clock);
    FinalizeSucceeds(cfg, s, nonCpu, c, clock);
  }

  lemma FinalizeCall(cfg: Config, s: Session, nonCpu: Option<NonCpuFailure>, c: Cleanup, clock: Clock)
    ensures Perform(cfg, s, CallFinalize(nonCpu, true, c), clock) == Finalize(cfg, s, nonCpu, true, c, clock)
  {}

  /** The evidence is accepted as success, spends what the world spent, and has all 21 events. */
  ghost predicate HealthyEvidence(cfg: Config, w: World, nonCpu: Option<NonCpuFailure>, reply: Reply) {
    reply.Candidate? && Accepts(cfg.h, reply.value, cfg.binding)
    && var e := reply.value.body;
       e.Observed? && e.aggregate == TotalSpent(w) && e.nonCpu == nonCpu && |e.events| == 21
  }

  lemma SuccessIsHealthy(cfg: Config, w: World, was: seq<Event>, nonCpu: Option<NonCpuFailure>, clock: Clock,
                         step: Step)
    requires SucceedsAs(cfg, was, nonCpu, clock, step) && |was| == 20 && TotalUsage(was) == TotalSpent(w)
    ensures HealthyEvidence(cfg, w, nonCpu, step.reply)
  {}

  /** A healthy run is handed success evidence of exactly the CPU time the roles spent. */
  lemma HealthyRunSucceeds(cfg: Config, w: World, nonCpu: Option<NonCpuFailure>, c: Cleanup, clock: Clock)
    requires ValidConfig(cfg) && Serves(clock) && HealthyWorld(cfg, w)
    requires nonCpu.Some? ==> ConsistentNonCpu(nonCpu.value)
    ensures HealthyEvidence(cfg, w, nonCpu,
              Perform(cfg, Run(cfg, HealthyCalls(w, c), clock), CallFinalize(nonCpu, true, c), clock).reply)
  {
    var s := Run(cfg, HealthyCalls(w, c), clock);
    VerifierRuns(cfg, w, c, clock);
    DoneFinalizes(cfg, s, w, nonCpu, c, clock);
    FinalizeCall(cfg, s, nonCpu, c, clock);
    SuccessIsHealthy(cfg, w, s.events, nonCpu, clock, Finalize(cfg, s, nonCpu, true, c, clock));
  }
}
