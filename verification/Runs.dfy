/** Whole runs: any sequence of calls, any answers, any clock. */
module Runs {
  import opened Evidence
  import opened Acceptor
  import opened Producer
  import opened ProducerInvariant
  import opened ProducerLive
  import opened Transcripts
  import opened ContainmentTail
  import opened FailureAccepted
  import opened Completeness
  import opened TranscriptSize
  import opened Soundness

  /** Ended with evidence that was accepted. */
  ghost predicate Closed(cfg: Config, s: Session) {
    !s.poisoned && s.terminal.Some? && Accepts(cfg.h, s.terminal.value, cfg.binding) && Bounded(cfg, s)
    && s.terminal.value.body.events == s.events
    && OrderedUntilFailure(s)
  }

  ghost predicate Sound(cfg: Config, s: Session) { s.poisoned || Closed(cfg, s) || Live(cfg, s) }

  lemma CreateLive(cfg: Config, clock: Clock)
    requires ValidConfig(cfg) && !Create(cfg, clock).poisoned
    ensures Live(cfg, Create(cfg, clock))
  {
    var s := Create(cfg, clock);
    assert s.events == [s.events[0]];
  }

  /** Every operation but a report, on a session that can still be used. */
  lemma LiveStep(cfg: Config, s: Session, call: Call, clock: Clock)
    requires ValidConfig(cfg) && Live(cfg, s) && !call.CallReport?
    ensures Progresses(cfg, s, Perform(cfg, s, call, clock))
  {
    match call
    case CallBind(o, aborted, bound) => BindEnds(cfg, s, o, aborted, bound, clock);
    case CallStart(r) => StartEnds(cfg, s, r, clock);
    case CallSample(r, usage, c) => SampleEnds(cfg, s, r, usage, c, clock);
    case CallStop(r, usage, c) => StopEnds(cfg, s, r, usage, c, clock);
    case CallRelease(r, released, c) => ReleaseEnds(cfg, s, r, released, c, clock);
    case CallFinalize(nonCpu, stop, c) => FinalizeEnds(cfg, s, nonCpu, stop, c, clock);
  }

  lemma UnusableStep(cfg: Config, s: Session, call: Call, clock: Clock)
    requires !Mutable(s)
    ensures Perform(cfg, s, call, clock) == Step(s, Threw)
  {}

  /** Exactly when the acceptor refuses the producer's own evidence. */
  ghost predicate Refused(cfg: Config, s: Session, call: Call, clock: Clock) {
    Mutable(s) && Misreports(s, call) && !ContainedSession(cfg, s, call.phase, call.code, call.c, clock).poisoned
  }

  lemma StepSound(cfg: Config, s: Session, call: Call, clock: Clock)
    requires ValidConfig(cfg) && Sound(cfg, s)
    ensures var step := Perform(cfg, s, call, clock);
            Sound(cfg, step.next) && (step.reply.Rejected? <==> Refused(cfg, s, call, clock))
            && (step.reply.Rejected? ==> step.next.poisoned)
            && (step.reply.Candidate? ==>
                 Accepts(cfg.h, step.reply.value, cfg.binding) && step.next.terminal == Some(step.reply.value))
            && (step.reply.Threw? ==> step.next == s || step.next.poisoned)
  {
    if !Mutable(s) {
      UnusableStep(cfg, s, call, clock);
    } else if call.CallReport? {
      ReportEnds(cfg, s, call, clock);
    } else {
      LiveStep(cfg, s, call, clock);
    }
  }

  lemma {:induction false} RunSound(cfg: Config, calls: seq<Call>, clock: Clock)
    requires ValidConfig(cfg)
    ensures Sound(cfg, Run(cfg, calls, clock))
  {
    if calls == [] {
      if !Create(cfg, clock).poisoned {
        CreateLive(cfg, clock);
      }
    } else {
      RunSound(cfg, calls[..|calls| - 1], clock);
      StepSound(cfg, Run(cfg, calls[..|calls| - 1], clock), calls[|calls| - 1], clock);
    }
  }

  /** Completeness.  After any run, for any call, answers and clock: the acceptor refuses the
      evidence exactly for a fully recorded misreport; whatever is handed out it accepts; and a
      call that throws leaves the session as it was, or poisoned. */
  lemma EvidenceAccepted(cfg: Config, calls: seq<Call>, clock: Clock, call: Call)
    requires ValidConfig(cfg)
    ensures var s := Run(cfg, calls, clock);
            var step := Perform(cfg, s, call, clock);
            (step.reply.Rejected? <==> Refused(cfg, s, call, clock))
            && (step.reply.Candidate? ==> Accepts(cfg.h, step.reply.value, cfg.binding))
            && (step.reply.Threw? ==> step.next == s || step.next.poisoned)
  {
    RunSound(cfg, calls, clock);
    StepSound(cfg, Run(cfg, calls, clock), call, clock);
  }

  // ---- a clock that serves every append ----

  predicate Reads(clock: Clock, n: nat) {
    !clock(n).aborted && clock(n).reading.Some? && IsUint64(clock(n).reading.value)
  }

  predicate Advances(clock: Clock, n: nat) {
    Reads(clock, n) && Reads(clock, n + 1) && clock(n).reading.value < clock(n + 1).reading.value
  }

  /** The next appends, up to `top` events, meet no abort and an advancing clock. */
  ghost predicate Steady(s: Session, clock: Clock, top: nat) {
    !s.poisoned && (forall n: nat | |s.events| <= n < top :: Advances(clock, n))
    && (|s.events| < top && s.lastNs.Some? && Reads(clock, |s.events|)
      ==> s.lastNs.value < clock(|s.events|).reading.value)
  }

  lemma AppendSteady(s: Session, body: EventBody, clock: Clock, top: nat)
    requires Steady(s, clock, top) && |s.events| < top <= MAX_EVENTS
    ensures Steady(Append(s, body, clock), clock, top)
  {
    assert Advances(clock, |s.events|);
  }

  lemma SettleSteady(s: Session, r: Role, released: bool, clock: Clock, top: nat)
    requires Steady(s, clock, top) && |s.events| + 2 <= top <= MAX_EVENTS
    ensures Steady(SettleRole(s, r, released, clock), clock, top)
  {
    if r in s.roles && !s.roles[r].phase.ReleasedPhase? {
      if s.roles[r].phase.RunningPhase? {
        AppendSteady(s, RoleStopped(r, s.roles[r].id.binding), clock, top);
      }
      var s1 := if s.roles[r].phase.RunningPhase? then StopEvent(s, r, clock) else s;
      if released {
        AppendSteady(s1, RoleReleased(r, s1.roles[r].id.binding), clock, top);
      }
    }
  }

  lemma HandledSteady(s: Session, c: Cleanup, clock: Clock, top: nat)
    requires Steady(s, clock, top) && |s.events| + 9 <= top <= MAX_EVENTS
    ensures Steady(Handled(s, AnyUnfinished(s), c, clock), clock, top)
    ensures Steady(Handled(s, true, c, clock), clock, top)
  {
    var frozen := Append(s, Contained(Freeze, c.freeze), clock);
    AppendSteady(s, Contained(Freeze, c.freeze), clock, top);
    var killed := Append(frozen, Contained(Kill, c.kill), clock);
    AppendSteady(frozen, Contained(Kill, c.kill), clock, top);
    AppendSteady(killed, Contained(Reap, ReapOf(c).succeeded), clock, top);
    var s0 := ActOnRoles(s, c, clock);
    var s1 := SettleRole(s0, Egress, Egress in c.released, clock);
    var s2 := SettleRole(s1, Worker, Worker in c.released, clock);
    SettleSteady(s0, Egress, Egress in c.released, clock, top);
    SettleGrows(s0, Egress, Egress in c.released, clock);
    SettleSteady(s1, Worker, Worker in c.released, clock, top);
    SettleGrows(s1, Worker, Worker in c.released, clock);
    SettleSteady(s2, Verifier, Verifier in c.released, clock, top);
  }

  lemma ContainedSteady(cfg: Config, s: Session, phase: FailurePhase, code: FailureCode, c: Cleanup, clock: Clock)
    requires Steady(s, clock, |s.events| + 11) && |s.events| + 11 <= MAX_EVENTS
    ensures !ContainedSession(cfg, s, phase, code, c, clock).poisoned
  {
    var top := |s.events| + 11;
    var observed := Append(s, FailureObserved(phase, code), clock);
    AppendSteady(s, FailureObserved(phase, code), clock, top);
    HandledSteady(observed, c, clock, top);
    HandledGrows(observed, AnyUnfinished(s), c, clock);
    assert AnyUnfinished(observed) == AnyUnfinished(s);
    var settled := Handled(observed, AnyUnfinished(s), c, clock);
    AppendSteady(settled, ControllerStopped(cfg.controller), clock, top);
  }

  /** With a clock that serves every append, the misreports alone are refused: exactly the
      calls whose code is over budget, or a failed action when none of the answers fails. */
  lemma RefusedExactly(cfg: Config, calls: seq<Call>, clock: Clock, call: Call)
    requires ValidConfig(cfg) && Steady(Run(cfg, calls, clock), clock, |Run(cfg, calls, clock).events| + 11)
    ensures var s := Run(cfg, calls, clock);
            Perform(cfg, s, call, clock).reply.Rejected? <==> Mutable(s) && Misreports(s, call)
  {
    var s := Run(cfg, calls, clock);
    EvidenceAccepted(cfg, calls, clock, call);
    RunSound(cfg, calls, clock);
    if Mutable(s) && Misreports(s, call) {
      BoundedEvents(cfg, s);
      ContainedSteady(cfg, s, call.phase, call.code, call.c, clock);
    }
  }

  /** One nanosecond per event. */
  function EachNs(n: nat): Tick { Tick(false, Some(n)) }

  /** The two refusals happen: a new session, and a caller that reports either code. */
  lemma MisreportsAreRefused(cfg: Config, code: FailureCode)
    requires ValidConfig(cfg) && (code.CpuBudgetExceeded? || code.ContainmentActionFailed?)
    ensures var call := CallReport(PhaseOf(code), code, Cleanup(true, true, None, {}, true));
            Perform(cfg, Run(cfg, [], EachNs), call, EachNs).reply.Rejected?
  {
    var call := CallReport(PhaseOf(code), code, Cleanup(true, true, None, {}, true));
    var s := Run(cfg, [], EachNs);
    assert forall n: nat | 1 <= n < 12 :: Advances(EachNs, n);
    RefusedExactly(cfg, [], EachNs, call);
  }

  // ---- the transcript of any run ----

  const MOST_EVENTS := 1 + 3 * (4 + MAX_ROLE_SAMPLES) + 5

  lemma BoundedEvents(cfg: Config, s: Session)
    requires Closed(cfg, s) || Live(cfg, s)
    ensures Contiguous(s.events) && ClockAdvances(s.events) && |s.events| <= MOST_EVENTS
    ensures Live(cfg, s) ==> |s.events| <= MOST_EVENTS - 5
    ensures AllExplained(s.events, s.roles) && AllRecorded(s.events, s.roles)
  {
    WeightBound(s.events, s.roles);
  }

  /** The limit of 4096 events is out of reach, even of runs that are poisoned part-way. */
  lemma {:induction false} EventsNeverFull(cfg: Config, calls: seq<Call>, clock: Clock)
    requires ValidConfig(cfg)
    ensures |Run(cfg, calls, clock).events| <= MOST_EVENTS + 8 < MAX_EVENTS
  {
    if calls != [] {
      var front, call := calls[..|calls| - 1], calls[|calls| - 1];
      var s := Run(cfg, front, clock);
      RunSound(cfg, front, clock);
      if Mutable(s) {
        BoundedEvents(cfg, s);
        PerformGrows(cfg, s, call, clock);
      } else {
        EventsNeverFull(cfg, front, clock);
        UnusableStep(cfg, s, call, clock);
      }
    }
  }

  /** In every session that is not poisoned: contiguous positions, strictly increasing time, at
      most 3090 events, and no admission of an unregistered role. */
  lemma TranscriptKept(cfg: Config, calls: seq<Call>, clock: Clock)
    requires ValidConfig(cfg) && !Run(cfg, calls, clock).poisoned
    ensures var s := Run(cfg, calls, clock);
            Contiguous(s.events) && ClockAdvances(s.events) && |s.events| <= MOST_EVENTS == 3090
            && (forall i | 0 <= i < |s.events| && MentionsRole(s.events[i].body) :: s.events[i].body.role in s.roles)
  {
    var s := Run(cfg, calls, clock);
    RunSound(cfg, calls, clock);
    BoundedEvents(cfg, s);
    forall i | 0 <= i < |s.events| && MentionsRole(s.events[i].body)
      ensures s.events[i].body.role in s.roles
    {
      assert ExplainedAt(s.events, s.roles, i);
    }
  }

  ghost predicate ReleasedBefore(events: seq<Event>, r: Role, j: int) {
    exists i | 0 <= i < j < |events| :: events[i].body.RoleReleased? && events[i].body.role == r
  }

  ghost predicate FailedBefore(events: seq<Event>, j: int) {
    exists i | 0 <= i < j < |events| :: events[i].body.FailureObserved?
  }

  /** The worker is released before egress stops, unless a failure was observed before; and both
      are released before the verifier is bound. */
  ghost predicate ReleasesOrdered(events: seq<Event>) {
    forall j | 0 <= j < |events| ::
      (events[j].body.RoleStopped? && events[j].body.role.Egress? ==>
          FailedBefore(events, j) || ReleasedBefore(events, Worker, j))
      && (events[j].body.RoleBound? && events[j].body.role.Verifier? ==>
            ReleasedBefore(events, Worker, j) && ReleasedBefore(events, Egress, j))
  }

  lemma ReleasedAt(events: seq<Event>, roles: map<Role, RoleState>, r: Role, j: int)
    requires AllRecorded(events, roles) && r in roles && roles[r].releasedAt.Some?
             && roles[r].releasedAt.value <= j < |events|
    ensures ReleasedBefore(events, r, j)
  {
    assert RecordedAt(events, roles, r);
    assert events[roles[r].releasedAt.value - 1].body == RoleReleased(r, roles[r].id.binding);
  }

  lemma RecordsOrdered(events: seq<Event>, roles: map<Role, RoleState>, n: int)
    requires AllRecorded(events, roles) && AllExplained(events, roles) && Contiguous(events)
    requires OrderedTo(roles, n) && (n == |events| || FailedAt(events, n))
    ensures ReleasesOrdered(events)
  {
    forall j | 0 <= j < |events|
      ensures events[j].body.RoleStopped? && events[j].body.role.Egress?
              ==> FailedBefore(events, j) || ReleasedBefore(events, Worker, j)
      ensures events[j].body.RoleBound? && events[j].body.role.Verifier? ==>
                ReleasedBefore(events, Worker, j) && ReleasedBefore(events, Egress, j)
    {
      assert ExplainedAt(events, roles, j);
      if events[j].body.RoleStopped? && events[j].body.role.Egress? && j + 1 <= n {
        ReleasedAt(events, roles, Worker, j);
      }
      if events[j].body.RoleBound? && events[j].body.role.Verifier? {
        ReleasedAt(events, roles, Egress, j);
        ReleasedAt(events, roles, Worker, j);
      }
    }
  }

  /** The order holds in every run that is not poisoned, failed or not. */
  lemma OrderKept(cfg: Config, calls: seq<Call>, clock: Clock)
    requires ValidConfig(cfg) && !Run(cfg, calls, clock).poisoned
    ensures ReleasesOrdered(Run(cfg, calls, clock).events)
  {
    var s := Run(cfg, calls, clock);
    RunSound(cfg, calls, clock);
    BoundedEvents(cfg, s);
    if s.terminal.Some? {
      var n :| OrderedTo(s.roles, n) && (n == |s.events| || FailedAt(s.events, n));
      RecordsOrdered(s.events, s.roles, n);
    } else {
      RolesOrderedTo(s.events, s.roles, |s.events|);
      RecordsOrdered(s.events, s.roles, |s.events|);
    }
  }

  // ---- the order after a failure ----

  /** Egress never stops before the worker's release, failure or not. */
  ghost predicate EgressStopsAfterRelease(events: seq<Event>) {
    forall j | 0 <= j < |events| && events[j].body.RoleStopped? && events[j].body.role.Egress? ::
      ReleasedBefore(events, Worker, j)
  }

  lemma StopsLate(cfg: Config, s: Session, phase: FailurePhase, code: FailureCode, c: Cleanup, done: Session, t: Tail)
    requires Intact(cfg, s) && ContainedBy(cfg, s, phase, code, c, done, t)
    requires InPhase(s, Egress, RunningPhase) ==> InPhase(s, Worker, ReleasedPhase)
    ensures EgressStopsAfterRelease(done.events)
  {
    var n := |s.events| + 1;
    assert KeptAt(s.roles, done.roles, n, Egress) && KeptAt(s.roles, done.roles, n, Worker);
    assert RecordedAt(s.events, s.roles, Egress) && RecordedAt(s.events, s.roles, Worker);
    assert RecordedAt(done.events, done.roles, Egress);
    AllReach(s.events, s.roles);
    forall j | 0 <= j < |done.events| && done.events[j].body.RoleStopped? && done.events[j].body.role.Egress?
      ensures ReleasedBefore(done.events, Worker, j)
    {
      assert ExplainedAt(done.events, done.roles, j);
      ReleasedAt(done.events, done.roles, Worker, j);
    }
  }

  lemma ContainStopsFirst(cfg: Config, s: Session, phase: FailurePhase, code: FailureCode, c: Cleanup, clock: Clock)
    requires Intact(cfg, s) && !ContainedSession(cfg, s, phase, code, c, clock).poisoned
    requires InPhase(s, Egress, RunningPhase) && !InPhase(s, Worker, ReleasedPhase)
    ensures exists p :: StoppedFirst(ContainedSession(cfg, s, phase, code, c, clock).roles, p)
  {
    var observed := Append(s, FailureObserved(phase, code), clock);
    var acted := ActOnRoles(observed, c, clock);
    var settled := SettleRoles(acted, c, clock);
    assert AnyUnfinished(s) && !settled.poisoned && !acted.poisoned && !observed.poisoned;
    AppendKeeps(cfg, s, 1, FailureObserved(phase, code), clock);
    ActsKeep(cfg, observed, 2, c, clock);
    assert RecordedAt(s.events, s.roles, Worker);
    EgressSettlesFirst(cfg, acted, 5, c, clock);
    assert StoppedFirst(ContainedSession(cfg, s, phase, code, c, clock).roles, |acted.events| + 1);
  }

  lemma StopsEarly(events: seq<Event>, roles: map<Role, RoleState>, p: int)
    requires AllRecorded(events, roles) && AllExplained(events, roles) && Contiguous(events) && StoppedFirst(roles, p)
    ensures !EgressStopsAfterRelease(events)
  {
    assert RecordedAt(events, roles, Egress);
    assert events[p - 1].body == RoleStopped(Egress, roles[Egress].id.binding);
    forall i | 0 <= i < p - 1 && events[i].body.RoleReleased?
      ensures events[i].body.role != Worker
    {
      assert ExplainedAt(events, roles, i);
    }
  }

  /** A containment stops egress before the worker's release exactly when the failure meets
      egress running and the worker not released. */
  lemma FailureStopsEgressEarly(cfg: Config, s: Session, phase: FailurePhase, code: FailureCode, c: Cleanup,
                                clock: Clock)
    requires Intact(cfg, s) && !ContainedSession(cfg, s, phase, code, c, clock).poisoned
    ensures EgressStopsAfterRelease(ContainedSession(cfg, s, phase, code, c, clock).events)
            <==> (InPhase(s, Egress, RunningPhase) ==> InPhase(s, Worker, ReleasedPhase))
  {
    ContainKeeps(cfg, s, phase, code, c, clock);
    var t :| ContainedBy(cfg, s, phase, code, c, ContainedSession(cfg, s, phase, code, c, clock), t);
    if InPhase(s, Egress, RunningPhase) && !InPhase(s, Worker, ReleasedPhase) {
      ContainStopsFirst(cfg, s, phase, code, c, clock);
      var done := ContainedSession(cfg, s, phase, code, c, clock);
      var p :| StoppedFirst(done.roles, p);
      StopsEarly(done.events, done.roles, p);
    } else {
      StopsLate(cfg, s, phase, code, c, ContainedSession(cfg, s, phase, code, c, clock), t);
    }
  }

  function Zeroes(): Sha { seq(64, _ => '0') }

  const EGRESS_SEEN := Observation(Egress, Zeroes(), 1, Timestamp(2024, 1, 1, 0, 0, 0, 3, true))

  const EGRESS_STARTS := [CallBind(EGRESS_SEEN, false, Some(BoundAnswer(Zeroes(), 0))), CallStart(Egress)]

  lemma Advanced(s: Session, body: EventBody)
    requires !s.poisoned && |s.events| < 16 && s.lastNs == Some(|s.events| - 1)
    ensures var s1 := Append(s, body, EachNs);
            !s1.poisoned && s1.events == s.events + [Event(|s.events| + 1, |s.events|, body)]
              && s1.lastNs == Some(|s.events|)
            && s1.roles == s.roles && s1.terminal == s.terminal
  {}

  lemma FirstBinds(cfg: Config, s: Session, o: Observation, cgroup: Sha)
    requires ValidConfig(cfg) && Mutable(s) && |s.events| < 8 && s.lastNs == Some(|s.events| - 1) && s.roles == map[]
    requires o.role == Egress && ValidObservation(o) && IsCalendarTimestamp(o.startedAt)
    ensures var step := BindRole(cfg, s, o, false, Some(BoundAnswer(cgroup, 0)), EachNs);
            Mutable(step.next) && InPhase(step.next, Egress, BoundPhase) && Worker !in step.next.roles
            && |step.next.events| == |s.events| + 2 && step.next.lastNs == Some(|s.events| + 1)
  {
    var binding := Digest(cfg.h, RoleBindingOf(cfg.binding.run, o, cgroup));
    assert binding.Some? && AdmissionInOrder(s, Egress);
    var id := Identity(o, cgroup, binding.value);
    var st := RoleState(id, BoundPhase, 0, 0, [], [], |s.events| + 1, None, None, None);
    Advanced(s, RoleBound(Egress, id.binding));
    var s1 := Update(BoundEvent(s, Egress, id, EachNs), Egress, st);
    Advanced(s1, CpuSample(Egress, id.binding, 0, 0));
    assert !ReusesIdentity(s, id) && s1.roles[Egress] == st;
  }

  lemma EgressRuns(cfg: Config)
    requires ValidConfig(cfg)
    ensures var s := Run(cfg, EGRESS_STARTS, EachNs);
            Mutable(s) && InPhase(s, Egress, RunningPhase) && Worker !in s.roles && |s.events| == 4
              && s.lastNs == Some(3)
  {
    var s0 := Run(cfg, [], EachNs);
    FirstBinds(cfg, s0, EGRESS_SEEN, Zeroes());
    var s1 := BindRole(cfg, s0, EGRESS_SEEN, false, Some(BoundAnswer(Zeroes(), 0)), EachNs).next;
    Advanced(s1, RoleStarted(Egress, s1.roles[Egress].id.binding));
    assert EGRESS_STARTS[..1] == [EGRESS_STARTS[0]] && [EGRESS_STARTS[0]][..0] == [];
    assert Run(cfg, [EGRESS_STARTS[0]], EachNs) == s1;
    assert Run(cfg, EGRESS_STARTS, EachNs) == StartRole(s1, Egress, EachNs).next;
  }

  lemma ReportIsContainment(cfg: Config, s: Session, phase: FailurePhase, code: FailureCode, c: Cleanup, clock: Clock)
    requires Mutable(s) && PhaseOf(code) == phase
    ensures Perform(cfg, s, CallReport(phase, code, c), clock) == ContainFailure(cfg, s, phase, code, c, clock)
  {
    assert Perform(cfg, s, CallReport(phase, code, c), clock) == Report(cfg, s, phase, code, c, clock);
  }

  /** With a clock that serves every append, an honest report is recorded and accepted. */
  lemma ReportContains(cfg: Config, s: Session, phase: FailurePhase, code: FailureCode, c: Cleanup, clock: Clock)
    requires ValidConfig(cfg) && Live(cfg, s) && Steady(s, clock, |s.events| + 11) && |s.events| + 11 <= MAX_EVENTS
    requires PhaseOf(code) == phase && Reportable(cfg, s, code, c)
    ensures !ContainedSession(cfg, s, phase, code, c, clock).poisoned
    ensures var step := ContainFailure(cfg, s, phase, code, c, clock);
            step.reply.Candidate? && step.next.events == ContainedSession(cfg, s, phase, code, c, clock).events
  {
    ContainedSteady(cfg, s, phase, code, c, clock);
    ContainAccepted(cfg, s, phase, code, c, clock);
  }

  /** It happens: a failure reported while egress runs and no worker was admitted yet. */
  lemma EarlyStopHappens(cfg: Config, c: Cleanup)
    requires ValidConfig(cfg)
    ensures var step := Perform(cfg, Run(cfg, EGRESS_STARTS, EachNs), CallReport(Sampling, CpuStatReadFailed, c),
            EachNs);
            step.reply.Candidate? && !EgressStopsAfterRelease(step.next.events)
  {
    var s := Run(cfg, EGRESS_STARTS, EachNs);
    EgressRuns(cfg);
    RunSound(cfg, EGRESS_STARTS, EachNs);
    assert forall n: nat | 4 <= n < 15 :: Advances(EachNs, n);
    ReportIsContainment(cfg, s, Sampling, CpuStatReadFailed, c, EachNs);
    ReportContains(cfg, s, Sampling, CpuStatReadFailed, c, EachNs);
    FailureStopsEgressEarly(cfg, s, Sampling, CpuStatReadFailed, c, EachNs);
  }

  /** End to end: whatever evidence any run hands out can be relied on. */
  lemma EvidenceReliable(cfg: Config, calls: seq<Call>, clock: Clock, call: Call)
    requires ValidConfig(cfg)
    ensures var reply := Perform(cfg, Run(cfg, calls, clock), call, clock).reply;
            reply.Candidate? ==> Reliable(cfg.h, reply.value, cfg.binding)
  {
    EvidenceAccepted(cfg, calls, clock, call);
    var reply := Perform(cfg, Run(cfg, calls, clock), call, clock).reply;
    if reply.Candidate? {
      AcceptedReliable(cfg.h, reply.value, cfg.binding);
    }
  }

  // ---- admission: what the port was told and the transcript never shows ----

  /** The call reaches the system port and is answered with a usable binding. */
  predicate PortBound(s: Session, o: Observation, aborted: bool, answer: Option<BoundAnswer>) {
    Mutable(s) && !aborted && AdmissionInOrder(s, o.role) && ValidObservation(o)
    && answer.Some? && IsSha256(answer.value.cgroup) && IsUint64(answer.value.usage)
  }

  /** The port has bound the role, yet the session is left unchanged and usable: exactly when
      the start time passes the producer's check and fails the calendar check of the hash. */
  lemma BoundButUnrecorded(cfg: Config, s: Session, o: Observation, answer: Option<BoundAnswer>, clock: Clock)
    requires ValidConfig(cfg) && PortBound(s, o, false, answer)
    ensures BindRole(cfg, s, o, false, answer, clock).next == s <==> !IsCalendarTimestamp(o.startedAt)
  {
    var input := RoleBindingOf(cfg.binding.run, o, answer.value.cgroup);
    if IsCalendarTimestamp(o.startedAt) {
      assert Digest(cfg.h, input).Some?;
      var id := Identity(o, answer.value.cgroup, Digest(cfg.h, input).value);
      var s1 := BoundEvent(s, o.role, id, clock);
      assert s1.poisoned || |s1.events| == |s.events| + 1;
    }
  }

  const EARLY_SEEN := Observation(Egress, Zeroes(), 1, Timestamp(1969, 12, 31, 23, 59, 59, 3, true))

  /** It happens: egress observed to have started in the last second of 1969, in a new session.
      The port has bound it, and the call throws and leaves the session as it was. */
  lemma UnrecordedExists(cfg: Config)
    requires ValidConfig(cfg)
    ensures IsAdmissionTimestamp(EARLY_SEEN.startedAt) && !IsCalendarTimestamp(EARLY_SEEN.startedAt)
    ensures var s, answer := Run(cfg, [], EachNs), Some(BoundAnswer(Zeroes(), 0));
            PortBound(s, EARLY_SEEN, false, answer)
            && Perform(cfg, s, CallBind(EARLY_SEEN, false, answer), EachNs) == Step(s, Threw)
  {
    var s, answer := Run(cfg, [], EachNs), Some(BoundAnswer(Zeroes(), 0));
    assert AdmissionInOrder(s, Egress) && ValidObservation(EARLY_SEEN);
    assert Digest(cfg.h, RoleBindingOf(cfg.binding.run, EARLY_SEEN, Zeroes())).None?;
  }
}
