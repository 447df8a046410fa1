/** Every operation of every run: the evidence the producer builds is accepted, but for two
    misreports by its caller. */
module Completeness {
  import opened Evidence
  import opened Acceptor
  import opened Producer
  import opened ProducerInvariant
  import opened ProducerLive
  import opened ContainmentTail
  import opened Transcripts
  import opened FailureAccepted
  import opened SuccessAccepted

  /** Consistent, with at most six events of no role. */
  ghost predicate Bounded(cfg: Config, s: Session) { exists extra: nat | extra <= 6 :: Consistent(cfg, s, extra) }

  lemma EventsBound(cfg: Config, done: Session, extra: nat)
    requires Consistent(cfg, done, extra) && extra <= 8
    ensures |done.events| <= MAX_EVENTS
  {
    WeightBound(done.events, done.roles);
  }

  function BodyOf(cfg: Config, s: Session, phase: FailurePhase, code: FailureCode, c: Cleanup, clock: Clock): Evidence
    requires DigestsOf(cfg, ContainedSession(cfg, s, phase, code, c, clock)).Some?
  {
    var done := ContainedSession(cfg, s, phase, code, c, clock);
    FailureBody(cfg, AnyUnfinished(s), done, phase, code, c, DigestsOf(cfg, done).value)
  }

  lemma ContainFits(cfg: Config, s: Session, phase: FailurePhase, code: FailureCode, c: Cleanup, clock: Clock)
    requires ValidConfig(cfg) && Consistent(cfg, s, 1) && !ContainedSession(cfg, s, phase, code, c, clock).poisoned
    ensures var done := ContainedSession(cfg, s, phase, code, c, clock);
            |done.events| <= MAX_EVENTS && Aggregate(done.roles) == Aggregate(s.roles) && done.terminal == s.terminal
            && DigestsOf(cfg, done).Some? && |ObservedRolesOf(done)| <= 3 && Bounded(cfg, done)
            && (Intact(cfg, s) ==> OrderedUntilFailure(done))
  {
    var done := ContainedSession(cfg, s, phase, code, c, clock);
    ContainKeeps(cfg, s, phase, code, c, clock);
    var t :| ContainedBy(cfg, s, phase, code, c, done, t);
    assert Consistent(cfg, done, 2 + |t.actions| + |t.stops|);
    KeptAggregate(s.roles, done.roles, |s.events| + 1);
    EventsBound(cfg, done, 2 + |t.actions| + |t.stops|);
    ContainmentDigests(cfg, done);
    if Intact(cfg, s) {
      ContainOrdered(cfg, s, phase, code, c, done, t);
    }
  }

  /** No hash throws and the account stays in range: a recorded containment reaches the acceptor. */
  lemma ContainSubmits(cfg: Config, s: Session, phase: FailurePhase, code: FailureCode, c: Cleanup, clock: Clock)
    requires ValidConfig(cfg) && Containable(cfg, s) && PhaseOf(code) == phase
    requires !ContainedSession(cfg, s, phase, code, c, clock).poisoned
    ensures var done := ContainedSession(cfg, s, phase, code, c, clock);
            DigestsOf(cfg, done).Some? && Aggregate(done.roles) == Aggregate(s.roles)
            && Digest(cfg.h, EvidenceInput(BodyOf(cfg, s, phase, code, c, clock))).Some?
            && ContainFailure(cfg, s, phase, code, c, clock)
              == FinishCandidate(cfg, done, BodyOf(cfg, s, phase, code, c, clock))
  {
    ContainFits(cfg, s, phase, code, c, clock);
    FailureDigest(cfg, BodyOf(cfg, s, phase, code, c, clock));
  }

  lemma BodyAccepted(cfg: Config, s: Session, phase: FailurePhase, code: FailureCode, c: Cleanup, clock: Clock,
                     sha: string)
    requires ValidConfig(cfg) && Containable(cfg, s) && PhaseOf(code) == phase && Reportable(cfg, s, code, c)
    requires !ContainedSession(cfg, s, phase, code, c, clock).poisoned
    requires DigestsOf(cfg, ContainedSession(cfg, s, phase, code, c, clock)).Some?
    requires Digest(cfg.h, EvidenceInput(BodyOf(cfg, s, phase, code, c, clock))) == Some(sha)
    ensures AcceptsFailure(cfg.h, Sealed(BodyOf(cfg, s, phase, code, c, clock), sha), cfg.binding)
  {
    var done := ContainedSession(cfg, s, phase, code, c, clock);
    ContainKeeps(cfg, s, phase, code, c, clock);
    var t :| ContainedBy(cfg, s, phase, code, c, done, t);
    FailureAccepts(cfg, s, phase, code, c, done, t, DigestsOf(cfg, done).value, sha);
  }

  /** A containment that records everything ends in accepted evidence when the code may be
      reported. */
  lemma ContainAccepted(cfg: Config, s: Session, phase: FailurePhase, code: FailureCode, c: Cleanup, clock: Clock)
    requires ValidConfig(cfg) && Containable(cfg, s) && PhaseOf(code) == phase && Reportable(cfg, s, code, c)
    requires !ContainedSession(cfg, s, phase, code, c, clock).poisoned
    ensures var step := ContainFailure(cfg, s, phase, code, c, clock);
            step.reply.Candidate? && AcceptsFailure(cfg.h, step.reply.value, cfg.binding)
            && step.next == ContainedSession(cfg, s, phase, code, c, clock).(terminal := Some(step.reply.value))
  {
    ContainSubmits(cfg, s, phase, code, c, clock);
    BodyAccepted(cfg, s, phase, code, c, clock,
      Digest(cfg.h, EvidenceInput(BodyOf(cfg, s, phase, code, c, clock))).value);
  }

  /** A misreport that records everything ends in a refusal. */
  lemma ContainRejected(cfg: Config, s: Session, phase: FailurePhase, code: FailureCode, c: Cleanup, clock: Clock)
    requires ValidConfig(cfg) && Containable(cfg, s) && PhaseOf(code) == phase
             && Aggregate(s.roles) <= cfg.binding.budget
    requires code.CpuBudgetExceeded? || (code.ContainmentActionFailed? && !ActionFails(s, c))
    requires !ContainedSession(cfg, s, phase, code, c, clock).poisoned
    ensures var step := ContainFailure(cfg, s, phase, code, c, clock); step.reply.Rejected? && step.next.poisoned
  {
    var done := ContainedSession(cfg, s, phase, code, c, clock);
    ContainSubmits(cfg, s, phase, code, c, clock);
    OutcomeInconsistent(cfg, s, done, phase, code, c, DigestsOf(cfg, done).value);
  }

  // ---- operations ----

  ghost predicate Certified(cfg: Config, step: Step) {
    step.reply.Candidate? && step.next.terminal == Some(step.reply.value) && !step.next.poisoned
    && Accepts(cfg.h, step.reply.value, cfg.binding) && Bounded(cfg, step.next)
    && step.reply.value.body.events == step.next.events
    && OrderedUntilFailure(step.next)
  }

  /** The operation ended the session: with accepted evidence, or poisoned. */
  ghost predicate Ended(cfg: Config, step: Step) {
    (step.reply.Threw? && step.next.poisoned) || Certified(cfg, step)
  }

  /** The operation ended the session or left it usable, unchanged if it threw; it was not refused. */
  ghost predicate Progresses(cfg: Config, s: Session, step: Step) {
    Ended(cfg, step) || (Live(cfg, step.next) && !step.reply.Rejected? && !step.reply.Candidate?
      && (step.reply.Threw? ==> step.next == s))
  }

  lemma BindEnds(cfg: Config, s: Session, o: Observation, aborted: bool, answer: Option<BoundAnswer>, clock: Clock)
    requires Live(cfg, s)
    ensures Progresses(cfg, s, BindRole(cfg, s, o, aborted, answer, clock))
  {
    if !BindRole(cfg, s, o, aborted, answer, clock).next.poisoned {
      BindLive(cfg, s, o, aborted, answer, clock);
    }
  }

  lemma StartEnds(cfg: Config, s: Session, r: Role, clock: Clock)
    requires Live(cfg, s)
    ensures Progresses(cfg, s, StartRole(s, r, clock))
  {
    if !StartRole(s, r, clock).next.poisoned {
      StartLive(cfg, s, r, clock);
    }
  }

  lemma BoundedThrough(cfg: Config, s: Session, next: Session)
    requires Bounded(cfg, s) && OrderedUntilFailure(s) && next == s.(terminal := next.terminal)
    ensures Bounded(cfg, next) && OrderedUntilFailure(next)
  {
    var n :| OrderedTo(s.roles, n) && (n == |s.events| || FailedAt(s.events, n));
    assert OrderedTo(next.roles, n);
    var extra: nat :| extra <= 6 && Consistent(cfg, s, extra);
    assert Consistent(cfg, next, extra);
  }

  lemma ContainCertified(cfg: Config, s: Session, phase: FailurePhase, code: FailureCode, c: Cleanup, clock: Clock)
    requires ValidConfig(cfg) && Containable(cfg, s) && PhaseOf(code) == phase && Reportable(cfg, s, code, c)
    requires !ContainedSession(cfg, s, phase, code, c, clock).poisoned
    ensures Certified(cfg, ContainFailure(cfg, s, phase, code, c, clock))
  {
    ContainFits(cfg, s, phase, code, c, clock);
    ContainAccepted(cfg, s, phase, code, c, clock);
    BoundedThrough(cfg, ContainedSession(cfg, s, phase, code, c, clock),
      ContainFailure(cfg, s, phase, code, c, clock).next);
  }

  lemma ContainEnds(cfg: Config, s: Session, phase: FailurePhase, code: FailureCode, c: Cleanup, clock: Clock)
    requires ValidConfig(cfg) && Containable(cfg, s) && PhaseOf(code) == phase && Reportable(cfg, s, code, c)
    ensures Ended(cfg, ContainFailure(cfg, s, phase, code, c, clock))
  {
    if !ContainedSession(cfg, s, phase, code, c, clock).poisoned {
      ContainCertified(cfg, s, phase, code, c, clock);
    }
  }

  /** A reading that cannot be recorded is contained. */
  lemma ReadingEnds(cfg: Config, s: Session, code: FailureCode, c: Cleanup, clock: Clock)
    requires ValidConfig(cfg) && Intact(cfg, s) && Aggregate(s.roles) <= cfg.binding.budget
    requires code in {CpuStatReadFailed, RoleIdentityDrift, CpuCounterRegression}
    ensures Ended(cfg, ContainFailure(cfg, s, Sampling, code, c, clock))
  {
    ContainEnds(cfg, s, Sampling, code, c, clock);
  }

  /** A recorded reading that passes the budget is contained. */
  lemma OverBudgetEnds(cfg: Config, s: Session, r: Role, usage: int, c: Cleanup, clock: Clock)
    requires ValidConfig(cfg) && Intact(cfg, s) && r in s.roles && !s.roles[r].phase.ReleasedPhase?
    requires s.roles[r].last <= usage && IsUint64(usage) && !RecordSample(s, r, usage, clock).poisoned
    ensures var s1 := RecordSample(s, r, usage, clock);
            cfg.binding.budget < Aggregate(s1.roles) <= MAX_UINT64 ==>
              Ended(cfg, ContainFailure(cfg, s1, Sampling, CpuBudgetExceeded, c, clock))
  {
    var s1 := RecordSample(s, r, usage, clock);
    RecordSampleKeeps(cfg, s, r, usage, clock);
    assert r in s1.roles && !s1.roles[r].phase.ReleasedPhase?;
    if cfg.binding.budget < Aggregate(s1.roles) <= MAX_UINT64 {
      ContainEnds(cfg, s1, Sampling, CpuBudgetExceeded, c, clock);
    }
  }

  lemma ObserveEnds(cfg: Config, s: Session, r: Role, answer: Option<BoundAnswer>, c: Cleanup, clock: Clock)
    requires ValidConfig(cfg) && Intact(cfg, s) && Aggregate(s.roles) <= cfg.binding.budget
    requires r in s.roles && !s.roles[r].phase.ReleasedPhase?
    ensures var step := ObserveUsage(cfg, s, r, answer, c, clock);
            Ended(cfg, step)
            || (step.reply.Done? && !step.next.poisoned && answer.Some? && IsUint64(answer.value.usage)
                && s.roles[r].last <= answer.value.usage
                && step.next == RecordSample(s, r, answer.value.usage, clock)
                && Aggregate(step.next.roles) <= cfg.binding.budget)
  {
    var fault := FaultOf(s.roles[r], answer);
    if fault.Some? {
      ReadingEnds(cfg, s, fault.value, c, clock);
    } else if !RecordSample(s, r, answer.value.usage, clock).poisoned {
      OverBudgetEnds(cfg, s, r, answer.value.usage, c, clock);
    }
  }

  lemma SampleEnds(cfg: Config, s: Session, r: Role, answer: Option<BoundAnswer>, c: Cleanup, clock: Clock)
    requires ValidConfig(cfg) && Live(cfg, s)
    ensures Progresses(cfg, s, SampleRole(cfg, s, r, answer, c, clock))
  {
    if InPhase(s, r, RunningPhase) {
      ObserveEnds(cfg, s, r, answer, c, clock);
      if !Ended(cfg, SampleRole(cfg, s, r, answer, c, clock)) {
        SampleAccounted(cfg, s, r, answer.value.usage, clock);
      }
    }
  }

  lemma StopEnds(cfg: Config, s: Session, r: Role, answer: Option<BoundAnswer>, c: Cleanup, clock: Clock)
    requires ValidConfig(cfg) && Live(cfg, s)
    ensures Progresses(cfg, s, StopRole(cfg, s, r, answer, c, clock))
  {
    if InPhase(s, r, RunningPhase) && (r.Egress? ==> InPhase(s, Worker, ReleasedPhase))
      && !StopEvent(s, r, clock).poisoned {
      var s1 := StopEvent(s, r, clock);
      StopEventKeeps(cfg, s, r, clock);
      ObserveEnds(cfg, s1, r, answer, c, clock);
      if !Ended(cfg, StopRole(cfg, s, r, answer, c, clock)) {
        StopAccounted(cfg, s, r, answer.value.usage, clock);
      }
    }
  }

  lemma ReleaseEnds(cfg: Config, s: Session, r: Role, released: bool, c: Cleanup, clock: Clock)
    requires ValidConfig(cfg) && Live(cfg, s)
    ensures Progresses(cfg, s, ReleaseRole(cfg, s, r, released, c, clock))
  {
    if InPhase(s, r, StoppedPhase) {
      if !released {
        ContainEnds(cfg, s, CgroupRelease, CgroupReleaseFailed, c, clock);
      } else if !ReleaseEvent(s, r, clock).poisoned {
        ReleaseLive(cfg, s, r, clock);
      }
    }
  }

  // ---- success ----

  lemma SuccessReady(cfg: Config, s: Session, clock: Clock)
    requires ValidConfig(cfg) && Live(cfg, s) && AllComplete(s) && EgressSampledDuringWorker(s)
    requires !Append(s, ControllerStopped(cfg.controller), clock).poisoned
    ensures var done := Append(s, ControllerStopped(cfg.controller), clock);
            AcceptsProofs(cfg.h, cfg.binding, done.events, ProofsOf(s)) && |done.events| <= MAX_EVENTS
            && Digest(cfg.h, DockerBindingOf(cfg.binding, ProofIds(ProofsOf(s)))).Some?
            && Digest(cfg.h, TranscriptInput(cfg.binding.run, cfg.controller, done.events)).Some?
            && forall i | 0 <= i < 3 :: |ProofsOf(s)[i].samples| == |ProofsOf(s)[i].samplePositions| <= MAX_ROLE_SAMPLES
  {
    var done := Append(s, ControllerStopped(cfg.controller), clock);
    CloseTranscript(cfg, s, clock);
    DockerDigest(cfg, s);
    TranscriptDigest(cfg, done.events);
    ProofsAccepted(cfg, s, done.events[|s.events|]);
    ProofsProved(cfg, s);
  }

  lemma SuccessBodyAccepted(cfg: Config, s: Session, nonCpu: Option<NonCpuFailure>, clock: Clock, docker: string,
                            transcript: string)
    requires ValidConfig(cfg) && Live(cfg, s) && AllComplete(s) && EgressSampledDuringWorker(s)
    requires nonCpu.Some? ==> ConsistentNonCpu(nonCpu.value)
    requires var done := Append(s, ControllerStopped(cfg.controller), clock);
             !done.poisoned && Digest(cfg.h, DockerBindingOf(cfg.binding, ProofIds(ProofsOf(s)))) == Some(docker)
             && Digest(cfg.h, TranscriptInput(cfg.binding.run, cfg.controller, done.events)) == Some(transcript)
    ensures var body := SuccessBody(cfg, s, Append(s, ControllerStopped(cfg.controller), clock), nonCpu, docker,
            transcript);
            Digest(cfg.h, EvidenceInput(body)).Some?
            && AcceptsObserved(cfg.h, Sealed(body, Digest(cfg.h, EvidenceInput(body)).value), cfg.binding)
  {
    var done := Append(s, ControllerStopped(cfg.controller), clock);
    var body := SuccessBody(cfg, s, done, nonCpu, docker, transcript);
    SuccessReady(cfg, s, clock);
    SuccessDigest(cfg, body);
    CloseTranscript(cfg, s, clock);
    SuccessAccepts(cfg, s, done, done.events[|s.events|], nonCpu, docker, transcript,
      Digest(cfg.h, EvidenceInput(body)).value);
  }

  /** Whatever is handed out passed the acceptor. */
  lemma CandidateAccepted(cfg: Config, s: Session, done: Session, nonCpu: Option<NonCpuFailure>)
    requires AllComplete(s) && FinishSuccess(cfg, s, done, nonCpu).reply.Candidate? && !done.poisoned
             && Bounded(cfg, done)
    requires OrderedUntilFailure(done)
    ensures Certified(cfg, FinishSuccess(cfg, s, done, nonCpu))
            && FinishSuccess(cfg, s, done, nonCpu).reply.value.body.Observed?
  {
    BoundedThrough(cfg, done, FinishSuccess(cfg, s, done, nonCpu).next);
  }

  lemma AcceptedSubmits(cfg: Config, s: Session, done: Session, nonCpu: Option<NonCpuFailure>, docker: string,
                        transcript: string)
    requires AllComplete(s)
    requires Digest(cfg.h, DockerBindingOf(cfg.binding, ProofIds(ProofsOf(s)))) == Some(docker)
    requires Digest(cfg.h, TranscriptInput(cfg.binding.run, cfg.controller, done.events)) == Some(transcript)
    requires var body := SuccessBody(cfg, s, done, nonCpu, docker, transcript);
             Digest(cfg.h, EvidenceInput(body)).Some?
             && Accepts(cfg.h, Sealed(body, Digest(cfg.h, EvidenceInput(body)).value), cfg.binding)
    ensures FinishSuccess(cfg, s, done, nonCpu).reply.Candidate?
  {}

  lemma SuccessCandidate(cfg: Config, s: Session, nonCpu: Option<NonCpuFailure>, clock: Clock)
    requires ValidConfig(cfg) && Live(cfg, s) && AllComplete(s) && EgressSampledDuringWorker(s)
    requires nonCpu.Some? ==> ConsistentNonCpu(nonCpu.value)
    requires !Append(s, ControllerStopped(cfg.controller), clock).poisoned
    ensures FinishSuccess(cfg, s, Append(s, ControllerStopped(cfg.controller), clock), nonCpu).reply.Candidate?
  {
    SuccessReady(cfg, s, clock);
    var done := Append(s, ControllerStopped(cfg.controller), clock);
    var docker := Digest(cfg.h, DockerBindingOf(cfg.binding, ProofIds(ProofsOf(s)))).value;
    var transcript := Digest(cfg.h, TranscriptInput(cfg.binding.run, cfg.controller, done.events)).value;
    SuccessBodyAccepted(cfg, s, nonCpu, clock, docker, transcript);
    AcceptedSubmits(cfg, s, done, nonCpu, docker, transcript);
  }

  lemma CloseBounded(cfg: Config, s: Session, clock: Clock)
    requires Intact(cfg, s) && !Append(s, ControllerStopped(cfg.controller), clock).poisoned
    ensures Bounded(cfg, Append(s, ControllerStopped(cfg.controller), clock))
    ensures OrderedUntilFailure(Append(s, ControllerStopped(cfg.controller), clock))
  {
    var done := Append(s, ControllerStopped(cfg.controller), clock);
    AppendKeeps(cfg, s, 1, ControllerStopped(cfg.controller), clock);
    assert Consistent(cfg, done, 2);
    RolesOrderedTo(s.events, s.roles, |done.events|);
    assert OrderedTo(done.roles, |done.events|);
  }

  lemma SuccessEnds(cfg: Config, s: Session, nonCpu: Option<NonCpuFailure>, clock: Clock)
    requires ValidConfig(cfg) && Live(cfg, s) && AllComplete(s) && EgressSampledDuringWorker(s)
    requires nonCpu.Some? ==> ConsistentNonCpu(nonCpu.value)
    requires !Append(s, ControllerStopped(cfg.controller), clock).poisoned
    ensures var step := FinishSuccess(cfg, s, Append(s, ControllerStopped(cfg.controller), clock), nonCpu);
            Certified(cfg, step) && step.reply.value.body.Observed?
  {
    SuccessCandidate(cfg, s, nonCpu, clock);
    CloseBounded(cfg, s, clock);
    CandidateAccepted(cfg, s, Append(s, ControllerStopped(cfg.controller), clock), nonCpu);
  }

  lemma FinalizeEnds(cfg: Config, s: Session, nonCpu: Option<NonCpuFailure>, stop: bool, c: Cleanup, clock: Clock)
    requires ValidConfig(cfg) && Live(cfg, s)
    ensures Progresses(cfg, s, Finalize(cfg, s, nonCpu, stop, c, clock))
  {
    if AllComplete(s) && (nonCpu.Some? ==> ConsistentNonCpu(nonCpu.value)) {
      if !EgressSampledDuringWorker(s) {
        ContainEnds(cfg, s, Sampling, CpuStatReadFailed, c, clock);
      } else if !stop {
        ContainEnds(cfg, s, ControllerStop, ControllerStopFailed, c, clock);
      } else if !Append(s, ControllerStopped(cfg.controller), clock).poisoned {
        SuccessEnds(cfg, s, nonCpu, clock);
      }
    }
  }

  // ---- the caller's reports ----

  /** The two reports the evidence format cannot carry: over budget when the account is not,
      and a failed action when none failed. */
  predicate Misreports(s: Session, call: Call) {
    call.CallReport? && PhaseOf(call.code) == call.phase
    && (call.code.CpuBudgetExceeded? || (call.code.ContainmentActionFailed? && !ActionFails(s, call.c)))
  }

  lemma ReportEnds(cfg: Config, s: Session, call: Call, clock: Clock)
    requires ValidConfig(cfg) && Live(cfg, s) && call.CallReport?
    ensures var step := Perform(cfg, s, call, clock);
            if Misreports(s, call) && !ContainedSession(cfg, s, call.phase, call.code, call.c, clock).poisoned
            then step.reply.Rejected? && step.next.poisoned
            else Progresses(cfg, s, step)
  {
    if PhaseOf(call.code) == call.phase {
      if !Misreports(s, call) {
        ContainEnds(cfg, s, call.phase, call.code, call.c, clock);
      } else if !ContainedSession(cfg, s, call.phase, call.code, call.c, clock).poisoned {
        ContainRejected(cfg, s, call.phase, call.code, call.c, clock);
      }
    }
  }
}
