/** How many events one operation can append, recorded in full or not. */
module TranscriptSize {
  import opened Evidence
  import opened Producer

  lemma SettleGrows(s: Session, r: Role, released: bool, clock: Clock)
    ensures |SettleRole(s, r, released, clock).events| <= |s.events| + 2
  {}

  lemma HandledGrows(s: Session, acted: bool, c: Cleanup, clock: Clock)
    ensures |Handled(s, acted, c, clock).events| <= |s.events| + 9
  {
    var s0 := ActOnRoles(s, c, clock);
    var s1 := SettleRole(s0, Egress, Egress in c.released, clock);
    var s2 := SettleRole(s1, Worker, Worker in c.released, clock);
    SettleGrows(s0, Egress, Egress in c.released, clock);
    SettleGrows(s1, Worker, Worker in c.released, clock);
    SettleGrows(s2, Verifier, Verifier in c.released, clock);
  }

  lemma ContainedGrows(cfg: Config, s: Session, phase: FailurePhase, code: FailureCode, c: Cleanup, clock: Clock)
    ensures |ContainedSession(cfg, s, phase, code, c, clock).events| <= |s.events| + 11
  {
    HandledGrows(Append(s, FailureObserved(phase, code), clock), AnyUnfinished(s), c, clock);
  }

  lemma FinishGrows(cfg: Config, s: Session, body: Evidence)
    ensures FinishCandidate(cfg, s, body).next.events == s.events
  {}

  lemma ContainGrows(cfg: Config, s: Session, phase: FailurePhase, code: FailureCode, c: Cleanup, clock: Clock)
    ensures |ContainFailure(cfg, s, phase, code, c, clock).next.events| <= |s.events| + 11
  {
    var done := ContainedSession(cfg, s, phase, code, c, clock);
    ContainedGrows(cfg, s, phase, code, c, clock);
    if DigestsOf(cfg, done).Some? {
      FinishGrows(cfg, done, FailureBody(cfg, AnyUnfinished(s), done, phase, code, c, DigestsOf(cfg, done).value));
    }
  }

  lemma ObserveGrows(cfg: Config, s: Session, r: Role, answer: Option<BoundAnswer>, c: Cleanup, clock: Clock)
    requires r in s.roles
    ensures |ObserveUsage(cfg, s, r, answer, c, clock).next.events| <= |s.events| + 12
  {
    var fault := FaultOf(s.roles[r], answer);
    if fault.Some? {
      ContainGrows(cfg, s, Sampling, fault.value, c, clock);
    } else {
      ContainGrows(cfg, RecordSample(s, r, answer.value.usage, clock), Sampling, CpuBudgetExceeded, c, clock);
    }
  }

  lemma FinalizeGrows(cfg: Config, s: Session, nonCpu: Option<NonCpuFailure>, stop: bool, c: Cleanup, clock: Clock)
    ensures |Finalize(cfg, s, nonCpu, stop, c, clock).next.events| <= |s.events| + 11
  {
    if AllComplete(s) {
      if !EgressSampledDuringWorker(s) {
        ContainGrows(cfg, s, Sampling, CpuStatReadFailed, c, clock);
      } else if Aggregate(s.roles) > cfg.binding.budget {
        ContainGrows(cfg, s, Sampling, CpuBudgetExceeded, c, clock);
      } else if !stop {
        ContainGrows(cfg, s, ControllerStop, ControllerStopFailed, c, clock);
      }
    }
  }

  lemma BindGrows(cfg: Config, s: Session, o: Observation, aborted: bool, answer: Option<BoundAnswer>, clock: Clock)
    ensures |BindRole(cfg, s, o, aborted, answer, clock).next.events| <= |s.events| + 2
  {}

  lemma PerformGrows(cfg: Config, s: Session, call: Call, clock: Clock)
    ensures |Perform(cfg, s, call, clock).next.events| <= |s.events| + 13
  {
    match call
    case CallBind(o, aborted, bound) => BindGrows(cfg, s, o, aborted, bound, clock);
    case CallStart(_) =>
    case CallSample(r, usage, c) => if InPhase(s, r, RunningPhase) { ObserveGrows(cfg, s, r, usage, c, clock); }
    case CallStop(r, usage, c) =>
      if InPhase(s, r, RunningPhase) { ObserveGrows(cfg, StopEvent(s, r, clock), r, usage, c, clock); }
    case CallRelease(_, _, c) => ContainGrows(cfg, s, CgroupRelease, CgroupReleaseFailed, c, clock);
    case CallReport(phase, code, c) => ContainGrows(cfg, s, phase, code, c, clock);
    case CallFinalize(nonCpu, stop, c) => FinalizeGrows(cfg, s, nonCpu, stop, c, clock);
  }
}
