/** The producer as it runs: one object whose methods update its fields in place, each proved
    to take the step the functional producer takes. */
module ProducerMachine {
  import opened Evidence
  import opened Acceptor
  import opened Producer

  class ProducerSession {
    const cfg: Config
    var events: seq<Event>
    var roles: map<Role, RoleState>
    var lastNs: Option<int>
    var terminal: Option<Sealed>
    var poisoned: bool

    function State(): Session
      reads this
    {
      Session(events, roles, lastNs, terminal, poisoned)
    }

    /** No role's counter is below its baseline: what summing in uint64 rests on. */
    ghost predicate Valid()
      reads this
    {
      forall r | r in roles :: roles[r].baseline <= roles[r].last
    }

    constructor (cfg: Config)
      ensures this.cfg == cfg && State() == EMPTY && Valid()
    {
      this.cfg := cfg;
      events, roles, lastNs, terminal, poisoned := [], map[], None, None, false;
    }

    method Initialize(clock: Clock) returns (ok: bool)
      requires State() == EMPTY
      modifies this
      ensures State() == Create(cfg, clock) && ok == !poisoned && Valid()
    {
      var position := AppendEvent(ControllerStarted(cfg.controller), clock);
      return position.Some?;
    }

    /** The position of the new event, or None once the session is poisoned. */
    method AppendEvent(body: EventBody, clock: Clock) returns (position: Option<int>)
      requires !poisoned
      modifies this`events, this`lastNs, this`poisoned
      ensures State() == Append(old(State()), body, clock)
      ensures position == if poisoned then None else Some(old(|events|) + 1)
    {
      var tick := clock(|events|);
      if tick.aborted {
        poisoned := true;
        return None;
      }
      if |events| >= MAX_EVENTS || tick.reading.None? {
        poisoned := true;
        return None;
      }
      var now := tick.reading.value;
      if !IsUint64(now) || (lastNs.Some? && now <= lastNs.value) {
        poisoned := true;
        return None;
      }
      lastNs := Some(now);
      var sequence := |events| + 1;
      events := events + [Event(sequence, now, body)];
      return Some(sequence);
    }

    /** The account, or None once it leaves uint64. */
    method AggregateUsage() returns (total: Option<int>)
      requires Valid()
      modifies this`poisoned
      ensures Producer.Aggregate(roles) <= MAX_UINT64
              ==> total == Some(Producer.Aggregate(roles)) && poisoned == old(poisoned)
      ensures Producer.Aggregate(roles) > MAX_UINT64 ==> total.None? && poisoned
    {
      var sum := 0;
      for i := 0 to 3
        invariant 0 <= sum <= MAX_UINT64 && poisoned == old(poisoned)
        invariant sum == (if i > 0 then Delta(roles, Egress) else 0) + (if i > 1 then Delta(roles, Worker) else 0)
                         + (if i > 2 then Delta(roles, Verifier) else 0)
      {
        var r := ROLES[i];
        if r in roles {
          sum := sum + (roles[r].last - roles[r].baseline);
          if sum > MAX_UINT64 {
            poisoned := true;
            return None;
          }
        }
      }
      return Some(sum);
    }

    method RecordRoleSample(r: Role, usage: int, clock: Clock)
      requires Valid() && r in roles && !poisoned && roles[r].baseline <= usage
      modifies this`events, this`roles, this`lastNs, this`poisoned
      ensures State() == RecordSample(old(State()), r, usage, clock) && Valid()
    {
      var st := roles[r];
      if |st.samples| >= MAX_ROLE_SAMPLES {
        poisoned := true;
        return;
      }
      var position := AppendEvent(CpuSample(r, st.id.binding, |st.samples|, usage), clock);
      if position.Some? {
        roles := roles[r := st.(last := usage, samples := st.samples + [usage],
          positions := st.positions + [position.value])];
      }
    }

    method MarkStopped(r: Role, clock: Clock)
      requires Valid() && r in roles && !poisoned
      modifies this`events, this`roles, this`lastNs, this`poisoned
      ensures State() == StopEvent(old(State()), r, clock) && Valid()
    {
      var position := AppendEvent(RoleStopped(r, roles[r].id.binding), clock);
      if position.Some? {
        roles := roles[r := roles[r].(stoppedAt := position, phase := StoppedPhase)];
      }
    }

    method MarkReleased(r: Role, clock: Clock)
      requires Valid() && r in roles && !poisoned
      modifies this`events, this`roles, this`lastNs, this`poisoned
      ensures State() == ReleaseEvent(old(State()), r, clock) && Valid()
    {
      if roles[r].phase == ReleasedPhase {
        return;
      }
      var position := AppendEvent(RoleReleased(r, roles[r].id.binding), clock);
      if position.Some? {
        roles := roles[r := roles[r].(releasedAt := position, phase := ReleasedPhase)];
      }
    }

    method MarkExecutionStarted(r: Role, clock: Clock) returns (reply: Reply)
      requires Valid()
      modifies this
      ensures var step := StartRole(old(State()), r, clock); State() == step.next && reply == step.reply
      ensures Valid()
    {
      if terminal.Some? || poisoned || r !in roles || roles[r].phase != BoundPhase {
        return Threw;
      }
      if r == Worker && (Egress !in roles || roles[Egress].phase != RunningPhase) {
        return Threw;
      }
      if r == Verifier && (Worker !in roles || roles[Worker].phase != ReleasedPhase
                           || Egress !in roles || roles[Egress].phase != ReleasedPhase) {
        return Threw;
      }
      var position := AppendEvent(RoleStarted(r, roles[r].id.binding), clock);
      if position.None? {
        return Threw;
      }
      roles := roles[r := roles[r].(startedAt := position, phase := RunningPhase)];
      return Done;
    }

    method BindRole(o: Observation, aborted: bool, answer: Option<BoundAnswer>, clock: Clock) returns (reply: Reply)
      requires Valid()
      modifies this
      ensures var step := Producer.BindRole(cfg, old(State()), o, aborted, answer, clock);
              State() == step.next && reply == step.reply
      ensures Valid()
    {
      if terminal.Some? || poisoned || aborted || |roles| >= 3 || o.role != ROLES[|roles|] || !ValidObservation(o) {
        return Threw;
      }
      if o.role == Worker && (Egress !in roles || roles[Egress].phase != RunningPhase) {
        return Threw;
      }
      if o.role == Verifier && (Worker !in roles || roles[Worker].phase != ReleasedPhase
                                || Egress !in roles || roles[Egress].phase != ReleasedPhase) {
        return Threw;
      }
      if answer.None? || !IsSha256(answer.value.cgroup) || !IsUint64(answer.value.usage) {
        poisoned := true;
        return Threw;
      }
      var binding := Digest(cfg.h, RoleBindingOf(cfg.binding.run, o, answer.value.cgroup));
      if binding.None? {
        return Threw;
      }
      var id := Identity(o, answer.value.cgroup, binding.value);
      if ReusesIdentity(State(), id) {
        poisoned := true;
        return Threw;
      }
      var position := AppendEvent(RoleBound(o.role, id.binding), clock);
      if position.None? {
        return Threw;
      }
      var usage := answer.value.usage;
      roles := roles[o.role := RoleState(id, BoundPhase, usage, usage, [], [], position.value, None, None, None)];
      RecordRoleSample(o.role, usage, clock);
      if poisoned {
        roles := roles - {o.role};
        return Threw;
      }
      return Admitted(id);
    }

    method Finish(body: Evidence) returns (reply: Reply)
      requires Valid()
      modifies this
      ensures var step := FinishCandidate(cfg, old(State()), body); State() == step.next && reply == step.reply
      ensures Valid()
    {
      var sha := Digest(cfg.h, EvidenceInput(body));
      if sha.None? {
        return Threw;
      }
      var value := Sealed(body, sha.value);
      if !Accepts(cfg.h, value, cfg.binding) {
        poisoned := true;
        return Rejected(value);
      }
      terminal := Some(value);
      return Candidate(value);
    }

    /** FREEZE, KILL, REAP: each attempted, and its result recorded, while recording works. */
    method Act(c: Cleanup, clock: Clock)
      requires Valid() && !poisoned
      modifies this`events, this`lastNs, this`poisoned
      ensures State() == ActOnRoles(old(State()), c, clock) && Valid()
    {
      var frozen := AppendEvent(Contained(Freeze, c.freeze), clock);
      if frozen.None? {
        return;
      }
      var killed := AppendEvent(Contained(Kill, c.kill), clock);
      if killed.None? {
        return;
      }
      var _ := AppendEvent(Contained(Reap, ReapOf(c).succeeded), clock);
    }

    method Settle(c: Cleanup, clock: Clock)
      requires Valid()
      modifies this`events, this`roles, this`lastNs, this`poisoned
      ensures State() == SettleRoles(old(State()), c, clock) && Valid()
    {
      ghost var s0 := State();
      for i := 0 to 3
        invariant Valid()
        invariant State() == SettledUpTo(s0, c, clock, i)
      {
        var r := ROLES[i];
        if !poisoned && r in roles && roles[r].phase != ReleasedPhase {
          if roles[r].phase == RunningPhase {
            MarkStopped(r, clock);
          }
          if !poisoned && r in c.released {
            MarkReleased(r, clock);
          }
        }
      }
      assert SettledUpTo(s0, c, clock, 2)
             == SettleRole(SettledUpTo(s0, c, clock, 1), Worker, Worker in c.released, clock);
      assert SettledUpTo(s0, c, clock, 1) == SettleRole(s0, Egress, Egress in c.released, clock);
    }

    method Handle(acted: bool, c: Cleanup, clock: Clock)
      requires Valid() && !poisoned
      modifies this`events, this`roles, this`lastNs, this`poisoned
      ensures State() == Handled(old(State()), acted, c, clock) && Valid()
    {
      if acted {
        Act(c, clock);
        Settle(c, clock);
      }
    }

    method Contain(phase: FailurePhase, code: FailureCode, c: Cleanup, clock: Clock) returns (reply: Reply)
      requires Valid() && !poisoned
      modifies this
      ensures var step := ContainFailure(cfg, old(State()), phase, code, c, clock);
              State() == step.next && reply == step.reply
      ensures Valid()
    {
      if terminal.Some? {
        return Candidate(terminal.value);
      }
      if PhaseOf(code) != phase {
        return Threw;
      }
      ghost var s0 := State();
      var acted := exists r | r in roles :: roles[r].phase != ReleasedPhase;
      RecordContainment(phase, code, acted, c, clock);
      if poisoned {
        return Threw;
      }
      var total := AggregateUsage();
      if total.None? {
        return Threw;
      }
      var digests := DigestsOf(cfg, State());
      if digests.None? {
        return Threw;
      }
      reply := Finish(FailureBody(cfg, acted, State(), phase, code, c, digests.value));
    }

    method RecordContainment(phase: FailurePhase, code: FailureCode, acted: bool, c: Cleanup, clock: Clock)
      requires Valid() && !poisoned && acted == AnyUnfinished(State())
      modifies this`events, this`roles, this`lastNs, this`poisoned
      ensures State() == ContainedSession(cfg, old(State()), phase, code, c, clock) && Valid()
    {
      var observed := AppendEvent(FailureObserved(phase, code), clock);
      if observed.None? {
        return;
      }
      Handle(acted, c, clock);
      if c.stop && !poisoned {
        var _ := AppendEvent(ControllerStopped(cfg.controller), clock);
      }
    }

    method Observe(r: Role, answer: Option<BoundAnswer>, c: Cleanup, clock: Clock) returns (reply: Reply)
      requires Valid() && !poisoned && r in roles
      modifies this
      ensures var step := ObserveUsage(cfg, old(State()), r, answer, c, clock);
              State() == step.next && reply == step.reply
      ensures Valid()
    {
      if answer.None? || !IsSha256(answer.value.cgroup) || !IsUint64(answer.value.usage) {
        reply := Contain(Sampling, CpuStatReadFailed, c, clock);
        return;
      }
      if answer.value.cgroup != roles[r].id.cgroup {
        reply := Contain(Sampling, RoleIdentityDrift, c, clock);
        return;
      }
      if answer.value.usage < roles[r].last {
        reply := Contain(Sampling, CpuCounterRegression, c, clock);
        return;
      }
      RecordRoleSample(r, answer.value.usage, clock);
      if poisoned {
        return Threw;
      }
      var total := AggregateUsage();
      if total.None? {
        return Threw;
      }
      if total.value > cfg.binding.budget {
        reply := Contain(Sampling, CpuBudgetExceeded, c, clock);
        return;
      }
      return Done;
    }

    method SampleRole(r: Role, answer: Option<BoundAnswer>, c: Cleanup, clock: Clock) returns (reply: Reply)
      requires Valid()
      modifies this
      ensures var step := Producer.SampleRole(cfg, old(State()), r, answer, c, clock);
              State() == step.next && reply == step.reply
      ensures Valid()
    {
      if terminal.Some? || poisoned || r !in roles || roles[r].phase != RunningPhase {
        return Threw;
      }
      reply := Observe(r, answer, c, clock);
    }

    method MarkExecutionStopped(r: Role, answer: Option<BoundAnswer>, c: Cleanup, clock: Clock) returns (reply: Reply)
      requires Valid()
      modifies this
      ensures var step := StopRole(cfg, old(State()), r, answer, c, clock); State() == step.next && reply == step.reply
      ensures Valid()
    {
      if terminal.Some? || poisoned || r !in roles || roles[r].phase != RunningPhase {
        return Threw;
      }
      if r == Egress && (Worker !in roles || roles[Worker].phase != ReleasedPhase) {
        return Threw;
      }
      MarkStopped(r, clock);
      if poisoned {
        return Threw;
      }
      reply := Observe(r, answer, c, clock);
    }

    method MarkRoleReleased(r: Role, released: bool, c: Cleanup, clock: Clock) returns (reply: Reply)
      requires Valid()
      modifies this
      ensures var step := ReleaseRole(cfg, old(State()), r, released, c, clock);
              State() == step.next && reply == step.reply
      ensures Valid()
    {
      if terminal.Some? || poisoned || r !in roles || roles[r].phase != StoppedPhase {
        return Threw;
      }
      if !released {
        reply := Contain(CgroupRelease, CgroupReleaseFailed, c, clock);
        return;
      }
      MarkReleased(r, clock);
      return if poisoned then Threw else Done;
    }

    method RecordControllerFailure(phase: FailurePhase, code: FailureCode, c: Cleanup,
                                   clock: Clock) returns (reply: Reply)
      requires Valid()
      modifies this
      ensures var step := Report(cfg, old(State()), phase, code, c, clock); State() == step.next && reply == step.reply
      ensures Valid()
    {
      if terminal.Some? || poisoned || PhaseOf(code) != phase {
        return Threw;
      }
      reply := Contain(phase, code, c, clock);
    }

    method FinalizeObserved(nonCpu: Option<NonCpuFailure>, stop: bool, c: Cleanup, clock: Clock) returns (reply: Reply)
      requires Valid()
      modifies this
      ensures var step := Finalize(cfg, old(State()), nonCpu, stop, c, clock);
              State() == step.next && reply == step.reply
      ensures Valid()
    {
      if nonCpu.Some? && !ConsistentNonCpu(nonCpu.value) {
        return Threw;
      }
      if terminal.Some? || poisoned || !AllComplete(State()) {
        return Threw;
      }
      if !EgressSampledDuringWorker(State()) {
        reply := Contain(Sampling, CpuStatReadFailed, c, clock);
        return;
      }
      var total := AggregateUsage();
      if total.None? {
        return Threw;
      }
      if total.value > cfg.binding.budget {
        reply := Contain(Sampling, CpuBudgetExceeded, c, clock);
        return;
      }
      if !stop {
        reply := Contain(ControllerStop, ControllerStopFailed, c, clock);
        return;
      }
      reply := CloseObserved(nonCpu, clock);
    }

    method CloseObserved(nonCpu: Option<NonCpuFailure>, clock: Clock) returns (reply: Reply)
      requires Valid() && !poisoned && AllComplete(State())
      modifies this
      ensures var done := Append(old(State()), ControllerStopped(cfg.controller), clock);
              if done.poisoned then State() == done && reply == Threw
              else State() == FinishSuccess(cfg, old(State()), done, nonCpu).next
                   && reply == FinishSuccess(cfg, old(State()), done, nonCpu).reply
      ensures Valid()
    {
      var proofs, total := ProofsOf(State()), Producer.Aggregate(roles);
      var position := AppendEvent(ControllerStopped(cfg.controller), clock);
      if position.None? {
        return Threw;
      }
      var docker := Digest(cfg.h, DockerBindingOf(cfg.binding, ProofIds(proofs)));
      var transcript := Digest(cfg.h, TranscriptInput(cfg.binding.run, cfg.controller, events));
      if docker.None? || transcript.None? {
        return Threw;
      }
      reply := Finish(Observed(nonCpu, cfg.binding, docker.value, total, cfg.controller, |events|, events,
        transcript.value, proofs));
    }
  }

  /** The first `n` roles settled. */
  function SettledUpTo(s: Session, c: Cleanup, clock: Clock, n: nat): Session
    requires n <= 3
  {
    if n == 0 then s else SettleRole(SettledUpTo(s, c, clock, n - 1), ROLES[n - 1], ROLES[n - 1] in c.released, clock)
  }
}
