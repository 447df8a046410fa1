/** The orchestration loop as it runs, on local state that grows, proved to give the report of
    the functional orchestrator. */
module OrchestrationMachine {
  import opened Evidence
  import opened Orchestration

  class OrchestrationState {
    var attempts: nat
    var repairs: seq<Repair>
    var commands: seq<CommandEvidence>
    var receipts: seq<Receipt>
    var seen: set<string>
    var commandCalls: nat
    var corpusCalls: nat

    function State(): Progress
      reads this
    {
      Progress(attempts, repairs, commands, receipts, seen, commandCalls, corpusCalls)
    }

    constructor ()
      ensures State() == START
    {
      attempts, repairs, commands, receipts, seen, commandCalls, corpusCalls := 0, [], [], [], {}, 0, 0;
    }

    /** The guarded command port: counts the call, and under the guard insists on the pair's order. */
    method RunCommand(first: bool, answer: Option<CommandEvidence>, guarded: bool) returns (ok: bool)
      modifies this`commandCalls, this`commands
      ensures ok <==> !(guarded && (old(commandCalls) % 2 == 0) != first) && answer.Some?
      ensures commandCalls == if guarded && (old(commandCalls) % 2 == 0) != first then old(commandCalls)
              else old(commandCalls) + 1
      ensures commands == if ok then old(commands) + [answer.value] else old(commands)
    {
      if guarded && (commandCalls % 2 == 0) != first {
        return false;
      }
      commandCalls := commandCalls + 1;
      if answer.None? {
        return false;
      }
      commands := commands + [answer.value];
      return true;
    }

    /** The corpus port and everything the receipt must satisfy. */
    method VerifyCorpus(input: Input, repair: Repair, test: CommandEvidence, answer: Option<Receipt>,
                        guarded: bool) returns (ok: bool)
      modifies this`corpusCalls, this`receipts
      ensures var called := !(guarded && !VerifyGuard(old(State()))) && answer.Some?;
              (ok <==> called && ValidReceipt(answer.value) && Covers(answer.value, input.cases)
                       && Bound(input, answer.value, attempts, repair, test))
              && corpusCalls == (if called then old(corpusCalls) + 1 else old(corpusCalls))
              && receipts == (if ok then old(receipts) + [answer.value] else old(receipts))
    {
      if guarded && commandCalls != (corpusCalls + 1) * 2 {
        return false;
      }
      if answer.None? {
        return false;
      }
      corpusCalls := corpusCalls + 1;
      if !ValidReceipt(answer.value) || !Covers(answer.value, input.cases)
        || !Bound(input, answer.value, attempts, repair, test) {
        return false;
      }
      receipts := receipts + [answer.value];
      return true;
    }

    method VerifyAndReview(input: Input, cart: Cartography, repair: Repair, a: AttemptAnswers,
                           guarded: bool) returns (report: Option<Report>)
      requires a.test.Some?
      modifies this
      ensures var o := Verify(input, cart, old(State()), repair, a, guarded);
              if o.Retry? then report.None? && State() == o.progress else report == Some(o.report)
    {
      var verified := VerifyCorpus(input, repair, a.test.value, a.receipt, guarded);
      if !verified {
        return Some(Fail(State(), PolicyVerificationFailed));
      }
      if !a.receipt.value.passed {
        if attempts < input.maxAttempts {
          return None;
        }
        return Some(Fail(State(), PolicyVerificationFailed));
      }
      if (guarded && (corpusCalls < 1 || commandCalls != corpusCalls * 2)) || a.review.None? {
        return Some(Fail(State(), ReviewInvalid));
      }
      var review := a.review.value;
      if !ValidReview(review) || review.backendId != cart.backendId || review.runId in seen {
        return Some(Fail(State(), ReviewInvalid));
      }
      if review.block {
        return Some(Fail(State(), ReviewBlocked));
      }
      seen := seen + {review.runId};
      return Some(Pass(State(), cart, review));
    }

    /** Both commands, one unbroken tree, and what follows when they pass. */
    method CommandPair(input: Input, cart: Cartography, repair: Repair, a: AttemptAnswers,
                       guarded: bool) returns (report: Option<Report>)
      modifies this
      ensures var o := RunCommands(input, cart, old(State()), repair, a, guarded);
              if o.Retry? then report.None? && State() == o.progress else report == Some(o.report)
    {
      var ran := RunCommand(true, a.typecheck, guarded);
      if !ran {
        return Some(Fail(State(), CommandFailed));
      }
      ran := RunCommand(false, a.test, guarded);
      if !ran {
        return Some(Fail(State(), CommandFailed));
      }
      if !TreeUnbroken(a.typecheck.value, a.test.value) {
        return Some(Fail(State(), CommandFailed));
      }
      if !CommandPassed(a.typecheck.value) || !CommandPassed(a.test.value) {
        if attempts < input.maxAttempts {
          return None;
        }
        return Some(Fail(State(), CommandFailed));
      }
      report := VerifyAndReview(input, cart, repair, a, guarded);
    }

    method RunAttempt(input: Input, cart: Cartography, a: AttemptAnswers,
                      guarded: bool) returns (report: Option<Report>)
      modifies this
      ensures var o := Attempt(input, cart, old(State()), a, guarded);
              if o.Retry? then report.None? && State() == o.progress else report == Some(o.report)
    {
      attempts := attempts + 1;
      if a.repair.None? {
        return Some(Fail(State(), RepairInvalid));
      }
      var repair := a.repair.value;
      if repair.backendId != cart.backendId || repair.runId in seen || repair.changed != cart.proposed {
        return Some(Fail(State(), RepairInvalid));
      }
      seen := seen + {repair.runId};
      repairs := repairs + [repair];
      for i := 0 to |repair.requested|
        invariant forall k | 0 <= k < i :: repair.requested[k] in input.allowed
      {
        if repair.requested[i] !in input.allowed {
          return Some(Fail(State(), CommandFailed));
        }
      }
      report := CommandPair(input, cart, repair, a, guarded);
    }
  }

  /** One orchestration, from cartography to a report. */
  method OrchestrateRepair(input: Input, cart: Option<Cartography>, answers: nat -> AttemptAnswers,
                           guarded: bool) returns (report: Report)
    ensures report == Orchestrate(input, cart, answers, guarded)
  {
    var state := new OrchestrationState();
    if cart.None? {
      return Fail(state.State(), CartographyInvalid);
    }
    state.seen := {cart.value.runId};
    while state.attempts < input.maxAttempts
      invariant Loop(input, cart.value, state.State(), answers, guarded) == Orchestrate(input, cart, answers, guarded)
      decreases input.maxAttempts - state.attempts
    {
      LoopStep(input, cart.value, state.State(), answers, guarded);
      var ended := state.RunAttempt(input, cart.value, answers(state.attempts + 1), guarded);
      if ended.Some? {
        return ended.value;
      }
    }
    return Fail(state.State(), LoopEnded);
  }
}
