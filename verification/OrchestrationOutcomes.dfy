/** What an orchestration reports, read off the answers of its ports. */
module OrchestrationOutcomes {
  import opened Evidence
  import opened Orchestration

  // ---- one attempt by its answers ----

  /** A repair by the cartography's backend, of the proposed files, on a run identity not taken. */
  predicate RepairGood(cart: Cartography, taken: set<string>, a: AttemptAnswers) {
    a.repair.Some? && a.repair.value.backendId == cart.backendId && a.repair.value.runId !in taken
    && a.repair.value.changed == cart.proposed
  }

  predicate Allowed(input: Input, repair: Repair) { forall c | c in repair.requested :: c in input.allowed }

  /** Its requested commands are allowed, and both commands answered on one unbroken tree. */
  predicate Ran(input: Input, cart: Cartography, taken: set<string>, a: AttemptAnswers) {
    RepairGood(cart, taken, a) && Allowed(input, a.repair.value)
    && a.typecheck.Some? && a.test.Some? && TreeUnbroken(a.typecheck.value, a.test.value)
  }

  predicate CommandsGood(a: AttemptAnswers) {
    a.typecheck.Some? && a.test.Some? && CommandPassed(a.typecheck.value) && CommandPassed(a.test.value)
  }

  /** A valid receipt that covers the accepted cases and is bound to this attempt. */
  predicate ReceiptGood(input: Input, a: AttemptAnswers, k: nat) {
    a.receipt.Some? && ValidReceipt(a.receipt.value) && Covers(a.receipt.value, input.cases)
    && a.repair.Some? && a.test.Some? && Bound(input, a.receipt.value, k, a.repair.value, a.test.value)
  }

  /** Both commands succeeded, and corpus verification was reached with a good receipt. */
  predicate Verified(input: Input, cart: Cartography, taken: set<string>, a: AttemptAnswers, k: nat) {
    Ran(input, cart, taken, a) && CommandsGood(a) && ReceiptGood(input, a, k)
  }

  predicate CasesPassed(input: Input, cart: Cartography, taken: set<string>, a: AttemptAnswers, k: nat) {
    Verified(input, cart, taken, a, k) && a.receipt.value.passed
  }

  /** A valid review by the same backend, on a run identity of its own. */
  predicate Reviewed(input: Input, cart: Cartography, taken: set<string>, a: AttemptAnswers, k: nat) {
    CasesPassed(input, cart, taken, a, k) && a.review.Some? && ValidReview(a.review.value)
    && a.review.value.backendId == cart.backendId && a.review.value.runId !in taken + {a.repair.value.runId}
  }

  predicate Approved(input: Input, cart: Cartography, taken: set<string>, a: AttemptAnswers, k: nat) {
    Reviewed(input, cart, taken, a, k) && forall f | f in a.review.value.findings :: !Blocking(f)
  }

  /** A next attempt is worth making: the commands ran and failed, or the corpus was verified and
      not passed. */
  predicate Repairable(input: Input, cart: Cartography, taken: set<string>, a: AttemptAnswers, k: nat) {
    Ran(input, cart, taken, a)
    && (!CommandsGood(a) || (ReceiptGood(input, a, k) && !a.receipt.value.passed))
  }

  // ---- what an attempt comes to ----

  /** Why the attempt is the last one; `open` says that the guards let it verify. */
  predicate Because(input: Input, cart: Cartography, taken: set<string>, a: AttemptAnswers, k: nat, open: bool,
                    reason: FailureReason) {
    match reason
    case CartographyInvalid => false
    case RepairInvalid => !RepairGood(cart, taken, a)
    case CommandFailed => RepairGood(cart, taken, a) && !(Ran(input, cart, taken, a) && CommandsGood(a))
    case PolicyVerificationFailed =>
      Ran(input, cart, taken, a) && CommandsGood(a) && !(open && CasesPassed(input, cart, taken, a, k))
    case ReviewInvalid => open && CasesPassed(input, cart, taken, a, k) && !Reviewed(input, cart, taken, a, k)
    case ReviewBlocked => open && Reviewed(input, cart, taken, a, k) && !Approved(input, cart, taken, a, k)
    case LoopEnded => false
  }

  /** The progress of the attempt, as far as its answers were taken. */
  ghost predicate Took(p: Progress, a: AttemptAnswers, q: Progress) {
    q.attempts == p.attempts + 1 && a.repair.Some? && q.repairs == p.repairs + [a.repair.value]
    && a.typecheck.Some? && a.test.Some? && q.commands == p.commands + [a.typecheck.value, a.test.value]
    && q.commandCalls == p.commandCalls + 2
  }

  ghost predicate TookReceipt(p: Progress, a: AttemptAnswers, q: Progress) {
    a.receipt.Some? && q.receipts == p.receipts + [a.receipt.value] && q.corpusCalls == p.corpusCalls + 1
  }

  ghost predicate RetryTold(input: Input, cart: Cartography, p: Progress, a: AttemptAnswers, open: bool, o: Outcome) {
    var k := p.attempts + 1;
    (o.Retry? <==> k < input.maxAttempts && Repairable(input, cart, p.seen, a, k) && (CommandsGood(a) ==> open))
    && (o.Retry? ==>
          Took(p, a, o.progress) && o.progress.seen == p.seen + {a.repair.value.runId}
          && (if CommandsGood(a) then TookReceipt(p, a, o.progress)
              else o.progress.receipts == p.receipts && o.progress.corpusCalls == p.corpusCalls))
  }

  ghost predicate EndTold(input: Input, cart: Cartography, p: Progress, a: AttemptAnswers, open: bool, report: Report) {
    var k := p.attempts + 1;
    report.progress.attempts == k
    && (report.Pass? <==> open && Approved(input, cart, p.seen, a, k))
    && (report.Pass? ==>
          Took(p, a, report.progress) && TookReceipt(p, a, report.progress) && report.cartography == cart
          && report.review == a.review.value
          && report.progress.seen == p.seen + {a.repair.value.runId} + {a.review.value.runId})
    && (report.Fail? ==> Because(input, cart, p.seen, a, k, open, report.reason))
  }

  ghost predicate AttemptTold(input: Input, cart: Cartography, p: Progress, a: AttemptAnswers, open: bool, o: Outcome) {
    RetryTold(input, cart, p, a, open, o) && (o.Ended? ==> EndTold(input, cart, p, a, open, o.report))
  }

  lemma VerifyAnswers(input: Input, cart: Cartography, p: Progress, q: Progress, a: AttemptAnswers, guarded: bool)
    requires Ran(input, cart, p.seen, a) && CommandsGood(a) && Took(p, a, q)
    requires q.seen == p.seen + {a.repair.value.runId} && q.receipts == p.receipts && q.corpusCalls == p.corpusCalls
    requires p.commandCalls == 2 * p.attempts
    ensures AttemptTold(input, cart, p, a, guarded ==> p.corpusCalls == p.attempts,
                        Verify(input, cart, q, a.repair.value, a, guarded))
  {
    if a.review.Some? {
      BlocksExactly(a.review.value);
    }
  }

  lemma BlocksExactly(r: Review)
    ensures ValidReview(r) ==> (r.block <==> !(forall f | f in r.findings :: !Blocking(f)))
  {}

  lemma CommandsAnswer(input: Input, cart: Cartography, p: Progress, q: Progress, a: AttemptAnswers, guarded: bool)
    requires RepairGood(cart, p.seen, a) && Allowed(input, a.repair.value) && q == Accepted(p, a.repair.value)
    requires p.commandCalls == 2 * p.attempts
    ensures AttemptTold(input, cart, p, a, guarded ==> p.corpusCalls == p.attempts,
                        RunCommands(input, cart, q, a.repair.value, a, guarded))
  {
    if Ran(input, cart, p.seen, a) {
      var q1 := q.(commandCalls := q.commandCalls + 1, commands := q.commands + [a.typecheck.value]);
      var q2 := q1.(commandCalls := q1.commandCalls + 1, commands := q1.commands + [a.test.value]);
      assert q2.commands == p.commands + [a.typecheck.value, a.test.value];
      if CommandsGood(a) {
        VerifyAnswers(input, cart, p, q2, a, guarded);
      }
    }
  }

  /** The progress once the repair is accepted. */
  function Accepted(p: Progress, repair: Repair): Progress {
    p.(attempts := p.attempts + 1, seen := p.seen + {repair.runId}, repairs := p.repairs + [repair])
  }

  lemma AttemptCases(input: Input, cart: Cartography, p: Progress, a: AttemptAnswers, guarded: bool)
    ensures Attempt(input, cart, p, a, guarded)
            == if !RepairGood(cart, p.seen, a) then Ended(Fail(p.(attempts := p.attempts + 1), RepairInvalid))
               else if !Allowed(input, a.repair.value) then Ended(Fail(Accepted(p, a.repair.value), CommandFailed))
               else RunCommands(input, cart, Accepted(p, a.repair.value), a.repair.value, a, guarded)
  {
    if RepairGood(cart, p.seen, a) {
      var requested := a.repair.value.requested;
      assert (exists i | 0 <= i < |requested| :: requested[i] !in input.allowed) <==> !Allowed(input, a.repair.value);
      var p0 := p.(attempts := p.attempts + 1);
      assert p0.(seen := p0.seen + {a.repair.value.runId}, repairs := p0.repairs + [a.repair.value])
          == Accepted(p, a.repair.value);
    }
  }

  lemma RefusedEarly(input: Input, cart: Cartography, p: Progress, a: AttemptAnswers, open: bool, o: Outcome)
    requires o == if !RepairGood(cart, p.seen, a) then Ended(Fail(p.(attempts := p.attempts + 1), RepairInvalid))
                  else Ended(Fail(Accepted(p, a.repair.value), CommandFailed))
    requires RepairGood(cart, p.seen, a) ==> !Allowed(input, a.repair.value)
    ensures AttemptTold(input, cart, p, a, open, o)
  {}

  /** What one attempt comes to, for all answers: when it retries, passes or fails, for what reason,
      and what of the answers its progress holds. */
  lemma AttemptAnswersExactly(input: Input, cart: Cartography, p: Progress, a: AttemptAnswers, guarded: bool)
    requires p.commandCalls == 2 * p.attempts
    ensures AttemptTold(input, cart, p, a, guarded ==> p.corpusCalls == p.attempts,
                        Attempt(input, cart, p, a, guarded))
  {
    AttemptCases(input, cart, p, a, guarded);
    if RepairGood(cart, p.seen, a) && Allowed(input, a.repair.value) {
      CommandsAnswer(input, cart, p, Accepted(p, a.repair.value), a, guarded);
    } else {
      RefusedEarly(input, cart, p, a, guarded ==> p.corpusCalls == p.attempts, Attempt(input, cart, p, a, guarded));
    }
  }

  // ---- what a run comes to ----

  /** The run makes a second attempt. */
  predicate Again(input: Input, cart: Cartography, answers: nat -> AttemptAnswers) {
    input.maxAttempts == 2 && Repairable(input, cart, {cart.runId}, answers(1), 1)
  }

  /** The run identities taken when the last attempt begins. */
  function Taken(input: Input, cart: Cartography, answers: nat -> AttemptAnswers): set<string> {
    if Again(input, cart, answers) then {cart.runId} + {answers(1).repair.value.runId} else {cart.runId}
  }

  /** The guards let the last attempt verify: the attempt before it, if any, has its receipt. */
  predicate Open(input: Input, cart: Cartography, answers: nat -> AttemptAnswers, guarded: bool) {
    guarded && Again(input, cart, answers) ==> CommandsGood(answers(1))
  }

  ghost predicate PassHolds(input: Input, cart: Cartography, answers: nat -> AttemptAnswers, report: Report)
    requires report.Pass?
  {
    var p, again := report.progress, Again(input, cart, answers);
    var first, last := answers(1), answers(if again then 2 else 1);
    report.cartography == cart && Some(report.review) == last.review
    && first.repair.Some? && last.repair.Some? && last.receipt.Some?
    && p.repairs == (if again then [first.repair.value] else []) + [last.repair.value]
    && (again && CommandsGood(first) ==> first.receipt.Some?)
    && p.receipts == (if again && CommandsGood(first) then [first.receipt.value] else []) + [last.receipt.value]
    && first.typecheck.Some? && first.test.Some? && last.typecheck.Some? && last.test.Some?
    && p.commands == (if again then [first.typecheck.value, first.test.value] else [])
                     + [last.typecheck.value, last.test.value]
  }

  /** The report follows from the answers: it passes exactly when the last attempt made is approved
      and the guards let it verify, holding what was answered; and else it says why. */
  ghost predicate ReportTold(input: Input, cart: Cartography, answers: nat -> AttemptAnswers, guarded: bool,
                             report: Report) {
    var k := if Again(input, cart, answers) then 2 else 1;
    var taken, open := Taken(input, cart, answers), Open(input, cart, answers, guarded);
    report.progress.attempts == k
    && (report.Pass? <==> open && Approved(input, cart, taken, answers(k), k))
    && (report.Pass? ==> PassHolds(input, cart, answers, report))
    && (report.Fail? ==> Because(input, cart, taken, answers(k), k, open, report.reason))
  }

  /** For one or two attempts and all answers: without a cartography the run fails for that; with one
      its report is exactly what the answers make it. */
  lemma ReportExactly(input: Input, cart: Option<Cartography>, answers: nat -> AttemptAnswers, guarded: bool)
    requires 1 <= input.maxAttempts <= 2
    ensures var report := Orchestrate(input, cart, answers, guarded);
            if cart.None? then report == Fail(START, CartographyInvalid)
            else ReportTold(input, cart.value, answers, guarded, report)
  {
    if cart.Some? {
      var p := START.(seen := {cart.value.runId});
      AttemptAnswersExactly(input, cart.value, p, answers(1), guarded);
      LoopStep(input, cart.value, p, answers, guarded);
      var o := Attempt(input, cart.value, p, answers(1), guarded);
      if o.Retry? {
        AttemptAnswersExactly(input, cart.value, o.progress, answers(2), guarded);
        LoopStep(input, cart.value, o.progress, answers, guarded);
      }
    }
  }
}
