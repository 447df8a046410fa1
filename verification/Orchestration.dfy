/** Repair orchestration: at most two attempts of repair, commands, corpus verification and
    review, with and without the call-counting guards of the unsigned worker. */
module Orchestration {
  import opened Evidence

  // ---- contracts ----

  type Sha256 = string

  const CORPUS_SIZE: nat := 41

  datatype Case = Case(id: string, expected: string)
  datatype CommandId = FixtureTypecheck | FixtureTest | OtherCommand(name: string)
  datatype Input = Input(cases: seq<Case>, maxAttempts: nat, allowed: set<CommandId>, corpusSha: Sha256,
    policySha: Sha256)

  datatype Cartography = Cartography(runId: string, backendId: string, proposed: set<string>)
  datatype Repair = Repair(runId: string, backendId: string, changed: set<string>, requested: seq<CommandId>)
  datatype CommandEvidence = CommandEvidence(id: CommandId, exitCode: int, timedOut: bool, before: Sha256,
    after: Sha256)

  datatype CaseStatus = CasePass | CaseFail | CaseError
  datatype CaseResult = CaseResult(caseId: string, expected: string, actual: Option<string>, status: CaseStatus)
  datatype Receipt = Receipt(attempt: int, repairRunId: string, tree: Sha256, corpusSha: Sha256, policySha: Sha256,
                             passed: bool, total: int, passCount: int, results: seq<CaseResult>)

  datatype Severity = Low | Medium | High | Critical
  datatype Review = Review(runId: string, backendId: string, block: bool, findings: seq<Severity>)

  function PassCount(results: seq<CaseResult>): nat {
    if results == [] then 0
    else PassCount(results[..|results| - 1]) + if results[|results| - 1].status.CasePass? then 1 else 0
  }

  predicate ValidResult(c: CaseResult) {
    if c.status.CaseError? then c.actual.None?
    else c.actual.Some? && (c.status.CasePass? <==> c.actual.value == c.expected)
  }

  /** What the receipt parser admits. */
  predicate ValidReceipt(r: Receipt) {
    |r.results| == CORPUS_SIZE && (forall i | 0 <= i < |r.results| :: ValidResult(r.results[i]))
    && (forall i, j | 0 <= i < j < |r.results| :: r.results[i].caseId != r.results[j].caseId)
    && r.total == |r.results| && r.passCount == PassCount(r.results) && (r.passed <==> r.passCount == r.total)
    && 1 <= r.attempt <= 2
  }

  predicate Blocking(s: Severity) { s.High? || s.Critical? }

  /** What the review parser admits: the verdict agrees with the findings. */
  predicate ValidReview(r: Review) { r.block <==> exists i | 0 <= i < |r.findings| :: Blocking(r.findings[i]) }

  /** The receipt covers every accepted case, with its accepted expectation. */
  predicate Covers(r: Receipt, cases: seq<Case>) {
    r.total == |cases|
    && forall i | 0 <= i < |cases| ::
         exists k | 0 <= k < |r.results| ::
           r.results[k].caseId == cases[i].id && r.results[k].expected == cases[i].expected
  }

  // ---- one run ----

  /** The answers of the ports in one attempt; None where the port or its parser throws. */
  datatype AttemptAnswers = AttemptAnswers(
    repair: Option<Repair>, typecheck: Option<CommandEvidence>, test: Option<CommandEvidence>,
    receipt: Option<Receipt>, review: Option<Review>)

  datatype Progress = Progress(attempts: nat, repairs: seq<Repair>, commands: seq<CommandEvidence>,
                               receipts: seq<Receipt>, seen: set<string>, commandCalls: nat, corpusCalls: nat)

  datatype FailureReason =
    | CartographyInvalid | RepairInvalid | CommandFailed | PolicyVerificationFailed | ReviewInvalid | ReviewBlocked
    | LoopEnded

  datatype Report =
    | Pass(progress: Progress, cartography: Cartography, review: Review)
    | Fail(progress: Progress, reason: FailureReason)

  datatype Outcome = Retry(progress: Progress) | Ended(report: Report)

  predicate AcceptsRepair(cart: Cartography, p: Progress, answer: Option<Repair>) {
    answer.Some? && answer.value.backendId == cart.backendId && answer.value.runId !in p.seen
      && answer.value.changed == cart.proposed
  }

  predicate TreeUnbroken(typecheck: CommandEvidence, test: CommandEvidence) {
    typecheck.id.FixtureTypecheck? && test.id.FixtureTest? && typecheck.after == test.before == test.after
  }

  predicate CommandPassed(c: CommandEvidence) { c.exitCode == 0 && !c.timedOut }

  predicate Bound(input: Input, r: Receipt, attempt: nat, repair: Repair, test: CommandEvidence) {
    r.attempt == attempt && r.repairRunId == repair.runId && r.tree == test.after
    && r.corpusSha == input.corpusSha && r.policySha == input.policySha
  }

  /** The guard's test before a corpus verification: one ordered pair of commands since the last. */
  predicate VerifyGuard(p: Progress) { p.commandCalls == (p.corpusCalls + 1) * 2 }
  predicate ReviewGuard(p: Progress) { p.corpusCalls >= 1 && p.commandCalls == p.corpusCalls * 2 }

  function Attempt(input: Input, cart: Cartography, p0: Progress, a: AttemptAnswers, guarded: bool): Outcome {
    var attempt := p0.attempts + 1;
    var p := p0.(attempts := attempt);
    if !AcceptsRepair(cart, p, a.repair) then Ended(Fail(p, RepairInvalid))
    else
      var repair := a.repair.value;
      var p1 := p.(seen := p.seen + {repair.runId}, repairs := p.repairs + [repair]);
      if exists i | 0 <= i < |repair.requested| :: repair.requested[i] !in input.allowed
        then Ended(Fail(p1, CommandFailed))
      else RunCommands(input, cart, p1, repair, a, guarded)
  }

  function RunCommands(input: Input, cart: Cartography, p: Progress, repair: Repair, a: AttemptAnswers,
                       guarded: bool): Outcome {
    if guarded && p.commandCalls % 2 != 0 then Ended(Fail(p, CommandFailed))
    else if a.typecheck.None? then Ended(Fail(p.(commandCalls := p.commandCalls + 1), CommandFailed))
    else
      var p1 := p.(commandCalls := p.commandCalls + 1, commands := p.commands + [a.typecheck.value]);
      if a.test.None? then Ended(Fail(p1.(commandCalls := p1.commandCalls + 1), CommandFailed))
      else
        var p2 := p1.(commandCalls := p1.commandCalls + 1, commands := p1.commands + [a.test.value]);
        if !TreeUnbroken(a.typecheck.value, a.test.value) then Ended(Fail(p2, CommandFailed))
        else if !(CommandPassed(a.typecheck.value) && CommandPassed(a.test.value)) then
          if p2.attempts < input.maxAttempts then Retry(p2) else Ended(Fail(p2, CommandFailed))
        else Verify(input, cart, p2, repair, a, guarded)
  }

  function Verify(input: Input, cart: Cartography, p: Progress, repair: Repair, a: AttemptAnswers,
                  guarded: bool): Outcome
    requires a.test.Some?
  {
    if (guarded && !VerifyGuard(p)) || a.receipt.None? then Ended(Fail(p, PolicyVerificationFailed))
    else
      var p1 := p.(corpusCalls := p.corpusCalls + 1);
      var receipt := a.receipt.value;
      if !ValidReceipt(receipt) || !Covers(receipt, input.cases)
        || !Bound(input, receipt, p.attempts, repair, a.test.value) then
        Ended(Fail(p1, PolicyVerificationFailed))
      else
        var p2 := p1.(receipts := p1.receipts + [receipt]);
        if !receipt.passed then
          if p2.attempts < input.maxAttempts then Retry(p2) else Ended(Fail(p2, PolicyVerificationFailed))
        else if (guarded && !ReviewGuard(p2)) || a.review.None? || !ValidReview(a.review.value)
                || a.review.value.backendId != cart.backendId || a.review.value.runId in p2.seen then
          Ended(Fail(p2, ReviewInvalid))
        else if a.review.value.block then Ended(Fail(p2, ReviewBlocked))
        else Ended(Pass(p2.(seen := p2.seen + {a.review.value.runId}), cart, a.review.value))
  }

  /** The loop from the progress so far. */
  function Loop(input: Input, cart: Cartography, p: Progress, answers: nat -> AttemptAnswers, guarded: bool): Report
    decreases if p.attempts < input.maxAttempts then input.maxAttempts - p.attempts else 0
  {
    if p.attempts >= input.maxAttempts then Fail(p, LoopEnded)
    else
      AttemptAdvances(input, cart, p, answers(p.attempts + 1), guarded);
      match Attempt(input, cart, p, answers(p.attempts + 1), guarded)
      case Ended(report) => report
      case Retry(next) => Loop(input, cart, next, answers, guarded)
  }

  lemma AttemptAdvances(input: Input, cart: Cartography, p: Progress, a: AttemptAnswers, guarded: bool)
    ensures var o := Attempt(input, cart, p, a, guarded);
            o.Retry? ==> o.progress.attempts == p.attempts + 1 < input.maxAttempts
  {}

  lemma LoopStep(input: Input, cart: Cartography, p: Progress, answers: nat -> AttemptAnswers, guarded: bool)
    requires p.attempts < input.maxAttempts
    ensures var o := Attempt(input, cart, p, answers(p.attempts + 1), guarded);
            Loop(input, cart, p, answers, guarded)
            == (if o.Ended? then o.report else Loop(input, cart, o.progress, answers, guarded))
    ensures var o := Attempt(input, cart, p, answers(p.attempts + 1), guarded);
            o.Retry? ==> o.progress.attempts == p.attempts + 1
  {
    AttemptAdvances(input, cart, p, answers(p.attempts + 1), guarded);
  }

  const START := Progress(0, [], [], [], {}, 0, 0)

  function Orchestrate(input: Input, cart: Option<Cartography>, answers: nat -> AttemptAnswers, guarded: bool): Report {
    if cart.None? then Fail(START, CartographyInvalid)
    else Loop(input, cart.value, START.(seen := {cart.value.runId}), answers, guarded)
  }

  // ---- what a run keeps ----

  ghost predicate RepairSeen(p: Progress, i: int) { 0 <= i < |p.repairs| ==> p.repairs[i].runId in p.seen }

  ghost predicate RepairsApart(p: Progress, i: int, j: int) {
    0 <= i < j < |p.repairs| ==> p.repairs[i].runId != p.repairs[j].runId
  }

  ghost predicate ApartFrom(p: Progress, runId: string, i: int) { 0 <= i < |p.repairs| ==> p.repairs[i].runId != runId }

  ghost predicate RunIdsKept(cart: Cartography, p: Progress) {
    cart.runId in p.seen && (forall i :: RepairSeen(p, i)) && (forall i, j :: RepairsApart(p, i, j))
      && (forall i :: ApartFrom(p, cart.runId, i))
  }

  /** Between attempts: distinct run identities, two commands per attempt, a receipt per corpus call. */
  ghost predicate Kept(cart: Cartography, p: Progress) {
    RunIdsKept(cart, p) && |p.repairs| == p.attempts && |p.commands| == p.commandCalls == 2 * p.attempts
    && p.corpusCalls == |p.receipts| <= p.attempts
  }

  lemma RepairKeepsRunIds(cart: Cartography, p: Progress, repair: Repair)
    requires RunIdsKept(cart, p) && repair.runId !in p.seen
    ensures RunIdsKept(cart, p.(seen := p.seen + {repair.runId}, repairs := p.repairs + [repair]))
  {
    var p' := p.(seen := p.seen + {repair.runId}, repairs := p.repairs + [repair]);
    forall i
      ensures RepairSeen(p', i) && ApartFrom(p', cart.runId, i)
    {
      assert RepairSeen(p, i) && ApartFrom(p, cart.runId, i);
    }
    forall i, j
      ensures RepairsApart(p', i, j)
    {
      assert RepairsApart(p, i, j) && RepairSeen(p, i);
    }
  }

  ghost predicate SameRunIds(p: Progress, q: Progress) { p.repairs == q.repairs && p.seen <= q.seen }

  lemma RunIdsCarry(cart: Cartography, p: Progress, q: Progress)
    requires RunIdsKept(cart, p) && SameRunIds(p, q)
    ensures RunIdsKept(cart, q)
  {
    forall i
      ensures RepairSeen(q, i) && ApartFrom(q, cart.runId, i)
    {
      assert RepairSeen(p, i) && ApartFrom(p, cart.runId, i);
    }
    forall i, j
      ensures RepairsApart(q, i, j)
    {
      assert RepairsApart(p, i, j);
    }
  }

  /** What a PASS report proves. */
  ghost predicate Proven(input: Input, report: Report)
    requires report.Pass?
  {
    var p, cart, review := report.progress, report.cartography, report.review;
    RunIdsKept(cart, p) && review.runId != cart.runId && (forall i :: ApartFrom(p, review.runId, i))
    && 1 <= p.attempts <= input.maxAttempts && |p.repairs| == p.attempts && |p.commands| == 2 * p.attempts
      && |p.receipts| >= 1
    && (var typecheck, test := p.commands[|p.commands| - 2], p.commands[|p.commands| - 1];
        TreeUnbroken(typecheck, test) && CommandPassed(typecheck) && CommandPassed(test)
        && Bound(input, p.receipts[|p.receipts| - 1], p.attempts, p.repairs[|p.repairs| - 1], test))
    && ValidReceipt(p.receipts[|p.receipts| - 1]) && p.receipts[|p.receipts| - 1].passed
    && Covers(p.receipts[|p.receipts| - 1], input.cases)
    && review.backendId == cart.backendId && forall i | 0 <= i < |review.findings| :: !Blocking(review.findings[i])
  }

  /** What an outcome of one attempt must satisfy. */
  ghost predicate OutcomeKept(input: Input, cart: Cartography, o: Outcome, guarded: bool) {
    (o.Retry? ==> Kept(cart, o.progress))
    && (o.Ended? && o.report.Fail? ==> !o.report.reason.LoopEnded?)
    && (o.Ended? && o.report.Pass? ==>
          Proven(input, o.report) && (guarded ==> |o.report.progress.receipts| == o.report.progress.attempts))
  }

  lemma PassApart(cart: Cartography, p: Progress, runId: string)
    requires RunIdsKept(cart, p) && runId !in p.seen
    ensures RunIdsKept(cart, p.(seen := p.seen + {runId})) && forall i ::
            ApartFrom(p.(seen := p.seen + {runId}), runId, i)
  {
    var q := p.(seen := p.seen + {runId});
    RunIdsCarry(cart, p, q);
    forall i
      ensures ApartFrom(q, runId, i)
    {
      assert RepairSeen(p, i);
    }
  }

  lemma VerifyKeeps(input: Input, cart: Cartography, p: Progress, repair: Repair, a: AttemptAnswers, guarded: bool)
    requires RunIdsKept(cart, p) && |p.repairs| == p.attempts && 1 <= p.attempts <= input.maxAttempts
    requires |p.commands| == p.commandCalls == 2 * p.attempts && p.corpusCalls == |p.receipts| < p.attempts
    requires p.repairs[|p.repairs| - 1] == repair && a.test.Some? && a.typecheck.Some?
    requires p.commands[|p.commands| - 2] == a.typecheck.value && p.commands[|p.commands| - 1] == a.test.value
    requires TreeUnbroken(a.typecheck.value, a.test.value) && CommandPassed(a.typecheck.value)
             && CommandPassed(a.test.value)
    ensures OutcomeKept(input, cart, Verify(input, cart, p, repair, a, guarded), guarded)
  {
    var o := Verify(input, cart, p, repair, a, guarded);
    if o.Retry? {
      RunIdsCarry(cart, p, o.progress);
    } else if o.report.Pass? {
      var p2 := p.(corpusCalls := p.corpusCalls + 1, receipts := p.receipts + [a.receipt.value]);
      RunIdsCarry(cart, p, p2);
      PassApart(cart, p2, a.review.value.runId);
    }
  }

  lemma CommandsKeep(input: Input, cart: Cartography, p: Progress, repair: Repair, a: AttemptAnswers, guarded: bool)
    requires RunIdsKept(cart, p) && |p.repairs| == p.attempts && 1 <= p.attempts <= input.maxAttempts
    requires |p.commands| == p.commandCalls == 2 * (p.attempts - 1) && p.corpusCalls == |p.receipts| < p.attempts
    requires p.repairs[|p.repairs| - 1] == repair
    ensures OutcomeKept(input, cart, RunCommands(input, cart, p, repair, a, guarded), guarded)
  {
    if a.typecheck.Some? && a.test.Some? && !(guarded && p.commandCalls % 2 != 0) {
      var p1 := p.(commandCalls := p.commandCalls + 1, commands := p.commands + [a.typecheck.value]);
      var p2 := p1.(commandCalls := p1.commandCalls + 1, commands := p1.commands + [a.test.value]);
      RunIdsCarry(cart, p, p2);
      if TreeUnbroken(a.typecheck.value, a.test.value) && CommandPassed(a.typecheck.value)
        && CommandPassed(a.test.value) {
        VerifyKeeps(input, cart, p2, repair, a, guarded);
      }
    }
  }

  /** One attempt: it keeps the progress when it retries, and a pass is proven; under the guards
      a pass has a receipt for every attempt. */
  lemma AttemptKeeps(input: Input, cart: Cartography, p: Progress, a: AttemptAnswers, guarded: bool)
    requires Kept(cart, p) && p.attempts < input.maxAttempts
    ensures OutcomeKept(input, cart, Attempt(input, cart, p, a, guarded), guarded)
  {
    if AcceptsRepair(cart, p, a.repair) {
      var repair := a.repair.value;
      var p0 := p.(attempts := p.attempts + 1);
      RunIdsCarry(cart, p, p0);
      RepairKeepsRunIds(cart, p0, repair);
      CommandsKeep(input, cart, p0.(seen := p0.seen + {repair.runId}, repairs := p0.repairs + [repair]), repair, a,
        guarded);
    }
  }

  lemma {:induction false} LoopKeeps(input: Input, cart: Cartography, p: Progress, answers: nat -> AttemptAnswers,
                                     guarded: bool)
    requires Kept(cart, p) && p.attempts < input.maxAttempts
    ensures var report := Loop(input, cart, p, answers, guarded);
            (report.Fail? ==> !report.reason.LoopEnded?)
            && (report.Pass? ==>
                 Proven(input, report) && (guarded ==> |report.progress.receipts| == report.progress.attempts))
    decreases input.maxAttempts - p.attempts
  {
    var o := Attempt(input, cart, p, answers(p.attempts + 1), guarded);
    AttemptKeeps(input, cart, p, answers(p.attempts + 1), guarded);
    AttemptAdvances(input, cart, p, answers(p.attempts + 1), guarded);
    LoopStep(input, cart, p, answers, guarded);
    if o.Retry? {
      LoopKeeps(input, cart, o.progress, answers, guarded);
    }
  }

  lemma StartKept(cart: Cartography)
    ensures Kept(cart, START.(seen := {cart.runId}))
  {
    var p := START.(seen := {cart.runId});
    assert forall i :: RepairSeen(p, i) && ApartFrom(p, cart.runId, i);
    assert forall i, j :: RepairsApart(p, i, j);
  }

  /** The loop always returns before the trailing failure, and a PASS is proven, for every answer
      of every port. */
  lemma PassIsProven(input: Input, cart: Option<Cartography>, answers: nat -> AttemptAnswers, guarded: bool)
    requires 1 <= input.maxAttempts <= 2
    ensures var report := Orchestrate(input, cart, answers, guarded);
            (report.Fail? ==> !report.reason.LoopEnded?) && (report.Pass? ==> Proven(input, report))
  {
    if cart.Some? {
      StartKept(cart.value);
      LoopKeeps(input, cart.value, START.(seen := {cart.value.runId}), answers, guarded);
    }
  }

  /** Under the call-counting guards every attempt of a PASS reached corpus verification: there
      are as many receipts as attempts, so no attempt failed at its commands. */
  lemma GuardedPassVerifiedEveryAttempt(input: Input, cart: Option<Cartography>, answers: nat -> AttemptAnswers)
    requires 1 <= input.maxAttempts <= 2 && Orchestrate(input, cart, answers, true).Pass?
    ensures var p := Orchestrate(input, cart, answers, true).progress; |p.receipts| == p.attempts
  {
    StartKept(cart.value);
    LoopKeeps(input, cart.value, START.(seen := {cart.value.runId}), answers, true);
  }

  // ---- when every attempt reached corpus verification ----

  predicate AllCommandsPassed(p: Progress) { forall i | 0 <= i < |p.commands| :: CommandPassed(p.commands[i]) }

  /** Every attempt has its receipt exactly when no command failed. */
  ghost predicate ReceiptsTell(p: Progress) { |p.receipts| == p.attempts <==> AllCommandsPassed(p) }

  lemma VerifyTells(input: Input, cart: Cartography, p: Progress, repair: Repair, a: AttemptAnswers, guarded: bool)
    requires a.test.Some? && |p.receipts| < p.attempts
    requires |p.receipts| + 1 == p.attempts <==> AllCommandsPassed(p)
    ensures var o := Verify(input, cart, p, repair, a, guarded);
            (o.Retry? ==> ReceiptsTell(o.progress)) && (o.Ended? && o.report.Pass? ==> ReceiptsTell(o.report.progress))
  {}

  lemma TwoMoreCommands(p: Progress, q: Progress, typecheck: CommandEvidence, test: CommandEvidence)
    requires q.commands == p.commands + [typecheck] + [test]
    ensures AllCommandsPassed(q) <==> AllCommandsPassed(p) && CommandPassed(typecheck) && CommandPassed(test)
  {
    assert q.commands[|p.commands|] == typecheck && q.commands[|p.commands| + 1] == test;
    assert forall i | 0 <= i < |p.commands| :: q.commands[i] == p.commands[i];
  }

  lemma CommandsTell(input: Input, cart: Cartography, p: Progress, repair: Repair, a: AttemptAnswers, guarded: bool)
    requires |p.receipts| < p.attempts && (|p.receipts| + 1 == p.attempts <==> AllCommandsPassed(p))
    ensures var o := RunCommands(input, cart, p, repair, a, guarded);
            (o.Retry? ==> ReceiptsTell(o.progress)) && (o.Ended? && o.report.Pass? ==> ReceiptsTell(o.report.progress))
  {
    if a.typecheck.Some? && a.test.Some? && !(guarded && p.commandCalls % 2 != 0) {
      var p1 := p.(commandCalls := p.commandCalls + 1, commands := p.commands + [a.typecheck.value]);
      var p2 := p1.(commandCalls := p1.commandCalls + 1, commands := p1.commands + [a.test.value]);
      TwoMoreCommands(p, p2, a.typecheck.value, a.test.value);
      if CommandPassed(a.typecheck.value) && CommandPassed(a.test.value) {
        VerifyTells(input, cart, p2, repair, a, guarded);
      }
    }
  }

  lemma AttemptTells(input: Input, cart: Cartography, p: Progress, a: AttemptAnswers, guarded: bool)
    requires Kept(cart, p) && ReceiptsTell(p)
    ensures var o := Attempt(input, cart, p, a, guarded);
            (o.Retry? ==> ReceiptsTell(o.progress)) && (o.Ended? && o.report.Pass? ==> ReceiptsTell(o.report.progress))
  {
    if AcceptsRepair(cart, p, a.repair) {
      var p0 := p.(attempts := p.attempts + 1);
      var p1 := p0.(seen := p.seen + {a.repair.value.runId}, repairs := p.repairs + [a.repair.value]);
      assert p1.commands == p.commands;
      CommandsTell(input, cart, p1, a.repair.value, a, guarded);
    }
  }

  lemma {:induction false} LoopTells(input: Input, cart: Cartography, p: Progress, answers: nat -> AttemptAnswers,
                                     guarded: bool)
    requires Kept(cart, p) && ReceiptsTell(p) && p.attempts < input.maxAttempts
    ensures var report := Loop(input, cart, p, answers, guarded); report.Pass? ==> ReceiptsTell(report.progress)
    decreases input.maxAttempts - p.attempts
  {
    var a := answers(p.attempts + 1);
    AttemptKeeps(input, cart, p, a, guarded);
    AttemptTells(input, cart, p, a, guarded);
    LoopStep(input, cart, p, answers, guarded);
    AttemptAdvances(input, cart, p, a, guarded);
    var o := Attempt(input, cart, p, a, guarded);
    if o.Retry? {
      LoopTells(input, cart, o.progress, answers, guarded);
    }
  }

  /** Guarded or not, every attempt of a PASS reached corpus verification if and only if every
      command of the run succeeded. */
  lemma PassVerifiedEveryAttempt(input: Input, cart: Option<Cartography>, answers: nat -> AttemptAnswers, guarded: bool)
    requires 1 <= input.maxAttempts <= 2 && Orchestrate(input, cart, answers, guarded).Pass?
    ensures var p := Orchestrate(input, cart, answers, guarded).progress;
            |p.receipts| == p.attempts <==> forall i | 0 <= i < |p.commands| :: CommandPassed(p.commands[i])
  {
    StartKept(cart.value);
    LoopTells(input, cart.value, START.(seen := {cart.value.runId}), answers, guarded);
  }

  // ---- what the guards change ----

  /** With a receipt for every attempt so far, the guards change nothing in the next one. */
  lemma GuardsAllow(input: Input, cart: Cartography, p: Progress, a: AttemptAnswers)
    requires Kept(cart, p) && |p.receipts| == p.attempts
    ensures Attempt(input, cart, p, a, true) == Attempt(input, cart, p, a, false)
  {}

  /** Once an attempt lacks its receipt no later one passes the guards, and none makes it up. */
  lemma GuardsRefuse(input: Input, cart: Cartography, p: Progress, a: AttemptAnswers, guarded: bool)
    requires Kept(cart, p) && |p.receipts| < p.attempts
    ensures var o := Attempt(input, cart, p, a, guarded);
            (o.Retry? ==> |o.progress.receipts| < o.progress.attempts)
            && (o.Ended? && o.report.Pass? ==> !guarded && |o.report.progress.receipts| < o.report.progress.attempts)
  {}

  lemma {:induction false} LoopBehind(input: Input, cart: Cartography, p: Progress, answers: nat -> AttemptAnswers,
                                      guarded: bool)
    requires Kept(cart, p) && |p.receipts| < p.attempts < input.maxAttempts
    ensures var report := Loop(input, cart, p, answers, guarded);
            report.Pass? ==> !guarded && |report.progress.receipts| < report.progress.attempts
    decreases input.maxAttempts - p.attempts
  {
    var a := answers(p.attempts + 1);
    AttemptKeeps(input, cart, p, a, guarded);
    GuardsRefuse(input, cart, p, a, guarded);
    LoopStep(input, cart, p, answers, guarded);
    AttemptAdvances(input, cart, p, a, guarded);
    var o := Attempt(input, cart, p, a, guarded);
    if o.Retry? {
      LoopBehind(input, cart, o.progress, answers, guarded);
    }
  }

  /** The reports of the guarded and the unguarded loop. */
  ghost predicate GuardsTell(checked: Report, open: Report) {
    (checked.Pass? <==> open.Pass? && |open.progress.receipts| == open.progress.attempts)
      && (checked.Pass? ==> checked == open)
  }

  lemma {:induction false} LoopGuarded(input: Input, cart: Cartography, p: Progress, answers: nat -> AttemptAnswers)
    requires Kept(cart, p) && |p.receipts| == p.attempts < input.maxAttempts
    ensures GuardsTell(Loop(input, cart, p, answers, true), Loop(input, cart, p, answers, false))
    decreases input.maxAttempts - p.attempts
  {
    var a := answers(p.attempts + 1);
    AttemptKeeps(input, cart, p, a, true);
    GuardsAllow(input, cart, p, a);
    LoopStep(input, cart, p, answers, true);
    LoopStep(input, cart, p, answers, false);
    AttemptAdvances(input, cart, p, a, true);
    var o := Attempt(input, cart, p, a, true);
    if o.Retry? {
      if |o.progress.receipts| == o.progress.attempts {
        LoopGuarded(input, cart, o.progress, answers);
      } else {
        LoopBehind(input, cart, o.progress, answers, true);
        LoopBehind(input, cart, o.progress, answers, false);
      }
    }
  }

  /** The guards refuse exactly the passes that left an attempt unverified: a guarded run passes
      if and only if the same answers pass unguarded with a receipt for every attempt, and then
      the reports are the same. */
  lemma GuardedPassesExactly(input: Input, cart: Option<Cartography>, answers: nat -> AttemptAnswers)
    requires 1 <= input.maxAttempts <= 2
    ensures var checked, open := Orchestrate(input, cart, answers, true), Orchestrate(input, cart, answers, false);
            (checked.Pass? <==> open.Pass? && |open.progress.receipts| == open.progress.attempts)
            && (checked.Pass? ==> checked == open)
  {
    if cart.Some? {
      StartKept(cart.value);
      LoopGuarded(input, cart.value, START.(seen := {cart.value.runId}), answers);
    }
  }

  // ---- coverage ----

  function Ids(results: seq<CaseResult>): set<string> { set i | 0 <= i < |results| :: results[i].caseId }
  function CaseIds(cases: seq<Case>): set<string> { set i | 0 <= i < |cases| :: cases[i].id }

  lemma {:induction false} DistinctIds(results: seq<CaseResult>)
    requires forall i, j | 0 <= i < j < |results| :: results[i].caseId != results[j].caseId
    ensures |Ids(results)| == |results|
  {
    if results != [] {
      var front, last := results[..|results| - 1], results[|results| - 1];
      DistinctIds(front);
      assert Ids(results) == Ids(front) + {last.caseId};
      assert last.caseId !in Ids(front);
    }
  }

  lemma {:induction false} DistinctCases(cases: seq<Case>)
    requires forall i, j | 0 <= i < j < |cases| :: cases[i].id != cases[j].id
    ensures |CaseIds(cases)| == |cases|
  {
    if cases != [] {
      var front, last := cases[..|cases| - 1], cases[|cases| - 1];
      DistinctCases(front);
      assert CaseIds(cases) == CaseIds(front) + {last.id};
      assert last.id !in CaseIds(front);
    }
  }

  lemma {:induction false} AllPassed(results: seq<CaseResult>)
    ensures PassCount(results) <= |results|
    ensures PassCount(results) == |results| ==> forall i | 0 <= i < |results| :: results[i].status.CasePass?
  {
    if results != [] {
      AllPassed(results[..|results| - 1]);
    }
  }

  lemma SubsetOfSameSize<T>(a: set<T>, b: set<T>)
    requires a <= b && |a| == |b|
    ensures a == b
  {
    if x :| x in b && x !in a {
      assert a <= b - {x};
      SubsetSmaller(a, b - {x});
    }
  }

  lemma {:induction false} SubsetSmaller<T>(a: set<T>, b: set<T>)
    requires a <= b
    ensures |a| <= |b|
    decreases |a|
  {
    if a != {} {
      var x :| x in a;
      SubsetSmaller(a - {x}, b - {x});
    }
  }

  /** With unique accepted case ids, a proven PASS covers exactly the accepted cases, all passed
      with the accepted decision as the actual one. */
  lemma PassCoversExactly(input: Input, report: Report)
    requires report.Pass? && Proven(input, report)
    requires forall i, j | 0 <= i < j < |input.cases| :: input.cases[i].id != input.cases[j].id
    ensures var results := report.progress.receipts[|report.progress.receipts| - 1].results;
            Ids(results) == CaseIds(input.cases)
            && forall i | 0 <= i < |results| ::
              results[i].status.CasePass? && results[i].actual == Some(results[i].expected)
  {
    var receipt := report.progress.receipts[|report.progress.receipts| - 1];
    DistinctIds(receipt.results);
    DistinctCases(input.cases);
    AllPassed(receipt.results);
    SubsetOfSameSize(CaseIds(input.cases), Ids(receipt.results));
    forall i | 0 <= i < |receipt.results|
      ensures receipt.results[i].status.CasePass? && receipt.results[i].actual == Some(receipt.results[i].expected)
    {
      assert ValidResult(receipt.results[i]);
    }
  }

  // ---- the unguarded orchestrator ----

  function Xs(n: nat): string { if n == 0 then "" else Xs(n - 1) + "x" }

  lemma {:induction false} XsLength(n: nat)
    ensures |Xs(n)| == n
  {
    if n > 0 {
      XsLength(n - 1);
    }
  }

  function WitnessCases(n: nat): seq<Case> { if n == 0 then [] else WitnessCases(n - 1) + [Case(Xs(n), "ALLOW")] }

  function WitnessResults(n: nat): seq<CaseResult> {
    if n == 0 then [] else WitnessResults(n - 1) + [CaseResult(Xs(n), "ALLOW", Some("ALLOW"), CasePass)]
  }

  const WITNESS_INPUT := Input(WitnessCases(CORPUS_SIZE), 2, {FixtureTypecheck, FixtureTest}, "corpus", "policy")

  /** A first attempt whose typecheck fails, and a second in which everything succeeds. */
  function WitnessAnswers(attempt: nat): AttemptAnswers {
    AttemptAnswers(
      Some(Repair(if attempt == 1 then "first" else "second", "backend", {"policy.ts"}, [])),
      Some(CommandEvidence(FixtureTypecheck, if attempt == 1 then 1 else 0, false, "tree", "tree")),
      Some(CommandEvidence(FixtureTest, 0, false, "tree", "tree")),
      Some(Receipt(2, "second", "tree", "corpus", "policy", true, CORPUS_SIZE, CORPUS_SIZE,
        WitnessResults(CORPUS_SIZE))),
      Some(Review("review", "backend", false, [])))
  }

  lemma {:induction false} WitnessesAre(n: nat)
    ensures |WitnessCases(n)| == |WitnessResults(n)| == n == PassCount(WitnessResults(n))
    ensures forall i | 0 <= i < n ::
              WitnessCases(n)[i] == Case(Xs(i + 1), "ALLOW")
                && WitnessResults(n)[i] == CaseResult(Xs(i + 1), "ALLOW", Some("ALLOW"), CasePass)
  {
    if n > 0 {
      WitnessesAre(n - 1);
      assert WitnessResults(n)[..n - 1] == WitnessResults(n - 1);
    }
  }

  lemma WitnessReceipt()
    ensures var r := WitnessAnswers(2).receipt.value; ValidReceipt(r) && Covers(r, WITNESS_INPUT.cases)
  {
    var r := WitnessAnswers(2).receipt.value;
    WitnessesAre(CORPUS_SIZE);
    forall i, j | 0 <= i < j < |r.results|
      ensures r.results[i].caseId != r.results[j].caseId
    {
      XsLength(i + 1);
      XsLength(j + 1);
    }
    forall i | 0 <= i < |WITNESS_INPUT.cases|
      ensures exists k | 0 <= k < |r.results| ::
                r.results[k].caseId == WITNESS_INPUT.cases[i].id
                  && r.results[k].expected == WITNESS_INPUT.cases[i].expected
    {
      assert r.results[i].caseId == WITNESS_INPUT.cases[i].id;
    }
  }

  const WITNESS_MAP := Cartography("map", "backend", {"policy.ts"})

  lemma NamesDiffer()
    ensures "map" != "first" && "first" != "second" && "map" != "second" && "review" != "map" && "review" != "first"
            && "review" != "second"
  {
    assert |"map"| == 3 && |"first"| == 5 && "review"[0] != "second"[0];
  }

  /** The progress after the first attempt, whose typecheck failed. */
  ghost predicate AfterFirst(p: Progress) {
    p.attempts == 1 && p.receipts == [] && p.seen == {"map", "first"} && p.commandCalls == 2 && p.corpusCalls == 0
  }

  lemma FirstRetries(guarded: bool)
    ensures var o := Attempt(WITNESS_INPUT, WITNESS_MAP, START.(seen := {"map"}), WitnessAnswers(1), guarded);
            o.Retry? && AfterFirst(o.progress)
  {
    NamesDiffer();
    assert {"map"} + {"first"} == {"map", "first"};
  }

  lemma VerifyEnds(p: Progress, guarded: bool)
    requires p.attempts == 2 && p.receipts == [] && p.commandCalls == 4 && p.corpusCalls == 0 && "review" !in p.seen
    ensures var o := Verify(WITNESS_INPUT, WITNESS_MAP, p, WitnessAnswers(2).repair.value, WitnessAnswers(2), guarded);
            o.Ended?
            && (if guarded then o.report.Fail? && o.report.reason.PolicyVerificationFailed?
                else o.report.Pass? && o.report.progress.attempts == 2 && |o.report.progress.receipts| == 1)
  {
    WitnessReceipt();
  }

  lemma SecondEnds(p: Progress, guarded: bool)
    requires AfterFirst(p)
    ensures var o := Attempt(WITNESS_INPUT, WITNESS_MAP, p, WitnessAnswers(2), guarded);
            o.Ended?
            && (if guarded then o.report.Fail? && o.report.reason.PolicyVerificationFailed?
                else o.report.Pass? && o.report.progress.attempts == 2 && |o.report.progress.receipts| == 1)
  {
    var a := WitnessAnswers(2);
    NamesDiffer();
    var p1 := p.(attempts := 2, seen := p.seen + {"second"}, repairs := p.repairs + [a.repair.value]);
    var p2 := p1.(commandCalls := 3, commands := p1.commands + [a.typecheck.value]);
    var p3 := p2.(commandCalls := 4, commands := p2.commands + [a.test.value]);
    VerifyEnds(p3, guarded);
    assert RunCommands(WITNESS_INPUT, WITNESS_MAP, p1, a.repair.value, a, guarded)
        == Verify(WITNESS_INPUT, WITNESS_MAP, p3, a.repair.value, a, guarded);
  }

  lemma WitnessRun(guarded: bool)
    ensures var report := Orchestrate(WITNESS_INPUT, Some(WITNESS_MAP), WitnessAnswers, guarded);
            if guarded then report.Fail? && report.reason.PolicyVerificationFailed?
            else report.Pass? && report.progress.attempts == 2 && |report.progress.receipts| == 1
  {
    var p := START.(seen := {"map"});
    FirstRetries(guarded);
    var next := Attempt(WITNESS_INPUT, WITNESS_MAP, p, WitnessAnswers(1), guarded).progress;
    SecondEnds(next, guarded);
    assert Loop(WITNESS_INPUT, WITNESS_MAP, p, WitnessAnswers, guarded)
           == Loop(WITNESS_INPUT, WITNESS_MAP, next, WitnessAnswers, guarded);
  }

  /** Without the guards a first attempt that failed its commands can be followed by PASS; with
      them the same answers fail. */
  lemma UnguardedSkipsVerification()
    ensures var open := Orchestrate(WITNESS_INPUT, Some(WITNESS_MAP), WitnessAnswers, false);
            open.Pass? && open.progress.attempts == 2 && |open.progress.receipts| == 1
    ensures var guarded := Orchestrate(WITNESS_INPUT, Some(WITNESS_MAP), WitnessAnswers, true);
            guarded.Fail? && guarded.reason.PolicyVerificationFailed?
  {
    WitnessRun(false);
    WitnessRun(true);
  }
}
