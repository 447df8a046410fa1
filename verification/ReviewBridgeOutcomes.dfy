/** What each call on the review bridge comes to, and where every token of a run comes from. */
module ReviewBridgeOutcomes {
  import opened ReviewBridge

  // ---- the run identities seen are those of the tokens ----

  predicate NewRequest(b: Bridge, request: string) { forall k | 0 <= k < |b.tokens| :: b.tokens[k].request != request }

  /** No token of the request carries the run identity. */
  predicate NewRun(b: Bridge, request: string, runId: string) {
    forall k | 0 <= k < |b.tokens| :: b.tokens[k].request == request ==> b.tokens[k].runId != runId
  }

  ghost predicate SeenIsTold(b: Bridge) {
    (forall request :: request in b.seen <==> !NewRequest(b, request))
    && forall request, runId :: runId in SeenBy(b, request) <==> !NewRun(b, request, runId)
  }

  ghost predicate SameRuns(b: Bridge, b': Bridge) {
    |b'.tokens| == |b.tokens| && b'.seen == b.seen
    && forall k | 0 <= k < |b.tokens| :: b'.tokens[k].request == b.tokens[k].request
                                         && b'.tokens[k].runId == b.tokens[k].runId
  }

  lemma SameRunsTold(b: Bridge, b': Bridge)
    requires SeenIsTold(b) && SameRuns(b, b')
    ensures SeenIsTold(b')
  {
    forall request
      ensures request in b'.seen <==> !NewRequest(b', request)
    {
      assert request in b.seen <==> !NewRequest(b, request);
    }
    forall request, runId
      ensures runId in SeenBy(b', request) <==> !NewRun(b', request, runId)
    {
      assert runId in SeenBy(b, request) <==> !NewRun(b, request, runId);
    }
  }

  lemma IssueTold(b: Bridge, token: Token)
    requires SeenIsTold(b)
    ensures SeenIsTold(Issue(b, token))
  {
    var b' := Issue(b, token);
    forall request
      ensures request in b'.seen <==> !NewRequest(b', request)
    {
      assert request in b.seen <==> !NewRequest(b, request);
      assert b'.tokens[|b.tokens|] == token;
      if k :| 0 <= k < |b.tokens| && b.tokens[k].request == request {
        assert b'.tokens[k].request == request;
      }
    }
    forall request, runId
      ensures runId in SeenBy(b', request) <==> !NewRun(b', request, runId)
    {
      assert runId in SeenBy(b, request) <==> !NewRun(b, request, runId);
      assert b'.tokens[|b.tokens|] == token;
      if k :| 0 <= k < |b.tokens| && b.tokens[k].request == request && b.tokens[k].runId == runId {
        assert b'.tokens[k].request == request;
      }
    }
  }

  // ---- what a call is granted ----

  predicate MayAdmit(b: Bridge, t: nat, r: Receipt) {
    t < |b.tokens|
    && var token := b.tokens[t];
       token.kind.AttemptKind? && token.live && token.kind.delivered && !token.kind.settled
       && r.valid && r.attempt == token.kind.number && r.repairRunId == token.runId
       && NewRun(b, token.request, r.verifierRunId)
  }

  predicate MayRetry(b: Bridge, t: nat, repairRunId: string, checks: bool) {
    t < |b.tokens| && b.tokens[t].kind.RetryKind? && b.tokens[t].live && b.tokens[t].kind.authorized && checks
    && NewRun(b, b.tokens[t].request, repairRunId)
  }

  predicate MayReview(b: Bridge, t: nat, reviewRunId: string, checks: bool) {
    t < |b.tokens| && b.tokens[t].kind.ReviewKind? && b.tokens[t].live && b.tokens[t].kind.authorized && checks
    && NewRun(b, b.tokens[t].request, reviewRunId)
  }

  /** The call hands out a token. */
  predicate Grants(b: Bridge, call: Call) {
    match call
    case PrepareInitial(request, _, checks, sealed, issued) => NewRequest(b, request) && checks && sealed && issued
    case Admit(t, r) => MayAdmit(b, t, r)
    case PrepareRetry(t, repairRunId, checks, sealed, issued) => MayRetry(b, t, repairRunId, checks) && sealed && issued
    case BindReview(t, reviewRunId, _, checks) => MayReview(b, t, reviewRunId, checks)
    case _ => false
  }

  /** Which token the call makes. */
  predicate Makes(b: Bridge, call: Call, token: Token) {
    token.live
    && match token.kind
       case AttemptKind(number, delivered, settled) =>
         !delivered && !settled
         && (if number == 1 then call == PrepareInitial(token.request, token.runId, true, true, true)
                                 && token.parent == -1
             else number == 2 && call.PrepareRetry? && ChildOf(b, call.t, token)
                  && call == PrepareRetry(call.t, token.runId, true, true, true))
       case RetryKind(authorized) =>
         authorized && call.Admit? && ChildOf(b, call.t, token) && token.runId == call.receipt.verifierRunId
         && !call.receipt.pass && call.receipt.attempt == 1
       case ReviewKind(authorized) =>
         authorized && call.Admit? && ChildOf(b, call.t, token) && token.runId == call.receipt.verifierRunId
         && call.receipt.pass
       case ResultKind(outcome) =>
         match outcome
         case VerifierFailed =>
           call.Admit? && ChildOf(b, call.t, token) && token.runId == call.receipt.verifierRunId
           && !call.receipt.pass && call.receipt.attempt == 2
         case ReviewApproved =>
           call.BindReview? && call == BindReview(call.t, token.runId, true, true) && ChildOf(b, call.t, token)
         case ReviewBlocked =>
           call.BindReview? && call == BindReview(call.t, token.runId, false, true) && ChildOf(b, call.t, token)
  }

  predicate ChildOf(b: Bridge, t: nat, token: Token) {
    t < |b.tokens| && token.parent == t && token.request == b.tokens[t].request
  }

  /** The bridge after a call: all tokens there were, and the one the call was granted. */
  ghost predicate Answered(b: Bridge, call: Call, b': Bridge) {
    if Grants(b, call) then |b'.tokens| == |b.tokens| + 1 && Makes(b, call, b'.tokens[|b.tokens|])
    else |b'.tokens| == |b.tokens|
  }

  lemma SeenFacts(b: Bridge, request: string, runId: string)
    requires SeenIsTold(b)
    ensures request in b.seen <==> !NewRequest(b, request)
    ensures runId in SeenBy(b, request) <==> !NewRun(b, request, runId)
  {}

  lemma InitialAnswered(b: Bridge, call: Call)
    requires SeenIsTold(b) && call.PrepareInitial?
    ensures Answered(b, call, Perform(b, call)) && SeenIsTold(Perform(b, call))
  {
    SeenFacts(b, call.request, call.repairRunId);
    if Grants(b, call) {
      IssueTold(b, Token(call.request, -1, call.repairRunId, true, AttemptKind(1, false, false)));
    }
  }

  lemma AdmitTold(b: Bridge, t: nat, r: Receipt)
    requires SeenIsTold(b)
    ensures SeenIsTold(AdmitStep(b, t, r))
  {
    if LiveAttempt(b, t) {
      var token := b.tokens[t];
      var retired := Retire(b, t);
      SameRunsTold(b, retired);
      if token.kind.delivered && !token.kind.settled {
        var spent := Mark(retired, t, token.kind.(settled := true));
        SameRunsTold(b, spent);
        if AuthorityAdmits(token, r) && r.verifierRunId !in SeenBy(b, token.request) {
          IssueTold(spent, Token(token.request, t, r.verifierRunId, true, OutcomeOf(token.kind.number, r)));
        }
      }
    }
  }

  ghost predicate Numbered(b: Bridge, k: int) {
    0 <= k < |b.tokens| && b.tokens[k].kind.AttemptKind? ==> b.tokens[k].kind.number in {1, 2}
  }

  lemma AdmitAnswered(b: Bridge, call: Call)
    requires SeenIsTold(b) && call.Admit? && Numbered(b, call.t)
    ensures Answered(b, call, Perform(b, call))
  {
    var t, r := call.t, call.receipt;
    if LiveAttempt(b, t) {
      SeenFacts(b, b.tokens[t].request, r.verifierRunId);
      SeenFacts(b, b.tokens[t].request, r.repairRunId);
    }
  }

  lemma RetryAnswered(b: Bridge, call: Call)
    requires SeenIsTold(b) && call.PrepareRetry?
    ensures Answered(b, call, Perform(b, call)) && SeenIsTold(Perform(b, call))
  {
    var t := call.t;
    if LiveRetry(b, t) {
      SeenFacts(b, b.tokens[t].request, call.newRepairRunId);
      var spent := Mark(b, t, RetryKind(false));
      SameRunsTold(b, spent);
      SameRunsTold(b, Retire(spent, t));
      if Grants(b, call) {
        IssueTold(Retire(spent, t), Token(b.tokens[t].request, t, call.newRepairRunId, true,
          AttemptKind(2, false, false)));
      }
    }
  }

  lemma ReviewAnswered(b: Bridge, call: Call)
    requires SeenIsTold(b) && call.BindReview?
    ensures Answered(b, call, Perform(b, call)) && SeenIsTold(Perform(b, call))
  {
    var t := call.t;
    if LiveReview(b, t) {
      SeenFacts(b, b.tokens[t].request, call.reviewRunId);
      var retired := Retire(b, t);
      SameRunsTold(b, retired);
      var spent := Mark(retired, t, ReviewKind(false));
      SameRunsTold(b, spent);
      if Grants(b, call) {
        var outcome := if call.approve then ReviewApproved else ReviewBlocked;
        IssueTold(spent, Token(b.tokens[t].request, t, call.reviewRunId, true, ResultKind(outcome)));
      }
    }
  }

  lemma CallAnswered(b: Bridge, call: Call)
    requires Kept(b) && SeenIsTold(b)
    ensures Answered(b, call, Perform(b, call)) && SeenIsTold(Perform(b, call))
  {
    match call
    case PrepareInitial(_, _, _, _, _) => InitialAnswered(b, call);
    case Admit(t, r) =>
      assert Descends(b, t);
      AdmitAnswered(b, call);
      AdmitTold(b, t, r);
    case PrepareRetry(_, _, _, _, _) => RetryAnswered(b, call);
    case BindReview(_, _, _, _) => ReviewAnswered(b, call);
    case TakeCapability(_) => SameRunsTold(b, Perform(b, call));
    case AdmitElsewhere(_) => SameRunsTold(b, Perform(b, call));
    case SpendAuthorization(_) => SameRunsTold(b, Perform(b, call));
  }

  lemma {:induction false} RunSeenTold(calls: seq<Call>)
    ensures SeenIsTold(Run(calls))
  {
    if calls == [] {
      forall request
        ensures request !in NEW_BRIDGE.seen && NewRequest(NEW_BRIDGE, request)
      {}
      forall request, runId
        ensures runId !in SeenBy(NEW_BRIDGE, request) && NewRun(NEW_BRIDGE, request, runId)
      {}
    } else {
      var front := calls[..|calls| - 1];
      RunSeenTold(front);
      RunKeeps(front);
      CallAnswered(Run(front), calls[|calls| - 1]);
    }
  }

  /** After any run, a call hands out a token exactly when it may: an initial attempt for a request
      without tokens, an outcome for a delivered, unsettled attempt's own receipt, a second attempt
      and a result for an authorization not spent, and each on a run identity no token of the
      request carries.  Which token it is follows from the call alone. */
  lemma GrantedExactly(calls: seq<Call>, call: Call)
    ensures Answered(Run(calls), call, Run(calls + [call]))
  {
    assert (calls + [call])[..|calls|] == calls;
    RunKeeps(calls);
    RunSeenTold(calls);
    CallAnswered(Run(calls), call);
  }

  // ---- what becomes of the tokens there are ----

  /** The call uses the token up. */
  predicate Uses(b: Bridge, call: Call, k: nat)
    requires k < |b.tokens|
  {
    match b.tokens[k].kind
    case AttemptKind(_, _, _) => call.Admit? && call.t == k
    case RetryKind(_) => call.PrepareRetry? && call.t == k && Grants(b, call)
    case ReviewKind(_) => call.BindReview? && call.t == k
    case ResultKind(_) => false
  }

  /** The call takes the token's delivery, or its authorization. */
  predicate Spends(b: Bridge, call: Call, k: nat)
    requires k < |b.tokens|
  {
    var token := b.tokens[k];
    match token.kind
    case AttemptKind(_, delivered, _) =>
      delivered && ((call.Admit? && call.t == k && token.live) || call == AdmitElsewhere(k))
    case RetryKind(_) =>
      call == SpendAuthorization(k)
      || (call.PrepareRetry? && call.t == k && MayRetry(b, k, call.newRepairRunId, call.retryChecks))
    case ReviewKind(_) => call == SpendAuthorization(k) || (call.BindReview? && call.t == k && token.live)
    case ResultKind(_) => false
  }

  /** What the call makes of a token there is. */
  function After(b: Bridge, call: Call, k: nat): Token
    requires k < |b.tokens|
  {
    var token := b.tokens[k];
    var kind := match token.kind
      case AttemptKind(number, delivered, settled) =>
        AttemptKind(number, delivered || (call == TakeCapability(k) && !settled), settled || Spends(b, call, k))
      case RetryKind(authorized) => RetryKind(authorized && !Spends(b, call, k))
      case ReviewKind(authorized) => ReviewKind(authorized && !Spends(b, call, k))
      case ResultKind(outcome) => token.kind;
    token.(live := token.live && !Uses(b, call, k), kind := kind)
  }

  /** And nothing else happens: every token there was is as it was, but for what the call uses and
      spends of the one it names. */
  lemma EffectsExactly(calls: seq<Call>, call: Call, k: nat)
    requires k < |Run(calls).tokens|
    ensures var b, b' := Run(calls), Run(calls + [call]); k < |b'.tokens| && b'.tokens[k] == After(b, call, k)
  {
    var b := Run(calls);
    assert (calls + [call])[..|calls|] == calls;
    RunSeenTold(calls);
    CallAfter(b, call, k);
  }

  lemma AdmitAfter(b: Bridge, call: Call, k: nat)
    requires call.Admit? && k < |b.tokens|
    ensures var b' := Perform(b, call); k < |b'.tokens| && b'.tokens[k] == After(b, call, k)
  {}

  lemma RetryAfter(b: Bridge, call: Call, k: nat)
    requires call.PrepareRetry? && SeenIsTold(b) && k < |b.tokens|
    ensures var b' := Perform(b, call); k < |b'.tokens| && b'.tokens[k] == After(b, call, k)
  {
    if LiveRetry(b, call.t) {
      SeenFacts(b, b.tokens[call.t].request, call.newRepairRunId);
    }
  }

  lemma ReviewAfter(b: Bridge, call: Call, k: nat)
    requires call.BindReview? && k < |b.tokens|
    ensures var b' := Perform(b, call); k < |b'.tokens| && b'.tokens[k] == After(b, call, k)
  {}

  lemma CallAfter(b: Bridge, call: Call, k: nat)
    requires SeenIsTold(b) && k < |b.tokens|
    ensures var b' := Perform(b, call); k < |b'.tokens| && b'.tokens[k] == After(b, call, k)
  {
    match call
    case PrepareInitial(_, _, _, _, _) =>
    case Admit(_, _) => AdmitAfter(b, call, k);
    case PrepareRetry(_, _, _, _, _) => RetryAfter(b, call, k);
    case BindReview(_, _, _, _) => ReviewAfter(b, call, k);
    case TakeCapability(_) =>
    case AdmitElsewhere(_) =>
    case SpendAuthorization(_) =>
  }

  // ---- where a token comes from ----

  /** Call `j` of the run made token `k`. */
  ghost predicate CauseOf(calls: seq<Call>, k: nat, j: nat) {
    j < |calls| && k < |Run(calls).tokens|
    && var b := Run(calls[..j]);
       |b.tokens| == k && Grants(b, calls[j])
       && exists made :: Makes(b, calls[j], made) && Carries(made, Run(calls).tokens[k])
  }

  /** Every token of any run was made by a call of the run that was granted it: a result says
      approved only where a review with no finding in the way was bound, a second attempt stands
      only where a retry was prepared, and so on. */
  lemma {:induction false} TokenHasCause(calls: seq<Call>, k: nat)
    requires k < |Run(calls).tokens|
    ensures exists j: nat :: CauseOf(calls, k, j)
  {
    var front, call := calls[..|calls| - 1], calls[|calls| - 1];
    var b, b' := Run(front), Run(calls);
    assert front + [call] == calls;
    GrantedExactly(front, call);
    if k < |b.tokens| {
      TokenHasCause(front, k);
      var j: nat :| CauseOf(front, k, j);
      assert calls[..j] == front[..j];
      CallCarries(b, call, k);
      var made :| Makes(Run(front[..j]), front[j], made) && Carries(made, b.tokens[k]);
      CarriesThrough(made, b.tokens[k], b'.tokens[k]);
      assert CauseOf(calls, k, j);
    } else {
      assert Carries(b'.tokens[k], b'.tokens[k]);
      assert CauseOf(calls, k, |calls| - 1);
    }
  }

  // ---- a request in which everything goes well ----

  /** The request's newest token, and of all tokens the last, is of the kind; and its run identities
      so far. */
  ghost predicate Newest(b: Bridge, request: string, runIds: set<string>, runId: string, kind: Kind) {
    |b.tokens| > 0 && SeenBy(b, request) == runIds
    && var token := b.tokens[|b.tokens| - 1];
       token.request == request && token.runId == runId && token.live && token.kind == kind
  }

  lemma RunMore(calls: seq<Call>, call: Call)
    ensures Run(calls + [call]) == Perform(Run(calls), call)
  {
    assert (calls + [call])[..|calls|] == calls;
  }

  lemma Begins(b: Bridge, request: string, runId: string)
    requires request !in b.seen
    ensures Newest(Perform(b, PrepareInitial(request, runId, true, true, true)), request, {runId}, runId,
                   AttemptKind(1, false, false))
  {}

  lemma Delivers(b: Bridge, request: string, runIds: set<string>, runId: string, number: int)
    requires Newest(b, request, runIds, runId, AttemptKind(number, false, false))
    ensures var b' := Perform(b, TakeCapability(|b.tokens| - 1));
            |b'.tokens| == |b.tokens| && Newest(b', request, runIds, runId, AttemptKind(number, true, false))
  {}

  lemma Admits(b: Bridge, request: string, runIds: set<string>, runId: string, number: int, verifierId: string,
               pass: bool)
    requires Newest(b, request, runIds, runId, AttemptKind(number, true, false)) && verifierId !in runIds
    requires runId in runIds
    ensures var r := Receipt(number, runId, verifierId, pass, true);
            var b' := Perform(b, Admit(|b.tokens| - 1, r));
            |b'.tokens| == |b.tokens| + 1
            && Newest(b', request, runIds + {verifierId}, verifierId, OutcomeOf(number, r))
  {}

  lemma Retries(b: Bridge, request: string, runIds: set<string>, runId: string, repairId: string)
    requires Newest(b, request, runIds, runId, RetryKind(true)) && repairId !in runIds
    ensures var b' := Perform(b, PrepareRetry(|b.tokens| - 1, repairId, true, true, true));
            |b'.tokens| == |b.tokens| + 1
            && Newest(b', request, runIds + {repairId}, repairId, AttemptKind(2, false, false))
  {}

  lemma Reviews(b: Bridge, request: string, runIds: set<string>, runId: string, reviewId: string, approve: bool)
    requires Newest(b, request, runIds, runId, ReviewKind(true)) && reviewId !in runIds
    ensures var b' := Perform(b, BindReview(|b.tokens| - 1, reviewId, approve, true));
            |b'.tokens| == |b.tokens| + 1
            && Newest(b', request, runIds + {reviewId}, reviewId,
                      ResultKind(if approve then ReviewApproved else ReviewBlocked))
  {}

  /** The calls of one attempt: deliver it and admit its receipt. */
  function AttemptCalls(n: nat, number: int, repairId: string, verifierId: string, pass: bool): seq<Call> {
    [TakeCapability(n), Admit(n, Receipt(number, repairId, verifierId, pass, true))]
  }

  lemma AttemptAdmits(calls: seq<Call>, n: nat, request: string, runIds: set<string>, repairId: string, number: int,
                      verifierId: string, pass: bool)
    requires n + 1 == |Run(calls).tokens| && verifierId !in runIds && repairId in runIds
    requires Newest(Run(calls), request, runIds, repairId, AttemptKind(number, false, false))
    ensures var b' := Run(calls + AttemptCalls(n, number, repairId, verifierId, pass));
            |b'.tokens| == n + 2
            && Newest(b', request, runIds + {verifierId}, verifierId,
                      OutcomeOf(number, Receipt(number, repairId, verifierId, pass, true)))
  {
    var more := AttemptCalls(n, number, repairId, verifierId, pass);
    RunMore(calls, more[0]);
    RunMore(calls + [more[0]], more[1]);
    assert calls + more == calls + [more[0]] + [more[1]];
    Delivers(Run(calls), request, runIds, repairId, number);
    Admits(Run(calls + [more[0]]), request, runIds, repairId, number, verifierId, pass);
  }

  /** A first attempt, prepared, delivered and admitted. */
  function FirstCalls(n: nat, request: string, repairId: string, verifierId: string, pass: bool): seq<Call> {
    [PrepareInitial(request, repairId, true, true, true)] + AttemptCalls(n, 1, repairId, verifierId, pass)
  }

  lemma FirstAdmitted(calls: seq<Call>, request: string, repairId: string, verifierId: string, pass: bool)
    requires NewRequest(Run(calls), request) && repairId != verifierId
    ensures var n := |Run(calls).tokens|;
            var b := Run(calls + FirstCalls(n, request, repairId, verifierId, pass));
            |b.tokens| == n + 2
            && Newest(b, request, {repairId} + {verifierId}, verifierId,
                      if pass then ReviewKind(true) else RetryKind(true))
  {
    var n, first := |Run(calls).tokens|, PrepareInitial(request, repairId, true, true, true);
    RunSeenTold(calls);
    SeenFacts(Run(calls), request, repairId);
    RunMore(calls, first);
    Begins(Run(calls), request, repairId);
    AttemptAdmits(calls + [first], n, request, {repairId}, repairId, 1, verifierId, pass);
    assert calls + FirstCalls(n, request, repairId, verifierId, pass)
        == calls + [first] + AttemptCalls(n, 1, repairId, verifierId, pass);
  }

  /** After any run, a new request whose first attempt passes ends, in four calls, with the result the
      review gave. */
  lemma FirstPassEnds(calls: seq<Call>, request: string, repairId: string, verifierId: string, reviewId: string,
                      approve: bool)
    requires NewRequest(Run(calls), request)
    requires repairId != verifierId && repairId != reviewId && verifierId != reviewId
    ensures var n := |Run(calls).tokens|;
            var passed := calls + FirstCalls(n, request, repairId, verifierId, true);
            Newest(Run(passed + [BindReview(n + 1, reviewId, approve, true)]), request,
                   {repairId} + {verifierId} + {reviewId}, reviewId,
                   ResultKind(if approve then ReviewApproved else ReviewBlocked))
  {
    var n := |Run(calls).tokens|;
    var passed := calls + FirstCalls(n, request, repairId, verifierId, true);
    FirstAdmitted(calls, request, repairId, verifierId, true);
    RunMore(passed, BindReview(n + 1, reviewId, approve, true));
    Reviews(Run(passed), request, {repairId} + {verifierId}, verifierId, reviewId, approve);
  }

  /** A first attempt that fails, and the second one that is prepared. */
  function FirstFails(n: nat, request: string, ids: seq<string>): seq<Call>
    requires |ids| == 4
  {
    FirstCalls(n, request, ids[0], ids[1], false) + [PrepareRetry(n + 1, ids[2], true, true, true)]
  }

  lemma FirstFailureRetries(calls: seq<Call>, request: string, ids: seq<string>)
    requires NewRequest(Run(calls), request) && |ids| == 4
    requires ids[0] != ids[1] && ids[2] != ids[0] && ids[2] != ids[1]
    ensures var n := |Run(calls).tokens|;
            var b := Run(calls + FirstFails(n, request, ids));
            |b.tokens| == n + 3
            && Newest(b, request, {ids[0]} + {ids[1]} + {ids[2]}, ids[2], AttemptKind(2, false, false))
  {
    var n := |Run(calls).tokens|;
    var failed := calls + FirstCalls(n, request, ids[0], ids[1], false);
    FirstAdmitted(calls, request, ids[0], ids[1], false);
    RunMore(failed, PrepareRetry(n + 1, ids[2], true, true, true));
    Retries(Run(failed), request, {ids[0]} + {ids[1]}, ids[1], ids[2]);
    assert calls + FirstFails(n, request, ids) == failed + [PrepareRetry(n + 1, ids[2], true, true, true)];
  }

  /** And one whose first attempt fails gets a second, which leads to a review or, when it fails as
      well, to the verifier's failure as the result. */
  lemma SecondAttemptEnds(calls: seq<Call>, request: string, ids: seq<string>, pass: bool)
    requires NewRequest(Run(calls), request) && |ids| == 4
    requires forall i, j | 0 <= i < j < 4 :: ids[i] != ids[j]
    ensures var n := |Run(calls).tokens|;
            Newest(Run(calls + FirstFails(n, request, ids) + AttemptCalls(n + 2, 2, ids[2], ids[3], pass)), request,
                   {ids[0]} + {ids[1]} + {ids[2]} + {ids[3]}, ids[3],
                   if pass then ReviewKind(true) else ResultKind(VerifierFailed))
  {
    var n := |Run(calls).tokens|;
    FirstFailureRetries(calls, request, ids);
    AttemptAdmits(calls + FirstFails(n, request, ids), n + 2, request, {ids[0]} + {ids[1]} + {ids[2]}, ids[2], 2,
      ids[3], pass);
  }
}
