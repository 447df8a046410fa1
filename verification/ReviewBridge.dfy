/** The repair, verifier and review bridge over its exchange authority: one-use attempts,
    retries and reviews, and run identities that never repeat. */
module ReviewBridge {
  import opened Evidence

  /** What the bridge hands out, or reaches. */
  datatype Kind =
    | AttemptKind(number: int, delivered: bool, settled: bool)
    | RetryKind(authorized: bool)
    | ReviewKind(authorized: bool)
    | ResultKind(outcome: ResultOutcome)

  datatype ResultOutcome = VerifierFailed | ReviewApproved | ReviewBlocked

  /** A token is named by its place among all tokens; while it is live it can still be used.  It
      carries the run identity it was issued on: the repair's for an attempt, the verifier's for
      a retry, a review to come or a verifier's failure, and the review's for its result. */
  datatype Token = Token(request: string, parent: int, runId: string, live: bool, kind: Kind)

  datatype Bridge = Bridge(tokens: seq<Token>, seen: map<string, set<string>>)

  const NEW_BRIDGE := Bridge([], map[])

  /** What a receipt says that the authority compares with the attempt, and the rest of its
      checks as one verdict. */
  datatype Receipt = Receipt(attempt: int, repairRunId: string, verifierRunId: string, pass: bool, valid: bool)

  /** A call of the bridge, or of the authority's public functions on what the bridge handed out.
      The verdicts are the outcomes of checks outside the model. */
  datatype Call =
    | PrepareInitial(request: string, repairRunId: string, checks: bool, sealed: bool, issued: bool)
    | TakeCapability(t: nat)
    | Admit(t: nat, receipt: Receipt)
    | PrepareRetry(t: nat, newRepairRunId: string, retryChecks: bool, retrySealed: bool, retryIssued: bool)
    | BindReview(t: nat, reviewRunId: string, approve: bool, reviewChecks: bool)
    | AdmitElsewhere(t: nat)
    | SpendAuthorization(t: nat)

  function SeenBy(b: Bridge, request: string): set<string> { if request in b.seen then b.seen[request] else {} }

  function Retire(b: Bridge, t: nat): Bridge
    requires t < |b.tokens|
  {
    b.(tokens := b.tokens[t := b.tokens[t].(live := false)])
  }

  function Mark(b: Bridge, t: nat, kind: Kind): Bridge
    requires t < |b.tokens|
  {
    b.(tokens := b.tokens[t := b.tokens[t].(kind := kind)])
  }

  /** Hands out a token, and remembers its run identity as seen by its request. */
  function Issue(b: Bridge, token: Token): Bridge {
    Bridge(b.tokens + [token], b.seen[token.request := SeenBy(b, token.request) + {token.runId}])
  }

  predicate LiveAttempt(b: Bridge, t: nat) { t < |b.tokens| && b.tokens[t].live && b.tokens[t].kind.AttemptKind? }
  predicate LiveRetry(b: Bridge, t: nat) { t < |b.tokens| && b.tokens[t].live && b.tokens[t].kind.RetryKind? }
  predicate LiveReview(b: Bridge, t: nat) { t < |b.tokens| && b.tokens[t].live && b.tokens[t].kind.ReviewKind? }

  /** The receipt is the attempt's own, authentic and current. */
  predicate AuthorityAdmits(token: Token, r: Receipt)
    requires token.kind.AttemptKind?
  {
    token.kind.delivered && !token.kind.settled && r.valid && r.attempt == token.kind.number
    && r.repairRunId == token.runId && r.verifierRunId != r.repairRunId
  }

  /** What an admitted receipt leads to. */
  function OutcomeOf(number: int, r: Receipt): Kind {
    if r.pass then ReviewKind(true) else if number == 1 then RetryKind(true) else ResultKind(VerifierFailed)
  }

  function AdmitStep(b: Bridge, t: nat, r: Receipt): Bridge {
    if !LiveAttempt(b, t) then b
    else
      var token := b.tokens[t];
      var retired := Retire(b, t);
      if !token.kind.delivered || token.kind.settled then retired
      else
        var spent := Mark(retired, t, token.kind.(settled := true));
        if !AuthorityAdmits(token, r) || r.verifierRunId in SeenBy(b, token.request) then spent
        else Issue(spent, Token(token.request, t, r.verifierRunId, true, OutcomeOf(token.kind.number, r)))
  }

  function RetryStep(b: Bridge, t: nat, repairRunId: string, checks: bool, sealed: bool, issued: bool): Bridge {
    if !LiveRetry(b, t) || !checks || repairRunId in SeenBy(b, b.tokens[t].request) || !b.tokens[t].kind.authorized
      then b
    else
      var spent := Mark(b, t, RetryKind(false));
      if !sealed || !issued then spent
      else Issue(Retire(spent, t), Token(b.tokens[t].request, t, repairRunId, true, AttemptKind(2, false, false)))
  }

  function ReviewStep(b: Bridge, t: nat, reviewRunId: string, approve: bool, checks: bool): Bridge {
    if !LiveReview(b, t) then b
    else
      var retired := Retire(b, t);
      if !b.tokens[t].kind.authorized then retired
      else
        var spent := Mark(retired, t, ReviewKind(false));
        if !checks || reviewRunId in SeenBy(b, b.tokens[t].request) then spent
        else
          var outcome := if approve then ReviewApproved else ReviewBlocked;
          Issue(spent, Token(b.tokens[t].request, t, reviewRunId, true, ResultKind(outcome)))
  }

  function Perform(b: Bridge, call: Call): Bridge {
    match call
    case PrepareInitial(request, repairRunId, checks, sealed, issued) =>
      if request in b.seen || !checks || !sealed || !issued then b
      else Issue(b, Token(request, -1, repairRunId, true, AttemptKind(1, false, false)))
    case TakeCapability(t) =>
      if t < |b.tokens| && b.tokens[t].kind.AttemptKind? && !b.tokens[t].kind.delivered && !b.tokens[t].kind.settled
      then Mark(b, t, b.tokens[t].kind.(delivered := true)) else b
    case Admit(t, r) => AdmitStep(b, t, r)
    case PrepareRetry(t, repairRunId, checks, sealed, issued) => RetryStep(b, t, repairRunId, checks, sealed, issued)
    case BindReview(t, reviewRunId, approve, checks) => ReviewStep(b, t, reviewRunId, approve, checks)
    case AdmitElsewhere(t) =>
      if t < |b.tokens| && b.tokens[t].kind.AttemptKind? && b.tokens[t].kind.delivered
      then Mark(b, t, b.tokens[t].kind.(settled := true)) else b
    case SpendAuthorization(t) =>
      if t < |b.tokens| && b.tokens[t].kind.RetryKind? then Mark(b, t, RetryKind(false))
      else if t < |b.tokens| && b.tokens[t].kind.ReviewKind? then Mark(b, t, ReviewKind(false))
      else b
  }

  function Run(calls: seq<Call>): Bridge {
    if calls == [] then NEW_BRIDGE else Perform(Run(calls[..|calls| - 1]), calls[|calls| - 1])
  }

  // ---- what the bridge keeps ----

  /** At most one live token per request. */
  ghost predicate OneLive(b: Bridge, i: int, j: int) {
    0 <= i < j < |b.tokens| && b.tokens[i].request == b.tokens[j].request ==> !b.tokens[i].live || !b.tokens[j].live
  }

  /** No run identity twice in a request, and no two tokens from one parent. */
  ghost predicate Apart(b: Bridge, i: int, j: int) {
    0 <= i < j < |b.tokens| ==>
      (b.tokens[i].request == b.tokens[j].request ==> b.tokens[i].runId != b.tokens[j].runId)
      && (b.tokens[i].parent >= 0 ==> b.tokens[i].parent != b.tokens[j].parent)
  }

  /** Where a token came from: a second attempt from a retry, a retry from a first attempt, a
      review from an attempt, a result from a review or a second attempt; all used up. */
  ghost predicate Descends(b: Bridge, k: int) {
    0 <= k < |b.tokens| ==>
      var t := b.tokens[k];
      t.request in b.seen && t.runId in b.seen[t.request]
      && (if t.kind.AttemptKind? && t.kind.number == 1 then t.parent == -1
          else
            0 <= t.parent < k && !b.tokens[t.parent].live && b.tokens[t.parent].request == t.request
            && (t.kind.AttemptKind? ==> t.kind.number == 2 && b.tokens[t.parent].kind.RetryKind?)
            && (t.kind.RetryKind? ==> b.tokens[t.parent].kind.AttemptKind? && b.tokens[t.parent].kind.number == 1)
            && (t.kind.ReviewKind? ==> b.tokens[t.parent].kind.AttemptKind?)
            && (t.kind.ResultKind? ==>
                  if t.kind.outcome.VerifierFailed?
                    then b.tokens[t.parent].kind.AttemptKind? && b.tokens[t.parent].kind.number == 2
                  else b.tokens[t.parent].kind.ReviewKind?))
      && (t.kind.ResultKind? ==> t.live)
  }

  ghost predicate Kept(b: Bridge) {
    (forall i, j :: OneLive(b, i, j)) && (forall k :: Descends(b, k)) && (forall i, j :: Apart(b, i, j))
  }

  /** No live token of the request. */
  ghost predicate Spent(b: Bridge, request: string, i: int) {
    0 <= i < |b.tokens| && b.tokens[i].request == request ==> !b.tokens[i].live
  }

  ghost predicate Childless(b: Bridge, t: int, k: int) { 0 <= k < |b.tokens| ==> b.tokens[k].parent != t }

  /** A token that is live has not been the parent of another. */
  lemma LiveIsChildless(b: Bridge, t: nat)
    requires Kept(b) && t < |b.tokens| && b.tokens[t].live
    ensures forall k :: Childless(b, t, k)
  {
    forall k
      ensures Childless(b, t, k)
    {
      assert Descends(b, k);
    }
  }

  /** The kind of a token as it may change: more delivered, settled or spent. */
  predicate KindCarries(was: Kind, kind: Kind) {
    || (was.AttemptKind? && kind.AttemptKind? && kind.number == was.number
        && (was.delivered ==> kind.delivered) && (was.settled ==> kind.settled))
    || (was.RetryKind? && kind.RetryKind? && (kind.authorized ==> was.authorized))
    || (was.ReviewKind? && kind.ReviewKind? && (kind.authorized ==> was.authorized))
    || (was.ResultKind? && kind == was)
  }

  /** A token as it may change: it may die, never revive, and keeps what it is. */
  predicate Carries(was: Token, token: Token) {
    token.request == was.request && token.parent == was.parent && token.runId == was.runId
    && (token.live ==> was.live) && KindCarries(was.kind, token.kind)
  }

  lemma ChangeKeeps(b: Bridge, t: nat, token: Token)
    requires Kept(b) && t < |b.tokens| && !b.tokens[t].kind.ResultKind? && Carries(b.tokens[t], token)
    ensures Kept(b.(tokens := b.tokens[t := token]))
  {
    var b' := b.(tokens := b.tokens[t := token]);
    forall i, j
      ensures OneLive(b', i, j) && Apart(b', i, j)
    {
      assert OneLive(b, i, j) && Apart(b, i, j);
    }
    forall k
      ensures Descends(b', k)
    {
      assert Descends(b, k);
    }
  }

  /** A new live token on a new run identity, when its request has no live one and its parent no
      other child. */
  lemma IssueKeeps(b: Bridge, token: Token)
    requires Kept(b) && token.live && forall i :: Spent(b, token.request, i)
    requires token.runId !in SeenBy(b, token.request)
    requires token.parent >= 0 ==> forall k :: Childless(b, token.parent, k)
    requires Descends(Issue(b, token), |b.tokens|)
    ensures Kept(Issue(b, token))
  {
    var b' := Issue(b, token);
    forall i, j
      ensures OneLive(b', i, j) && Apart(b', i, j)
    {
      assert OneLive(b, i, j) && Apart(b, i, j) && Spent(b, token.request, i) && Descends(b, i);
      assert token.parent >= 0 ==> Childless(b, token.parent, i);
    }
    forall k
      ensures Descends(b', k)
    {
      assert Descends(b, k);
    }
  }

  /** Once a live token is retired its request has none, and the token had no child. */
  lemma RetiredIsSpent(b: Bridge, t: nat, b': Bridge)
    requires Kept(b) && t < |b.tokens| && b.tokens[t].live
    requires |b'.tokens| == |b.tokens| && !b'.tokens[t].live && Carries(b.tokens[t], b'.tokens[t])
    requires forall i | 0 <= i < |b.tokens| && i != t :: b'.tokens[i] == b.tokens[i]
    ensures forall i :: Spent(b', b.tokens[t].request, i)
    ensures forall k :: Childless(b', t, k)
  {
    LiveIsChildless(b, t);
    forall i
      ensures Spent(b', b.tokens[t].request, i) && Childless(b', t, i)
    {
      assert OneLive(b, i, t) && OneLive(b, t, i) && Childless(b, t, i);
    }
  }

  lemma InitialKeeps(b: Bridge, request: string, repairRunId: string)
    requires Kept(b) && request !in b.seen
    ensures Kept(Issue(b, Token(request, -1, repairRunId, true, AttemptKind(1, false, false))))
  {
    forall i
      ensures Spent(b, request, i)
    {
      assert Descends(b, i);
    }
    IssueKeeps(b, Token(request, -1, repairRunId, true, AttemptKind(1, false, false)));
  }

  lemma AdmitKeeps(b: Bridge, t: nat, r: Receipt)
    requires Kept(b)
    ensures Kept(AdmitStep(b, t, r))
  {
    if LiveAttempt(b, t) {
      var token := b.tokens[t];
      ChangeKeeps(b, t, token.(live := false));
      var retired := Retire(b, t);
      if token.kind.delivered && !token.kind.settled {
        var spent := Mark(retired, t, token.kind.(settled := true));
        ChangeKeeps(retired, t, retired.tokens[t].(kind := token.kind.(settled := true)));
        if AuthorityAdmits(token, r) && r.verifierRunId !in SeenBy(b, token.request) {
          RetiredIsSpent(b, t, spent);
          assert Descends(b, t);
          IssueKeeps(spent, Token(token.request, t, r.verifierRunId, true, OutcomeOf(token.kind.number, r)));
        }
      }
    }
  }

  lemma RetryKeeps(b: Bridge, t: nat, repairRunId: string, checks: bool, sealed: bool, issued: bool)
    requires Kept(b)
    ensures Kept(RetryStep(b, t, repairRunId, checks, sealed, issued))
  {
    if LiveRetry(b, t) && checks && repairRunId !in SeenBy(b, b.tokens[t].request) && b.tokens[t].kind.authorized {
      var spent := Mark(b, t, RetryKind(false));
      ChangeKeeps(b, t, b.tokens[t].(kind := RetryKind(false)));
      if sealed && issued {
        var retired := Retire(spent, t);
        ChangeKeeps(spent, t, spent.tokens[t].(live := false));
        RetiredIsSpent(b, t, retired);
        IssueKeeps(retired, Token(b.tokens[t].request, t, repairRunId, true, AttemptKind(2, false, false)));
      }
    }
  }

  lemma ReviewKeeps(b: Bridge, t: nat, reviewRunId: string, approve: bool, checks: bool)
    requires Kept(b)
    ensures Kept(ReviewStep(b, t, reviewRunId, approve, checks))
  {
    if LiveReview(b, t) {
      var retired := Retire(b, t);
      ChangeKeeps(b, t, b.tokens[t].(live := false));
      if b.tokens[t].kind.authorized {
        var spent := Mark(retired, t, ReviewKind(false));
        ChangeKeeps(retired, t, retired.tokens[t].(kind := ReviewKind(false)));
        if checks && reviewRunId !in SeenBy(b, b.tokens[t].request) {
          RetiredIsSpent(b, t, spent);
          var outcome := if approve then ReviewApproved else ReviewBlocked;
          IssueKeeps(spent, Token(b.tokens[t].request, t, reviewRunId, true, ResultKind(outcome)));
        }
      }
    }
  }

  lemma PerformKeeps(b: Bridge, call: Call)
    requires Kept(b)
    ensures Kept(Perform(b, call))
  {
    match call
    case PrepareInitial(request, repairRunId, checks, sealed, issued) =>
      if request !in b.seen && checks && sealed && issued { InitialKeeps(b, request, repairRunId); }
    case TakeCapability(t) =>
      if t < |b.tokens| && b.tokens[t].kind.AttemptKind? && !b.tokens[t].kind.delivered && !b.tokens[t].kind.settled {
        ChangeKeeps(b, t, b.tokens[t].(kind := b.tokens[t].kind.(delivered := true)));
      }
    case Admit(t, r) => AdmitKeeps(b, t, r);
    case PrepareRetry(t, repairRunId, checks, sealed, issued) => RetryKeeps(b, t, repairRunId, checks, sealed, issued);
    case BindReview(t, reviewRunId, approve, checks) => ReviewKeeps(b, t, reviewRunId, approve, checks);
    case AdmitElsewhere(t) =>
      if t < |b.tokens| && b.tokens[t].kind.AttemptKind? && b.tokens[t].kind.delivered {
        ChangeKeeps(b, t, b.tokens[t].(kind := b.tokens[t].kind.(settled := true)));
      }
    case SpendAuthorization(t) =>
      if t < |b.tokens| && b.tokens[t].kind.RetryKind? {
        ChangeKeeps(b, t, b.tokens[t].(kind := RetryKind(false)));
      } else if t < |b.tokens| && b.tokens[t].kind.ReviewKind? {
        ChangeKeeps(b, t, b.tokens[t].(kind := ReviewKind(false)));
      }
  }

  lemma {:induction false} RunKeeps(calls: seq<Call>)
    ensures Kept(Run(calls))
  {
    if calls == [] {
      assert forall i, j :: OneLive(NEW_BRIDGE, i, j) && Apart(NEW_BRIDGE, i, j);
      assert forall k :: Descends(NEW_BRIDGE, k);
    } else {
      RunKeeps(calls[..|calls| - 1]);
      PerformKeeps(Run(calls[..|calls| - 1]), calls[|calls| - 1]);
    }
  }

  // ---- the promises ----

  /** At most one final result per request. */
  lemma OneResult(calls: seq<Call>, i: nat, j: nat)
    requires i < |Run(calls).tokens| && j < |Run(calls).tokens|
    requires Run(calls).tokens[i].kind.ResultKind? && Run(calls).tokens[j].kind.ResultKind?
    requires Run(calls).tokens[i].request == Run(calls).tokens[j].request
    ensures i == j
  {
    var b := Run(calls);
    RunKeeps(calls);
    assert Descends(b, i) && Descends(b, j) && OneLive(b, i, j) && OneLive(b, j, i);
  }

  /** A result ends its request: nothing of the request is usable any more, and no call makes
      another token for it. */
  lemma ResultIsFinal(calls: seq<Call>, i: nat, call: Call)
    requires i < |Run(calls).tokens| && Run(calls).tokens[i].kind.ResultKind?
    ensures var b, b' := Run(calls), Run(calls + [call]);
            forall k | |b.tokens| <= k < |b'.tokens| :: b'.tokens[k].request != b.tokens[i].request
  {
    var b := Run(calls);
    RunKeeps(calls);
    assert (calls + [call])[..|calls|] == calls;
    assert Descends(b, i);
    forall k | 0 <= k < |b.tokens| && k != i && b.tokens[k].request == b.tokens[i].request
      ensures !b.tokens[k].live
    {
      assert OneLive(b, k, i) && OneLive(b, i, k);
    }
  }

  /** Attempt two exists only after a retry that came from a first attempt's admitted failure;
      all three belong to one request and both predecessors are used up. */
  lemma SecondAttemptHasCause(calls: seq<Call>, k: nat)
    requires k < |Run(calls).tokens| && Run(calls).tokens[k].kind.AttemptKind? && Run(calls).tokens[k].kind.number != 1
    ensures var b := Run(calls);
            var retry := b.tokens[k].parent;
            b.tokens[k].kind.number == 2 && 0 <= retry < k && b.tokens[retry].kind.RetryKind? && !b.tokens[retry].live
            && (var first := b.tokens[retry].parent;
                0 <= first < retry && b.tokens[first].kind.AttemptKind? && b.tokens[first].kind.number == 1
                  && !b.tokens[first].live
                && b.tokens[first].request == b.tokens[retry].request == b.tokens[k].request)
  {
    var b := Run(calls);
    RunKeeps(calls);
    assert Descends(b, k) && Descends(b, b.tokens[k].parent);
  }

  /** A retry is granted exactly for a first attempt whose admitted receipt is a failure by a
      verifier run not seen before. */
  lemma RetryNeedsFailure(b: Bridge, t: nat, r: Receipt)
    requires LiveAttempt(b, t)
    ensures var b' := AdmitStep(b, t, r);
            (|b'.tokens| == |b.tokens| + 1 && b'.tokens[|b.tokens|].kind.RetryKind?)
            <==> (AuthorityAdmits(b.tokens[t], r) && !r.pass && b.tokens[t].kind.number == 1
                  && r.verifierRunId !in SeenBy(b, b.tokens[t].request))
  {}

  /** All run identities of a request, of repairs, verifiers and reviews alike, are pairwise
      distinct: each token stands for one. */
  lemma RunIdsDistinct(calls: seq<Call>)
    ensures var tokens := Run(calls).tokens;
            forall i, j | 0 <= i < j < |tokens| && tokens[i].request == tokens[j].request ::
              tokens[i].runId != tokens[j].runId
  {
    var tokens := Run(calls).tokens;
    RunKeeps(calls);
    forall i, j | 0 <= i < j < |tokens| && tokens[i].request == tokens[j].request
      ensures tokens[i].runId != tokens[j].runId
    {
      assert Apart(Run(calls), i, j);
    }
  }

  /** At most once: in any run no two tokens come from one parent, so an attempt leads to at most
      one outcome, a retry to one attempt and a review to one result. */
  lemma UsedAtMostOnce(calls: seq<Call>)
    ensures var tokens := Run(calls).tokens;
            forall i, j | 0 <= i < j < |tokens| && tokens[i].parent >= 0 :: tokens[i].parent != tokens[j].parent
  {
    var tokens := Run(calls).tokens;
    RunKeeps(calls);
    forall i, j | 0 <= i < j < |tokens| && tokens[i].parent >= 0
      ensures tokens[i].parent != tokens[j].parent
    {
      assert Apart(Run(calls), i, j);
    }
  }

  // ---- used up for good ----

  /** Something may still come of the token: it is live, and its delivery not settled or its
      authorization not spent. */
  predicate Usable(token: Token) {
    token.live
    && (token.kind.AttemptKind? ==> !token.kind.settled)
    && (token.kind.RetryKind? || token.kind.ReviewKind? ==> token.kind.authorized)
  }

  lemma CallCarries(b: Bridge, call: Call, t: nat)
    requires t < |b.tokens|
    ensures var b' := Perform(b, call); t < |b'.tokens| && Carries(b.tokens[t], b'.tokens[t])
  {
    match call {
      case PrepareInitial(_, _, _, _, _) =>
      case TakeCapability(_) =>
      case Admit(_, _) =>
      case PrepareRetry(_, _, _, _, _) =>
      case BindReview(_, _, _, _) =>
      case AdmitElsewhere(_) =>
      case SpendAuthorization(_) =>
    }
  }

  lemma CarriesThrough(a: Token, b: Token, c: Token)
    requires Carries(a, b) && Carries(b, c)
    ensures Carries(a, c) && (!Usable(a) ==> !Usable(c))
  {}

  /** A call that names a token nothing can come of issues nothing from it. */
  lemma NothingFromSpent(b: Bridge, call: Call, t: nat)
    requires t < |b.tokens| && !Usable(b.tokens[t])
    ensures var b' := Perform(b, call);
            forall k | |b.tokens| <= k < |b'.tokens| :: b'.tokens[k].parent != t
  {}

  /** No token from place `n` on comes of `t`. */
  ghost predicate NoneFrom(b: Bridge, t: nat, n: nat) { forall k | n <= k < |b.tokens| :: b.tokens[k].parent != t }

  lemma StillNone(b: Bridge, call: Call, t: nat, n: nat)
    requires t < |b.tokens| && n <= |b.tokens| && !Usable(b.tokens[t]) && NoneFrom(b, t, n)
    ensures NoneFrom(Perform(b, call), t, n)
  {
    var b' := Perform(b, call);
    NothingFromSpent(b, call, t);
    forall k | n <= k < |b'.tokens|
      ensures b'.tokens[k].parent != t
    {
      if k < |b.tokens| {
        CallCarries(b, call, k);
      }
    }
  }

  /** Over any further calls a token keeps what it is, and is never revived. */
  lemma {:induction false} NeverRevived(calls: seq<Call>, more: seq<Call>, t: nat)
    requires t < |Run(calls).tokens|
    ensures var b, b' := Run(calls), Run(calls + more);
            t < |b'.tokens| && Carries(b.tokens[t], b'.tokens[t]) && (!Usable(b.tokens[t]) ==> !Usable(b'.tokens[t]))
  {
    if more == [] {
      assert calls + more == calls;
    } else {
      var front := more[..|more| - 1];
      assert (calls + more)[..|calls + more| - 1] == calls + front;
      NeverRevived(calls, front, t);
      var b1 := Run(calls + front);
      CallCarries(b1, more[|more| - 1], t);
      CarriesThrough(Run(calls).tokens[t], b1.tokens[t], Run(calls + more).tokens[t]);
    }
  }

  /** Once used up, for good: whatever calls follow, the token stays used up, a taken capability
      stays taken, and no token ever comes of it. */
  lemma {:induction false} UsedUpForever(calls: seq<Call>, more: seq<Call>, t: nat)
    requires t < |Run(calls).tokens| && !Usable(Run(calls).tokens[t])
    ensures var b, b' := Run(calls), Run(calls + more);
            t < |b'.tokens| && !Usable(b'.tokens[t]) && Carries(b.tokens[t], b'.tokens[t])
            && NoneFrom(b', t, |b.tokens|)
  {
    NeverRevived(calls, more, t);
    if more == [] {
      assert calls + more == calls;
    } else {
      var n, front := |Run(calls).tokens|, more[..|more| - 1];
      assert (calls + more)[..|calls + more| - 1] == calls + front;
      UsedUpForever(calls, front, t);
      NeverRevived(calls, front, n - 1);
      StillNone(Run(calls + front), more[|more| - 1], t, n);
    }
  }

  /** Every use spends its token, even when a later step throws: an admission and a review at
      once, a retry as soon as its authorization is consumed. */
  lemma UseIsFinal(b: Bridge, t: nat, call: Call)
    requires (call.Admit? && call.t == t && LiveAttempt(b, t)) || (call.BindReview? && call.t == t && LiveReview(b, t))
             || (call.PrepareRetry? && call.t == t && LiveRetry(b, t) && call.retryChecks
                 && call.newRepairRunId !in SeenBy(b, b.tokens[t].request))
    ensures t < |Perform(b, call).tokens| && !Usable(Perform(b, call).tokens[t])
    ensures call.Admit? || call.BindReview? ==> !Perform(b, call).tokens[t].live
  {}

  /** And a call on a used-up token is without effect: on a dead one altogether; on a retry whose
      authorization is spent, though it is live, as well; and a capability is taken only once. */
  lemma UsedOnce(b: Bridge, t: nat, call: Call)
    requires t < |b.tokens| && (call.Admit? || call.PrepareRetry? || call.BindReview? || call.TakeCapability?)
             && call.t == t
    requires var token := b.tokens[t];
             if call.TakeCapability? then token.kind.AttemptKind? && (token.kind.delivered || token.kind.settled)
             else !token.live || (token.kind.RetryKind? && !token.kind.authorized)
    ensures Perform(b, call) == b
  {}

  // ---- the receipt's corpus ----

  datatype AcceptedCase = AcceptedCase(id: string, expected: string)

  /** Accepts only the accepted cases, in order and with their expectations. */
  method CheckCorpus(results: seq<AcceptedCase>, cases: seq<AcceptedCase>) returns (ok: bool)
    ensures ok <==> results == cases
  {
    if |results| != |cases| {
      return false;
    }
    var index := 0;
    while index < |cases|
      invariant 0 <= index <= |cases| && forall i | 0 <= i < index :: results[i] == cases[i]
    {
      if results[index].id != cases[index].id || results[index].expected != cases[index].expected {
        return false;
      }
      index := index + 1;
    }
    return true;
  }
}
