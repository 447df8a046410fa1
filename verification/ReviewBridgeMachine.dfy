/** The bridge as it runs: tokens consumed and identities collected in place, each operation
    proved to be the step of the functional bridge. */
module ReviewBridgeMachine {
  import opened Evidence
  import opened ReviewBridge

  class RepairVerifierReviewBridge {
    var tokens: seq<Token>
    var seen: map<string, set<string>>

    function State(): Bridge
      reads this
    {
      Bridge(tokens, seen)
    }

    constructor ()
      ensures State() == NEW_BRIDGE
    {
      tokens, seen := [], map[];
    }

    /** Hands out a token and remembers its run identity. */
    method HandOut(token: Token) returns (t: nat)
      modifies this
      ensures State() == Issue(old(State()), token) && t == |old(tokens)|
    {
      t := |tokens|;
      seen := seen[token.request := (if token.request in seen then seen[token.request] else {}) + {token.runId}];
      tokens := tokens + [token];
    }

    method PrepareInitialAttempt(request: string, repairRunId: string, checks: bool, sealed: bool, issued: bool)
      returns (attempt: Option<nat>)
      modifies this
      ensures State() == Perform(old(State()), PrepareInitial(request, repairRunId, checks, sealed, issued))
      ensures attempt == if |tokens| == |old(tokens)| then None else Some(|old(tokens)|)
    {
      if request in seen || !checks || !sealed || !issued {
        return None;
      }
      var t := HandOut(Token(request, -1, repairRunId, true, AttemptKind(1, false, false)));
      return Some(t);
    }

    method TakeVerifierCapability(t: nat) returns (taken: bool)
      modifies this`tokens
      ensures State() == Perform(old(State()), TakeCapability(t))
    {
      if t >= |tokens| || !tokens[t].kind.AttemptKind? || tokens[t].kind.delivered || tokens[t].kind.settled {
        return false;
      }
      tokens := tokens[t := tokens[t].(kind := tokens[t].kind.(delivered := true))];
      return true;
    }

    /** The authority's one-use settlement of a delivery. */
    method SettleDelivery(t: nat, r: Receipt) returns (admitted: bool)
      requires t < |tokens| && tokens[t].kind.AttemptKind?
      modifies this`tokens
      ensures var kind := old(tokens[t]).kind;
              admitted == AuthorityAdmits(old(tokens[t]), r)
              && tokens == if kind.delivered && !kind.settled
                then old(tokens)[t := old(tokens[t]).(kind := kind.(settled := true))]
                           else old(tokens)
    {
      var kind := tokens[t].kind;
      if !kind.delivered || kind.settled {
        return false;
      }
      tokens := tokens[t := tokens[t].(kind := kind.(settled := true))];
      return r.valid && r.attempt == kind.number && r.repairRunId == tokens[t].runId
        && r.verifierRunId != r.repairRunId;
    }

    method AdmitVerifierReceipt(t: nat, r: Receipt) returns (outcome: Option<nat>)
      modifies this
      ensures State() == AdmitStep(old(State()), t, r)
      ensures outcome == if |tokens| == |old(tokens)| then None else Some(|old(tokens)|)
    {
      if t >= |tokens| || !tokens[t].live || !tokens[t].kind.AttemptKind? {
        return None;
      }
      var number, request := tokens[t].kind.number, tokens[t].request;
      tokens := tokens[t := tokens[t].(live := false)];
      var admitted := SettleDelivery(t, r);
      if !admitted || (request in seen && r.verifierRunId in seen[request]) {
        return None;
      }
      var kind := if r.pass then ReviewKind(true) else if number == 1 then RetryKind(true)
        else ResultKind(VerifierFailed);
      var issued := HandOut(Token(request, t, r.verifierRunId, true, kind));
      return Some(issued);
    }

    method PrepareRetryAttempt(t: nat, repairRunId: string, checks: bool, sealed: bool,
                               issued: bool) returns (attempt: Option<nat>)
      modifies this
      ensures State() == RetryStep(old(State()), t, repairRunId, checks, sealed, issued)
      ensures attempt == if |tokens| == |old(tokens)| then None else Some(|old(tokens)|)
    {
      if t >= |tokens| || !tokens[t].live || !tokens[t].kind.RetryKind? {
        return None;
      }
      var request := tokens[t].request;
      if !checks || (request in seen && repairRunId in seen[request]) || !tokens[t].kind.authorized {
        return None;
      }
      tokens := tokens[t := tokens[t].(kind := RetryKind(false))];
      if !sealed || !issued {
        return None;
      }
      tokens := tokens[t := tokens[t].(live := false)];
      var next := HandOut(Token(request, t, repairRunId, true, AttemptKind(2, false, false)));
      return Some(next);
    }

    method BindVerifierReview(t: nat, reviewRunId: string, approve: bool, checks: bool) returns (result: Option<nat>)
      modifies this
      ensures State() == ReviewStep(old(State()), t, reviewRunId, approve, checks)
      ensures result == if |tokens| == |old(tokens)| then None else Some(|old(tokens)|)
    {
      if t >= |tokens| || !tokens[t].live || !tokens[t].kind.ReviewKind? {
        return None;
      }
      var request := tokens[t].request;
      tokens := tokens[t := tokens[t].(live := false)];
      if !tokens[t].kind.authorized {
        return None;
      }
      tokens := tokens[t := tokens[t].(kind := ReviewKind(false))];
      if !checks || (request in seen && reviewRunId in seen[request]) {
        return None;
      }
      var kind := ResultKind(if approve then ReviewApproved else ReviewBlocked);
      var bound := HandOut(Token(request, t, reviewRunId, true, kind));
      return Some(bound);
    }
  }
}
