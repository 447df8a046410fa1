/** The ledger as it runs: a class whose methods take the steps of the functional ledger. */
module CpuLedgerMachine {
  import opened Evidence
  import opened CpuLedger

  class StaticSupervisorCpuBudgetLedger {
    const requestSha256: string
    const bindingSha256: string
    const budget: int
    var roles: map<Role, CpuRole>
    var failed: bool
    var finalized: bool
    ghost var log: seq<Milestone>

    ghost function State(): Ledger
      reads this
    {
      Ledger(requestSha256, bindingSha256, budget, roles, failed, finalized, log)
    }

    constructor (requestSha256: string, bindingSha256: string, budget: int)
      requires IsSha256(requestSha256) && IsSha256(bindingSha256) && 1 <= budget <= MAX_UINT64
      ensures State() == Run(requestSha256, bindingSha256, budget, []) && Kept(State())
    {
      this.requestSha256, this.bindingSha256, this.budget := requestSha256, bindingSha256, budget;
      roles, failed, finalized, log := map[], false, false, [];
      new;
      RunKept(requestSha256, bindingSha256, budget, []);
    }

    method AggregateCurrent() returns (total: int)
      ensures total == Aggregate(State())
    {
      total := 0;
      for i := 0 to 3
        invariant total == (if i > 0 then Spent(State(), Egress) else 0) + (if i > 1 then Spent(State(), Worker) else 0)
                           + (if i > 2 then Spent(State(), Verifier) else 0)
      {
        if ROLES[i] in roles {
          total := total + (roles[ROLES[i]].last - roles[ROLES[i]].baseline);
        }
      }
    }

    method Reused(id: CpuIdentity) returns (reused: bool)
      ensures reused == Reuses(State(), id)
    {
      for i := 0 to 3
        invariant forall k | 0 <= k < i && ROLES[k] in roles ::
                    roles[ROLES[k]].id.containerId != id.containerId && roles[ROLES[k]].id.cgroup != id.cgroup
      {
        var r := ROLES[i];
        if r in roles && (roles[r].id.containerId == id.containerId || roles[r].id.cgroup == id.cgroup) {
          return true;
        }
      }
      forall r | r in roles
        ensures roles[r].id.containerId != id.containerId && roles[r].id.cgroup != id.cgroup
      {
        match r {
          case Egress => assert ROLES[0] in roles;
          case Worker => assert ROLES[1] in roles;
          case Verifier => assert ROLES[2] in roles;
        }
      }
      return false;
    }

    method BeginRole(id: CpuIdentity, usage: int) returns (ok: bool)
      modifies this
      ensures State() == CpuLedger.BeginRole(old(State()), id, usage) && (ok <==> State() != old(State()) && !failed)
    {
      if failed || finalized {
        return false;
      }
      if |roles| >= 3 || ROLES[|roles|] != id.role || !IsUint64(usage) {
        failed := true;
        return false;
      }
      if id.role == Worker && (Egress !in roles || roles[Egress].final.Some?) {
        failed := true;
        return false;
      }
      if !ParsesRole(FirstProof(id, usage), id.role) {
        return false;
      }
      var reused := Reused(id);
      if reused {
        failed := true;
        return false;
      }
      if id.role == Verifier && ((Worker in roles && roles[Worker].final.None?)
        || (Egress in roles && roles[Egress].final.None?)) {
        failed := true;
        return false;
      }
      roles := roles[id.role := CpuRole(id, usage, usage, None, 1)];
      log := log + [Begun(id.role)];
      return true;
    }

    method SampleRole(id: CpuIdentity, usage: int) returns (ok: bool)
      modifies this
      ensures State() == CpuLedger.SampleRole(old(State()), id, usage) && (ok <==> Mutable(old(State())) && !failed)
    {
      if failed || finalized {
        return false;
      }
      var r := id.role;
      if r !in roles || roles[r].final.Some? || roles[r].id != id || !IsUint64(usage) || usage < roles[r].last
         || roles[r].samples >= MAX_SAMPLES {
        failed := true;
        return false;
      }
      roles := roles[r := roles[r].(last := usage, samples := roles[r].samples + 1)];
      var total := AggregateCurrent();
      failed := total > budget;
      return !failed;
    }

    method FinishRole(id: CpuIdentity, usage: int) returns (ok: bool)
      modifies this
      ensures State() == CpuLedger.FinishRole(old(State()), id, usage) && (ok <==> Mutable(old(State())) && !failed)
    {
      ok := SampleRole(id, usage);
      if !ok {
        return;
      }
      if id.role == Egress && Worker in roles && roles[Worker].final.None? {
        failed := true;
        return false;
      }
      roles := roles[id.role := roles[id.role].(final := Some(usage))];
      log := log + [SealedRole(id.role)];
      return true;
    }

    method Finalize() returns (proof: Option<CpuProof>)
      modifies this
      ensures (State(), proof) == CpuLedger.Finalize(old(State()))
    {
      if failed || finalized {
        return None;
      }
      var proofs: seq<CpuRoleProof> := [];
      for i := 0 to 3
        invariant State() == old(State()) && |proofs| == i
        invariant forall k | 0 <= k < i ::
                  ROLES[k] in roles && roles[ROLES[k]].final.Some? && roles[ROLES[k]].samples >= 2
                                           && proofs[k] == ProofOf(ROLES[k], roles[ROLES[k]])
      {
        var r := ROLES[i];
        if r !in roles || roles[r].final.None? || roles[r].samples < 2 {
          failed := true;
          return None;
        }
        proofs := proofs + [ProofOf(r, roles[r])];
      }
      forall r: Role
        ensures r in roles && roles[r].final.Some? && roles[r].samples >= 2
      {
        match r {
          case Egress => assert ROLES[0] in roles;
          case Worker => assert ROLES[1] in roles;
          case Verifier => assert ROLES[2] in roles;
        }
      }
      assert proofs == [ProofOf(ROLES[0], roles[ROLES[0]]), ProofOf(ROLES[1], roles[ROLES[1]]),
             ProofOf(ROLES[2], roles[ROLES[2]])];
      var total := AggregateCurrent();
      var built := CpuProof(requestSha256, bindingSha256, budget, total, proofs);
      if !Parses(built, requestSha256, Some(bindingSha256), budget) {
        return None;
      }
      finalized := true;
      return Some(built);
    }
  }
}
