/** The static supervisor's CPU ledger: a class whose every finished proof its own parser admits. */
module CpuLedger {
  import opened Evidence

  const MAX_SAMPLES := 10_000

  datatype CpuIdentity = CpuIdentity(role: Role, containerId: string, pid: int, startedAt: Timestamp, cgroup: string)

  datatype CpuRole = CpuRole(id: CpuIdentity, baseline: int, last: int, final: Option<int>, samples: int)

  datatype CpuRoleProof = CpuRoleProof(role: Role, id: CpuIdentity, baseline: int, final: int, delta: int, samples: int)

  datatype CpuProof = CpuProof(requestSha256: string, bindingSha256: string, budget: int, aggregate: int,
    roles: seq<CpuRoleProof>)

  // ---- the parser ----

  predicate ParsesRole(p: CpuRoleProof, role: Role) {
    p.role == role && p.id.role == role && IsContainerId(p.id.containerId) && IsSha256(p.id.cgroup)
    && IsUint64(p.baseline) && IsUint64(p.final) && IsUint64(p.delta) && p.baseline <= p.final
      && p.final - p.baseline == p.delta
    && 1 <= p.id.pid <= 2_147_483_647 && IsCalendarTimestamp(p.id.startedAt) && 2 <= p.samples <= MAX_SAMPLES
  }

  predicate Parses(p: CpuProof, requestSha256: string, bindingSha256: Option<string>, budget: int) {
    IsSha256(requestSha256) && (bindingSha256.Some? ==> IsSha256(bindingSha256.value)) && 1 <= budget <= MAX_UINT64
    && p.requestSha256 == requestSha256 && IsSha256(p.bindingSha256)
    && (bindingSha256.Some? ==> p.bindingSha256 == bindingSha256.value)
    && |p.roles| == 3 && p.budget == budget && 0 <= p.aggregate <= budget
    && (forall i | 0 <= i < 3 :: ParsesRole(p.roles[i], ROLES[i]))
    && p.roles[0].delta + p.roles[1].delta + p.roles[2].delta == p.aggregate
    && forall i, j | 0 <= i < j < 3 ::
         p.roles[i].id.containerId != p.roles[j].id.containerId && p.roles[i].id.cgroup != p.roles[j].id.cgroup
  }

  // ---- the ledger as a function of its inputs ----

  datatype Milestone = Begun(role: Role) | SealedRole(role: Role)

  /** `log` remembers when each role began and was sealed. */
  datatype Ledger = Ledger(requestSha256: string, bindingSha256: string, budget: int, roles: map<Role, CpuRole>,
                           failed: bool, finalized: bool, log: seq<Milestone>)

  predicate Mutable(l: Ledger) { !l.failed && !l.finalized }

  function Fail(l: Ledger): Ledger { l.(failed := true) }

  function Spent(l: Ledger, r: Role): int { if r in l.roles then l.roles[r].last - l.roles[r].baseline else 0 }

  function Aggregate(l: Ledger): int { Spent(l, Egress) + Spent(l, Worker) + Spent(l, Verifier) }

  predicate IsSealed(l: Ledger, r: Role) { r in l.roles && l.roles[r].final.Some? }

  predicate Reuses(l: Ledger, id: CpuIdentity) {
    exists r | r in l.roles :: l.roles[r].id.containerId == id.containerId || l.roles[r].id.cgroup == id.cgroup
  }

  function FirstProof(id: CpuIdentity, usage: int): CpuRoleProof { CpuRoleProof(id.role, id, usage, usage, 0, 2) }

  function BeginRole(l: Ledger, id: CpuIdentity, usage: int): Ledger {
    if !Mutable(l) then l
    else if |l.roles| >= 3 || ROLES[|l.roles|] != id.role || !IsUint64(usage) then Fail(l)
    else if id.role.Worker? && !(Egress in l.roles && l.roles[Egress].final.None?) then Fail(l)
    else if !ParsesRole(FirstProof(id, usage), id.role) then l
    else if Reuses(l, id) then Fail(l)
    else if id.role.Verifier? && ((Worker in l.roles && l.roles[Worker].final.None?)
      || (Egress in l.roles && l.roles[Egress].final.None?)) then Fail(l)
    else l.(roles := l.roles[id.role := CpuRole(id, usage, usage, None, 1)], log := l.log + [Begun(id.role)])
  }

  function SampleRole(l: Ledger, id: CpuIdentity, usage: int): Ledger {
    if !Mutable(l) then l
    else if id.role !in l.roles || l.roles[id.role].final.Some? || l.roles[id.role].id != id || !IsUint64(usage)
            || usage < l.roles[id.role].last || l.roles[id.role].samples >= MAX_SAMPLES then Fail(l)
    else
      var st := l.roles[id.role];
      var l' := l.(roles := l.roles[id.role := st.(last := usage, samples := st.samples + 1)]);
      if Aggregate(l') > l.budget then Fail(l') else l'
  }

  function FinishRole(l: Ledger, id: CpuIdentity, usage: int): Ledger {
    var sampled := SampleRole(l, id, usage);
    if !Mutable(l) || sampled.failed || id.role !in sampled.roles then sampled
    else if id.role.Egress? && Worker in sampled.roles && sampled.roles[Worker].final.None? then Fail(sampled)
    else
      sampled.(roles := sampled.roles[id.role := sampled.roles[id.role].(final := Some(usage))],
               log := sampled.log + [SealedRole(id.role)])
  }

  predicate AllSealed(l: Ledger) {
    forall r: Role :: r in l.roles && l.roles[r].final.Some? && l.roles[r].samples >= 2
  }

  function ProofOf(r: Role, st: CpuRole): CpuRoleProof
    requires st.final.Some?
  {
    CpuRoleProof(r, st.id, st.baseline, st.final.value, st.final.value - st.baseline, st.samples)
  }

  function Build(l: Ledger): CpuProof
    requires AllSealed(l)
  {
    CpuProof(l.requestSha256, l.bindingSha256, l.budget, Aggregate(l),
             [ProofOf(Egress, l.roles[Egress]), ProofOf(Worker, l.roles[Worker]), ProofOf(Verifier, l.roles[Verifier])])
  }

  /** The proof, or None when the call throws. */
  function Finalize(l: Ledger): (Ledger, Option<CpuProof>) {
    if !Mutable(l) then (l, None)
    else if !AllSealed(l) then (Fail(l), None)
    else if !Parses(Build(l), l.requestSha256, Some(l.bindingSha256), l.budget) then (l, None)
    else (l.(finalized := true), Some(Build(l)))
  }

  // ---- what the ledger keeps ----

  ghost predicate RoleKept(l: Ledger, r: Role) {
    r in l.roles ==>
      var st := l.roles[r];
      ParsesRole(FirstProof(st.id, st.baseline), r) && st.id.role == r && IsUint64(st.last) && st.baseline <= st.last
      && 1 <= st.samples <= MAX_SAMPLES && (st.final.Some? ==> st.final.value == st.last && st.samples >= 2)
  }

  ghost predicate RolesApart(l: Ledger, p: Role, q: Role) {
    p in l.roles && q in l.roles && p != q ==>
      l.roles[p].id.containerId != l.roles[q].id.containerId && l.roles[p].id.cgroup != l.roles[q].id.cgroup
  }

  const FULL_LOG := [Begun(Egress), Begun(Worker), SealedRole(Worker), SealedRole(Egress), Begun(Verifier),
    SealedRole(Verifier)]

  /** Egress was sealed before the worker began: no proof will come of it. */
  predicate DeadEnd(log: seq<Milestone>) { |log| == 2 && log[0] == Begun(Egress) && log[1] == SealedRole(Egress) }

  ghost predicate OnTheWay(log: seq<Milestone>, i: int) { 0 <= i < |log| && i < 6 ==> log[i] == FULL_LOG[i] }

  /** The log so far is the one way to a proof, or a dead end. */
  ghost predicate Logged(l: Ledger) {
    var n := |l.log|;
    if DeadEnd(l.log) then IsSealed(l, Egress) && Worker !in l.roles && Verifier !in l.roles
    else
      n <= 6 && (forall i :: OnTheWay(l.log, i))
      && (Egress in l.roles <==> n >= 1) && (Worker in l.roles <==> n >= 2) && (Verifier in l.roles <==> n >= 5)
      && (IsSealed(l, Worker) <==> n >= 3) && (IsSealed(l, Egress) <==> n >= 4) && (IsSealed(l, Verifier) <==> n >= 6)
  }

  ghost predicate Kept(l: Ledger) {
    IsSha256(l.requestSha256) && IsSha256(l.bindingSha256) && 1 <= l.budget <= MAX_UINT64
    && (forall r :: RoleKept(l, r)) && (forall p, q :: RolesApart(l, p, q)) && Logged(l) && Aggregate(l) <= l.budget
  }

  lemma RolesCount(l: Ledger)
    requires Logged(l)
    ensures |l.roles| == if Egress !in l.roles then 0 else if Worker !in l.roles then 1
            else if Verifier !in l.roles then 2 else 3
  {
    var keys := l.roles.Keys;
    assert |keys| == |l.roles|;
    forall r | r in keys
      ensures r in {Egress, Worker, Verifier}
    {
      match r { case Egress => case Worker => case Verifier => }
    }
    if Egress !in l.roles {
      assert keys == {};
    } else if Worker !in l.roles {
      assert keys == {Egress};
    } else if Verifier !in l.roles {
      assert keys == {Egress, Worker};
    } else {
      assert keys == {Egress, Worker, Verifier};
    }
  }

  /** One more milestone on the way. */
  lemma LogGrows(l: Ledger, l': Ledger, m: Milestone)
    requires Logged(l) && !DeadEnd(l.log) && |l.log| < 6 && m == FULL_LOG[|l.log|] && l'.log == l.log + [m]
    requires forall r :: r in l'.roles <==> r in l.roles || m == Begun(r)
    requires forall r :: IsSealed(l', r) <==> IsSealed(l, r) || m == SealedRole(r)
    ensures Logged(l')
  {
    forall i
      ensures OnTheWay(l'.log, i)
    {
      assert OnTheWay(l.log, i);
    }
    assert OnTheWay(l'.log, 1);
  }

  lemma BeginLogs(l: Ledger, id: CpuIdentity, usage: int)
    requires Kept(l) && !BeginRole(l, id, usage).failed && BeginRole(l, id, usage) != l
    ensures Logged(BeginRole(l, id, usage)) && id.role !in l.roles
  {
    RolesCount(l);
    var l' := BeginRole(l, id, usage);
    assert id.role == ROLES[|l.roles|] && id.role !in l.roles;
    assert !DeadEnd(l.log);
    assert |l.log| < 6 && FULL_LOG[|l.log|] == Begun(id.role);
    LogGrows(l, l', Begun(id.role));
  }

  lemma BeginKeeps(l: Ledger, id: CpuIdentity, usage: int)
    requires Kept(l) && !BeginRole(l, id, usage).failed
    ensures Kept(BeginRole(l, id, usage))
  {
    var l' := BeginRole(l, id, usage);
    if l' != l {
      BeginLogs(l, id, usage);
      forall r
        ensures RoleKept(l', r)
      {
        assert RoleKept(l, r);
      }
      forall p, q
        ensures RolesApart(l', p, q)
      {
        assert RolesApart(l, p, q);
      }
    }
  }

  lemma SampleKeeps(l: Ledger, id: CpuIdentity, usage: int)
    requires Kept(l) && !SampleRole(l, id, usage).failed
    ensures Kept(SampleRole(l, id, usage))
  {
    var l' := SampleRole(l, id, usage);
    forall r
      ensures RoleKept(l', r)
    {
      assert RoleKept(l, r);
    }
    forall p, q
      ensures RolesApart(l', p, q)
    {
      assert RolesApart(l, p, q);
    }
    assert forall r :: IsSealed(l', r) <==> IsSealed(l, r);
    assert forall r :: r in l'.roles <==> r in l.roles;
  }

  lemma FinishLogs(l: Ledger, l': Ledger, r: Role, usage: int)
    requires Kept(l) && r in l.roles && l.roles[r].final.None?
    requires r.Egress? && Worker in l.roles ==> l.roles[Worker].final.Some?
    requires l'.roles == l.roles[r := l.roles[r].(final := Some(usage))] && l'.log == l.log + [SealedRole(r)]
    ensures Logged(l')
  {
    assert !DeadEnd(l.log);
    if r.Egress? && Worker !in l.roles {
      assert |l.log| == 1 && OnTheWay(l.log, 0);
    } else {
      assert |l.log| < 6 && FULL_LOG[|l.log|] == SealedRole(r);
      LogGrows(l, l', SealedRole(r));
    }
  }

  lemma FinishKeeps(l: Ledger, id: CpuIdentity, usage: int)
    requires Kept(l) && !FinishRole(l, id, usage).failed
    ensures Kept(FinishRole(l, id, usage))
  {
    var sampled, l' := SampleRole(l, id, usage), FinishRole(l, id, usage);
    if Mutable(l) {
      SampleKeeps(l, id, usage);
      FinishLogs(sampled, l', id.role, usage);
      forall r
        ensures RoleKept(l', r)
      {
        assert RoleKept(l, r) && RoleKept(sampled, r);
      }
      forall p, q
        ensures RolesApart(l', p, q)
      {
        assert RolesApart(sampled, p, q);
      }
    }
  }

  /** Once three roles are sealed the parser admits the proof; finalization succeeds exactly then. */
  lemma FinalizeParses(l: Ledger)
    requires Kept(l)
    ensures Finalize(l).1.Some? <==> Mutable(l) && AllSealed(l)
    ensures Finalize(l).1.Some? ==>
              Parses(Finalize(l).1.value, l.requestSha256, Some(l.bindingSha256), l.budget) && l.log == FULL_LOG
  {
    if AllSealed(l) {
      assert RoleKept(l, Egress) && RoleKept(l, Worker) && RoleKept(l, Verifier);
      assert RolesApart(l, Egress, Worker) && RolesApart(l, Egress, Verifier) && RolesApart(l, Worker, Verifier);
      assert IsSealed(l, Verifier) && |l.log| == 6;
      forall i | 0 <= i < 6
        ensures l.log[i] == FULL_LOG[i]
      {
        assert OnTheWay(l.log, i);
      }
      ProofParses(l);
    }
  }

  /** A dead end stays one: whatever begins next, or a finalization, poisons the ledger. */
  lemma DeadEndIsDead(l: Ledger, id: CpuIdentity, usage: int)
    requires Kept(l) && Mutable(l) && DeadEnd(l.log)
    ensures BeginRole(l, id, usage).failed && Finalize(l).0.failed
  {
    RolesCount(l);
    assert !AllSealed(l);
  }

  lemma ProofParses(l: Ledger)
    requires Kept(l) && AllSealed(l)
    ensures Parses(Build(l), l.requestSha256, Some(l.bindingSha256), l.budget)
  {
    assert RoleKept(l, Egress) && RoleKept(l, Worker) && RoleKept(l, Verifier);
    assert RolesApart(l, Egress, Worker) && RolesApart(l, Egress, Verifier) && RolesApart(l, Worker, Verifier);
  }

  // ---- runs ----

  datatype Call = CallBegin(id: CpuIdentity, usage: int) | CallSample(id: CpuIdentity, usage: int)
                | CallFinish(id: CpuIdentity, usage: int) | CallFinalize

  function Perform(l: Ledger, call: Call): Ledger {
    match call
    case CallBegin(id, usage) => BeginRole(l, id, usage)
    case CallSample(id, usage) => SampleRole(l, id, usage)
    case CallFinish(id, usage) => FinishRole(l, id, usage)
    case CallFinalize => Finalize(l).0
  }

  function Run(requestSha256: string, bindingSha256: string, budget: int, calls: seq<Call>): Ledger {
    if calls == [] then Ledger(requestSha256, bindingSha256, budget, map[], false, false, [])
    else Perform(Run(requestSha256, bindingSha256, budget, calls[..|calls| - 1]), calls[|calls| - 1])
  }

  /** Poison is permanent, and so is a finished proof. */
  lemma PoisonIsPermanent(l: Ledger, call: Call)
    requires !Mutable(l)
    ensures Perform(l, call) == l
  {}

  lemma {:induction false} RunKept(requestSha256: string, bindingSha256: string, budget: int, calls: seq<Call>)
    requires IsSha256(requestSha256) && IsSha256(bindingSha256) && 1 <= budget <= MAX_UINT64
    ensures var l := Run(requestSha256, bindingSha256, budget, calls); l.failed || Kept(l)
  {
    if calls != [] {
      var l, call := Run(requestSha256, bindingSha256, budget, calls[..|calls| - 1]), calls[|calls| - 1];
      RunKept(requestSha256, bindingSha256, budget, calls[..|calls| - 1]);
      if !Perform(l, call).failed && !l.failed {
        match call
        case CallBegin(id, usage) => BeginKeeps(l, id, usage);
        case CallSample(id, usage) => SampleKeeps(l, id, usage);
        case CallFinish(id, usage) => FinishKeeps(l, id, usage);
        case CallFinalize => FinalizedKeeps(l);
      }
    }
  }

  lemma FinalizedKeeps(l: Ledger)
    requires Kept(l) && !Finalize(l).0.failed
    ensures Kept(Finalize(l).0)
  {
    var l' := Finalize(l).0;
    forall r
      ensures RoleKept(l', r)
    {
      assert RoleKept(l, r);
    }
    forall p, q
      ensures RolesApart(l', p, q)
    {
      assert RolesApart(l, p, q);
    }
    assert forall r :: IsSealed(l', r) <==> IsSealed(l, r);
  }

  const EGRESS_ID := CpuIdentity(Egress, seq(64, _ => '0'), 1, Timestamp(2024, 1, 1, 0, 0, 0, 3, true),
    seq(64, _ => '0'))
  const WORKER_ID := CpuIdentity(Worker, seq(64, _ => '1'), 2, Timestamp(2024, 1, 1, 0, 0, 0, 3, true),
    seq(64, _ => '1'))

  lemma EgressEnds(l: Ledger)
    requires Mutable(l) && l.roles == map[] && l.log == [] && l.budget >= 1
    ensures var sealed := FinishRole(BeginRole(l, EGRESS_ID, 0), EGRESS_ID, 0); Mutable(sealed) && DeadEnd(sealed.log)
  {
    var begun := BeginRole(l, EGRESS_ID, 0);
    assert begun.log == [Begun(Egress)] && Mutable(begun) && begun.roles[Egress] == CpuRole(EGRESS_ID, 0, 0, None, 1);
  }

  /** The dead end is reached: egress begun and sealed, with nothing thrown; and the worker that
      begins next poisons the ledger. */
  lemma DeadEndIsReachable(requestSha256: string, bindingSha256: string, budget: int)
    requires IsSha256(requestSha256) && IsSha256(bindingSha256) && 1 <= budget <= MAX_UINT64
    ensures var calls := [CallBegin(EGRESS_ID, 0), CallFinish(EGRESS_ID, 0)];
            var l := Run(requestSha256, bindingSha256, budget, calls);
            Mutable(l) && DeadEnd(l.log) && Perform(l, CallBegin(WORKER_ID, 0)).failed
  {
    var calls := [CallBegin(EGRESS_ID, 0), CallFinish(EGRESS_ID, 0)];
    var l0 := Run(requestSha256, bindingSha256, budget, []);
    assert calls[..1] == [calls[0]] && [calls[0]][..0] == [];
    assert Run(requestSha256, bindingSha256, budget, [calls[0]]) == BeginRole(l0, EGRESS_ID, 0);
    EgressEnds(l0);
    RunKept(requestSha256, bindingSha256, budget, calls);
    DeadEndIsDead(Run(requestSha256, bindingSha256, budget, calls), WORKER_ID, 0);
  }

  /** The ledger refines its parser.  After any run that is not poisoned: the account is within
      the budget; finalization succeeds exactly when the three roles are sealed, with a proof the
      parser admits; and then the worker was sealed before egress, and egress before the
      verifier began. */
  lemma LedgerRefinesParser(requestSha256: string, bindingSha256: string, budget: int, calls: seq<Call>)
    requires IsSha256(requestSha256) && IsSha256(bindingSha256) && 1 <= budget <= MAX_UINT64
    requires Mutable(Run(requestSha256, bindingSha256, budget, calls))
    ensures var l := Run(requestSha256, bindingSha256, budget, calls);
            Aggregate(l) <= l.budget
            && (Finalize(l).1.Some? <==> AllSealed(l))
            && (Finalize(l).1.Some? ==>
                 Parses(Finalize(l).1.value, l.requestSha256, Some(l.bindingSha256), l.budget) && l.log == FULL_LOG)
  {
    RunKept(requestSha256, bindingSha256, budget, calls);
    FinalizeParses(Run(requestSha256, bindingSha256, budget, calls));
  }
}
