/** What a run of the static ledger comes to, read off its calls alone: when it is poisoned, and
    what its proof says. */
module CpuLedgerOutcomes {
  import opened Evidence
  import opened CpuLedger

  // ---- a run by its calls ----

  predicate WellFormed(id: CpuIdentity) {
    IsContainerId(id.containerId) && IsSha256(id.cgroup) && 1 <= id.pid <= 2_147_483_647
      && IsCalendarTimestamp(id.startedAt)
  }

  /** The call brings a reading of the role; a beginning with a malformed identity throws and
      brings none. */
  predicate Reads(call: Call, r: Role) {
    !call.CallFinalize? && call.id.role == r && (call.CallBegin? ==> WellFormed(call.id))
  }

  function Readings(calls: seq<Call>, r: Role): seq<int> {
    if calls == [] then []
    else
      var call := calls[|calls| - 1];
      Readings(calls[..|calls| - 1], r) + if Reads(call, r) then [call.usage] else []
  }

  predicate Sealed(calls: seq<Call>, r: Role) { exists c | c in calls :: c.CallFinish? && c.id.role == r }

  /** The identity is the one all readings of its role are under. */
  predicate Names(calls: seq<Call>, r: Role, id: CpuIdentity) { forall c | c in calls :: Reads(c, r) ==> c.id == id }

  /** Neither the container nor the cgroup of any reading. */
  predicate Unused(calls: seq<Call>, id: CpuIdentity) {
    forall c | c in calls :: !c.CallFinalize? && Reads(c, c.id.role) ==>
      c.id.containerId != id.containerId && c.id.cgroup != id.cgroup
  }

  function SpentBy(us: seq<int>): int { if us == [] then 0 else us[|us| - 1] - us[0] }

  function Total(calls: seq<Call>): int {
    SpentBy(Readings(calls, Egress)) + SpentBy(Readings(calls, Worker)) + SpentBy(Readings(calls, Verifier))
  }

  // ---- the ledger holds what the calls said ----

  ghost predicate Rising(us: seq<int>) { forall i, j | 0 <= i < j < |us| :: us[i] <= us[j] }

  ghost predicate RoleTold(st: CpuRole, us: seq<int>) {
    us != [] && Rising(us) && st.baseline == us[0] && st.last == us[|us| - 1] && st.samples == |us|
    && (st.final.Some? ==> st.final.value == st.last)
  }

  ghost predicate Told(l: Ledger, calls: seq<Call>, r: Role) {
    (r in l.roles <==> Readings(calls, r) != []) && (IsSealed(l, r) <==> Sealed(calls, r))
    && (r in l.roles ==> RoleTold(l.roles[r], Readings(calls, r)) && Names(calls, r, l.roles[r].id))
  }

  /** A call that brings no reading of the role and changes nothing of it. */
  lemma OthersTold(l: Ledger, l': Ledger, calls: seq<Call>, call: Call, r: Role)
    requires Told(l, calls, r) && !Reads(call, r) && (r in l'.roles <==> r in l.roles)
    requires r in l.roles ==> l'.roles[r] == l.roles[r]
    ensures Told(l', calls + [call], r)
  {
    assert (calls + [call])[..|calls|] == calls;
    assert Readings(calls + [call], r) == Readings(calls, r);
    SealedBy(calls, call, r);
  }

  lemma SealedBy(calls: seq<Call>, call: Call, r: Role)
    ensures Sealed(calls + [call], r) <==> Sealed(calls, r) || (call.CallFinish? && call.id.role == r)
  {
    if Sealed(calls, r) {
      var c :| c in calls && c.CallFinish? && c.id.role == r;
      assert c in calls + [call];
    }
    assert call in calls + [call];
  }

  /** A call whose reading is recorded. */
  lemma ReadingTold(l: Ledger, l': Ledger, calls: seq<Call>, call: Call, r: Role)
    requires Told(l, calls, r) && Reads(call, r) && r in l'.roles && l'.roles[r].id == call.id
    requires if r in l.roles then !call.CallBegin? && l.roles[r].id == call.id && l.roles[r].final.None?
                                  && l.roles[r].last <= call.usage
                                  && l'.roles[r] == l.roles[r].(last := call.usage, samples := l.roles[r].samples + 1,
                                                                final := l'.roles[r].final)
             else call.CallBegin? && l'.roles[r] == CpuRole(call.id, call.usage, call.usage, None, 1)
    requires l'.roles[r].final == if call.CallFinish? then Some(call.usage) else None
    ensures Told(l', calls + [call], r)
  {
    assert (calls + [call])[..|calls|] == calls;
    var us, us' := Readings(calls, r), Readings(calls + [call], r);
    assert us' == us + [call.usage];
    SealedBy(calls, call, r);
    if r !in l.roles {
      NoneRead(calls, r);
    }
  }

  lemma {:induction false} NoneRead(calls: seq<Call>, r: Role)
    requires Readings(calls, r) == []
    ensures forall c | c in calls :: !Reads(c, r)
  {
    if calls != [] {
      NoneRead(calls[..|calls| - 1], r);
      assert calls == calls[..|calls| - 1] + [calls[|calls| - 1]];
    }
  }

  lemma BeginTold(l: Ledger, calls: seq<Call>, call: Call, r: Role)
    requires Kept(l) && Mutable(l) && call.CallBegin? && !Perform(l, call).failed && Told(l, calls, r)
    ensures Told(Perform(l, call), calls + [call], r)
  {
    var l' := BeginRole(l, call.id, call.usage);
    if l' == l || call.id.role != r {
      OthersTold(l, l', calls, call, r);
    } else {
      BeginLogs(l, call.id, call.usage);
      ReadingTold(l, l', calls, call, r);
    }
  }

  lemma SampleTold(l: Ledger, calls: seq<Call>, call: Call, r: Role)
    requires Mutable(l) && call.CallSample? && !Perform(l, call).failed && Told(l, calls, r)
    ensures Told(Perform(l, call), calls + [call], r)
  {
    var l' := SampleRole(l, call.id, call.usage);
    if call.id.role != r {
      OthersTold(l, l', calls, call, r);
    } else {
      ReadingTold(l, l', calls, call, r);
    }
  }

  lemma FinishTold(l: Ledger, calls: seq<Call>, call: Call, r: Role)
    requires Mutable(l) && call.CallFinish? && !Perform(l, call).failed && Told(l, calls, r)
    ensures Told(Perform(l, call), calls + [call], r)
  {
    var l' := FinishRole(l, call.id, call.usage);
    if call.id.role != r {
      OthersTold(l, l', calls, call, r);
    } else {
      ReadingTold(l, l', calls, call, r);
    }
  }

  /** In any run that is not poisoned, and not finished, the ledger holds for every role exactly
      what the calls said: its first and its last reading, how many there were and under which
      identity, and whether it was sealed. */
  lemma {:induction false} RunTold(requestSha256: string, bindingSha256: string, budget: int, calls: seq<Call>, r: Role)
    requires IsSha256(requestSha256) && IsSha256(bindingSha256) && 1 <= budget <= MAX_UINT64
    requires Mutable(Run(requestSha256, bindingSha256, budget, calls))
    ensures Told(Run(requestSha256, bindingSha256, budget, calls), calls, r)
  {
    if calls != [] {
      var front, call := calls[..|calls| - 1], calls[|calls| - 1];
      var l := Run(requestSha256, bindingSha256, budget, front);
      assert front + [call] == calls;
      RunTold(requestSha256, bindingSha256, budget, front, r);
      RunKept(requestSha256, bindingSha256, budget, front);
      match call
      case CallBegin(_, _) => BeginTold(l, front, call, r);
      case CallSample(_, _) => SampleTold(l, front, call, r);
      case CallFinish(_, _) => FinishTold(l, front, call, r);
      case CallFinalize => OthersTold(l, Perform(l, call), front, call, r);
    }
  }

  // ---- when a call poisons ----

  /** A beginning in its turn.  With a malformed identity it throws and changes nothing. */
  predicate MayBegin(calls: seq<Call>, id: CpuIdentity, usage: int) {
    IsUint64(usage) && Readings(calls, id.role) == []
    && (id.role.Worker? ==> Readings(calls, Egress) != [] && !Sealed(calls, Egress))
    && (id.role.Verifier? ==> Readings(calls, Worker) != [])
    && (WellFormed(id) ==>
          Unused(calls, id) && (id.role.Verifier? ==> Sealed(calls, Worker) && Sealed(calls, Egress)))
  }

  /** A reading of a role that runs, under its identity, not below its last and within the budget. */
  predicate MayRead(calls: seq<Call>, budget: int, id: CpuIdentity, usage: int) {
    var us := Readings(calls, id.role);
    us != [] && !Sealed(calls, id.role) && Names(calls, id.role, id) && IsUint64(usage) && us[|us| - 1] <= usage
    && |us| < MAX_SAMPLES && Total(calls + [CallSample(id, usage)]) <= budget
  }

  predicate May(calls: seq<Call>, budget: int, call: Call) {
    match call
    case CallBegin(id, usage) => MayBegin(calls, id, usage)
    case CallSample(id, usage) => MayRead(calls, budget, id, usage)
    case CallFinish(id, usage) =>
      MayRead(calls, budget, id, usage)
      && (id.role.Egress? ==> Readings(calls, Worker) == [] || Sealed(calls, Worker))
    case CallFinalize => Sealed(calls, Egress) && Sealed(calls, Worker) && Sealed(calls, Verifier)
  }

  lemma {:induction false} SomeRead(calls: seq<Call>, r: Role)
    requires Readings(calls, r) != []
    ensures exists c | c in calls :: Reads(c, r)
  {
    var front, call := calls[..|calls| - 1], calls[|calls| - 1];
    assert call in calls;
    if !Reads(call, r) {
      SomeRead(front, r);
      var c :| c in front && Reads(c, r);
      assert c in calls;
    }
  }

  lemma NamesExactly(l: Ledger, calls: seq<Call>, r: Role, id: CpuIdentity)
    requires Told(l, calls, r) && r in l.roles
    ensures Names(calls, r, id) <==> l.roles[r].id == id
  {
    SomeRead(calls, r);
  }

  lemma UnusedExactly(l: Ledger, calls: seq<Call>, id: CpuIdentity)
    requires forall r :: Told(l, calls, r)
    ensures Unused(calls, id) <==> !Reuses(l, id)
  {
    forall c | c in calls && !c.CallFinalize? && Reads(c, c.id.role)
      ensures c.id.role in l.roles && l.roles[c.id.role].id == c.id
    {
      var r := c.id.role;
      assert Told(l, calls, r);
      if Readings(calls, r) == [] {
        NoneRead(calls, r);
      }
    }
    forall r | r in l.roles
      ensures exists c | c in calls :: !c.CallFinalize? && Reads(c, c.id.role) && c.id == l.roles[r].id
    {
      assert Told(l, calls, r);
      SomeRead(calls, r);
      var c :| c in calls && Reads(c, r);
      assert c.id == l.roles[r].id;
    }
  }

  lemma BeginExactly(l: Ledger, calls: seq<Call>, id: CpuIdentity, usage: int)
    requires Kept(l) && Mutable(l) && forall r :: Told(l, calls, r)
    ensures !BeginRole(l, id, usage).failed <==> MayBegin(calls, id, usage)
  {
    RolesCount(l);
    UnusedExactly(l, calls, id);
    assert Told(l, calls, Egress) && Told(l, calls, Worker) && Told(l, calls, Verifier);
    assert |l.roles| < 3 ==> (ROLES[|l.roles|] == id.role <==>
      id.role !in l.roles && (id.role.Worker? ==> Egress in l.roles) && (id.role.Verifier? ==> Worker in l.roles));
  }

  lemma ReadingsWith(calls: seq<Call>, id: CpuIdentity, usage: int, r: Role)
    ensures Readings(calls + [CallSample(id, usage)], r)
         == Readings(calls, r) + if r == id.role then [usage] else []
  {
    assert (calls + [CallSample(id, usage)])[..|calls|] == calls;
  }

  lemma SpentTold(l: Ledger, calls: seq<Call>, r: Role)
    requires Told(l, calls, r)
    ensures Spent(l, r) == SpentBy(Readings(calls, r))
  {}

  lemma SpentWith(l: Ledger, l': Ledger, calls: seq<Call>, id: CpuIdentity, usage: int, r: Role)
    requires Told(l, calls, r) && (r in l'.roles <==> r in l.roles)
    requires r in l.roles ==> l'.roles[r].baseline == l.roles[r].baseline
                              && l'.roles[r].last == if r == id.role then usage else l.roles[r].last
    requires r == id.role ==> r in l.roles
    ensures SpentBy(Readings(calls + [CallSample(id, usage)], r)) == Spent(l', r)
  {
    ReadingsWith(calls, id, usage, r);
    SpentTold(l, calls, r);
  }

  lemma TotalWith(l: Ledger, calls: seq<Call>, id: CpuIdentity, usage: int)
    requires (forall r :: Told(l, calls, r)) && id.role in l.roles
    ensures var st := l.roles[id.role];
            Total(calls + [CallSample(id, usage)]) == Aggregate(l.(roles := l.roles[id.role := st.(last := usage,
              samples := st.samples + 1)]))
  {
    var st := l.roles[id.role];
    var l' := l.(roles := l.roles[id.role := st.(last := usage, samples := st.samples + 1)]);
    SpentWith(l, l', calls, id, usage, Egress);
    SpentWith(l, l', calls, id, usage, Worker);
    SpentWith(l, l', calls, id, usage, Verifier);
  }

  lemma SampleExactly(l: Ledger, calls: seq<Call>, id: CpuIdentity, usage: int)
    requires Mutable(l) && forall r :: Told(l, calls, r)
    ensures !SampleRole(l, id, usage).failed <==> MayRead(calls, l.budget, id, usage)
  {
    var r := id.role;
    assert Told(l, calls, r);
    if r in l.roles {
      NamesExactly(l, calls, r, id);
      TotalWith(l, calls, id, usage);
    }
  }

  lemma FinishExactly(l: Ledger, calls: seq<Call>, id: CpuIdentity, usage: int)
    requires Mutable(l) && forall r :: Told(l, calls, r)
    ensures !FinishRole(l, id, usage).failed <==> May(calls, l.budget, CallFinish(id, usage))
  {
    SampleExactly(l, calls, id, usage);
    assert Told(l, calls, Worker);
  }

  lemma FinalizeExactly(l: Ledger, calls: seq<Call>)
    requires Kept(l) && Mutable(l) && forall r :: Told(l, calls, r)
    ensures !Finalize(l).0.failed <==> May(calls, l.budget, CallFinalize)
    ensures Finalize(l).1.Some? <==> May(calls, l.budget, CallFinalize)
  {
    FinalizeParses(l);
    assert Told(l, calls, Egress) && Told(l, calls, Worker) && Told(l, calls, Verifier);
    assert RoleKept(l, Egress) && RoleKept(l, Worker) && RoleKept(l, Verifier);
    if IsSealed(l, Egress) && IsSealed(l, Worker) && IsSealed(l, Verifier) {
      forall r: Role
        ensures r in l.roles && l.roles[r].final.Some? && l.roles[r].samples >= 2
      {
        match r { case Egress => case Worker => case Verifier => }
      }
    }
  }

  lemma CallBudget(l: Ledger, call: Call)
    ensures var l' := Perform(l, call);
            l'.budget == l.budget && l'.requestSha256 == l.requestSha256 && l'.bindingSha256 == l.bindingSha256
  {
    match call { case CallBegin(_, _) => case CallSample(_, _) => case CallFinish(_, _) => case CallFinalize => }
  }

  lemma {:induction false} RunBudget(requestSha256: string, bindingSha256: string, budget: int, calls: seq<Call>)
    ensures var l := Run(requestSha256, bindingSha256, budget, calls);
            l.budget == budget && l.requestSha256 == requestSha256 && l.bindingSha256 == bindingSha256
  {
    if calls != [] {
      var front := calls[..|calls| - 1];
      RunBudget(requestSha256, bindingSha256, budget, front);
      CallBudget(Run(requestSha256, bindingSha256, budget, front), calls[|calls| - 1]);
    }
  }

  /** A call poisons a ledger that was not exactly when the calls before it do not allow it. */
  lemma PoisonsExactly(requestSha256: string, bindingSha256: string, budget: int, calls: seq<Call>, call: Call)
    requires IsSha256(requestSha256) && IsSha256(bindingSha256) && 1 <= budget <= MAX_UINT64
    requires Mutable(Run(requestSha256, bindingSha256, budget, calls))
    ensures !Run(requestSha256, bindingSha256, budget, calls + [call]).failed <==> May(calls, budget, call)
  {
    var l := Run(requestSha256, bindingSha256, budget, calls);
    assert (calls + [call])[..|calls|] == calls;
    RunKept(requestSha256, bindingSha256, budget, calls);
    RunBudget(requestSha256, bindingSha256, budget, calls);
    forall r
      ensures Told(l, calls, r)
    {
      RunTold(requestSha256, bindingSha256, budget, calls, r);
    }
    match call
    case CallBegin(id, usage) => BeginExactly(l, calls, id, usage);
    case CallSample(id, usage) => SampleExactly(l, calls, id, usage);
    case CallFinish(id, usage) => FinishExactly(l, calls, id, usage);
    case CallFinalize => FinalizeExactly(l, calls);
  }

  // ---- what a proof says ----

  /** The proof of one role says what its readings were. */
  ghost predicate ProofTold(p: CpuRoleProof, calls: seq<Call>, r: Role) {
    var us := Readings(calls, r);
    us != [] && p.role == r && Names(calls, r, p.id) && p.baseline == us[0] && p.final == us[|us| - 1]
      && p.delta == us[|us| - 1] - us[0] && p.samples == |us|
  }

  /** The proof of a whole run says what its calls were. */
  ghost predicate Reports(p: CpuProof, requestSha256: string, bindingSha256: string, budget: int, calls: seq<Call>) {
    p.requestSha256 == requestSha256 && p.bindingSha256 == bindingSha256 && p.budget == budget
    && p.aggregate == Total(calls) <= budget
    && |p.roles| == 3 && ProofTold(p.roles[0], calls, Egress) && ProofTold(p.roles[1], calls, Worker)
      && ProofTold(p.roles[2], calls, Verifier)
  }

  lemma RoleProofTells(l: Ledger, calls: seq<Call>, r: Role)
    requires Told(l, calls, r) && IsSealed(l, r)
    ensures ProofTold(ProofOf(r, l.roles[r]), calls, r)
  {}

  lemma TotalTold(l: Ledger, calls: seq<Call>)
    requires forall r :: Told(l, calls, r)
    ensures Aggregate(l) == Total(calls)
  {
    SpentTold(l, calls, Egress);
    SpentTold(l, calls, Worker);
    SpentTold(l, calls, Verifier);
  }

  lemma BuildReports(l: Ledger, calls: seq<Call>)
    requires AllSealed(l) && Aggregate(l) <= l.budget && forall r :: Told(l, calls, r)
    ensures Reports(Build(l), l.requestSha256, l.bindingSha256, l.budget, calls)
  {
    TotalTold(l, calls);
    RoleProofTells(l, calls, Egress);
    RoleProofTells(l, calls, Worker);
    RoleProofTells(l, calls, Verifier);
  }

  /** A finalization gives a proof exactly when the three roles were sealed, and the proof reports
      for each the first and the last reading and their number, and as aggregate what the readings
      sum up to. */
  lemma ProofTells(requestSha256: string, bindingSha256: string, budget: int, calls: seq<Call>)
    requires IsSha256(requestSha256) && IsSha256(bindingSha256) && 1 <= budget <= MAX_UINT64
    requires Mutable(Run(requestSha256, bindingSha256, budget, calls))
    ensures var proof := Finalize(Run(requestSha256, bindingSha256, budget, calls)).1;
            (proof.Some? <==> Sealed(calls, Egress) && Sealed(calls, Worker) && Sealed(calls, Verifier))
            && (proof.Some? ==> Reports(proof.value, requestSha256, bindingSha256, budget, calls))
  {
    var l := Run(requestSha256, bindingSha256, budget, calls);
    RunKept(requestSha256, bindingSha256, budget, calls);
    RunBudget(requestSha256, bindingSha256, budget, calls);
    forall r
      ensures Told(l, calls, r)
    {
      RunTold(requestSha256, bindingSha256, budget, calls, r);
    }
    FinalizeExactly(l, calls);
    if Finalize(l).1.Some? {
      BuildReports(l, calls);
    }
  }

  // ---- a run in which everything goes well ----

  /** Three identities a ledger can tell apart. */
  predicate Distinct(e: CpuIdentity, w: CpuIdentity, v: CpuIdentity) {
    e.role.Egress? && w.role.Worker? && v.role.Verifier? && WellFormed(e) && WellFormed(w) && WellFormed(v)
    && e.containerId != w.containerId && e.containerId != v.containerId && w.containerId != v.containerId
    && e.cgroup != w.cgroup && e.cgroup != v.cgroup && w.cgroup != v.cgroup
  }

  predicate Usages(a: int, b: int) { 0 <= a <= b <= MAX_UINT64 }

  /** Egress and the worker begin, the worker is sealed and then egress, and the verifier begins and
      is sealed. */
  function HealthyCalls(e: CpuIdentity, w: CpuIdentity, v: CpuIdentity, us: seq<int>): seq<Call>
    requires |us| == 6
  {
    [CallBegin(e, us[0]), CallBegin(w, us[1]), CallFinish(w, us[2]), CallFinish(e, us[3]), CallBegin(v, us[4]),
     CallFinish(v, us[5])]
  }

  function Held(id: CpuIdentity, first: int, last: int): CpuRole { CpuRole(id, first, last, Some(last), 2) }

  lemma EgressAndWorker(l: Ledger, e: CpuIdentity, w: CpuIdentity, us: seq<int>)
    requires Mutable(l) && l.roles == map[] && |us| == 6 && Usages(us[0], us[3]) && Usages(us[1], us[2])
    requires e.role.Egress? && w.role.Worker? && WellFormed(e) && WellFormed(w)
             && e.containerId != w.containerId && e.cgroup != w.cgroup
    ensures var l' := BeginRole(BeginRole(l, e, us[0]), w, us[1]);
            l' == l.(roles := map[Egress := CpuRole(e, us[0], us[0], None, 1), Worker := CpuRole(w, us[1], us[1], None,
              1)], log := l'.log)
  {
    var l1 := BeginRole(l, e, us[0]);
    assert l1.roles == map[Egress := CpuRole(e, us[0], us[0], None, 1)];
  }

  lemma BothSealed(l: Ledger, e: CpuIdentity, w: CpuIdentity, us: seq<int>)
    requires Mutable(l) && |us| == 6 && Usages(us[0], us[3]) && Usages(us[1], us[2])
    requires e.role.Egress? && w.role.Worker? && us[3] - us[0] + us[2] - us[1] <= l.budget
    requires l.roles == map[Egress := CpuRole(e, us[0], us[0], None, 1), Worker := CpuRole(w, us[1], us[1], None, 1)]
    ensures var l' := FinishRole(FinishRole(l, w, us[2]), e, us[3]);
            l' == l.(roles := map[Egress := Held(e, us[0], us[3]), Worker := Held(w, us[1], us[2])], log := l'.log)
  {
    var l1 := FinishRole(l, w, us[2]);
    assert l1.roles == map[Egress := CpuRole(e, us[0], us[0], None, 1), Worker := Held(w, us[1], us[2])];
  }

  lemma VerifierSealed(l: Ledger, e: CpuIdentity, w: CpuIdentity, v: CpuIdentity, us: seq<int>)
    requires Mutable(l) && Distinct(e, w, v) && |us| == 6 && Usages(us[4], us[5])
    requires us[3] - us[0] + us[2] - us[1] + us[5] - us[4] <= l.budget
    requires us[3] - us[0] + us[2] - us[1] >= 0
    requires l.roles == map[Egress := Held(e, us[0], us[3]), Worker := Held(w, us[1], us[2])]
    ensures var l' := FinishRole(BeginRole(l, v, us[4]), v, us[5]);
            l' == l.(roles := l.roles[Verifier := Held(v, us[4], us[5])], log := l'.log)
  {
    assert l.roles.Keys == {Egress, Worker} && |l.roles| == 2;
    var l1 := BeginRole(l, v, us[4]);
    assert l1.roles == l.roles[Verifier := CpuRole(v, us[4], us[4], None, 1)];
  }

  lemma HealthySteps(l: Ledger, calls: seq<Call>)
    requires |calls| == 6 && l == Run(l.requestSha256, l.bindingSha256, l.budget, [])
    ensures Run(l.requestSha256, l.bindingSha256, l.budget, calls)
            == Perform(Perform(Perform(Perform(Perform(Perform(l, calls[0]), calls[1]), calls[2]), calls[3]),
              calls[4]), calls[5])
  {
    assert calls[..5] == calls[..6][..5] && calls[..4] == calls[..5][..4] && calls[..3] == calls[..4][..3];
    assert calls[..2] == calls[..3][..2] && calls[..1] == calls[..2][..1] && calls[..0] == calls[..1][..0] == [];
    assert calls[..6] == calls;
    RunStep(l, calls, 6);
    RunStep(l, calls, 5);
    RunStep(l, calls, 4);
    RunStep(l, calls, 3);
    RunStep(l, calls, 2);
    RunStep(l, calls, 1);
  }

  lemma RunStep(l: Ledger, calls: seq<Call>, n: nat)
    requires 0 < n <= |calls|
    ensures Run(l.requestSha256, l.bindingSha256, l.budget, calls[..n])
            == Perform(Run(l.requestSha256, l.bindingSha256, l.budget, calls[..n - 1]), calls[n - 1])
  {
    assert calls[..n][..n - 1] == calls[..n - 1];
  }

  /** The six readings rise in each role, and their sum is within the budget. */
  predicate Affordable(us: seq<int>, budget: int) {
    |us| == 6 && Usages(us[0], us[3]) && Usages(us[1], us[2]) && Usages(us[4], us[5])
    && us[3] - us[0] + us[2] - us[1] + us[5] - us[4] <= budget
  }

  lemma HealthyLedger(l: Ledger, e: CpuIdentity, w: CpuIdentity, v: CpuIdentity, us: seq<int>)
    requires Distinct(e, w, v) && Affordable(us, l.budget)
    requires l == Run(l.requestSha256, l.bindingSha256, l.budget, [])
    ensures var l' := Run(l.requestSha256, l.bindingSha256, l.budget, HealthyCalls(e, w, v, us));
            l' == l.(roles := map[Egress := Held(e, us[0], us[3]), Worker := Held(w, us[1], us[2]),
                                  Verifier := Held(v, us[4], us[5])], log := l'.log)
  {
    HealthySteps(l, HealthyCalls(e, w, v, us));
    EgressAndWorker(l, e, w, us);
    var l2 := BeginRole(BeginRole(l, e, us[0]), w, us[1]);
    BothSealed(l2, e, w, us);
    VerifierSealed(FinishRole(FinishRole(l2, w, us[2]), e, us[3]), e, w, v, us);
  }

  function HealthyProof(requestSha256: string, bindingSha256: string, budget: int, e: CpuIdentity, w: CpuIdentity,
                        v: CpuIdentity, us: seq<int>): CpuProof
    requires |us| == 6
  {
    CpuProof(requestSha256, bindingSha256, budget, us[3] - us[0] + us[2] - us[1] + us[5] - us[4],
             [CpuRoleProof(Egress, e, us[0], us[3], us[3] - us[0], 2),
              CpuRoleProof(Worker, w, us[1], us[2], us[2] - us[1], 2),
              CpuRoleProof(Verifier, v, us[4], us[5], us[5] - us[4], 2)])
  }

  lemma HeldProof(l: Ledger, e: CpuIdentity, w: CpuIdentity, v: CpuIdentity, us: seq<int>)
    requires |us| == 6 && l.roles == map[Egress := Held(e, us[0], us[3]), Worker := Held(w, us[1], us[2]),
                                         Verifier := Held(v, us[4], us[5])]
    ensures AllSealed(l) && Build(l) == HealthyProof(l.requestSha256, l.bindingSha256, l.budget, e, w, v, us)
  {
    forall r: Role
      ensures r in l.roles && l.roles[r].final.Some? && l.roles[r].samples >= 2
    {
      match r { case Egress => case Worker => case Verifier => }
    }
  }

  /** Whatever the identities and the six readings: the run is never poisoned and ends with a proof
      that reports them. */
  lemma HealthyRunProves(requestSha256: string, bindingSha256: string, budget: int, e: CpuIdentity, w: CpuIdentity,
                         v: CpuIdentity, us: seq<int>)
    requires IsSha256(requestSha256) && IsSha256(bindingSha256) && 1 <= budget <= MAX_UINT64
    requires Distinct(e, w, v) && Affordable(us, budget)
    ensures Finalize(Run(requestSha256, bindingSha256, budget, HealthyCalls(e, w, v, us))).1
            == Some(HealthyProof(requestSha256, bindingSha256, budget, e, w, v, us))
  {
    HealthyLedger(Run(requestSha256, bindingSha256, budget, []), e, w, v, us);
    var l := Run(requestSha256, bindingSha256, budget, HealthyCalls(e, w, v, us));
    RunKept(requestSha256, bindingSha256, budget, HealthyCalls(e, w, v, us));
    HeldProof(l, e, w, v, us);
    FinalizeParses(l);
  }
}
