/** The CPU ledger of a dedicated lifecycle: baselines, latest readings and recorded samples. */
module LifecycleLedger {
  import opened Evidence

  datatype LifecycleCode =
    | BudgetExceeded | ExecutionAborted | RawClockInvalid | RevalidationFailed
    | CounterInvalid | ExecutionFailed | OperationFailed

  datatype PortSample = PortSample(ns: int, usage: int, populated: bool, processes: int)

  datatype Sample = Sample(sequence: nat, ns: int, role: Role, usage: int, cumulative: int)

  datatype Ledger = Ledger(baselines: map<Role, int>, latest: map<Role, int>, lastNs: Option<int>,
                           cumulative: int, samples: seq<Sample>)

  const NEW_LEDGER := Ledger(map[], map[], None, 0, [])

  function Used(l: Ledger, r: Role): int {
    if r in l.baselines && r in l.latest then l.latest[r] - l.baselines[r] else 0
  }

  function Total(l: Ledger): int { Used(l, Egress) + Used(l, Worker) + Used(l, Verifier) }

  function SetBaseline(l: Ledger, r: Role, baseline: int): Ledger {
    l.(baselines := l.baselines[r := baseline], latest := l.latest[r := baseline])
  }

  predicate ValidPortSample(s: PortSample) {
    IsUint64(s.ns) && IsUint64(s.usage) && 0 <= s.processes <= 0xFFFF_FFFF
  }

  /** Records one reading; the code is what the caller is thrown, None when it returns. */
  function Record(l: Ledger, max: int, r: Role, s: PortSample, quiescent: bool): (Ledger, Option<LifecycleCode>) {
    if !ValidPortSample(s) then (l, Some(CounterInvalid))
    else if l.lastNs.Some? && s.ns <= l.lastNs.value then (l, Some(RawClockInvalid))
    else if quiescent && (s.populated || s.processes != 0) then (l, Some(RevalidationFailed))
    else if r !in l.baselines || s.usage < l.baselines[r] || (r in l.latest && s.usage < l.latest[r]) then
      (l, Some(CounterInvalid))
    else
      var read := l.(lastNs := Some(s.ns), latest := l.latest[r := s.usage]);
      if Total(read) > MAX_UINT64 then (read, Some(CounterInvalid))
      else
        var total := Total(read);
        (read.(cumulative := total, samples := l.samples + [Sample(|l.samples|, s.ns, r, s.usage, total)]),
         if total > max then Some(BudgetExceeded) else None)
  }

  // ---- what the samples alone say ----

  /** The usage of the role's last sample, or its baseline before any. */
  function LatestIn(samples: seq<Sample>, r: Role, baseline: int): int {
    if samples == [] then baseline
    else if samples[|samples| - 1].role == r then samples[|samples| - 1].usage
    else LatestIn(samples[..|samples| - 1], r, baseline)
  }

  function UsedIn(baselines: map<Role, int>, samples: seq<Sample>, r: Role): int {
    if r in baselines then LatestIn(samples, r, baselines[r]) - baselines[r] else 0
  }

  /** The sum over the roles of their last sampled usage above their baseline. */
  function TotalIn(baselines: map<Role, int>, samples: seq<Sample>): int {
    UsedIn(baselines, samples, Egress) + UsedIn(baselines, samples, Worker) + UsedIn(baselines, samples, Verifier)
  }

  ghost predicate SampleKept(l: Ledger, k: int) {
    0 <= k < |l.samples| ==>
      l.samples[k].sequence == k && l.samples[k].role in l.baselines
      && l.samples[k].cumulative == TotalIn(l.baselines, l.samples[..k + 1]) <= l.cumulative
  }

  ghost predicate InOrder(samples: seq<Sample>, i: int, j: int) {
    0 <= i < j < |samples| ==> samples[i].ns < samples[j].ns && samples[i].cumulative <= samples[j].cumulative
  }

  ghost predicate ReadingKept(l: Ledger, r: Role) {
    (r in l.baselines <==> r in l.latest)
    && (r in l.baselines ==>
          IsUint64(l.baselines[r]) && IsUint64(l.latest[r])
          && l.baselines[r] <= LatestIn(l.samples, r, l.baselines[r]) <= l.latest[r])
  }

  function LastNs(samples: seq<Sample>): Option<int> {
    if samples == [] then None else Some(samples[|samples| - 1].ns)
  }

  /** Some reading overflowed the sum, and was kept without being recorded. */
  ghost predicate Overflowed(l: Ledger) { Total(l) > MAX_UINT64 }

  ghost predicate WellKept(l: Ledger) {
    (forall r :: ReadingKept(l, r)) && (forall k :: SampleKept(l, k)) && (forall i, j :: InOrder(l.samples, i, j))
    && l.cumulative == TotalIn(l.baselines, l.samples) <= MAX_UINT64
    && (!Overflowed(l) ==> l.cumulative == Total(l) && l.lastNs == LastNs(l.samples))
    && (l.samples != [] ==> l.lastNs.Some? && l.samples[|l.samples| - 1].ns <= l.lastNs.value)
  }

  lemma LatestAppend(samples: seq<Sample>, s: Sample, r: Role, baseline: int)
    ensures LatestIn(samples + [s], r, baseline) == if s.role == r then s.usage else LatestIn(samples, r, baseline)
  {
    assert (samples + [s])[..|samples|] == samples;
  }

  lemma {:induction false} NoSampleNoUse(samples: seq<Sample>, r: Role, baseline: int)
    requires forall k | 0 <= k < |samples| :: samples[k].role != r
    ensures LatestIn(samples, r, baseline) == baseline
  {
    if samples != [] {
      NoSampleNoUse(samples[..|samples| - 1], r, baseline);
    }
  }

  /** A new baseline adds nothing to any sum, past or present. */
  lemma BaselineKeeps(l: Ledger, r: Role, baseline: int)
    requires WellKept(l) && r !in l.baselines && IsUint64(baseline)
    ensures WellKept(SetBaseline(l, r, baseline))
  {
    var l' := SetBaseline(l, r, baseline);
    forall k | 0 <= k < |l.samples|
      ensures l.samples[k].role != r
    {
      assert SampleKept(l, k);
    }
    NoSampleNoUse(l.samples, r, baseline);
    forall q
      ensures ReadingKept(l', q)
    {
      assert ReadingKept(l, q);
    }
    forall k
      ensures SampleKept(l', k)
    {
      assert SampleKept(l, k);
      if 0 <= k < |l.samples| {
        NoSampleNoUse(l.samples[..k + 1], r, baseline);
      }
    }
  }

  lemma UsedNeverFalls(l: Ledger, r: Role, usage: int)
    requires WellKept(l) && r in l.baselines && r in l.latest && l.latest[r] <= usage
    ensures Total(l) <= Total(l.(latest := l.latest[r := usage]))
  {
    assert ReadingKept(l, r);
  }

  /** Without an overflow, what is read is what is recorded. */
  lemma ReadIsRecorded(l: Ledger, r: Role)
    requires WellKept(l) && !Overflowed(l)
    ensures Used(l, r) == UsedIn(l.baselines, l.samples, r)
  {
    assert ReadingKept(l, Egress) && ReadingKept(l, Worker) && ReadingKept(l, Verifier);
    match r { case Egress => case Worker => case Verifier => }
  }

  lemma UsedInAppend(baselines: map<Role, int>, samples: seq<Sample>, s: Sample, r: Role)
    ensures UsedIn(baselines, samples + [s], r)
         == if r in baselines && s.role == r then s.usage - baselines[r] else UsedIn(baselines, samples, r)
  {
    if r in baselines {
      LatestAppend(samples, s, r, baselines[r]);
    }
  }

  /** One more sample, of a counter that has not fallen, and the sum it gives. */
  ghost predicate Adds(l: Ledger, l': Ledger, r: Role, added: Sample) {
    r in l.baselines && (r in l.latest ==> l.latest[r] <= added.usage) && added.role == r
    && l'.baselines == l.baselines && l'.latest == l.latest[r := added.usage] && l'.samples == l.samples + [added]
    && l'.cumulative == Total(l') <= MAX_UINT64
  }

  lemma RecordAdds(l: Ledger, max: int, r: Role, s: PortSample, quiescent: bool)
    requires var (l', code) := Record(l, max, r, s, quiescent); code.None? || code.value.BudgetExceeded?
    ensures var l' := Record(l, max, r, s, quiescent).0;
            |l'.samples| == |l.samples| + 1 && Adds(l, l', r, l'.samples[|l.samples|])
  {}

  lemma AddedTotals(l: Ledger, l': Ledger, r: Role, added: Sample)
    requires WellKept(l) && Adds(l, l', r, added)
    ensures !Overflowed(l') && l'.cumulative == Total(l') == TotalIn(l'.baselines, l'.samples)
            && l.cumulative <= l'.cumulative
  {
    assert ReadingKept(l, r);
    UsedNeverFalls(l, r, added.usage);
    assert Total(l') == Total(l.(latest := l.latest[r := added.usage]));
    RoleTotals(l, l', added, r, Egress);
    RoleTotals(l, l', added, r, Worker);
    RoleTotals(l, l', added, r, Verifier);
  }

  /** The recorded sum after a recording is the sum of what has been read. */
  lemma RecordTotals(l: Ledger, max: int, r: Role, s: PortSample, quiescent: bool)
    requires WellKept(l)
    requires var (l', code) := Record(l, max, r, s, quiescent); code.None? || code.value.BudgetExceeded?
    ensures var l' := Record(l, max, r, s, quiescent).0;
            !Overflowed(l') && l'.cumulative == Total(l') == TotalIn(l'.baselines, l'.samples)
              && l.cumulative <= l'.cumulative
  {
    var l' := Record(l, max, r, s, quiescent).0;
    RecordAdds(l, max, r, s, quiescent);
    AddedTotals(l, l', r, l'.samples[|l.samples|]);
  }

  lemma RoleTotals(l: Ledger, l': Ledger, added: Sample, r: Role, q: Role)
    requires WellKept(l) && !Overflowed(l) && r in l.baselines && added.role == r
    requires l'.baselines == l.baselines && l'.samples == l.samples + [added] && l'.latest == l.latest[r := added.usage]
    ensures UsedIn(l'.baselines, l'.samples, q) == Used(l', q)
  {
    ReadIsRecorded(l, q);
    UsedInAppend(l.baselines, l.samples, added, q);
  }

  lemma RecordAppends(l: Ledger, max: int, r: Role, s: PortSample, quiescent: bool)
    requires WellKept(l)
    requires var (l', code) := Record(l, max, r, s, quiescent); code.None? || code.value.BudgetExceeded?
    ensures WellKept(Record(l, max, r, s, quiescent).0)
  {
    var l' := Record(l, max, r, s, quiescent).0;
    var added := l'.samples[|l.samples|];
    RecordTotals(l, max, r, s, quiescent);
    forall q
      ensures ReadingKept(l', q)
    {
      assert ReadingKept(l, q);
      if q in l.baselines {
        LatestAppend(l.samples, added, q, l.baselines[q]);
      }
    }
    forall k
      ensures SampleKept(l', k)
    {
      assert SampleKept(l, k);
      if 0 <= k < |l.samples| {
        assert l'.samples[..k + 1] == l.samples[..k + 1];
      } else if k == |l.samples| {
        assert l'.samples[..k + 1] == l'.samples;
      }
    }
    forall i, j
      ensures InOrder(l'.samples, i, j)
    {
      assert InOrder(l.samples, i, j) && InOrder(l.samples, i, |l.samples| - 1) && SampleKept(l, i);
    }
  }

  /** Every recording, successful or not, keeps the ledger. */
  lemma RecordKeeps(l: Ledger, max: int, r: Role, s: PortSample, quiescent: bool)
    requires WellKept(l)
    ensures WellKept(Record(l, max, r, s, quiescent).0)
  {
    var (l', code) := Record(l, max, r, s, quiescent);
    if code.None? || code.value.BudgetExceeded? {
      RecordAppends(l, max, r, s, quiescent);
    } else {
      assert ReadingKept(l, r);
      if r in l.baselines && l.latest[r] <= s.usage {
        UsedNeverFalls(l, r, s.usage);
      }
      forall q
        ensures ReadingKept(l', q)
      {
        assert ReadingKept(l, q);
      }
      forall k
        ensures SampleKept(l', k)
      {
        assert SampleKept(l, k);
      }
    }
  }

  /** A recording is seen by its caller exactly as the samples show it: appended within the
      budget, appended over it, or not appended at all. */
  lemma RecordReports(l: Ledger, max: int, r: Role, s: PortSample, quiescent: bool)
    requires WellKept(l)
    ensures var (l', code) := Record(l, max, r, s, quiescent);
            (code.None? <==> |l'.samples| == |l.samples| + 1 && l'.cumulative <= max)
            && (code == Some(BudgetExceeded) <==> |l'.samples| == |l.samples| + 1 && l'.cumulative > max)
            && (l'.samples == l.samples || (l'.samples == l.samples + [l'.samples[|l.samples|]]
              && l'.samples[|l.samples|].usage == s.usage
                                                && l'.samples[|l.samples|].role == r))
            && l.cumulative <= l'.cumulative
  {
    var (l', code) := Record(l, max, r, s, quiescent);
    if code.None? || code.value.BudgetExceeded? {
      RecordTotals(l, max, r, s, quiescent);
    }
  }

  /** A reading that the samples so far allow. */
  predicate Readable(l: Ledger, r: Role, s: PortSample, quiescent: bool) {
    ValidPortSample(s) && (l.samples != [] ==> l.samples[|l.samples| - 1].ns < s.ns)
    && (quiescent ==> !s.populated && s.processes == 0)
    && r in l.baselines && LatestIn(l.samples, r, l.baselines[r]) <= s.usage
  }

  /** The sum the samples would have with one more reading. */
  function SumWith(l: Ledger, r: Role, usage: int): int
    requires r in l.baselines
  {
    TotalIn(l.baselines, l.samples) - LatestIn(l.samples, r, l.baselines[r]) + usage
  }

  /** Told on the samples alone: a reading is recorded exactly when they allow it and the sum
      stays in range, without a word exactly when it stays within the budget; and each code is
      thrown for its own fault, in this order. */
  lemma RecordExactly(l: Ledger, max: int, r: Role, s: PortSample, quiescent: bool)
    requires WellKept(l) && !Overflowed(l)
    ensures var (l', code) := Record(l, max, r, s, quiescent);
            var late := l.samples != [] && s.ns <= l.samples[|l.samples| - 1].ns;
            (code.None? <==> Readable(l, r, s, quiescent) && SumWith(l, r, s.usage) <= MAX_UINT64
                             && SumWith(l, r, s.usage) <= max)
            && (code == Some(BudgetExceeded) <==>
                  Readable(l, r, s, quiescent) && SumWith(l, r, s.usage) <= MAX_UINT64 && SumWith(l, r, s.usage) > max)
            && (code == Some(RawClockInvalid) <==> ValidPortSample(s) && late)
            && (code == Some(RevalidationFailed) <==>
                  ValidPortSample(s) && !late && quiescent && (s.populated || s.processes != 0))
            && code != Some(ExecutionAborted) && code != Some(ExecutionFailed) && code != Some(OperationFailed)
            && l'.samples == l.samples + if code.None? || code.value.BudgetExceeded?
                then [Sample(|l.samples|, s.ns, r, s.usage, SumWith(l, r, s.usage))] else []
  {
    assert ReadingKept(l, r);
    ReadIsRecorded(l, r);
    TotalsAgree(l, r, s.usage);
  }

  lemma TotalsAgree(l: Ledger, r: Role, usage: int)
    requires WellKept(l) && !Overflowed(l)
    ensures r in l.baselines ==>
              Total(l.(latest := l.latest[r := usage])) == Total(l) - Used(l, r) + usage - l.baselines[r]
              && TotalIn(l.baselines, l.samples) == Total(l) && UsedIn(l.baselines, l.samples, r) == Used(l, r)
  {
    ReadIsRecorded(l, r);
  }

  // ---- whose samples ----

  function RolesOf(samples: seq<Sample>): seq<Role> {
    if samples == [] then [] else RolesOf(samples[..|samples| - 1]) + [samples[|samples| - 1].role]
  }

  lemma {:induction false} RoleSampled(samples: seq<Sample>, more: seq<Sample>, r: Role)
    requires samples <= more && r in RolesOf(samples)
    ensures r in RolesOf(more)
  {
    if |samples| < |more| {
      assert samples <= more[..|more| - 1];
      RoleSampled(samples, more[..|more| - 1], r);
    } else {
      assert samples == more;
    }
  }

  /** The roles whose turn it is among the first `n`, in their fixed order. */
  function Turns(active: set<Role>, n: nat): seq<Role>
    requires n <= 3
  {
    if n == 0 then [] else Turns(active, n - 1) + if ROLES[n - 1] in active then [ROLES[n - 1]] else []
  }

  /** Whole rounds of turns. */
  function Rounds(active: set<Role>, n: nat): seq<Role> {
    if n == 0 then [] else Rounds(active, n - 1) + Turns(active, 3)
  }

  lemma TurnTaken(before: seq<Role>, active: set<Role>, n: nat)
    requires n < 3
    ensures before + Turns(active, n + 1)
         == if ROLES[n] in active then before + Turns(active, n) + [ROLES[n]] else before + Turns(active, n)
  {
    if ROLES[n] in active {
      assert before + Turns(active, n) + [ROLES[n]] == before + (Turns(active, n) + [ROLES[n]]);
    }
  }

  /** A recording that returns has added one sample of its role. */
  lemma RecordedRole(l: Ledger, max: int, r: Role, s: PortSample, quiescent: bool)
    ensures var (l', code) := Record(l, max, r, s, quiescent);
            l.samples <= l'.samples && (code.None? ==> RolesOf(l'.samples) == RolesOf(l.samples) + [r])
  {
    var l' := Record(l, max, r, s, quiescent).0;
    if l'.samples != l.samples {
      assert l'.samples[..|l.samples|] == l.samples;
    }
  }

  lemma RoundDone(before: seq<Role>, active: set<Role>, n: nat)
    ensures before + Rounds(active, n) + Turns(active, 3) == before + Rounds(active, n + 1)
  {
    assert before + Rounds(active, n) + Turns(active, 3) == before + (Rounds(active, n) + Turns(active, 3));
  }

  /** An overflowing sum is never recorded, and after one nothing is ever recorded again. */
  lemma OverflowIsFinal(l: Ledger, max: int, r: Role, s: PortSample, quiescent: bool)
    requires WellKept(l) && Overflowed(l)
    ensures var (l', code) := Record(l, max, r, s, quiescent);
            Overflowed(l') && l'.samples == l.samples && l'.cumulative == l.cumulative
            && code.Some? && !code.value.BudgetExceeded?
  {
    assert ReadingKept(l, r);
    if r in l.baselines && l.latest[r] <= s.usage {
      UsedNeverFalls(l, r, s.usage);
    }
  }

  /** The samples over the budget are a suffix; there are none exactly when the final sum is
      within it. */
  lemma OverBudgetIsSuffix(l: Ledger, max: nat)
    requires WellKept(l)
    ensures forall i, j | 0 <= i <= j < |l.samples| && l.samples[i].cumulative > max :: l.samples[j].cumulative > max
    ensures (forall i | 0 <= i < |l.samples| :: l.samples[i].cumulative <= max) <==> l.cumulative <= max
  {
    forall i, j | 0 <= i <= j < |l.samples| && l.samples[i].cumulative > max
      ensures l.samples[j].cumulative > max
    {
      assert InOrder(l.samples, i, j);
    }
    if l.samples == [] {
      NoSamplesNoSum(l);
    } else {
      var n := |l.samples|;
      assert SampleKept(l, n - 1) && l.samples[..n] == l.samples;
      forall i | 0 <= i < n
        ensures l.samples[i].cumulative <= l.cumulative
      {
        assert SampleKept(l, i);
      }
    }
  }

  lemma NoSamplesNoSum(l: Ledger)
    requires WellKept(l) && l.samples == []
    ensures l.cumulative == 0
  {}

  // ---- what was read, good or not ----

  /** What the port answered, in the order in which it was looked at. */
  datatype Reading = BaselineRead(role: Role, usage: int) | SampleRead(role: Role, sample: PortSample, quiescent: bool)

  function UsageRead(x: Reading): int { if x.BaselineRead? then x.usage else x.sample.usage }

  /** The last usage read of a role. */
  function LastUsage(log: seq<Reading>, r: Role): Option<int> {
    if log == [] then None
    else if log[|log| - 1].role == r then Some(UsageRead(log[|log| - 1]))
    else LastUsage(log[..|log| - 1], r)
  }

  /** The last baseline read of a role. */
  function BaselineOf(log: seq<Reading>, r: Role): Option<int> {
    if log == [] then None
    else if log[|log| - 1].BaselineRead? && log[|log| - 1].role == r then Some(log[|log| - 1].usage)
    else BaselineOf(log[..|log| - 1], r)
  }

  function LastClock(log: seq<Reading>): Option<int> {
    if log == [] then None
    else if log[|log| - 1].SampleRead? then Some(log[|log| - 1].sample.ns)
    else LastClock(log[..|log| - 1])
  }

  function SpentBy(log: seq<Reading>, r: Role): int {
    if BaselineOf(log, r).Some? && LastUsage(log, r).Some? then LastUsage(log, r).value - BaselineOf(log, r).value
      else 0
  }

  /** The CPU time read so far: each role's last usage above its baseline. */
  function Spent(log: seq<Reading>): int { SpentBy(log, Egress) + SpentBy(log, Worker) + SpentBy(log, Verifier) }

  /** A good reading: in range, its clock past the last, its usage not below the last, quiescent if
      it must be, and the CPU time within the budget. */
  predicate GoodNext(log: seq<Reading>, x: Reading, max: int) {
    match x
    case BaselineRead(_, usage) => IsUint64(usage)
    case SampleRead(r, s, quiescent) =>
      ValidPortSample(s) && (LastClock(log).Some? ==> LastClock(log).value < s.ns)
      && (quiescent ==> !s.populated && s.processes == 0) && BaselineOf(log, r).Some?
      && LastUsage(log, r).Some? && LastUsage(log, r).value <= s.usage
      && Spent(log + [x]) <= max && Spent(log + [x]) <= MAX_UINT64
  }

  predicate AllGood(log: seq<Reading>, max: int) {
    log == [] || (AllGood(log[..|log| - 1], max) && GoodNext(log[..|log| - 1], log[|log| - 1], max))
  }

  lemma GoodAppend(log: seq<Reading>, x: Reading, max: int)
    ensures AllGood(log + [x], max) <==> AllGood(log, max) && GoodNext(log, x, max)
  {
    assert (log + [x])[..|log|] == log;
  }

  lemma LogAppend(log: seq<Reading>, x: Reading, r: Role)
    ensures LastUsage(log + [x], r) == if x.role == r then Some(UsageRead(x)) else LastUsage(log, r)
    ensures BaselineOf(log + [x], r) == if x.BaselineRead? && x.role == r then Some(x.usage) else BaselineOf(log, r)
    ensures LastClock(log + [x]) == if x.SampleRead? then Some(x.sample.ns) else LastClock(log)
  {
    assert (log + [x])[..|log|] == log;
  }

  ghost predicate RoleReflected(l: Ledger, log: seq<Reading>, r: Role) {
    (r in l.baselines <==> BaselineOf(log, r).Some?)
    && (r in l.baselines ==>
          l.baselines[r] == BaselineOf(log, r).value
          && LastUsage(log, r) == Some(LatestIn(l.samples, r, l.baselines[r])))
  }

  /** The ledger holds what was read. */
  ghost predicate Reflects(l: Ledger, log: seq<Reading>) {
    !Overflowed(l) && LastNs(l.samples) == LastClock(log) && forall r :: RoleReflected(l, log, r)
  }

  lemma SpentIsTotal(l: Ledger, log: seq<Reading>)
    requires Reflects(l, log)
    ensures Spent(log) == TotalIn(l.baselines, l.samples)
  {
    assert RoleReflected(l, log, Egress) && RoleReflected(l, log, Worker) && RoleReflected(l, log, Verifier);
  }

  lemma SpentWith(l: Ledger, log: seq<Reading>, r: Role, s: PortSample, quiescent: bool)
    requires Reflects(l, log) && r in l.baselines
    ensures Spent(log + [SampleRead(r, s, quiescent)]) == SumWith(l, r, s.usage)
  {
    var x := SampleRead(r, s, quiescent);
    assert RoleReflected(l, log, Egress) && RoleReflected(l, log, Worker) && RoleReflected(l, log, Verifier);
    LogAppend(log, x, Egress);
    LogAppend(log, x, Worker);
    LogAppend(log, x, Verifier);
  }

  /** A reading is recorded without a word exactly when it is good. */
  lemma GoodIsRecorded(l: Ledger, log: seq<Reading>, max: int, r: Role, s: PortSample, quiescent: bool)
    requires WellKept(l) && Reflects(l, log)
    ensures Record(l, max, r, s, quiescent).1.None? <==> GoodNext(log, SampleRead(r, s, quiescent), max)
  {
    RecordExactly(l, max, r, s, quiescent);
    assert RoleReflected(l, log, r);
    if r in l.baselines {
      SpentWith(l, log, r, s, quiescent);
    }
  }

  lemma SampleReflects(l: Ledger, log: seq<Reading>, max: int, r: Role, s: PortSample, quiescent: bool)
    requires WellKept(l) && Reflects(l, log) && Record(l, max, r, s, quiescent).1.None?
    ensures Reflects(Record(l, max, r, s, quiescent).0, log + [SampleRead(r, s, quiescent)])
  {
    var x, l' := SampleRead(r, s, quiescent), Record(l, max, r, s, quiescent).0;
    var added := l'.samples[|l.samples|];
    RecordTotals(l, max, r, s, quiescent);
    LogAppend(log, x, r);
    forall q
      ensures RoleReflected(l', log + [x], q)
    {
      assert RoleReflected(l, log, q);
      LogAppend(log, x, q);
      if q in l.baselines {
        LatestAppend(l.samples, added, q, l.baselines[q]);
      }
    }
  }

  lemma BaselineReflects(l: Ledger, log: seq<Reading>, r: Role, baseline: int)
    requires WellKept(l) && Reflects(l, log) && r !in l.baselines && IsUint64(baseline)
    ensures Reflects(SetBaseline(l, r, baseline), log + [BaselineRead(r, baseline)])
  {
    var x, l' := BaselineRead(r, baseline), SetBaseline(l, r, baseline);
    forall k | 0 <= k < |l.samples|
      ensures l.samples[k].role != r
    {
      assert SampleKept(l, k);
    }
    NoSampleNoUse(l.samples, r, baseline);
    LogAppend(log, x, r);
    forall q
      ensures RoleReflected(l', log + [x], q)
    {
      assert RoleReflected(l, log, q);
      LogAppend(log, x, q);
    }
  }
}
