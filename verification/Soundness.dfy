/** What acceptance alone implies about a transcript, whoever produced it. */
module Soundness {
  import opened Evidence
  import opened Acceptor
  import opened Selection

  /** The CPU time of a role, read off the transcript: its last sample less its first. */
  function TranscriptUsage(events: seq<Event>, r: Role): int {
    var samples := Select(events, KSample(r));
    if samples == [] then 0 else UsageOf(samples[|samples| - 1]) - UsageOf(samples[0])
  }

  function TotalUsage(events: seq<Event>): int {
    TranscriptUsage(events, Egress) + TranscriptUsage(events, Worker) + TranscriptUsage(events, Verifier)
  }

  // ---- success: who owns a position ----

  predicate OwnedBy(e: Event, r: Role) { MentionsRole(e.body) && e.body.role == r }

  ghost predicate DeltaKept(p: RoleProof) {
    1 <= p.sampleCount == |p.samples| && p.delta == p.samples[p.sampleCount - 1] - p.samples[0]
  }

  ghost predicate SampleHere(events: seq<Event>, p: RoleProof, i: int) {
    0 <= i < |p.samplePositions| && |p.samplePositions| == |p.samples| ==>
        At(events, p.samplePositions[i], SampleBody(p, i))
  }

  /** What acceptance says of where one role's events stand. */
  ghost predicate Linked(events: seq<Event>, p: RoleProof, r: Role) {
    var b := p.id.binding;
    p.id.docker.role == r && 2 <= p.sampleCount == |p.samples| == |p.samplePositions| && Increasing(p.samplePositions)
    && At(events, p.boundAt, RoleBound(r, b)) && At(events, p.startedAt, RoleStarted(r, b))
    && At(events, p.stoppedAt, RoleStopped(r, b)) && At(events, p.releasedAt, RoleReleased(r, b))
    && forall i :: SampleHere(events, p, i)
  }

  /** The order of one role's positions: the first sample before the start, the last after the
      stop, and the others while it runs. */
  ghost predicate StepsInOrder(p: RoleProof) {
    var n := |p.samplePositions|;
    n >= 2 && p.boundAt < p.samplePositions[0] < p.startedAt < p.stoppedAt < p.samplePositions[n - 1] < p.releasedAt
    && forall i | 1 <= i < n - 1 :: p.startedAt < p.samplePositions[i] < p.stoppedAt
  }

  lemma ProofLinked(h: Hash, b: Binding, events: seq<Event>, p: RoleProof, r: Role)
    requires AcceptsRoleProof(h, b, p, r) && LinksRole(events, p)
    ensures Linked(events, p, r) && DeltaKept(p) && StepsInOrder(p)
  {
    forall i
      ensures SampleHere(events, p, i)
    {}
  }

  lemma AcceptedLinks(h: Hash, b: Binding, events: seq<Event>, roles: seq<RoleProof>, k: int)
    requires AcceptsProofs(h, b, events, roles) && 0 <= k < 3
    ensures Linked(events, roles[k], ROLES[k]) && DeltaKept(roles[k]) && StepsInOrder(roles[k])
  {
    assert ProvesRole(h, b, events, roles, k);
    ProofLinked(h, b, events, roles[k], ROLES[k]);
  }

  lemma PositionOwned(events: seq<Event>, p: RoleProof, r: Role, x: int)
    requires Linked(events, p, r) && x in PositionsOf(p)
    ensures 1 <= x <= |events| && OwnedBy(events[x - 1], r)
    ensures x in p.samplePositions <==> events[x - 1].body.CpuSample?
  {
    if x in p.samplePositions {
      var i :| 0 <= i < |p.samplePositions| && p.samplePositions[i] == x;
      assert SampleHere(events, p, i);
    }
  }

  lemma {:induction false} IncreasingCount(xs: seq<int>)
    requires Increasing(xs)
    ensures |set x | x in xs| == |xs|
  {
    if xs != [] {
      var front, last := xs[..|xs| - 1], xs[|xs| - 1];
      assert forall i, j | 0 <= i < j < |front| :: Below(front, i, j) <== Below(xs, i, j);
      IncreasingCount(front);
      assert (set x | x in xs) == (set x | x in front) + {last};
      assert forall i | 0 <= i < |front| :: front[i] < last <== Below(xs, i, |xs| - 1);
    }
  }

  lemma PositionsCount(events: seq<Event>, p: RoleProof, r: Role)
    requires Linked(events, p, r)
    ensures |PositionsOf(p)| == 4 + p.sampleCount
  {
    IncreasingCount(p.samplePositions);
    var samples := set x | x in p.samplePositions;
    var steps := {p.boundAt, p.startedAt, p.stoppedAt, p.releasedAt};
    assert |steps| == 4;
    forall x | x in steps
      ensures x !in samples
    {
      PositionOwned(events, p, r, x);
    }
    assert PositionsOf(p) == steps + samples && steps !! samples;
  }

  // ---- success: the partition ----

  ghost predicate Placed(events: seq<Event>, e: RoleProof, w: RoleProof, v: RoleProof, i: int) {
    0 <= i < |events| ==>
      i == 0 || i == |events| - 1 || i + 1 in PositionsOf(e) || i + 1 in PositionsOf(w) || i + 1 in PositionsOf(v)
  }

  /** The three linked roles and the two controller events cover the transcript exactly. */
  ghost predicate Partitioned(events: seq<Event>, e: RoleProof, w: RoleProof, v: RoleProof) {
    Linked(events, e, Egress) && Linked(events, w, Worker) && Linked(events, v, Verifier)
    && 2 <= |events| && events[0].body.ControllerStarted? && events[|events| - 1].body.ControllerStopped?
    && forall i :: Placed(events, e, w, v, i)
  }

  lemma AllPlaced(events: seq<Event>, e: RoleProof, w: RoleProof, v: RoleProof)
    requires Contiguous(events) && LinkedExactly(events, [e, w, v])
    ensures |{1, |events|} + PositionsOf(e) + PositionsOf(w) + PositionsOf(v)| == |events|
    ensures forall i :: Placed(events, e, w, v, i)
  {
    LinkedPositionsOfThree(|events|, e, w, v);
    forall i
      ensures Placed(events, e, w, v, i)
    {
      if 0 <= i < |events| {
        assert events[i].position == i + 1;
      }
    }
  }

  function ProofAt(e: RoleProof, w: RoleProof, v: RoleProof, r: Role): RoleProof {
    match r case Egress => e case Worker => w case Verifier => v
  }

  lemma ProofOwns(events: seq<Event>, e: RoleProof, w: RoleProof, v: RoleProof, r: Role, x: int)
    requires Partitioned(events, e, w, v) && x in PositionsOf(ProofAt(e, w, v, r))
    ensures 1 <= x <= |events| && OwnedBy(events[x - 1], r)
  {
    PositionOwned(events, ProofAt(e, w, v, r), r, x);
  }

  /** No position is shared, none is orphaned: an event belongs to the proof of the role it
      names and to that one only. */
  lemma OwnerIsUnique(events: seq<Event>, e: RoleProof, w: RoleProof, v: RoleProof, i: int, r: Role)
    requires Partitioned(events, e, w, v) && 0 <= i < |events|
    ensures i + 1 in PositionsOf(ProofAt(e, w, v, r)) <==> OwnedBy(events[i], r)
    ensures MentionsRole(events[i].body) <==> 0 < i < |events| - 1
  {
    assert Placed(events, e, w, v, i);
    if i + 1 in PositionsOf(e) { ProofOwns(events, e, w, v, Egress, i + 1); }
    if i + 1 in PositionsOf(w) { ProofOwns(events, e, w, v, Worker, i + 1); }
    if i + 1 in PositionsOf(v) { ProofOwns(events, e, w, v, Verifier, i + 1); }
  }

  /** The length of the transcript, from the three proofs. */
  lemma PartitionLength(events: seq<Event>, e: RoleProof, w: RoleProof, v: RoleProof)
    requires Partitioned(events, e, w, v)
    requires |{1, |events|} + PositionsOf(e) + PositionsOf(w) + PositionsOf(v)| == |events|
    ensures |events| == 2 + (4 + e.sampleCount) + (4 + w.sampleCount) + (4 + v.sampleCount)
  {
    PositionsCount(events, e, Egress);
    PositionsCount(events, w, Worker);
    PositionsCount(events, v, Verifier);
    TwoDisjoint(events, e, Egress, w, Worker);
    TwoDisjoint(events, e, Egress, v, Verifier);
    TwoDisjoint(events, w, Worker, v, Verifier);
    EndsDisjoint(events, e, Egress);
    EndsDisjoint(events, w, Worker);
    EndsDisjoint(events, v, Verifier);
    CountOfFour({1, |events|}, PositionsOf(e), PositionsOf(w), PositionsOf(v));
    assert |{1, |events|}| == 2;
  }

  lemma CountOfFour(a: set<int>, b: set<int>, c: set<int>, d: set<int>)
    requires a !! b && a !! c && a !! d && b !! c && b !! d && c !! d
    ensures |a + b + c + d| == |a| + |b| + |c| + |d|
  {
    assert (a + b) !! c && (a + b + c) !! d;
  }

  lemma TwoDisjoint(events: seq<Event>, p: RoleProof, r: Role, q: RoleProof, t: Role)
    requires Linked(events, p, r) && Linked(events, q, t) && r != t
    ensures PositionsOf(p) !! PositionsOf(q)
  {
    forall x | x in PositionsOf(p) && x in PositionsOf(q)
      ensures false
    {
      PositionOwned(events, p, r, x);
      PositionOwned(events, q, t, x);
    }
  }

  lemma EndsDisjoint(events: seq<Event>, p: RoleProof, r: Role)
    requires Linked(events, p, r) && 2 <= |events|
    requires events[0].body.ControllerStarted? && events[|events| - 1].body.ControllerStopped?
    ensures {1, |events|} !! PositionsOf(p)
  {
    forall x | x in PositionsOf(p)
      ensures x != 1 && x != |events|
    {
      PositionOwned(events, p, r, x);
    }
  }

  // ---- success: the account ----

  lemma SamplesListed(events: seq<Event>, e: RoleProof, w: RoleProof, v: RoleProof, r: Role)
    requires Partitioned(events, e, w, v)
    ensures Lists(events, KSample(r), ProofAt(e, w, v, r).samplePositions)
  {
    var p := ProofAt(e, w, v, r);
    forall j
      ensures HoldsKind(events, KSample(r), p.samplePositions, j)
    {
      assert SampleHere(events, p, j);
    }
    forall i
      ensures Listed(events, KSample(r), p.samplePositions, i)
    {
      if 0 <= i < |events| && KindOf(events[i].body) == KSample(r) {
        OwnerIsUnique(events, e, w, v, i, r);
        PositionOwned(events, p, r, i + 1);
      }
    }
  }

  /** A role's selected samples are the linked ones, so its CPU time is the transcript's. */
  lemma UsageIsTranscripts(events: seq<Event>, p: RoleProof, r: Role)
    requires Linked(events, p, r) && Lists(events, KSample(r), p.samplePositions)
    ensures |Select(events, KSample(r))| == p.sampleCount
            && TranscriptUsage(events, r) == p.samples[p.sampleCount - 1] - p.samples[0]
  {
    var found := Select(events, KSample(r));
    SelectIs(events, KSample(r), p.samplePositions);
    assert SelectedAt(events, found, p.samplePositions, 0) && SampleHere(events, p, 0);
    assert SelectedAt(events, found, p.samplePositions, p.sampleCount - 1) && SampleHere(events, p, p.sampleCount - 1);
  }

  ghost predicate AllLinked(events: seq<Event>, e: RoleProof, w: RoleProof, v: RoleProof) {
    Linked(events, e, Egress) && Linked(events, w, Worker) && Linked(events, v, Verifier)
  }

  /** Acceptance, in the terms of this module. */
  lemma AcceptedParts(h: Hash, b: Binding, events: seq<Event>, roles: seq<RoleProof>)
    requires AcceptsProofs(h, b, events, roles)
    ensures AllLinked(events, roles[0], roles[1], roles[2])
    ensures DeltaKept(roles[0]) && DeltaKept(roles[1]) && DeltaKept(roles[2])
    ensures StepsInOrder(roles[0]) && StepsInOrder(roles[1]) && StepsInOrder(roles[2])
  {
    AcceptedLinks(h, b, events, roles, 0);
    AcceptedLinks(h, b, events, roles, 1);
    AcceptedLinks(h, b, events, roles, 2);
  }

  lemma ClockReflects(events: seq<Event>, p: int, q: int)
    requires ClockAdvances(events) && 1 <= p <= |events| && 1 <= q <= |events|
             && ClockAt(events, p) < ClockAt(events, q)
    ensures p < q
  {
    assert Earlier(events, q - 1, p - 1);
  }

  /** The order of the three executions, by position. */
  ghost predicate Bracketing(e: RoleProof, w: RoleProof, v: RoleProof) {
    e.startedAt < w.startedAt && w.stoppedAt < e.stoppedAt && e.stoppedAt < v.startedAt
    && exists i | 0 <= i < |e.samplePositions| :: w.startedAt < e.samplePositions[i] < w.stoppedAt
  }

  lemma LinkedBracketing(events: seq<Event>, e: RoleProof, w: RoleProof, v: RoleProof)
    requires AllLinked(events, e, w, v) && ClockAdvances(events) && OrderedByClock(events, [e, w, v])
    ensures Bracketing(e, w, v)
  {
    ClockReflects(events, e.startedAt, w.startedAt);
    ClockReflects(events, w.stoppedAt, e.stoppedAt);
    ClockReflects(events, e.stoppedAt, v.startedAt);
    var i :| 0 <= i < |e.samplePositions| && ClockAt(events, w.startedAt) < ClockAt(events, e.samplePositions[i])
      && ClockAt(events, e.samplePositions[i]) < ClockAt(events, w.stoppedAt);
    assert SampleHere(events, e, i);
    ClockReflects(events, w.startedAt, e.samplePositions[i]);
    ClockReflects(events, e.samplePositions[i], w.stoppedAt);
  }

  lemma PartitionUsage(events: seq<Event>, e: RoleProof, w: RoleProof, v: RoleProof)
    requires Partitioned(events, e, w, v)
    requires DeltaKept(e) && DeltaKept(w) && DeltaKept(v)
    ensures SumDeltas([e, w, v]) == TotalUsage(events)
  {
    SamplesListed(events, e, w, v, Egress);
    SamplesListed(events, e, w, v, Worker);
    SamplesListed(events, e, w, v, Verifier);
    UsageIsTranscripts(events, e, Egress);
    UsageIsTranscripts(events, w, Worker);
    UsageIsTranscripts(events, v, Verifier);
    SumOfThree(e, w, v);
  }

  /** The event stands in the proof of a role exactly when it names the role. */
  ghost predicate OwnedHere(events: seq<Event>, e: RoleProof, w: RoleProof, v: RoleProof, i: int, r: Role) {
    0 <= i < |events| ==> (i + 1 in PositionsOf(ProofAt(e, w, v, r)) <==> OwnedBy(events[i], r))
  }

  /** What success says of a transcript and its three proofs. */
  ghost predicate Exact(events: seq<Event>, e: RoleProof, w: RoleProof, v: RoleProof) {
    |events| == 2 + (4 + e.sampleCount) + (4 + w.sampleCount) + (4 + v.sampleCount)
    && forall i, r :: OwnedHere(events, e, w, v, i, r)
  }

  lemma PartitionExact(events: seq<Event>, e: RoleProof, w: RoleProof, v: RoleProof)
    requires AllLinked(events, e, w, v) && Contiguous(events) && 2 <= |events| && LinkedExactly(events, [e, w, v])
    requires events[0].body.ControllerStarted? && events[|events| - 1].body.ControllerStopped?
    ensures Partitioned(events, e, w, v) && Exact(events, e, w, v)
  {
    AllPlaced(events, e, w, v);
    PartitionLength(events, e, w, v);
    forall i, r
      ensures OwnedHere(events, e, w, v, i, r)
    {
      if 0 <= i < |events| {
        OwnerIsUnique(events, e, w, v, i, r);
      }
    }
  }

  // ---- success: each role's own order, read off the transcript ----

  /** The transcript binds, starts, stops and releases the role once each, in that order; its
      first sample falls between binding and start, its last between stop and release, and the
      others between start and stop. */
  ghost predicate RunBracketed(events: seq<Event>, r: Role) {
    var samples, bound := Select(events, KSample(r)), Select(events, KBound(r));
    var starts, stops, releases := Select(events, KStarted(r)), Select(events, KStopped(r)),
      Select(events, KReleased(r));
    |bound| == |starts| == |stops| == |releases| == 1 && |samples| >= 2
    && bound[0].position < samples[0].position < starts[0].position < stops[0].position
    && stops[0].position < samples[|samples| - 1].position < releases[0].position
    && forall i | 1 <= i < |samples| - 1 :: starts[0].position < samples[i].position < stops[0].position
  }

  ghost predicate OnlyAt(events: seq<Event>, k: Kind, at: int, i: int) {
    0 <= i < |events| && KindOf(events[i].body) == k ==> i + 1 == at
  }

  lemma OnceSelected(events: seq<Event>, k: Kind, at: int)
    requires 1 <= at <= |events| && KindOf(events[at - 1].body) == k && forall i :: OnlyAt(events, k, at, i)
    ensures Select(events, k) == [events[at - 1]]
  {
    forall i
      ensures Listed(events, k, [at], i)
    {
      assert OnlyAt(events, k, at, i);
    }
    SelectIs(events, k, [at]);
    assert SelectedAt(events, Select(events, k), [at], 0);
  }

  /** A kind of step of the role, and where its proof puts it. */
  predicate IsStep(k: Kind, r: Role) { k == KBound(r) || k == KStarted(r) || k == KStopped(r) || k == KReleased(r) }

  function StepAt(p: RoleProof, k: Kind): int {
    if k.KBound? then p.boundAt else if k.KStarted? then p.startedAt else if k.KStopped? then p.stoppedAt
      else p.releasedAt
  }

  lemma StepIsAt(events: seq<Event>, p: RoleProof, r: Role, k: Kind)
    requires Linked(events, p, r) && IsStep(k, r)
    ensures 1 <= StepAt(p, k) <= |events| && KindOf(events[StepAt(p, k) - 1].body) == k
  {}

  lemma StepOnlyAt(events: seq<Event>, p: RoleProof, r: Role, k: Kind, x: int)
    requires Linked(events, p, r) && IsStep(k, r) && x in PositionsOf(p) && 1 <= x <= |events|
    requires KindOf(events[x - 1].body) == k
    ensures x == StepAt(p, k)
  {
    PositionOwned(events, p, r, x);
  }

  lemma StepNowhereElse(events: seq<Event>, e: RoleProof, w: RoleProof, v: RoleProof, r: Role, k: Kind, i: int)
    requires Partitioned(events, e, w, v) && IsStep(k, r)
    ensures OnlyAt(events, k, StepAt(ProofAt(e, w, v, r), k), i)
  {
    if 0 <= i < |events| && KindOf(events[i].body) == k {
      OwnerIsUnique(events, e, w, v, i, r);
      StepOnlyAt(events, ProofAt(e, w, v, r), r, k, i + 1);
    }
  }

  /** The transcript has each step of a role once, where the proof puts it. */
  lemma StepSelected(events: seq<Event>, e: RoleProof, w: RoleProof, v: RoleProof, r: Role, k: Kind)
    requires Partitioned(events, e, w, v) && IsStep(k, r) && Contiguous(events)
    ensures |Select(events, k)| == 1 && Select(events, k)[0].position == StepAt(ProofAt(e, w, v, r), k)
  {
    var p := ProofAt(e, w, v, r);
    StepIsAt(events, p, r, k);
    forall i
      ensures OnlyAt(events, k, StepAt(p, k), i)
    {
      StepNowhereElse(events, e, w, v, r, k, i);
    }
    OnceSelected(events, k, StepAt(p, k));
  }

  lemma SamplesSelected(events: seq<Event>, p: RoleProof, r: Role)
    requires Linked(events, p, r) && Lists(events, KSample(r), p.samplePositions) && Contiguous(events)
    ensures var samples := Select(events, KSample(r));
            |samples| == |p.samplePositions| && forall i
            | 0 <= i < |samples| :: samples[i].position == p.samplePositions[i]
  {
    var samples := Select(events, KSample(r));
    SelectIs(events, KSample(r), p.samplePositions);
    forall i | 0 <= i < |samples|
      ensures samples[i].position == p.samplePositions[i]
    {
      assert SelectedAt(events, samples, p.samplePositions, i) && SampleHere(events, p, i);
    }
  }

  lemma RoleBracketed(events: seq<Event>, e: RoleProof, w: RoleProof, v: RoleProof, r: Role)
    requires Partitioned(events, e, w, v) && Contiguous(events) && StepsInOrder(ProofAt(e, w, v, r))
    ensures RunBracketed(events, r)
  {
    StepSelected(events, e, w, v, r, KBound(r));
    StepSelected(events, e, w, v, r, KStarted(r));
    StepSelected(events, e, w, v, r, KStopped(r));
    StepSelected(events, e, w, v, r, KReleased(r));
    SamplesListed(events, e, w, v, r);
    SamplesSelected(events, ProofAt(e, w, v, r), r);
  }

  ghost predicate AllBracketed(events: seq<Event>) {
    RunBracketed(events, Egress) && RunBracketed(events, Worker) && RunBracketed(events, Verifier)
  }

  lemma PartitionBracketed(events: seq<Event>, e: RoleProof, w: RoleProof, v: RoleProof)
    requires Partitioned(events, e, w, v) && Contiguous(events)
    requires StepsInOrder(e) && StepsInOrder(w) && StepsInOrder(v)
    ensures AllBracketed(events)
  {
    RoleBracketed(events, e, w, v, Egress);
    RoleBracketed(events, e, w, v, Worker);
    RoleBracketed(events, e, w, v, Verifier);
  }

  lemma LinkedSound(events: seq<Event>, e: RoleProof, w: RoleProof, v: RoleProof)
    requires AllLinked(events, e, w, v) && DeltaKept(e) && DeltaKept(w) && DeltaKept(v)
    requires Contiguous(events) && ClockAdvances(events) && 2 <= |events|
    requires events[0].body.ControllerStarted? && events[|events| - 1].body.ControllerStopped?
    requires LinkedExactly(events, [e, w, v]) && OrderedByClock(events, [e, w, v])
    requires StepsInOrder(e) && StepsInOrder(w) && StepsInOrder(v)
    ensures Exact(events, e, w, v) && Bracketing(e, w, v) && AllBracketed(events)
    ensures SumDeltas([e, w, v]) == TotalUsage(events)
  {
    PartitionExact(events, e, w, v);
    LinkedBracketing(events, e, w, v);
    PartitionBracketed(events, e, w, v);
    PartitionUsage(events, e, w, v);
  }

  /** The partition and the orders, for three proofs in a row. */
  ghost predicate Sound(events: seq<Event>, roles: seq<RoleProof>)
    requires |roles| == 3
  {
    Exact(events, roles[0], roles[1], roles[2]) && Bracketing(roles[0], roles[1], roles[2]) && AllBracketed(events)
  }

  lemma ProofsSound(h: Hash, b: Binding, events: seq<Event>, roles: seq<RoleProof>)
    requires AcceptsProofs(h, b, events, roles) && Contiguous(events) && ClockAdvances(events) && 2 <= |events|
    requires events[0].body.ControllerStarted? && events[|events| - 1].body.ControllerStopped?
    ensures Sound(events, roles) && SumDeltas(roles) == TotalUsage(events)
  {
    AcceptedParts(h, b, events, roles);
    assert roles == [roles[0], roles[1], roles[2]];
    LinkedSound(events, roles[0], roles[1], roles[2]);
  }

  // ---- whose evidence it is ----

  /** The identity is one of this run: its digest is that of the run, the container and the cgroup. */
  predicate OfRun(h: Hash, run: RunContext, id: Identity, r: Role) {
    ValidIdentity(id) && id.docker.role == r && id.binding == h(RoleBindingOf(run, id.docker, id.cgroup))
  }

  function IdsOf(e: Evidence): seq<Identity> { if e.Observed? then ProofIds(e.roles) else ObservedIds(e.observedRoles) }

  /** At most three identities of the run, in role order, no two in one container or cgroup. */
  ghost predicate IdsForRun(h: Hash, run: RunContext, ids: seq<Identity>) {
    |ids| <= 3 && (forall k | 0 <= k < |ids| :: OfRun(h, run, ids[k], ROLES[k]))
    && forall j, k | 0 <= j < k < |ids| ::
         ids[j].docker.containerId != ids[k].docker.containerId && ids[j].cgroup != ids[k].cgroup
  }

  /** The digests over the roles: of the run's images and identities, whole or as far as it came. */
  ghost predicate RolesSealed(h: Hash, b: Binding, e: Evidence) {
    if e.Observed? then
      |IdsOf(e)| == 3 && e.dockerBinding == h(DockerBindingOf(b, IdsOf(e)))
      && forall j, k | 0 <= j < k < 3 :: IdsOf(e)[j].binding != IdsOf(e)[k].binding
    else
      e.attemptBinding == h(AttemptBindingInput(b.run, b.workerImage, e.controller, IdsOf(e)))
      && e.optDockerBinding == if |IdsOf(e)| == 3 then Some(h(DockerBindingOf(b, IdsOf(e)))) else None
  }

  /** The transcript is numbered without gaps on an advancing clock, opened by the controller, and
      on success closed by it. */
  ghost predicate Framed(e: Evidence) {
    var n := |e.events|;
    IsSha256(e.controller) && e.eventCount == n && 2 <= n <= MAX_EVENTS && Contiguous(e.events)
    && ClockAdvances(e.events) && e.events[0].body == ControllerStarted(e.controller)
    && (e.Observed? ==>
          e.events[n - 1].body == ControllerStopped(e.controller)
          && (e.nonCpu.Some? ==> ConsistentNonCpu(e.nonCpu.value)))
  }

  /** The evidence is of the expected run and of no other: it carries the expected binding, its
      identities are of that run, and every digest in it is recomputed over what it seals. */
  ghost predicate ForRun(h: Hash, value: Sealed, expected: Binding) {
    var e := value.body;
    ValidBinding(expected) && e.binding == expected && value.sha == h(EvidenceInput(e))
    && e.transcriptSha == h(TranscriptInput(expected.run, e.controller, e.events))
    && IdsForRun(h, expected.run, IdsOf(e)) && RolesSealed(h, expected, e) && Framed(e)
  }

  lemma SuccessIds(h: Hash, b: Binding, events: seq<Event>, roles: seq<RoleProof>)
    requires AcceptsProofs(h, b, events, roles)
    ensures |ProofIds(roles)| == 3 && IdsForRun(h, b.run, ProofIds(roles))
  {
    forall k | 0 <= k < 3
      ensures OfRun(h, b.run, ProofIds(roles)[k], ROLES[k])
    {
      assert ProvesRole(h, b, events, roles, k);
      IdIsOfRun(h, b, roles[k].id, ROLES[k]);
    }
  }

  lemma IdIsOfRun(h: Hash, b: Binding, id: Identity, r: Role)
    requires AcceptsIdentity(h, b, id, r)
    ensures OfRun(h, b.run, id, r)
  {}

  lemma FailureIds(h: Hash, e: Evidence)
    requires e.ObservedFailure? && AcceptsRoles(h, e)
    ensures IdsForRun(h, e.binding.run, ObservedIds(e.observedRoles))
  {
    forall k | 0 <= k < |e.observedRoles|
      ensures OfRun(h, e.binding.run, ObservedIds(e.observedRoles)[k], ROLES[k])
    {
      assert AcceptsObservedRole(h, e.binding, e.observedRoles[k], ROLES[k]);
    }
  }

  /** The identities of a body, as its parsers see them. */
  lemma AcceptedIds(h: Hash, value: Sealed, expected: Binding)
    requires Accepts(h, value, expected)
    ensures IdsForRun(h, value.body.binding.run, IdsOf(value.body))
    ensures RolesSealed(h, value.body.binding, value.body)
  {
    var e := value.body;
    if e.Observed? {
      SuccessIds(h, e.binding, e.events, e.roles);
    } else {
      FailureIds(h, e);
    }
  }

  lemma BaseIsOfRun(h: Hash, value: Sealed, expected: Binding)
    requires AcceptsBase(h, value, expected)
    ensures ValidBinding(expected) && value.body.binding == expected && value.sha == h(EvidenceInput(value.body))
  {}

  lemma TranscriptIsOfRun(h: Hash, b: Binding, e: Evidence)
    requires AcceptsTranscript(h, b, e.controller, e.events, e.eventCount, e.transcriptSha)
    requires e.Observed? ==> e.events[|e.events| - 1].body == ControllerStopped(e.controller)
                             && (e.nonCpu.Some? ==> ConsistentNonCpu(e.nonCpu.value))
    ensures Framed(e) && e.transcriptSha == h(TranscriptInput(b.run, e.controller, e.events))
  {}

  /** Acceptance admits the expected run's evidence and nobody else's. */
  lemma AcceptedForRun(h: Hash, value: Sealed, expected: Binding)
    requires Accepts(h, value, expected)
    ensures ForRun(h, value, expected)
  {
    AcceptedIds(h, value, expected);
    BaseIsOfRun(h, value, expected);
    TranscriptIsOfRun(h, value.body.binding, value.body);
  }

  // ---- what the fields say of the transcript ----

  /** A proof's steps, samples and numbers are those of its role in the transcript. */
  ghost predicate ProofTold(events: seq<Event>, p: RoleProof, r: Role) {
    Linked(events, p, r) && p.released && p.baseline == p.samples[0] && p.final == p.samples[|p.samples| - 1]
    && p.delta == p.final - p.baseline
  }

  /** An observed role's numbers are those of its role in the transcript. */
  ghost predicate RoleTold(events: seq<Event>, o: ObservedRole) {
    var r, samples := o.id.docker.role, Select(events, KSample(o.id.docker.role));
    |Select(events, KBound(r))| == 1 && o.sampleCount == |samples|
    && (o.released <==> Select(events, KReleased(r)) != [])
    && (samples != [] ==>
          o.baseline == Some(UsageOf(samples[0])) && o.last == Some(UsageOf(samples[|samples| - 1]))
          && o.delta == Some(TranscriptUsage(events, r)))
    && (samples == [] ==> o.baseline.None? && o.last.None? && o.delta.None?)
    && OrderedRun(events, r)
  }

  /** An event of the role comes neither before it is bound nor after it is released. */
  ghost predicate WithinRun(events: seq<Event>, r: Role, i: int) {
    var bound, releases := Select(events, KBound(r)), Select(events, KReleased(r));
    0 <= i < |events| && MentionsRole(events[i].body) && events[i].body.role == r ==>
      (forall b | b in bound :: b.position <= events[i].position)
      && forall e | e in releases :: events[i].position <= e.position
  }

  /** The run of one role as far as it came: at most one start, a stop only after it, a release not
      before the stop of what was started, and in between the readings, counted and never falling. */
  ghost predicate OrderedRun(events: seq<Event>, r: Role) {
    var starts, stops, releases := Select(events, KStarted(r)), Select(events, KStopped(r)),
      Select(events, KReleased(r));
    var samples := Select(events, KSample(r));
    |stops| <= |starts| <= 1 && |releases| <= 1
    && (stops != [] ==> starts[0].position < stops[0].position)
    && (releases != [] && starts != [] ==> stops != [])
    && (forall i :: WithinRun(events, r, i))
    && (forall k | 0 <= k < |samples| :: IndexOf(samples[k]) == k)
    && forall j, k | 0 <= j < k < |samples| :: UsageOf(samples[j]) <= UsageOf(samples[k])
  }

  lemma {:induction false} RisesThroughout(samples: seq<Event>, j: nat, k: nat)
    requires forall i | 1 <= i < |samples| :: UsageOf(samples[i - 1]) <= UsageOf(samples[i])
    requires j <= k < |samples|
    ensures UsageOf(samples[j]) <= UsageOf(samples[k])
  {
    if j < k {
      RisesThroughout(samples, j, k - 1);
    }
  }

  lemma LinkedIsWithin(events: seq<Event>, o: ObservedRole, i: int)
    requires LinksObserved(events, o)
    ensures WithinRun(events, o.id.docker.role, i)
  {
    var r := o.id.docker.role;
    if 0 <= i < |events| && MentionsRole(events[i].body) && events[i].body.role == r {
      SelectExact(events, KindOf(events[i].body));
      var same := Select(events, KindOf(events[i].body));
      assert events[i] in events && events[i] in same;
      var k :| 0 <= k < |same| && same[k] == events[i];
    }
  }

  lemma LinkedIsOrdered(events: seq<Event>, o: ObservedRole)
    requires LinksObserved(events, o)
    ensures OrderedRun(events, o.id.docker.role)
  {
    var r := o.id.docker.role;
    var samples := Select(events, KSample(r));
    forall i
      ensures WithinRun(events, r, i)
    {
      LinkedIsWithin(events, o, i);
    }
    forall j, k | 0 <= j < k < |samples|
      ensures UsageOf(samples[j]) <= UsageOf(samples[k])
    {
      RisesThroughout(samples, j, k);
    }
  }

  /** A status is told by the events: one that says so, or none. */
  ghost predicate StatusTold(events: seq<Event>, a: ContainmentAction, status: ActionStatus) {
    (status.Succeeded? <==> exists i | 0 <= i < |events| :: events[i].body == Contained(a, true))
    && (status.Failed? <==> exists i | 0 <= i < |events| :: events[i].body == Contained(a, false))
  }

  /** Nothing of the containment is left undone. */
  predicate AllClean(e: Evidence)
    requires e.ObservedFailure?
  {
    e.remaining == 0 && AllReleased(e.observedRoles) && e.stopStatus.StopSucceeded? && !AnyFailed(e.containment)
  }

  /** The account and the outcome are what the fields beside them say. */
  ghost predicate OutcomeTold(e: Evidence)
    requires e.ObservedFailure?
  {
    var over := e.aggregate - e.binding.budget;
    PhaseOf(e.code) == e.phase && (e.code.CpuBudgetExceeded? <==> over > 0)
    && e.overage == (if over > 0 then Some(over) else None)
    && (e.outcome.ContainmentIncomplete? ==>
          !AllClean(e) || e.code in {ContainmentActionFailed, ControllerStopFailed, CgroupReleaseFailed})
    && (!e.outcome.ContainmentIncomplete? ==> AllClean(e))
    && (e.outcome.OverBudgetContained? ==> over > 0) && (e.outcome.LinuxControllerFailure? ==> over <= 0)
    && (e.containment.status.Incomplete? <==> e.outcome.ContainmentIncomplete?)
    && (e.containment.trigger.BudgetTrigger? <==> e.code.CpuBudgetExceeded?)
    && (e.containment.trigger.IdentityDriftTrigger? <==> e.code.RoleIdentityDrift?)
    && (e.code.ContainmentActionFailed? ==> AnyFailed(e.containment))
  }

  /** The failure, the roles, the actions and the stop are those of the transcript. */
  ghost predicate FailureTold(e: Evidence)
    requires e.ObservedFailure?
  {
    OutcomeTold(e) && (exists i | 0 <= i < |e.events| :: e.events[i].body == FailureObserved(e.phase, e.code))
    && (e.executionStarted <==> exists i | 0 <= i < |e.events| :: e.events[i].body.RoleStarted?)
    && StatusTold(e.events, Freeze, e.containment.freeze) && StatusTold(e.events, Kill, e.containment.kill)
    && StatusTold(e.events, Reap, e.containment.reap)
    && 1 <= |e.events| && (e.stopStatus.StopSucceeded? <==> e.events[|e.events| - 1].body.ControllerStopped?)
    && (forall i | 1 <= i < |e.events| :: !e.events[i].body.ControllerStarted?)
    && forall k | 0 <= k < |e.observedRoles| :: RoleTold(e.events, e.observedRoles[k])
  }

  lemma {:induction false} ActionsOfExact(actions: seq<Event>, a: ContainmentAction)
    ensures forall e :: e in ActionsOf(actions, a) <==> e in actions && e.body.Contained? && e.body.action == a
  {
    if actions != [] {
      var front, last := actions[..|actions| - 1], actions[|actions| - 1];
      assert actions == front + [last];
      ActionsOfExact(front, a);
    }
  }

  lemma StatusIsTold(events: seq<Event>, a: ContainmentAction, status: ActionStatus)
    requires MatchesAction(Select(events, KAction), a, status)
    ensures StatusTold(events, a, status)
  {
    var actions := Select(events, KAction);
    SelectExact(events, KAction);
    ActionsOfExact(actions, a);
    forall i | 0 <= i < |events| && events[i].body.Contained? && events[i].body.action == a
      ensures ActionsOf(actions, a) == [events[i]] && events[i].body == Contained(a, status.Succeeded?)
    {
      assert events[i] in events && events[i] in actions && events[i] in ActionsOf(actions, a);
    }
    if !status.NotAttempted? {
      var e := ActionsOf(actions, a)[0];
      assert e in ActionsOf(actions, a);
      var i :| 0 <= i < |events| && events[i] == e;
    }
  }

  lemma RoleIsTold(h: Hash, b: Binding, events: seq<Event>, o: ObservedRole, r: Role)
    requires AcceptsObservedRole(h, b, o, r) && LinksObserved(events, o)
    ensures RoleTold(events, o)
  {
    LinkedIsOrdered(events, o);
  }

  lemma StopIsTold(e: Evidence)
    requires e.ObservedFailure? && LinksController(e.events, e.controller, e.phase, e.code, e.stopStatus)
    ensures e.stopStatus.StopSucceeded? <==> e.events[|e.events| - 1].body.ControllerStopped?
    ensures exists i | 0 <= i < |e.events| :: e.events[i].body == FailureObserved(e.phase, e.code)
  {
    SelectExact(e.events, KControllerStopped);
    SelectExact(e.events, KFailure);
    assert e.events[|e.events| - 1] in e.events;
    var f := Select(e.events, KFailure)[0];
    assert f in Select(e.events, KFailure);
    var i :| 0 <= i < |e.events| && e.events[i] == f;
  }

  lemma ControllerStartsOnce(e: Evidence)
    requires e.ObservedFailure? && LinksController(e.events, e.controller, e.phase, e.code, e.stopStatus)
    requires Contiguous(e.events)
    ensures forall i | 1 <= i < |e.events| :: !e.events[i].body.ControllerStarted?
  {
    SelectExact(e.events, KControllerStarted);
    forall i | 1 <= i < |e.events|
      ensures !e.events[i].body.ControllerStarted?
    {
      assert e.events[i] in e.events && e.events[0].position != e.events[i].position;
    }
  }

  lemma OutcomeIsTold(e: Evidence)
    requires e.ObservedFailure? && AcceptsOutcome(e)
    ensures OutcomeTold(e)
  {}

  lemma RolesAreTold(h: Hash, e: Evidence)
    requires e.ObservedFailure? && AcceptsRoles(h, e)
    requires forall k | 0 <= k < |e.observedRoles| :: LinksObserved(e.events, e.observedRoles[k])
    ensures forall k | 0 <= k < |e.observedRoles| :: RoleTold(e.events, e.observedRoles[k])
  {
    forall k | 0 <= k < |e.observedRoles|
      ensures RoleTold(e.events, e.observedRoles[k])
    {
      RoleIsTold(h, e.binding, e.events, e.observedRoles[k], ROLES[k]);
    }
  }

  lemma AcceptedFailureTold(h: Hash, value: Sealed, expected: Binding)
    requires AcceptsFailure(h, value, expected)
    ensures FailureTold(value.body)
  {
    var e := value.body;
    StopIsTold(e);
    ControllerStartsOnce(e);
    StatusIsTold(e.events, Freeze, e.containment.freeze);
    StatusIsTold(e.events, Kill, e.containment.kill);
    StatusIsTold(e.events, Reap, e.containment.reap);
    OutcomeIsTold(e);
    RolesAreTold(h, e);
  }

  ghost predicate ProofsTold(events: seq<Event>, roles: seq<RoleProof>) {
    forall k | 0 <= k < |roles| && k < 3 :: ProofTold(events, roles[k], ROLES[k])
  }

  lemma AcceptedProofsTold(h: Hash, b: Binding, events: seq<Event>, roles: seq<RoleProof>)
    requires AcceptsProofs(h, b, events, roles)
    ensures ProofsTold(events, roles)
  {
    forall k | 0 <= k < 3
      ensures ProofTold(events, roles[k], ROLES[k])
    {
      assert ProvesRole(h, b, events, roles, k);
      AcceptedLinks(h, b, events, roles, k);
    }
  }

  /** Success.  The transcript is exactly the two controller events and, per role, four steps
      and its samples; an event belongs to the one proof of the role it names; each role's first
      sample precedes its start and its last follows its stop; egress brackets the worker, with
      an egress sample strictly inside the worker's run, and the verifier follows; the account is
      the transcript's own, within the expected budget; and the evidence is the expected run's,
      with every number of its proofs told by the transcript. */
  lemma SuccessSound(h: Hash, value: Sealed, expected: Binding)
    requires AcceptsObserved(h, value, expected)
    ensures |value.body.roles| == 3 && Sound(value.body.events, value.body.roles)
    ensures value.body.aggregate == TotalUsage(value.body.events) <= expected.budget
    ensures ForRun(h, value, expected) && ProofsTold(value.body.events, value.body.roles)
  {
    ProofsSound(h, value.body.binding, value.body.events, value.body.roles);
    AcceptedProofsTold(h, value.body.binding, value.body.events, value.body.roles);
    AcceptedForRun(h, value, expected);
  }

  // ---- failure ----

  function DeltaOf(o: ObservedRole): int { if o.delta.Some? then o.delta.value else 0 }

  lemma ObservedUsage(h: Hash, b: Binding, events: seq<Event>, o: ObservedRole, r: Role)
    requires AcceptsObservedRole(h, b, o, r) && LinksObserved(events, o)
    ensures TranscriptUsage(events, r) == DeltaOf(o)
  {}

  lemma UnobservedUsage(events: seq<Event>, roles: seq<ObservedRole>, r: Role)
    requires NamesObserved(events, roles) && forall k | 0 <= k < |roles| :: roles[k].id.docker.role != r
    ensures TranscriptUsage(events, r) == 0
  {
    forall i
      ensures NotKind(events, KSample(r), i)
    {}
    SelectNone(events, KSample(r));
  }

  /** The observed delta of a role, 0 when it was never admitted. */
  function DeltaAt(roles: seq<ObservedRole>, k: nat): int { if k < |roles| then DeltaOf(roles[k]) else 0 }

  lemma SumObservedOfThree(roles: seq<ObservedRole>)
    requires |roles| <= 3
    ensures SumObserved(roles) == DeltaAt(roles, 0) + DeltaAt(roles, 1) + DeltaAt(roles, 2)
  {
    if |roles| >= 1 {
      var front := roles[..|roles| - 1];
      SumObservedOfThree(front);
    }
  }

  lemma UsageAt(h: Hash, b: Binding, events: seq<Event>, roles: seq<ObservedRole>, k: nat)
    requires k < 3 && |roles| <= 3 && NamesObserved(events, roles)
    requires forall i | 0 <= i < |roles| :: AcceptsObservedRole(h, b, roles[i], ROLES[i])
    requires forall i | 0 <= i < |roles| :: LinksObserved(events, roles[i])
    ensures TranscriptUsage(events, ROLES[k]) == DeltaAt(roles, k)
  {
    if k < |roles| {
      ObservedUsage(h, b, events, roles[k], ROLES[k]);
    } else {
      UnobservedUsage(events, roles, ROLES[k]);
    }
  }

  lemma FailureUsage(h: Hash, value: Sealed, expected: Binding)
    requires AcceptsFailure(h, value, expected)
    ensures value.body.aggregate == TotalUsage(value.body.events)
  {
    var e := value.body;
    UsageAt(h, e.binding, e.events, e.observedRoles, 0);
    UsageAt(h, e.binding, e.events, e.observedRoles, 1);
    UsageAt(h, e.binding, e.events, e.observedRoles, 2);
    SumObservedOfThree(e.observedRoles);
  }

  /** One failure is observed and no role is admitted or started after it. */
  ghost predicate StopsAt(events: seq<Event>, f: int) {
    0 <= f < |events| && events[f].body.FailureObserved?
    && forall i | 0 <= i < |events| ::
         (events[i].body.FailureObserved? ==> i == f)
         && (events[i].body.RoleBound? || events[i].body.RoleStarted? ==> i < f)
  }

  lemma {:induction false} SelectAscends(events: seq<Event>, k: Kind)
    requires Contiguous(events)
    ensures forall i, j | 0 <= i < j < |Select(events, k)| ::
            Select(events, k)[i].position < Select(events, k)[j].position
    ensures forall e | e in Select(events, k) :: 1 <= e.position <= |events| && events[e.position - 1] == e
  {
    if events != [] {
      SelectAscends(events[..|events| - 1], k);
    }
  }

  lemma OneFailure(events: seq<Event>, failure: Event)
    requires Contiguous(events) && Select(events, KFailure) == [failure]
    requires forall i | 0 <= i < |events| && events[i].position > failure.position ::
               !events[i].body.RoleBound? && !events[i].body.RoleStarted?
    ensures StopsAt(events, failure.position - 1)
  {
    SelectExact(events, KFailure);
    assert failure in Select(events, KFailure);
    var f :| 0 <= f < |events| && events[f] == failure;
    forall i | 0 <= i < |events| && events[i].body.FailureObserved?
      ensures i == f
    {
      assert events[i] in Select(events, KFailure);
      assert events[i] == failure;
    }
  }

  lemma FailureStops(h: Hash, value: Sealed, expected: Binding)
    requires AcceptsFailure(h, value, expected)
    ensures StopsAt(value.body.events, Select(value.body.events, KFailure)[0].position - 1)
  {
    OneFailure(value.body.events, Select(value.body.events, KFailure)[0]);
  }

  /** Some observed role was executing when the failure was observed. */
  ghost predicate ActiveAtFailure(e: Evidence)
    requires e.ObservedFailure?
  {
    |Select(e.events, KFailure)| == 1
    && exists k | 0 <= k < |e.observedRoles| ::
         ActiveAt(e.events, e.observedRoles[k].id.docker.role, Select(e.events, KFailure)[0].position)
  }

  /** FREEZE, KILL and REAP, once each, successfully and in that order, after the failure. */
  ghost predicate FullyContained(events: seq<Event>) {
    var actions, failures := Select(events, KAction), Select(events, KFailure);
    |failures| == 1 && |actions| == 3
    && actions[0].body == Contained(Freeze, true) && actions[1].body == Contained(Kill, true)
    && actions[2].body == Contained(Reap, true)
    && failures[0].position < actions[0].position < actions[1].position < actions[2].position
  }

  lemma FullyActed(actions: seq<Event>)
    requires ActionsInOrder(actions) && MatchesAction(actions, Reap, Succeeded)
    requires MatchesAction(actions, Freeze, Succeeded) && MatchesAction(actions, Kill, Succeeded)
    ensures |actions| == 3 && actions[0].body == Contained(Freeze, true) && actions[1].body == Contained(Kill, true)
    ensures actions[2].body == Contained(Reap, true)
  {
    ActionsAreMembers(actions, Freeze);
    ActionsAreMembers(actions, Kill);
    ActionsAreMembers(actions, Reap);
    assert ActionsOf(actions, Reap)[0] in actions && ActionsOf(actions, Kill)[0] in actions
           && ActionsOf(actions, Freeze)[0] in actions;
  }

  lemma {:induction false} ActionsAreMembers(actions: seq<Event>, a: ContainmentAction)
    ensures forall e | e in ActionsOf(actions, a) :: e in actions
  {
    if actions != [] {
      ActionsAreMembers(actions[..|actions| - 1], a);
    }
  }

  /** Every observed role was released, the controller stop comes last, and a role executing at
      the failure means the three actions succeeded, once each and in order, after it. */
  ghost predicate FailureContained(e: Evidence)
    requires e.ObservedFailure?
  {
    (forall k | 0 <= k < |e.observedRoles| :: |Select(e.events, KReleased(e.observedRoles[k].id.docker.role))| == 1)
    && 0 < |e.events| && e.events[|e.events| - 1].body == ControllerStopped(e.controller)
    && (ActiveAtFailure(e) ==> FullyContained(e.events))
  }

  /** Failure.  The transcript observes one failure and admits or starts nothing after it; the
      account is the transcript's own; both contained outcomes are contained; and the evidence is
      the expected run's, with every field told by the transcript. */
  lemma FailureSound(h: Hash, value: Sealed, expected: Binding)
    requires AcceptsFailure(h, value, expected)
    ensures var e := value.body;
            StopsAt(e.events, Select(e.events, KFailure)[0].position - 1) && e.aggregate == TotalUsage(e.events)
            && (!e.outcome.ContainmentIncomplete? ==> FailureContained(e))
            && ForRun(h, value, expected) && FailureTold(e)
  {
    var e := value.body;
    AcceptedForRun(h, value, expected);
    AcceptedFailureTold(h, value, expected);
    FailureStops(h, value, expected);
    FailureUsage(h, value, expected);
    if !e.outcome.ContainmentIncomplete? && ActiveAtFailure(e) {
      FullyActed(Select(e.events, KAction));
      SelectAscends(e.events, KAction);
    }
  }

  /** What a reader of accepted evidence of the expected run can rely on. */
  ghost predicate Reliable(h: Hash, value: Sealed, expected: Binding) {
    var e := value.body;
    ForRun(h, value, expected) && e.aggregate == TotalUsage(e.events)
    && (if e.Observed? then
          |e.roles| == 3 && Sound(e.events, e.roles) && ProofsTold(e.events, e.roles) && e.aggregate <= expected.budget
        else
          |Select(e.events, KFailure)| == 1 && StopsAt(e.events, Select(e.events, KFailure)[0].position - 1)
          && FailureTold(e) && (!e.outcome.ContainmentIncomplete? ==> FailureContained(e)))
  }

  lemma AcceptedReliable(h: Hash, value: Sealed, expected: Binding)
    requires Accepts(h, value, expected)
    ensures Reliable(h, value, expected)
  {
    if value.body.Observed? {
      SuccessSound(h, value, expected);
    } else {
      FailureSound(h, value, expected);
    }
  }
}
