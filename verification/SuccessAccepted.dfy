/** The evidence of a complete run is accepted: the acceptor's conditions, one by one. */
module SuccessAccepted {
  import opened Evidence
  import opened Acceptor
  import opened Producer
  import opened ProducerInvariant
  import opened ProducerLive
  import opened Transcripts
  import opened FailureAccepted

  /** The session before the controller stops, with its final event. */
  ghost predicate Closes(cfg: Config, s: Session, events: seq<Event>) {
    Live(cfg, s) && AllComplete(s) && |events| == |s.events| + 1 && events[..|s.events|] == s.events
    && events[|s.events|].body == ControllerStopped(cfg.controller)
  }

  // ---- one role ----

  lemma ProofAccepted(cfg: Config, st: RoleState, r: Role, n: int)
    requires AcceptsIdentity(cfg.h, cfg.binding, st.id, r) && Coherent(st) && InRange(st, n) && n <= MAX_EVENTS
    requires st.startedAt.Some? && st.stoppedAt.Some? && st.releasedAt.Some? && |st.samples| >= 2
    ensures AcceptsRoleProof(cfg.h, cfg.binding, ProofOf(st), r)
  {
    NeverNegative(st);
  }

  lemma ProofLinks(events: seq<Event>, r: Role, st: RoleState)
    requires Coherent(st) && Bracketed(st) && Records(events, r, st) && st.id.docker.role == r
    requires st.startedAt.Some? && st.stoppedAt.Some? && st.releasedAt.Some? && |st.samples| >= 2
    ensures LinksRole(events, ProofOf(st))
  {
    var p := ProofOf(st);
    forall i | 0 <= i < |p.samples|
      ensures At(events, p.samplePositions[i], SampleBody(p, i))
    {
      assert SampleAt(events, r, st, i);
    }
  }

  lemma RoleProved(cfg: Config, s: Session, r: Role)
    requires Live(cfg, s) && Complete(s, r) && |s.events| <= MAX_EVENTS
    ensures AcceptsRoleProof(cfg.h, cfg.binding, ProofOf(s.roles[r]), r)
  {
    assert RecordedAt(s.events, s.roles, r) && IdentityKept(cfg, s.roles, r);
    RecordsInRange(r, s.events, s.roles[r]);
    ProofAccepted(cfg, s.roles[r], r, |s.events|);
  }

  lemma RoleLinked(cfg: Config, s: Session, e: Event, r: Role)
    requires Live(cfg, s) && Complete(s, r)
    ensures LinksRole(s.events + [e], ProofOf(s.roles[r]))
  {
    assert RecordedAt(s.events, s.roles, r) && IdentityKept(cfg, s.roles, r) && BracketedAt(s.roles, r);
    KeepRecords(r, s.events, s.roles[r], e);
    ProofLinks(s.events + [e], r, s.roles[r]);
  }

  // ---- the partition of the transcript ----

  function AllPositions(n: nat): set<int> { if n == 0 then {} else AllPositions(n - 1) + {n} }

  lemma {:induction false} AllPositionsAre(n: nat)
    ensures |AllPositions(n)| == n && forall x :: x in AllPositions(n) <==> 1 <= x <= n
  {
    if n > 0 {
      AllPositionsAre(n - 1);
    }
  }

  /** The positions a record names. */
  function NamedPositions(st: RoleState): set<int> {
    (set x | x in [st.boundAt] + AsList(st.startedAt) + AsList(st.stoppedAt) + AsList(st.releasedAt))
    + set x | x in st.positions
  }

  lemma NamedAreProved(st: RoleState)
    requires st.startedAt.Some? && st.stoppedAt.Some? && st.releasedAt.Some?
    ensures PositionsOf(ProofOf(st)) == NamedPositions(st)
  {}

  lemma NamedInRange(st: RoleState, n: nat)
    requires InRange(st, n)
    ensures NamedPositions(st) <= AllPositions(n)
  {
    AllPositionsAre(n);
  }

  lemma EventNamed(cfg: Config, s: Session, i: int)
    requires Live(cfg, s) && 1 <= i < |s.events|
    ensures s.events[i].position == i + 1
    ensures MentionsRole(s.events[i].body) && s.events[i].body.role in s.roles
    ensures i + 1 in NamedPositions(s.roles[s.events[i].body.role])
  {
    var e := s.events[i];
    assert ExplainedAt(s.events, s.roles, i);
    assert QuietEvent(e) && !e.body.ControllerStarted?;
    var st := s.roles[e.body.role];
    assert ExplainedBy(st, e);
    if e.body.CpuSample? {
      assert st.positions[e.body.index] == i + 1;
    }
  }

  function AllNamed(roles: map<Role, RoleState>, n: int): set<int>
    requires Egress in roles && Worker in roles && Verifier in roles
  {
    {1, n} + NamedPositions(roles[Egress]) + NamedPositions(roles[Worker]) + NamedPositions(roles[Verifier])
  }

  lemma NamedExactly(cfg: Config, s: Session)
    requires Live(cfg, s) && Egress in s.roles && Worker in s.roles && Verifier in s.roles
    ensures AllNamed(s.roles, |s.events| + 1) == AllPositions(|s.events| + 1)
  {
    var n := |s.events| + 1;
    AllPositionsAre(n);
    AllReach(s.events, s.roles);
    NamedInRange(s.roles[Egress], n);
    NamedInRange(s.roles[Worker], n);
    NamedInRange(s.roles[Verifier], n);
    forall x | 1 < x < n
      ensures x in AllNamed(s.roles, n)
    {
      EventNamed(cfg, s, x - 1);
      match s.events[x - 1].body.role { case Egress => case Worker => case Verifier => }
    }
  }

  /** Every event stands at exactly the positions some proof, the start or the stop names. */
  lemma PartitionExact(cfg: Config, s: Session, events: seq<Event>)
    requires Closes(cfg, s, events) && Contiguous(events)
    ensures LinkedExactly(events, ProofsOf(s))
  {
    var n := |events|;
    LinkedPositionsOfThree(n, ProofOf(s.roles[Egress]), ProofOf(s.roles[Worker]), ProofOf(s.roles[Verifier]));
    NamedAreProved(s.roles[Egress]);
    NamedAreProved(s.roles[Worker]);
    NamedAreProved(s.roles[Verifier]);
    NamedExactly(cfg, s);
    AllPositionsAre(n);
  }

  // ---- order ----

  lemma ClockOrder(events: seq<Event>, p: int, q: int)
    requires ClockAdvances(events) && 1 <= p < q <= |events|
    ensures ClockAt(events, p) < ClockAt(events, q)
  {
    assert Earlier(events, p - 1, q - 1);
  }

  lemma PositionsOrdered(cfg: Config, s: Session)
    requires Live(cfg, s) && AllComplete(s)
    ensures var e, w, v := s.roles[Egress], s.roles[Worker], s.roles[Verifier];
            1 <= e.startedAt.value < w.startedAt.value < w.stoppedAt.value < e.stoppedAt.value
            < v.startedAt.value < v.stoppedAt.value <= |s.events|
  {
    AllReach(s.events, s.roles);
  }

  lemma ProofsOrdered(cfg: Config, s: Session, events: seq<Event>)
    requires Closes(cfg, s, events) && ClockAdvances(events) && EgressSampledDuringWorker(s)
    ensures OrderedByClock(events, ProofsOf(s))
  {
    var e, w, v := s.roles[Egress], s.roles[Worker], s.roles[Verifier];
    PositionsOrdered(cfg, s);
    ClockOrder(events, e.startedAt.value, w.startedAt.value);
    ClockOrder(events, w.startedAt.value, w.stoppedAt.value);
    ClockOrder(events, w.stoppedAt.value, e.stoppedAt.value);
    ClockOrder(events, e.stoppedAt.value, v.startedAt.value);
    ClockOrder(events, v.startedAt.value, v.stoppedAt.value);
    var i :| 0 <= i < |e.positions| && w.startedAt.value < e.positions[i] < w.stoppedAt.value;
    ClockOrder(events, w.startedAt.value, e.positions[i]);
    ClockOrder(events, e.positions[i], w.stoppedAt.value);
    assert ProofsOf(s)[0].samplePositions[i] == e.positions[i];
  }

  // ---- acceptance ----

  lemma ProofsDistinct(cfg: Config, s: Session)
    requires Admissible(cfg, s.roles) && AllComplete(s)
    ensures var roles := ProofsOf(s);
            DistinctIdentities(ProofIds(roles)) && RolesInOrder(ProofIds(roles))
            && forall i, j | 0 <= i < j < 3 :: roles[i].id.binding != roles[j].id.binding
  {
    assert Distinct(s.roles, Egress, Worker) && Distinct(s.roles, Egress, Verifier)
           && Distinct(s.roles, Worker, Verifier);
    assert IdentityKept(cfg, s.roles, Egress) && IdentityKept(cfg, s.roles, Worker)
           && IdentityKept(cfg, s.roles, Verifier);
  }

  lemma ProofsProved(cfg: Config, s: Session)
    requires Live(cfg, s) && AllComplete(s) && |s.events| <= MAX_EVENTS
    ensures forall i | 0 <= i < 3 :: AcceptsRoleProof(cfg.h, cfg.binding, ProofsOf(s)[i], ROLES[i])
  {
    RoleProved(cfg, s, Egress);
    RoleProved(cfg, s, Worker);
    RoleProved(cfg, s, Verifier);
  }

  lemma ProofsLinked(cfg: Config, s: Session, e: Event)
    requires Live(cfg, s) && AllComplete(s)
    ensures forall i | 0 <= i < 3 :: LinksRole(s.events + [e], ProofsOf(s)[i])
  {
    RoleLinked(cfg, s, e, Egress);
    RoleLinked(cfg, s, e, Worker);
    RoleLinked(cfg, s, e, Verifier);
  }

  lemma ProofsAccepted(cfg: Config, s: Session, e: Event)
    requires Closes(cfg, s, s.events + [e]) && Contiguous(s.events + [e]) && ClockAdvances(s.events + [e])
    requires |s.events| < MAX_EVENTS && EgressSampledDuringWorker(s)
    ensures AcceptsProofs(cfg.h, cfg.binding, s.events + [e], ProofsOf(s))
  {
    ProofsProved(cfg, s);
    ProofsLinked(cfg, s, e);
    ProofsDistinct(cfg, s);
    PartitionExact(cfg, s, s.events + [e]);
    ProofsOrdered(cfg, s, s.events + [e]);
  }

  lemma ProofNodesOfThree(a: RoleProof, b: RoleProof, c: RoleProof)
    ensures ProofNodes([a, b, c]) == 54 + |a.samples| + |a.samplePositions| + |b.samples| + |b.samplePositions|
                                     + |c.samples| + |c.samplePositions|
  {
    assert [a, b, c][..2] == [a, b] && [a, b][..1] == [a] && [a][..0] == [];
    assert ProofNodes([a, b]) == ProofNodes([a]) + 18 + |b.samples| + |b.samplePositions|;
  }

  lemma SuccessDigest(cfg: Config, body: Evidence)
    requires body.Observed? && |body.events| <= MAX_EVENTS && |body.roles| == 3
    requires forall i | 0 <= i < 3 :: |body.roles[i].samples| == |body.roles[i].samplePositions| <= MAX_ROLE_SAMPLES
    ensures Digest(cfg.h, EvidenceInput(body)).Some?
  {
    TranscriptNodesBound(body.events);
    assert body.roles == [body.roles[0], body.roles[1], body.roles[2]];
    ProofNodesOfThree(body.roles[0], body.roles[1], body.roles[2]);
  }

  /** The account of a live session, as the proofs state it. */
  lemma SuccessSum(cfg: Config, s: Session)
    requires ValidConfig(cfg) && Live(cfg, s) && AllComplete(s)
    ensures SumDeltas(ProofsOf(s)) == Aggregate(s.roles) && IsUint64(Aggregate(s.roles))
            && Aggregate(s.roles) <= cfg.binding.budget
  {
    SumOfThree(ProofOf(s.roles[Egress]), ProofOf(s.roles[Worker]), ProofOf(s.roles[Verifier]));
    AggregateNonNegative(s.events, s.roles);
  }

  lemma CloseTranscript(cfg: Config, s: Session, clock: Clock)
    requires ValidConfig(cfg) && Live(cfg, s) && AllComplete(s)
    requires !Append(s, ControllerStopped(cfg.controller), clock).poisoned
    ensures var done := Append(s, ControllerStopped(cfg.controller), clock);
            Consistent(cfg, done, 2) && ValidTranscript(done.events) && Closes(cfg, s, done.events)
            && done.events[0].body == ControllerStarted(cfg.controller) && |s.events| < MAX_EVENTS
            && done.events == s.events + [done.events[|s.events|]]
  {
    var body := ControllerStopped(cfg.controller);
    var done := Append(s, body, clock);
    AppendAdds(s, body, clock);
    AppendKeeps(cfg, s, 1, body, clock);
    forall i
      ensures StopsNamed(cfg, done.events, i)
    {
      if 0 <= i < |s.events| {
        assert QuietEvent(s.events[i]);
      }
    }
    TranscriptValid(cfg, done, 2);
  }

  lemma DockerDigest(cfg: Config, s: Session)
    requires ValidConfig(cfg) && Admissible(cfg, s.roles) && AllComplete(s)
    ensures Digest(cfg.h, DockerBindingOf(cfg.binding, ProofIds(ProofsOf(s)))).Some?
  {
    ProofsDistinct(cfg, s);
  }

  lemma SuccessAccepts(cfg: Config, s: Session, done: Session, e: Event, nonCpu: Option<NonCpuFailure>, docker: string,
                       transcript: string, sha: string)
    requires ValidConfig(cfg) && Live(cfg, s) && AllComplete(s)
    requires nonCpu.Some? ==> ConsistentNonCpu(nonCpu.value)
    requires done.events == s.events + [e] && e.body == ControllerStopped(cfg.controller)
    requires done.events[0].body == ControllerStarted(cfg.controller) && ValidTranscript(done.events)
    requires AcceptsProofs(cfg.h, cfg.binding, done.events, ProofsOf(s))
    requires Digest(cfg.h, DockerBindingOf(cfg.binding, ProofIds(ProofsOf(s)))) == Some(docker)
    requires Digest(cfg.h, TranscriptInput(cfg.binding.run, cfg.controller, done.events)) == Some(transcript)
    requires Digest(cfg.h, EvidenceInput(SuccessBody(cfg, s, done, nonCpu, docker, transcript))) == Some(sha)
             && IsSha256(sha)
    ensures AcceptsObserved(cfg.h, Sealed(SuccessBody(cfg, s, done, nonCpu, docker, transcript), sha), cfg.binding)
  {
    SuccessSum(cfg, s);
  }
}
