/** What a consistent session's transcript is to the acceptor: valid as a whole, and per role
    exactly the recorded events. */
module Transcripts {
  import opened Evidence
  import opened Acceptor
  import opened Producer
  import opened ProducerInvariant
  import opened Selection

  ghost predicate StopsNamed(cfg: Config, events: seq<Event>, i: int) {
    0 <= i < |events| && events[i].body.ControllerStopped? ==> events[i].body.controller == cfg.controller
  }

  lemma EventValid(cfg: Config, s: Session, extra: nat, i: int)
    requires IsSha256(cfg.controller) && Consistent(cfg, s, extra) && 0 <= i < |s.events| <= MAX_EVENTS
    requires StopsNamed(cfg, s.events, i)
    ensures ValidEvent(s.events[i])
  {
    var body := s.events[i].body;
    assert ExplainedAt(s.events, s.roles, i);
    if MentionsRole(body) {
      assert IdentityKept(cfg, s.roles, body.role);
      if body.CpuSample? {
        assert RecordedAt(s.events, s.roles, body.role);
        assert SampleAt(s.events, body.role, s.roles[body.role], body.index);
      }
    }
  }

  lemma WeightBound(events: seq<Event>, roles: map<Role, RoleState>)
    requires AllRecorded(events, roles)
    ensures TotalWeight(roles) <= 3 * (4 + MAX_ROLE_SAMPLES)
  {
    assert RecordedAt(events, roles, Egress) && RecordedAt(events, roles, Worker)
           && RecordedAt(events, roles, Verifier);
  }

  lemma TranscriptValid(cfg: Config, s: Session, extra: nat)
    requires IsSha256(cfg.controller) && Consistent(cfg, s, extra) && extra <= 8 && 2 <= |s.events|
    requires forall i :: StopsNamed(cfg, s.events, i)
    ensures ValidTranscript(s.events)
  {
    WeightBound(s.events, s.roles);
    forall i | 0 <= i < |s.events|
      ensures ValidEvent(s.events[i])
    {
      assert StopsNamed(cfg, s.events, i);
      EventValid(cfg, s, extra, i);
    }
  }

  // ---- selections of one role ----

  function AsList(p: Option<int>): seq<int> { if p.Some? then [p.value] else [] }

  /** The positions of one kind of event that a role's record names. */
  function PositionsFor(st: RoleState, r: Role, k: Kind): seq<int> {
    if k == KBound(r) then [st.boundAt]
    else if k == KStarted(r) then AsList(st.startedAt)
    else if k == KStopped(r) then AsList(st.stoppedAt)
    else if k == KReleased(r) then AsList(st.releasedAt)
    else if k == KSample(r) then st.positions
    else []
  }

  predicate OfRole(k: Kind, r: Role) {
    k in {KBound(r), KStarted(r), KStopped(r), KReleased(r), KSample(r)}
  }

  lemma RoleHolds(events: seq<Event>, st: RoleState, r: Role, k: Kind)
    requires Coherent(st) && Records(events, r, st) && OfRole(k, r)
    ensures var ps := PositionsFor(st, r, k); Increasing(ps) && forall j :: HoldsKind(events, k, ps, j)
  {
    var ps := PositionsFor(st, r, k);
    forall j
      ensures HoldsKind(events, k, ps, j)
    {
      assert SampleAt(events, r, st, j);
    }
  }

  lemma RoleListed(events: seq<Event>, roles: map<Role, RoleState>, r: Role, k: Kind)
    requires AllExplained(events, roles) && Contiguous(events) && r in roles && OfRole(k, r)
    ensures forall i :: Listed(events, k, PositionsFor(roles[r], r, k), i)
  {
    var ps := PositionsFor(roles[r], r, k);
    forall i
      ensures Listed(events, k, ps, i)
    {
      assert ExplainedAt(events, roles, i);
    }
  }

  /** A role's record lists exactly where the events of each of its kinds stand. */
  lemma RoleSelected(events: seq<Event>, roles: map<Role, RoleState>, r: Role, k: Kind)
    requires AllRecorded(events, roles) && AllExplained(events, roles) && Contiguous(events) && r in roles
             && OfRole(k, r)
    ensures var ps := PositionsFor(roles[r], r, k);
            |Select(events, k)| == |ps| && forall j :: SelectedAt(events, Select(events, k), ps, j)
  {
    assert RecordedAt(events, roles, r);
    RoleHolds(events, roles[r], r, k);
    RoleListed(events, roles, r, k);
    SelectIs(events, k, PositionsFor(roles[r], r, k));
  }

  /** None, or exactly one event, at the given position. */
  ghost predicate Once(found: seq<Event>, at: Option<int>) {
    if at.None? then found == [] else |found| == 1 && found[0].position == at.value
  }

  lemma OnceSelected(events: seq<Event>, roles: map<Role, RoleState>, r: Role)
    requires AllRecorded(events, roles) && AllExplained(events, roles) && Contiguous(events) && r in roles
    ensures Once(Select(events, KBound(r)), Some(roles[r].boundAt))
            && Once(Select(events, KStarted(r)), roles[r].startedAt)
    ensures Once(Select(events, KStopped(r)), roles[r].stoppedAt)
            && Once(Select(events, KReleased(r)), roles[r].releasedAt)
  {
    assert RecordedAt(events, roles, r);
    RoleSelected(events, roles, r, KBound(r));
    RoleSelected(events, roles, r, KStarted(r));
    RoleSelected(events, roles, r, KStopped(r));
    RoleSelected(events, roles, r, KReleased(r));
    assert SelectedAt(events, Select(events, KBound(r)), [roles[r].boundAt], 0);
    assert SelectedAt(events, Select(events, KStarted(r)), AsList(roles[r].startedAt), 0);
    assert SelectedAt(events, Select(events, KStopped(r)), AsList(roles[r].stoppedAt), 0);
    assert SelectedAt(events, Select(events, KReleased(r)), AsList(roles[r].releasedAt), 0);
  }

  ghost predicate SampledAt(found: seq<Event>, r: Role, st: RoleState, i: int) {
    0 <= i < |found| && |found| == |st.samples| == |st.positions| ==>
      found[i].position == st.positions[i] && found[i].body == CpuSample(r, st.id.binding, i, st.samples[i])
  }

  lemma SamplesSelected(events: seq<Event>, roles: map<Role, RoleState>, r: Role)
    requires AllRecorded(events, roles) && AllExplained(events, roles) && Contiguous(events) && r in roles
    ensures |Select(events, KSample(r))| == |roles[r].samples| == |roles[r].positions|
    ensures forall i :: SampledAt(Select(events, KSample(r)), r, roles[r], i)
  {
    var st, found := roles[r], Select(events, KSample(r));
    assert RecordedAt(events, roles, r);
    RoleSelected(events, roles, r, KSample(r));
    forall i
      ensures SampledAt(found, r, st, i)
    {
      assert SelectedAt(events, found, st.positions, i);
      assert SampleAt(events, r, st, i);
    }
  }

  lemma SamplesLink(found: seq<Event>, r: Role, st: RoleState)
    requires Coherent(st) && |found| == |st.samples| == |st.positions| && forall i :: SampledAt(found, r, st, i)
    ensures forall i | 0 <= i < |found| ::
            IndexOf(found[i]) == i && st.boundAt < found[i].position && UsageOf(found[i]) == st.samples[i]
    ensures forall i | 1 <= i < |found| :: UsageOf(found[i - 1]) <= UsageOf(found[i])
    ensures forall i | 0 <= i < |found| :: found[i].position <= st.positions[|st.positions| - 1]
  {
    forall i | 0 <= i < |found|
      ensures IndexOf(found[i]) == i && st.boundAt < found[i].position && UsageOf(found[i]) == st.samples[i]
      ensures found[i].position <= st.positions[|st.positions| - 1]
    {
      assert SampledAt(found, r, st, i) && Below(st.positions, 0, i) && Below(st.positions, i, |st.positions| - 1);
    }
    assert forall i | 1 <= i < |found| :: UsageOf(found[i - 1]) <= UsageOf(found[i]) <== AtMost(st.samples, i - 1, i);
  }

  /** A record's own events are what the acceptor wants of an observed role. */
  lemma RoleLinks(events: seq<Event>, roles: map<Role, RoleState>, r: Role)
    requires AllRecorded(events, roles) && AllExplained(events, roles) && Contiguous(events) && r in roles
    requires roles[r].id.docker.role == r
    ensures LinksObserved(events, ObservedRoleOf(roles[r]))
  {
    assert RecordedAt(events, roles, r);
    OnceSelected(events, roles, r);
    SamplesSelected(events, roles, r);
    SamplesLink(Select(events, KSample(r)), r, roles[r]);
  }
}
