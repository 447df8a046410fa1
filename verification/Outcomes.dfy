/** What each operation of the producer answers, under a clock that serves its appends: told on
    the transcript and the answers, with the exact condition of every reply. */
module Outcomes {
  import opened Evidence
  import opened Acceptor
  import opened Producer
  import opened ProducerInvariant
  import opened ProducerLive
  import opened ContainmentTail
  import opened Transcripts
  import opened FailureAccepted
  import opened Completeness
  import opened Selection
  import opened Soundness
  import opened Runs

  // ---- where a role stands, read off the transcript ----

  predicate Seen(events: seq<Event>, k: Kind) { Select(events, k) != [] }

  predicate HasReleased(events: seq<Event>, r: Role) { Seen(events, KReleased(r)) }

  predicate HasStopped(events: seq<Event>, r: Role) { Seen(events, KStopped(r)) && !HasReleased(events, r) }

  predicate NowRuns(events: seq<Event>, r: Role) {
    Seen(events, KStarted(r)) && !Seen(events, KStopped(r)) && !HasReleased(events, r)
  }

  predicate AwaitsStart(events: seq<Event>, r: Role) {
    Seen(events, KBound(r)) && !Seen(events, KStarted(r)) && !HasReleased(events, r)
  }

  function ReadingCount(events: seq<Event>, r: Role): nat { |Select(events, KSample(r))| }

  function LastReading(events: seq<Event>, r: Role): int {
    var samples := Select(events, KSample(r)); if samples == [] then 0 else UsageOf(samples[|samples| - 1])
  }

  ghost predicate ReadOff(events: seq<Event>, roles: map<Role, RoleState>, r: Role) {
    (r in roles <==> Seen(events, KBound(r)))
    && (r in roles && roles[r].phase.BoundPhase? <==> AwaitsStart(events, r))
    && (r in roles && roles[r].phase.RunningPhase? <==> NowRuns(events, r))
    && (r in roles && roles[r].phase.StoppedPhase? <==> HasStopped(events, r))
    && (r in roles && roles[r].phase.ReleasedPhase? <==> HasReleased(events, r))
    && (r in roles ==> LastReading(events, r) == roles[r].last && ReadingCount(events, r) == |roles[r].samples|)
    && TranscriptUsage(events, r) == Delta(roles, r)
  }

  lemma UnboundReads(events: seq<Event>, roles: map<Role, RoleState>, r: Role, k: Kind)
    requires AllExplained(events, roles) && r !in roles && OfRole(k, r)
    ensures Select(events, k) == []
  {
    forall i
      ensures NotKind(events, k, i)
    {
      assert ExplainedAt(events, roles, i);
    }
    SelectNone(events, k);
  }

  lemma BoundReads(events: seq<Event>, roles: map<Role, RoleState>, r: Role)
    requires AllRecorded(events, roles) && AllExplained(events, roles) && Contiguous(events) && r in roles
    ensures ReadOff(events, roles, r)
  {
    var st, found := roles[r], Select(events, KSample(r));
    assert RecordedAt(events, roles, r);
    Transcripts.OnceSelected(events, roles, r);
    Transcripts.SamplesSelected(events, roles, r);
    assert SampledAt(found, r, st, 0) && SampledAt(found, r, st, |found| - 1);
  }

  /** The records say what the transcript says. */
  lemma RoleReads(events: seq<Event>, roles: map<Role, RoleState>, r: Role)
    requires AllRecorded(events, roles) && AllExplained(events, roles) && Contiguous(events)
    ensures ReadOff(events, roles, r)
  {
    if r in roles {
      BoundReads(events, roles, r);
    } else {
      UnboundReads(events, roles, r, KBound(r));
      UnboundReads(events, roles, r, KStarted(r));
      UnboundReads(events, roles, r, KStopped(r));
      UnboundReads(events, roles, r, KReleased(r));
      UnboundReads(events, roles, r, KSample(r));
    }
  }

  lemma SessionReads(cfg: Config, s: Session, extra: nat)
    requires Consistent(cfg, s, extra)
    ensures forall r :: ReadOff(s.events, s.roles, r)
    ensures TotalUsage(s.events) == Aggregate(s.roles)
  {
    forall r
      ensures ReadOff(s.events, s.roles, r)
    {
      RoleReads(s.events, s.roles, r);
    }
    assert ReadOff(s.events, s.roles, Egress) && ReadOff(s.events, s.roles, Worker)
           && ReadOff(s.events, s.roles, Verifier);
  }

  // ---- containment ----

  /** A containment stops what runs and releases exactly what was released or the port says is. */
  ghost predicate SettledAs(was: seq<Event>, events: seq<Event>, r: Role, released: bool) {
    (Seen(events, KBound(r)) <==> Seen(was, KBound(r)))
    && (Seen(events, KStarted(r)) <==> Seen(was, KStarted(r)))
    && (NowRuns(was, r) ==> Seen(events, KStopped(r)))
    && (HasReleased(events, r) <==> HasReleased(was, r) || (Seen(was, KBound(r)) && released))
  }

  predicate Unreleased(events: seq<Event>, r: Role) { Seen(events, KBound(r)) && !HasReleased(events, r) }

  predicate SomeUnreleased(events: seq<Event>) {
    Unreleased(events, Egress) || Unreleased(events, Worker) || Unreleased(events, Verifier)
  }

  predicate Reaped(c: Cleanup) { c.reap == Some(ReapAnswer(true, 0)) }

  /** The port says that it reaped, with a valid count. */
  predicate Reaps(c: Cleanup) {
    c.reap.Some? && c.reap.value.succeeded && 0 <= c.reap.value.remaining <= MAX_REMAINING
  }

  /** The processes left by the port's count; one, when it gave none that is valid. */
  function RemainingBy(c: Cleanup): int {
    if c.reap.Some? && 0 <= c.reap.value.remaining <= MAX_REMAINING then c.reap.value.remaining else 1
  }

  /** The containment has done all it can: every action succeeded, nothing remains, every role
      is released and the controller stopped; and the failure is none of the cleanup itself. */
  predicate FullyCleaned(was: seq<Event>, events: seq<Event>, code: FailureCode, c: Cleanup) {
    code !in {ContainmentActionFailed, ControllerStopFailed, CgroupReleaseFailed}
    && (SomeUnreleased(was) ==> c.freeze && c.kill && Reaped(c))
    && !SomeUnreleased(events) && c.stop
  }

  /** The events a containment appends: the failure, the actions if there were any to take, and the
      controller's stop as the last. */
  ghost predicate TailTold(was: seq<Event>, events: seq<Event>, acted: bool, code: FailureCode, c: Cleanup,
                           controller: string) {
    var n := |was|;
    was <= events && |events| > n && events[n].body == FailureObserved(PhaseOf(code), code)
    && (acted ==>
          |events| > n + 3 && events[n + 1].body == Contained(Freeze, c.freeze)
          && events[n + 2].body == Contained(Kill, c.kill) && events[n + 3].body == Contained(Reap, Reaps(c)))
    && (c.stop <==> events[|events| - 1].body == ControllerStopped(controller))
  }

  /** The evidence of one containment for `code` of a session with transcript `was`. */
  ghost predicate Tells(was: seq<Event>, code: FailureCode, c: Cleanup, controller: string, e: Evidence) {
    e.ObservedFailure? && e.code == code && e.phase == PhaseOf(code)
    && TailTold(was, e.events, SomeUnreleased(was), code, c, controller)
    && (forall r :: SettledAs(was, e.events, r, r in c.released))
    && e.aggregate == TotalUsage(was) && e.remaining == (if SomeUnreleased(was) then RemainingBy(c) else 0)
    && e.outcome == (if !FullyCleaned(was, e.events, code, c) then ContainmentIncomplete
                     else if code.CpuBudgetExceeded? then OverBudgetContained else LinuxControllerFailure)
  }

  /** The step ended the session with accepted evidence of a containment for `code`. */
  ghost predicate ContainedAs(cfg: Config, was: seq<Event>, code: FailureCode, c: Cleanup, step: Step) {
    step.reply.Candidate? && Accepts(cfg.h, step.reply.value, cfg.binding) && !step.next.poisoned
    && step.next.terminal == Some(step.reply.value) && step.next.events == step.reply.value.body.events
    && Tells(was, code, c, cfg.controller, step.reply.value.body)
  }

  function PhaseAfter(phase: Phase, released: bool): Phase {
    if phase.ReleasedPhase? || released then ReleasedPhase
    else if phase.RunningPhase? then StoppedPhase else phase
  }

  ghost predicate PhaseSettled(roles: map<Role, RoleState>, roles': map<Role, RoleState>, r: Role, released: bool) {
    (r in roles' <==> r in roles) && (r in roles ==> roles'[r].phase == PhaseAfter(roles[r].phase, released))
  }

  ghost predicate RecordKept(roles: map<Role, RoleState>, roles': map<Role, RoleState>, r: Role) {
    (r in roles' <==> r in roles) && (r in roles ==> roles'[r] == roles[r])
  }

  lemma SettleRolePhase(s: Session, r: Role, released: bool, clock: Clock)
    requires !SettleRole(s, r, released, clock).poisoned
    ensures PhaseSettled(s.roles, SettleRole(s, r, released, clock).roles, r, released)
    ensures forall q | q != r :: RecordKept(s.roles, SettleRole(s, r, released, clock).roles, q)
  {}

  lemma RolePhase(s: Session, s1: Session, s2: Session, s3: Session, c: Cleanup, r: Role)
    requires PhaseSettled(s.roles, s1.roles, Egress, Egress in c.released)
    requires forall q | q != Egress :: RecordKept(s.roles, s1.roles, q)
    requires PhaseSettled(s1.roles, s2.roles, Worker, Worker in c.released)
    requires forall q | q != Worker :: RecordKept(s1.roles, s2.roles, q)
    requires PhaseSettled(s2.roles, s3.roles, Verifier, Verifier in c.released)
    requires forall q | q != Verifier :: RecordKept(s2.roles, s3.roles, q)
    ensures PhaseSettled(s.roles, s3.roles, r, r in c.released)
  {
    assert r != Egress ==> RecordKept(s.roles, s1.roles, r);
    assert r != Worker ==> RecordKept(s1.roles, s2.roles, r);
    assert r != Verifier ==> RecordKept(s2.roles, s3.roles, r);
  }

  lemma SettlePhases(s: Session, c: Cleanup, clock: Clock)
    requires !SettleRoles(s, c, clock).poisoned
    ensures forall r :: PhaseSettled(s.roles, SettleRoles(s, c, clock).roles, r, r in c.released)
  {
    var s1 := SettleRole(s, Egress, Egress in c.released, clock);
    var s2 := SettleRole(s1, Worker, Worker in c.released, clock);
    var s3 := SettleRole(s2, Verifier, Verifier in c.released, clock);
    PoisonStays(s1, Worker, Worker in c.released, clock);
    PoisonStays(s2, Verifier, Verifier in c.released, clock);
    SettleRolePhase(s, Egress, Egress in c.released, clock);
    SettleRolePhase(s1, Worker, Worker in c.released, clock);
    SettleRolePhase(s2, Verifier, Verifier in c.released, clock);
    forall r
      ensures PhaseSettled(s.roles, s3.roles, r, r in c.released)
    {
      RolePhase(s, s1, s2, s3, c, r);
    }
  }

  lemma PoisonStays(s: Session, r: Role, released: bool, clock: Clock)
    ensures s.poisoned ==> SettleRole(s, r, released, clock).poisoned
  {}

  lemma ContainedPhases(cfg: Config, s: Session, phase: FailurePhase, code: FailureCode, c: Cleanup, clock: Clock)
    requires !ContainedSession(cfg, s, phase, code, c, clock).poisoned
    ensures forall r :: PhaseSettled(s.roles, ContainedSession(cfg, s, phase, code, c, clock).roles, r, r in c.released)
  {
    var observed := Append(s, FailureObserved(phase, code), clock);
    if AnyUnfinished(s) {
      var acted := ActOnRoles(observed, c, clock);
      assert !SettleRoles(acted, c, clock).poisoned && acted.roles == s.roles;
      SettlePhases(acted, c, clock);
    }
  }

  lemma PhasesRead(was: seq<Event>, events: seq<Event>, roles: map<Role, RoleState>, roles': map<Role, RoleState>,
                   r: Role, released: bool, n: int)
    requires ReadOff(was, roles, r) && ReadOff(events, roles', r)
    requires RecordedAt(was, roles, r) && RecordedAt(events, roles', r)
    requires PhaseSettled(roles, roles', r, released) && KeptAt(roles, roles', n, r)
    requires Seen(was, KStarted(r)) <==> r in roles && roles[r].startedAt.Some?
    requires Seen(events, KStarted(r)) <==> r in roles' && roles'[r].startedAt.Some?
    requires Seen(events, KStopped(r)) <==> r in roles' && roles'[r].stoppedAt.Some?
    ensures SettledAs(was, events, r, released)
  {}

  lemma StepsRead(events: seq<Event>, roles: map<Role, RoleState>, r: Role)
    requires AllRecorded(events, roles) && AllExplained(events, roles) && Contiguous(events)
    ensures Seen(events, KStarted(r)) <==> r in roles && roles[r].startedAt.Some?
    ensures Seen(events, KStopped(r)) <==> r in roles && roles[r].stoppedAt.Some?
  {
    if r in roles {
      Transcripts.OnceSelected(events, roles, r);
    } else {
      UnboundReads(events, roles, r, KStarted(r));
      UnboundReads(events, roles, r, KStopped(r));
    }
  }

  lemma SettlingReads(was: seq<Event>, events: seq<Event>, roles: map<Role, RoleState>, roles': map<Role, RoleState>,
                      r: Role, released: bool, n: int)
    requires AllRecorded(was, roles) && AllExplained(was, roles) && Contiguous(was)
    requires AllRecorded(events, roles') && AllExplained(events, roles') && Contiguous(events)
    requires PhaseSettled(roles, roles', r, released) && KeptAt(roles, roles', n, r)
    ensures SettledAs(was, events, r, released)
  {
    RoleReads(was, roles, r);
    RoleReads(events, roles', r);
    StepsRead(was, roles, r);
    StepsRead(events, roles', r);
    assert RecordedAt(was, roles, r) && RecordedAt(events, roles', r);
    PhasesRead(was, events, roles, roles', r, released, n);
  }

  /** The same, read off the transcripts. */
  lemma ContainedReads(cfg: Config, s: Session, phase: FailurePhase, code: FailureCode, c: Cleanup, done: Session,
                       t: Tail)
    requires Consistent(cfg, s, 1) && ContainedBy(cfg, s, phase, code, c, done, t)
    requires forall r :: PhaseSettled(s.roles, done.roles, r, r in c.released)
    ensures forall r :: SettledAs(s.events, done.events, r, r in c.released)
  {
    forall r
      ensures SettledAs(s.events, done.events, r, r in c.released)
    {
      assert PhaseSettled(s.roles, done.roles, r, r in c.released) && KeptAt(s.roles, done.roles, |s.events| + 1, r);
      SettlingReads(s.events, done.events, s.roles, done.roles, r, r in c.released, |s.events| + 1);
    }
  }

  lemma UnfinishedReads(events: seq<Event>, roles: map<Role, RoleState>)
    requires forall r :: ReadOff(events, roles, r)
    ensures (exists r | r in roles :: !roles[r].phase.ReleasedPhase?) <==> SomeUnreleased(events)
  {
    assert ReadOff(events, roles, Egress) && ReadOff(events, roles, Worker) && ReadOff(events, roles, Verifier);
    forall r | r in roles
      ensures Unreleased(events, r) <==> !roles[r].phase.ReleasedPhase?
    {
      assert ReadOff(events, roles, r);
    }
    if r: Role :| r in roles && !roles[r].phase.ReleasedPhase? {
      match r { case Egress => case Worker => case Verifier => }
    }
  }

  lemma ReapsExactly(c: Cleanup)
    ensures Reaps(c) == ReapOf(c).succeeded
    ensures Reaped(c) <==> ReapOf(c).succeeded && ReapOf(c).remaining == 0
    ensures RemainingBy(c) == ReapOf(c).remaining
  {}

  /** Where the parts of a tail stand in it. */
  lemma TailPlaces(t: Tail)
    ensures var tail := TailEvents(t);
            |tail| > |t.actions| && tail[0] == t.failure
            && (forall i | 0 <= i < |t.actions| :: tail[1 + i] == t.actions[i])
            && tail[|tail| - 1] == if t.stops != [] then t.stops[|t.stops| - 1]
                                   else if t.settles != [] then t.settles[|t.settles| - 1]
                                   else if t.actions != [] then t.actions[|t.actions| - 1] else t.failure
  {}

  lemma FirstOfTail(was: seq<Event>, events: seq<Event>, tail: seq<Event>)
    requires events == was + tail
    ensures was <= events && forall i | 0 <= i < |tail| :: events[|was| + i] == tail[i]
    ensures tail != [] ==> events[|events| - 1] == tail[|tail| - 1]
  {}

  lemma TailTells(cfg: Config, s: Session, phase: FailurePhase, code: FailureCode, c: Cleanup, done: Session, t: Tail)
    requires done.events == s.events + TailEvents(t) && TailOf(cfg, s, phase, code, c, t) && PhaseOf(code) == phase
    ensures TailTold(s.events, done.events, AnyUnfinished(s), code, c, cfg.controller)
  {
    ReapsExactly(c);
    TailPlaces(t);
    FirstOfTail(s.events, done.events, TailEvents(t));
    if t.settles != [] {
      assert SettlesAt(t.settles, |t.settles| - 1);
    }
  }

  lemma AccountsRead(cfg: Config, s: Session, phase: FailurePhase, code: FailureCode, c: Cleanup, done: Session,
                     t: Tail)
    requires Consistent(cfg, s, 1) && ContainedBy(cfg, s, phase, code, c, done, t)
    ensures AnyUnfinished(s) <==> SomeUnreleased(s.events)
    ensures AnyUnfinished(done) <==> SomeUnreleased(done.events)
    ensures Aggregate(done.roles) == TotalUsage(s.events)
  {
    SessionReads(cfg, s, 1);
    SessionReads(cfg, done, 2 + |t.actions| + |t.stops|);
    UnfinishedReads(s.events, s.roles);
    UnfinishedReads(done.events, done.roles);
    KeptAggregate(s.roles, done.roles, |s.events| + 1);
  }

  /** The body of a containment's evidence, once its transcript and its roles are told. */
  lemma BodyIsTold(cfg: Config, was: seq<Event>, acted: bool, done: Session, phase: FailurePhase, code: FailureCode,
                   c: Cleanup, d: FailureDigests)
    requires TailTold(was, done.events, acted, code, c, cfg.controller) && PhaseOf(code) == phase
    requires (acted <==> SomeUnreleased(was)) && (AnyUnfinished(done) <==> SomeUnreleased(done.events))
    requires Aggregate(done.roles) == TotalUsage(was)
    requires forall r :: SettledAs(was, done.events, r, r in c.released)
    ensures Tells(was, code, c, cfg.controller, FailureBody(cfg, acted, done, phase, code, c, d))
  {
    CompleteExactly(was, acted, done, code, c);
    ReapsExactly(c);
  }

  lemma CompleteExactly(was: seq<Event>, acted: bool, done: Session, code: FailureCode, c: Cleanup)
    requires (acted <==> SomeUnreleased(was)) && (AnyUnfinished(done) <==> SomeUnreleased(done.events))
    ensures ContainmentComplete(acted, done, code, c) <==> FullyCleaned(was, done.events, code, c)
  {
    ReapsExactly(c);
  }

  lemma BodyTells(cfg: Config, s: Session, phase: FailurePhase, code: FailureCode, c: Cleanup, done: Session, t: Tail,
                  d: FailureDigests)
    requires Consistent(cfg, s, 1) && ContainedBy(cfg, s, phase, code, c, done, t) && PhaseOf(code) == phase
    requires forall r :: PhaseSettled(s.roles, done.roles, r, r in c.released)
    ensures Tells(s.events, code, c, cfg.controller, FailureBody(cfg, AnyUnfinished(s), done, phase, code, c, d))
  {
    ContainedReads(cfg, s, phase, code, c, done, t);
    TailTells(cfg, s, phase, code, c, done, t);
    AccountsRead(cfg, s, phase, code, c, done, t);
    BodyIsTold(cfg, s.events, AnyUnfinished(s), done, phase, code, c, d);
  }

  lemma ContainBodyTells(cfg: Config, s: Session, phase: FailurePhase, code: FailureCode, c: Cleanup, clock: Clock,
                         d: FailureDigests)
    requires Consistent(cfg, s, 1) && PhaseOf(code) == phase
    requires !ContainedSession(cfg, s, phase, code, c, clock).poisoned
    ensures var done := ContainedSession(cfg, s, phase, code, c, clock);
            Tells(s.events, code, c, cfg.controller, FailureBody(cfg, AnyUnfinished(s), done, phase, code, c, d))
  {
    var done := ContainedSession(cfg, s, phase, code, c, clock);
    ContainKeeps(cfg, s, phase, code, c, clock);
    var t :| ContainedBy(cfg, s, phase, code, c, done, t);
    ContainedPhases(cfg, s, phase, code, c, clock);
    BodyTells(cfg, s, phase, code, c, done, t, d);
  }

  /** What a recorded containment leaves behind, told on the transcript it started from. */
  lemma ContainTells(cfg: Config, s: Session, phase: FailurePhase, code: FailureCode, c: Cleanup, clock: Clock)
    requires ValidConfig(cfg) && Containable(cfg, s) && PhaseOf(code) == phase && Reportable(cfg, s, code, c)
    requires !ContainedSession(cfg, s, phase, code, c, clock).poisoned
    ensures ContainedAs(cfg, s.events, code, c, ContainFailure(cfg, s, phase, code, c, clock))
  {
    ContainSubmits(cfg, s, phase, code, c, clock);
    ContainAccepted(cfg, s, phase, code, c, clock);
    ContainBodyTells(cfg, s, phase, code, c, clock,
      DigestsOf(cfg, ContainedSession(cfg, s, phase, code, c, clock)).value);
  }

  // ---- appending ----

  function Stamp(clock: Clock, n: nat): int { if clock(n).reading.Some? then clock(n).reading.value else 0 }

  /** The transcript with one more event. */
  function Extended(events: seq<Event>, body: EventBody, clock: Clock): seq<Event> {
    events + [Event(|events| + 1, Stamp(clock, |events|), body)]
  }

  lemma AppendExtends(s: Session, body: EventBody, clock: Clock, top: nat)
    requires Steady(s, clock, top) && |s.events| < top <= MAX_EVENTS
    ensures var s1 := Append(s, body, clock);
            Steady(s1, clock, top) && s1.events == Extended(s.events, body, clock) && s1.roles == s.roles
            && s1.terminal == s.terminal
  {
    AppendSteady(s, body, clock, top);
  }

  /** Room for what one operation may append. */
  const ROOM: nat := 14

  lemma LiveHasRoom(cfg: Config, s: Session)
    requires Live(cfg, s)
    ensures |s.events| + ROOM <= MAX_EVENTS
  {
    BoundedEvents(cfg, s);
  }

  // ---- one reading ----

  predicate ReadFails(answer: Option<BoundAnswer>) {
    answer.None? || !IsSha256(answer.value.cgroup) || !IsUint64(answer.value.usage)
  }

  /** The account the transcript would have with one more reading of the role. */
  function AccountWith(events: seq<Event>, r: Role, usage: int): int {
    TotalUsage(events) - LastReading(events, r) + usage
  }

  /** A reading of the bound cgroup, not below the last one, within the limits. */
  predicate Healthy(cfg: Config, events: seq<Event>, r: Role, cgroup: string, answer: Option<BoundAnswer>) {
    !ReadFails(answer) && answer.value.cgroup == cgroup && LastReading(events, r) <= answer.value.usage
    && ReadingCount(events, r) < MAX_ROLE_SAMPLES && AccountWith(events, r, answer.value.usage) <= cfg.binding.budget
  }

  /** The event that records a reading. */
  function SampleEvent(was: seq<Event>, r: Role, id: Identity, usage: int): EventBody {
    CpuSample(r, id.binding, ReadingCount(was, r), usage)
  }

  /** What a reading that is not healthy ends in: a containment for the code of the first check
      it fails, or for one reading too many or an account past 64 bits a poisoned session. */
  ghost predicate Faulted(cfg: Config, was: seq<Event>, r: Role, id: Identity, answer: Option<BoundAnswer>, c: Cleanup,
                          after: seq<Event>, clock: Clock, step: Step) {
    if ReadFails(answer) then ContainedAs(cfg, after, CpuStatReadFailed, c, step)
    else if answer.value.cgroup != id.cgroup then ContainedAs(cfg, after, RoleIdentityDrift, c, step)
    else if answer.value.usage < LastReading(was, r) then ContainedAs(cfg, after, CpuCounterRegression, c, step)
    else if ReadingCount(was, r) >= MAX_ROLE_SAMPLES || AccountWith(was, r, answer.value.usage) > MAX_UINT64 then
      step.reply.Threw? && step.next.poisoned
    else
      ContainedAs(cfg, Extended(after, SampleEvent(was, r, id, answer.value.usage), clock), CpuBudgetExceeded, c, step)
  }

  lemma RecordExtends(s: Session, r: Role, usage: int, clock: Clock, top: nat)
    requires r in s.roles && |s.roles[r].samples| < MAX_ROLE_SAMPLES
    requires Steady(s, clock, top) && |s.events| < top <= MAX_EVENTS
    ensures var s1, st := RecordSample(s, r, usage, clock), s.roles[r];
            Steady(s1, clock, top) && s1.terminal == s.terminal
            && s1.events == Extended(s.events, CpuSample(r, st.id.binding, |st.samples|, usage), clock)
            && s1.roles == s.roles[r := Sampled(st, usage, |s.events| + 1)]
  {
    var st := s.roles[r];
    AppendExtends(s, CpuSample(r, st.id.binding, |st.samples|, usage), clock, top);
  }

  lemma ContainWith(cfg: Config, s: Session, code: FailureCode, c: Cleanup, clock: Clock)
    requires ValidConfig(cfg) && Containable(cfg, s) && Reportable(cfg, s, code, c)
    requires Steady(s, clock, |s.events| + 11) && |s.events| + 11 <= MAX_EVENTS
    ensures ContainedAs(cfg, s.events, code, c, ContainFailure(cfg, s, PhaseOf(code), code, c, clock))
  {
    ContainedSteady(cfg, s, PhaseOf(code), code, c, clock);
    ContainTells(cfg, s, PhaseOf(code), code, c, clock);
  }

  lemma SteadyLess(s: Session, clock: Clock, top: nat, less: nat)
    requires Steady(s, clock, top) && |s.events| < less <= top
    ensures Steady(s, clock, less)
  {}

  /** The account after a sample, by the records. */
  lemma SampledAccount(roles: map<Role, RoleState>, r: Role, usage: int, n: int)
    requires r in roles
    ensures Aggregate(roles[r := Sampled(roles[r], usage, n)]) == Aggregate(roles) - roles[r].last + usage
  {}

  /** The records of role `r` in `s` are those of the transcript `was`. */
  ghost predicate RecordsOf(s: Session, r: Role, was: seq<Event>) {
    r in s.roles && !s.roles[r].phase.ReleasedPhase?
    && LastReading(was, r) == s.roles[r].last && ReadingCount(was, r) == |s.roles[r].samples|
    && TotalUsage(was) == Aggregate(s.roles)
  }

  ghost predicate HasRoom(s: Session, clock: Clock) {
    Steady(s, clock, |s.events| + 12) && |s.events| + 12 <= MAX_EVENTS
  }

  lemma ObserveRecords(cfg: Config, s: Session, r: Role, answer: Option<BoundAnswer>, c: Cleanup, clock: Clock,
                       was: seq<Event>)
    requires RecordsOf(s, r, was) && HasRoom(s, clock) && cfg.binding.budget <= MAX_UINT64
    requires Healthy(cfg, was, r, s.roles[r].id.cgroup, answer)
    ensures var st, step := s.roles[r], ObserveUsage(cfg, s, r, answer, c, clock);
            step.reply.Done?
            && step.next.events == Extended(s.events, SampleEvent(was, r, st.id, answer.value.usage), clock)
            && step.next.roles == s.roles[r := Sampled(st, answer.value.usage, |s.events| + 1)]
  {
    RecordExtends(s, r, answer.value.usage, clock, |s.events| + 12);
    SampledAccount(s.roles, r, answer.value.usage, |s.events| + 1);
  }

  lemma SampledOver(cfg: Config, s: Session, r: Role, usage: int, c: Cleanup, clock: Clock, was: seq<Event>)
    requires Intact(cfg, s) && RecordsOf(s, r, was) && HasRoom(s, clock) && IsUint64(usage)
    requires s.roles[r].last <= usage && |s.roles[r].samples| < MAX_ROLE_SAMPLES
    requires cfg.binding.budget < AccountWith(was, r, usage) <= MAX_UINT64
    ensures var s1 := RecordSample(s, r, usage, clock);
            Containable(cfg, s1) && Reportable(cfg, s1, CpuBudgetExceeded, c)
            && s1.events == Extended(s.events, SampleEvent(was, r, s.roles[r].id, usage), clock)
            && Steady(s1, clock, |s1.events| + 11) && |s1.events| + 11 <= MAX_EVENTS
  {
    RecordExtends(s, r, usage, clock, |s.events| + 12);
    SampledAccount(s.roles, r, usage, |s.events| + 1);
    RecordSampleKeeps(cfg, s, r, usage, clock);
    var s1 := RecordSample(s, r, usage, clock);
    assert r in s1.roles && !s1.roles[r].phase.ReleasedPhase?;
  }

  lemma AccountIsContained(cfg: Config, s: Session, r: Role, usage: int, c: Cleanup, clock: Clock)
    requires r in s.roles
    requires var s1 := RecordSample(s, r, usage, clock);
             !s1.poisoned && cfg.binding.budget < Aggregate(s1.roles) <= MAX_UINT64
    ensures AccountUsage(cfg, s, r, usage, c, clock)
         == ContainFailure(cfg, RecordSample(s, r, usage, clock), Sampling, CpuBudgetExceeded, c, clock)
  {}

  /** A reading that fits the records and passes the budget. */
  lemma AccountFaults(cfg: Config, s: Session, r: Role, usage: int, c: Cleanup, clock: Clock, was: seq<Event>)
    requires ValidConfig(cfg) && Intact(cfg, s) && RecordsOf(s, r, was) && HasRoom(s, clock) && IsUint64(usage)
    requires s.roles[r].last <= usage && |s.roles[r].samples| < MAX_ROLE_SAMPLES
    requires cfg.binding.budget < AccountWith(was, r, usage) <= MAX_UINT64
    ensures ContainedAs(cfg, Extended(s.events, SampleEvent(was, r, s.roles[r].id, usage), clock), CpuBudgetExceeded, c,
              AccountUsage(cfg, s, r, usage, c, clock))
  {
    SampledOver(cfg, s, r, usage, c, clock, was);
    AccountIsContained(cfg, s, r, usage, c, clock);
    ContainWith(cfg, RecordSample(s, r, usage, clock), CpuBudgetExceeded, c, clock);
  }

  /** A reading that meets a limit of the producer itself. */
  lemma LimitFaults(cfg: Config, s: Session, r: Role, usage: int, c: Cleanup, clock: Clock, was: seq<Event>)
    requires RecordsOf(s, r, was) && HasRoom(s, clock)
    requires ReadingCount(was, r) >= MAX_ROLE_SAMPLES || AccountWith(was, r, usage) > MAX_UINT64
    ensures var step := AccountUsage(cfg, s, r, usage, c, clock); step.reply.Threw? && step.next.poisoned
  {
    if ReadingCount(was, r) < MAX_ROLE_SAMPLES {
      RecordExtends(s, r, usage, clock, |s.events| + 12);
      SampledAccount(s.roles, r, usage, |s.events| + 1);
    }
  }

  lemma ReadingFaults(cfg: Config, s: Session, code: FailureCode, c: Cleanup, clock: Clock)
    requires ValidConfig(cfg) && Intact(cfg, s) && Aggregate(s.roles) <= cfg.binding.budget && HasRoom(s, clock)
    requires code in {CpuStatReadFailed, RoleIdentityDrift, CpuCounterRegression}
    ensures ContainedAs(cfg, s.events, code, c, ContainFailure(cfg, s, Sampling, code, c, clock))
  {
    SteadyLess(s, clock, |s.events| + 12, |s.events| + 11);
    ContainWith(cfg, s, code, c, clock);
  }

  /** One reading that is not healthy. */
  lemma ObserveFaults(cfg: Config, s: Session, r: Role, answer: Option<BoundAnswer>, c: Cleanup, clock: Clock,
                      was: seq<Event>)
    requires Faultable(cfg, s, r, clock, was) && !Healthy(cfg, was, r, s.roles[r].id.cgroup, answer)
    ensures Faulted(cfg, was, r, s.roles[r].id, answer, c, s.events, clock, ObserveUsage(cfg, s, r, answer, c, clock))
  {
    var fault := FaultOf(s.roles[r], answer);
    if fault.Some? {
      ReadingFaults(cfg, s, fault.value, c, clock);
    } else if ReadingCount(was, r) >= MAX_ROLE_SAMPLES || AccountWith(was, r, answer.value.usage) > MAX_UINT64 {
      LimitFaults(cfg, s, r, answer.value.usage, c, clock, was);
    } else {
      AccountFaults(cfg, s, r, answer.value.usage, c, clock, was);
    }
  }

  // ---- sampling and stopping ----

  /** A healthy reading is recorded, past `after`, and in the record `st` of its role. */
  ghost predicate Extends(s: Session, r: Role, answer: Option<BoundAnswer>, st: RoleState, after: seq<Event>,
                          clock: Clock, step: Step) {
    step.reply.Done? && answer.Some?
    && step.next.roles == s.roles[r := Sampled(st, answer.value.usage, |after| + 1)]
    && step.next.events == Extended(after, SampleEvent(s.events, r, st.id, answer.value.usage), clock)
  }

  ghost predicate Recorded(cfg: Config, s: Session, r: Role, answer: Option<BoundAnswer>, st: RoleState,
                           after: seq<Event>, clock: Clock, step: Step) {
    Live(cfg, step.next) && Extends(s, r, answer, st, after, clock, step)
  }

  /** The records of one role in a live session. */
  lemma RoleRecords(cfg: Config, s: Session, r: Role)
    requires Live(cfg, s)
    ensures ReadOff(s.events, s.roles, r) && TotalUsage(s.events) == Aggregate(s.roles)
    ensures Intact(cfg, s) && Aggregate(s.roles) <= cfg.binding.budget && |s.events| + ROOM <= MAX_EVENTS
  {
    SessionReads(cfg, s, 1);
    LiveHasRoom(cfg, s);
  }

  /** Phases by the records and by the transcript. */
  lemma PhaseRead(cfg: Config, s: Session, r: Role)
    requires Live(cfg, s)
    ensures Seen(s.events, KBound(r)) <==> r in s.roles
    ensures AwaitsStart(s.events, r) <==> InPhase(s, r, BoundPhase)
    ensures NowRuns(s.events, r) <==> InPhase(s, r, RunningPhase)
    ensures HasStopped(s.events, r) <==> InPhase(s, r, StoppedPhase)
    ensures HasReleased(s.events, r) <==> InPhase(s, r, ReleasedPhase)
  {
    RoleRecords(cfg, s, r);
  }

  lemma RunningRecords(cfg: Config, s: Session, r: Role, clock: Clock)
    requires Live(cfg, s) && Steady(s, clock, |s.events| + ROOM) && InPhase(s, r, RunningPhase)
    ensures RecordsOf(s, r, s.events) && HasRoom(s, clock)
  {
    RoleRecords(cfg, s, r);
    SteadyLess(s, clock, |s.events| + ROOM, |s.events| + 12);
  }

  lemma SampleDoneLive(cfg: Config, s: Session, r: Role, answer: Option<BoundAnswer>, c: Cleanup, clock: Clock)
    requires ValidConfig(cfg) && Live(cfg, s) && SampleRole(cfg, s, r, answer, c, clock).reply.Done?
    ensures Live(cfg, SampleRole(cfg, s, r, answer, c, clock).next)
  {
    SampleEnds(cfg, s, r, answer, c, clock);
  }

  lemma SampleExtends(cfg: Config, s: Session, r: Role, answer: Option<BoundAnswer>, c: Cleanup, clock: Clock)
    requires Mutable(s) && InPhase(s, r, RunningPhase) && RecordsOf(s, r, s.events) && HasRoom(s, clock)
    requires cfg.binding.budget <= MAX_UINT64 && Healthy(cfg, s.events, r, s.roles[r].id.cgroup, answer)
    ensures Extends(s, r, answer, s.roles[r], s.events, clock, SampleRole(cfg, s, r, answer, c, clock))
  {
    ObserveRecords(cfg, s, r, answer, c, clock, s.events);
  }

  /** A healthy sample of a running role is recorded. */
  lemma SampleRecords(cfg: Config, s: Session, r: Role, answer: Option<BoundAnswer>, c: Cleanup, clock: Clock)
    requires ValidConfig(cfg) && Live(cfg, s) && Steady(s, clock, |s.events| + ROOM)
    requires NowRuns(s.events, r) && r in s.roles && Healthy(cfg, s.events, r, s.roles[r].id.cgroup, answer)
    ensures Recorded(cfg, s, r, answer, s.roles[r], s.events, clock, SampleRole(cfg, s, r, answer, c, clock))
  {
    PhaseRead(cfg, s, r);
    RunningRecords(cfg, s, r, clock);
    SampleExtends(cfg, s, r, answer, c, clock);
    SampleDoneLive(cfg, s, r, answer, c, clock);
  }

  /** The session can be contained after a reading that is not recorded. */
  ghost predicate Faultable(cfg: Config, s: Session, r: Role, clock: Clock, was: seq<Event>) {
    ValidConfig(cfg) && Intact(cfg, s) && RecordsOf(s, r, was) && HasRoom(s, clock)
    && Aggregate(s.roles) <= cfg.binding.budget
  }

  lemma RunningFaultable(cfg: Config, s: Session, r: Role, clock: Clock)
    requires ValidConfig(cfg) && Live(cfg, s) && Steady(s, clock, |s.events| + ROOM) && NowRuns(s.events, r)
    ensures InPhase(s, r, RunningPhase) && Faultable(cfg, s, r, clock, s.events)
  {
    PhaseRead(cfg, s, r);
    RunningRecords(cfg, s, r, clock);
  }

  /** Any other is contained for its own fault, or meets the producer's limits. */
  lemma SampleFaults(cfg: Config, s: Session, r: Role, answer: Option<BoundAnswer>, c: Cleanup, clock: Clock)
    requires ValidConfig(cfg) && Live(cfg, s) && Steady(s, clock, |s.events| + ROOM)
    requires NowRuns(s.events, r) && r in s.roles && !Healthy(cfg, s.events, r, s.roles[r].id.cgroup, answer)
    ensures Faulted(cfg, s.events, r, s.roles[r].id, answer, c, s.events, clock,
              SampleRole(cfg, s, r, answer, c, clock))
  {
    RunningFaultable(cfg, s, r, clock);
    ObserveFaults(cfg, s, r, answer, c, clock, s.events);
  }

  lemma FaultedIsNotDone(cfg: Config, was: seq<Event>, r: Role, id: Identity, answer: Option<BoundAnswer>, c: Cleanup,
                         after: seq<Event>, clock: Clock, step: Step)
    requires Faulted(cfg, was, r, id, answer, c, after, clock, step)
    ensures !step.reply.Done?
  {}

  /** A sample is done exactly for a running role and a healthy reading; of a role that does not
      run it is refused and changes nothing. */
  lemma SampleDoneExactly(cfg: Config, s: Session, r: Role, answer: Option<BoundAnswer>, c: Cleanup, clock: Clock)
    requires ValidConfig(cfg) && Live(cfg, s) && Steady(s, clock, |s.events| + ROOM)
    ensures SampleRole(cfg, s, r, answer, c, clock).reply.Done?
            <==> NowRuns(s.events, r) && r in s.roles && Healthy(cfg, s.events, r, s.roles[r].id.cgroup, answer)
    ensures !NowRuns(s.events, r) ==> SampleRole(cfg, s, r, answer, c, clock) == Step(s, Threw)
  {
    PhaseRead(cfg, s, r);
    if NowRuns(s.events, r) {
      if Healthy(cfg, s.events, r, s.roles[r].id.cgroup, answer) {
        SampleRecords(cfg, s, r, answer, c, clock);
      } else {
        SampleFaults(cfg, s, r, answer, c, clock);
        FaultedIsNotDone(cfg, s.events, r, s.roles[r].id, answer, c, s.events, clock,
          SampleRole(cfg, s, r, answer, c, clock));
      }
    }
  }

  /** Egress cannot stop before the worker is released. */
  predicate MayStop(events: seq<Event>, r: Role) { NowRuns(events, r) && (r.Egress? ==> HasReleased(events, Worker)) }

  function StopEvents(s: Session, r: Role, clock: Clock): seq<Event>
    requires r in s.roles
  {
    Extended(s.events, RoleStopped(r, s.roles[r].id.binding), clock)
  }

  lemma StopExtends(s: Session, r: Role, clock: Clock, was: seq<Event>)
    requires RecordsOf(s, r, was) && Steady(s, clock, |s.events| + ROOM) && |s.events| + ROOM <= MAX_EVENTS
    ensures var s1 := StopEvent(s, r, clock);
            s1.events == StopEvents(s, r, clock) && RecordsOf(s1, r, was) && HasRoom(s1, clock) && !s1.poisoned
            && s1.roles == s.roles[r := Stopped(s.roles[r], |s.events| + 1)] && s1.terminal == s.terminal
  {
    AppendExtends(s, RoleStopped(r, s.roles[r].id.binding), clock, |s.events| + ROOM);
    SteadyLess(StopEvent(s, r, clock), clock, |s.events| + ROOM, |s.events| + 13);
  }

  lemma StoppedRecords(cfg: Config, s: Session, r: Role, clock: Clock)
    requires ValidConfig(cfg) && Live(cfg, s) && Steady(s, clock, |s.events| + ROOM) && MayStop(s.events, r)
    ensures InPhase(s, r, RunningPhase) && (r.Egress? ==> InPhase(s, Worker, ReleasedPhase))
    ensures RecordsOf(s, r, s.events) && |s.events| + ROOM <= MAX_EVENTS
    ensures Faultable(cfg, StopEvent(s, r, clock), r, clock, s.events)
  {
    PhaseRead(cfg, s, r);
    PhaseRead(cfg, s, Worker);
    RunningRecords(cfg, s, r, clock);
    LiveHasRoom(cfg, s);
    StopExtends(s, r, clock, s.events);
    StopEventKeeps(cfg, s, r, clock);
  }

  lemma StopDoneLive(cfg: Config, s: Session, r: Role, answer: Option<BoundAnswer>, c: Cleanup, clock: Clock)
    requires ValidConfig(cfg) && Live(cfg, s) && StopRole(cfg, s, r, answer, c, clock).reply.Done?
    ensures Live(cfg, StopRole(cfg, s, r, answer, c, clock).next)
  {
    StopEnds(cfg, s, r, answer, c, clock);
  }

  lemma StopReadingExtends(cfg: Config, s: Session, r: Role, answer: Option<BoundAnswer>, c: Cleanup, clock: Clock)
    requires Mutable(s) && InPhase(s, r, RunningPhase) && (r.Egress? ==> InPhase(s, Worker, ReleasedPhase))
    requires RecordsOf(s, r, s.events) && Steady(s, clock, |s.events| + ROOM) && |s.events| + ROOM <= MAX_EVENTS
    requires cfg.binding.budget <= MAX_UINT64 && Healthy(cfg, s.events, r, s.roles[r].id.cgroup, answer)
    ensures Extends(s, r, answer, Stopped(s.roles[r], |s.events| + 1), StopEvents(s, r, clock), clock,
              StopRole(cfg, s, r, answer, c, clock))
  {
    StopExtends(s, r, clock, s.events);
    ObserveRecords(cfg, StopEvent(s, r, clock), r, answer, c, clock, s.events);
  }

  /** A stop is recorded first, then its last reading if that is healthy. */
  lemma StopRecords(cfg: Config, s: Session, r: Role, answer: Option<BoundAnswer>, c: Cleanup, clock: Clock)
    requires ValidConfig(cfg) && Live(cfg, s) && Steady(s, clock, |s.events| + ROOM)
    requires MayStop(s.events, r) && r in s.roles && Healthy(cfg, s.events, r, s.roles[r].id.cgroup, answer)
    ensures Recorded(cfg, s, r, answer, Stopped(s.roles[r], |s.events| + 1), StopEvents(s, r, clock), clock,
              StopRole(cfg, s, r, answer, c, clock))
  {
    StoppedRecords(cfg, s, r, clock);
    StopReadingExtends(cfg, s, r, answer, c, clock);
    StopDoneLive(cfg, s, r, answer, c, clock);
  }

  lemma StopIsObserved(cfg: Config, s: Session, r: Role, answer: Option<BoundAnswer>, c: Cleanup, clock: Clock)
    requires Mutable(s) && InPhase(s, r, RunningPhase) && (r.Egress? ==> InPhase(s, Worker, ReleasedPhase))
    requires RecordsOf(s, r, s.events) && Steady(s, clock, |s.events| + ROOM) && |s.events| + ROOM <= MAX_EVENTS
    ensures var s1 := StopEvent(s, r, clock);
            r in s1.roles && s1.roles[r].id == s.roles[r].id && s1.events == StopEvents(s, r, clock)
            && StopRole(cfg, s, r, answer, c, clock) == ObserveUsage(cfg, s1, r, answer, c, clock)
  {
    StopExtends(s, r, clock, s.events);
  }

  /** Any other reading is contained after the stop, for its own fault. */
  lemma StopFaults(cfg: Config, s: Session, r: Role, answer: Option<BoundAnswer>, c: Cleanup, clock: Clock)
    requires ValidConfig(cfg) && Live(cfg, s) && Steady(s, clock, |s.events| + ROOM)
    requires MayStop(s.events, r) && r in s.roles && !Healthy(cfg, s.events, r, s.roles[r].id.cgroup, answer)
    ensures Faulted(cfg, s.events, r, s.roles[r].id, answer, c, StopEvents(s, r, clock), clock,
              StopRole(cfg, s, r, answer, c, clock))
  {
    StoppedRecords(cfg, s, r, clock);
    StopIsObserved(cfg, s, r, answer, c, clock);
    ObserveFaults(cfg, StopEvent(s, r, clock), r, answer, c, clock, s.events);
  }

  /** A stop is done exactly for a role that may stop and a healthy last reading; of any other
      role it is refused and changes nothing. */
  lemma StopDoneExactly(cfg: Config, s: Session, r: Role, answer: Option<BoundAnswer>, c: Cleanup, clock: Clock)
    requires ValidConfig(cfg) && Live(cfg, s) && Steady(s, clock, |s.events| + ROOM)
    ensures StopRole(cfg, s, r, answer, c, clock).reply.Done?
            <==> MayStop(s.events, r) && r in s.roles && Healthy(cfg, s.events, r, s.roles[r].id.cgroup, answer)
    ensures !MayStop(s.events, r) ==> StopRole(cfg, s, r, answer, c, clock) == Step(s, Threw)
  {
    PhaseRead(cfg, s, r);
    PhaseRead(cfg, s, Worker);
    if MayStop(s.events, r) {
      if Healthy(cfg, s.events, r, s.roles[r].id.cgroup, answer) {
        StopRecords(cfg, s, r, answer, c, clock);
      } else {
        StopFaults(cfg, s, r, answer, c, clock);
        FaultedIsNotDone(cfg, s.events, r, s.roles[r].id, answer, c, StopEvents(s, r, clock), clock,
          StopRole(cfg, s, r, answer, c, clock));
      }
    }
  }

  // ---- admission, start and release ----

  /** The admission order: egress first, the worker while egress runs, the verifier when both are
      released; each once. */
  predicate NextToBind(events: seq<Event>, r: Role) {
    !Seen(events, KBound(r))
    && (r.Worker? ==> NowRuns(events, Egress))
    && (r.Verifier? ==> HasReleased(events, Worker) && HasReleased(events, Egress))
  }

  /** No admitted role has the container, the cgroup or the binding digest. */
  ghost predicate FreshIdentity(roles: map<Role, RoleState>, id: Identity) {
    forall r | r in roles ::
      roles[r].id.docker.containerId != id.docker.containerId && roles[r].id.cgroup != id.cgroup
      && roles[r].id.binding != id.binding
  }

  /** The identity an admission gives. */
  function IdentityOf(cfg: Config, o: Observation, cgroup: string): Identity {
    Identity(o, cgroup, cfg.h(RoleBindingOf(cfg.binding.run, o, cgroup)))
  }

  lemma OrderRead(cfg: Config, s: Session, r: Role)
    requires Live(cfg, s)
    ensures AdmissionInOrder(s, r) <==> NextToBind(s.events, r)
    ensures NextToBind(s.events, r) ==> r !in s.roles
  {
    PhaseRead(cfg, s, Egress);
    PhaseRead(cfg, s, Worker);
    PhaseRead(cfg, s, r);
    RolesByCount(s.roles);
    if NextToBind(s.events, r) {
      CountIs(s.roles, r);
    }
  }

  lemma CountIs(roles: map<Role, RoleState>, r: Role)
    requires (Worker in roles ==> Egress in roles) && (Verifier in roles ==> Worker in roles) && r !in roles
    requires (r.Worker? ==> Egress in roles) && (r.Verifier? ==> Worker in roles)
    ensures |roles| < 3 && ROLES[|roles|] == r
  {
    assert |roles.Keys| == |roles|;
    forall q | q in roles.Keys
      ensures q in {Egress, Worker, Verifier}
    {
      match q { case Egress => case Worker => case Verifier => }
    }
    match r {
      case Egress => assert roles.Keys == {};
      case Worker => assert roles.Keys == {Egress};
      case Verifier => assert roles.Keys == {Egress, Worker};
    }
  }

  lemma AdmissionExtends(cfg: Config, s: Session, r: Role, id: Identity, usage: int, clock: Clock)
    requires Steady(s, clock, |s.events| + ROOM) && |s.events| + ROOM <= MAX_EVENTS && r !in s.roles
    ensures var s1, s2 := BoundEvent(s, r, id, clock), FirstSampled(s, r, id, usage, clock);
            !s1.poisoned && !s2.poisoned
            && s2.events == Extended(Extended(s.events, RoleBound(r, id.binding), clock),
                                     CpuSample(r, id.binding, 0, usage), clock)
            && s2.roles == s.roles[r := Bound(id, usage, |s.events|)]
  {
    var s1 := BoundEvent(s, r, id, clock);
    AppendExtends(s, RoleBound(r, id.binding), clock, |s.events| + ROOM);
    var st := RoleState(id, BoundPhase, usage, usage, [], [], |s.events| + 1, None, None, None);
    AppendExtends(Update(s1, r, st), CpuSample(r, id.binding, 0, usage), clock, |s.events| + ROOM);
    assert Sampled(st, usage, |s.events| + 2) == Bound(id, usage, |s.events|);
    assert s.roles[r := st][r := Bound(id, usage, |s.events|)] == s.roles[r := Bound(id, usage, |s.events|)];
  }

  lemma AdmissionDigest(cfg: Config, o: Observation, cgroup: string)
    requires ValidConfig(cfg) && ValidObservation(o) && IsSha256(cgroup)
    ensures Digest(cfg.h, RoleBindingOf(cfg.binding.run, o, cgroup))
         == if IsCalendarTimestamp(o.startedAt) then Some(IdentityOf(cfg, o, cgroup).binding) else None
  {}

  /** An admission succeeds exactly in order, for a valid observation whose start time also passes
      the calendar, with a valid answer of the port and a fresh identity; it is recorded as the
      bound event and the baseline.  A port that fails or repeats an identity poisons the session,
      and nothing else changes it. */
  lemma BindAnswers(cfg: Config, s: Session, o: Observation, aborted: bool, answer: Option<BoundAnswer>, clock: Clock)
    requires ValidConfig(cfg) && Live(cfg, s) && Steady(s, clock, |s.events| + ROOM)
    ensures var step := BindRole(cfg, s, o, aborted, answer, clock);
            if aborted || !NextToBind(s.events, o.role) || !ValidObservation(o) then step == Step(s, Threw)
            else if ReadFails(answer) then step == Step(Poison(s), Threw)
            else if !IsCalendarTimestamp(o.startedAt) then step == Step(s, Threw)
            else BindAnswered(cfg, s, o, IdentityOf(cfg, o, answer.value.cgroup), answer.value.usage, clock, step)
  {
    OrderRead(cfg, s, o.role);
    if !aborted && NextToBind(s.events, o.role) && ValidObservation(o) && !ReadFails(answer) {
      AdmissionDigest(cfg, o, answer.value.cgroup);
      if IsCalendarTimestamp(o.startedAt) && FreshIdentity(s.roles, IdentityOf(cfg, o, answer.value.cgroup)) {
        LiveHasRoom(cfg, s);
        AdmissionExtends(cfg, s, o.role, IdentityOf(cfg, o, answer.value.cgroup), answer.value.usage, clock);
        BindLive(cfg, s, o, aborted, answer, clock);
      }
    }
  }

  ghost predicate BindAnswered(cfg: Config, s: Session, o: Observation, id: Identity, usage: int, clock: Clock,
                               step: Step) {
    if !FreshIdentity(s.roles, id) then step == Step(Poison(s), Threw)
    else
      step.reply == Admitted(id) && Live(cfg, step.next)
        && step.next.roles == s.roles[o.role := Bound(id, usage, |s.events|)]
      && step.next.events == Extended(Extended(s.events, RoleBound(o.role, id.binding), clock),
                                      CpuSample(o.role, id.binding, 0, usage), clock)
  }

  predicate MayStart(events: seq<Event>, r: Role) {
    AwaitsStart(events, r) && (r.Worker? ==> NowRuns(events, Egress))
    && (r.Verifier? ==> HasReleased(events, Worker) && HasReleased(events, Egress))
  }

  lemma StartExtends(s: Session, r: Role, clock: Clock)
    requires Mutable(s) && InPhase(s, r, BoundPhase) && (r.Worker? ==> InPhase(s, Egress, RunningPhase))
    requires r.Verifier? ==> InPhase(s, Worker, ReleasedPhase) && InPhase(s, Egress, ReleasedPhase)
    requires Steady(s, clock, |s.events| + ROOM) && |s.events| + ROOM <= MAX_EVENTS
    ensures var step := StartRole(s, r, clock);
            step.reply.Done? && step.next.roles == s.roles[r := Started(s.roles[r], |s.events| + 1)]
            && step.next.events == Extended(s.events, RoleStarted(r, s.roles[r].id.binding), clock)
  {
    AppendExtends(s, RoleStarted(r, s.roles[r].id.binding), clock, |s.events| + ROOM);
  }

  lemma StartDoneLive(cfg: Config, s: Session, r: Role, clock: Clock)
    requires Live(cfg, s) && StartRole(s, r, clock).reply.Done?
    ensures Live(cfg, StartRole(s, r, clock).next)
  {
    StartLive(cfg, s, r, clock);
  }

  /** A start succeeds exactly in order, and is recorded. */
  lemma StartAnswers(cfg: Config, s: Session, r: Role, clock: Clock)
    requires Live(cfg, s) && Steady(s, clock, |s.events| + ROOM)
    ensures var step := StartRole(s, r, clock);
            if MayStart(s.events, r) then
              r in s.roles && step.reply.Done? && Live(cfg, step.next)
              && step.next.events == Extended(s.events, RoleStarted(r, s.roles[r].id.binding), clock)
              && step.next.roles == s.roles[r := Started(s.roles[r], |s.events| + 1)]
            else step == Step(s, Threw)
  {
    PhaseRead(cfg, s, r);
    PhaseRead(cfg, s, Egress);
    PhaseRead(cfg, s, Worker);
    if MayStart(s.events, r) {
      LiveHasRoom(cfg, s);
      StartExtends(s, r, clock);
      StartDoneLive(cfg, s, r, clock);
    }
  }

  lemma ReleaseExtends(cfg: Config, s: Session, r: Role, c: Cleanup, clock: Clock)
    requires Mutable(s) && InPhase(s, r, StoppedPhase)
    requires Steady(s, clock, |s.events| + ROOM) && |s.events| + ROOM <= MAX_EVENTS
    ensures var step := ReleaseRole(cfg, s, r, true, c, clock);
            step.reply.Done? && step.next.roles == s.roles[r := Released(s.roles[r], |s.events| + 1)]
            && step.next.events == Extended(s.events, RoleReleased(r, s.roles[r].id.binding), clock)
  {
    AppendExtends(s, RoleReleased(r, s.roles[r].id.binding), clock, |s.events| + ROOM);
  }

  lemma ReleaseDoneLive(cfg: Config, s: Session, r: Role, c: Cleanup, clock: Clock)
    requires ValidConfig(cfg) && Live(cfg, s) && ReleaseRole(cfg, s, r, true, c, clock).reply.Done?
    ensures Live(cfg, ReleaseRole(cfg, s, r, true, c, clock).next)
  {
    ReleaseEnds(cfg, s, r, true, c, clock);
  }

  /** A release of a stopped role is recorded when the port confirms it; of any other role it is
      refused. */
  lemma ReleaseAnswers(cfg: Config, s: Session, r: Role, released: bool, c: Cleanup, clock: Clock)
    requires ValidConfig(cfg) && Live(cfg, s) && Steady(s, clock, |s.events| + ROOM)
    ensures var step := ReleaseRole(cfg, s, r, released, c, clock);
            (!HasStopped(s.events, r) ==> step == Step(s, Threw))
            && (HasStopped(s.events, r) && released ==>
                  r in s.roles && step.reply.Done? && Live(cfg, step.next)
                  && step.next.events == Extended(s.events, RoleReleased(r, s.roles[r].id.binding), clock)
                  && step.next.roles == s.roles[r := Released(s.roles[r], |s.events| + 1)])
  {
    PhaseRead(cfg, s, r);
    if HasStopped(s.events, r) && released {
      LiveHasRoom(cfg, s);
      ReleaseExtends(cfg, s, r, c, clock);
      ReleaseDoneLive(cfg, s, r, c, clock);
    }
  }

  lemma LiveContains(cfg: Config, s: Session, code: FailureCode, c: Cleanup, clock: Clock)
    requires ValidConfig(cfg) && Live(cfg, s) && Steady(s, clock, |s.events| + ROOM)
    requires !Misreports(s, CallReport(PhaseOf(code), code, c))
    ensures ContainedAs(cfg, s.events, code, c, ContainFailure(cfg, s, PhaseOf(code), code, c, clock))
  {
    LiveHasRoom(cfg, s);
    SteadyLess(s, clock, |s.events| + ROOM, |s.events| + 11);
    ContainWith(cfg, s, code, c, clock);
  }

  lemma ReleaseIsHonest(s: Session, c: Cleanup)
    ensures !Misreports(s, CallReport(PhaseOf(CgroupReleaseFailed), CgroupReleaseFailed, c))
  {}

  lemma ReleaseIsContained(cfg: Config, s: Session, r: Role, c: Cleanup, clock: Clock)
    requires Live(cfg, s) && HasStopped(s.events, r)
    ensures ReleaseRole(cfg, s, r, false, c, clock)
         == ContainFailure(cfg, s, CgroupRelease, CgroupReleaseFailed, c, clock)
  {
    PhaseRead(cfg, s, r);
  }

  /** It is contained when the port does not confirm it. */
  lemma ReleaseFaults(cfg: Config, s: Session, r: Role, c: Cleanup, clock: Clock)
    requires ValidConfig(cfg) && Live(cfg, s) && Steady(s, clock, |s.events| + ROOM) && HasStopped(s.events, r)
    ensures ContainedAs(cfg, s.events, CgroupReleaseFailed, c, ReleaseRole(cfg, s, r, false, c, clock))
  {
    ReleaseIsContained(cfg, s, r, c, clock);
    ReleaseIsHonest(s, c);
    LiveContains(cfg, s, CgroupReleaseFailed, c, clock);
  }

  /** An honest report of the caller is contained for its code. */
  lemma ReportAnswers(cfg: Config, s: Session, code: FailureCode, c: Cleanup, clock: Clock)
    requires ValidConfig(cfg) && Live(cfg, s) && Steady(s, clock, |s.events| + ROOM)
    requires !Misreports(s, CallReport(PhaseOf(code), code, c))
    ensures ContainedAs(cfg, s.events, code, c, Report(cfg, s, PhaseOf(code), code, c, clock))
  {
    LiveContains(cfg, s, code, c, clock);
  }

  // ---- the end of a run ----

  predicate AllHaveReleased(events: seq<Event>) {
    HasReleased(events, Egress) && HasReleased(events, Worker) && HasReleased(events, Verifier)
  }

  /** An egress sample falls within the worker's run. */
  predicate EgressSeenWithin(events: seq<Event>) {
    var samples := Select(events, KSample(Egress));
    var starts, stops := Select(events, KStarted(Worker)), Select(events, KStopped(Worker));
    |starts| == 1 && |stops| == 1
    && exists i | 0 <= i < |samples| :: starts[0].position < samples[i].position < stops[0].position
  }

  lemma CompleteRead(cfg: Config, s: Session, r: Role)
    requires Live(cfg, s)
    ensures Complete(s, r) <==> HasReleased(s.events, r)
  {
    RoleRecords(cfg, s, r);
    assert RecordedAt(s.events, s.roles, r) && BracketedAt(s.roles, r);
  }

  lemma WithinRead(cfg: Config, s: Session)
    requires Live(cfg, s) && AllComplete(s)
    ensures EgressSampledDuringWorker(s) <==> EgressSeenWithin(s.events)
  {
    var egress, samples := s.roles[Egress], Select(s.events, KSample(Egress));
    Transcripts.OnceSelected(s.events, s.roles, Worker);
    Transcripts.SamplesSelected(s.events, s.roles, Egress);
    forall i | 0 <= i < |samples|
      ensures samples[i].position == egress.positions[i]
    {
      assert SampledAt(samples, Egress, egress, i);
    }
  }

  /** The success evidence of a session with transcript `was`. */
  ghost predicate SucceedsAs(cfg: Config, was: seq<Event>, nonCpu: Option<NonCpuFailure>, clock: Clock, step: Step) {
    step.reply.Candidate? && Accepts(cfg.h, step.reply.value, cfg.binding)
    && step.next.terminal == Some(step.reply.value) && !step.next.poisoned
    && var e := step.reply.value.body;
       e.Observed? && e.nonCpu == nonCpu && e.aggregate == TotalUsage(was)
       && e.events == Extended(was, ControllerStopped(cfg.controller), clock) == step.next.events
  }

  /** When finalization is refused, changing nothing. */
  predicate MayFinalize(events: seq<Event>, nonCpu: Option<NonCpuFailure>) {
    (nonCpu.Some? ==> ConsistentNonCpu(nonCpu.value)) && AllHaveReleased(events)
  }

  lemma EndRead(cfg: Config, s: Session)
    requires Live(cfg, s)
    ensures AllComplete(s) <==> AllHaveReleased(s.events)
    ensures AllComplete(s) ==> (EgressSampledDuringWorker(s) <==> EgressSeenWithin(s.events))
    ensures |s.events| + ROOM <= MAX_EVENTS && TotalUsage(s.events) == Aggregate(s.roles)
  {
    CompleteRead(cfg, s, Egress);
    CompleteRead(cfg, s, Worker);
    CompleteRead(cfg, s, Verifier);
    RoleRecords(cfg, s, Egress);
    if AllComplete(s) {
      WithinRead(cfg, s);
    }
  }

  lemma FinishSucceeds(cfg: Config, s: Session, done: Session, nonCpu: Option<NonCpuFailure>)
    requires AllComplete(s) && Certified(cfg, FinishSuccess(cfg, s, done, nonCpu))
    ensures var e := FinishSuccess(cfg, s, done, nonCpu).reply.value.body;
            e.Observed? ==> e.nonCpu == nonCpu && e.aggregate == Aggregate(s.roles) && e.events == done.events
  {}

  lemma FinalizeIsSuccess(cfg: Config, s: Session, nonCpu: Option<NonCpuFailure>, c: Cleanup, clock: Clock)
    requires Mutable(s) && (nonCpu.Some? ==> ConsistentNonCpu(nonCpu.value)) && AllComplete(s)
    requires EgressSampledDuringWorker(s) && Aggregate(s.roles) <= cfg.binding.budget <= MAX_UINT64
    requires Steady(s, clock, |s.events| + ROOM) && |s.events| + ROOM <= MAX_EVENTS
    ensures var done := Append(s, ControllerStopped(cfg.controller), clock);
            !done.poisoned && done.events == Extended(s.events, ControllerStopped(cfg.controller), clock)
            && Finalize(cfg, s, nonCpu, true, c, clock) == FinishSuccess(cfg, s, done, nonCpu)
  {
    AppendExtends(s, ControllerStopped(cfg.controller), clock, |s.events| + ROOM);
  }

  /** Success is handed out when every role is released, egress was sampled within the worker's
      run and the controller stops. */
  lemma FinalizeSucceeds(cfg: Config, s: Session, nonCpu: Option<NonCpuFailure>, c: Cleanup, clock: Clock)
    requires ValidConfig(cfg) && Live(cfg, s) && Steady(s, clock, |s.events| + ROOM)
    requires MayFinalize(s.events, nonCpu) && EgressSeenWithin(s.events)
    ensures SucceedsAs(cfg, s.events, nonCpu, clock, Finalize(cfg, s, nonCpu, true, c, clock))
  {
    EndRead(cfg, s);
    FinalizeIsSuccess(cfg, s, nonCpu, c, clock);
    SuccessEnds(cfg, s, nonCpu, clock);
    FinishSucceeds(cfg, s, Append(s, ControllerStopped(cfg.controller), clock), nonCpu);
  }

  lemma FinalizeIsContainment(cfg: Config, s: Session, nonCpu: Option<NonCpuFailure>, stop: bool, c: Cleanup,
                              clock: Clock)
    requires Mutable(s) && (nonCpu.Some? ==> ConsistentNonCpu(nonCpu.value)) && AllComplete(s)
    requires Aggregate(s.roles) <= cfg.binding.budget <= MAX_UINT64 && (EgressSampledDuringWorker(s) ==> !stop)
    ensures Finalize(cfg, s, nonCpu, stop, c, clock)
         == if EgressSampledDuringWorker(s) then ContainFailure(cfg, s, ControllerStop, ControllerStopFailed, c, clock)
            else ContainFailure(cfg, s, Sampling, CpuStatReadFailed, c, clock)
  {}

  /** The code for which a finalization is contained. */
  function EndFault(events: seq<Event>): FailureCode {
    if EgressSeenWithin(events) then ControllerStopFailed else CpuStatReadFailed
  }

  /** Every check a finalization makes before it stops the controller. */
  ghost predicate ReadyToEnd(cfg: Config, s: Session, nonCpu: Option<NonCpuFailure>) {
    Mutable(s) && (nonCpu.Some? ==> ConsistentNonCpu(nonCpu.value)) && AllComplete(s)
    && Aggregate(s.roles) <= cfg.binding.budget <= MAX_UINT64
  }

  lemma EndIsReady(cfg: Config, s: Session, nonCpu: Option<NonCpuFailure>)
    requires ValidConfig(cfg) && Live(cfg, s) && MayFinalize(s.events, nonCpu)
    ensures ReadyToEnd(cfg, s, nonCpu) && (EgressSampledDuringWorker(s) <==> EgressSeenWithin(s.events))
  {
    EndRead(cfg, s);
  }

  lemma FinalizeIsContained(cfg: Config, s: Session, nonCpu: Option<NonCpuFailure>, stop: bool, c: Cleanup,
                            clock: Clock)
    requires ReadyToEnd(cfg, s, nonCpu) && (EgressSampledDuringWorker(s) <==> EgressSeenWithin(s.events))
    requires EgressSeenWithin(s.events) ==> !stop
    ensures var code := EndFault(s.events);
            Finalize(cfg, s, nonCpu, stop, c, clock) == ContainFailure(cfg, s, PhaseOf(code), code, c, clock)
  {
    FinalizeIsContainment(cfg, s, nonCpu, stop, c, clock);
  }

  /** It is contained when egress was never sampled there, or the controller does not stop. */
  lemma FinalizeFaults(cfg: Config, s: Session, nonCpu: Option<NonCpuFailure>, stop: bool, c: Cleanup, clock: Clock)
    requires ValidConfig(cfg) && Live(cfg, s) && Steady(s, clock, |s.events| + ROOM)
    requires MayFinalize(s.events, nonCpu) && (EgressSeenWithin(s.events) ==> !stop)
    ensures ContainedAs(cfg, s.events, EndFault(s.events), c, Finalize(cfg, s, nonCpu, stop, c, clock))
  {
    EndIsReady(cfg, s, nonCpu);
    FinalizeIsContained(cfg, s, nonCpu, stop, c, clock);
    LiveContains(cfg, s, EndFault(s.events), c, clock);
  }

  /** It is refused, and changes nothing, before every role is released. */
  lemma FinalizeRefuses(cfg: Config, s: Session, nonCpu: Option<NonCpuFailure>, stop: bool, c: Cleanup, clock: Clock)
    requires Live(cfg, s) && !MayFinalize(s.events, nonCpu)
    ensures Finalize(cfg, s, nonCpu, stop, c, clock) == Step(s, Threw)
  {
    EndRead(cfg, s);
  }
}
