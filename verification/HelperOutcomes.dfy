/** What each operation of an open session ends in: the exact condition under which it succeeds,
    and what the client then knows. */
module HelperOutcomes {
  import opened Evidence
  import opened HelperLockstep

  /** The session is still open and can count one more request. */
  ghost predicate Ready(c: Client, n: Native) { !c.terminal && InStep(c, n) && SeenKnown(c, n) && c.next < MAX_UINT64 }

  /** Any open session that has not run out of sequence numbers is ready. */
  lemma SessionReady(turns: seq<Turn>)
    ensures var (c, n) := Session(turns); !c.terminal && c.next < MAX_UINT64 ==> Ready(c, n)
  {
    SessionInStep(turns);
    SessionKnows(turns);
  }

  // ---- operations on a role ----

  /** The world lets an operation on the role succeed: the reply arrives, the checks pass, the
      counter has not fallen and the clock has advanced; and what the operation wants has come
      about: a freeze frozen, a kill written, and nothing left to run when it is quiescent. */
  predicate Favours(c: Client, i: nat, h: HandleOp, w: World)
    requires i < |c.roles|
  {
    w.delivered && w.checks && c.roles[i].lastUsage <= w.usage && c.lastNs < w.ns && (h.FreezeOp? ==> w.frozen)
    && (h.KillOp? ==> w.killed) && (h.QuiescentOp? ==> !w.populated && w.processes == 0)
  }

  /** What the client knows of the role after an operation that read the world. */
  ghost predicate Knows(was: BoundRole, r: BoundRole, h: HandleOp, w: World) {
    r.handle == was.handle && r.role == was.role && r.pid == was.pid && r.lastUsage == w.usage && r.lastNs == w.ns
    && (h.Sample? ==> r.status == was.status) && (h.FreezeOp? ==> r.status.StatusFrozen?)
    && (h.KillOp? ==> r.status.StatusKillSent?) && (h.QuiescentOp? ==> r.status.StatusQuiescent?)
  }

  /** A sample, freeze, kill or quiescent reading that the client sends succeeds exactly when the
      world favours it; the client then knows the counter and the clock that were read, and so does
      the native side; any other closes the session. */
  lemma OperationSucceeds(c: Client, n: Native, i: nat, h: HandleOp, w: World)
    requires Ready(c, n) && Sends(c, OperateRole(i, h)) && !h.Release?
    ensures var (c', n') := Step(c, n, OperateRole(i, h), w);
            (!c'.terminal <==> Favours(c, i, h, w))
            && (!c'.terminal ==>
                  |c'.roles| == |c.roles| && Knows(c.roles[i], c'.roles[i], h, w) && c'.lastNs == w.ns
                  && c'.roles == c.roles[i := c'.roles[i]] && c'.next == c.next + 1 && c'.bound == c.bound
                  && c'.activeRoles == c.activeRoles && !c'.stopped && InStep(c', n')
                  && HandleKnown(n', c.roles[i].handle) && n'.handles[c.roles[i].handle - 1].usage == w.usage)
  {
    assert RoleLinked(c, n, i);
    TableAgrees(c, n, OperateRole(i, h));
    OperateKeeps(c, n, i, h, w);
  }

  /** A release that the client sends succeeds exactly when the native side finds the cgroup gone;
      the role is then no longer bound. */
  lemma ReleaseSucceeds(c: Client, n: Native, i: nat, w: World)
    requires Ready(c, n) && Sends(c, OperateRole(i, Release))
    ensures var (c', n') := Step(c, n, OperateRole(i, Release), w);
            (!c'.terminal <==> w.delivered && w.checks)
            && (!c'.terminal ==>
                  c'.roles == c.roles[i := c.roles[i].(status := StatusReleased)] && c'.lastNs == c.lastNs
                  && c'.bound == c.bound - {c.roles[i].role} && c'.activeRoles == c.activeRoles - 1
                  && c'.next == c.next + 1 && !c'.stopped && InStep(c', n') && !HandleKnown(n', c.roles[i].handle))
  {
    assert RoleLinked(c, n, i);
    TableAgrees(c, n, OperateRole(i, Release));
    ReleaseKeeps(c, n, i, w);
  }

  // ---- binding ----

  /** The world lets a bind succeed. */
  predicate FavoursBind(c: Client, w: World) {
    w.delivered && w.checks && c.lastNs < w.ns && w.freshCgroup && w.nonZero
  }

  /** A bind that the client sends succeeds exactly when its role was never bound before, no live
      role has its process and the world favours it; the client then knows the first reading, and
      so does the native side, under a handle no live role has. */
  lemma BindSucceeds(c: Client, n: Native, role: Role, pid: int, w: World)
    requires Ready(c, n) && Sends(c, BindRole(role, pid))
    ensures var (c', n') := Step(c, n, BindRole(role, pid), w);
            (!c'.terminal <==> !EverBound(c, role) && !PidInUse(c, pid) && FavoursBind(c, w))
            && (!c'.terminal ==>
                  |c'.roles| == |c.roles| + 1 && c'.roles[..|c.roles|] == c.roles
                  && var r := c'.roles[|c.roles|];
                     r == BoundRole(r.handle, role, pid, w.ns, w.usage, StatusBound)
                     && HandleKnown(n', r.handle) && n'.handles[r.handle - 1].usage == w.usage
                     && (forall j | 0 <= j < |c.roles| && Alive(c, j) :: c.roles[j].handle != r.handle)
                     && c'.lastNs == w.ns && c'.bound == c.bound + {role} && c'.activeRoles == c.activeRoles + 1
                     && c'.next == c.next + 1 && !c'.stopped && InStep(c', n'))
  {
    RebindIsTheOneRefusal(c, n, role, pid);
    BindKeeps(c, n, role, pid, w);
    var (c', n') := Step(c, n, BindRole(role, pid), w);
    if !c'.terminal {
      assert c'.roles[..|c.roles|] == c.roles;
      forall j | 0 <= j < |c.roles| && Alive(c, j)
        ensures c.roles[j].handle != c'.roles[|c.roles|].handle
      {
        assert RolesApart(c', j, |c.roles|);
      }
    }
  }

  // ---- the clock, the stop, and what is not sent ----

  lemma ClockSucceeds(c: Client, n: Native, w: World)
    requires Ready(c, n) && Sends(c, ReadClock)
    ensures var (c', n') := Step(c, n, ReadClock, w);
            (!c'.terminal <==> w.delivered && w.checks && c.lastNs < w.ns)
            && (!c'.terminal ==> c' == c.(lastNs := w.ns, next := c.next + 1) && InStep(c', n'))
  {
    StepKeeps(c, n, ReadClock, w);
  }

  /** A stop is sent when no role is bound; it always ends the session and the helper, and is known
      to have succeeded exactly when its reply arrives. */
  lemma StopSucceeds(c: Client, n: Native, w: World)
    requires Ready(c, n) && !c.stopped && c.bound == {}
    ensures var (c', n') := Step(c, n, StopClient, w);
            Sends(c, StopClient) && c'.terminal && (c'.stopped <==> w.delivered) && !n'.alive
  {
    assert c.activeRoles == 0;
    TableAgrees(c, n, StopClient);
  }

  /** Activation sends nothing: a role just bound becomes active when the same container is seen
      again, and any other attempt on a role not released closes the session. */
  lemma ActivationSucceeds(c: Client, n: Native, i: nat, same: bool, w: World)
    requires Ready(c, n) && Alive(c, i)
    ensures var (c', n') := Step(c, n, ActivateRole(i, same), w);
            n' == n && (!c'.terminal <==> c.roles[i].status.StatusBound? && same)
            && (!c'.terminal ==>
                  c' == c.(roles := c.roles[i := c.roles[i].(status := StatusActive)]) && InStep(c', n'))
  {
    ActivateKeeps(c, n, i, same, w);
  }

  /** What the client does not send changes nothing on either side. */
  lemma UnsentIsNothing(c: Client, n: Native, op: Op, w: World)
    requires !op.ActivateRole? && !Sends(c, op)
    ensures Step(c, n, op, w) == (c, n)
  {}

  // ---- the native side against any client ----

  /** The order of a handle's states. */
  predicate Moves(was: NativeState, h: HandleOp, state: NativeState) {
    (h.Sample? && was.BoundActive? && state.BoundActive?) || (h.FreezeOp? && was.BoundActive? && state.NativeFrozen?)
    || (h.KillOp? && was.NativeFrozen? && state.NativeKillSent?)
    || (h.QuiescentOp? && (was.BoundActive? || was.NativeKillSent?) && state.NativeQuiescent?)
  }

  /** What a handle operation takes to succeed, whoever asks. */
  predicate Served(n: Native, h: HandleOp, id: int, w: World) {
    HandleKnown(n, id) && w.checks
    && var was := n.handles[id - 1];
       if h.Release? then was.state.NativeQuiescent?
       else
         (exists state :: Moves(was.state, h, state)) && was.usage <= w.usage && n.lastNs < w.ns
         && (h.KillOp? ==> w.killed) && (h.QuiescentOp? ==> !w.populated && w.processes == 0)
  }

  /** Whatever request comes next, a handle operation is answered with the counter and the clock
      read exactly when it may succeed; its state moves in order and no other handle changes. */
  lemma NativeServes(n: Native, h: HandleOp, id: int, w: World)
    requires n.alive && n.expected < MAX_UINT64
    ensures var (m, reply) := Serve(n, n.expected, HandleRequest(h, id), w);
            reply.Some? && m.alive && m.expected == n.expected + 1
              && (reply.value.ErrorReply? <==> !Served(n, h, id, w))
            && |m.handles| == |n.handles| && m.seen == n.seen
            && (forall k | 0 <= k < |n.handles| && k != id - 1 :: m.handles[k] == n.handles[k])
    ensures var (m, reply) := Serve(n, n.expected, HandleRequest(h, id), w);
            Served(n, h, id, w) ==>
              if h.Release? then reply == Some(AckReply(id)) && m.handles[id - 1] == FREE && m.lastNs == n.lastNs
              else
                reply == Some(SampleReply(id, w.ns, w.usage, w.populated, w.frozen, w.processes)) && m.lastNs == w.ns
                && Moves(n.handles[id - 1].state, h, m.handles[id - 1].state)
                && m.handles[id - 1] == n.handles[id - 1].(state := m.handles[id - 1].state, usage := w.usage)
  {
    assert HandleKnown(n, id) ==>
        (Moves(n.handles[id - 1].state, h, StateAfter(n.handles[id - 1].state, h))
         <==> StateAllows(n.handles[id - 1].state, h) && !h.Release?);
  }

  /** What a bind takes to succeed, whoever asks. */
  predicate Binds(n: Native, role: Role, pid: int, w: World) {
    (exists i | 0 <= i < |n.handles| :: !n.handles[i].used) && role !in n.seen
    && (forall h | h in n.handles :: h.used ==> h.role != role && h.pid != pid)
    && w.checks && n.lastNs < w.ns && w.freshCgroup
  }

  /** A bind is answered with the first reading, under a handle that was free, exactly when it may
      succeed; no other handle changes. */
  lemma NativeBinds(n: Native, role: Role, pid: int, w: World)
    requires n.alive && n.expected < MAX_UINT64
    ensures var (m, reply) := Serve(n, n.expected, BindRequest(role, pid), w);
            reply.Some? && m.alive && (reply.value.ErrorReply? <==> !Binds(n, role, pid, w))
            && (Binds(n, role, pid, w) ==>
                  reply.value.BindReply? && 1 <= reply.value.handle <= |n.handles|
                  && (var i := reply.value.handle - 1;
                      reply == Some(BindReply(i + 1, role, w.usage, w.ns, w.nonZero)) && !n.handles[i].used
                      && m.handles == n.handles[i := Handle(true, role, pid, BoundActive, w.usage)])
                  && m.seen == n.seen + {role} && m.lastNs == w.ns)
  {
    assert (forall h | h in n.handles :: h.used ==> h.role != role && h.pid != pid)
      <==> forall i | 0 <= i < |n.handles| && n.handles[i].used ::
             n.handles[i].role != role && n.handles[i].pid != pid;
  }

  /** A request out of sequence, or past the last number, ends the helper without a reply; any other
      is answered and counted. */
  lemma NativeCounts(n: Native, sequence: int, request: Request, w: World)
    requires n.expected <= MAX_UINT64
    ensures var (m, reply) := Serve(n, sequence, request, w);
            (reply.None? <==> !n.alive || sequence != n.expected || sequence == MAX_UINT64)
            && (reply.None? ==> m == Exited(n)) && (reply.Some? ==> m.expected == n.expected + 1 <= MAX_UINT64)
  {
    match request {
      case RawClock =>
      case BindRequest(_, _) =>
      case HandleRequest(_, _) =>
      case StopRequest =>
    }
  }

  // ---- the client against any helper ----

  /** Whatever a helper answers, no reply that the client trusts takes its clock or a role's counter
      back, and each tells of the role that was asked about and of what was asked for. */
  lemma TrustedNeverRegresses(c: Client, op: Op, reply: Response)
    requires Sends(c, op) && Trusts(c, op, reply)
    ensures var c' := Accept(c, op, reply);
            c.lastNs <= c'.lastNs && |c.roles| <= |c'.roles|
            && forall i | 0 <= i < |c.roles| :: NeverBack(c.roles[i], c'.roles[i])
    ensures op.BindRole? ==> reply.BindReply? && reply.role == op.role && reply.nonZero && c.lastNs < reply.ns
    ensures op.OperateRole? && !op.op.Release? ==>
              reply.SampleReply? && reply.handle == c.roles[op.i].handle && c.lastNs < reply.ns
              && (op.op.FreezeOp? ==> reply.frozen)
              && (op.op.QuiescentOp? ==> !reply.populated && reply.processes == 0)
  {}

  predicate NeverBack(was: BoundRole, r: BoundRole) {
    r.handle == was.handle && r.role == was.role && r.pid == was.pid && was.lastNs <= r.lastNs
    && was.lastUsage <= r.lastUsage
  }

  // ---- a session that goes well ----

  /** One role's readings in a session that goes well: the clock and the counter at its bind and at
      each of the four operations. */
  datatype Reading = Reading(ns: nat, usage: nat)
  datatype Course = Course(role: Role, pid: int, bound: Reading, sampled: Reading, frozen: Reading, killed: Reading,
                           quiet: Reading)

  predicate Follows(a: Reading, b: Reading) { a.ns < b.ns && a.usage <= b.usage }

  predicate HealthyCourse(x: Course) {
    0 < x.bound.ns && Follows(x.bound, x.sampled) && Follows(x.sampled, x.frozen) && Follows(x.frozen, x.killed)
    && Follows(x.killed, x.quiet)
  }

  /** The world at one reading of such a session. */
  function Good(r: Reading, live: bool): World {
    World(true, true, true, r.ns, r.usage, live, true, if live then 1 else 0, true, true)
  }

  function HealthyTurns(x: Course): seq<Turn> {
    [] + [Turn(BindRole(x.role, x.pid), Good(x.bound, true))] + [Turn(ActivateRole(0, true), Good(x.bound, true))]
    + [Turn(OperateRole(0, Sample), Good(x.sampled, true))] + [Turn(OperateRole(0, FreezeOp), Good(x.frozen, true))]
    + [Turn(OperateRole(0, KillOp), Good(x.killed, true))] + [Turn(OperateRole(0, QuiescentOp), Good(x.quiet, false))]
    + [Turn(OperateRole(0, Release), Good(x.quiet, false))]
  }

  /** An open session that has bound the one role of the course, now with the given reading. */
  ghost predicate Stands(turns: seq<Turn>, x: Course, status: Status, r: Reading, k: nat) {
    var (c, n) := Session(turns);
    !c.terminal && !c.stopped && c.next == k && c.lastNs == r.ns && |c.roles| == 1 && c.roles[0].role == x.role
    && c.roles[0].pid == x.pid && c.roles[0].lastUsage == r.usage && c.roles[0].status == status
    && c.bound == if status.StatusReleased? then {} else {x.role}
  }

  lemma CourseBinds(x: Course)
    requires HealthyCourse(x)
    ensures Stands([] + [Turn(BindRole(x.role, x.pid), Good(x.bound, true))], x, StatusBound, x.bound, 3)
  {
    SessionAppend([], Turn(BindRole(x.role, x.pid), Good(x.bound, true)));
    SessionReady([]);
    BindSucceeds(NEW_CLIENT, NEW_NATIVE, x.role, x.pid, Good(x.bound, true));
  }

  lemma CourseActivates(turns: seq<Turn>, x: Course)
    requires Stands(turns, x, StatusBound, x.bound, 3)
    ensures Stands(turns + [Turn(ActivateRole(0, true), Good(x.bound, true))], x, StatusActive, x.bound, 3)
  {
    var (c, n) := Session(turns);
    SessionReady(turns);
    SessionAppend(turns, Turn(ActivateRole(0, true), Good(x.bound, true)));
    ActivationSucceeds(c, n, 0, true, Good(x.bound, true));
  }

  /** The status an operation leaves behind. */
  function Leaves(status: Status, h: HandleOp): Status
    requires !h.Release?
  {
    match h
    case Sample => status
    case FreezeOp => StatusFrozen
    case KillOp => StatusKillSent
    case QuiescentOp => StatusQuiescent
  }

  /** The protocol's order: when each operation is sent. */
  predicate InTurn(status: Status, h: HandleOp) {
    (h.Sample? && status.StatusActive?) || (h.FreezeOp? && (status.StatusActive? || status.StatusBound?))
    || (h.KillOp? && status.StatusFrozen?) || (h.QuiescentOp? && (status.StatusActive? || status.StatusKillSent?))
    || (h.Release? && status.StatusQuiescent?)
  }

  lemma CourseOperates(turns: seq<Turn>, x: Course, status: Status, h: HandleOp, r: Reading, r': Reading, live: bool,
                       k: nat)
    requires Stands(turns, x, status, r, k) && k < MAX_UINT64 && !h.Release? && InTurn(status, h) && Follows(r, r')
    requires h.QuiescentOp? ==> !live
    ensures Stands(turns + [Turn(OperateRole(0, h), Good(r', live))], x, Leaves(status, h), r', k + 1)
  {
    var (c, n) := Session(turns);
    SessionReady(turns);
    SessionAppend(turns, Turn(OperateRole(0, h), Good(r', live)));
    OperationSucceeds(c, n, 0, h, Good(r', live));
  }

  lemma CourseReleases(turns: seq<Turn>, x: Course, r: Reading, k: nat)
    requires Stands(turns, x, StatusQuiescent, r, k) && k < MAX_UINT64
    ensures Stands(turns + [Turn(OperateRole(0, Release), Good(r, false))], x, StatusReleased, r, k + 1)
  {
    var (c, n) := Session(turns);
    SessionReady(turns);
    SessionAppend(turns, Turn(OperateRole(0, Release), Good(r, false)));
    ReleaseSucceeds(c, n, 0, Good(r, false));
  }

  /** A session that goes well carries every reading through to its last, and can be stopped. */
  lemma HealthySession(x: Course)
    requires HealthyCourse(x)
    ensures Stands(HealthyTurns(x), x, StatusReleased, x.quiet, 8)
    ensures Session(HealthyTurns(x) + [Turn(StopClient, Good(x.quiet, false))]).0.stopped
  {
    var t1 := [] + [Turn(BindRole(x.role, x.pid), Good(x.bound, true))];
    var t2 := t1 + [Turn(ActivateRole(0, true), Good(x.bound, true))];
    var t3 := t2 + [Turn(OperateRole(0, Sample), Good(x.sampled, true))];
    var t4 := t3 + [Turn(OperateRole(0, FreezeOp), Good(x.frozen, true))];
    var t5 := t4 + [Turn(OperateRole(0, KillOp), Good(x.killed, true))];
    var t6 := t5 + [Turn(OperateRole(0, QuiescentOp), Good(x.quiet, false))];
    CourseBinds(x);
    CourseActivates(t1, x);
    CourseOperates(t2, x, StatusActive, Sample, x.bound, x.sampled, true, 3);
    CourseOperates(t3, x, StatusActive, FreezeOp, x.sampled, x.frozen, true, 4);
    CourseOperates(t4, x, StatusFrozen, KillOp, x.frozen, x.killed, true, 5);
    CourseOperates(t5, x, StatusKillSent, QuiescentOp, x.killed, x.quiet, false, 6);
    CourseReleases(t6, x, x.quiet, 7);
    CourseStops(HealthyTurns(x), x, x.quiet, 8);
  }

  lemma CourseStops(turns: seq<Turn>, x: Course, r: Reading, k: nat)
    requires Stands(turns, x, StatusReleased, r, k) && k < MAX_UINT64
    ensures Session(turns + [Turn(StopClient, Good(r, false))]).0.stopped
  {
    var (c, n) := Session(turns);
    SessionReady(turns);
    SessionAppend(turns, Turn(StopClient, Good(r, false)));
    StopSucceeds(c, n, Good(r, false));
  }
}
