/** The helper's client and its native side as two state machines in lockstep, one request at a
    time. */
module HelperLockstep {
  import opened Evidence

  // ---- requests and responses ----

  datatype HandleOp = Sample | FreezeOp | KillOp | QuiescentOp | Release

  datatype Request = RawClock | BindRequest(role: Role, pid: int) | HandleRequest(op: HandleOp, handle: int)
    | StopRequest

  datatype Response =
    | ClockReply(ns: int)
    | BindReply(handle: int, role: Role, usage: int, ns: int, nonZero: bool)
    | SampleReply(handle: int, ns: int, usage: int, populated: bool, frozen: bool, processes: int)
    | AckReply(handle: int)
    | StopReply
    | ErrorReply

  /** What the world does during one request: whether the reply arrives in time; whether the
      checks before the reading succeed, and the kill's writes; what is read; and whether a bind
      finds its own mount and a cgroup of its own, which is looked at after the reading. */
  datatype World = World(delivered: bool, checks: bool, killed: bool, ns: nat, usage: nat, populated: bool,
                         frozen: bool, processes: nat, nonZero: bool, freshCgroup: bool)

  // ---- the native side ----

  datatype NativeState = BoundActive | NativeFrozen | NativeKillSent | NativeQuiescent

  datatype Handle = Handle(used: bool, role: Role, pid: int, state: NativeState, usage: int)

  datatype Native = Native(alive: bool, expected: int, handles: seq<Handle>, seen: set<Role>, lastNs: int)

  const FREE := Handle(false, Egress, 0, BoundActive, 0)
  const NEW_NATIVE := Native(true, 2, [FREE, FREE, FREE], {}, 0)

  /** The first unused handle, or the table's size. */
  function FirstFree(handles: seq<Handle>): (i: nat)
    ensures i <= |handles| && (i < |handles| ==> !handles[i].used)
    ensures forall k | 0 <= k < i :: handles[k].used
  {
    if handles == [] || !handles[0].used then 0 else 1 + FirstFree(handles[1..])
  }

  /** The part of a bind's checks that looks at the table and the roles seen. */
  predicate BindTable(n: Native, role: Role, pid: int) {
    FirstFree(n.handles) < |n.handles|
    && (forall i | 0 <= i < |n.handles| && n.handles[i].used :: n.handles[i].role != role && n.handles[i].pid != pid)
    && role !in n.seen
  }

  predicate HandleKnown(n: Native, id: int) { 1 <= id <= |n.handles| && n.handles[id - 1].used }

  /** The part of a handle operation's checks that looks at the role's state. */
  predicate StateAllows(state: NativeState, op: HandleOp) {
    match op
    case Sample => state.BoundActive?
    case FreezeOp => state.BoundActive?
    case KillOp => state.NativeFrozen?
    case QuiescentOp => state.BoundActive? || state.NativeKillSent?
    case Release => state.NativeQuiescent?
  }

  /** The role-state test of a request: what the native side refuses without looking further. */
  predicate TableAllows(n: Native, request: Request) {
    match request
    case RawClock => true
    case BindRequest(role, pid) => BindTable(n, role, pid)
    case HandleRequest(op, id) => HandleKnown(n, id) && StateAllows(n.handles[id - 1].state, op)
    case StopRequest => forall i | 0 <= i < |n.handles| :: !n.handles[i].used
  }

  function Bind(n: Native, role: Role, pid: int, w: World): (Native, Response)
    requires BindTable(n, role, pid)
  {
    var i := FirstFree(n.handles);
    if !w.checks || w.ns <= n.lastNs then (n, ErrorReply)
    else if !w.freshCgroup then (n.(lastNs := w.ns), ErrorReply)
    else
      (n.(handles := n.handles[i := Handle(true, role, pid, BoundActive, w.usage)], seen := n.seen + {role},
          lastNs := w.ns),
       BindReply(i + 1, role, w.usage, w.ns, w.nonZero))
  }

  function StateAfter(state: NativeState, op: HandleOp): NativeState {
    match op
    case Sample => state
    case FreezeOp => NativeFrozen
    case KillOp => NativeKillSent
    case QuiescentOp => NativeQuiescent
    case Release => state
  }

  /** What is still looked at after a reading was taken and kept. */
  predicate Completes(op: HandleOp, w: World) {
    (op.KillOp? ==> w.killed) && (op.QuiescentOp? ==> !w.populated && w.processes == 0)
  }

  /** A reading that is taken stays, even when the operation then fails and the state does not
      advance. */
  function Operate(n: Native, op: HandleOp, id: int, w: World): (Native, Response)
    requires HandleKnown(n, id) && StateAllows(n.handles[id - 1].state, op)
  {
    var h := n.handles[id - 1];
    if op.Release? then
      if !w.checks then (n, ErrorReply) else (n.(handles := n.handles[id - 1 := FREE]), AckReply(id))
    else if !w.checks || w.usage < h.usage || w.ns <= n.lastNs then (n, ErrorReply)
    else if !Completes(op, w) then (n.(handles := n.handles[id - 1 := h.(usage := w.usage)], lastNs := w.ns),
      ErrorReply)
    else
      (n.(handles := n.handles[id - 1 := h.(state := StateAfter(h.state, op), usage := w.usage)], lastNs := w.ns),
       SampleReply(id, w.ns, w.usage, w.populated, w.frozen, w.processes))
  }

  /** The process after its exit: every handle is closed. */
  function Exited(n: Native): Native { n.(alive := false, handles := [FREE, FREE, FREE]) }

  /** One pass of the native loop; None when the helper contains everything and exits instead.
      A stop ends the loop even when it is refused. */
  function Serve(n: Native, sequence: int, request: Request, w: World): (Native, Option<Response>) {
    if !n.alive || sequence != n.expected || n.expected == MAX_UINT64 then (Exited(n), None)
    else
      var m := n.(expected := n.expected + 1);
      if !TableAllows(m, request) then (if request.StopRequest? then Exited(m) else m, Some(ErrorReply))
      else
        match request
        case RawClock =>
          if !w.checks || w.ns <= m.lastNs then (m, Some(ErrorReply)) else (m.(lastNs := w.ns), Some(ClockReply(w.ns)))
        case BindRequest(role, pid) => var (m', reply) := Bind(m, role, pid, w); (m', Some(reply))
        case HandleRequest(op, id) => var (m', reply) := Operate(m, op, id, w); (m', Some(reply))
        case StopRequest => (Exited(m), Some(StopReply))
  }

  // ---- the client ----

  datatype Status = StatusBound | StatusActive | StatusFrozen | StatusKillSent | StatusQuiescent | StatusReleased

  datatype BoundRole = BoundRole(handle: int, role: Role, pid: int, lastNs: int, lastUsage: int, status: Status)

  datatype Client = Client(next: int, terminal: bool, stopped: bool, activeRoles: int, bound: set<Role>, lastNs: int,
                           roles: seq<BoundRole>)

  const NEW_CLIENT := Client(2, false, false, 0, {}, 0, [])

  /** The operations of the client; a role is named by its place among those ever bound. */
  datatype Op =
    | ReadClock
    | BindRole(role: Role, pid: int)
    | ActivateRole(i: nat, sameDockerRole: bool)
    | OperateRole(i: nat, op: HandleOp)
    | StopClient

  predicate StatusAllows(status: Status, op: HandleOp) {
    match op
    case Sample => status.StatusActive?
    case FreezeOp => status.StatusActive? || status.StatusBound?
    case KillOp => status.StatusFrozen?
    case QuiescentOp => status.StatusActive? || status.StatusKillSent?
    case Release => status.StatusQuiescent?
  }

  /** The client sends a request for the operation instead of throwing at once. */
  predicate Sends(c: Client, op: Op) {
    !c.terminal && !c.stopped
    && match op
       case ReadClock => true
       case BindRole(role, _) => role !in c.bound
       case ActivateRole(_, _) => false
       case OperateRole(i, h) => i < |c.roles| && !c.roles[i].status.StatusReleased?
         && StatusAllows(c.roles[i].status, h)
       case StopClient => c.activeRoles == 0 && c.bound == {}
  }

  function RequestOf(c: Client, op: Op): Request
    requires Sends(c, op)
  {
    match op
    case ReadClock => RawClock
    case BindRole(role, pid) => BindRequest(role, pid)
    case OperateRole(i, h) => HandleRequest(h, c.roles[i].handle)
    case StopClient => StopRequest
  }

  function Poisoned(c: Client): Client { c.(terminal := true) }

  function StatusAfter(status: Status, op: HandleOp): Status {
    match op
    case Sample => status
    case FreezeOp => StatusFrozen
    case KillOp => StatusKillSent
    case QuiescentOp => StatusQuiescent
    case Release => StatusReleased
  }

  /** The client's checks on a reply; a reply that fails them poisons the session. */
  predicate Trusts(c: Client, op: Op, reply: Response)
    requires Sends(c, op)
  {
    match op
    case ReadClock => reply.ClockReply? && reply.ns > c.lastNs && reply.ns != 0
    case BindRole(role, _) => reply.BindReply? && reply.nonZero && reply.handle >= 1 && reply.role == role
      && reply.ns > c.lastNs && reply.ns != 0
    case OperateRole(i, h) =>
      if h.Release? then reply == AckReply(c.roles[i].handle)
      else
        reply.SampleReply? && reply.handle == c.roles[i].handle && reply.usage >= c.roles[i].lastUsage
        && reply.ns > c.roles[i].lastNs && reply.ns > c.lastNs
        && (h.FreezeOp? ==> reply.frozen) && (h.QuiescentOp? ==> !reply.populated && reply.processes == 0)
    case StopClient => reply.StopReply?
  }

  /** The client after a reply it trusts. */
  function Accept(c: Client, op: Op, reply: Response): Client
    requires Sends(c, op) && Trusts(c, op, reply)
  {
    match op
    case ReadClock => c.(lastNs := reply.ns)
    case BindRole(role, pid) =>
      c.(lastNs := reply.ns, bound := c.bound + {role}, activeRoles := c.activeRoles + 1,
         roles := c.roles + [BoundRole(reply.handle, role, pid, reply.ns, reply.usage, StatusBound)])
    case OperateRole(i, h) =>
      var r := c.roles[i];
      if h.Release? then
        c.(roles := c.roles[i := r.(status := StatusReleased)], bound := c.bound - {r.role},
          activeRoles := c.activeRoles - 1)
      else
        c.(lastNs := reply.ns,
           roles := c.roles[i := r.(status := StatusAfter(r.status, h), lastNs := reply.ns, lastUsage := reply.usage)])
    case StopClient => c.(stopped := true, terminal := true)
  }

  /** One operation of a serial caller against the native side. */
  function Step(c: Client, n: Native, op: Op, w: World): (Client, Native) {
    if op.ActivateRole? then
      if c.terminal || op.i >= |c.roles| || c.roles[op.i].status.StatusReleased? then (c, n)
      else if !c.roles[op.i].status.StatusBound? || !op.sameDockerRole then (Poisoned(c), n)
      else (c.(roles := c.roles[op.i := c.roles[op.i].(status := StatusActive)]), n)
    else if !Sends(c, op) then (c, n)
    else
      var sent := c.(next := c.next + 1);
      var (m, reply) := Serve(n, c.next, RequestOf(c, op), w);
      if !w.delivered || reply.None? || !Trusts(c, op, reply.value) then (Poisoned(sent), m)
      else (Accept(c, op, reply.value).(next := sent.next), m)
  }

  // ---- the simulation ----

  predicate Agree(status: Status, state: NativeState) {
    match status
    case StatusBound => state.BoundActive?
    case StatusActive => state.BoundActive?
    case StatusFrozen => state.NativeFrozen?
    case StatusKillSent => state.NativeKillSent?
    case StatusQuiescent => state.NativeQuiescent?
    case StatusReleased => false
  }

  predicate Alive(c: Client, i: int) { 0 <= i < |c.roles| && !c.roles[i].status.StatusReleased? }

  /** A live role stands for one used handle, in a matching state and with the same counter. */
  ghost predicate RoleLinked(c: Client, n: Native, i: int) {
    (0 <= i < |c.roles| ==> c.roles[i].role in n.seen && c.roles[i].lastNs <= c.lastNs)
    && (Alive(c, i) ==>
          var r := c.roles[i];
          HandleKnown(n, r.handle) && r.role in c.bound
          && n.handles[r.handle - 1].role == r.role && n.handles[r.handle - 1].pid == r.pid
            && Agree(r.status, n.handles[r.handle - 1].state)
          && n.handles[r.handle - 1].usage == r.lastUsage)
  }

  ghost predicate RolesApart(c: Client, i: int, j: int) {
    Alive(c, i) && Alive(c, j) && i != j ==>
        c.roles[i].handle != c.roles[j].handle && c.roles[i].role != c.roles[j].role
  }

  /** Every used handle stands for a live role, and so does every role called bound. */
  ghost predicate HandleLinked(c: Client, n: Native, k: int) {
    0 <= k < |n.handles| && n.handles[k].used ==> exists i :: Alive(c, i) && c.roles[i].handle == k + 1
  }

  ghost predicate BoundLinked(c: Client, r: Role) { r in c.bound ==> exists i :: Alive(c, i) && c.roles[i].role == r }

  ghost predicate InStep(c: Client, n: Native) {
    n.alive && !c.stopped && c.next == n.expected && c.lastNs == n.lastNs >= 0 && |n.handles| == 3
    && c.activeRoles == |c.bound| && c.bound <= n.seen
    && (forall i :: RoleLinked(c, n, i)) && (forall i, j :: RolesApart(c, i, j))
    && (forall k :: HandleLinked(c, n, k)) && (forall r :: BoundLinked(c, r))
  }

  // ---- what being in step gives ----

  /** Apart from binds, the native role-state test refuses nothing the client sends. */
  lemma TableAgrees(c: Client, n: Native, op: Op)
    requires InStep(c, n) && Sends(c, op) && !op.BindRole?
    ensures TableAllows(n, RequestOf(c, op))
  {
    if op.OperateRole? {
      assert RoleLinked(c, n, op.i);
    } else if op.StopClient? {
      forall i
        ensures !Alive(c, i)
      {
        assert RoleLinked(c, n, i);
      }
      forall k | 0 <= k < |n.handles|
        ensures !n.handles[k].used
      {
        assert HandleLinked(c, n, k);
      }
    }
  }

  /** A used handle's role is one the client calls bound. */
  lemma UsedIsBound(c: Client, n: Native, k: int) returns (i: int)
    requires InStep(c, n) && 0 <= k < 3 && n.handles[k].used
    ensures Alive(c, i) && c.roles[i].handle == k + 1 && n.handles[k].role == c.roles[i].role
            && c.roles[i].role in c.bound
  {
    assert HandleLinked(c, n, k);
    i :| Alive(c, i) && c.roles[i].handle == k + 1;
    assert RoleLinked(c, n, i);
  }

  /** While some role is not bound, the handle table has room. */
  lemma TableHasRoom(c: Client, n: Native, role: Role)
    requires InStep(c, n) && role !in c.bound
    ensures FirstFree(n.handles) < 3
  {
    if FirstFree(n.handles) >= 3 {
      assert n.handles[0].used && n.handles[1].used && n.handles[2].used;
      var a := UsedIsBound(c, n, 0);
      var b := UsedIsBound(c, n, 1);
      var d := UsedIsBound(c, n, 2);
      assert RolesApart(c, a, b) && RolesApart(c, a, d) && RolesApart(c, b, d);
      match role { case Egress => case Worker => case Verifier => }
      assert false;
    }
  }

  /** The role is among those the session ever bound. */
  predicate EverBound(c: Client, role: Role) { exists i | 0 <= i < |c.roles| :: c.roles[i].role == role }

  /** A live role has the process. */
  predicate PidInUse(c: Client, pid: int) { exists i | 0 <= i < |c.roles| :: Alive(c, i) && c.roles[i].pid == pid }

  /** The roles the native side has seen are roles the client has bound. */
  ghost predicate SeenKnown(c: Client, n: Native) { forall r | r in n.seen :: EverBound(c, r) }

  /** A bind the client sends passes the native test exactly when its role was never bound before
      and no live role has its process: both are in the client's own records. */
  lemma RebindIsTheOneRefusal(c: Client, n: Native, role: Role, pid: int)
    requires InStep(c, n) && SeenKnown(c, n) && Sends(c, BindRole(role, pid))
    ensures TableAllows(n, BindRequest(role, pid)) <==> !EverBound(c, role) && !PidInUse(c, pid)
  {
    TableHasRoom(c, n, role);
    forall k | 0 <= k < 3 && n.handles[k].used
      ensures n.handles[k].role != role && (n.handles[k].pid == pid ==> PidInUse(c, pid))
    {
      var i := UsedIsBound(c, n, k);
      assert RoleLinked(c, n, i);
    }
    if EverBound(c, role) {
      var i :| 0 <= i < |c.roles| && c.roles[i].role == role;
      assert RoleLinked(c, n, i);
    }
    if PidInUse(c, pid) {
      var i :| 0 <= i < |c.roles| && Alive(c, i) && c.roles[i].pid == pid;
      assert RoleLinked(c, n, i);
    }
  }

  /** The client trusts every reply that is not an error, but for a freeze that reads unfrozen
      and a bind that reads a zero identity: its checks on handle, counter and clock never fire. */
  lemma RepliesAreTrusted(c: Client, n: Native, op: Op, w: World)
    requires InStep(c, n) && Sends(c, op)
    ensures var reply := Serve(n, c.next, RequestOf(c, op), w).1;
            reply.Some? && !reply.value.ErrorReply? ==>
              (Trusts(c, op, reply.value) <==>
                 (op.OperateRole? && op.op.FreezeOp? ==> w.frozen) && (op.BindRole? ==> w.nonZero))
  {
    if op.OperateRole? {
      assert RoleLinked(c, n, op.i);
    }
  }

  // ---- every step keeps them in step ----

  lemma ClockKeeps(c: Client, n: Native, ns: int)
    requires InStep(c, n) && ns > c.lastNs
    ensures InStep(c.(lastNs := ns, next := c.next + 1), n.(lastNs := ns, expected := n.expected + 1))
  {
    var c', n' := c.(lastNs := ns, next := c.next + 1), n.(lastNs := ns, expected := n.expected + 1);
    LinksCarry(c, n, c', n');
  }

  /** Links depend on the roles, the bound set, the handles and the roles seen. */
  lemma LinksCarry(c: Client, n: Native, c': Client, n': Native)
    requires InStep(c, n) && c'.roles == c.roles && c'.bound == c.bound && n'.handles == n.handles && n'.seen == n.seen
    requires c.lastNs <= c'.lastNs
    ensures (forall i :: RoleLinked(c', n', i)) && (forall i, j :: RolesApart(c', i, j))
    ensures (forall k :: HandleLinked(c', n', k)) && (forall r :: BoundLinked(c', r))
  {
    forall i
      ensures RoleLinked(c', n', i)
    {
      assert RoleLinked(c, n, i);
    }
    forall i, j
      ensures RolesApart(c', i, j)
    {
      assert RolesApart(c, i, j);
    }
    forall k
      ensures HandleLinked(c', n', k)
    {
      assert HandleLinked(c, n, k);
      if 0 <= k < |n.handles| && n.handles[k].used {
        var i :| Alive(c, i) && c.roles[i].handle == k + 1;
        assert Alive(c', i);
      }
    }
    forall r
      ensures BoundLinked(c', r)
    {
      assert BoundLinked(c, r);
      if r in c.bound {
        var i :| Alive(c, i) && c.roles[i].role == r;
        assert Alive(c', i);
      }
    }
  }

  /** The client's and the native side's record of role `i` change together, its handle staying. */
  lemma OneRoleChanges(c: Client, n: Native, c': Client, n': Native, i: int, r: BoundRole, h: Handle)
    requires InStep(c, n) && Alive(c, i) && !r.status.StatusReleased?
    requires r.handle == c.roles[i].handle && r.role == c.roles[i].role && r.pid == c.roles[i].pid && h.pid == r.pid
    requires r.lastNs <= c'.lastNs && c.lastNs <= c'.lastNs
    requires HandleKnown(n, r.handle) && h.used && h.role == r.role && Agree(r.status, h.state)
             && h.usage == r.lastUsage
    requires c'.roles == c.roles[i := r] && c'.bound == c.bound
    requires n'.handles == n.handles[r.handle - 1 := h] && n'.seen == n.seen
    ensures (forall q :: RoleLinked(c', n', q)) && (forall p, q :: RolesApart(c', p, q))
    ensures (forall k :: HandleLinked(c', n', k)) && (forall q :: BoundLinked(c', q))
  {
    assert RoleLinked(c, n, i);
    forall q
      ensures RoleLinked(c', n', q)
    {
      assert RoleLinked(c, n, q) && RolesApart(c, i, q);
    }
    forall p, q
      ensures RolesApart(c', p, q)
    {
      assert RolesApart(c, p, q);
    }
    forall k
      ensures HandleLinked(c', n', k)
    {
      assert HandleLinked(c, n, k);
      if 0 <= k < |n.handles| && n.handles[k].used {
        var q :| Alive(c, q) && c.roles[q].handle == k + 1;
        assert Alive(c', q);
      } else if 0 <= k < |n'.handles| && n'.handles[k].used {
        assert Alive(c', i);
      }
    }
    forall q
      ensures BoundLinked(c', q)
    {
      assert BoundLinked(c, q);
      if q in c.bound {
        var p :| Alive(c, p) && c.roles[p].role == q;
        assert Alive(c', p);
      }
    }
  }

  lemma ActivateKeeps(c: Client, n: Native, i: nat, same: bool, w: World)
    requires InStep(c, n) && !c.terminal
    ensures var (c', n') := Step(c, n, ActivateRole(i, same), w); c'.terminal || InStep(c', n')
  {
    var (c', n') := Step(c, n, ActivateRole(i, same), w);
    if !c'.terminal && c' != c {
      assert RoleLinked(c, n, i);
      OneRoleChanges(c, n, c', n', i, c'.roles[i], n.handles[c.roles[i].handle - 1]);
    }
  }

  lemma OperateKeeps(c: Client, n: Native, i: nat, op: HandleOp, w: World)
    requires InStep(c, n) && !c.terminal && !op.Release?
    ensures var (c', n') := Step(c, n, OperateRole(i, op), w); c'.terminal || InStep(c', n')
  {
    var (c', n') := Step(c, n, OperateRole(i, op), w);
    if !c'.terminal && c' != c {
      assert RoleLinked(c, n, i);
      var id := c.roles[i].handle;
      OneRoleChanges(c, n, c', n', i, c'.roles[i], n'.handles[id - 1]);
    }
  }

  lemma ReleaseLinks(c: Client, n: Native, c': Client, n': Native, i: int)
    requires InStep(c, n) && Alive(c, i) && HandleKnown(n, c.roles[i].handle)
    requires c'.roles == c.roles[i := c.roles[i].(status := StatusReleased)] && c'.bound == c.bound - {c.roles[i].role}
    requires n'.handles == n.handles[c.roles[i].handle - 1 := FREE] && n'.seen == n.seen && c'.lastNs == c.lastNs
    ensures (forall q :: RoleLinked(c', n', q)) && (forall p, q :: RolesApart(c', p, q))
    ensures (forall k :: HandleLinked(c', n', k)) && (forall q :: BoundLinked(c', q))
  {
    assert RoleLinked(c, n, i);
    forall q
      ensures RoleLinked(c', n', q)
    {
      assert RoleLinked(c, n, q) && RolesApart(c, i, q);
    }
    forall p, q
      ensures RolesApart(c', p, q)
    {
      assert RolesApart(c, p, q);
    }
    forall k
      ensures HandleLinked(c', n', k)
    {
      assert HandleLinked(c, n, k);
      if 0 <= k < |n'.handles| && n'.handles[k].used {
        var q :| Alive(c, q) && c.roles[q].handle == k + 1;
        assert Alive(c', q);
      }
    }
    forall q
      ensures BoundLinked(c', q)
    {
      assert BoundLinked(c, q);
      if q in c'.bound {
        var p :| Alive(c, p) && c.roles[p].role == q;
        assert Alive(c', p);
      }
    }
  }

  lemma ReleaseKeeps(c: Client, n: Native, i: nat, w: World)
    requires InStep(c, n) && !c.terminal
    ensures var (c', n') := Step(c, n, OperateRole(i, Release), w); c'.terminal || InStep(c', n')
  {
    var (c', n') := Step(c, n, OperateRole(i, Release), w);
    if !c'.terminal && c' != c {
      assert RoleLinked(c, n, i);
      ReleaseLinks(c, n, c', n', i);
    }
  }

  lemma BindLinks(c: Client, n: Native, c': Client, n': Native, k: int, r: BoundRole, h: Handle)
    requires InStep(c, n) && 0 <= k < 3 && !n.handles[k].used && r.role !in c.bound
    requires r.handle == k + 1 && r.status.StatusBound? && h.used && h.role == r.role && h.pid == r.pid
             && h.state.BoundActive? && h.usage == r.lastUsage
    requires c'.roles == c.roles + [r] && c'.bound == c.bound + {r.role} && r.lastNs <= c'.lastNs
             && c.lastNs <= c'.lastNs
    requires n'.handles == n.handles[k := h] && n'.seen == n.seen + {r.role}
    ensures (forall q :: RoleLinked(c', n', q)) && (forall p, q :: RolesApart(c', p, q))
    ensures (forall q :: HandleLinked(c', n', q)) && (forall q :: BoundLinked(c', q))
  {
    forall q
      ensures RoleLinked(c', n', q)
    {
      assert RoleLinked(c, n, q);
    }
    forall p, q
      ensures RolesApart(c', p, q)
    {
      assert RolesApart(c, p, q) && RoleLinked(c, n, p) && RoleLinked(c, n, q);
    }
    forall q
      ensures HandleLinked(c', n', q)
    {
      assert HandleLinked(c, n, q);
      if q == k {
        assert Alive(c', |c.roles|);
      } else if 0 <= q < |n.handles| && n.handles[q].used {
        var p :| Alive(c, p) && c.roles[p].handle == q + 1;
        assert Alive(c', p) && c'.roles[p] == c.roles[p];
      }
    }
    forall q
      ensures BoundLinked(c', q)
    {
      assert BoundLinked(c, q);
      if q == r.role {
        assert Alive(c', |c.roles|);
      } else if q in c.bound {
        var p :| Alive(c, p) && c.roles[p].role == q;
        assert Alive(c', p) && c'.roles[p] == c.roles[p];
      }
    }
  }

  lemma BindKeeps(c: Client, n: Native, role: Role, pid: int, w: World)
    requires InStep(c, n) && !c.terminal
    ensures var (c', n') := Step(c, n, BindRole(role, pid), w); c'.terminal || InStep(c', n')
  {
    var (c', n') := Step(c, n, BindRole(role, pid), w);
    if !c'.terminal && c' != c {
      var k := FirstFree(n.handles);
      BindLinks(c, n, c', n', k, c'.roles[|c.roles|], n'.handles[k]);
    }
  }

  lemma StepKeeps(c: Client, n: Native, op: Op, w: World)
    requires InStep(c, n) && !c.terminal
    ensures var (c', n') := Step(c, n, op, w); c'.terminal || InStep(c', n')
  {
    match op
    case ReadClock =>
      var (c', n') := Step(c, n, op, w);
      if !c'.terminal && c' != c {
        ClockKeeps(c, n, c'.lastNs);
      }
    case BindRole(role, pid) => BindKeeps(c, n, role, pid, w);
    case ActivateRole(i, same) => ActivateKeeps(c, n, i, same, w);
    case OperateRole(i, h) => if h.Release? { ReleaseKeeps(c, n, i, w); } else { OperateKeeps(c, n, i, h, w); }
    case StopClient =>
  }

  // ---- whole sessions ----

  datatype Turn = Turn(op: Op, w: World)

  function Session(turns: seq<Turn>): (Client, Native) {
    if turns == [] then (NEW_CLIENT, NEW_NATIVE)
    else
      var (c, n) := Session(turns[..|turns| - 1]);
      Step(c, n, turns[|turns| - 1].op, turns[|turns| - 1].w)
  }

  /** A session that is closed stays closed. */
  lemma TerminalStays(c: Client, n: Native, op: Op, w: World)
    requires c.terminal
    ensures Step(c, n, op, w) == (c, n)
  {}

  lemma RolesKeepNames(c: Client, c': Client, r: Role)
    requires EverBound(c, r) && |c.roles| <= |c'.roles|
    requires forall i | 0 <= i < |c.roles| :: c'.roles[i].role == c.roles[i].role
    ensures EverBound(c', r)
  {
    var i :| 0 <= i < |c.roles| && c.roles[i].role == r;
    assert c'.roles[i].role == r;
  }

  lemma StepKnows(c: Client, n: Native, op: Op, w: World)
    requires SeenKnown(c, n)
    ensures var (c', n') := Step(c, n, op, w); c'.terminal || SeenKnown(c', n')
  {
    var (c', n') := Step(c, n, op, w);
    if !c'.terminal {
      forall r | r in n'.seen
        ensures EverBound(c', r)
      {
        if r in n.seen {
          RolesKeepNames(c, c', r);
        } else {
          assert c'.roles[|c.roles|].role == r;
        }
      }
    }
  }

  /** What the native side has seen, an open session has bound. */
  lemma {:induction false} SessionKnows(turns: seq<Turn>)
    ensures var (c, n) := Session(turns); c.terminal || SeenKnown(c, n)
  {
    if turns != [] {
      SessionKnows(turns[..|turns| - 1]);
      var (c, n) := Session(turns[..|turns| - 1]);
      if c.terminal {
        TerminalStays(c, n, turns[|turns| - 1].op, turns[|turns| - 1].w);
      } else {
        StepKnows(c, n, turns[|turns| - 1].op, turns[|turns| - 1].w);
      }
    }
  }

  /** After any calls and whatever the world does, an open session is in step. */
  lemma {:induction false} SessionInStep(turns: seq<Turn>)
    ensures var (c, n) := Session(turns); c.terminal || InStep(c, n)
  {
    if turns == [] {
      assert forall i :: RoleLinked(NEW_CLIENT, NEW_NATIVE, i);
      assert forall i, j :: RolesApart(NEW_CLIENT, i, j);
      assert forall k :: HandleLinked(NEW_CLIENT, NEW_NATIVE, k);
      assert forall r :: BoundLinked(NEW_CLIENT, r);
    } else {
      SessionInStep(turns[..|turns| - 1]);
      var (c, n) := Session(turns[..|turns| - 1]);
      if c.terminal {
        TerminalStays(c, n, turns[|turns| - 1].op, turns[|turns| - 1].w);
      } else {
        StepKeeps(c, n, turns[|turns| - 1].op, turns[|turns| - 1].w);
      }
    }
  }

  /** Lockstep.  In an open session, after any run: sequence numbers agree; no request but a bind
      fails the native role-state test, and a bind fails it exactly when the client has bound the
      role before or a live role has the process; and the client trusts every reply that is no
      error but an unfrozen freeze or a zero identity. */
  lemma Lockstep(turns: seq<Turn>, op: Op, w: World)
    requires !Session(turns).0.terminal && Sends(Session(turns).0, op)
    ensures var (c, n) := Session(turns);
            c.next == n.expected && |n.handles| == 3
            && (TableAllows(n, RequestOf(c, op)) <==> (op.BindRole? ==> !EverBound(c, op.role) && !PidInUse(c, op.pid)))
            && (var reply := Serve(n, c.next, RequestOf(c, op), w).1;
                reply.Some? && !reply.value.ErrorReply? ==>
                  (Trusts(c, op, reply.value)
                   <==> (op.OperateRole? && op.op.FreezeOp? ==> w.frozen) && (op.BindRole? ==> w.nonZero)))
  {
    var (c, n) := Session(turns);
    SessionInStep(turns);
    SessionKnows(turns);
    RepliesAreTrusted(c, n, op, w);
    if op.BindRole? {
      RebindIsTheOneRefusal(c, n, op.role, op.pid);
    } else {
      TableAgrees(c, n, op);
    }
  }

  lemma SessionAppend(turns: seq<Turn>, turn: Turn)
    ensures var (c, n) := Session(turns); Session(turns + [turn]) == Step(c, n, turn.op, turn.w)
  {
    assert (turns + [turn])[..|turns|] == turns;
  }

  /** Everything goes well at the given time. */
  function Smooth(ns: nat): World { World(true, true, true, ns, 0, false, false, 0, true, true) }

  function WorkerClient(next: int, ns: int, status: Status): Client {
    var live := !status.StatusReleased?;
    Client(next, false, false, if live then 1 else 0, if live then {Worker} else {}, ns,
           [BoundRole(1, Worker, 7, ns, 0, status)])
  }

  function WorkerNative(expected: int, ns: int, state: NativeState): Native {
    Native(true, expected, [Handle(true, Worker, 7, state, 0), FREE, FREE], {Worker}, ns)
  }

  lemma BindsWorker()
    ensures Step(NEW_CLIENT, NEW_NATIVE, BindRole(Worker, 7), Smooth(1))
            == (WorkerClient(3, 1, StatusBound), WorkerNative(3, 1, BoundActive))
  {
    var (c, n) := Step(NEW_CLIENT, NEW_NATIVE, BindRole(Worker, 7), Smooth(1));
    assert c.roles == WorkerClient(3, 1, StatusBound).roles && c.bound == {Worker};
    assert n.handles == WorkerNative(3, 1, BoundActive).handles && n.seen == {Worker};
  }

  lemma QuietsWorker()
    ensures Step(WorkerClient(3, 1, StatusActive), WorkerNative(3, 1, BoundActive), OperateRole(0, QuiescentOp),
            Smooth(3))
         == (WorkerClient(4, 3, StatusQuiescent), WorkerNative(4, 3, NativeQuiescent))
  {
    var (c, n) := Step(WorkerClient(3, 1, StatusActive), WorkerNative(3, 1, BoundActive), OperateRole(0, QuiescentOp),
      Smooth(3));
    assert c.roles == WorkerClient(4, 3, StatusQuiescent).roles;
    assert n.handles == WorkerNative(4, 3, NativeQuiescent).handles;
  }

  lemma ReleasesWorker()
    ensures Step(WorkerClient(4, 3, StatusQuiescent), WorkerNative(4, 3, NativeQuiescent), OperateRole(0, Release),
            Smooth(4))
         == (WorkerClient(5, 3, StatusReleased), Native(true, 5, [FREE, FREE, FREE], {Worker}, 3))
  {
    var (c, n) := Step(WorkerClient(4, 3, StatusQuiescent), WorkerNative(4, 3, NativeQuiescent),
      OperateRole(0, Release), Smooth(4));
    assert c.roles == WorkerClient(5, 3, StatusReleased).roles && c.bound == {};
    assert n.handles == [FREE, FREE, FREE];
  }

  lemma ActivatesWorker()
    ensures Step(WorkerClient(3, 1, StatusBound), WorkerNative(3, 1, BoundActive), ActivateRole(0, true), Smooth(2))
         == (WorkerClient(3, 1, StatusActive), WorkerNative(3, 1, BoundActive))
  {
    var (c, n) := Step(WorkerClient(3, 1, StatusBound), WorkerNative(3, 1, BoundActive), ActivateRole(0, true),
      Smooth(2));
    assert c.roles == WorkerClient(3, 1, StatusActive).roles;
  }

  lemma AfterRelease() returns (turns: seq<Turn>)
    ensures Session(turns) == (WorkerClient(5, 3, StatusReleased), Native(true, 5, [FREE, FREE, FREE], {Worker}, 3))
  {
    var t1 := [] + [Turn(BindRole(Worker, 7), Smooth(1))];
    var t2 := t1 + [Turn(ActivateRole(0, true), Smooth(2))];
    var t3 := t2 + [Turn(OperateRole(0, QuiescentOp), Smooth(3))];
    turns := t3 + [Turn(OperateRole(0, Release), Smooth(4))];
    SessionAppend([], Turn(BindRole(Worker, 7), Smooth(1)));
    SessionAppend(t1, Turn(ActivateRole(0, true), Smooth(2)));
    SessionAppend(t2, Turn(OperateRole(0, QuiescentOp), Smooth(3)));
    SessionAppend(t3, Turn(OperateRole(0, Release), Smooth(4)));
    BindsWorker();
    ActivatesWorker();
    QuietsWorker();
    ReleasesWorker();
  }

  /** The one refusal is reachable: a role bound, observed, released and bound again is sent by
      the client, refused by the native side, and closes the session. */
  lemma RebindIsReachable()
    ensures exists turns ::
              Sends(Session(turns).0, BindRole(Worker, 8))
              && !TableAllows(Session(turns).1, BindRequest(Worker, 8))
              && Session(turns + [Turn(BindRole(Worker, 8), Smooth(9))]).0.terminal
  {
    var turns := AfterRelease();
    SessionAppend(turns, Turn(BindRole(Worker, 8), Smooth(9)));
  }

  /** So is the other: a second role bound with the process of a live one. */
  lemma PidClashIsReachable()
    ensures exists turns ::
              Sends(Session(turns).0, BindRole(Verifier, 7)) && !EverBound(Session(turns).0, Verifier)
              && !TableAllows(Session(turns).1, BindRequest(Verifier, 7))
              && Session(turns + [Turn(BindRole(Verifier, 7), Smooth(2))]).0.terminal
  {
    var turns := [] + [Turn(BindRole(Worker, 7), Smooth(1))];
    SessionAppend([], Turn(BindRole(Worker, 7), Smooth(1)));
    BindsWorker();
    SessionAppend(turns, Turn(BindRole(Verifier, 7), Smooth(2)));
    assert WorkerNative(3, 1, BoundActive).handles[0].used;
  }
}
