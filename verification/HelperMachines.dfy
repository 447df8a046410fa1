/** The native helper and its client as they run: a handle table in an array, records updated in
    place; each operation is proved to be the step of the lockstep model. */
module HelperMachines {
  import opened Evidence
  import opened HelperLockstep

  class NativeHelper {
    var alive: bool
    var expected: int
    const handles: array<Handle>
    var seen: set<Role>
    var lastNs: int

    function State(): Native
      reads this, handles
    {
      Native(alive, expected, handles[..], seen, lastNs)
    }

    ghost predicate Valid() { handles.Length == 3 }

    constructor ()
      ensures Valid() && State() == NEW_NATIVE && fresh(handles)
    {
      handles := new Handle[3](_ => FREE);
      alive, expected, seen, lastNs := true, 2, {}, 0;
      new;
      assert handles[..] == [FREE, FREE, FREE];
    }

    method FindFree() returns (target: nat)
      requires Valid()
      ensures target == FirstFree(handles[..])
    {
      target := 0;
      while target < handles.Length && handles[target].used
        invariant target <= handles.Length
        invariant FirstFree(handles[..]) == target + FirstFree(handles[target..])
      {
        assert handles[target..][1..] == handles[target + 1..];
        target := target + 1;
      }
    }

    method BindHandle(role: Role, pid: int, w: World) returns (reply: Response)
      requires Valid()
      modifies this, handles
      ensures (State(), reply) == if BindTable(old(State()), role, pid) then Bind(old(State()), role, pid, w)
                                  else (old(State()), ErrorReply)
    {
      var target := FindFree();
      if target == handles.Length {
        return ErrorReply;
      }
      for index := 0 to handles.Length
        invariant forall k | 0 <= k < index && handles[k].used :: handles[k].role != role && handles[k].pid != pid
        invariant State() == old(State())
      {
        if handles[index].used && (handles[index].role == role || handles[index].pid == pid) {
          return ErrorReply;
        }
      }
      if role in seen || !w.checks || w.ns <= lastNs {
        return ErrorReply;
      }
      lastNs := w.ns;
      if !w.freshCgroup {
        return ErrorReply;
      }
      handles[target] := Handle(true, role, pid, BoundActive, w.usage);
      seen := seen + {role};
      return BindReply(target + 1, role, w.usage, w.ns, w.nonZero);
    }

    method OperateHandle(op: HandleOp, id: int, w: World) returns (reply: Response)
      requires Valid()
      modifies this, handles
      ensures (State(), reply) == if HandleKnown(old(State()), id)
              && StateAllows(old(State()).handles[id - 1].state, op)
                                  then Operate(old(State()), op, id, w) else (old(State()), ErrorReply)
    {
      if id < 1 || id > handles.Length || !handles[id - 1].used {
        return ErrorReply;
      }
      var h := handles[id - 1];
      if !StateAllows(h.state, op) || !w.checks {
        return ErrorReply;
      }
      if op == Release {
        handles[id - 1] := FREE;
        return AckReply(id);
      }
      if w.usage < h.usage || w.ns <= lastNs {
        return ErrorReply;
      }
      lastNs := w.ns;
      handles[id - 1] := h.(usage := w.usage);
      if !Completes(op, w) {
        return ErrorReply;
      }
      handles[id - 1] := handles[id - 1].(state := StateAfter(h.state, op));
      assert handles[..] == old(handles[..])[id - 1 := h.(usage := w.usage, state := StateAfter(h.state, op))];
      return SampleReply(id, w.ns, w.usage, w.populated, w.frozen, w.processes);
    }

    /** Closes every handle and ends the process. */
    method Exit()
      requires Valid()
      modifies this`alive, handles
      ensures State() == Exited(old(State()))
    {
      for index := 0 to handles.Length
        invariant forall k | 0 <= k < index :: handles[k] == FREE
      {
        handles[index] := FREE;
      }
      alive := false;
      assert handles[..] == [FREE, FREE, FREE];
    }

    /** One pass of the main loop: the sequence check, then the request. */
    method ServeRequest(sequence: int, request: Request, w: World) returns (reply: Option<Response>)
      requires Valid()
      modifies this, handles
      ensures (State(), reply) == Serve(old(State()), sequence, request, w)
    {
      if !alive || sequence != expected || expected == MAX_UINT64 {
        Exit();
        return None;
      }
      expected := expected + 1;
      match request
      case RawClock =>
        if !w.checks || w.ns <= lastNs {
          return Some(ErrorReply);
        }
        lastNs := w.ns;
        return Some(ClockReply(w.ns));
      case BindRequest(role, pid) =>
        var answer := BindHandle(role, pid, w);
        return Some(answer);
      case HandleRequest(op, id) =>
        var answer := OperateHandle(op, id, w);
        return Some(answer);
      case StopRequest =>
        for index := 0 to handles.Length
          invariant forall k | 0 <= k < index :: !handles[k].used
          invariant State() == old(State()).(expected := old(expected) + 1)
        {
          if handles[index].used {
            Exit();
            return Some(ErrorReply);
          }
        }
        Exit();
        return Some(StopReply);
    }
  }

  /** The same states, up to what a closed client still remembers. */
  predicate Matches(c: Client, n: Native, step: (Client, Native)) {
    n == step.1 && (c == step.0 || (c.terminal && step.0.terminal))
  }

  class HelperClient {
    const helper: NativeHelper
    var next: int
    var terminal: bool
    var stopped: bool
    var activeRoles: int
    var bound: set<Role>
    var lastNs: int
    var roles: seq<BoundRole>

    function State(): Client
      reads this
    {
      Client(next, terminal, stopped, activeRoles, bound, lastNs, roles)
    }

    constructor (helper: NativeHelper)
      ensures this.helper == helper && State() == NEW_CLIENT
    {
      this.helper := helper;
      next, terminal, stopped, activeRoles, bound, lastNs, roles := 2, false, false, 0, {}, 0, [];
    }

    /** Sends one request; anything but an orderly reply in time poisons the session. */
    method RequestFrame(request: Request, w: World) returns (reply: Option<Response>)
      requires helper.Valid()
      modifies this`next, this`terminal, helper, helper.handles
      ensures next == old(next) + 1
      ensures helper.State() == Serve(old(helper.State()), old(next), request, w).0
      ensures var served := Serve(old(helper.State()), old(next), request, w).1;
              if w.delivered && served.Some? && !served.value.ErrorReply?
                then reply == served && terminal == old(terminal)
              else reply.None? && terminal
    {
      var sequence := next;
      next := next + 1;
      reply := helper.ServeRequest(sequence, request, w);
      if !w.delivered || reply.None? || reply.value.ErrorReply? {
        terminal := true;
        return None;
      }
    }

    method ReadRawClock(w: World) returns (ok: bool)
      requires helper.Valid()
      modifies this, helper, helper.handles
      ensures Matches(State(), helper.State(), Step(old(State()), old(helper.State()), ReadClock, w))
    {
      if terminal || stopped {
        return false;
      }
      var reply := RequestFrame(RawClock, w);
      if reply.None? {
        return false;
      }
      if !reply.value.ClockReply? || reply.value.ns == 0 || reply.value.ns <= lastNs {
        terminal := true;
        return false;
      }
      lastNs := reply.value.ns;
      return true;
    }

    method Bind(role: Role, pid: int, w: World) returns (ok: bool)
      requires helper.Valid()
      modifies this, helper, helper.handles
      ensures Matches(State(), helper.State(), Step(old(State()), old(helper.State()), BindRole(role, pid), w))
    {
      if terminal || stopped || role in bound {
        return false;
      }
      var reply := RequestFrame(BindRequest(role, pid), w);
      if reply.None? {
        return false;
      }
      var b := reply.value;
      if !b.BindReply? || !b.nonZero || b.handle < 1 || b.role != role || b.ns == 0 || b.ns <= lastNs {
        terminal := true;
        return false;
      }
      lastNs := b.ns;
      roles := roles + [BoundRole(b.handle, role, pid, b.ns, b.usage, StatusBound)];
      bound := bound + {role};
      activeRoles := activeRoles + 1;
      return true;
    }

    method Activate(i: nat, sameDockerRole: bool, ghost w: World) returns (ok: bool)
      requires helper.Valid()
      modifies this
      ensures Matches(State(), helper.State(),
              Step(old(State()), old(helper.State()), ActivateRole(i, sameDockerRole), w))
    {
      if terminal || i >= |roles| || roles[i].status == StatusReleased {
        return false;
      }
      if roles[i].status != StatusBound || !sameDockerRole {
        terminal := true;
        return false;
      }
      roles := roles[i := roles[i].(status := StatusActive)];
      return true;
    }

    /** The sample in a reply, recorded; None poisons the session. */
    method DecodeBoundSample(i: nat, reply: Response) returns (ok: bool)
      requires i < |roles|
      modifies this`terminal, this`lastNs, this`roles
      ensures ok <==>
                reply.SampleReply? && reply.handle == old(roles[i]).handle && reply.usage >= old(roles[i]).lastUsage
                      && reply.ns > old(roles[i]).lastNs && reply.ns > old(lastNs)
      ensures ok ==> terminal == old(terminal) && lastNs == reply.ns
                     && roles == old(roles)[i := old(roles[i]).(lastNs := reply.ns, lastUsage := reply.usage)]
      ensures !ok ==> terminal && lastNs == old(lastNs) && roles == old(roles)
    {
      if !reply.SampleReply? || reply.handle != roles[i].handle || reply.usage < roles[i].lastUsage
        || reply.ns <= roles[i].lastNs
         || reply.ns <= lastNs {
        terminal := true;
        return false;
      }
      lastNs := reply.ns;
      roles := roles[i := roles[i].(lastNs := reply.ns, lastUsage := reply.usage)];
      return true;
    }

    /** A sample of an active role. */
    method SampleRole(i: nat, w: World) returns (ok: bool)
      requires helper.Valid()
      modifies this, helper, helper.handles
      ensures Matches(State(), helper.State(), Step(old(State()), old(helper.State()), OperateRole(i, Sample), w))
    {
      if terminal || stopped || i >= |roles| || roles[i].status != StatusActive {
        return false;
      }
      var reply := RequestFrame(HandleRequest(Sample, roles[i].handle), w);
      if reply.None? {
        return false;
      }
      ok := DecodeBoundSample(i, reply.value);
    }

    /** Freezes a bound or active role; an unfrozen sample poisons the session. */
    method FreezeRole(i: nat, w: World) returns (ok: bool)
      requires helper.Valid()
      modifies this, helper, helper.handles
      ensures Matches(State(), helper.State(), Step(old(State()), old(helper.State()), OperateRole(i, FreezeOp), w))
    {
      if terminal || stopped || i >= |roles| || (roles[i].status != StatusActive && roles[i].status != StatusBound) {
        return false;
      }
      var reply := RequestFrame(HandleRequest(FreezeOp, roles[i].handle), w);
      if reply.None? {
        return false;
      }
      ok := DecodeBoundSample(i, reply.value);
      if !ok {
        return;
      }
      if !reply.value.frozen {
        terminal := true;
        return false;
      }
      roles := roles[i := roles[i].(status := StatusFrozen)];
      assert roles == old(roles)[i :=
             old(roles[i]).(lastNs := reply.value.ns, lastUsage := reply.value.usage, status := StatusFrozen)];
    }

    /** Kills a frozen role. */
    method KillRole(i: nat, w: World) returns (ok: bool)
      requires helper.Valid()
      modifies this, helper, helper.handles
      ensures Matches(State(), helper.State(), Step(old(State()), old(helper.State()), OperateRole(i, KillOp), w))
    {
      if terminal || stopped || i >= |roles| || roles[i].status != StatusFrozen {
        return false;
      }
      var reply := RequestFrame(HandleRequest(KillOp, roles[i].handle), w);
      if reply.None? {
        return false;
      }
      ok := DecodeBoundSample(i, reply.value);
      if !ok {
        return;
      }
      roles := roles[i := roles[i].(status := StatusKillSent)];
      assert roles == old(roles)[i :=
             old(roles[i]).(lastNs := reply.value.ns, lastUsage := reply.value.usage, status := StatusKillSent)];
    }

    /** The final observation of a role with nothing left running. */
    method ReadQuiescentRole(i: nat, w: World) returns (ok: bool)
      requires helper.Valid()
      modifies this, helper, helper.handles
      ensures Matches(State(), helper.State(), Step(old(State()), old(helper.State()), OperateRole(i, QuiescentOp), w))
    {
      if terminal || stopped || i >= |roles| || (roles[i].status != StatusActive && roles[i].status != StatusKillSent) {
        return false;
      }
      var reply := RequestFrame(HandleRequest(QuiescentOp, roles[i].handle), w);
      if reply.None? {
        return false;
      }
      ok := DecodeBoundSample(i, reply.value);
      if !ok {
        return;
      }
      if reply.value.populated || reply.value.processes != 0 {
        terminal := true;
        return false;
      }
      roles := roles[i := roles[i].(status := StatusQuiescent)];
      assert roles == old(roles)[i :=
             old(roles[i]).(lastNs := reply.value.ns, lastUsage := reply.value.usage, status := StatusQuiescent)];
    }

    method ReleaseRole(i: nat, w: World) returns (ok: bool)
      requires helper.Valid()
      modifies this, helper, helper.handles
      ensures Matches(State(), helper.State(), Step(old(State()), old(helper.State()), OperateRole(i, Release), w))
    {
      if terminal || stopped || i >= |roles| || roles[i].status != StatusQuiescent {
        return false;
      }
      var reply := RequestFrame(HandleRequest(Release, roles[i].handle), w);
      if reply.None? {
        return false;
      }
      if reply.value != AckReply(roles[i].handle) {
        terminal := true;
        return false;
      }
      bound := bound - {roles[i].role};
      activeRoles := activeRoles - 1;
      roles := roles[i := roles[i].(status := StatusReleased)];
      return true;
    }

    method Stop(w: World) returns (ok: bool)
      requires helper.Valid()
      modifies this, helper, helper.handles
      ensures Matches(State(), helper.State(), Step(old(State()), old(helper.State()), StopClient, w))
    {
      if terminal || stopped || activeRoles != 0 || bound != {} {
        return false;
      }
      stopped := true;
      var reply := RequestFrame(StopRequest, w);
      if reply.None? {
        return false;
      }
      terminal := true;
      return reply.value.StopReply?;
    }
  }
}
