/** Runs of the Docker owner when the daemon answers well: what is made can be removed, what a
    failed creation left is cleaned up, the owner closes; and two runs that close too early. */
module DockerRuns {
  import opened Evidence
  import opened DockerOwner

  lemma RunAppend(acts: seq<Act>, act: Act)
    ensures Run(acts + [act]) == Do(Run(acts), act)
  {
    assert (acts + [act])[..|acts|] == acts;
  }

  lemma AtPut(o: Owner, n: Name, u: Unit)
    ensures At(Put(o, n, u), n) == u && OthersKept(o, Put(o, n, u), n)
  {}

  lemma PutTwice(o: Owner, n: Name, u: Unit, v: Unit)
    ensures Put(Put(o, n, u), n, v) == Put(o, n, v)
  {
    assert o.units[n := u][n := v] == o.units[n := v];
  }

  /** Only the unit of `n` differs. */
  ghost predicate OthersKept(o: Owner, o': Owner, n: Name) { forall q | q != n :: At(o', q) == At(o, q) }

  // ---- a removal whose waits are answered well ----

  /** One wait of a removal: the daemon answers well, and the removal goes on. */
  function OneWait(u: Unit, network: bool): Unit { RemovalResumes(RemovalServed(u, FINE), network) }

  function Waited(u: Unit, network: bool, k: nat): Unit {
    if k == 0 then u else OneWait(Waited(u, network, k - 1), network)
  }

  /** The acts of `k` such waits. */
  function WaitActs(n: Name, k: nat): seq<Act> {
    if k == 0 then [] else WaitActs(n, k - 1) + [RemovalIsServed(n, FINE)] + [RemovalGoesOn(n)]
  }

  /** The daemon holds exactly what the record needs: one object to be found again, the object the
      record names, or none. */
  predicate InDaemon(u: Unit) {
    u.slot.pending.None?
    && if u.record.unresolved then u.slot.present.Some? else u.slot.present == u.record.id
  }

  /** The waits of a removal: to find and verify the object, to delete it, and to look. */
  function WaitCount(u: Unit, network: bool): nat {
    var finding := if u.record.unresolved then 2 else if u.record.id.Some? && !u.record.verified then 1 else 0;
    var deleting := if u.record.id.None? && !u.record.unresolved then 0 else if network then 2 else 1;
    finding + deleting + 1
  }

  predicate Cleaned(u: Unit) { u.record.removed && !u.record.unresolved && Empty(u) && u.removal.NoRemoval? }

  lemma AtRest(u: Unit, network: bool, k: nat)
    requires u.removal.NoRemoval?
    ensures Waited(u, network, k) == u
  {}

  /** The waits unrolled. */
  lemma WaitedUnrolls(u: Unit, network: bool)
    ensures var u1 := OneWait(u, network);
            var u2 := OneWait(u1, network);
            var u3 := OneWait(u2, network);
            var u4 := OneWait(u3, network);
            Waited(u, network, 1) == u1 && Waited(u, network, 2) == u2 && Waited(u, network, 3) == u3
            && Waited(u, network, 4) == u4 && Waited(u, network, 5) == OneWait(u4, network)
  {
    assert Waited(u, network, 1) == OneWait(Waited(u, network, 0), network);
    assert Waited(u, network, 2) == OneWait(Waited(u, network, 1), network);
    assert Waited(u, network, 3) == OneWait(Waited(u, network, 2), network);
    assert Waited(u, network, 4) == OneWait(Waited(u, network, 3), network);
    assert Waited(u, network, 5) == OneWait(Waited(u, network, 4), network);
  }

  /** A removal at whose waits the daemon answers well cleans up exactly when the daemon holds what
      the record needs. */
  lemma RemovalCleans(u: Unit, network: bool)
    requires UnitKept(u, network) && u.removal.NoRemoval? && !u.record.removed
    ensures Cleaned(Waited(StartRemoval(u, network), network, WaitCount(u, network))) <==> InDaemon(u)
  {
    WaitedUnrolls(StartRemoval(u, network), network);
  }

  lemma WaitActsStep(acts: seq<Act>, n: Name, k: nat)
    requires 1 <= k
    ensures acts + WaitActs(n, k) == acts + WaitActs(n, k - 1) + [RemovalIsServed(n, FINE)] + [RemovalGoesOn(n)]
  {}

  lemma NextWaitRuns(acts: seq<Act>, o: Owner, n: Name, u: Unit, k: nat)
    requires 1 <= k && Run(acts + WaitActs(n, k - 1)) == Put(o, n, u)
    ensures var put := Put(o, n, OneWait(u, n.IsNetwork()));
            Run(acts + WaitActs(n, k)) == if n.OutboundNetwork? && u.removal.Removing? then WorkerNext(put) else put
  {
    OneWaitRuns(acts + WaitActs(n, k - 1), o, n, u);
    WaitActsStep(acts, n, k);
  }

  /** The waits of a container's removal, or of the worker network's, as acts of a run. */
  lemma {:induction false} WaitsRun(acts: seq<Act>, o: Owner, n: Name, u: Unit, k: nat)
    requires Run(acts) == Put(o, n, u) && !n.OutboundNetwork?
    ensures Run(acts + WaitActs(n, k)) == Put(o, n, Waited(u, n.IsNetwork(), k))
  {
    if k == 0 {
      assert acts + WaitActs(n, 0) == acts;
    } else {
      WaitsRun(acts, o, n, u, k - 1);
      NextWaitRuns(acts, o, n, Waited(u, n.IsNetwork(), k - 1), k);
    }
  }

  lemma ServedDoes(o: Owner, n: Name, u: Unit)
    ensures Do(Put(o, n, u), RemovalIsServed(n, FINE)) == Put(o, n, RemovalServed(u, FINE))
    ensures RemovalServed(u, FINE).removal.Removing? <==> u.removal.Removing?
  {
    PutTwice(o, n, u, RemovalServed(u, FINE));
  }

  lemma GoesOnDoes(o: Owner, n: Name, u: Unit)
    ensures var put := Put(o, n, RemovalResumes(u, n.IsNetwork()));
            Do(Put(o, n, u), RemovalGoesOn(n)) == if n.OutboundNetwork? && u.removal.Removing? then WorkerNext(put)
            else put
  {
    PutTwice(o, n, u, RemovalResumes(u, n.IsNetwork()));
  }

  lemma OneWaitRuns(acts: seq<Act>, o: Owner, n: Name, u: Unit)
    requires Run(acts) == Put(o, n, u)
    ensures var put := Put(o, n, OneWait(u, n.IsNetwork()));
            Run(acts + [RemovalIsServed(n, FINE)] + [RemovalGoesOn(n)])
            == if n.OutboundNetwork? && u.removal.Removing? then WorkerNext(put) else put
  {
    RunAppend(acts, RemovalIsServed(n, FINE));
    RunAppend(acts + [RemovalIsServed(n, FINE)], RemovalGoesOn(n));
    ServedDoes(o, n, u);
    GoesOnDoes(o, n, RemovalServed(u, FINE));
  }

  /** All acts of a container's removal. */
  function ContainerActs(n: Name, u: Unit): seq<Act> { [RemoveContainer(n)] + WaitActs(n, WaitCount(u, false)) }

  lemma StartRuns(acts: seq<Act>, n: Name)
    requires !n.IsNetwork()
    ensures Run(acts + [RemoveContainer(n)]) == Put(Run(acts), n, StartRemoval(At(Run(acts), n), false))
  {
    RunAppend(acts, RemoveContainer(n));
  }

  lemma ContainerRuns(acts: seq<Act>, n: Name)
    requires !n.IsNetwork()
    ensures var u := At(Run(acts), n);
            Run(acts + ContainerActs(n, u))
            == Put(Run(acts), n, Waited(StartRemoval(u, false), false, WaitCount(u, false)))
  {
    var o, u := Run(acts), At(Run(acts), n);
    StartRuns(acts, n);
    var begun, k := acts + [RemoveContainer(n)], WaitCount(u, false);
    WaitsRun(begun, o, n, StartRemoval(u, false), k);
    Regroup(acts, [RemoveContainer(n)], WaitActs(n, k));
  }

  lemma Regroup(a: seq<Act>, b: seq<Act>, c: seq<Act>)
    ensures a + (b + c) == a + b + c
  {}

  /** After any run: the removal of a container with none under way, at whose waits the daemon
      answers well, cleans it up exactly when the daemon holds what the record needs; every other
      name stays as it was. */
  lemma ContainerRemoval(acts: seq<Act>, n: Name)
    requires !n.IsNetwork() && At(Run(acts), n).removal.NoRemoval? && !At(Run(acts), n).record.removed
    ensures var u := At(Run(acts), n);
            var after := Run(acts + ContainerActs(n, u));
            (Cleaned(At(after, n)) <==> InDaemon(u)) && OthersKept(Run(acts), after, n)
  {
    var u := At(Run(acts), n);
    ContainerRuns(acts, n);
    RunKeeps(acts);
    assert NameKept(Run(acts), n);
    RemovalCleans(u, false);
    AtPut(Run(acts), n, Waited(StartRemoval(u, false), false, WaitCount(u, false)));
  }

  /** A container that a failed creation left is cleaned up by its removal, unless a removal before
      had succeeded already: then it stays, and stays unresolved. */
  lemma LeftContainerIsRemoved(acts: seq<Act>, n: Name, id: int)
    requires !n.IsNetwork()
    requires var u := At(Run(acts), n);
             u.creator.CreationFailed? && u.record.unresolved && u.slot == Slot(Some(id), None) && u.removal.NoRemoval?
    ensures var u := At(Run(acts), n);
            Cleaned(At(Run(acts + ContainerActs(n, u)), n)) <==> !u.record.removed
  {
    var u := At(Run(acts), n);
    if u.record.removed {
      ContainerRuns(acts, n);
      AtRest(u, false, WaitCount(u, false));
      assert StartRemoval(u, false) == u;
    } else {
      ContainerRemoval(acts, n);
    }
  }

  // ---- the networks ----

  /** The removal is under way before each of its waits. */
  ghost predicate StillRemoving(u: Unit, network: bool, k: nat) {
    k == 0 || (StillRemoving(u, network, k - 1) && Waited(u, network, k - 1).removal.Removing?)
  }

  lemma {:induction false} StillUnrolls(u: Unit, network: bool, k: nat)
    requires forall j: nat | j < k :: Waited(u, network, j).removal.Removing?
    ensures StillRemoving(u, network, k)
  {
    if k > 0 {
      StillUnrolls(u, network, k - 1);
    }
  }

  /** A removal that will clean up is under way until its last wait. */
  lemma RemovalLasts(u: Unit)
    requires UnitKept(u, true) && u.removal.NoRemoval? && !u.record.removed && InDaemon(u)
    ensures StillRemoving(StartRemoval(u, true), true, WaitCount(u, true))
  {
    var begun := StartRemoval(u, true);
    WaitedUnrolls(begun, true);
    assert Waited(begun, true, 0) == begun;
    forall j: nat | j < WaitCount(u, true)
      ensures Waited(begun, true, j).removal.Removing?
    {
      assert j == 0 || j == 1 || j == 2 || j == 3 || j == 4;
    }
    StillUnrolls(begun, true, WaitCount(u, true));
  }

  lemma OutboundNext(acts: seq<Act>, o: Owner, v: Unit, k: nat)
    requires 1 <= k && Run(acts + WaitActs(OutboundNetwork, k - 1)) == Put(o, OutboundNetwork, v)
    requires v.removal.Removing?
    ensures Run(acts + WaitActs(OutboundNetwork, k)) == WorkerNext(Put(o, OutboundNetwork, OneWait(v, true)))
  {
    NextWaitRuns(acts, o, OutboundNetwork, v, k);
  }

  lemma OutboundFirst(acts: seq<Act>, o: Owner, u: Unit)
    requires Run(acts) == Put(o, OutboundNetwork, u) && u.removal.Removing?
    ensures Run(acts + WaitActs(OutboundNetwork, 1)) == WorkerNext(Put(o, OutboundNetwork, Waited(u, true, 1)))
  {
    assert acts + WaitActs(OutboundNetwork, 0) == acts && Waited(u, true, 0) == u;
    OutboundNext(acts, o, u, 1);
  }

  lemma OutboundLater(acts: seq<Act>, o: Owner, u: Unit, k: nat)
    requires 1 < k && Waited(u, true, k - 1).removal.Removing?
    requires Run(acts + WaitActs(OutboundNetwork, k - 1)) == WorkerNext(Put(o, OutboundNetwork, Waited(u, true, k - 1)))
    ensures Run(acts + WaitActs(OutboundNetwork, k)) == WorkerNext(Put(o, OutboundNetwork, Waited(u, true, k)))
  {
    StillBusy(o, Waited(u, true, k - 1));
    OutboundNext(acts, o, Waited(u, true, k - 1), k);
  }

  /** The waits of the outbound network's removal; the worker network's begins with the last. */
  lemma {:induction false} OutboundWaitsRun(acts: seq<Act>, o: Owner, u: Unit, k: nat)
    requires Run(acts) == Put(o, OutboundNetwork, u) && StillRemoving(u, true, k) && 1 <= k
    ensures Run(acts + WaitActs(OutboundNetwork, k)) == WorkerNext(Put(o, OutboundNetwork, Waited(u, true, k)))
  {
    if k == 1 {
      OutboundFirst(acts, o, u);
    } else {
      OutboundWaitsRun(acts, o, u, k - 1);
      OutboundLater(acts, o, u, k);
    }
  }

  lemma StillBusy(o: Owner, v: Unit)
    requires v.removal.Removing?
    ensures WorkerNext(Put(o, OutboundNetwork, v)) == Put(o, OutboundNetwork, v)
  {}

  function NetworkActs(outbound: Unit, worker: Unit): seq<Act> {
    [RemoveNetworks] + WaitActs(OutboundNetwork, WaitCount(outbound, true))
    + WaitActs(WorkerNetwork, WaitCount(worker, true))
  }

  /** The networks can be removed: the creation is not under way and every container is gone. */
  predicate NetworksFree(o: Owner) { (!o.started || o.settled) && ContainersRemoved(o) && !NetworksBusy(o) }

  predicate Cleanable(u: Unit) { !u.record.removed && u.removal.NoRemoval? && InDaemon(u) }

  /** The unit after a removal at whose waits the daemon answers well. */
  function AfterRemoval(u: Unit, network: bool): Unit {
    Waited(StartRemoval(u, network), network, WaitCount(u, network))
  }

  lemma OutboundRuns(acts: seq<Act>)
    requires NetworksFree(Run(acts)) && Cleanable(At(Run(acts), OutboundNetwork))
    ensures var u := At(Run(acts), OutboundNetwork);
            Run(acts + [RemoveNetworks] + WaitActs(OutboundNetwork, WaitCount(u, true)))
            == StartAt(Put(Run(acts), OutboundNetwork, AfterRemoval(u, true)), WorkerNetwork)
  {
    var o, u := Run(acts), At(Run(acts), OutboundNetwork);
    RunKeeps(acts);
    assert NameKept(o, OutboundNetwork);
    RunAppend(acts, RemoveNetworks);
    RemovalLasts(u);
    StartsOutbound(o);
    OutboundWaitsRun(acts + [RemoveNetworks], o, StartRemoval(u, true), WaitCount(u, true));
    RemovalCleans(u, true);
  }

  lemma StartsOutbound(o: Owner)
    requires NetworksFree(o) && StartRemoval(At(o, OutboundNetwork), true).removal.Removing?
    ensures StartNetworks(o) == Put(o, OutboundNetwork, StartRemoval(At(o, OutboundNetwork), true))
  {}

  /** After any run: once the containers are gone and the creation has settled, the removal of the
      networks, at whose waits the daemon answers well, cleans up both, whether they were made, left
      by a failed creation, or never created. */
  lemma NetworkRemoval(acts: seq<Act>)
    requires NetworksFree(Run(acts))
    requires Cleanable(At(Run(acts), OutboundNetwork)) && Cleanable(At(Run(acts), WorkerNetwork))
    ensures var o := Run(acts);
            var after := Run(acts + NetworkActs(At(o, OutboundNetwork), At(o, WorkerNetwork)));
            Cleaned(At(after, OutboundNetwork)) && Cleaned(At(after, WorkerNetwork))
            && forall n: Name | !n.IsNetwork() :: At(after, n) == At(o, n)
  {
    var o, ob, wk := Run(acts), At(Run(acts), OutboundNetwork), At(Run(acts), WorkerNetwork);
    RunKeeps(acts);
    assert NameKept(o, OutboundNetwork) && NameKept(o, WorkerNetwork);
    OutboundRuns(acts);
    RemovalCleans(ob, true);
    RemovalCleans(wk, true);
    var half := Put(o, OutboundNetwork, AfterRemoval(ob, true));
    var acts1 := acts + [RemoveNetworks] + WaitActs(OutboundNetwork, WaitCount(ob, true));
    WaitsRun(acts1, half, WorkerNetwork, StartRemoval(wk, true), WaitCount(wk, true));
    NetworksRegroup(acts, ob, wk);
    AtPut(o, OutboundNetwork, AfterRemoval(ob, true));
    AtPut(half, WorkerNetwork, AfterRemoval(wk, true));
  }

  lemma NetworksRegroup(acts: seq<Act>, ob: Unit, wk: Unit)
    ensures acts + NetworkActs(ob, wk)
         == acts + [RemoveNetworks] + WaitActs(OutboundNetwork, WaitCount(ob, true))
            + WaitActs(WorkerNetwork, WaitCount(wk, true))
  {}

  // ---- the creation ----

  /** The create call is issued and answers; it takes effect, at once if it answers well. */
  function CallActs(id: int, ok: bool): seq<Act> { [IssueCreate(Some(id))] + [CallAnswers(ok)] }

  /** One wait of the creation: the daemon answers well, and the creation goes on. */
  function CreationActs(k: nat): seq<Act> {
    if k == 0 then [] else CreationActs(k - 1) + [CreationServed(FINE)] + [CreationResumes]
  }

  function OneCreationWait(u: Unit, network: bool): Unit { CreatorResumes(CreatorServed(u, FINE), network) }

  function CreationWaited(u: Unit, network: bool, k: nat): Unit {
    if k == 0 then u else OneCreationWait(CreationWaited(u, network, k - 1), network)
  }

  lemma CallRuns(acts: seq<Act>, n: Name, id: int, ok: bool)
    requires Creating(Run(acts)) && Current(Run(acts)) == n && At(Run(acts), n).creator.NotIssued?
    ensures Run(acts + CallActs(id, ok)) == Put(Run(acts), n, CallReturns(Issue(At(Run(acts), n), Some(id)), ok))
  {
    var u := Issue(At(Run(acts), n), Some(id));
    var issued := acts + [IssueCreate(Some(id))];
    RunAppend(acts, IssueCreate(Some(id)));
    RunAppend(issued, CallAnswers(ok));
    PutTwice(Run(acts), n, u, CallReturns(u, ok));
    assert acts + CallActs(id, ok) == issued + [CallAnswers(ok)];
  }

  lemma CreationWaitRuns(acts: seq<Act>, o: Owner, n: Name, u: Unit)
    requires Run(acts) == Put(o, n, u) && Creating(o) && Current(o) == n
    ensures var v := OneCreationWait(u, n.IsNetwork());
            Run(acts + [CreationServed(FINE)] + [CreationResumes]) == Advance(Put(o, n, v), v)
  {
    var served := acts + [CreationServed(FINE)];
    RunAppend(acts, CreationServed(FINE));
    PutTwice(o, n, u, CreatorServed(u, FINE));
    RunAppend(served, CreationResumes);
    PutTwice(o, n, CreatorServed(u, FINE), OneCreationWait(u, n.IsNetwork()));
  }

  predicate CreationEnds(u: Unit) { u.creator.Made? || u.creator.CreationFailed? }

  ghost predicate CreatingAt(u: Unit, network: bool, j: nat) { !CreationEnds(CreationWaited(u, network, j)) }

  ghost predicate StillCreating(u: Unit, network: bool, k: nat) { forall j: nat | j < k :: CreatingAt(u, network, j) }

  lemma CreationActsStep(acts: seq<Act>, k: nat)
    requires 1 <= k
    ensures acts + CreationActs(k) == acts + CreationActs(k - 1) + [CreationServed(FINE)] + [CreationResumes]
  {}

  lemma NextCreationWaitRuns(acts: seq<Act>, o: Owner, n: Name, u: Unit, k: nat)
    requires 1 <= k && Run(acts + CreationActs(k - 1)) == Put(o, n, u) && Creating(o) && Current(o) == n
    ensures var v := OneCreationWait(u, n.IsNetwork()); Run(acts + CreationActs(k)) == Advance(Put(o, n, v), v)
  {
    CreationWaitRuns(acts + CreationActs(k - 1), o, n, u);
    CreationActsStep(acts, k);
  }

  /** The owner after the waits of a creation. */
  function AfterWaits(o: Owner, n: Name, v: Unit, k: nat): Owner {
    if k == 0 then Put(o, n, v) else Advance(Put(o, n, v), v)
  }

  lemma StillAt(o: Owner, n: Name, v: Unit, k: nat)
    requires !CreationEnds(v)
    ensures AfterWaits(o, n, v, k) == Put(o, n, v)
  {}

  /** The waits of a creation, as acts of a run. */
  lemma {:induction false} CreationWaitsRun(acts: seq<Act>, o: Owner, n: Name, u: Unit, k: nat)
    requires Run(acts) == Put(o, n, u) && Creating(o) && Current(o) == n && StillCreating(u, n.IsNetwork(), k)
    ensures Run(acts + CreationActs(k)) == AfterWaits(o, n, CreationWaited(u, n.IsNetwork(), k), k)
  {
    if k == 0 {
      assert acts + CreationActs(0) == acts;
    } else {
      var v := CreationWaited(u, n.IsNetwork(), k - 1);
      CreationWaitsRun(acts, o, n, u, k - 1);
      assert CreatingAt(u, n.IsNetwork(), k - 1);
      StillAt(o, n, v, k - 1);
      NextCreationWaitRuns(acts, o, n, v, k);
    }
  }

  lemma CreationUnrolls(u: Unit, network: bool)
    ensures var u1 := OneCreationWait(u, network);
            var u2 := OneCreationWait(u1, network);
            var u3 := OneCreationWait(u2, network);
            var u4 := OneCreationWait(u3, network);
            CreationWaited(u, network, 0) == u && CreationWaited(u, network, 1) == u1
            && CreationWaited(u, network, 2) == u2 && CreationWaited(u, network, 3) == u3
            && CreationWaited(u, network, 4) == u4
  {
    assert CreationWaited(u, network, 1) == OneCreationWait(CreationWaited(u, network, 0), network);
    assert CreationWaited(u, network, 2) == OneCreationWait(CreationWaited(u, network, 1), network);
    assert CreationWaited(u, network, 3) == OneCreationWait(CreationWaited(u, network, 2), network);
    assert CreationWaited(u, network, 4) == OneCreationWait(CreationWaited(u, network, 3), network);
  }

  function MadeUnit(id: int, overtaken: bool): Unit {
    Unit(Resource(Some(id), true, false, overtaken), Slot(Some(id), None), Made, NoRemoval, true, overtaken)
  }

  /** A name removed before its creation, and one whose removal has looked and not gone on. */
  const REMOVED_UNIT := NEW_UNIT.(record := NEW_RESOURCE.(removed := true), overtaken := true)
  const LOOKED_UNIT := NEW_UNIT.(removal := Removing(Looking, Some(Yes), false))

  /** A creation that goes well. */
  function MakeActs(id: int): seq<Act> { CallActs(id, true) + CreationActs(1) }

  lemma MakeRuns(acts: seq<Act>, n: Name, id: int, overtaken: bool)
    requires Creating(Run(acts)) && Current(Run(acts)) == n
    requires At(Run(acts), n) == if overtaken then REMOVED_UNIT else NEW_UNIT
    ensures var o := Run(acts);
            Run(acts + MakeActs(id)) == Advance(Put(o, n, MadeUnit(id, overtaken)), MadeUnit(id, overtaken))
  {
    var o := Run(acts);
    var called := CallReturns(Issue(At(o, n), Some(id)), true);
    CallRuns(acts, n, id, true);
    CreationUnrolls(called, n.IsNetwork());
    CreationWaitsRun(acts + CallActs(id, true), o, n, called, 1);
    Regroup(acts, CallActs(id, true), CreationActs(1));
  }

  // ---- recovery from a creation that failed and took effect ----

  /** The create call has made the object by the time it answers, or by the time it is verified. */
  predicate MadeUnnoticed(u: Unit, id: int) {
    (u.creator == Calling(Some(id)) || u.creator == Verifying(id, None))
    && u.slot == Slot(Some(id), None) && u.removal.NoRemoval? && !u.record.removed
  }

  const REFUSAL := Answer(false, false)

  /** And then its answer is a failure, or its verification is. */
  function FailActs(u: Unit): seq<Act> {
    if u.creator.Calling? then [CallAnswers(false)] else [CreationServed(REFUSAL)] + [CreationResumes]
  }

  lemma FailureRecovers(acts: seq<Act>, n: Name, id: int)
    requires Creating(Run(acts)) && Current(Run(acts)) == n && MadeUnnoticed(At(Run(acts), n), id)
    ensures var o := Run(acts);
            Run(acts + FailActs(At(o, n))) == Put(o, n, Recover(At(o, n)))
  {
    var o, u := Run(acts), At(Run(acts), n);
    if u.creator.Calling? {
      RunAppend(acts, CallAnswers(false));
    } else {
      var served := u.(creator := Verifying(id, Some(No)));
      RunAppend(acts, CreationServed(REFUSAL));
      RunAppend(acts + [CreationServed(REFUSAL)], CreationResumes);
      assert acts + FailActs(u) == acts + [CreationServed(REFUSAL)] + [CreationResumes];
      AtPut(o, n, served);
      PutTwice(o, n, served, Recover(u));
      assert CreatorServed(u, REFUSAL) == served && CreatorResumes(served, n.IsNetwork()) == Recover(u);
    }
  }

  /** The unit when recovery has found the object again and asks for its removal. */
  function Found(u: Unit, network: bool, id: int): Unit {
    var resolving := Removing(Resolving, None, true);
    var record := Resource(None, false, true, false);
    if network then u.(record := record, creator := Undoing(resolving))
    else u.(record := record, removal := resolving, creator := AwaitingRemoval)
  }

  lemma RecoveryFinds(u: Unit, network: bool, id: int)
    requires MadeUnnoticed(u, id)
    ensures CreationWaited(Recover(u), network, 2) == Found(u, network, id) && StillCreating(Recover(u), network, 2)
  {
    CreationUnrolls(Recover(u), network);
  }

  /** The object removed and the creation failed. */
  function Undone(u: Unit, id: int): Unit {
    u.(record := Resource(Some(id), true, false, true), slot := EMPTY_SLOT, creator := CreationFailed,
       removal := NoRemoval)
  }

  /** A network's creation is about to delete what it found. */
  function Deletes(u: Unit, id: int): Unit {
    u.(record := Resource(Some(id), true, true, false), creator := Undoing(Removing(Deleting(id), None, true)))
  }

  lemma NetworkFindsAgain(u: Unit, id: int)
    requires MadeUnnoticed(u, id)
    ensures var found := Found(u, true, id);
            CreationWaited(found, true, 3) == Deletes(u, id) && StillCreating(found, true, 3)
  {
    CreationUnrolls(Found(u, true, id), true);
  }

  lemma NetworkDeletes(u: Unit, id: int)
    requires MadeUnnoticed(u, id)
    ensures CreationWaited(Deletes(u, id), true, 3) == Undone(u, id) && StillCreating(Deletes(u, id), true, 3)
  {
    CreationUnrolls(Deletes(u, id), true);
  }

  lemma CreationWaitedAdds(u: Unit, network: bool, j: nat, k: nat)
    ensures CreationWaited(u, network, j + k) == CreationWaited(CreationWaited(u, network, j), network, k)
  {}

  lemma CreatingLater(u: Unit, network: bool, j: nat, k: nat)
    ensures CreatingAt(u, network, j + k) <==> CreatingAt(CreationWaited(u, network, j), network, k)
  {
    CreationWaitedAdds(u, network, j, k);
  }

  lemma StillCreatingAdds(u: Unit, network: bool, j: nat, k: nat)
    requires StillCreating(u, network, j) && StillCreating(CreationWaited(u, network, j), network, k)
    ensures StillCreating(u, network, j + k)
  {
    forall i: nat | i < j + k
      ensures CreatingAt(u, network, i)
    {
      if j <= i {
        CreatingLater(u, network, j, i - j);
      }
    }
  }

  /** A network's creation removes what it found by itself. */
  lemma NetworkUndone(u: Unit, id: int)
    requires MadeUnnoticed(u, id)
    ensures var found := Found(u, true, id);
            CreationWaited(found, true, 6) == Undone(u, id) && StillCreating(found, true, 6)
  {
    var found := Found(u, true, id);
    NetworkFindsAgain(u, id);
    NetworkDeletes(u, id);
    CreationWaitedAdds(found, true, 3, 3);
    StillCreatingAdds(found, true, 3, 3);
  }

  lemma ContainerRemoved(u: Unit, id: int)
    requires MadeUnnoticed(u, id)
    ensures Waited(Found(u, false, id), false, 4) == Undone(u, id).(creator := AwaitingRemoval)
  {
    WaitedUnrolls(Found(u, false, id), false);
  }

  /** A container's is removed by its one removal, for which the creation waits. */
  lemma ContainerUndone(u: Unit, id: int)
    ensures var removed := Undone(u, id).(creator := AwaitingRemoval);
            CreationWaited(removed, false, 1) == Undone(u, id) && StillCreating(removed, false, 1)
  {
    CreationUnrolls(Undone(u, id).(creator := AwaitingRemoval), false);
  }

  /** All acts of the recovery. */
  function RecoveryActs(n: Name, u: Unit): seq<Act> {
    FailActs(u) + CreationActs(2)
    + if n.IsNetwork() then CreationActs(6) else WaitActs(n, 4) + CreationActs(1)
  }

  lemma RecoveryBegins(acts: seq<Act>, n: Name, id: int)
    requires Creating(Run(acts)) && Current(Run(acts)) == n && MadeUnnoticed(At(Run(acts), n), id)
    ensures var o := Run(acts);
            Run(acts + FailActs(At(o, n)) + CreationActs(2)) == Put(o, n, Found(At(o, n), n.IsNetwork(), id))
  {
    var o, u := Run(acts), At(Run(acts), n);
    FailureRecovers(acts, n, id);
    RecoveryFinds(u, n.IsNetwork(), id);
    CreationWaitsRun(acts + FailActs(u), o, n, Recover(u), 2);
  }

  lemma NetworkRecovers(acts: seq<Act>, o: Owner, n: Name, u: Unit, id: int)
    requires n.IsNetwork() && Creating(o) && Current(o) == n && MadeUnnoticed(u, id)
    requires Run(acts) == Put(o, n, Found(u, true, id))
    ensures Run(acts + CreationActs(6)) == Put(o, n, Undone(u, id)).(settled := true)
  {
    NetworkUndone(u, id);
    CreationWaitsRun(acts, o, n, Found(u, true, id), 6);
  }

  lemma ContainerRecovers(acts: seq<Act>, o: Owner, n: Name, u: Unit, id: int)
    requires !n.IsNetwork() && Creating(o) && Current(o) == n && MadeUnnoticed(u, id)
    requires Run(acts) == Put(o, n, Found(u, false, id))
    ensures Run(acts + WaitActs(n, 4) + CreationActs(1)) == Put(o, n, Undone(u, id)).(settled := true)
  {
    var found := Found(u, false, id);
    ContainerRemoved(u, id);
    ContainerUndone(u, id);
    WaitsRun(acts, o, n, found, 4);
    CreationWaitsRun(acts + WaitActs(n, 4), o, n, Waited(found, false, 4), 1);
  }

  lemma RecoveryRegroup(acts: seq<Act>, n: Name, u: Unit)
    ensures var begun := acts + FailActs(u) + CreationActs(2);
            acts + RecoveryActs(n, u)
            == if n.IsNetwork() then begun + CreationActs(6) else begun + WaitActs(n, 4) + CreationActs(1)
  {}

  /** After any run: when a create call fails although it made the object, or the verification of
      what it made does, and the daemon answers well from then on, recovery finds the object,
      verifies it, deletes it and sees it gone; the creation fails with nothing left and nothing
      unresolved. */
  lemma RecoveryCleans(acts: seq<Act>, n: Name, id: int)
    requires Creating(Run(acts)) && Current(Run(acts)) == n && MadeUnnoticed(At(Run(acts), n), id)
    ensures var o, after := Run(acts), Run(acts + RecoveryActs(n, At(Run(acts), n)));
            Cleaned(At(after, n)) && At(after, n).creator.CreationFailed? && after.settled && OthersKept(o, after, n)
  {
    var o, u := Run(acts), At(Run(acts), n);
    var begun := acts + FailActs(u) + CreationActs(2);
    RecoveryBegins(acts, n, id);
    if n.IsNetwork() {
      NetworkRecovers(begun, o, n, u, id);
    } else {
      ContainerRecovers(begun, o, n, u, id);
    }
    RecoveryRegroup(acts, n, u);
    AtPut(o, n, Undone(u, id));
  }

  // ---- a run that goes well ----

  type Ids = Name -> int

  /** The first `k` creations, each going well. */
  function MakeAll(ids: Ids, k: nat): seq<Act>
    requires k <= 5
  {
    if k == 0 then [] else MakeAll(ids, k - 1) + MakeActs(ids(CREATION_ORDER[k - 1]))
  }

  ghost predicate MadeTo(o: Owner, o': Owner, ids: Ids, k: nat, q: Name) {
    At(o', q) == if Rank(q) < k then MadeUnit(ids(q), false) else At(o, q)
  }

  /** The first `k` names are made, and the rest as they were. */
  ghost predicate AllMadeTo(o: Owner, o': Owner, ids: Ids, k: nat) { forall q :: MadeTo(o, o', ids, k, q) }

  predicate AtStart(o: Owner) { o.started && !o.settled && o.next == 0 }

  lemma {:induction false} MakesRun(acts: seq<Act>, ids: Ids, k: nat)
    requires AtStart(Run(acts)) && k <= 5 && forall q: Name | Rank(q) < k :: At(Run(acts), q) == NEW_UNIT
    ensures var o' := Run(acts + MakeAll(ids, k));
            o'.started && o'.next == k && (o'.settled <==> k == 5) && AllMadeTo(Run(acts), o', ids, k)
  {
    if k == 0 {
      assert acts + MakeAll(ids, 0) == acts;
    } else {
      var n, before := CREATION_ORDER[k - 1], acts + MakeAll(ids, k - 1);
      MakesRun(acts, ids, k - 1);
      assert MadeTo(Run(acts), Run(before), ids, k - 1, n);
      MakeRuns(before, n, ids(n), false);
      Regroup(acts, MakeAll(ids, k - 1), MakeActs(ids(n)));
      OneMoreMade(Run(acts), Run(before), ids, k);
    }
  }

  lemma OneMoreMade(o: Owner, o': Owner, ids: Ids, k: nat)
    requires 1 <= k <= 5 && AllMadeTo(o, o', ids, k - 1)
    ensures var n, made := CREATION_ORDER[k - 1], MadeUnit(ids(CREATION_ORDER[k - 1]), false);
            AllMadeTo(o, Advance(Put(o', n, made), made), ids, k)
  {
    var n := CREATION_ORDER[k - 1];
    var made := MadeUnit(ids(n), false);
    AtPut(o', n, made);
    forall q
      ensures MadeTo(o, Advance(Put(o', n, made), made), ids, k, q)
    {
      assert MadeTo(o, o', ids, k - 1, q);
      assert At(Advance(Put(o', n, made), made), q) == At(Put(o', n, made), q);
    }
  }

  function GoneUnit(id: int): Unit {
    Unit(Resource(Some(id), true, false, true), EMPTY_SLOT, Made, NoRemoval, true, false)
  }

  lemma MadeGoes(id: int, network: bool)
    ensures AfterRemoval(MadeUnit(id, false), network) == GoneUnit(id) && Cleanable(MadeUnit(id, false))
  {
    WaitedUnrolls(StartRemoval(MadeUnit(id, false), network), network);
  }

  function GoActs(n: Name, id: int): seq<Act> { ContainerActs(n, MadeUnit(id, false)) }

  lemma ContainerGoes(acts: seq<Act>, n: Name, id: int)
    requires !n.IsNetwork() && At(Run(acts), n) == MadeUnit(id, false)
    ensures Run(acts + GoActs(n, id)) == Put(Run(acts), n, GoneUnit(id))
  {
    MadeGoes(id, false);
    ContainerRuns(acts, n);
  }

  /** The networks and the first two containers are removed. */
  function FourGoActs(ids: Ids): seq<Act> {
    GoActs(EgressContainer, ids(EgressContainer)) + GoActs(WorkerContainer, ids(WorkerContainer))
    + NetworkActs(MadeUnit(ids(OutboundNetwork), false), MadeUnit(ids(WorkerNetwork), false))
  }

  lemma BothNetworksGo(acts: seq<Act>, ids: Ids)
    requires NetworksFree(Run(acts))
    requires At(Run(acts), OutboundNetwork) == MadeUnit(ids(OutboundNetwork), false)
    requires At(Run(acts), WorkerNetwork) == MadeUnit(ids(WorkerNetwork), false)
    ensures var more := NetworkActs(MadeUnit(ids(OutboundNetwork), false), MadeUnit(ids(WorkerNetwork), false));
            var o' := Run(acts + more);
            Cleaned(At(o', OutboundNetwork)) && Cleaned(At(o', WorkerNetwork))
            && forall n: Name | !n.IsNetwork() :: At(o', n) == At(Run(acts), n)
  {
    MadeGoes(ids(OutboundNetwork), true);
    MadeGoes(ids(WorkerNetwork), true);
    NetworkRemoval(acts);
  }

  lemma FourGo(acts: seq<Act>, ids: Ids)
    requires Run(acts).settled && At(Run(acts), VerifierContainer).record.removed
    requires forall q: Name | !q.VerifierContainer? :: At(Run(acts), q) == MadeUnit(ids(q), false)
    ensures var o' := Run(acts + FourGoActs(ids));
            (forall q: Name | !q.VerifierContainer? :: Cleaned(At(o', q)))
            && At(o', VerifierContainer) == At(Run(acts), VerifierContainer)
  {
    var o, egress, worker := Run(acts), ids(EgressContainer), ids(WorkerContainer);
    var acts1 := acts + GoActs(EgressContainer, egress);
    ContainerGoes(acts, EgressContainer, egress);
    AtPut(o, EgressContainer, GoneUnit(egress));
    var acts2 := acts1 + GoActs(WorkerContainer, worker);
    ContainerGoes(acts1, WorkerContainer, worker);
    AtPut(Run(acts1), WorkerContainer, GoneUnit(worker));
    BothNetworksGo(acts2, ids);
    FourRegroup(acts, ids);
    EachOfFour(Run(acts + FourGoActs(ids)));
  }

  lemma EachOfFour(o: Owner)
    requires Cleaned(At(o, OutboundNetwork)) && Cleaned(At(o, WorkerNetwork)) && Cleaned(At(o, EgressContainer))
    requires Cleaned(At(o, WorkerContainer))
    ensures forall q: Name | !q.VerifierContainer? :: Cleaned(At(o, q))
  {
    forall q: Name | !q.VerifierContainer?
      ensures Cleaned(At(o, q))
    {
      match q { case WorkerNetwork => case OutboundNetwork => case EgressContainer => case WorkerContainer => }
    }
  }

  lemma FourRegroup(acts: seq<Act>, ids: Ids)
    ensures acts + FourGoActs(ids)
         == acts + GoActs(EgressContainer, ids(EgressContainer)) + GoActs(WorkerContainer, ids(WorkerContainer))
            + NetworkActs(MadeUnit(ids(OutboundNetwork), false), MadeUnit(ids(WorkerNetwork), false))
  {}

  lemma FourAndVerifier(o: Owner)
    requires forall q: Name | !q.VerifierContainer? :: Cleaned(At(o, q))
    requires Resolved(At(o, VerifierContainer))
    ensures Destroyable(o)
  {}

  /** The whole life of an owner that meets no failure. */
  function HealthyActs(ids: Ids): seq<Act> {
    [BeginCreation] + MakeAll(ids, 5) + GoActs(VerifierContainer, ids(VerifierContainer)) + FourGoActs(ids)
  }

  lemma OwnerBegins()
    ensures AtStart(Run([BeginCreation])) && forall q: Name :: At(Run([BeginCreation]), q) == NEW_UNIT
  {
    RunAppend([], BeginCreation);
    assert [] + [BeginCreation] == [BeginCreation];
    forall q: Name
      ensures At(Run([BeginCreation]), q) == NEW_UNIT
    {
      NewUnits(q);
    }
  }

  /** All five names are made, whatever ids the daemon gives, and with no failure. */
  lemma HealthyCreation(ids: Ids)
    ensures var o := Run([BeginCreation] + MakeAll(ids, 5));
            o.settled && forall q: Name :: At(o, q) == MadeUnit(ids(q), false)
  {
    OwnerBegins();
    MakesRun([BeginCreation], ids, 5);
    forall q: Name
      ensures At(Run([BeginCreation] + MakeAll(ids, 5)), q) == MadeUnit(ids(q), false)
    {
      assert MadeTo(Run([BeginCreation]), Run([BeginCreation] + MakeAll(ids, 5)), ids, 5, q);
    }
  }

  /** And then all are removed, the owner can close, and nothing is left. */
  lemma HealthyOwnerCloses(ids: Ids)
    ensures Destroyable(Run(HealthyActs(ids))) && NothingLeft(Run(HealthyActs(ids)))
  {
    var acts, verifier := [BeginCreation] + MakeAll(ids, 5), ids(VerifierContainer);
    HealthyCreation(ids);
    ContainerGoes(acts, VerifierContainer, verifier);
    AtPut(Run(acts), VerifierContainer, GoneUnit(verifier));
    FourGo(acts + GoActs(VerifierContainer, verifier), ids);
    FourAndVerifier(Run(HealthyActs(ids)));
  }

  // ---- runs that close too early ----

  /** A removal begins and has looked. */
  lemma LookFirst(n: Name)
    requires !n.IsNetwork()
    ensures var o := Run([RemoveContainer(n)] + [RemovalIsServed(n, FINE)]);
            At(o, n) == LOOKED_UNIT && OthersKept(NEW_OWNER, o, n) && o == NEW_OWNER.(units := o.units)
  {
    NewUnits(n);
    RunAppend([], RemoveContainer(n));
    assert [] + [RemoveContainer(n)] == [RemoveContainer(n)];
    RunAppend([RemoveContainer(n)], RemovalIsServed(n, FINE));
  }

  /** A container removed before its creation. */
  lemma RemoveEarly(n: Name)
    requires !n.IsNetwork()
    ensures var o := Run([] + ContainerActs(n, NEW_UNIT));
            At(o, n) == REMOVED_UNIT && OthersKept(NEW_OWNER, o, n) && o == NEW_OWNER.(units := o.units)
  {
    NewUnits(n);
    ContainerRuns([], n);
    WaitedUnrolls(StartRemoval(NEW_UNIT, false), false);
    AtPut(NEW_OWNER, n, REMOVED_UNIT);
  }

  /** Creation begins after something was done to the verifier alone. */
  lemma BeginAfter(acts: seq<Act>)
    requires Run(acts) == NEW_OWNER.(units := Run(acts).units) && OthersKept(NEW_OWNER, Run(acts), VerifierContainer)
    ensures var o := Run(acts + [BeginCreation]);
            AtStart(o) && o.units == Run(acts).units && forall q: Name | Rank(q) < 4 :: At(o, q) == NEW_UNIT
  {
    RunAppend(acts, BeginCreation);
    forall q: Name | Rank(q) < 4
      ensures At(Run(acts + [BeginCreation]), q) == NEW_UNIT
    {
      NewUnits(q);
      assert At(Run(acts), q) == At(NEW_OWNER, q);
    }
  }

  /** The networks and the first two containers, made before the verifier. */
  lemma FourMade(acts: seq<Act>, ids: Ids)
    requires Run(acts) == NEW_OWNER.(units := Run(acts).units) && OthersKept(NEW_OWNER, Run(acts), VerifierContainer)
    ensures var o := Run(acts + [BeginCreation] + MakeAll(ids, 4));
            Creating(o) && Current(o) == VerifierContainer
              && At(o, VerifierContainer) == At(Run(acts), VerifierContainer)
            && forall q: Name | !q.VerifierContainer? :: At(o, q) == MadeUnit(ids(q), false)
  {
    var begun := acts + [BeginCreation];
    BeginAfter(acts);
    MakesRun(begun, ids, 4);
    forall q: Name
      ensures At(Run(begun + MakeAll(ids, 4)), q)
           == if q.VerifierContainer? then At(Run(acts), q) else MadeUnit(ids(q), false)
    {
      assert MadeTo(Run(begun), Run(begun + MakeAll(ids, 4)), ids, 4, q);
    }
  }

  ghost predicate FourMadeAnd(o: Owner, ids: Ids, u: Unit) {
    At(o, VerifierContainer) == u && forall q: Name | !q.VerifierContainer? :: At(o, q) == MadeUnit(ids(q), false)
  }

  lemma VerifierPut(o: Owner, ids: Ids, u: Unit, o': Owner)
    requires forall q: Name | !q.VerifierContainer? :: At(o, q) == MadeUnit(ids(q), false)
    requires o'.units == Put(o, VerifierContainer, u).units
    ensures FourMadeAnd(o', ids, u)
  {
    AtPut(o, VerifierContainer, u);
    assert forall q :: At(o', q) == At(Put(o, VerifierContainer, u), q);
  }

  /** The verifier is removed, then all five are created. */
  function EarlyActs(ids: Ids): seq<Act> {
    [] + ContainerActs(VerifierContainer, NEW_UNIT) + [BeginCreation] + MakeAll(ids, 4)
    + MakeActs(ids(VerifierContainer))
  }

  lemma EarlyRuns(ids: Ids)
    ensures var o := Run(EarlyActs(ids));
            o.settled && FourMadeAnd(o, ids, MadeUnit(ids(VerifierContainer), true))
  {
    var acts := [] + ContainerActs(VerifierContainer, NEW_UNIT);
    RemoveEarly(VerifierContainer);
    FourMade(acts, ids);
    var made := acts + [BeginCreation] + MakeAll(ids, 4);
    MakeRuns(made, VerifierContainer, ids(VerifierContainer), true);
    VerifierPut(Run(made), ids, MadeUnit(ids(VerifierContainer), true), Run(EarlyActs(ids)));
  }

  /** Without the proviso it fails: a verifier removed before it is created outlives the close. */
  lemma EarlyRemovalLeaks(ids: Ids)
    ensures var o := Run(EarlyActs(ids) + FourGoActs(ids));
            Destroyable(o) && At(o, VerifierContainer).slot.present == Some(ids(VerifierContainer))
  {
    EarlyRuns(ids);
    FourGo(EarlyActs(ids), ids);
    FourAndVerifier(Run(EarlyActs(ids) + FourGoActs(ids)));
  }

  /** The create call fails and takes effect later, and recovery lists nothing. */
  function DelayActs(id: int): seq<Act> { CallActs(id, false) + CreationActs(1) }

  lemma DelayRuns(acts: seq<Act>, n: Name, id: int)
    requires Creating(Run(acts)) && Current(Run(acts)) == n && At(Run(acts), n) == LOOKED_UNIT
    ensures var late := LOOKED_UNIT.(record := NEW_RESOURCE.(unresolved := true), slot := Slot(None, Some(id)),
                                     creator := CreationFailed, effect := true);
            Run(acts + DelayActs(id)) == Put(Run(acts), n, late).(settled := true)
  {
    var o := Run(acts);
    var called := CallReturns(Issue(At(o, n), Some(id)), false);
    CallRuns(acts, n, id, false);
    CreationUnrolls(called, n.IsNetwork());
    CreationWaitsRun(acts + CallActs(id, false), o, n, called, 1);
    Regroup(acts, CallActs(id, false), CreationActs(1));
  }

  /** The verifier's removal has looked, then all five are to be created; the verifier's create call
      fails and takes effect later, and the removal goes on. */
  function OverlapActs(ids: Ids): seq<Act> {
    [RemoveContainer(VerifierContainer)] + [RemovalIsServed(VerifierContainer, FINE)] + [BeginCreation]
      + MakeAll(ids, 4)
    + DelayActs(ids(VerifierContainer)) + [RemovalGoesOn(VerifierContainer)]
  }

  /** The verifier removed with its creation still to take effect. */
  function PendingUnit(id: int): Unit {
    REMOVED_UNIT.(slot := Slot(None, Some(id)), creator := CreationFailed, effect := true)
  }

  lemma OverlapDelays(ids: Ids)
    ensures var delayed := [RemoveContainer(VerifierContainer)] + [RemovalIsServed(VerifierContainer, FINE)]
              + [BeginCreation] + MakeAll(ids, 4) + DelayActs(ids(VerifierContainer));
            var late := LOOKED_UNIT.(record := NEW_RESOURCE.(unresolved := true),
                                     slot := Slot(None, Some(ids(VerifierContainer))),
                                     creator := CreationFailed, effect := true);
            Run(delayed).settled && FourMadeAnd(Run(delayed), ids, late)
  {
    var acts := [RemoveContainer(VerifierContainer)] + [RemovalIsServed(VerifierContainer, FINE)];
    LookFirst(VerifierContainer);
    FourMade(acts, ids);
    var made := acts + [BeginCreation] + MakeAll(ids, 4);
    DelayRuns(made, VerifierContainer, ids(VerifierContainer));
    var delayed := made + DelayActs(ids(VerifierContainer));
    VerifierPut(Run(made), ids, LOOKED_UNIT.(record := NEW_RESOURCE.(unresolved := true),
        slot := Slot(None, Some(ids(VerifierContainer))), creator := CreationFailed, effect := true), Run(delayed));
  }

  lemma OverlapRuns(ids: Ids)
    ensures var o := Run(OverlapActs(ids));
            o.settled && FourMadeAnd(o, ids, PendingUnit(ids(VerifierContainer)))
  {
    var delayed := [RemoveContainer(VerifierContainer)] + [RemovalIsServed(VerifierContainer, FINE)]
      + [BeginCreation] + MakeAll(ids, 4) + DelayActs(ids(VerifierContainer));
    OverlapDelays(ids);
    RunAppend(delayed, RemovalGoesOn(VerifierContainer));
    VerifierPut(Run(delayed), ids, PendingUnit(ids(VerifierContainer)), Run(OverlapActs(ids)));
  }

  /** And when the removal only begins before: it has looked at the daemon, the verifier's create
      call then fails and takes effect later, recovery lists nothing, and the removal goes on.
      The close succeeds with the container still to come. */
  lemma OverlappingRemovalLeaks(ids: Ids)
    ensures var o := Run(OverlapActs(ids) + FourGoActs(ids));
            Destroyable(o) && At(o, VerifierContainer).slot == Slot(None, Some(ids(VerifierContainer)))
  {
    OverlapRuns(ids);
    FourGo(OverlapActs(ids), ids);
    FourAndVerifier(Run(OverlapActs(ids) + FourGoActs(ids)));
  }
}
