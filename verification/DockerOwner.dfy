/** The Docker owner: two networks and three containers, made by create calls that may fail and
    still take effect later, and a close that must mean nothing is left.  Creation and removals
    overlap at every wait for the daemon. */
module DockerOwner {
  import opened Evidence

  datatype Name = WorkerNetwork | OutboundNetwork | EgressContainer | WorkerContainer | VerifierContainer {
    predicate IsNetwork() { WorkerNetwork? || OutboundNetwork? }
  }

  const CREATION_ORDER: seq<Name> := [
    WorkerNetwork, OutboundNetwork, EgressContainer, WorkerContainer, VerifierContainer]

  // ---- the daemon, one name at a time ----

  /** What the daemon holds under one name: an object, and a create request still to take effect. */
  datatype Slot = Slot(present: Option<int>, pending: Option<int>)

  const EMPTY_SLOT := Slot(None, None)

  /** What one thread waits for; each ends in a reply that the daemon settles before the thread
      goes on, and anything may happen in between. */
  datatype Ask = AskList | AskVerify(id: int) | AskDelete(id: int) | AskAbsent

  datatype Reply = Listed(ids: seq<int>) | Yes | No

  /** Whether the daemon call succeeds, and whether one that fails has its effect all the same. */
  datatype Answer = Answer(ok: bool, effect: bool)

  function Elapse(slot: Slot): Slot { if slot.pending.Some? then Slot(slot.pending, None) else slot }

  /** Listing by exact name, inspection of an owned object, deletion, and the listing that must
      be empty after it. */
  function Serve(slot: Slot, ask: Ask, a: Answer): (Slot, Reply) {
    match ask
    case AskList =>
      (slot, if !a.ok then No else Listed(if slot.present.Some? then [slot.present.value] else []))
    case AskVerify(id) => (slot, if a.ok && slot.present == Some(id) then Yes else No)
    case AskDelete(id) =>
      var found := slot.present == Some(id);
      (if found && (a.ok || a.effect) then slot.(present := None) else slot, if found && a.ok then Yes else No)
    case AskAbsent => (slot, if a.ok && slot.present.None? then Yes else No)
  }

  // ---- the owner's record of one resource ----

  datatype Resource = Resource(id: Option<int>, verified: bool, unresolved: bool, removed: bool)

  const NEW_RESOURCE := Resource(None, false, false, false)

  // ---- a removal, wait by wait ----

  datatype RemovalStage =
    | Resolving | VerifyingFound(id: int) | VerifyingOwned(id: int) | Inspecting(id: int) | Deleting(id: int) | Looking

  /** A removal waits in a stage, with the reply once the daemon has settled it.  It is `sound`
      when it began, and looked at the record, after the create call was issued. */
  datatype Removal = NoRemoval | Removing(stage: RemovalStage, reply: Option<Reply>, sound: bool)

  /** The record and the removal after one step of it. */
  datatype RemovalStep = RemovalStep(record: Resource, removal: Removal)

  function StageAsk(stage: RemovalStage): Ask {
    match stage
    case Resolving => AskList
    case VerifyingFound(id) => AskVerify(id)
    case VerifyingOwned(id) => AskVerify(id)
    case Inspecting(id) => AskVerify(id)
    case Deleting(id) => AskDelete(id)
    case Looking => AskAbsent
  }

  function WaitIn(record: Resource, stage: RemovalStage, sound: bool): RemovalStep {
    RemovalStep(record, Removing(stage, None, sound))
  }

  function Fails(record: Resource): RemovalStep { RemovalStep(record, NoRemoval) }

  /** Deletes what the record names by now; a network must be found empty before. */
  function ToDelete(record: Resource, network: bool, sound: bool): RemovalStep {
    if record.id.None? then Fails(record)
    else WaitIn(record, if network then Inspecting(record.id.value) else Deleting(record.id.value), sound)
  }

  /** With the creation resolved: delete what the record names, or go on to the look. */
  function Proceed(record: Resource, network: bool, sound: bool): RemovalStep {
    if record.id.None? then WaitIn(if network then record.(unresolved := false) else record, Looking, sound)
    else if !record.verified then WaitIn(record, VerifyingOwned(record.id.value), sound)
    else ToDelete(record, network, sound)
  }

  function BeginRemoval(record: Resource, network: bool, sound: bool): RemovalStep {
    if record.removed then RemovalStep(record, NoRemoval)
    else if record.unresolved then WaitIn(record.(id := None, verified := false), Resolving, sound)
    else Proceed(record, network, sound)
  }

  /** The removal goes on with its reply, on the record as it is by now. */
  function ResumeRemoval(record: Resource, network: bool, stage: RemovalStage, reply: Reply, sound: bool): RemovalStep {
    match stage
    case Resolving =>
      if reply.Listed? && |reply.ids| == 1 then
        WaitIn(record.(id := Some(reply.ids[0])), VerifyingFound(reply.ids[0]), sound)
      else Fails(record)
    case VerifyingFound(_) =>
      if reply.Yes? then Proceed(record.(verified := true), network, sound) else Fails(record)
    case VerifyingOwned(_) =>
      if reply.Yes? then ToDelete(record.(verified := true), network, sound) else Fails(record)
    case Inspecting(id) =>
      if reply.Yes? && record.id == Some(id) then WaitIn(record, Deleting(id), sound) else Fails(record)
    case Deleting(id) =>
      if reply.Yes? && record.id == Some(id) then
        WaitIn(if network then record.(unresolved := false) else record, Looking, sound)
      else Fails(record)
    case Looking =>
      if !reply.Yes? then Fails(record)
      else if network then RemovalStep(record.(removed := true), NoRemoval)
      else RemovalStep(record.(unresolved := false, removed := true), NoRemoval)
  }

  // ---- a creation, wait by wait ----

  /** `Calling` waits for the create call, which may take effect with the given id whatever it
      answers; after a failure the creation recovers by listing, verifying and removing. */
  datatype Creator =
    | NotIssued
    | Calling(effect: Option<int>)
    | Verifying(id: int, verifyReply: Option<Reply>)
    | Relisting(listReply: Option<Reply>)
    | Rechecking(id: int, recheckReply: Option<Reply>)
    | AwaitingRemoval
    | Undoing(undo: Removal)
    | Made
    | CreationFailed

  /** One name: the record, the daemon's slot, the creation and the removal under way, whether
      the create call takes effect, and whether a removal that is not sound has succeeded. */
  datatype Unit = Unit(record: Resource, slot: Slot, creator: Creator, removal: Removal, effect: bool, overtaken: bool)

  const NEW_UNIT := Unit(NEW_RESOURCE, EMPTY_SLOT, NotIssued, NoRemoval, false, false)

  function Issue(u: Unit, effect: Option<int>): Unit {
    u.(record := u.record.(unresolved := true), slot := u.slot.(pending := effect), creator := Calling(effect),
       effect := effect.Some?)
  }

  /** After a create call that did not verifiably succeed. */
  function Recover(u: Unit): Unit {
    u.(record := u.record.(id := None, verified := false, unresolved := true), creator := Relisting(None))
  }

  /** The create call answers; it can only succeed with its effect. */
  function CallReturns(u: Unit, ok: bool): Unit
    requires u.creator.Calling?
  {
    if !ok || u.creator.effect.None? then Recover(u)
    else
      var id := u.creator.effect.value;
      u.(record := u.record.(id := Some(id)), slot := Elapse(u.slot), creator := Verifying(id, None))
  }

  /** Undoes a creation that was found after all: a container by its one removal, a network by a
      removal of the creation's own. */
  function Undo(u: Unit, network: bool): Unit {
    var verified := u.record.(verified := true);
    if network then
      var step := BeginRemoval(verified, network, true);
      u.(record := step.record, creator := Undoing(step.removal))
    else if u.removal.Removing? then u.(record := verified, creator := AwaitingRemoval)
    else
      var step := BeginRemoval(verified, network, true);
      u.(record := step.record, removal := step.removal, creator := AwaitingRemoval)
  }

  /** The daemon settles what the creation waits for. */
  function CreatorServed(u: Unit, a: Answer): Unit {
    match u.creator
    case Verifying(id, None) =>
      var (slot, reply) := Serve(u.slot, AskVerify(id), a); u.(slot := slot, creator := Verifying(id, Some(reply)))
    case Relisting(None) =>
      var (slot, reply) := Serve(u.slot, AskList, a); u.(slot := slot, creator := Relisting(Some(reply)))
    case Rechecking(id, None) =>
      var (slot, reply) := Serve(u.slot, AskVerify(id), a); u.(slot := slot, creator := Rechecking(id, Some(reply)))
    case Undoing(Removing(stage, None, sound)) =>
      var (slot, reply) := Serve(u.slot, StageAsk(stage), a);
      u.(slot := slot, creator := Undoing(Removing(stage, Some(reply), sound)))
    case _ => u
  }

  /** The creation goes on with its reply. */
  function CreatorResumes(u: Unit, network: bool): Unit {
    match u.creator
    case Verifying(_, Some(reply)) =>
      if reply.Yes? then u.(record := u.record.(verified := true, unresolved := false), creator := Made) else Recover(u)
    case Relisting(Some(reply)) =>
      if reply.Listed? && |reply.ids| == 1 then
        u.(record := u.record.(id := Some(reply.ids[0])), creator := Rechecking(reply.ids[0], None))
      else u.(creator := CreationFailed)
    case Rechecking(_, Some(reply)) => if reply.Yes? then Undo(u, network) else u.(creator := CreationFailed)
    case AwaitingRemoval => if u.removal.NoRemoval? then u.(creator := CreationFailed) else u
    case Undoing(NoRemoval) => u.(creator := CreationFailed)
    case Undoing(Removing(stage, Some(reply), sound)) =>
      var step := ResumeRemoval(u.record, network, stage, reply, sound);
      u.(record := step.record, creator := Undoing(step.removal))
    case _ => u
  }

  /** A removal is asked for; one under way is joined. */
  function StartRemoval(u: Unit, network: bool): Unit {
    if u.removal.Removing? then u
    else
      var step := BeginRemoval(u.record, network, !u.creator.NotIssued?);
      u.(record := step.record, removal := step.removal)
  }

  function RemovalServed(u: Unit, a: Answer): Unit {
    if u.removal.NoRemoval? || u.removal.reply.Some? then u
    else
      var (slot, reply) := Serve(u.slot, StageAsk(u.removal.stage), a);
      u.(slot := slot, removal := u.removal.(reply := Some(reply)))
  }

  /** The removal goes on; one that is not sound and succeeds has overtaken the creation. */
  function RemovalResumes(u: Unit, network: bool): Unit {
    if u.removal.NoRemoval? || u.removal.reply.None? then u
    else
      var sound := u.removal.sound;
      var step := ResumeRemoval(u.record, network, u.removal.stage, u.removal.reply.value, sound);
      var ends := step.removal.NoRemoval? && u.removal.stage.Looking? && u.removal.reply.value.Yes?;
      u.(record := step.record, removal := step.removal, overtaken := u.overtaken || (ends && !sound))
  }

  // ---- what one name keeps ----

  predicate Issued(u: Unit) { !u.creator.NotIssued? }

  predicate Empty(u: Unit) { u.slot == EMPTY_SLOT }

  /** A removal that began before the create call has succeeded, or may. */
  predicate Unsound(u: Unit) { u.overtaken || (u.removal.Removing? && !u.removal.sound) }

  predicate FoundOne(reply: Option<Reply>) { reply.Some? && reply.value.Listed? && |reply.value.ids| == 1 }

  /** Past the resolving of the creation nothing is pending; a deletion and a look that succeeded
      leave nothing. */
  ghost predicate RemovalTells(slot: Slot, removal: Removal) {
    removal.Removing? && removal.sound ==>
      (removal.stage.Resolving? && FoundOne(removal.reply) ==> slot.pending.None?)
      && (!removal.stage.Resolving? ==> slot.pending.None?)
      && (removal.stage.Deleting? && removal.reply == Some(Yes) ==> slot.present.None?)
      && (removal.stage.Looking? && removal.reply == Some(Yes) ==> slot.present.None?)
  }

  /** Before the create call: nothing is known, and a removal can only look. */
  ghost predicate Untouched(u: Unit) {
    Empty(u) && !u.effect && u.record.(removed := false) == NEW_RESOURCE
    && (u.removal.Removing? ==> !u.removal.sound && u.removal.stage.Looking?)
    && (u.record.removed ==> u.overtaken)
  }

  /** Once the creation has seen the object nothing is pending. */
  ghost predicate CreatorTells(u: Unit) {
    (u.creator.Verifying? || u.creator.Rechecking? ==> u.slot.pending.None?)
    && (u.creator.Relisting? && FoundOne(u.creator.listReply) ==> u.slot.pending.None?)
    && (u.creator.Undoing? ==>
          RemovalTells(u.slot, u.creator.undo) && (u.creator.undo.Removing? ==> u.creator.undo.sound))
    && (u.creator.Made? || u.creator.AwaitingRemoval? || u.creator.Undoing? ==> u.slot.pending.None?)
    && (u.creator.Calling? ==> (u.creator.effect.Some? <==> u.effect))
  }

  /** A container whose removal is not sound: nothing was deleted, so what took effect is there. */
  ghost predicate ContainerOvertaken(u: Unit) {
    !u.creator.Undoing? && (Unsound(u) && u.effect ==> !Empty(u))
  }

  /** A network whose removal is not sound: once made it stays; otherwise what is there is known
      to be unresolved, until the creation's own removal has deleted it. */
  ghost predicate NetworkOvertaken(u: Unit) {
    Unsound(u) ==>
      (u.creator.Made? || (u.creator.Verifying? && u.creator.verifyReply == Some(Yes)) ==> u.slot.present.Some?)
      && (Issued(u) && !Empty(u) && !u.creator.Made? ==> u.record.unresolved)
      && (u.creator.Relisting? || u.creator.Rechecking? ==> u.record.unresolved)
      && (u.creator.Undoing? && u.creator.undo.Removing? ==> Traces(u, u.creator.undo.stage))
  }

  /** How far the creation's own removal of a network is: it knows the object until it is gone. */
  ghost predicate Traces(u: Unit, stage: RemovalStage) {
    match stage
    case Resolving => u.record.unresolved
    case VerifyingFound(id) => u.record.id == Some(id) && u.record.unresolved
    case VerifyingOwned(_) => false
    case Inspecting(id) => u.record.id == Some(id) && u.record.unresolved
    case Deleting(id) => u.record.id == Some(id) && u.record.unresolved
    case Looking => Empty(u)
  }

  /** The owner knows of anything the daemon may still produce; what a sound removal has removed
      is gone for good; what one that is not sound has removed is there if the creation took
      effect, for a network if it was made. */
  ghost predicate UnitKept(u: Unit, network: bool) {
    (u.slot.present.Some? ==> u.slot.pending.None?) && (!Empty(u) ==> u.effect)
    && (u.creator.NotIssued? ==> Untouched(u))
    && (u.slot.pending.Some? ==> u.record.unresolved || (!network && u.overtaken))
    && (!network && Issued(u) && !u.creator.Made? && !u.overtaken && !Empty(u) ==> u.record.unresolved)
    && RemovalTells(u.slot, u.removal) && CreatorTells(u)
    && (u.removal.Removing? && !u.removal.sound ==> u.removal.stage.Looking?)
    && (u.record.removed && !u.overtaken ==> Empty(u) && Issued(u))
    && (u.overtaken ==> u.record.removed && u.removal.NoRemoval?)
    && (if network then NetworkOvertaken(u) && !u.creator.AwaitingRemoval? else ContainerOvertaken(u))
  }

  /** What is left of a name after its removal: a removal that began before the create call is the
      one that succeeded, and the call took effect; for a network, verifiably. */
  predicate Late(u: Unit, network: bool) { u.overtaken && if network then u.creator.Made? else u.effect }

  lemma IssueKeeps(u: Unit, network: bool, effect: Option<int>)
    requires UnitKept(u, network) && u.creator.NotIssued?
    ensures UnitKept(Issue(u, effect), network)
  {}

  lemma CallReturnsKeeps(u: Unit, network: bool, ok: bool)
    requires UnitKept(u, network) && u.creator.Calling?
    ensures UnitKept(CallReturns(u, ok), network)
  {}

  lemma CreatorServedKeeps(u: Unit, network: bool, a: Answer)
    requires UnitKept(u, network)
    ensures UnitKept(CreatorServed(u, a), network)
  {}

  /** A network's creation undone by a removal of its own, wait by wait. */
  lemma UndoingKeeps(u: Unit, network: bool)
    requires UnitKept(u, network) && u.creator.Undoing?
    ensures var u' := CreatorResumes(u, network);
            UnitKept(u', network) && (u'.record.removed && !u.record.removed ==> Empty(u'))
  {}

  /** Recovery accounts for what a failed create call left or may still produce: it removes it for
      good, or stays unresolved. */
  lemma RecoverAccounts(u: Unit, network: bool)
    requires UnitKept(u, network) && !u.creator.Verifying?
    ensures var u' := CreatorResumes(u, network);
            UnitKept(u', network)
            && (u.creator.Undoing? && u'.record.removed && !u.record.removed ==> Empty(u'))
            && (!network && u'.creator.CreationFailed? ==> Empty(u') || u'.record.unresolved || u'.overtaken)
  {
    if u.creator.Undoing? {
      UndoingKeeps(u, network);
    }
  }

  /** A creation, failed or not, leaves nothing the record does not account for; one that is made
      has its object verified and nothing pending. */
  lemma CreateAccounts(u: Unit, network: bool)
    requires UnitKept(u, network)
    ensures var u' := CreatorResumes(u, network);
            UnitKept(u', network)
            && (u'.creator.Made? ==> u'.slot.pending.None?)
            && (u'.creator.Made? && !u.creator.Made? ==> u'.record.verified && !u'.record.unresolved)
  {
    if !u.creator.Verifying? {
      RecoverAccounts(u, network);
    }
  }

  lemma StartRemovalKeeps(u: Unit, network: bool)
    requires UnitKept(u, network)
    ensures UnitKept(StartRemoval(u, network), network)
  {}

  lemma RemovalServedKeeps(u: Unit, network: bool, a: Answer)
    requires UnitKept(u, network)
    ensures UnitKept(RemovalServed(u, a), network)
  {}

  /** A removal that began after the create call succeeds only with nothing left and nothing to
      come, whatever the creation does meanwhile; one that fails loses track of nothing. */
  lemma RemoveAccounts(u: Unit, network: bool)
    requires UnitKept(u, network)
    ensures var u' := RemovalResumes(u, network);
            UnitKept(u', network)
            && (u.removal.Removing? && u.removal.sound && u'.record.removed && !u.record.removed ==> Empty(u'))
            && (u'.slot.pending.Some? && u.record.unresolved && !u'.overtaken ==> u'.record.unresolved)
  {}

  lemma ElapseKeeps(u: Unit, network: bool)
    requires UnitKept(u, network)
    ensures UnitKept(u.(slot := Elapse(u.slot)), network)
  {}

  /** An empty listing never clears an unresolved creation: a removal ends with it, and so does
      a creation that recovers. */
  lemma EmptyListingResolvesNothing(u: Unit, network: bool)
    requires u.record.unresolved && !u.record.removed
    ensures u.removal.Removing? && u.removal.stage.Resolving? && u.removal.reply == Some(Listed([])) ==>
              RemovalResumes(u, network).record == u.record && RemovalResumes(u, network).removal.NoRemoval?
    ensures u.creator == Relisting(Some(Listed([]))) ==>
              CreatorResumes(u, network).record == u.record && CreatorResumes(u, network).creator.CreationFailed?
  {}

  /** A removed and resolved name is empty exactly when it is not late. */
  lemma ClosedUnit(u: Unit, network: bool)
    requires UnitKept(u, network) && u.record.removed && !u.record.unresolved
    ensures Empty(u) <==> !Late(u, network)
  {}

  // ---- the owner ----

  /** The single creation run has `started`; it is at its `next` name; once `settled` it does no
      more. */
  datatype Owner = Owner(units: map<Name, Unit>, started: bool, next: nat, settled: bool)

  const ALL_NAMES: set<Name> := {WorkerNetwork, OutboundNetwork, EgressContainer, WorkerContainer, VerifierContainer}

  const NEW_OWNER := Owner(map n | n in ALL_NAMES :: NEW_UNIT, false, 0, false)

  /** One step of the world: a caller begins something, the daemon settles what someone waits
      for, someone goes on with a reply, or time passes at the daemon. */
  datatype Act =
    | BeginCreation
    | IssueCreate(effect: Option<int>)
    | CallAnswers(ok: bool)
    | CreationServed(creationAnswer: Answer)
    | CreationResumes
    | AbandonCreation
    | RemoveContainer(name: Name)
    | RemoveNetworks
    | RemovalIsServed(served: Name, removalAnswer: Answer)
    | RemovalGoesOn(resumed: Name)
    | TimePasses(elapsed: Name)

  function At(o: Owner, n: Name): Unit { if n in o.units then o.units[n] else NEW_UNIT }

  lemma NewUnits(n: Name)
    ensures At(NEW_OWNER, n) == NEW_UNIT
  {}

  function Put(o: Owner, n: Name, u: Unit): Owner { o.(units := o.units[n := u]) }

  predicate Creating(o: Owner) { o.started && !o.settled && o.next < 5 }

  function Current(o: Owner): Name
    requires o.next < 5
  {
    CREATION_ORDER[o.next]
  }

  /** After a creation went on: to the next name when it is made, to the end when it failed. */
  function Advance(o: Owner, u: Unit): Owner {
    if u.creator.Made? then o.(next := o.next + 1, settled := o.next + 1 == 5)
    else if u.creator.CreationFailed? then o.(settled := true)
    else o
  }

  predicate ContainersRemoved(o: Owner) {
    At(o, EgressContainer).record.removed && At(o, WorkerContainer).record.removed
    && At(o, VerifierContainer).record.removed
  }

  function StartAt(o: Owner, n: Name): Owner { Put(o, n, StartRemoval(At(o, n), n.IsNetwork())) }

  /** The outbound network's removal has ended: on to the worker's if it is removed. */
  function WorkerNext(o: Owner): Owner {
    if At(o, OutboundNetwork).removal.NoRemoval? && At(o, OutboundNetwork).record.removed then StartAt(o, WorkerNetwork)
    else o
  }

  predicate NetworksBusy(o: Owner) {
    At(o, OutboundNetwork).removal.Removing? || At(o, WorkerNetwork).removal.Removing?
  }

  /** Waits for a creation in progress, and wants every container gone; then one network after
      the other, in reverse order. */
  function StartNetworks(o: Owner): Owner {
    if (o.started && !o.settled) || !ContainersRemoved(o) || NetworksBusy(o) then o
    else WorkerNext(StartAt(o, OutboundNetwork))
  }

  function Do(o: Owner, act: Act): Owner {
    match act
    case BeginCreation => o.(started := true)
    case IssueCreate(effect) =>
      if !Creating(o) || !At(o, Current(o)).creator.NotIssued? then o
      else Put(o, Current(o), Issue(At(o, Current(o)), effect))
    case CallAnswers(ok) =>
      if !Creating(o) || !At(o, Current(o)).creator.Calling? then o
      else Put(o, Current(o), CallReturns(At(o, Current(o)), ok))
    case CreationServed(a) => if Creating(o) then Put(o, Current(o), CreatorServed(At(o, Current(o)), a)) else o
    case CreationResumes =>
      if !Creating(o) then o
      else
        var u := CreatorResumes(At(o, Current(o)), Current(o).IsNetwork());
        Advance(Put(o, Current(o), u), u)
    case AbandonCreation =>
      if Creating(o) && At(o, Current(o)).creator.NotIssued? then o.(settled := true) else o
    case RemoveContainer(n) => if n.IsNetwork() then o else StartAt(o, n)
    case RemoveNetworks => StartNetworks(o)
    case RemovalIsServed(n, a) => Put(o, n, RemovalServed(At(o, n), a))
    case RemovalGoesOn(n) =>
      var resumed := Put(o, n, RemovalResumes(At(o, n), n.IsNetwork()));
      if n.OutboundNetwork? && At(o, n).removal.Removing? then WorkerNext(resumed) else resumed
    case TimePasses(n) => Put(o, n, At(o, n).(slot := Elapse(At(o, n).slot)))
  }

  function Run(acts: seq<Act>): Owner {
    if acts == [] then NEW_OWNER else Do(Run(acts[..|acts| - 1]), acts[|acts| - 1])
  }

  predicate Resolved(u: Unit) { u.record.removed && !u.record.unresolved }

  /** The close succeeds. */
  predicate Destroyable(o: Owner) { forall n | n in ALL_NAMES :: Resolved(At(o, n)) }

  predicate NothingLeft(o: Owner) { forall n | n in ALL_NAMES :: Empty(At(o, n)) }

  predicate NoneLate(o: Owner) { forall n | n in ALL_NAMES :: !Late(At(o, n), n.IsNetwork()) }

  /** No removal begins before the single creation has settled. */
  predicate WaitsForCreation(acts: seq<Act>) {
    forall i | 0 <= i < |acts| && (acts[i].RemoveContainer? || acts[i].RemoveNetworks?) :: Run(acts[..i]).settled
  }

  /** The place of a name in the creation order. */
  function Rank(n: Name): (r: nat)
    ensures r < 5 && CREATION_ORDER[r] == n
  {
    match n
    case WorkerNetwork => 0
    case OutboundNetwork => 1
    case EgressContainer => 2
    case WorkerContainer => 3
    case VerifierContainer => 4
  }

  ghost predicate NameKept(o: Owner, n: Name) { UnitKept(At(o, n), n.IsNetwork()) }

  ghost predicate OwnerKept(o: Owner) { forall n :: NameKept(o, n) }

  lemma PutKeeps(o: Owner, n: Name, u: Unit)
    requires OwnerKept(o) && UnitKept(u, n.IsNetwork())
    ensures OwnerKept(Put(o, n, u))
  {
    forall q
      ensures NameKept(Put(o, n, u), q)
    {
      assert NameKept(o, q);
    }
  }

  lemma CarriesOver(o: Owner, o': Owner)
    requires OwnerKept(o) && o'.units == o.units
    ensures OwnerKept(o')
  {
    forall n
      ensures NameKept(o', n)
    {
      assert NameKept(o, n);
    }
  }

  lemma StartAtKeeps(o: Owner, n: Name)
    requires OwnerKept(o)
    ensures OwnerKept(StartAt(o, n))
  {
    assert NameKept(o, n);
    StartRemovalKeeps(At(o, n), n.IsNetwork());
    PutKeeps(o, n, StartRemoval(At(o, n), n.IsNetwork()));
  }

  lemma CreationKeeps(o: Owner, act: Act)
    requires OwnerKept(o) && Creating(o)
    requires act.IssueCreate? || act.CallAnswers? || act.CreationServed? || act.CreationResumes?
    ensures OwnerKept(Do(o, act))
  {
    var n := Current(o);
    var u := At(o, n);
    assert NameKept(o, n);
    match act
    case IssueCreate(effect) =>
      if u.creator.NotIssued? { IssueKeeps(u, n.IsNetwork(), effect); PutKeeps(o, n, Issue(u, effect)); }
    case CallAnswers(ok) =>
      if u.creator.Calling? { CallReturnsKeeps(u, n.IsNetwork(), ok); PutKeeps(o, n, CallReturns(u, ok)); }
    case CreationServed(a) =>
      CreatorServedKeeps(u, n.IsNetwork(), a);
      PutKeeps(o, n, CreatorServed(u, a));
    case CreationResumes =>
      CreateAccounts(u, n.IsNetwork());
      PutKeeps(o, n, CreatorResumes(u, n.IsNetwork()));
      CarriesOver(Put(o, n, CreatorResumes(u, n.IsNetwork())), Do(o, act));
  }

  lemma RemovalKeeps(o: Owner, act: Act)
    requires OwnerKept(o)
    requires act.RemoveContainer? || act.RemoveNetworks? || act.RemovalIsServed? || act.RemovalGoesOn?
    ensures OwnerKept(Do(o, act))
  {
    match act
    case RemoveContainer(n) => StartAtKeeps(o, n);
    case RemoveNetworks =>
      StartAtKeeps(o, OutboundNetwork);
      StartAtKeeps(StartAt(o, OutboundNetwork), WorkerNetwork);
    case RemovalIsServed(n, a) =>
      assert NameKept(o, n);
      RemovalServedKeeps(At(o, n), n.IsNetwork(), a);
      PutKeeps(o, n, RemovalServed(At(o, n), a));
    case RemovalGoesOn(n) =>
      assert NameKept(o, n);
      RemoveAccounts(At(o, n), n.IsNetwork());
      var resumed := Put(o, n, RemovalResumes(At(o, n), n.IsNetwork()));
      PutKeeps(o, n, RemovalResumes(At(o, n), n.IsNetwork()));
      StartAtKeeps(resumed, WorkerNetwork);
  }

  lemma DoKeeps(o: Owner, act: Act)
    requires OwnerKept(o)
    ensures OwnerKept(Do(o, act))
  {
    if act.BeginCreation? || act.AbandonCreation? {
      CarriesOver(o, Do(o, act));
    } else if act.TimePasses? {
      assert NameKept(o, act.elapsed);
      ElapseKeeps(At(o, act.elapsed), act.elapsed.IsNetwork());
      PutKeeps(o, act.elapsed, At(o, act.elapsed).(slot := Elapse(At(o, act.elapsed).slot)));
    } else if act.IssueCreate? || act.CallAnswers? || act.CreationServed? || act.CreationResumes? {
      if Creating(o) {
        CreationKeeps(o, act);
      }
    } else {
      RemovalKeeps(o, act);
    }
  }

  lemma {:induction false} RunKeeps(acts: seq<Act>)
    ensures OwnerKept(Run(acts))
  {
    if acts == [] {
      assert forall n :: NameKept(NEW_OWNER, n);
    } else {
      RunKeeps(acts[..|acts| - 1]);
      DoKeeps(Run(acts[..|acts| - 1]), acts[|acts| - 1]);
    }
  }

  /** While a create call may still take effect its creation stays unresolved, but for a container
      whose removal began before the call and has overtaken it. */
  lemma PendingStaysUnresolved(acts: seq<Act>, n: Name)
    ensures var u := At(Run(acts), n);
            u.slot.pending.Some? ==> u.record.unresolved || (!n.IsNetwork() && u.overtaken)
  {
    RunKeeps(acts);
    assert NameKept(Run(acts), n);
  }

  /** Exactly when a successful close leaves nothing, present or to come: when of no name the
      removal that succeeded had begun before its create call, which then took effect. */
  lemma CloseMeansNothingLeft(acts: seq<Act>)
    requires Destroyable(Run(acts))
    ensures NothingLeft(Run(acts)) <==> NoneLate(Run(acts))
  {
    var o := Run(acts);
    RunKeeps(acts);
    forall n | n in ALL_NAMES
      ensures Empty(At(o, n)) <==> !Late(At(o, n), n.IsNetwork())
    {
      assert NameKept(o, n) && Resolved(At(o, n));
      ClosedUnit(At(o, n), n.IsNetwork());
    }
  }

  /** A call that succeeds. */
  const FINE := Answer(true, false)

  // ---- removals that wait ----

  /** The creation of the name is being undone. */
  predicate BeingUndone(u: Unit) { u.creator.AwaitingRemoval? || u.creator.Undoing? }

  /** A removal that is not sound is of a name that is never created; before the creation has
      settled only the name it is at is being removed, by the creation itself. */
  ghost predicate Waits(o: Owner, n: Name) {
    (Unsound(At(o, n)) ==> o.settled && At(o, n).creator.NotIssued?)
    && (At(o, n).record.removed || At(o, n).removal.Removing? ==> o.settled || BeingUndone(At(o, n)))
    && (BeingUndone(At(o, n)) ==> Creating(o) && n == Current(o))
  }

  ghost predicate AllWait(o: Owner) { forall n :: Waits(o, n) }

  lemma StartAtWaits(o: Owner, n: Name)
    requires AllWait(o) && o.settled
    ensures AllWait(StartAt(o, n))
  {
    forall q
      ensures Waits(StartAt(o, n), q)
    {
      assert Waits(o, q);
    }
  }

  lemma ResumingWaits(o: Owner)
    requires AllWait(o) && Creating(o)
    ensures AllWait(Do(o, CreationResumes))
  {
    var u := CreatorResumes(At(o, Current(o)), Current(o).IsNetwork());
    var put := Put(o, Current(o), u);
    assert Waits(o, Current(o));
    forall n
      ensures Waits(Advance(put, u), n)
    {
      assert Waits(o, n);
      assert At(Advance(put, u), n) == At(put, n);
    }
  }

  lemma CreationWaits(o: Owner, act: Act)
    requires AllWait(o)
    requires act.BeginCreation? || act.IssueCreate? || act.CallAnswers? || act.CreationServed? || act.CreationResumes?
             || act.AbandonCreation?
    ensures AllWait(Do(o, act))
  {
    if act.CreationResumes? && Creating(o) {
      ResumingWaits(o);
    } else {
      forall n
        ensures Waits(Do(o, act), n)
      {
        assert Waits(o, n);
      }
    }
  }

  lemma RemovalWaits(o: Owner, act: Act)
    requires AllWait(o) && (NetworksBusy(o) ==> o.settled)
    requires act.RemoveContainer? || act.RemoveNetworks? ==> o.settled
    requires act.RemoveContainer? || act.RemoveNetworks? || act.RemovalIsServed? || act.RemovalGoesOn?
             || act.TimePasses?
    ensures AllWait(Do(o, act)) && (NetworksBusy(Do(o, act)) ==> o.settled)
  {
    match act
    case RemoveContainer(n) => if !n.IsNetwork() { StartAtWaits(o, n); }
    case RemoveNetworks =>
      StartAtWaits(o, OutboundNetwork);
      StartAtWaits(StartAt(o, OutboundNetwork), WorkerNetwork);
    case RemovalIsServed(n, a) =>
      forall q
        ensures Waits(Do(o, act), q)
      {
        assert Waits(o, q);
      }
    case RemovalGoesOn(n) =>
      var resumed := Put(o, n, RemovalResumes(At(o, n), n.IsNetwork()));
      forall q
        ensures Waits(resumed, q)
      {
        assert Waits(o, q);
      }
      if n.OutboundNetwork? && At(o, n).removal.Removing? {
        StartAtWaits(resumed, WorkerNetwork);
      }
    case TimePasses(n) =>
      forall q
        ensures Waits(Do(o, act), q)
      {
        assert Waits(o, q);
      }
  }

  lemma BusyKeeps(o: Owner, act: Act)
    requires act.BeginCreation? || act.IssueCreate? || act.CallAnswers? || act.CreationServed? || act.CreationResumes?
             || act.AbandonCreation?
    requires NetworksBusy(o) ==> o.settled
    ensures NetworksBusy(Do(o, act)) ==> Do(o, act).settled
  {}

  /** Until the creation has settled no removal begins, so none that is not sound meets a name
      that is created. */
  lemma {:induction false} WaitingIsNeverLate(acts: seq<Act>)
    requires WaitsForCreation(acts)
    ensures AllWait(Run(acts)) && (NetworksBusy(Run(acts)) ==> Run(acts).settled)
  {
    if acts == [] {
      assert forall n :: Waits(NEW_OWNER, n);
    } else {
      var front, act := acts[..|acts| - 1], acts[|acts| - 1];
      assert forall i | 0 <= i < |front| :: front[..i] == acts[..i];
      WaitingIsNeverLate(front);
      if act.RemoveContainer? || act.RemoveNetworks? || act.RemovalIsServed? || act.RemovalGoesOn? || act.TimePasses? {
        RemovalWaits(Run(front), act);
      } else {
        CreationWaits(Run(front), act);
        BusyKeeps(Run(front), act);
      }
    }
  }

  /** The owner closes only when nothing is left, provided no removal begins before the settlement
      of the creation. */
  lemma CloseAfterCreation(acts: seq<Act>)
    requires WaitsForCreation(acts) && Destroyable(Run(acts))
    ensures NothingLeft(Run(acts))
  {
    var o := Run(acts);
    RunKeeps(acts);
    WaitingIsNeverLate(acts);
    CloseMeansNothingLeft(acts);
    forall n | n in ALL_NAMES
      ensures !Late(At(o, n), n.IsNetwork())
    {
      assert NameKept(o, n) && Waits(o, n);
    }
  }

  /** Such a close comes after the creation has settled. */
  lemma CloseIsSettled(acts: seq<Act>)
    requires WaitsForCreation(acts) && Destroyable(Run(acts))
    ensures Run(acts).settled
  {
    var o := Run(acts);
    WaitingIsNeverLate(acts);
    assert Resolved(At(o, EgressContainer)) && Resolved(At(o, WorkerContainer));
    assert Waits(o, EgressContainer) && Waits(o, WorkerContainer);
  }

  predicate Closed(u: Unit) { Resolved(u) && Empty(u) }

  lemma ClosedUnitStays(u: Unit, network: bool, a: Answer)
    requires Closed(u)
    ensures Closed(StartRemoval(u, network)) && Closed(RemovalServed(u, a)) && Closed(RemovalResumes(u, network))
    ensures Closed(u.(slot := Elapse(u.slot)))
  {}

  predicate ClosedAt(o: Owner, n: Name) { Closed(At(o, n)) }

  ghost predicate AllClosed(o: Owner) { forall n :: ClosedAt(o, n) }

  lemma PutStaysClosed(o: Owner, n: Name, u: Unit)
    requires AllClosed(o) && Closed(u)
    ensures AllClosed(Put(o, n, u))
  {
    forall q
      ensures ClosedAt(Put(o, n, u), q)
    {
      assert ClosedAt(o, q);
    }
  }

  lemma StartAtStaysClosed(o: Owner, n: Name)
    requires AllClosed(o)
    ensures AllClosed(StartAt(o, n)) && StartAt(o, n).settled == o.settled
  {
    assert ClosedAt(o, n);
    ClosedUnitStays(At(o, n), n.IsNetwork(), FINE);
    PutStaysClosed(o, n, StartRemoval(At(o, n), n.IsNetwork()));
  }

  lemma ClosedStays(o: Owner, act: Act)
    requires AllClosed(o) && o.settled
    ensures AllClosed(Do(o, act)) && Do(o, act).settled
  {
    match act
    case RemoveContainer(n) => StartAtStaysClosed(o, n);
    case RemoveNetworks =>
      StartAtStaysClosed(o, OutboundNetwork);
      StartAtStaysClosed(StartAt(o, OutboundNetwork), WorkerNetwork);
    case RemovalIsServed(n, a) =>
      assert ClosedAt(o, n);
      ClosedUnitStays(At(o, n), n.IsNetwork(), a);
      PutStaysClosed(o, n, RemovalServed(At(o, n), a));
    case RemovalGoesOn(n) =>
      assert ClosedAt(o, n);
      ClosedUnitStays(At(o, n), n.IsNetwork(), FINE);
      var resumed := Put(o, n, RemovalResumes(At(o, n), n.IsNetwork()));
      PutStaysClosed(o, n, RemovalResumes(At(o, n), n.IsNetwork()));
      StartAtStaysClosed(resumed, WorkerNetwork);
    case TimePasses(n) =>
      assert ClosedAt(o, n);
      ClosedUnitStays(At(o, n), n.IsNetwork(), FINE);
      PutStaysClosed(o, n, At(o, n).(slot := Elapse(At(o, n).slot)));
    case _ =>
      assert Do(o, act).units == o.units;
      forall n
        ensures ClosedAt(Do(o, act), n)
      {
        assert ClosedAt(o, n);
      }
  }

  lemma NamesAreAll(n: Name)
    ensures n in ALL_NAMES
  {
    match n {
      case WorkerNetwork =>
      case OutboundNetwork =>
      case EgressContainer =>
      case WorkerContainer =>
      case VerifierContainer =>
    }
  }

  lemma AllAreClosed(o: Owner)
    ensures AllClosed(o) <==> Destroyable(o) && NothingLeft(o)
  {
    forall n: Name
      ensures n in ALL_NAMES
    {
      NamesAreAll(n);
    }
    if Destroyable(o) && NothingLeft(o) {
      forall n
        ensures ClosedAt(o, n)
      {
        assert n in ALL_NAMES && Resolved(At(o, n)) && Empty(At(o, n));
      }
    } else if AllClosed(o) {
      forall n | n in ALL_NAMES
        ensures Resolved(At(o, n)) && Empty(At(o, n))
      {
        assert ClosedAt(o, n);
      }
    }
  }

  /** And nothing comes back after such a close, however the owner and the daemon go on. */
  lemma {:induction false} CloseIsFinal(acts: seq<Act>, more: seq<Act>)
    requires WaitsForCreation(acts) && Destroyable(Run(acts))
    ensures Destroyable(Run(acts + more)) && NothingLeft(Run(acts + more)) && Run(acts + more).settled
  {
    if more == [] {
      assert acts + more == acts;
      CloseAfterCreation(acts);
      CloseIsSettled(acts);
    } else {
      var front := more[..|more| - 1];
      assert (acts + more)[..|acts + more| - 1] == acts + front;
      CloseIsFinal(acts, front);
      AllAreClosed(Run(acts + front));
      ClosedStays(Run(acts + front), more[|more| - 1]);
      AllAreClosed(Run(acts + more));
    }
  }
}
