/** The Docker owner as it runs: resource objects updated in place from one wait for the daemon to
    the next, each step proved to be the step of the functional owner. */
module DockerOwnerMachine {
  import opened Evidence
  import opened DockerOwner

  /** One network or container with the creation and the removal that work on it, and what the
      daemon holds under its name. */
  class OwnedResource {
    const name: Name
    var id: Option<int>
    var verified: bool
    var unresolved: bool
    var removed: bool
    var slot: Slot
    var creator: Creator
    var removal: Removal
    ghost var effect: bool
    ghost var overtaken: bool

    function Record(): Resource
      reads this`id, this`verified, this`unresolved, this`removed
    {
      Resource(id, verified, unresolved, removed)
    }

    ghost function State(): Unit
      reads this
    {
      Unit(Record(), slot, creator, removal, effect, overtaken)
    }

    constructor (name: Name)
      ensures this.name == name && State() == NEW_UNIT
    {
      this.name, id, verified, unresolved, removed := name, None, false, false, false;
      slot, creator, removal, effect, overtaken := EMPTY_SLOT, NotIssued, NoRemoval, false, false;
    }

    // ---- the daemon ----

    method Answers(ask: Ask, a: Answer) returns (reply: Reply)
      modifies this`slot
      ensures (slot, reply) == Serve(old(slot), ask, a)
    {
      match ask
      case AskList =>
        if !a.ok {
          return No;
        }
        return Listed(if slot.present.Some? then [slot.present.value] else []);
      case AskVerify(expected) =>
        return if a.ok && slot.present == Some(expected) then Yes else No;
      case AskDelete(doomed) =>
        var found := slot.present == Some(doomed);
        if found && (a.ok || a.effect) {
          slot := slot.(present := None);
        }
        return if found && a.ok then Yes else No;
      case AskAbsent =>
        return if a.ok && slot.present.None? then Yes else No;
    }

    method TimePasses()
      modifies this`slot
      ensures State() == old(State()).(slot := Elapse(old(slot)))
    {
      if slot.pending.Some? {
        slot := Slot(slot.pending, None);
      }
    }

    // ---- removal, from one wait to the next ----

    method ToDelete(sound: bool) returns (r: Removal)
      ensures RemovalStep(Record(), r) == DockerOwner.ToDelete(Record(), name.IsNetwork(), sound)
    {
      if id.None? {
        return NoRemoval;
      }
      return Removing(if name.IsNetwork() then Inspecting(id.value) else Deleting(id.value), None, sound);
    }

    method Proceed(sound: bool) returns (r: Removal)
      modifies this`unresolved
      ensures RemovalStep(Record(), r) == DockerOwner.Proceed(old(Record()), name.IsNetwork(), sound)
    {
      if id.None? {
        if name.IsNetwork() {
          unresolved := false;
        }
        return Removing(Looking, None, sound);
      }
      if !verified {
        return Removing(VerifyingOwned(id.value), None, sound);
      }
      r := ToDelete(sound);
    }

    method BeginRemoval(sound: bool) returns (r: Removal)
      modifies this`id, this`verified, this`unresolved
      ensures RemovalStep(Record(), r) == DockerOwner.BeginRemoval(old(Record()), name.IsNetwork(), sound)
    {
      if removed {
        return NoRemoval;
      }
      if unresolved {
        id, verified := None, false;
        return Removing(Resolving, None, sound);
      }
      r := Proceed(sound);
    }

    method ResumeRemoval(stage: RemovalStage, reply: Reply, sound: bool) returns (r: Removal)
      modifies this`id, this`verified, this`unresolved, this`removed
      ensures RemovalStep(Record(), r)
           == DockerOwner.ResumeRemoval(old(Record()), name.IsNetwork(), stage, reply, sound)
    {
      r := NoRemoval;
      match stage
      case Resolving =>
        if reply.Listed? && |reply.ids| == 1 {
          id := Some(reply.ids[0]);
          r := Removing(VerifyingFound(reply.ids[0]), None, sound);
        }
      case VerifyingFound(_) =>
        if reply.Yes? {
          verified := true;
          r := Proceed(sound);
        }
      case VerifyingOwned(_) =>
        if reply.Yes? {
          verified := true;
          r := ToDelete(sound);
        }
      case Inspecting(vacant) =>
        if reply.Yes? && id == Some(vacant) {
          r := Removing(Deleting(vacant), None, sound);
        }
      case Deleting(doomed) =>
        if reply.Yes? && id == Some(doomed) {
          if name.IsNetwork() {
            unresolved := false;
          }
          r := Removing(Looking, None, sound);
        }
      case Looking =>
        if reply.Yes? {
          if !name.IsNetwork() {
            unresolved := false;
          }
          removed := true;
        }
    }

    /** Asks for a removal; a repeated call is answered by the first one's receipt, and one made
        while a removal is under way joins it. */
    method StartRemoval()
      modifies this
      ensures State() == DockerOwner.StartRemoval(old(State()), name.IsNetwork())
    {
      if removal.NoRemoval? {
        removal := BeginRemoval(!creator.NotIssued?);
      }
    }

    method RemovalServed(a: Answer)
      modifies this
      ensures State() == DockerOwner.RemovalServed(old(State()), a)
    {
      if removal.Removing? && removal.reply.None? {
        var reply := Answers(StageAsk(removal.stage), a);
        removal := removal.(reply := Some(reply));
      }
    }

    method RemovalResumes()
      modifies this
      ensures State() == DockerOwner.RemovalResumes(old(State()), name.IsNetwork())
    {
      if removal.Removing? && removal.reply.Some? {
        var stage, reply, sound := removal.stage, removal.reply.value, removal.sound;
        removal := ResumeRemoval(stage, reply, sound);
        overtaken := overtaken || (removal.NoRemoval? && stage.Looking? && reply.Yes? && !sound);
      }
    }

    // ---- creation, from one wait to the next ----

    method Issue(effect: Option<int>)
      modifies this
      ensures State() == DockerOwner.Issue(old(State()), effect)
    {
      unresolved, creator := true, Calling(effect);
      slot, this.effect := slot.(pending := effect), effect.Some?;
    }

    method RecoverFailedCreation()
      modifies this`id, this`verified, this`unresolved, this`creator
      ensures State() == Recover(old(State()))
    {
      id, verified, unresolved, creator := None, false, true, Relisting(None);
    }

    method CallReturns(ok: bool)
      requires creator.Calling?
      modifies this
      ensures State() == DockerOwner.CallReturns(old(State()), ok)
    {
      if !ok || creator.effect.None? {
        RecoverFailedCreation();
      } else {
        id := creator.effect;
        TimePasses();
        creator := Verifying(id.value, None);
      }
    }

    method CreatorServed(a: Answer)
      modifies this
      ensures State() == DockerOwner.CreatorServed(old(State()), a)
    {
      var reply;
      match creator
      case Verifying(made, None) =>
        reply := Answers(AskVerify(made), a);
        creator := Verifying(made, Some(reply));
      case Relisting(None) =>
        reply := Answers(AskList, a);
        creator := Relisting(Some(reply));
      case Rechecking(found, None) =>
        reply := Answers(AskVerify(found), a);
        creator := Rechecking(found, Some(reply));
      case Undoing(Removing(stage, None, sound)) =>
        reply := Answers(StageAsk(stage), a);
        creator := Undoing(Removing(stage, Some(reply), sound));
      case _ =>
    }

    method UndoCreation()
      modifies this
      ensures State() == Undo(old(State()), name.IsNetwork())
    {
      verified := true;
      if name.IsNetwork() {
        var undo := BeginRemoval(true);
        creator := Undoing(undo);
      } else {
        if removal.NoRemoval? {
          removal := BeginRemoval(true);
        }
        creator := AwaitingRemoval;
      }
    }

    method CreatorResumes()
      modifies this
      ensures State() == DockerOwner.CreatorResumes(old(State()), name.IsNetwork())
    {
      match creator
      case Verifying(_, Some(reply)) =>
        if reply.Yes? {
          verified, unresolved, creator := true, false, Made;
        } else {
          RecoverFailedCreation();
        }
      case Relisting(Some(reply)) =>
        if reply.Listed? && |reply.ids| == 1 {
          id, creator := Some(reply.ids[0]), Rechecking(reply.ids[0], None);
        } else {
          creator := CreationFailed;
        }
      case Rechecking(_, Some(reply)) =>
        if reply.Yes? {
          UndoCreation();
        } else {
          creator := CreationFailed;
        }
      case AwaitingRemoval =>
        if removal.NoRemoval? {
          creator := CreationFailed;
        }
      case Undoing(NoRemoval) =>
        creator := CreationFailed;
      case Undoing(Removing(stage, Some(reply), sound)) =>
        var undo := ResumeRemoval(stage, reply, sound);
        creator := Undoing(undo);
      case _ =>
    }
  }

  class PrivateDockerOwner {
    const resources: seq<OwnedResource>
    var started: bool
    var next: nat
    var settled: bool
    var destroyed: bool

    /** The functional owner that this one is. */
    ghost var state: Owner

    /** The five resources, in creation order and distinct. */
    ghost predicate Arranged() {
      |resources| == 5
      && (forall i | 0 <= i < 5 :: resources[i].name == CREATION_ORDER[i])
      && forall i, j | 0 <= i < j < 5 :: resources[i] != resources[j]
    }

    function Of(n: Name): OwnedResource
      requires |resources| == 5
    {
      resources[Rank(n)]
    }

    ghost predicate Agrees(n: Name)
      requires |resources| == 5
      reads this`state, Of(n)
    {
      Of(n).State() == At(state, n)
    }

    /** Every field says what the functional owner says. */
    ghost predicate Valid()
      reads this, resources
    {
      Arranged() && started == state.started && next == state.next && settled == state.settled
      && forall n :: Agrees(n)
    }

    constructor ()
      ensures Valid() && fresh(resources) && state == NEW_OWNER && !destroyed
    {
      var a := new OwnedResource(WorkerNetwork);
      var b := new OwnedResource(OutboundNetwork);
      var c := new OwnedResource(EgressContainer);
      var d := new OwnedResource(WorkerContainer);
      var e := new OwnedResource(VerifierContainer);
      resources := [a, b, c, d, e];
      started, next, settled, destroyed, state := false, 0, false, false, NEW_OWNER;
      new;
      forall n: Name
        ensures Agrees(n)
      {
        NewUnits(n);
        assert Of(n) == a || Of(n) == b || Of(n) == c || Of(n) == d || Of(n) == e;
      }
    }

    /** What one resource did is what the functional owner puts in its place. */
    twostate lemma OneChanged(n: Name)
      requires old(Valid()) && Arranged()
      requires state.units == old(state).units[n := Of(n).State()]
      requires forall q: Name | q != n :: unchanged(Of(q))
      ensures forall q :: Agrees(q)
    {
      forall q: Name
        ensures Agrees(q)
      {
        assert old(Agrees(q));
      }
    }

    twostate lemma NoneChanged()
      requires old(Valid()) && Arranged() && state.units == old(state).units
      requires forall q: Name :: unchanged(Of(q))
      ensures forall q :: Agrees(q)
    {
      forall q: Name
        ensures Agrees(q)
      {
        assert old(Agrees(q));
      }
    }

    // ---- the single creation run ----

    method BeginCreation()
      requires Valid()
      modifies this`started, this`state
      ensures Valid() && state == Do(old(state), DockerOwner.BeginCreation)
    {
      started, state := true, state.(started := true);
      NoneChanged();
    }

    method IssueCreate(effect: Option<int>)
      requires Valid()
      modifies this`state, resources
      ensures Valid() && state == Do(old(state), DockerOwner.IssueCreate(effect))
    {
      if started && !settled && next < 5 {
        assert Agrees(CREATION_ORDER[next]);
        if resources[next].creator.NotIssued? {
          resources[next].Issue(effect);
          state := Put(state, CREATION_ORDER[next], Of(CREATION_ORDER[next]).State());
          OneChanged(CREATION_ORDER[next]);
        }
      }
    }

    method CallAnswers(ok: bool)
      requires Valid()
      modifies this`state, resources
      ensures Valid() && state == Do(old(state), DockerOwner.CallAnswers(ok))
    {
      if started && !settled && next < 5 {
        assert Agrees(CREATION_ORDER[next]);
        if resources[next].creator.Calling? {
          resources[next].CallReturns(ok);
          state := Put(state, CREATION_ORDER[next], Of(CREATION_ORDER[next]).State());
          OneChanged(CREATION_ORDER[next]);
        }
      }
    }

    method CreationServed(a: Answer)
      requires Valid()
      modifies this`state, resources
      ensures Valid() && state == Do(old(state), DockerOwner.CreationServed(a))
    {
      if started && !settled && next < 5 {
        assert Agrees(CREATION_ORDER[next]);
        resources[next].CreatorServed(a);
        state := Put(state, CREATION_ORDER[next], Of(CREATION_ORDER[next]).State());
        OneChanged(CREATION_ORDER[next]);
      }
    }

    /** On to the next name when this one is made, and to the end when its creation has failed. */
    method CreationResumes()
      requires Valid()
      modifies this`next, this`settled, this`state, resources
      ensures Valid() && state == Do(old(state), DockerOwner.CreationResumes)
    {
      if started && !settled && next < 5 {
        var n := CREATION_ORDER[next];
        assert Agrees(n);
        Of(n).CreatorResumes();
        ghost var u := Of(n).State();
        if Of(n).creator.Made? {
          next := next + 1;
          settled := next == 5;
        } else if Of(n).creator.CreationFailed? {
          settled := true;
        }
        state := Advance(Put(state, n, u), u);
        OneChanged(n);
      }
    }

    method AbandonCreation()
      requires Valid()
      modifies this`settled, this`state
      ensures Valid() && state == Do(old(state), DockerOwner.AbandonCreation)
    {
      if started && !settled && next < 5 {
        assert Agrees(CREATION_ORDER[next]);
        if resources[next].creator.NotIssued? {
          settled, state := true, state.(settled := true);
          NoneChanged();
        }
      }
    }

    // ---- removals ----

    method StartAt(n: Name)
      requires Valid()
      modifies this`state, resources
      ensures Valid() && state == DockerOwner.StartAt(old(state), n)
    {
      assert Agrees(n);
      Of(n).StartRemoval();
      state := Put(state, n, Of(n).State());
      OneChanged(n);
    }

    method RemoveContainer(n: Name)
      requires Valid()
      modifies this`state, resources
      ensures Valid() && state == Do(old(state), DockerOwner.RemoveContainer(n))
    {
      if !n.IsNetwork() {
        StartAt(n);
      }
    }

    method WorkerNext()
      requires Valid()
      modifies this`state, resources
      ensures Valid() && state == DockerOwner.WorkerNext(old(state))
    {
      assert Agrees(OutboundNetwork);
      if resources[1].removal.NoRemoval? && resources[1].removed {
        StartAt(WorkerNetwork);
      }
    }

    /** The networks, in reverse order, once the creation has settled and every container is gone. */
    method RemoveNetworks()
      requires Valid()
      modifies this`state, resources
      ensures Valid() && state == Do(old(state), DockerOwner.RemoveNetworks)
    {
      assert Agrees(WorkerNetwork);
      assert Agrees(OutboundNetwork);
      assert Agrees(EgressContainer);
      assert Agrees(WorkerContainer);
      assert Agrees(VerifierContainer);
      if (started && !settled) || !resources[2].removed || !resources[3].removed || !resources[4].removed
         || resources[1].removal.Removing? || resources[0].removal.Removing? {
        return;
      }
      StartAt(OutboundNetwork);
      WorkerNext();
    }

    method RemovalIsServed(n: Name, a: Answer)
      requires Valid()
      modifies this`state, resources
      ensures Valid() && state == Do(old(state), DockerOwner.RemovalIsServed(n, a))
    {
      assert Agrees(n);
      Of(n).RemovalServed(a);
      state := Put(state, n, Of(n).State());
      OneChanged(n);
    }

    method RemovalGoesOn(n: Name)
      requires Valid()
      modifies this`state, resources
      ensures Valid() && state == Do(old(state), DockerOwner.RemovalGoesOn(n))
    {
      assert Agrees(n);
      var wasRemoving := Of(n).removal.Removing?;
      Of(n).RemovalResumes();
      state := Put(state, n, Of(n).State());
      OneChanged(n);
      if n.OutboundNetwork? && wasRemoving {
        WorkerNext();
      }
    }

    method TimePasses(n: Name)
      requires Valid()
      modifies this`state, resources
      ensures Valid() && state == Do(old(state), DockerOwner.TimePasses(n))
    {
      assert Agrees(n);
      Of(n).TimePasses();
      state := Put(state, n, Of(n).State());
      OneChanged(n);
    }

    /** Closes the owner unless some resource is not removed or not resolved. */
    method Destroy() returns (ok: bool)
      requires Valid()
      modifies this`destroyed
      ensures Valid() && (ok <==> Destroyable(state)) && destroyed == (old(destroyed) || ok)
    {
      for i := 0 to 5
        invariant forall k | 0 <= k < i :: resources[k].removed && !resources[k].unresolved
        invariant destroyed == old(destroyed)
      {
        if !resources[i].removed || resources[i].unresolved {
          assert Agrees(CREATION_ORDER[i]);
          assert !Resolved(At(state, CREATION_ORDER[i])) && CREATION_ORDER[i] in ALL_NAMES;
          return false;
        }
      }
      forall n | n in ALL_NAMES
        ensures Resolved(At(state, n))
      {
        assert Agrees(n);
      }
      destroyed := true;
      return true;
    }
  }
}
