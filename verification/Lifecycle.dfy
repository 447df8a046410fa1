/** The dedicated lifecycle: 28 stages, independent cleanups with timeouts, and a failure that
    may strike anywhere.  The system it drives answers as it likes. */
module Lifecycle {
  import opened Evidence
  import opened LifecycleLedger

  datatype Stage =
    | RequestValidated | PrivateAdapterAdmitted | OwnedContainersCreated
    | Held(role: Role) | CgroupBound(role: Role) | BaselineRecorded(role: Role) | BarrierReleased(role: Role)
    | ExecutionObserved(role: Role) | StoppedOrContained(role: Role) | DockerReleased(role: Role)
    | CgroupReleased(role: Role)
    | ControllerStoppedStage | EvidenceFinalized

  const STAGES: seq<Stage> := [
    RequestValidated, PrivateAdapterAdmitted, OwnedContainersCreated,
    Held(Egress), CgroupBound(Egress), BaselineRecorded(Egress), BarrierReleased(Egress),
    Held(Worker), CgroupBound(Worker), BaselineRecorded(Worker), BarrierReleased(Worker), ExecutionObserved(Worker),
    StoppedOrContained(Worker), DockerReleased(Worker), CgroupReleased(Worker),
    StoppedOrContained(Egress), DockerReleased(Egress), CgroupReleased(Egress),
    Held(Verifier), CgroupBound(Verifier), BaselineRecorded(Verifier), BarrierReleased(Verifier),
    ExecutionObserved(Verifier), StoppedOrContained(Verifier), DockerReleased(Verifier), CgroupReleased(Verifier),
    ControllerStoppedStage, EvidenceFinalized]

  /** Where a role's setup starts in the list, and where its cleanup does. */
  function SetupAt(r: Role): nat { match r case Egress => 3 case Worker => 7 case Verifier => 18 }
  function CleanupAt(r: Role): nat { match r case Egress => 15 case Worker => 12 case Verifier => 23 }

  /** Where a stage stands in the list, or its length: egress's exit is never observed. */
  function Position(stage: Stage): nat {
    match stage
    case RequestValidated => 0
    case PrivateAdapterAdmitted => 1
    case OwnedContainersCreated => 2
    case Held(r) => SetupAt(r)
    case CgroupBound(r) => SetupAt(r) + 1
    case BaselineRecorded(r) => SetupAt(r) + 2
    case BarrierReleased(r) => SetupAt(r) + 3
    case ExecutionObserved(r) => if r.Egress? then 28 else SetupAt(r) + 4
    case StoppedOrContained(r) => CleanupAt(r)
    case DockerReleased(r) => CleanupAt(r) + 1
    case CgroupReleased(r) => CleanupAt(r) + 2
    case ControllerStoppedStage => 26
    case EvidenceFinalized => 27
  }

  lemma PositionOfStage(i: nat)
    requires i < |STAGES|
    ensures |STAGES| == 28 && Position(STAGES[i]) == i
  {}

  lemma StageOfPosition(stage: Stage)
    ensures Position(stage) < |STAGES| ==> STAGES[Position(stage)] == stage
  {}

  lemma StagesPositioned(stage: Stage, i: nat)
    requires i < |STAGES|
    ensures |STAGES| == 28 && (STAGES[i] == stage <==> Position(stage) == i)
  {
    PositionOfStage(i);
    StageOfPosition(stage);
  }

  ghost predicate InPlace(completed: seq<Stage>, i: int) { 0 <= i < |completed| ==> Position(completed[i]) == i }

  /** A prefix of the list that never reaches its last stage. */
  ghost predicate InOrderSoFar(completed: seq<Stage>) { |completed| <= 27 && forall i :: InPlace(completed, i) }

  lemma InOrderIsPrefix(completed: seq<Stage>)
    requires InOrderSoFar(completed)
    ensures |completed| < |STAGES| == 28 && completed == STAGES[..|completed|]
  {
    StagesPositioned(EvidenceFinalized, 27);
    forall i | 0 <= i < |completed|
      ensures completed[i] == STAGES[i]
    {
      assert InPlace(completed, i);
      StagesPositioned(completed[i], i);
    }
  }

  lemma ThreeRoles(roles: set<Role>)
    ensures roles <= {Egress, Worker, Verifier}
  {
    forall r | r in roles
      ensures r in {Egress, Worker, Verifier}
    {
      match r { case Egress => case Worker => case Verifier => }
    }
  }

  /** What a completed stage stands for is among the needed. */
  lemma {:induction false} NeededHas(completed: seq<Stage>, i: nat)
    requires i < |completed|
    ensures OpsOf(completed[i]) <= Needed(completed)
  {
    if i < |completed| - 1 {
      NeededHas(completed[..|completed| - 1], i);
    }
  }

  /** How a step ends: normally, by a lifecycle failure, by another error, or by the fatal
      error of a cleanup that never settled. */
  datatype Status = Ok | Thrown(code: LifecycleCode) | ThrownOther | Fatal {
    predicate IsFailure() { !Ok? }
    function PropagateFailure(): Status { this }
    /** The code a run reports for it. */
    function Code(): LifecycleCode { if Thrown? then code else OperationFailed }
  }

  datatype CleanupOp =
    | StopRole(role: Role) | FinalSample(role: Role) | ReleaseDocker(role: Role) | ReleaseCgroup(role: Role)
    | StopController

  /** The operations of the system port. */
  datatype PortOp =
    | CreateContainers | StartHeld(role: Role) | WaitHeld(role: Role) | BindCgroup(role: Role)
    | ReadBaseline(role: Role)
    | ReleaseBarrier(role: Role) | ReadSample(role: Role) | WaitExit(role: Role) | CleanUp(op: CleanupOp)

  function StoppedOps(r: Role): set<PortOp> { {CleanUp(StopRole(r)), CleanUp(FinalSample(r))} }

  /** The operations whose success a stage stands for. */
  function OpsOf(stage: Stage): set<PortOp> {
    match stage
    case RequestValidated => {}
    case PrivateAdapterAdmitted => {}
    case OwnedContainersCreated => {CreateContainers}
    case Held(r) => {StartHeld(r), WaitHeld(r)}
    case CgroupBound(r) => {BindCgroup(r)}
    case BaselineRecorded(r) => {ReadBaseline(r)}
    case BarrierReleased(r) => {ReleaseBarrier(r)}
    case ExecutionObserved(r) => {WaitExit(r)}
    case StoppedOrContained(r) => StoppedOps(r)
    case DockerReleased(r) => {CleanUp(ReleaseDocker(r))}
    case CgroupReleased(r) => {CleanUp(ReleaseCgroup(r))}
    case ControllerStoppedStage => {CleanUp(StopController)}
    case EvidenceFinalized => {}
  }

  /** All operations the completed stages stand for. */
  function Needed(completed: seq<Stage>): set<PortOp> {
    if completed == [] then {} else Needed(completed[..|completed| - 1]) + OpsOf(completed[|completed| - 1])
  }

  /** What can go wrong outside the lifecycle: the signal is seen to have fired, an operation throws,
      a cleanup is rejected or runs out of time, a reading is at fault. */
  datatype Trouble = Fired | Threw(op: PortOp) | CleanupFailed(cleanup: CleanupOp) | Misread(code: LifecycleCode)

  /** The code that tells of a trouble that comes alone. */
  function CodeOf(t: Trouble): LifecycleCode {
    match t
    case Fired => ExecutionAborted
    case Threw(op) => if op.ReadSample? then RevalidationFailed else if op.WaitExit? then ExecutionFailed
      else OperationFailed
    case CleanupFailed(_) => OperationFailed
    case Misread(code) => code
  }

  /** From the given place on a cleanup failed. */
  ghost predicate CleanupFails(troubles: seq<Trouble>, from: nat) {
    exists i | from <= i < |troubles| :: troubles[i].CleanupFailed?
  }

  /** From the given place on something happened that the failure path counts: a cleanup failed, or a
      reading was at fault for more than the budget. */
  ghost predicate Counts(troubles: seq<Trouble>, from: nat) {
    exists i | from <= i < |troubles| ::
      troubles[i].CleanupFailed? || (troubles[i].Misread? && !troubles[i].code.BudgetExceeded?)
  }

  /** And a reading passed the budget. */
  ghost predicate Overspends(troubles: seq<Trouble>, from: nat) {
    exists i | from <= i < |troubles| :: troubles[i] == Misread(BudgetExceeded)
  }

  /** A result is sticky when a cleanup failed, or a reading was at fault on the failure path. */
  ghost predicate Sticks(troubles: seq<Trouble>) { CleanupFails(troubles, 0) || Counts(troubles, 1) }

  /** What is thrown first: the first trouble, or the signal when it was seen to have fired with it. */
  function FirstTold(troubles: seq<Trouble>): LifecycleCode
    requires troubles != []
  {
    if |troubles| > 1 && troubles[1].Fired? then ExecutionAborted else CodeOf(troubles[0])
  }

  ghost predicate OnlyMisread(troubles: seq<Trouble>, from: nat) {
    forall i | from <= i < |troubles| :: troubles[i].Misread?
  }

  lemma TroublesSplit(was: seq<Trouble>, mid: seq<Trouble>, now: seq<Trouble>)
    requires was <= mid <= now
    ensures Counts(now, |was|) <==> Counts(mid, |was|) || Counts(now, |mid|)
    ensures CleanupFails(now, |was|) <==> CleanupFails(mid, |was|) || CleanupFails(now, |mid|)
    ensures Overspends(now, |was|) <==> Overspends(mid, |was|) || Overspends(now, |mid|)
    ensures OnlyMisread(now, |was|) <==> OnlyMisread(mid, |was|) && OnlyMisread(now, |mid|)
  {
    forall i | 0 <= i < |mid|
      ensures now[i] == mid[i]
    {}
  }

  /** What went wrong before the failure path, and on it. */
  lemma FailureExplained(mid: seq<Trouble>, now: seq<Trouble>)
    requires mid <= now && mid != []
    requires CleanupFails(mid, 0) || forall i | 1 <= i < |mid| :: mid[i].Fired?
    requires CleanupFails(now, |mid|) || OnlyMisread(now, |mid|)
    ensures CleanupFails(now, 0) <==> CleanupFails(mid, 0) || CleanupFails(now, |mid|)
    ensures Sticks(now) <==> CleanupFails(mid, 0) || Counts(now, |mid|)
    ensures !CleanupFails(now, 0) ==>
              (Overspends(now, 1) <==> Overspends(now, |mid|)) && FirstTold(now) == FirstTold(mid)
  {
    TroublesSplit([], mid, now);
    TroublesSplit(mid[..1], mid, now);
    if Counts(mid, 1) {
      var i :| 1 <= i < |mid| && (mid[i].CleanupFailed? || (mid[i].Misread? && !mid[i].code.BudgetExceeded?));
    }
    if Overspends(mid, 1) {
      var i :| 1 <= i < |mid| && mid[i] == Misread(BudgetExceeded);
    }
    forall i | |mid| <= i < |now| && now[i].CleanupFailed?
      ensures Counts(now, |mid|)
    {}
  }

  ghost predicate NoMisread(troubles: seq<Trouble>) { forall i | 0 <= i < |troubles| :: !troubles[i].Misread? }

  datatype Race = Settled | Rejected | TimedOut

  datatype CleanupResult = Success | Failure | LifecycleFailure(code: LifecycleCode) | Unsettled

  datatype RunResult =
    | Completed(stages: seq<Stage>, samples: seq<Sample>, cumulative: int)
    | FailedRun(code: LifecycleCode, sticky: bool, stages: seq<Stage>, samples: seq<Sample>, cumulative: int)

  /** The containers, cgroups, controller and abort signal outside the lifecycle's control.  Its
      fields are what has really happened, `cgroupGone` the releases of its own port.  Every
      answer is arbitrary, unless the system is scripted: then every operation succeeds in time,
      and the signal fires with the operation `fires`. */
  class ControlledSystem {
    const fires: Option<PortOp>
    var aborted: bool
    var dockerGone: set<Role>
    var cgroupGone: set<Role>
    var controllerGone: bool
    var unsettled: nat
    var performed: set<PortOp>
    ghost var troubles: seq<Trouble>

    constructor (fires: Option<PortOp>)
      ensures this.fires == fires && (fires.Some? ==> !aborted) && troubles == []
      ensures dockerGone == {} && cgroupGone == {} && !controllerGone && unsettled == 0 && performed == {}
    {
      var early: bool := *;
      this.fires, aborted := fires, fires.None? && early;
      dockerGone, cgroupGone, controllerGone, unsettled, performed, troubles := {}, {}, false, 0, {}, [];
    }

    method SignalAborted() returns (now: bool)
      modifies this`aborted, this`troubles
      ensures now == aborted && (old(aborted) ==> aborted)
      ensures troubles == old(troubles) + if now && Fired !in old(troubles) then [Fired] else []
      ensures fires.Some? ==> aborted == (old(aborted) || fires.value in performed)
    {
      var fired: bool := *;
      if fires.Some? {
        fired := fires.value in performed;
      }
      aborted := aborted || fired;
      if aborted && Fired !in troubles {
        troubles := troubles + [Fired];
      }
      return aborted;
    }

    method Answers() returns (ok: bool)
      ensures fires.Some? ==> ok
    {
      ok := *;
      ok := ok || fires.Some?;
    }

    /** An operation that succeeds or throws. */
    method Perform(op: PortOp) returns (ok: bool)
      modifies this`performed, this`troubles
      ensures performed == (if ok then old(performed) + {op} else old(performed)) && (fires.Some? ==> ok)
      ensures troubles == old(troubles) + if ok then [] else [Threw(op)]
    {
      ok := Answers();
      if ok {
        performed := performed + {op};
      } else {
        troubles := troubles + [Threw(op)];
      }
    }

    method ReadsSample() returns (sample: PortSample)
    {
      sample := *;
    }

    method Begin()
      modifies this`unsettled
      ensures unsettled == old(unsettled) + 1
    {
      unsettled := unsettled + 1;
    }

    method FirstOutcome(op: CleanupOp) returns (race: Race)
      modifies this`troubles
      ensures fires.Some? ==> race.Settled?
      ensures troubles == old(troubles) + if race.Settled? then [] else [CleanupFailed(op)]
    {
      race := *;
      if fires.Some? {
        race := Settled;
      }
      if !race.Settled? {
        troubles := troubles + [CleanupFailed(op)];
      }
    }

    /** The operation settles.  A success has its effect; a rejected or late one may have. */
    method Settle(op: CleanupOp, success: bool)
      requires unsettled > 0
      modifies this
      ensures unsettled == old(unsettled) - 1 && aborted == old(aborted) && troubles == old(troubles)
      ensures old(dockerGone) <= dockerGone && (old(controllerGone) ==> controllerGone)
      ensures old(cgroupGone) <= cgroupGone <= old(cgroupGone) + if op.ReleaseCgroup? then {op.role} else {}
      ensures success && op.ReleaseDocker? ==> op.role in dockerGone
      ensures success && op.ReleaseCgroup? ==> op.role in cgroupGone
      ensures success && op.StopController? ==> controllerGone
      ensures performed == if success then old(performed) + {CleanUp(op)} else old(performed)
    {
      unsettled := unsettled - 1;
      if success {
        performed := performed + {CleanUp(op)};
      }
      var effective: bool := *;
      if success || effective {
        match op
        case ReleaseDocker(r) => dockerGone := dockerGone + {r};
        case ReleaseCgroup(r) => cgroupGone := cgroupGone + {r};
        case StopController => controllerGone := true;
        case _ =>
      }
    }
  }

  /** What the lifecycle takes for started, the starts it lost to the signal, and what was really
      performed and released. */
  datatype Account = Account(started: set<Role>, lost: set<Role>, performed: set<PortOp>, gone: set<Role>)

  /** The role was stopped, finally sampled, or released from its cgroup. */
  ghost predicate Handled(w: Account, r: Role) {
    CleanUp(StopRole(r)) in w.performed || CleanUp(FinalSample(r)) in w.performed
    || CleanUp(ReleaseCgroup(r)) in w.performed || r in w.gone
  }

  /** A final sample that was taken stands among the samples; a start that succeeded counts or is
      lost, and only a role that counts is ever handled. */
  ghost predicate HonestRole(samples: seq<Sample>, w: Account, r: Role) {
    (CleanUp(FinalSample(r)) in w.performed ==> r in RolesOf(samples))
    && (StartHeld(r) in w.performed <==> r in w.started || r in w.lost)
    && !(r in w.started && r in w.lost) && (Handled(w, r) ==> r in w.started)
  }

  /** What the lifecycle says was done has been done. */
  ghost predicate Honest(completed: seq<Stage>, samples: seq<Sample>, w: Account) {
    Needed(completed) <= w.performed && forall r :: HonestRole(samples, w, r)
  }

  /** Every role released from its cgroup was, by an operation, and stopped before if nothing failed. */
  ghost predicate AllReleased(released: set<Role>, performed: set<PortOp>, clean: bool) {
    forall r | r in released ::
      CleanUp(ReleaseCgroup(r)) in performed && (clean ==> CleanUp(StopRole(r)) in performed)
  }

  /** The role was stopped and released from its cgroup. */
  ghost predicate LetGo(w: Account, r: Role) {
    CleanUp(StopRole(r)) in w.performed && CleanUp(ReleaseCgroup(r)) in w.performed && r in w.gone
  }

  /** Every role whose start succeeded was let go. */
  ghost predicate AllLetGo(w: Account) { forall r | StartHeld(r) in w.performed :: LetGo(w, r) }

  /** The role was started, and neither stopped nor released from its cgroup. */
  ghost predicate Abandoned(w: Account, r: Role) {
    StartHeld(r) in w.performed && CleanUp(StopRole(r)) !in w.performed
    && CleanUp(ReleaseCgroup(r)) !in w.performed && r !in w.gone
  }

  lemma SamplesStayHonest(completed: seq<Stage>, samples: seq<Sample>, more: seq<Sample>, w: Account)
    requires Honest(completed, samples, w) && samples <= more
    ensures Honest(completed, more, w)
  {
    forall r
      ensures HonestRole(more, w, r)
    {
      assert HonestRole(samples, w, r);
      if r in RolesOf(samples) {
        RoleSampled(samples, more, r);
      }
    }
  }

  lemma AskStaysHonest(completed: seq<Stage>, samples: seq<Sample>, w: Account, op: PortOp)
    requires Honest(completed, samples, w) && !op.StartHeld? && !op.CleanUp?
    ensures Honest(completed, samples, w.(performed := w.performed + {op}))
  {
    forall r
      ensures HonestRole(samples, w.(performed := w.performed + {op}), r)
    {
      assert HonestRole(samples, w, r);
    }
  }

  /** A start that succeeds, counted or lost. */
  lemma StartStaysHonest(completed: seq<Stage>, samples: seq<Sample>, w: Account, r: Role)
    requires Honest(completed, samples, w) && r !in w.started && r !in w.lost
    ensures Honest(completed, samples, w.(performed := w.performed + {StartHeld(r)}, started := w.started + {r}))
    ensures Honest(completed, samples, w.(performed := w.performed + {StartHeld(r)}, lost := w.lost + {r}))
  {
    var counted := w.(performed := w.performed + {StartHeld(r)}, started := w.started + {r});
    var lost := w.(performed := w.performed + {StartHeld(r)}, lost := w.lost + {r});
    forall q
      ensures HonestRole(samples, counted, q) && HonestRole(samples, lost, q)
    {
      assert HonestRole(samples, w, q);
    }
  }

  /** The cleanups that are only for a role that counts. */
  predicate ForStarted(op: CleanupOp) { op.StopRole? || op.FinalSample? || op.ReleaseCgroup? }

  /** A cleanup that settles, with or without success or effect. */
  lemma SettleStaysHonest(completed: seq<Stage>, samples: seq<Sample>, w: Account, w': Account, op: CleanupOp)
    requires Honest(completed, samples, w) && w'.started == w.started && w'.lost == w.lost
    requires ForStarted(op) ==> op.role in w.started
    requires w'.performed == w.performed
             || (w'.performed == w.performed + {CleanUp(op)} && (op.FinalSample? ==> op.role in RolesOf(samples)))
    requires w.gone <= w'.gone <= w.gone + if op.ReleaseCgroup? then {op.role} else {}
    ensures Honest(completed, samples, w')
  {
    forall r
      ensures HonestRole(samples, w', r)
    {
      assert HonestRole(samples, w, r);
    }
  }

  /** A run of all stages but the last has a final sample of every role. */
  lemma AllSampled(samples: seq<Sample>, w: Account, r: Role)
    requires Honest(STAGES[..27], samples, w)
    ensures r in RolesOf(samples)
  {
    StageOfPosition(StoppedOrContained(r));
    NeededHas(STAGES[..27], CleanupAt(r));
    assert HonestRole(samples, w, r);
  }

  /** A lost start is abandoned; every start is counted or lost. */
  lemma LostIsAbandoned(completed: seq<Stage>, samples: seq<Sample>, w: Account)
    requires Honest(completed, samples, w)
    ensures forall r | r in w.lost :: Abandoned(w, r)
    ensures forall r :: StartHeld(r) in w.performed <==> r in w.started || r in w.lost
  {
    forall r
      ensures r in w.lost ==> Abandoned(w, r)
      ensures StartHeld(r) in w.performed <==> r in w.started || r in w.lost
    {
      assert HonestRole(samples, w, r);
    }
  }

  /** Where everything that counts was let go, everything really started was exactly when no
      start was lost. */
  lemma CleanMeansNoneLost(completed: seq<Stage>, samples: seq<Sample>, w: Account, released: set<Role>)
    requires Honest(completed, samples, w) && AllReleased(released, w.performed, true)
    requires w.started <= released <= w.gone
    ensures AllLetGo(w) <==> w.lost == {}
  {
    LostIsAbandoned(completed, samples, w);
    if w.lost != {} {
      var r :| r in w.lost;
      assert Abandoned(w, r) && StartHeld(r) in w.performed && !LetGo(w, r);
    }
  }

  class DedicatedLifecycle {
    const max: nat
    const system: ControlledSystem
    var completed: seq<Stage>
    var ledger: Ledger
    var failures: nat
    var started: set<Role>
    var active: set<Role>
    var dockerReleased: set<Role>
    var cgroupReleased: set<Role>
    var controllerStopped: bool
    var forceTerminated: bool
    ghost var lost: set<Role>
    ghost var readings: seq<Reading>

    ghost function Told(): Account
      reads this`started, this`lost, system`performed, system`cgroupGone
    {
      Account(started, lost, system.performed, system.cgroupGone)
    }

    /** Nothing has gone wrong. */
    ghost predicate Calm()
      reads this`failures, system`troubles
    {
      system.troubles == [] && failures == 0
    }

    /** With nothing gone wrong the step is done; with one trouble it fails with the code of that,
        and a failure is recorded exactly when that is of a cleanup. */
    ghost predicate Explains(s: Status)
      reads this`failures, system`troubles
    {
      (s.Ok? <==> system.troubles == []) && (s.Ok? ==> failures == 0)
      && (|system.troubles| == 1 && !s.Fatal? ==> s.Code() == CodeOf(system.troubles[0]))
      && (!s.Fatal? ==> (failures > 0 <==> CleanupFails(system.troubles, 0)))
      && (!s.Fatal? ==> CleanupFails(system.troubles, 0) || OneOrFired(system.troubles, s))
    }

    /** There is one trouble; or the signal was seen to have fired after it, which is then thrown. */
    ghost predicate OneOrFired(troubles: seq<Trouble>, s: Status) {
      |troubles| <= 1 || (|troubles| == 2 && troubles[1].Fired? && s == Thrown(ExecutionAborted))
    }

    /** While every reading so far is good, the ledger holds what was read and none was at fault; and
        while nothing went wrong, every reading was good. */
    ghost predicate ReadingsTold()
      reads this`ledger, this`readings, system`troubles
    {
      (AllGood(readings, max) ==> Reflects(ledger, readings) && NoMisread(system.troubles))
      && (system.troubles == [] ==> AllGood(readings, max))
    }

    /** The stages are a prefix, the ledger is kept, every release the lifecycle believes in has
        really happened, and no cleanup is unsettled. */
    ghost predicate Valid()
      reads this, system`unsettled, system`aborted, system`performed, system`dockerGone, system`cgroupGone,
            system`controllerGone, system`troubles
    {
      Sound() && system.unsettled == 0
    }

    /** The same while a cleanup runs. */
    ghost predicate Sound()
      reads this, system`aborted, system`performed, system`dockerGone, system`cgroupGone, system`controllerGone,
            system`troubles
    {
      Kept() && ReadingsTold()
    }

    ghost predicate Kept()
      reads this, system`aborted, system`performed, system`dockerGone, system`cgroupGone, system`controllerGone
    {
      InOrderSoFar(completed)
      && WellKept(ledger) && (forall r :: r in ledger.baselines ==> r in started)
      && dockerReleased <= system.dockerGone && cgroupReleased <= system.cgroupGone
      && (controllerStopped ==> system.controllerGone)
      && active == started - cgroupReleased
      && Honest(completed, ledger.samples, Told()) && (lost != {} ==> system.aborted)
      && AllReleased(cgroupReleased, system.performed, failures == 0)
    }

    constructor (max: nat, system: ControlledSystem)
      requires system.unsettled == 0 && system.performed == {} && system.cgroupGone == {} && system.troubles == []
      ensures this.max == max && this.system == system && Valid()
      ensures completed == [] && ledger == NEW_LEDGER && failures == 0 && !controllerStopped
      ensures started == dockerReleased == cgroupReleased == lost == {} && readings == []
    {
      this.max, this.system := max, system;
      completed, ledger, failures := [], NEW_LEDGER, 0;
      started, active, dockerReleased, cgroupReleased := {}, {}, {}, {};
      controllerStopped, forceTerminated, lost, readings := false, false, {}, [];
    }

    /** A stage may be marked once what it stands for has succeeded. */
    method Mark(stage: Stage) returns (s: Status)
      requires Valid() && OpsOf(stage) <= system.performed
      modifies this`completed
      ensures s.Ok? <==> Position(stage) == old(|completed|) && !stage.EvidenceFinalized?
      ensures completed == if s.Ok? then old(completed) + [stage] else old(completed)
      ensures Valid() && (s.Ok? || s == Thrown(OperationFailed))
    {
      StagesPositioned(stage, |completed|);
      if stage != STAGES[|completed|] || stage == EvidenceFinalized {
        return Thrown(OperationFailed);
      }
      ghost var before := completed;
      completed := completed + [stage];
      assert completed[..|before|] == before;
      forall i
        ensures InPlace(completed, i)
      {
        assert InPlace(before, i);
      }
      return Ok;
    }

    method Aborted() returns (now: bool)
      requires Valid()
      modifies system`aborted, system`troubles
      ensures system.troubles == old(system.troubles) + if now && Fired !in old(system.troubles) then [Fired] else []
      ensures Valid() && now == system.aborted && (old(system.aborted) ==> now)
      ensures system.fires.Some? ==> now == (old(system.aborted) || system.fires.value in system.performed)
    {
      now := system.SignalAborted();
    }

    method ThrowIfAborted() returns (s: Status)
      requires Valid()
      modifies system`aborted, system`troubles
      ensures system.troubles == old(system.troubles) + if s.Ok? || Fired in old(system.troubles) then [] else [Fired]
      ensures Valid() && s == if system.aborted then Thrown(ExecutionAborted) else Ok
      ensures old(system.aborted) ==> system.aborted
      ensures system.fires.Some? ==> system.aborted == (old(system.aborted) || system.fires.value in system.performed)
    {
      var aborted := Aborted();
      return if aborted then Thrown(ExecutionAborted) else Ok;
    }

    /** An operation of the port, other than a start or a cleanup. */
    method Ask(op: PortOp) returns (ok: bool)
      requires Valid() && !op.StartHeld? && !op.CleanUp?
      modifies system`performed, system`troubles
      ensures Valid() && (system.fires.Some? ==> ok)
      ensures system.troubles == old(system.troubles) + if ok then [] else [Threw(op)]
      ensures system.performed == if ok then old(system.performed) + {op} else old(system.performed)
    {
      AskStaysHonest(completed, ledger.samples, Told(), op);
      ok := system.Perform(op);
    }

    /** One operation between two looks at the signal: none is asked for after it has fired. */
    method ExecutionOperation(op: PortOp) returns (s: Status)
      requires Valid() && !op.StartHeld? && !op.CleanUp? && Calm()
      modifies system`aborted, system`performed, system`troubles
      ensures (s.Ok? && system.troubles == []) || (s == Thrown(ExecutionAborted) && system.troubles == [Fired])
              || (s.ThrownOther? && system.troubles == [Threw(op)])
      ensures Valid() && !s.Fatal? && s != Thrown(BudgetExceeded) && old(system.performed) <= system.performed
      ensures s.Ok? ==> op in system.performed && !system.aborted
      ensures old(system.aborted) ==> s == Thrown(ExecutionAborted) && system.performed == old(system.performed)
      ensures system.performed <= old(system.performed) + {op} && (old(system.aborted) ==> system.aborted)
      ensures system.fires.Some? && !old(system.aborted) && system.fires.value !in old(system.performed) + {op}
              ==> s.Ok?
    {
      s := ThrowIfAborted();
      if s.IsFailure() {
        return;
      }
      var ok := Ask(op);
      if !ok {
        return ThrownOther;
      }
      s := ThrowIfAborted();
    }

    method RecordRoleSample(r: Role, sample: PortSample, quiescent: bool) returns (code: Option<LifecycleCode>)
      modifies this`ledger
      ensures (ledger, code) == Record(old(ledger), max, r, sample, quiescent)
    {
      if !ValidPortSample(sample) {
        return Some(CounterInvalid);
      }
      if ledger.lastNs.Some? && sample.ns <= ledger.lastNs.value {
        return Some(RawClockInvalid);
      }
      if quiescent && (sample.populated || sample.processes != 0) {
        return Some(RevalidationFailed);
      }
      if r !in ledger.baselines || sample.usage < ledger.baselines[r]
        || (r in ledger.latest && sample.usage < ledger.latest[r]) {
        return Some(CounterInvalid);
      }
      ledger := ledger.(lastNs := Some(sample.ns));
      ledger := ledger.(latest := ledger.latest[r := sample.usage]);
      var total := RecomputeCumulative();
      if total.None? {
        return Some(CounterInvalid);
      }
      ledger := ledger.(samples := ledger.samples
        + [Sample(|ledger.samples|, sample.ns, r, sample.usage, total.value)]);
      return if total.value > max then Some(BudgetExceeded) else None;
    }

    /** The same, with what it keeps; a reading at fault is a trouble. */
    method TakeSample(r: Role, sample: PortSample, quiescent: bool) returns (code: Option<LifecycleCode>)
      requires Sound()
      modifies this`ledger, this`readings, system`troubles
      ensures system.troubles == old(system.troubles) + if code.Some? then [Misread(code.value)] else []
      ensures Sound() && ledger.baselines == old(ledger.baselines) && old(ledger.cumulative) <= ledger.cumulative
      ensures code.None? ==> ledger.cumulative <= max && RolesOf(ledger.samples) == RolesOf(old(ledger.samples)) + [r]
      ensures code == Some(BudgetExceeded) ==> ledger.cumulative > max
      ensures readings == old(readings) + [SampleRead(r, sample, quiescent)]
    {
      code := KeepSample(r, sample, quiescent);
      if code.Some? {
        system.troubles := system.troubles + [Misread(code.value)];
      }
    }

    /** Records a reading, good or not. */
    method KeepSample(r: Role, sample: PortSample, quiescent: bool) returns (code: Option<LifecycleCode>)
      requires Sound()
      modifies this`ledger, this`readings
      ensures Kept() && (if code.None? then ReadingsTold() else !AllGood(readings, max))
      ensures ledger.baselines == old(ledger.baselines) && old(ledger.cumulative) <= ledger.cumulative
      ensures code.None? ==> ledger.cumulative <= max && RolesOf(ledger.samples) == RolesOf(old(ledger.samples)) + [r]
      ensures code == Some(BudgetExceeded) ==> ledger.cumulative > max
      ensures readings == old(readings) + [SampleRead(r, sample, quiescent)]
    {
      ReadingJudged(r, sample, quiescent);
      code := KeepInLedger(r, sample, quiescent);
      readings := readings + [SampleRead(r, sample, quiescent)];
    }

    /** What becomes of the readings when one more is recorded. */
    lemma ReadingJudged(r: Role, sample: PortSample, quiescent: bool)
      requires Sound()
      ensures var (l, code) := Record(ledger, max, r, sample, quiescent);
              var log := readings + [SampleRead(r, sample, quiescent)];
              (AllGood(log, max) ==> Reflects(l, log) && NoMisread(system.troubles))
              && (code.Some? ==> !AllGood(log, max))
              && (code.None? && system.troubles == [] ==> AllGood(log, max))
    {
      GoodAppend(readings, SampleRead(r, sample, quiescent), max);
      if AllGood(readings, max) {
        GoodIsRecorded(ledger, readings, max, r, sample, quiescent);
        if Record(ledger, max, r, sample, quiescent).1.None? {
          SampleReflects(ledger, readings, max, r, sample, quiescent);
        }
      }
    }

    method KeepInLedger(r: Role, sample: PortSample, quiescent: bool) returns (code: Option<LifecycleCode>)
      requires Kept()
      modifies this`ledger
      ensures Kept() && (ledger, code) == Record(old(ledger), max, r, sample, quiescent)
      ensures ledger.baselines == old(ledger.baselines) && old(ledger.cumulative) <= ledger.cumulative
      ensures code.None? ==> ledger.cumulative <= max && RolesOf(ledger.samples) == RolesOf(old(ledger.samples)) + [r]
      ensures code == Some(BudgetExceeded) ==> ledger.cumulative > max
    {
      ghost var before := ledger;
      RecordKeeps(before, max, r, sample, quiescent);
      RecordReports(before, max, r, sample, quiescent);
      RecordedRole(before, max, r, sample, quiescent);
      code := RecordRoleSample(r, sample, quiescent);
      SamplesStayHonest(completed, before.samples, ledger.samples, Told());
    }

    method RecomputeCumulative() returns (sum: Option<int>)
      modifies this`ledger
      ensures Total(old(ledger)) > MAX_UINT64 ==> sum.None? && ledger == old(ledger)
      ensures Total(old(ledger)) <= MAX_UINT64
              ==> sum == Some(Total(old(ledger))) && ledger == old(ledger).(cumulative := sum.value)
    {
      var total := 0;
      for i := 0 to 3
        invariant total == (if i > 0 then Used(ledger, Egress) else 0) + (if i > 1 then Used(ledger, Worker) else 0)
                           + (if i > 2 then Used(ledger, Verifier) else 0)
      {
        var r := ROLES[i];
        if r in ledger.baselines && r in ledger.latest {
          total := total + (ledger.latest[r] - ledger.baselines[r]);
        }
      }
      if total > MAX_UINT64 {
        return None;
      }
      ledger := ledger.(cumulative := total);
      return Some(total);
    }

    /** Samples every active role once, in order; the first trouble ends it. */
    method SampleActiveRoles() returns (s: Status)
      requires Valid() && Calm()
      modifies this`ledger, this`readings, system`aborted, system`performed, system`troubles
      ensures Explains(s)
      ensures Valid() && !s.Fatal? && ledger.baselines == old(ledger.baselines)
              && old(ledger.cumulative) <= ledger.cumulative
      ensures old(system.performed) <= system.performed
      ensures s == Thrown(BudgetExceeded) ==> ledger.cumulative > max
      ensures s.Ok? && old(ledger.cumulative) <= max ==> ledger.cumulative <= max
      ensures s.Ok? ==> RolesOf(ledger.samples) == RolesOf(old(ledger.samples)) + Turns(active, 3)
    {
      s := ThrowIfAborted();
      if s.IsFailure() {
        return;
      }
      for i := 0 to 3
        invariant Valid() && ledger.baselines == old(ledger.baselines) && old(ledger.cumulative) <= ledger.cumulative
        invariant old(system.performed) <= system.performed && system.troubles == []
        invariant old(ledger.cumulative) <= max ==> ledger.cumulative <= max
        invariant RolesOf(ledger.samples) == RolesOf(old(ledger.samples)) + Turns(active, i)
      {
        TurnTaken(RolesOf(old(ledger.samples)), active, i);
        if ROLES[i] in active {
          :- SampleRole(ROLES[i]);
        }
      }
      return Ok;
    }

    /** One reading of an active role, recorded. */
    method SampleRole(r: Role) returns (s: Status)
      requires Valid() && Calm()
      modifies this`ledger, this`readings, system`aborted, system`performed, system`troubles
      ensures Explains(s)
      ensures Valid() && !s.Fatal? && ledger.baselines == old(ledger.baselines)
              && old(ledger.cumulative) <= ledger.cumulative
      ensures old(system.performed) <= system.performed
      ensures s == Thrown(BudgetExceeded) ==> ledger.cumulative > max
      ensures s.Ok? ==> ledger.cumulative <= max && RolesOf(ledger.samples) == RolesOf(old(ledger.samples)) + [r]
    {
      s := ExecutionOperation(ReadSample(r));
      if s.ThrownOther? {
        :- ThrowIfAborted();
        return Thrown(RevalidationFailed);
      }
      if s.IsFailure() {
        return;
      }
      var sample := system.ReadsSample();
      var code := TakeSample(r, sample, false);
      return if code.Some? then Thrown(code.value) else Ok;
    }

    /** Reads and records the role's baseline. */
    method RecordBaseline(r: Role) returns (s: Status)
      requires Valid() && r in started && r !in ledger.baselines
      requires Calm() && |completed| == SetupAt(r) + 2
      modifies this`completed, this`ledger, this`readings, system`aborted, system`performed, system`troubles
      ensures Explains(s)
      ensures Valid() && !s.Fatal? && s != Thrown(BudgetExceeded) && ledger.cumulative == old(ledger.cumulative)
      ensures old(system.performed) <= system.performed
      ensures s.Ok? ==> ledger.baselines.Keys == old(ledger.baselines).Keys + {r} && |completed| == old(|completed|) + 1
    {
      s := ExecutionOperation(ReadBaseline(r));
      if s.IsFailure() {
        return;
      }
      var baseline: int := *;
      if !IsUint64(baseline) {
        MisreadBaseline(r, baseline);
        return Thrown(CounterInvalid);
      }
      KeepBaseline(r, baseline);
      s := Mark(BaselineRecorded(r));
    }

    ghost method MisreadBaseline(r: Role, baseline: int)
      requires Valid() && !IsUint64(baseline)
      modifies this`readings, system`troubles
      ensures Valid() && system.troubles == old(system.troubles) + [Misread(CounterInvalid)]
    {
      GoodAppend(readings, BaselineRead(r, baseline), max);
      readings := readings + [BaselineRead(r, baseline)];
      system.troubles := system.troubles + [Misread(CounterInvalid)];
    }

    method KeepBaseline(r: Role, baseline: int)
      requires Valid() && r in started && r !in ledger.baselines && IsUint64(baseline)
      modifies this`ledger, this`readings
      ensures Valid() && ledger == SetBaseline(old(ledger), r, baseline)
    {
      BaselineKeeps(ledger, r, baseline);
      GoodAppend(readings, BaselineRead(r, baseline), max);
      if AllGood(readings, max) {
        BaselineReflects(ledger, readings, r, baseline);
      }
      readings := readings + [BaselineRead(r, baseline)];
      ledger := SetBaseline(ledger, r, baseline);
    }

    /** An operation, and the stage that it completes. */
    method MarkDone(op: PortOp, stage: Stage, ghost at: nat) returns (s: Status)
      requires Valid() && Calm() && !op.StartHeld? && !op.CleanUp? && !op.ReadSample? && !op.WaitExit?
               && OpsOf(stage) <= system.performed + {op}
      requires |completed| == at == Position(stage) && !stage.EvidenceFinalized?
      modifies this`completed, system`aborted, system`performed, system`troubles
      ensures Valid() && Explains(s) && !s.Fatal? && s != Thrown(BudgetExceeded)
      ensures old(system.performed) <= system.performed
      ensures s.Ok? ==> |completed| == at + 1
    {
      s := ExecutionOperation(op);
      if s.IsFailure() {
        return;
      }
      s := Mark(stage);
    }

    /** The start itself and the look at the signal after it: a start that succeeds counts exactly
        when the signal has not fired, and is lost when it has. */
    method TryStart(r: Role) returns (s: Status)
      requires Valid() && r !in started && r !in cgroupReleased && r !in lost && Calm()
      modifies this`started, this`active, this`lost, system`aborted, system`performed, system`troubles
      ensures Explains(s)
      ensures Valid() && (s.Ok? || s == Thrown(ExecutionAborted) || s == ThrownOther)
      ensures StartHeld(r) !in old(system.performed) && (s.Ok? <==> r in started)
      ensures StartHeld(r) in system.performed <==> s != ThrownOther
      ensures StartHeld(r) in system.performed ==> (r in started <==> !system.aborted)
      ensures system.performed <= old(system.performed) + {StartHeld(r)} && old(system.performed) <= system.performed
      ensures started == if s.Ok? then old(started) + {r} else old(started)
      ensures lost == if s == Thrown(ExecutionAborted) then old(lost) + {r} else old(lost)
      ensures system.fires == Some(StartHeld(r)) ==> s == Thrown(ExecutionAborted)
    {
      assert HonestRole(ledger.samples, Told(), r);
      StartStaysHonest(completed, ledger.samples, Told(), r);
      var ok := system.Perform(StartHeld(r));
      if !ok {
        return ThrownOther;
      }
      var aborted := system.SignalAborted();
      if aborted {
        lost := lost + {r};
        return Thrown(ExecutionAborted);
      }
      started := started + {r};
      active := active + {r};
      return Ok;
    }

    /** Starts one role behind its barrier.  A start that succeeds as the signal fires is lost. */
    method StartRoleHeld(r: Role) returns (s: Status)
      requires Valid() && r !in started && r !in cgroupReleased && r !in lost && Calm()
      modifies this`started, this`active, this`lost, system`aborted, system`performed, system`troubles
      ensures Explains(s)
      ensures Valid() && !s.Fatal? && s != Thrown(BudgetExceeded) && old(system.performed) <= system.performed
      ensures started == old(started) + if s.Ok? then {r} else {}
      ensures s.Ok? ==> StartHeld(r) in system.performed && !system.aborted
      ensures StartHeld(r) !in old(system.performed)
      ensures StartHeld(r) in system.performed ==> (r in started <==> !system.aborted)
      ensures lost == if StartHeld(r) in system.performed && system.aborted then old(lost) + {r} else old(lost)
      ensures lost != old(lost) ==> s == Thrown(ExecutionAborted)
      ensures system.fires == Some(StartHeld(r)) && !old(system.aborted) ==> lost == old(lost) + {r}
      ensures old(system.aborted) ==> s == Thrown(ExecutionAborted) && system.performed == old(system.performed)
    {
      assert HonestRole(ledger.samples, Told(), r);
      s := ThrowIfAborted();
      if s.IsFailure() {
        return;
      }
      s := TryStart(r);
    }

    /** Starts one role and waits until its barrier holds it. */
    method HoldRole(r: Role) returns (s: Status)
      requires Valid() && r !in started && r !in cgroupReleased && r !in lost
      requires Calm() && |completed| == SetupAt(r)
      modifies this`completed, this`started, this`active, this`lost, system`aborted, system`performed, system`troubles
      ensures Explains(s)
      ensures Valid() && !s.Fatal? && s != Thrown(BudgetExceeded)
      ensures started == old(started) || started == old(started) + {r}
      ensures s.Ok? ==> r in started && |completed| == old(|completed|) + 1
      ensures lost == old(lost) || (lost == old(lost) + {r} && s == Thrown(ExecutionAborted) && started == old(started))
      ensures system.fires == Some(StartHeld(r)) && !old(system.aborted) ==> lost == old(lost) + {r}
    {
      s := StartRoleHeld(r);
      if s.IsFailure() {
        return;
      }
      s := MarkDone(WaitHeld(r), Held(r), SetupAt(r));
    }

    /** Starts one role and binds it to its cgroup. */
    method AdmitRole(r: Role) returns (s: Status)
      requires Valid() && r !in started && r !in cgroupReleased && r !in lost
      requires Calm() && |completed| == SetupAt(r)
      modifies this`completed, this`started, this`active, this`lost, system`aborted, system`performed, system`troubles
      ensures Explains(s)
      ensures Valid() && !s.Fatal? && s != Thrown(BudgetExceeded)
      ensures started == old(started) || started == old(started) + {r}
      ensures s.Ok? ==> r in started && |completed| == old(|completed|) + 2
      ensures lost == old(lost) || (lost == old(lost) + {r} && s == Thrown(ExecutionAborted) && started == old(started))
      ensures system.fires == Some(StartHeld(r)) && !old(system.aborted) ==> lost == old(lost) + {r}
    {
      s := HoldRole(r);
      if s.IsFailure() {
        return;
      }
      s := MarkDone(BindCgroup(r), CgroupBound(r), SetupAt(r) + 1);
    }

    method OpenBarrier(r: Role) returns (s: Status)
      requires Valid() && Calm() && |completed| == SetupAt(r) + 3
      modifies this`completed, system`aborted, system`performed, system`troubles
      ensures Valid() && Explains(s) && !s.Fatal? && s != Thrown(BudgetExceeded)
      ensures s.Ok? ==> |completed| == old(|completed|) + 1
    {
      s := MarkDone(ReleaseBarrier(r), BarrierReleased(r), SetupAt(r) + 3);
    }

    /** Starts, binds and baselines one role, then opens its barrier. */
    method SetupRole(r: Role) returns (s: Status)
      requires Valid() && r !in started && r !in cgroupReleased && r !in lost
      requires Calm() && |completed| == SetupAt(r)
      modifies this`completed, this`ledger, this`readings, this`started, this`active, this`lost, system`aborted,
               system`performed,
               system`troubles
      ensures Explains(s)
      ensures Valid() && !s.Fatal? && s != Thrown(BudgetExceeded) && ledger.cumulative == old(ledger.cumulative)
      ensures started == old(started) || started == old(started) + {r}
      ensures s.Ok? ==>
                r in started && ledger.baselines.Keys == old(ledger.baselines).Keys + {r}
                && |completed| == old(|completed|) + 4
      ensures lost == old(lost) || (lost == old(lost) + {r} && s == Thrown(ExecutionAborted) && started == old(started))
      ensures system.fires == Some(StartHeld(r)) && !old(system.aborted) ==> lost == old(lost) + {r}
    {
      s := AdmitRole(r);
      if s.IsFailure() {
        return;
      }
      :- RecordBaseline(r);
      s := OpenBarrier(r);
    }

    /** One poll: the signal, then a round of samples. */
    method Poll(ghost before: seq<Role>, ghost n: nat) returns (s: Status)
      requires Valid() && RolesOf(ledger.samples) == before + Rounds(active, n) && Calm()
      modifies this`ledger, this`readings, system`aborted, system`performed, system`troubles
      ensures Explains(s)
      ensures Valid() && !s.Fatal? && ledger.baselines == old(ledger.baselines)
              && old(ledger.cumulative) <= ledger.cumulative
      ensures old(system.performed) <= system.performed
      ensures s == Thrown(BudgetExceeded) ==> ledger.cumulative > max
      ensures s.Ok? && old(ledger.cumulative) <= max ==> ledger.cumulative <= max
      ensures s.Ok? ==> RolesOf(ledger.samples) == before + Rounds(active, n + 1)
    {
      s := ThrowIfAborted();
      if s.IsFailure() {
        return;
      }
      s := SampleActiveRoles();
      RoundDone(before, active, n);
    }

    /** Polls while the role runs. */
    method SampleWhileRunning(ghost before: seq<Role>, ghost first: nat) returns (s: Status, ghost n: nat)
      requires Valid() && RolesOf(ledger.samples) == before + Rounds(active, first) && Calm()
      modifies this`ledger, this`readings, system`aborted, system`performed, system`troubles
      ensures Explains(s)
      ensures Valid() && !s.Fatal? && ledger.baselines == old(ledger.baselines)
              && old(ledger.cumulative) <= ledger.cumulative
      ensures old(system.performed) <= system.performed
      ensures s == Thrown(BudgetExceeded) ==> ledger.cumulative > max
      ensures s.Ok? && old(ledger.cumulative) <= max ==> ledger.cumulative <= max
      ensures s.Ok? ==> n >= first && RolesOf(ledger.samples) == before + Rounds(active, n)
    {
      s, n := Ok, first;
      var polls: nat := *;
      while polls > 0 && s.Ok?
        invariant Explains(s)
        invariant Valid() && !s.Fatal? && ledger.baselines == old(ledger.baselines)
                  && old(ledger.cumulative) <= ledger.cumulative
        invariant old(system.performed) <= system.performed
        invariant s == Thrown(BudgetExceeded) ==> ledger.cumulative > max
        invariant s.Ok? && old(ledger.cumulative) <= max ==> ledger.cumulative <= max
        invariant s.Ok? ==> n >= first && RolesOf(ledger.samples) == before + Rounds(active, n)
      {
        s := Poll(before, n);
        n := n + 1;
        polls := polls - 1;
      }
    }

    /** The role's exit, as the port reports it. */
    method AwaitExit(r: Role) returns (s: Status)
      requires Valid() && Calm()
      modifies system`aborted, system`performed, system`troubles
      ensures Valid() && Explains(s) && !s.Fatal? && s != Thrown(BudgetExceeded)
      ensures old(system.performed) <= system.performed && (s.Ok? ==> WaitExit(r) in system.performed)
    {
      s := Ok;
      var exited := Ask(WaitExit(r));
      if !exited {
        :- ThrowIfAborted();
        return Thrown(ExecutionFailed);
      }
    }

    /** Polls until the role exits, sampling a whole round before, between and after. */
    method ObserveUntilRoleExit(r: Role) returns (s: Status)
      requires Valid() && Calm()
      modifies this`ledger, this`readings, system`aborted, system`performed, system`troubles
      ensures Explains(s)
      ensures Valid() && !s.Fatal? && ledger.baselines == old(ledger.baselines)
              && old(ledger.cumulative) <= ledger.cumulative
      ensures s == Thrown(BudgetExceeded) ==> ledger.cumulative > max
      ensures s.Ok? && old(ledger.cumulative) <= max ==> ledger.cumulative <= max
      ensures s.Ok? ==> WaitExit(r) in system.performed
                        && exists n: nat | n >= 2 ::
                             RolesOf(ledger.samples) == RolesOf(old(ledger.samples)) + Rounds(active, n)
    {
      ghost var before, n := RolesOf(ledger.samples), 0;
      s := ThrowIfAborted();
      if s.IsFailure() {
        return;
      }
      :- Poll(before, 0);
      s, n := SampleWhileRunning(before, 1);
      if s.IsFailure() {
        return;
      }
      :- AwaitExit(r);
      s := SampleActiveRoles();
      RoundDone(before, active, n);
    }

    /** What the operation itself does when it reads a final sample: records it. */
    method FinalSampleEffect(op: CleanupOp, sample: PortSample) returns (code: Option<LifecycleCode>)
      requires Sound()
      modifies this`ledger, this`readings, system`troubles
      ensures system.troubles == old(system.troubles) + if code.Some? then [Misread(code.value)] else []
      ensures Sound() && ledger.baselines == old(ledger.baselines) && old(ledger.cumulative) <= ledger.cumulative
      ensures !op.FinalSample? ==> ledger == old(ledger) && code.None?
      ensures code.None? && old(ledger.cumulative) <= max ==> ledger.cumulative <= max
      ensures code == Some(BudgetExceeded) ==> ledger.cumulative > max
      ensures op.FinalSample? && code.None? ==> op.role in RolesOf(ledger.samples)
    {
      code := None;
      if op.FinalSample? {
        code := TakeSample(op.role, sample, true);
      }
    }

    /** The operation settles. */
    method SettleCleanup(op: CleanupOp, success: bool)
      requires Sound() && system.unsettled == 1 && (ForStarted(op) ==> op.role in started)
      requires success && op.FinalSample? ==> op.role in RolesOf(ledger.samples)
      modifies system
      ensures Valid() && old(system.performed) <= system.performed && (success ==> CleanUp(op) in system.performed)
      ensures system.troubles == old(system.troubles)
      ensures success && op.ReleaseDocker? ==> op.role in system.dockerGone
      ensures success && op.ReleaseCgroup? ==> op.role in system.cgroupGone
      ensures success && op.StopController? ==> system.controllerGone
    {
      ghost var before := Told();
      system.Settle(op, success);
      SettleStaysHonest(completed, ledger.samples, before, Told(), op);
    }

    method ForceTermination()
      modifies this`failures, this`forceTerminated
      ensures forceTerminated && old(failures) <= failures <= old(failures) + if old(forceTerminated) then 0 else 1
    {
      if !forceTerminated {
        var ok := system.Answers();
        if !ok {
          failures := failures + 1;
        }
        forceTerminated := true;
      }
    }

    /** After a timeout the controller is terminated by force, and the operation has one last
        grace period to settle. */
    method SettleAfterTimeout(op: CleanupOp, sample: PortSample) returns (settled: bool)
      requires Sound() && system.unsettled == 1 && (ForStarted(op) ==> op.role in started)
      modifies this`failures, this`forceTerminated, this`ledger, this`readings, system
      ensures if settled then Valid() && failures > old(failures) else system.unsettled > 0
      ensures ledger.baselines == old(ledger.baselines) && WellKept(ledger)
              && old(ledger.cumulative) <= ledger.cumulative
      ensures failures >= old(failures) && (!op.FinalSample? ==> ledger == old(ledger))
              && old(system.performed) <= system.performed && old(system.troubles) <= system.troubles
    {
      ForceTermination();
      settled := system.Answers();
      if !settled {
        return;
      }
      var late := system.Answers();
      if late {
        var _ := FinalSampleEffect(op, sample);
      }
      CountFailure(op);
    }

    /** The operation settles as a failure of the cleanup. */
    method CountFailure(op: CleanupOp)
      requires Sound() && system.unsettled == 1 && (ForStarted(op) ==> op.role in started)
      modifies this`failures, system
      ensures Valid() && failures == old(failures) + 1 && system.troubles == old(system.troubles)
      ensures old(system.performed) <= system.performed
    {
      SettleCleanup(op, false);
      failures := failures + 1;
    }

    /** A cleanup succeeds when nothing goes wrong; a reading at fault fails with its code, and any
        other trouble comes with the failure of the cleanup itself. */
    ghost predicate CleanupTold(op: CleanupOp, result: CleanupResult, was: seq<Trouble>)
      reads system`troubles
    {
      was <= system.troubles && (result.Success? <==> system.troubles == was)
      && (result.LifecycleFailure? ==> system.troubles == was + [Misread(result.code)])
      && (result.Failure? || result.Unsettled? ==>
            |was| < |system.troubles| && system.troubles[|was|] == CleanupFailed(op))
      && (result.Failure? <==> CleanupFails(system.troubles, |was|) && !result.Unsettled?)
      && (CleanupFails(system.troubles, |was|) || |system.troubles| <= |was| + 1)
    }

    /** A step of a cleanup: with no new trouble nothing fails; with one, the code of that is thrown,
        or a failure is recorded and the code is the vague one. */
    ghost predicate StepTold(s: Status, was: seq<Trouble>, before: nat)
      reads this`failures, system`troubles
    {
      was <= system.troubles && (system.troubles == was
        ==> failures == before && !s.Fatal? && s.Code().OperationFailed?)
      && (system.troubles != was && s.Ok? ==> failures > before)
      && (!s.Fatal? ==> (failures > before <==> CleanupFails(system.troubles, |was|)))
      && (!s.Fatal? ==> CleanupFails(system.troubles, |was|) || |system.troubles| <= |was| + 1)
      && (|system.troubles| == |was| + 1 && !s.Fatal? ==>
            var t := system.troubles[|was|];
            match t
            case Misread(code) => s == Thrown(code)
            case CleanupFailed(_) => s.Code().OperationFailed?
            case _ => false)
    }

    /** One cleanup operation, raced against its timeout. */
    method RunIndependentCleanup(op: CleanupOp) returns (result: CleanupResult)
      requires Valid() && (ForStarted(op) ==> op.role in started)
      modifies this`failures, this`forceTerminated, this`ledger, this`readings, system
      ensures if result.Unsettled? then system.unsettled > 0 else Valid()
      ensures ledger.baselines == old(ledger.baselines) && WellKept(ledger)
              && old(ledger.cumulative) <= ledger.cumulative
      ensures result == LifecycleFailure(BudgetExceeded) ==> ledger.cumulative > max
      ensures failures >= old(failures) && (result.Failure? ==> failures > old(failures))
      ensures result.Success? || result.LifecycleFailure? ==> failures == old(failures)
      ensures result.LifecycleFailure? ==> op.FinalSample?
      ensures !op.FinalSample? ==> ledger == old(ledger)
      ensures result.Success? && old(ledger.cumulative) <= max ==> ledger.cumulative <= max
      ensures result.Success? && op.ReleaseDocker? ==> op.role in system.dockerGone
      ensures result.Success? && op.ReleaseCgroup? ==> op.role in system.cgroupGone
      ensures result.Success? && op.StopController? ==> system.controllerGone
      ensures old(system.performed) <= system.performed && (result.Success? ==> CleanUp(op) in system.performed)
      ensures system.fires.Some? && !op.FinalSample? ==> result.Success?
      ensures CleanupTold(op, result, old(system.troubles))
    {
      system.Begin();
      var sample := system.ReadsSample();
      var first := system.FirstOutcome(op);
      if first == TimedOut {
        var settled := SettleAfterTimeout(op, sample);
        return if settled then Failure else Unsettled;
      }
      if first == Rejected {
        CountFailure(op);
        return Failure;
      }
      var code := SettleInTime(op, sample);
      return if code.Some? then LifecycleFailure(code.value) else Success;
    }

    /** The operation settles before its timeout; it fails only for a final reading at fault. */
    method SettleInTime(op: CleanupOp, sample: PortSample) returns (code: Option<LifecycleCode>)
      requires Sound() && system.unsettled == 1 && (ForStarted(op) ==> op.role in started)
      modifies this`ledger, this`readings, system
      ensures Valid() && ledger.baselines == old(ledger.baselines) && old(ledger.cumulative) <= ledger.cumulative
      ensures system.troubles == old(system.troubles) + if code.Some? then [Misread(code.value)] else []
      ensures !op.FinalSample? ==> ledger == old(ledger) && code.None?
      ensures code.None? && old(ledger.cumulative) <= max ==> ledger.cumulative <= max
      ensures code == Some(BudgetExceeded) ==> ledger.cumulative > max
      ensures old(system.performed) <= system.performed && (code.None? ==> CleanUp(op) in system.performed)
      ensures code.None? && op.ReleaseDocker? ==> op.role in system.dockerGone
      ensures code.None? && op.ReleaseCgroup? ==> op.role in system.cgroupGone
      ensures code.None? && op.StopController? ==> system.controllerGone
    {
      code := FinalSampleEffect(op, sample);
      SettleCleanup(op, code.None?);
    }

    method ReleaseRoleDocker(r: Role, record: bool) returns (s: Status)
      requires Valid()
      modifies this`failures, this`forceTerminated, this`ledger, this`readings, this`completed, this`dockerReleased,
               system
      ensures if s.Fatal? then system.unsettled > 0 else Valid()
      ensures s.Ok? || s.Fatal? || s == Thrown(OperationFailed)
      ensures ledger == old(ledger) && failures >= old(failures)
              && old(dockerReleased) <= dockerReleased <= old(dockerReleased) + {r}
      ensures old(system.performed) <= system.performed
      ensures s.Ok? && failures == old(failures) ==>
                r in dockerReleased
                && |completed| == old(|completed|) + if record && r !in old(dockerReleased) then 1 else 0
      ensures !record ==> (s.Ok? || s.Fatal?) && completed == old(completed)
      ensures system.fires.Some? && !record ==> s.Ok? && failures == old(failures)
      ensures StepTold(s, old(system.troubles), old(failures))
      ensures system.troubles == old(system.troubles)
              && (record ==> r in old(dockerReleased) || old(|completed|) == CleanupAt(r) + 1) ==>
                s.Ok?
    {
      if r !in dockerReleased {
        var released := RunIndependentCleanup(ReleaseDocker(r));
        if released.Unsettled? {
          return Fatal;
        }
        if released.Success? {
          NoteDockerReleased(r);
          if record {
            :- Mark(DockerReleased(r));
          }
        }
      }
      return Ok;
    }

    method NoteDockerReleased(r: Role)
      requires Valid() && r in system.dockerGone
      modifies this`dockerReleased
      ensures Valid() && dockerReleased == old(dockerReleased) + {r}
    {
      dockerReleased := dockerReleased + {r};
    }

    method ReleaseRoleCgroup(r: Role, record: bool) returns (s: Status)
      requires Valid() && r in started && (CleanUp(StopRole(r)) in system.performed || failures > 0)
      modifies this`failures, this`forceTerminated, this`ledger, this`readings, this`completed, this`cgroupReleased,
               this`active,
               system
      ensures if s.Fatal? then system.unsettled > 0 else Valid()
      ensures s.Ok? || s.Fatal? || s == Thrown(OperationFailed)
      ensures ledger == old(ledger) && failures >= old(failures)
              && old(cgroupReleased) <= cgroupReleased <= old(cgroupReleased) + {r}
      ensures old(system.performed) <= system.performed
      ensures s.Ok? && failures == old(failures) ==>
                r in cgroupReleased
                && |completed| == old(|completed|) + if record && r !in old(cgroupReleased) then 1 else 0
      ensures !record ==> (s.Ok? || s.Fatal?) && completed == old(completed)
      ensures StepTold(s, old(system.troubles), old(failures))
      ensures system.troubles == old(system.troubles)
              && (record ==> r in old(cgroupReleased) || old(|completed|) == CleanupAt(r) + 2) ==>
                s.Ok?
    {
      if r !in cgroupReleased {
        var released := RunIndependentCleanup(ReleaseCgroup(r));
        if released.Unsettled? {
          return Fatal;
        }
        if released.Success? {
          NoteCgroupReleased(r);
          if record {
            :- Mark(CgroupReleased(r));
          }
        }
      }
      return Ok;
    }

    method NoteCgroupReleased(r: Role)
      requires Valid() && r in system.cgroupGone && CleanUp(ReleaseCgroup(r)) in system.performed
      requires CleanUp(StopRole(r)) in system.performed || failures > 0
      modifies this`cgroupReleased, this`active
      ensures Valid() && cgroupReleased == old(cgroupReleased) + {r}
    {
      cgroupReleased := cgroupReleased + {r};
      active := active - {r};
    }

    /** What stopping and sampling a role comes to, by what went wrong. */
    ghost predicate StopTold(r: Role, settled: bool, sampled: bool, terminal: Option<LifecycleCode>, was: seq<Trouble>,
                             before: nat)
      reads this`failures, this`ledger, this`readings, system`troubles
    {
      was <= system.troubles
      && (system.troubles == was ==>
            settled && failures == before && terminal.None? && (r in ledger.baselines ==> sampled))
      && (system.troubles != was && settled && terminal.None? ==> failures > before)
      && (settled ==> (failures > before <==> CleanupFails(system.troubles, |was|)))
      && (settled ==> CleanupFails(system.troubles, |was|) || |system.troubles| <= |was| + 1)
      && (|system.troubles| == |was| + 1 && settled ==>
            var t := system.troubles[|was|];
            match t
            case Misread(code) => terminal == Some(code)
            case CleanupFailed(_) => terminal.None?
            case _ => false)
    }

    /** Stops the role and, once it has a baseline, records its final quiescent sample. */
    method StopAndSample(r: Role) returns (settled: bool, sampled: bool, terminal: Option<LifecycleCode>)
      requires Valid() && r in started
      modifies this`failures, this`forceTerminated, this`ledger, this`readings, system
      ensures if settled then Valid() else system.unsettled > 0
      ensures WellKept(ledger) && ledger.baselines == old(ledger.baselines) && failures >= old(failures)
      ensures old(ledger.cumulative) <= ledger.cumulative
      ensures terminal == Some(BudgetExceeded) ==> ledger.cumulative > max
      ensures settled && failures == old(failures) && r in ledger.baselines ==> sampled || terminal.Some?
      ensures sampled ==> StoppedOps(r) <= system.performed
      ensures settled ==> CleanUp(StopRole(r)) in system.performed || failures > 0
      ensures settled && failures == old(failures) && terminal.None? && old(ledger.cumulative) <= max
              ==> ledger.cumulative <= max
      ensures StopTold(r, settled, sampled, terminal, old(system.troubles), old(failures))
    {
      terminal, sampled := None, false;
      var stopped := RunIndependentCleanup(StopRole(r));
      if stopped.Unsettled? {
        return false, false, None;
      }
      if stopped.Success? && r in ledger.baselines {
        var final := RunIndependentCleanup(FinalSample(r));
        if final.Unsettled? {
          return false, false, None;
        }
        terminal := if final.LifecycleFailure? then Some(final.code) else None;
        sampled := final.Success?;
      }
      settled := true;
    }

    /** The role's stop on record, then both releases. */
    method ReleaseRole(r: Role, record: bool) returns (s: Status)
      requires Valid() && r in started && (record ==> StoppedOps(r) <= system.performed)
      requires CleanUp(StopRole(r)) in system.performed || failures > 0
      modifies this`failures, this`forceTerminated, this`ledger, this`readings, this`completed, this`dockerReleased,
               this`cgroupReleased, this`active, system
      ensures if s.Fatal? then system.unsettled > 0 else Valid()
      ensures s.Ok? || s.Fatal? || s == Thrown(OperationFailed)
      ensures ledger == old(ledger) && failures >= old(failures)
      ensures old(dockerReleased) <= dockerReleased <= old(dockerReleased) + {r}
      ensures old(cgroupReleased) <= cgroupReleased <= old(cgroupReleased) + {r}
      ensures s.Ok? && failures == old(failures) ==> r in dockerReleased && r in cgroupReleased
      ensures !record ==> (s.Ok? || s.Fatal?) && completed == old(completed)
      ensures s.Ok? && record && failures == old(failures) && r !in old(dockerReleased) + old(cgroupReleased) ==>
                |completed| == old(|completed|) + 3
      ensures StepTold(s, old(system.troubles), old(failures))
      ensures system.troubles == old(system.troubles)
              && (record ==> old(|completed|) == CleanupAt(r) && r !in old(dockerReleased) + old(cgroupReleased)) ==>
                s.Ok?
    {
      if record {
        :- Mark(StoppedOrContained(r));
      }
      :- ReleaseRoleDocker(r, record);
      s := ReleaseRoleCgroup(r, record);
    }

    predicate Gone(r: Role)
      reads this`dockerReleased, this`cgroupReleased, this`started
    {
      r in dockerReleased && (r in started ==> r in cgroupReleased)
    }

    /** The cleanup of a role that was started. */
    method CleanupStarted(r: Role, record: bool) returns (s: Status)
      requires Valid() && r in started
      modifies this`failures, this`forceTerminated, this`ledger, this`readings, this`completed, this`dockerReleased,
               this`cgroupReleased, this`active, system
      ensures if s.Fatal? then system.unsettled > 0 else Valid()
      ensures WellKept(ledger) && ledger.baselines == old(ledger.baselines) && failures >= old(failures)
      ensures old(ledger.cumulative) <= ledger.cumulative
      ensures old(dockerReleased) <= dockerReleased <= old(dockerReleased) + {r}
      ensures old(cgroupReleased) <= cgroupReleased <= old(cgroupReleased) + {r}
      ensures s == Thrown(BudgetExceeded) ==> ledger.cumulative > max
      ensures !s.Fatal? && (s.Ok? || !record) && failures == old(failures) ==> Gone(r)
      ensures s.Ok? && failures == old(failures) && old(ledger.cumulative) <= max ==> ledger.cumulative <= max
      ensures !record ==> completed == old(completed)
      ensures s.Ok? && record && failures == old(failures) && r in old(active) && r !in old(dockerReleased)
              && r in ledger.baselines ==>
                |completed| == old(|completed|) + 3
      ensures StepTold(s, old(system.troubles), old(failures))
      ensures system.troubles == old(system.troubles)
              && (record ==>
                    old(|completed|) == CleanupAt(r) && r in ledger.baselines
                    && r !in old(dockerReleased) + old(cgroupReleased)) ==>
                s.Ok?
    {
      s := Ok;
      var settled, sampled, terminal := StopAndSample(r);
      if !settled {
        return Fatal;
      }
      :- ReleaseRole(r, sampled && terminal.None? && record);
      if terminal.Some? {
        return Thrown(terminal.value);
      }
    }

    /** Stops one role, takes its final sample and releases what it holds, whatever fails on
        the way.  When no failure is recorded, nothing of the role is left. */
    method CleanupRole(r: Role, record: bool) returns (s: Status)
      requires Valid()
      modifies this`failures, this`forceTerminated, this`ledger, this`readings, this`completed, this`dockerReleased,
               this`cgroupReleased, this`active, system
      ensures if s.Fatal? then system.unsettled > 0 else Valid()
      ensures WellKept(ledger) && ledger.baselines == old(ledger.baselines) && failures >= old(failures)
      ensures old(ledger.cumulative) <= ledger.cumulative
      ensures old(dockerReleased) <= dockerReleased <= old(dockerReleased) + {r}
      ensures old(cgroupReleased) <= cgroupReleased <= old(cgroupReleased) + {r}
      ensures s == Thrown(BudgetExceeded) ==> ledger.cumulative > max
      ensures !s.Fatal? && (s.Ok? || !record) && failures == old(failures) ==> Gone(r)
      ensures s.Ok? && failures == old(failures) && old(ledger.cumulative) <= max ==> ledger.cumulative <= max
      ensures !record ==> completed == old(completed)
      ensures s.Ok? && record && failures == old(failures) && r in old(active) && r !in old(dockerReleased)
              && r in ledger.baselines ==>
                |completed| == old(|completed|) + 3
      ensures system.fires.Some? && r !in started && !record ==> s.Ok? && failures == old(failures)
      ensures StepTold(s, old(system.troubles), old(failures))
      ensures system.troubles == old(system.troubles)
              && (record ==>
                    old(|completed|) == CleanupAt(r) && r in ledger.baselines
                    && r !in old(dockerReleased) + old(cgroupReleased)) ==>
                s.Ok?
    {
      if r !in started {
        s := ReleaseRoleDocker(r, false);
        return;
      }
      if r !in active && r in dockerReleased && r in cgroupReleased {
        return Ok;
      }
      s := CleanupStarted(r, record);
    }

    method StopTheController(record: bool) returns (s: Status)
      requires Valid()
      modifies this`failures, this`forceTerminated, this`ledger, this`readings, this`completed, this`controllerStopped,
               system
      ensures if s.Fatal? then system.unsettled > 0 else Valid()
      ensures s.Ok? || s.Fatal? || s == Thrown(OperationFailed)
      ensures ledger == old(ledger) && failures >= old(failures)
      ensures !s.Fatal? && failures == old(failures) ==> controllerStopped
      ensures s.Ok? && record && controllerStopped && !old(controllerStopped) ==> |completed| == old(|completed|) + 1
      ensures !record ==> (s.Ok? || s.Fatal?) && completed == old(completed)
      ensures system.fires.Some? && !record ==> s.Ok? && failures == old(failures)
      ensures StepTold(s, old(system.troubles), old(failures))
      ensures system.troubles == old(system.troubles)
              && (record ==> old(controllerStopped) || old(|completed|) == 26) ==>
                s.Ok?
    {
      if controllerStopped {
        return Ok;
      }
      var stopped := RunIndependentCleanup(StopController);
      if stopped.Unsettled? {
        return Fatal;
      }
      if stopped.Success? {
        controllerStopped := true;
        if record {
          :- Mark(ControllerStoppedStage);
        }
      }
      return Ok;
    }

    /** The containers, then egress behind its open barrier. */
    method SetUpEgress() returns (s: Status)
      requires Calm()
      requires Valid() && |completed| == 2 && ledger == NEW_LEDGER && started == cgroupReleased == lost == {}
      modifies this`ledger, this`readings, this`completed, this`active, this`started, this`lost, system`aborted,
               system`performed, system`troubles
      ensures Explains(s)
      ensures Valid() && !s.Fatal? && s != Thrown(BudgetExceeded) && ledger.cumulative == 0
      ensures s.Ok? ==> |completed| == 7 && started == ledger.baselines.Keys == {Egress} && lost == {}
      ensures lost != {} ==> s == Thrown(ExecutionAborted)
      ensures system.fires == Some(StartHeld(Egress)) && !old(system.aborted) && old(system.performed) == {} ==>
                lost == {Egress} && started == {} && !s.Ok?
    {
      s := CreateAll();
      if s.IsFailure() {
        return;
      }
      s := SetupRole(Egress);
    }

    method CreateAll() returns (s: Status)
      requires Calm() && Valid() && |completed| == 2
      modifies this`completed, system`aborted, system`performed, system`troubles
      ensures Explains(s) && Valid() && !s.Fatal? && s != Thrown(BudgetExceeded) && (s.Ok? ==> |completed| == 3)
      ensures system.fires == Some(StartHeld(Egress)) && !old(system.aborted) && old(system.performed) == {} ==>
                s.Ok? && !system.aborted
    {
      s := ExecutionOperation(CreateContainers);
      if s.IsFailure() {
        return;
      }
      s := Mark(OwnedContainersCreated);
    }

    /** The containers, then egress and worker behind open barriers. */
    method SetUpPair() returns (s: Status)
      requires Calm()
      requires Valid() && |completed| == 2 && ledger == NEW_LEDGER && started == cgroupReleased == lost == {}
      modifies this`ledger, this`readings, this`completed, this`active, this`started, this`lost, system`aborted,
               system`performed, system`troubles
      ensures Explains(s)
      ensures Valid() && !s.Fatal? && s != Thrown(BudgetExceeded) && ledger.cumulative == 0
      ensures s.Ok? ==> |completed| == 11 && started == ledger.baselines.Keys == {Egress, Worker}
      ensures lost != {} ==> s == Thrown(ExecutionAborted)
      ensures system.fires == Some(StartHeld(Egress)) && !old(system.aborted) && old(system.performed) == {} ==>
                lost == {Egress} && started == {}
    {
      s := SetUpEgress();
      if s.IsFailure() {
        return;
      }
      s := SetupRole(Worker);
    }

    /** A running role, until its exit is observed. */
    method WatchRole(r: Role) returns (s: Status)
      requires Valid() && Calm() && |completed| == Position(ExecutionObserved(r)) && !r.Egress?
      modifies this`ledger, this`readings, this`completed, system`aborted, system`performed, system`troubles
      ensures Explains(s)
      ensures Valid() && !s.Fatal? && (s == Thrown(BudgetExceeded) ==> ledger.cumulative > max)
      ensures ledger.baselines == old(ledger.baselines)
      ensures s.Ok? ==>
                |completed| == old(|completed|) + 1 && (old(ledger.cumulative) <= max ==> ledger.cumulative <= max)
    {
      s := ObserveUntilRoleExit(r);
      if s.IsFailure() {
        return;
      }
      s := Mark(ExecutionObserved(r));
    }

    /** Egress and worker, until the worker's exit is observed. */
    method StartWorker() returns (s: Status)
      requires Calm()
      requires Valid() && |completed| == 2 && ledger == NEW_LEDGER && started == cgroupReleased == lost == {}
      modifies this`ledger, this`readings, this`completed, this`active, this`started, this`lost, system`aborted,
               system`performed, system`troubles
      ensures Explains(s)
      ensures Valid() && !s.Fatal? && (s == Thrown(BudgetExceeded) ==> ledger.cumulative > max)
      ensures s.Ok? ==>
                |completed| == 12 && ledger.cumulative <= max && started == ledger.baselines.Keys == {Egress, Worker}
      ensures lost != {} ==> s == Thrown(ExecutionAborted)
      ensures system.fires == Some(StartHeld(Egress)) && !old(system.aborted) && old(system.performed) == {} ==>
                lost == {Egress} && started == {}
    {
      s := SetUpPair();
      if s.IsFailure() {
        return;
      }
      s := WatchRole(Worker);
    }

    method FinishWorker() returns (s: Status)
      requires Calm()
      requires Valid() && |completed| == 12 && failures == 0 && started == ledger.baselines.Keys == {Egress, Worker}
      requires cgroupReleased == dockerReleased == {} && ledger.cumulative <= max
      modifies this`failures, this`forceTerminated, this`ledger, this`readings, this`completed, this`dockerReleased,
               this`cgroupReleased, this`active, system
      ensures Explains(s)
      ensures if s.Fatal? then system.unsettled > 0 else Valid()
      ensures WellKept(ledger) && (s == Thrown(BudgetExceeded) ==> ledger.cumulative > max)
      ensures s.Ok? ==>
                failures == 0 && |completed| == 18 && ledger.cumulative <= max
                && dockerReleased == cgroupReleased == started == {Egress, Worker}
    {
      var before := failures;
      :- CleanupRole(Worker, true);
      :- CleanupRole(Egress, true);
      if failures != before {
        return Thrown(OperationFailed);
      }
      return Ok;
    }

    method StartVerifier() returns (s: Status)
      requires Calm()
      requires Valid() && |completed| == 18 && lost == {} && cgroupReleased == started == {Egress, Worker}
               && ledger.cumulative <= max
      modifies this`ledger, this`readings, this`completed, this`active, this`started, this`lost, system`aborted,
               system`performed, system`troubles
      ensures Explains(s)
      ensures Valid() && !s.Fatal? && (s == Thrown(BudgetExceeded) ==> ledger.cumulative > max)
      ensures s.Ok? ==>
                |completed| == 23 && ledger.cumulative <= max && started == {Egress, Worker, Verifier}
                && Verifier in ledger.baselines
      ensures lost != {} ==> s == Thrown(ExecutionAborted)
    {
      s := SetupRole(Verifier);
      if s.IsFailure() {
        return;
      }
      s := WatchRole(Verifier);
    }

    /** The verifier's cleanup and the controller's stop. */
    method FinishRun() returns (s: Status)
      requires Calm()
      requires Valid() && |completed| == 23 && failures == 0 && started == {Egress, Worker, Verifier}
               && Verifier in ledger.baselines
      requires dockerReleased == cgroupReleased == {Egress, Worker} && ledger.cumulative <= max && !controllerStopped
      modifies this`failures, this`forceTerminated, this`ledger, this`readings, this`completed, this`dockerReleased,
               this`cgroupReleased, this`active, this`controllerStopped, system
      ensures Explains(s)
      ensures if s.Fatal? then system.unsettled > 0 else Valid()
      ensures WellKept(ledger) && (s == Thrown(BudgetExceeded) ==> ledger.cumulative > max)
      ensures s.Ok? ==>
                failures == 0 && |completed| == 27 && ledger.cumulative <= max && controllerStopped
                && dockerReleased == cgroupReleased == started
    {
      var before := failures;
      :- CleanupRole(Verifier, true);
      if failures != before {
        return Thrown(OperationFailed);
      }
      :- StopTheController(true);
      if failures > 0 || !controllerStopped {
        return Thrown(OperationFailed);
      }
      return Ok;
    }

    /** Egress and worker, from setup to release. */
    method RunWorker() returns (s: Status)
      requires Calm()
      requires Valid() && |completed| == 2 && failures == 0 && ledger == NEW_LEDGER
      requires started == cgroupReleased == dockerReleased == lost == {}
      modifies this`failures, this`forceTerminated, this`ledger, this`readings, this`completed, this`dockerReleased,
               this`cgroupReleased, this`active, this`started, this`lost, system
      ensures Explains(s)
      ensures if s.Fatal? then system.unsettled > 0 else Valid()
      ensures WellKept(ledger) && (s == Thrown(BudgetExceeded) ==> ledger.cumulative > max)
      ensures s.Ok? ==>
                failures == 0 && |completed| == 18 && ledger.cumulative <= max
                && dockerReleased == cgroupReleased == started == {Egress, Worker}
      ensures lost != {} ==> s == Thrown(ExecutionAborted)
      ensures system.fires == Some(StartHeld(Egress)) && !old(system.aborted) && old(system.performed) == {} ==>
                lost == {Egress} && started == {} && failures == 0
    {
      s := StartWorker();
      if s.IsFailure() {
        return;
      }
      s := FinishWorker();
    }

    /** The verifier, from setup to release, and the controller's stop. */
    method RunVerifier() returns (s: Status)
      requires Calm()
      requires Valid() && |completed| == 18 && lost == {} && dockerReleased == cgroupReleased == started
               && started == {Egress, Worker} && ledger.cumulative <= max && !controllerStopped
      modifies this`failures, this`forceTerminated, this`ledger, this`readings, this`completed, this`dockerReleased,
               this`cgroupReleased, this`active, this`started, this`lost, this`controllerStopped, system
      ensures Explains(s)
      ensures if s.Fatal? then system.unsettled > 0 else Valid()
      ensures WellKept(ledger) && (s == Thrown(BudgetExceeded) ==> ledger.cumulative > max)
      ensures s.Ok? ==>
                failures == 0 && |completed| == 27 && ledger.cumulative <= max && controllerStopped
                && dockerReleased == cgroupReleased == started == {Egress, Worker, Verifier}
      ensures lost != {} ==> s == Thrown(ExecutionAborted)
    {
      s := StartVerifier();
      if s.IsFailure() {
        return;
      }
      s := FinishRun();
    }

    /** The whole run but its failure handling. */
    method Execute() returns (s: Status)
      requires Calm()
      requires Valid() && |completed| == 2 && failures == 0 && ledger == NEW_LEDGER && !controllerStopped
      requires started == cgroupReleased == dockerReleased == lost == {}
      modifies this`failures, this`forceTerminated, this`ledger, this`readings, this`completed, this`dockerReleased,
               this`cgroupReleased, this`active, this`started, this`lost, this`controllerStopped, system
      ensures Explains(s)
      ensures if s.Fatal? then system.unsettled > 0 else Valid()
      ensures WellKept(ledger) && (s == Thrown(BudgetExceeded) ==> ledger.cumulative > max)
      ensures s.Ok? ==>
                failures == 0 && |completed| == 27 && ledger.cumulative <= max && controllerStopped
                && dockerReleased == cgroupReleased == started == {Egress, Worker, Verifier}
      ensures lost != {} ==> s == Thrown(ExecutionAborted)
      ensures system.fires == Some(StartHeld(Egress)) && !old(system.aborted) && old(system.performed) == {} ==>
                lost == {Egress} && started == {} && failures == 0
    {
      s := RunWorker();
      if s.IsFailure() {
        return;
      }
      s := RunVerifier();
    }

    /** What the failure path comes to: it counts what happened, and without a failed cleanup it
        replaces a vague code exactly by a budget that was passed. */
    ghost predicate FailureTold(was: seq<Trouble>, before: nat, reported: LifecycleCode, code: LifecycleCode)
      reads this`failures, system`troubles
    {
      was <= system.troubles && before <= failures && (failures > before <==> Counts(system.troubles, |was|))
      && (!CleanupFails(system.troubles, |was|) ==>
            OnlyMisread(system.troubles, |was|)
            && code == if reported.OperationFailed? && Overspends(system.troubles, |was|) then BudgetExceeded
                       else reported)
    }

    /** Counts a cleanup that threw, but for an over-budget reading, which replaces a vaguer code. */
    method CountCleaned(cleaned: Status, reported: LifecycleCode, ghost was: seq<Trouble>, ghost before: nat)
      returns (code: LifecycleCode)
      requires Valid() && !cleaned.Fatal? && StepTold(cleaned, was, before) && before <= failures
      requires cleaned == Thrown(BudgetExceeded) ==> ledger.cumulative > max
      requires system.troubles == was ==> cleaned.Ok?
      modifies this`failures
      ensures Valid() && FailureTold(was, before, reported, code) && old(failures) <= failures
      ensures code == reported || (reported.OperationFailed? && code.BudgetExceeded? && ledger.cumulative > max)
      ensures cleaned.Ok? ==> failures == old(failures)
    {
      code := reported;
      if cleaned == Thrown(BudgetExceeded) {
        if code == OperationFailed {
          code := BudgetExceeded;
        }
      } else if cleaned.IsFailure() {
        failures := failures + 1;
      }
    }

    /** One role's cleanup on the failure path. */
    method CleanUpAfterFailure(r: Role, reported: LifecycleCode) returns (settled: bool, code: LifecycleCode)
      requires Valid()
      modifies this`failures, this`forceTerminated, this`ledger, this`readings, this`completed, this`dockerReleased,
               this`cgroupReleased, this`active, system
      ensures WellKept(ledger) && completed == old(completed) && failures >= old(failures)
      ensures if settled then Valid() else system.unsettled > 0
      ensures settled && failures == old(failures) ==> Gone(r)
      ensures old(dockerReleased) <= dockerReleased && old(cgroupReleased) <= cgroupReleased
      ensures old(ledger.cumulative) <= ledger.cumulative
      ensures code == reported || (reported.OperationFailed? && code.BudgetExceeded? && ledger.cumulative > max)
      ensures system.fires.Some? && r !in started ==> settled && failures == old(failures)
      ensures old(system.troubles) <= system.troubles
      ensures system.troubles == old(system.troubles) ==> settled && failures == old(failures) && code == reported
      ensures settled ==> FailureTold(old(system.troubles), old(failures), reported, code)
    {
      code := reported;
      if r in active || r !in dockerReleased || (r in started && r !in cgroupReleased) {
        var cleaned := CleanupRole(r, false);
        if cleaned.Fatal? {
          return false, code;
        }
        code := CountCleaned(cleaned, reported, old(system.troubles), old(failures));
      }
      settled := true;
    }

    /** The failure path: every role is cleaned up, whatever else fails, and the controller is
        stopped.  Returns the code to report, or None when a cleanup never settled. */
    method HandleFailure(first: LifecycleCode) returns (code: Option<LifecycleCode>)
      requires Valid()
      modifies this`failures, this`forceTerminated, this`ledger, this`readings, this`completed, this`dockerReleased,
               this`cgroupReleased, this`active, this`controllerStopped, system
      ensures WellKept(ledger) && completed == old(completed)
      ensures (first.BudgetExceeded? ==> old(ledger.cumulative) > max) && code == Some(BudgetExceeded)
              ==> ledger.cumulative > max
      ensures if code.Some? then Valid() else system.unsettled > 0
      ensures code.Some? && failures == 0
              ==> {Egress, Worker, Verifier} <= dockerReleased && started <= cgroupReleased && controllerStopped
      ensures code.Some? && code.value != first ==> first.OperationFailed? && code.value.BudgetExceeded?
      ensures system.fires.Some? && started == {} ==> code.Some? && failures == old(failures)
      ensures old(system.troubles) <= system.troubles
      ensures system.troubles == old(system.troubles) ==> code == Some(first) && failures == old(failures)
      ensures code.Some? ==> FailureTold(old(system.troubles), old(failures), first, code.value)
    {
      var reported := first;
      for i := 0 to 3
        invariant Valid() && completed == old(completed)
        invariant failures == 0 ==> (i > 0 ==> Gone(Verifier)) && (i > 1 ==> Gone(Worker)) && (i > 2 ==> Gone(Egress))
        invariant old(ledger.cumulative) <= ledger.cumulative && old(system.troubles) <= system.troubles
        invariant system.troubles == old(system.troubles) ==> reported == first && failures == old(failures)
        invariant (first.BudgetExceeded? ==> old(ledger.cumulative) > max) && reported.BudgetExceeded?
                  ==> ledger.cumulative > max
        invariant system.fires.Some? && started == {} ==> failures == old(failures)
        invariant reported != first ==> first.OperationFailed? && reported.BudgetExceeded?
        invariant FailureTold(old(system.troubles), old(failures), first, reported)
      {
        ghost var mid := system.troubles;
        var settled: bool;
        settled, reported := CleanUpAfterFailure(ROLES[2 - i], reported);
        if !settled {
          return None;
        }
        TroublesSplit(old(system.troubles), mid, system.troubles);
      }
      ThreeRoles(started);
      ghost var mid := system.troubles;
      var stopped := StopTheController(false);
      if stopped.Fatal? {
        return None;
      }
      TroublesSplit(old(system.troubles), mid, system.troubles);
      return Some(reported);
    }

    /** What a run that is done can tell. */
    lemma DoneTold()
      requires Valid() && |completed| == 27 && failures == 0 && started == cgroupReleased == {Egress, Worker, Verifier}
               && ledger.cumulative <= max
      ensures completed == STAGES[..27] && |STAGES| == 28 && (forall r :: r in RolesOf(ledger.samples))
      ensures forall r | r in lost :: Abandoned(Told(), r)
      ensures forall r :: StartHeld(r) in system.performed <==> r in started || r in lost
      ensures AllLetGo(Told()) <==> lost == {}
      ensures forall i | 0 <= i < |ledger.samples| :: ledger.samples[i].cumulative <= max
    {
      OverBudgetIsSuffix(ledger, max);
      InOrderIsPrefix(completed);
      forall r
        ensures r in RolesOf(ledger.samples)
      {
        AllSampled(ledger.samples, Told(), r);
      }
      LostIsAbandoned(completed, ledger.samples, Told());
      CleanMeansNoneLost(completed, ledger.samples, Told(), cgroupReleased);
    }

    /** One run of a fresh lifecycle.  A result tells the truth: with nothing to hide it means
        nothing is left, and completion means every stage but the last, within the budget.
        There is no result, None, exactly when a cleanup never settled. */
    method Run() returns (result: Option<RunResult>)
      requires Calm()
      requires Valid() && completed == [] && failures == 0 && ledger == NEW_LEDGER && !controllerStopped
      requires started == cgroupReleased == dockerReleased == lost == {}
      modifies this, system
      ensures WellKept(ledger) && (result.None? <==> system.unsettled > 0)
      ensures result.Some? ==>
                |completed| < |STAGES| && result.value.samples == ledger.samples
                && result.value.cumulative == ledger.cumulative
                && result.value.stages == completed == STAGES[..|completed|] && Needed(completed) <= system.performed
                && (lost != {} ==> system.aborted) && (forall r | r in lost :: Abandoned(Told(), r))
                && (forall r :: StartHeld(r) in system.performed <==> r in started || r in lost)
      ensures result.Some? && (result.value.Completed? || !result.value.sticky) ==>
                {Egress, Worker, Verifier} <= system.dockerGone && started <= system.cgroupGone && system.controllerGone
                && AllReleased(started, system.performed, true) && (AllLetGo(Told()) <==> lost == {})
      ensures result.Some? && result.value.Completed? ==>
                result.value.stages == STAGES[..27] && started == {Egress, Worker, Verifier}
                && lost == {} && (forall r :: r in RolesOf(result.value.samples))
                && AllGood(readings, max)
                && forall i | 0 <= i < |result.value.samples| :: result.value.samples[i].cumulative <= max
      ensures result.Some? && result.value.FailedRun? && result.value.code.BudgetExceeded?
              ==> result.value.cumulative > max
      ensures result.Some? && lost != {} ==> result.value.FailedRun? && result.value.code.ExecutionAborted?
      ensures system.fires == Some(StartHeld(Egress)) && !old(system.aborted) && old(system.performed) == {} ==>
                result.Some? && result.value.FailedRun? && !result.value.sticky && lost == {Egress}
      ensures system.troubles == [] <==> result.Some? && result.value.Completed?
      ensures |system.troubles| == 1 && result.Some? ==>
                result.value.FailedRun? && result.value.code == CodeOf(system.troubles[0])
                && (result.value.sticky <==> system.troubles[0].CleanupFailed?)
      ensures result.Some? && AllGood(readings, max) ==> NoMisread(system.troubles)
      ensures result.Some? && result.value.FailedRun? ==>
                (result.value.sticky <==> Sticks(system.troubles)) && system.troubles != []
                && (!CleanupFails(system.troubles, 0) ==>
                      var first := FirstTold(system.troubles);
                      result.value.code == if first.OperationFailed? && Overspends(system.troubles, 1)
                                           then BudgetExceeded else first)
    {
      var marked := Mark(RequestValidated);
      marked := Mark(PrivateAdapterAdmitted);
      var s := Execute();
      if s.Fatal? {
        return None;
      }
      if s.Ok? {
        DoneTold();
        return Some(Completed(completed, ledger.samples, ledger.cumulative));
      }
      result := Fail(s);
    }

    /** The code of what was thrown; an error that is no lifecycle failure is put down to the signal,
        if that has fired. */
    method FirstCode(s: Status) returns (first: LifecycleCode)
      requires Valid() && s.IsFailure() && !s.Fatal?
      modifies system`aborted, system`troubles
      ensures Valid() && old(system.troubles) <= system.troubles
      ensures s.Thrown? ==> first == s.code && system.troubles == old(system.troubles)
      ensures first == s.Code() || (s.ThrownOther? && first.ExecutionAborted?)
      ensures old(Explains(s)) ==>
                system.troubles != []
                && (|system.troubles| == 1 ==>
                      system.troubles == old(system.troubles) && first == CodeOf(system.troubles[0]))
                && (failures > 0 <==> CleanupFails(system.troubles, 0))
                && (!CleanupFails(system.troubles, 0) ==>
                      first == FirstTold(system.troubles)
                      && forall i | 1 <= i < |system.troubles| :: system.troubles[i].Fired?)
    {
      if s.Thrown? {
        return s.code;
      }
      var aborted := Aborted();
      return if aborted then ExecutionAborted else OperationFailed;
    }

    /** A run's result after Execute has failed. */
    method Fail(s: Status) returns (result: Option<RunResult>)
      requires Explains(s)
      requires Valid() && s.IsFailure() && !s.Fatal? && (s == Thrown(BudgetExceeded) ==> ledger.cumulative > max)
      modifies this, system
      ensures WellKept(ledger) && (result.None? <==> system.unsettled > 0)
      ensures result.Some? ==>
                |completed| < |STAGES| && result.value.FailedRun? && result.value.samples == ledger.samples
                && result.value.cumulative == ledger.cumulative
                && result.value.stages == completed == STAGES[..|completed|] && Needed(completed) <= system.performed
                && (lost != {} ==> system.aborted) && (forall r | r in lost :: Abandoned(Told(), r))
                && (forall r :: StartHeld(r) in system.performed <==> r in started || r in lost)
      ensures result.Some? && result.value.code.BudgetExceeded? ==> ledger.cumulative > max
      ensures result.Some? && !result.value.sticky ==>
                {Egress, Worker, Verifier} <= system.dockerGone && started <= system.cgroupGone && system.controllerGone
                && AllReleased(started, system.performed, true) && (AllLetGo(Told()) <==> lost == {})
      ensures lost == old(lost) && (result.Some? && s == Thrown(ExecutionAborted)
              ==> result.value.code.ExecutionAborted?)
      ensures system.fires.Some? && old(started) == {} && old(failures) == 0 ==> result.Some? && !result.value.sticky
      ensures system.troubles != []
      ensures |system.troubles| == 1 && result.Some? ==>
                result.value.code == CodeOf(system.troubles[0])
                && (result.value.sticky <==> system.troubles[0].CleanupFailed?)
      ensures result.Some? && AllGood(readings, max) ==> NoMisread(system.troubles)
      ensures result.Some? && result.value.FailedRun? ==>
                (result.value.sticky <==> Sticks(system.troubles)) && system.troubles != []
                && (!CleanupFails(system.troubles, 0) ==>
                      var first := FirstTold(system.troubles);
                      result.value.code == if first.OperationFailed? && Overspends(system.troubles, 1)
                                           then BudgetExceeded else first)
    {
      var first := FirstCode(s);
      ghost var mid := system.troubles;
      var code := HandleFailure(first);
      if code.None? {
        return None;
      }
      FailureExplained(mid, system.troubles);
      InOrderIsPrefix(completed);
      LostIsAbandoned(completed, ledger.samples, Told());
      if failures == 0 {
        CleanMeansNoneLost(completed, ledger.samples, Told(), cgroupReleased);
      }
      return Some(FailedRun(code.value, failures > 0, completed, ledger.samples, ledger.cumulative));
    }
  }

  /** A run of the clean, lost case: egress's start succeeds as the signal fires.  The result is
      clean, and egress was neither stopped nor released from its cgroup. */
  method LoseEgress(max: nat) returns (system: ControlledSystem, result: Option<RunResult>)
    ensures fresh(system)
    ensures result.Some? && result.value.FailedRun? && result.value.code.ExecutionAborted? && !result.value.sticky
    ensures StartHeld(Egress) in system.performed && Egress in system.dockerGone && Egress !in system.cgroupGone
    ensures CleanUp(StopRole(Egress)) !in system.performed && CleanUp(ReleaseCgroup(Egress)) !in system.performed
  {
    system := new ControlledSystem(Some(StartHeld(Egress)));
    var lifecycle := new DedicatedLifecycle(max, system);
    result := lifecycle.Run();
    assert Abandoned(lifecycle.Told(), Egress);
  }
}
