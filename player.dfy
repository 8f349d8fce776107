/** The player's interaction targeting (PlayerInteractor.cs) and movement state
    flags (PlayerMove.cs). Ray casts and the head-clearance box cast arrive as
    inputs; vector movement and the height interpolation are not modelled. */
module PlayerControl {
  import opened Common

  // ---------------------------------------------------------------
  // PlayerInteractor

  /** What the interaction ray reports this frame: nothing, or a collider that
      may carry an interactable (named by an id). */
  datatype RayResult = Miss | Hit(interactable: Option<nat>)

  /** Calls the interactor makes: on interactables, and raises of its two events. */
  datatype InteractorCall =
    | Deselect(target: nat)
    | Select(target: nat)
    | RaiseDeselect
    | RaiseSelect
    | InteractWith(target: nat)

  /** The target the frame leaves selected: the interactable hit, or none. */
  function DetectedTarget(ray: RayResult): Option<nat> {
    if ray.Hit? then ray.interactable else None
  }

  /** `currentTarget?.Deselect()`. */
  function DeselectCurrent(current: Option<nat>): seq<InteractorCall> {
    if current.Some? then [Deselect(current.value)] else []
  }

  /** The calls DetectInteractable makes in one frame. */
  function DetectCalls(current: Option<nat>, ray: RayResult): seq<InteractorCall> {
    match DetectedTarget(ray)
    case None => DeselectCurrent(current) + [RaiseDeselect]
    case Some(x) =>
      if current != Some(x) then DeselectCurrent(current) + [RaiseDeselect, Select(x), RaiseSelect]
      else []
  }

  /** Selections minus deselections of actual targets in a call log. */
  function Balance(calls: seq<InteractorCall>): int
    decreases |calls|
  {
    if calls == [] then 0
    else
      var last := calls[|calls| - 1];
      Balance(calls[..|calls| - 1]) + (if last.Select? then 1 else if last.Deselect? then -1 else 0)
  }

  lemma {:induction false} BalanceAppend(a: seq<InteractorCall>, b: seq<InteractorCall>)
    ensures Balance(a + b) == Balance(a) + Balance(b)
    decreases |b|
  {
    if b == [] {
      assert a + b == a;
    } else {
      var b' := b[..|b| - 1];
      assert (a + b)[..|a + b| - 1] == a + b';
      BalanceAppend(a, b');
    }
  }

  /** Every frame leaves the current target as the interactable detected, and
      keeps exactly that many outstanding selections (one when a target is held). */
  lemma DetectKeepsBalance(current: Option<nat>, ray: RayResult, calls: seq<InteractorCall>)
    requires Balance(calls) == (if current.Some? then 1 else 0)
    ensures Balance(calls + DetectCalls(current, ray)) == (if DetectedTarget(ray).Some? then 1 else 0)
  {
    BalanceAppend(calls, DetectCalls(current, ray));
    var d := DeselectCurrent(current);
    assert Balance(d) == (if current.Some? then -1 else 0) by {
      if current.Some? {
        assert d[..0] == [];
      }
    }
    match DetectedTarget(ray) {
      case None =>
        BalanceAppend(d, [RaiseDeselect]);
        assert [RaiseDeselect][..0] == [];
      case Some(x) =>
        if current != Some(x) {
          var tail := [RaiseDeselect, Select(x), RaiseSelect];
          assert Balance([RaiseDeselect]) == 0 by {
            assert [RaiseDeselect][..0] == [];
          }
          assert Balance([RaiseDeselect, Select(x)]) == 1 by {
            assert [RaiseDeselect, Select(x)][..1] == [RaiseDeselect];
          }
          assert Balance(tail) == 1 by {
            assert tail[..2] == [RaiseDeselect, Select(x)];
          }
          BalanceAppend(d, tail);
        }
    }
  }

  /** A miss, or a hit without an interactable, deselects any target and raises the
      deselect event; a new interactable is deselected-old, raised, selected,
      raised, in that order; the same interactable again makes no call. */
  lemma DetectCallOrder(current: Option<nat>, ray: RayResult)
    ensures DetectedTarget(ray).None? ==>
      DetectCalls(current, ray) == (if current.Some? then [Deselect(current.value)] else []) + [RaiseDeselect]
    ensures DetectedTarget(ray).Some? && DetectedTarget(ray) != current ==>
      DetectCalls(current, ray) ==
        (if current.Some? then [Deselect(current.value)] else []) + [RaiseDeselect, Select(DetectedTarget(ray).value), RaiseSelect]
    ensures DetectedTarget(ray).Some? && DetectedTarget(ray) == current ==> DetectCalls(current, ray) == []
  {
  }

  class PlayerInteractor {
    var currentTarget: Option<nat>
    var calls: seq<InteractorCall>

    /** Outstanding selections match the held target. */
    ghost predicate Valid()
      reads this
    {
      Balance(calls) == (if currentTarget.Some? then 1 else 0)
    }

    constructor ()
      ensures Valid() && currentTarget == None && calls == []
    {
      currentTarget := None;
      calls := [];
    }

    /** DetectInteractable, once per frame, with the ray's result as input. */
    method DetectInteractable(ray: RayResult)
      requires Valid()
      modifies this
      ensures Valid()
      ensures currentTarget == DetectedTarget(ray)
      ensures calls == old(calls) + DetectCalls(old(currentTarget), ray)
    {
      DetectKeepsBalance(currentTarget, ray, calls);
      ghost var expected := DetectCalls(currentTarget, ray);
      var detected := if ray.Hit? then ray.interactable else None;
      if ray.Miss? || detected.None? {
        assert expected == DeselectCurrent(currentTarget) + [RaiseDeselect];
        calls := calls + (DeselectCurrent(currentTarget) + [RaiseDeselect]);
        currentTarget := None;
        return;
      }
      if currentTarget != detected {
        assert expected == DeselectCurrent(currentTarget) + [RaiseDeselect, Select(detected.value), RaiseSelect];
        calls := calls + (DeselectCurrent(currentTarget) + [RaiseDeselect]);
        currentTarget := detected;
        calls := calls + [Select(detected.value), RaiseSelect];
        assert calls == old(calls) + expected;
      }
    }

    /** Interact forwards to the held target, if any. */
    method Interact()
      modifies this
      ensures currentTarget == old(currentTarget)
      ensures calls == old(calls) + (if currentTarget.Some? then [InteractWith(currentTarget.value)] else [])
    {
      if currentTarget.Some? {
        calls := calls + [InteractWith(currentTarget.value)];
      }
    }
  }

  // ---------------------------------------------------------------
  // PlayerMove

  /** The camera-shake calls Move makes on PlayerSight. */
  datatype ShakeCall = CancelShake | WalkShake | RunShake

  /** The height the crouch transition is heading for. */
  datatype Height = Standing | Crouched

  datatype MoveState = MoveState(
    crouching: bool,
    moving: bool,
    running: bool,
    transitioning: bool,
    targetHeight: Height,
    shakes: seq<ShakeCall>)

  /** The player is never crouching and running at once. */
  predicate Posture(s: MoveState) {
    !(s.crouching && s.running)
  }

  /** Move: zero input stops and cancels the shake; otherwise the player moves,
      with the walk shake when crouching or not running and the run shake otherwise. */
  function Moved(s: MoveState, inputIsZero: bool): (r: MoveState)
    ensures Posture(s) ==> Posture(r)
    ensures r.moving == !inputIsZero
    ensures inputIsZero ==> r.shakes == s.shakes + [CancelShake]
    ensures !inputIsZero && Posture(s) ==> r.shakes == s.shakes + [if s.running then RunShake else WalkShake]
    ensures r.(moving := s.moving, shakes := s.shakes) == s
  {
    if inputIsZero then s.(moving := false, shakes := s.shakes + [CancelShake])
    else s.(moving := true, shakes := s.shakes + [if s.crouching || !s.running then WalkShake else RunShake])
  }

  function RunSwitched(s: MoveState): (r: MoveState)
    ensures Posture(s) ==> Posture(r)
    ensures r.running <==> s.running || (!s.crouching && s.moving)
    ensures r.(running := s.running) == s
  {
    if !s.crouching && s.moving then s.(running := true) else s
  }

  function WalkSwitched(s: MoveState): (r: MoveState)
    ensures Posture(r) && !r.running
    ensures r.(running := s.running) == s
  {
    s.(running := false)
  }

  /** SwitchCrouch, given whether something is above the head. */
  function CrouchSwitched(s: MoveState, headBlocked: bool): MoveState {
    if s.crouching then
      if !headBlocked then s.(transitioning := true, crouching := false, targetHeight := Standing) else s
    else s.(transitioning := true, crouching := true, targetHeight := Crouched, running := false)
  }

  /** Crouching down always succeeds and stops running; standing up happens only
      with a clear head and otherwise changes nothing. */
  lemma CrouchSwitchEffect(s: MoveState, headBlocked: bool)
    ensures Posture(s) ==> Posture(CrouchSwitched(s, headBlocked))
    ensures !s.crouching ==> (CrouchSwitched(s, headBlocked) ==
      s.(crouching := true, running := false, targetHeight := Crouched, transitioning := true))
    ensures s.crouching && headBlocked ==> CrouchSwitched(s, headBlocked) == s
    ensures s.crouching && !headBlocked ==> (CrouchSwitched(s, headBlocked) ==
      s.(crouching := false, targetHeight := Standing, transitioning := true))
  {
  }

  /** The movement input a frame can carry. */
  datatype MoveInput = MoveCall(inputIsZero: bool) | RunCall | WalkCall | CrouchCall(headBlocked: bool)

  function MoveStep(s: MoveState, i: MoveInput): MoveState {
    match i
    case MoveCall(z) => Moved(s, z)
    case RunCall => RunSwitched(s)
    case WalkCall => WalkSwitched(s)
    case CrouchCall(h) => CrouchSwitched(s, h)
  }

  function MoveRun(s: MoveState, inputs: seq<MoveInput>): MoveState
    decreases |inputs|
  {
    if inputs == [] then s else MoveRun(MoveStep(s, inputs[0]), inputs[1..])
  }

  /** From any state that respects it, no sequence of calls ever leaves the player
      crouching and running. */
  lemma {:induction false} PostureAlwaysHolds(s: MoveState, inputs: seq<MoveInput>)
    requires Posture(s)
    ensures Posture(MoveRun(s, inputs))
    decreases |inputs|
  {
    if inputs != [] {
      if inputs[0].CrouchCall? {
        CrouchSwitchEffect(s, inputs[0].headBlocked);
      }
      PostureAlwaysHolds(MoveStep(s, inputs[0]), inputs[1..]);
    }
  }

  /** CalculateSpeed: the crouch multiplier wins over the run multiplier, which
      wins over plain walking. */
  function Speed(walkSpeed: real, runMultiplier: real, crouchMultiplier: real, crouching: bool, running: bool): (r: real)
    ensures crouching ==> r == walkSpeed * crouchMultiplier
    ensures !crouching && running ==> r == walkSpeed * runMultiplier
    ensures !crouching && !running ==> r == walkSpeed
  {
    if crouching then walkSpeed * crouchMultiplier
    else if running then walkSpeed * runMultiplier
    else walkSpeed
  }

  /** With multipliers that slow crouching and speed up running, a crouching player is
      never faster than a walking one, and a running one never slower. */
  lemma SpeedOrder(walkSpeed: real, runMultiplier: real, crouchMultiplier: real, running: bool)
    requires walkSpeed >= 0.0 && 0.0 <= crouchMultiplier <= 1.0 <= runMultiplier
    ensures Speed(walkSpeed, runMultiplier, crouchMultiplier, true, running) <= walkSpeed
    ensures walkSpeed == Speed(walkSpeed, runMultiplier, crouchMultiplier, false, false)
    ensures walkSpeed <= Speed(walkSpeed, runMultiplier, crouchMultiplier, false, true)
  {
    assert walkSpeed * crouchMultiplier <= walkSpeed * 1.0 by {
      assert walkSpeed * (1.0 - crouchMultiplier) >= 0.0;
    }
    assert walkSpeed * runMultiplier >= walkSpeed * 1.0 by {
      assert walkSpeed * (runMultiplier - 1.0) >= 0.0;
    }
  }

  /** Crouching down never speeds the player up, whether it was walking or running. */
  lemma CrouchDownNeverFaster(s: MoveState, headBlocked: bool, walkSpeed: real, runMultiplier: real, crouchMultiplier: real)
    requires walkSpeed >= 0.0 && 0.0 <= crouchMultiplier <= 1.0 <= runMultiplier
    requires !s.crouching
    ensures var r := CrouchSwitched(s, headBlocked);
      r.crouching && !r.running
      && Speed(walkSpeed, runMultiplier, crouchMultiplier, r.crouching, r.running)
         <= Speed(walkSpeed, runMultiplier, crouchMultiplier, s.crouching, s.running)
  {
    SpeedOrder(walkSpeed, runMultiplier, crouchMultiplier, false);
  }

  class PlayerMove {
    const walkSpeed: real
    const runMultiplier: real
    const crouchMultiplier: real
    var crouching: bool
    var moving: bool
    var running: bool
    var crouchTransitioning: bool
    var targetHeight: Height
    var shakes: seq<ShakeCall>

    function State(): MoveState
      reads this
    {
      MoveState(crouching, moving, running, crouchTransitioning, targetHeight, shakes)
    }

    ghost predicate Valid()
      reads this
    {
      Posture(State())
    }

    /** The component as Start leaves it: standing, still, walking. */
    constructor (walkSpeed: real, runMultiplier: real, crouchMultiplier: real)
      ensures Valid()
      ensures this.walkSpeed == walkSpeed && this.runMultiplier == runMultiplier && this.crouchMultiplier == crouchMultiplier
      ensures State() == MoveState(false, false, false, false, Standing, [])
    {
      this.walkSpeed := walkSpeed;
      this.runMultiplier := runMultiplier;
      this.crouchMultiplier := crouchMultiplier;
      crouching := false;
      moving := false;
      running := false;
      crouchTransitioning := false;
      targetHeight := Standing;
      shakes := [];
    }

    /** Move, with only whether the input direction is zero as input. */
    method Move(inputIsZero: bool)
      requires Valid()
      modifies this
      ensures Valid()
      ensures State() == Moved(old(State()), inputIsZero)
    {
      if inputIsZero {
        shakes := shakes + [CancelShake];
        moving := false;
        return;
      } else {
        if crouching || !running {
          shakes := shakes + [WalkShake];
        } else {
          shakes := shakes + [RunShake];
        }
      }
      moving := true;
    }

    method SwitchToRun()
      requires Valid()
      modifies this
      ensures Valid()
      ensures State() == RunSwitched(old(State()))
    {
      if !crouching && moving {
        running := true;
      }
    }

    method SwitchToWalk()
      requires Valid()
      modifies this
      ensures Valid()
      ensures State() == WalkSwitched(old(State()))
    {
      running := false;
    }

    /** SwitchCrouch, with HeadDetect's answer as input. */
    method SwitchCrouch(headBlocked: bool)
      requires Valid()
      modifies this
      ensures Valid()
      ensures State() == CrouchSwitched(old(State()), headBlocked)
    {
      if crouching {
        if !headBlocked {
          crouchTransitioning := true;
          crouching := false;
          targetHeight := Standing;
        }
      } else {
        crouchTransitioning := true;
        crouching := true;
        targetHeight := Crouched;
        running := false;
      }
    }

    function CalculateSpeed(): real
      reads this
    {
      Speed(walkSpeed, runMultiplier, crouchMultiplier, crouching, running)
    }
  }
}
