/** The engine as script.js runs it: the module-level variables are the
    fields of one object, and each event handler updates them in place.
    Every handler is proved to leave the object in the state that the
    matching function of `Wheel` or `PrizeList` computes from the state
    before it. */
module WheelEngine {
  import opened JsMath
  import opened Resolution
  import opened Wrappers
  import opened PrizeText
  import opened PrizeList
  import opened Wheel

  class Engine {
    var prizes: seq<string>
    var currentRotation: real
    var velocity: real
    var isSpinning: bool
    var isDragging: bool
    var lastFrameTime: real
    var startY: real
    var lastY: real
    var lastTimestamp: real
    /** The label last written into the result panel, if any. */
    var winner: Option<string>

    /** The fields, read as a value of the state machine. */
    function State(): Wheel.State
      reads this
    {
      Wheel.State(prizes, currentRotation, velocity, isSpinning, isDragging,
                  lastFrameTime, startY, lastY, lastTimestamp, winner)
    }

    /** Start-up (script.js:20-26 and 340-343): the variables at their
        initial values and the prize list loaded from storage. */
    constructor(stored: Option<seq<string>>)
      ensures State() == Initial(Load(stored))
    {
      prizes := Load(stored);
      currentRotation := 0.0;
      velocity := 0.0;
      isSpinning := false;
      isDragging := false;
      lastFrameTime := 0.0;
      startY := 0.0;
      lastY := 0.0;
      lastTimestamp := 0.0;
      winner := None;
    }

    /** `updateLoop` (script.js:116-140): one animation frame at
        `timestamp`; `reschedule` says whether the next frame is requested,
        which it is unless a drag is in progress. */
    method UpdateLoop(timestamp: real) returns (reschedule: bool)
      modifies this
      ensures State() == Tick(old(State()), timestamp)
      ensures reschedule == !isDragging
    {
      ghost var s := State();
      if lastFrameTime == 0.0 {
        lastFrameTime := timestamp;
      }
      var deltaTime := timestamp - lastFrameTime;
      assert deltaTime == Elapsed(s, timestamp);
      lastFrameTime := timestamp;
      if isSpinning || Abs(velocity) > DriftSpeed {
        currentRotation := currentRotation + velocity * (deltaTime / FrameMs);
        velocity := velocity * Friction;
        assert State() == Advance(s, timestamp);
        if isSpinning && Abs(velocity) < StopSpeed {
          FinishSpin();
        }
      } else {
        assert State() == s.(lastFrameTime := timestamp);
      }
      reschedule := !isDragging;
    }

    /** `startSpin` (script.js:142-157); `random` stands for `Math.random()`. */
    method StartSpin(random: real)
      requires 0.0 <= random < 1.0
      modifies this
      ensures State() == Wheel.StartSpin(old(State()), random)
    {
      if isSpinning {
        return;
      }
      isSpinning := true;
      velocity := ImpulseBase + random * ImpulseSpread;
    }

    /** `finishSpin` (script.js:159-199): stop the wheel and announce the
        prize under the pointer. */
    method FinishSpin()
      modifies this
      ensures State() == Wheel.FinishSpin(old(State()))
    {
      isSpinning := false;
      velocity := 0.0;
      var degrees := JsRem360(currentRotation);
      var numPrizes := |prizes|;
      var pointerAngle := JsRem360(PointerAt - JsRem360(degrees) + FullTurn);
      if numPrizes == 0 {
        winner := None;
      } else {
        var index := SliceAt(pointerAngle, numPrizes);
        winner := Some(prizes[index]);
      }
    }

    /** `handleDragStart` (script.js:215-224). */
    method DragStart(clientY: real, now: real)
      modifies this
      ensures State() == Wheel.DragStart(old(State()), clientY, now)
    {
      if isSpinning {
        return;
      }
      isDragging := true;
      startY := clientY;
      lastY := startY;
      lastTimestamp := now;
      velocity := 0.0;
    }

    /** `handleDragMove` (script.js:226-249). */
    method DragMove(clientY: real, now: real)
      modifies this
      ensures State() == Wheel.DragMove(old(State()), clientY, now)
    {
      if !isDragging {
        return;
      }
      var deltaY := clientY - lastY;
      currentRotation := currentRotation + deltaY * DragSensitivity;
      var dt := now - lastTimestamp;
      if dt > 0.0 {
        velocity := (deltaY * DragSensitivity) / (dt / FrameMs);
      }
      lastY := clientY;
      lastTimestamp := now;
    }

    /** `handleDragEnd` (script.js:251-269); `resume` says whether the
        animation loop is requested again, which it is exactly when a drag
        was in progress. */
    method DragEnd() returns (resume: bool)
      modifies this
      ensures State() == Wheel.DragEnd(old(State()))
      ensures resume == old(isDragging)
    {
      if !isDragging {
        return false;
      }
      isDragging := false;
      if Abs(velocity) > MaxReleaseSpeed {
        velocity := MaxReleaseSpeed * Sign(velocity);
      }
      if Abs(velocity) > FlickSpeed {
        isSpinning := true;
      }
      resume := true;
    }

    /** The delete button of entry `idx` (script.js:285-295); `deleted` is
        false when the integrity alert is shown instead. */
    method DeletePrize(idx: nat) returns (deleted: bool)
      modifies this
      ensures prizes == Delete(old(prizes), idx)
      ensures deleted == DeleteAllowed(old(prizes))
      ensures old(InBounds(prizes)) ==> InBounds(prizes)
      ensures State() == old(State()).(prizes := prizes)
    {
      if |prizes| > MinPrizes {
        if idx < |prizes| {
          prizes := prizes[..idx] + prizes[idx + 1..];
        }
        deleted := true;
      } else {
        deleted := false;
      }
      if old(InBounds(prizes)) {
        DeleteKeepsBounds(old(prizes), idx);
      }
    }

    /** The add button with `input` typed in (script.js:320-329). */
    method AddPrize(input: string) returns (added: bool)
      modifies this
      ensures prizes == Add(old(prizes), input)
      ensures added == AddAllowed(old(prizes), input)
      ensures old(InBounds(prizes)) ==> InBounds(prizes)
      ensures State() == old(State()).(prizes := prizes)
    {
      var val := ToUpper(Trim(input));
      if val != [] && |prizes| < MaxPrizes {
        prizes := prizes + [val];
        added := true;
      } else {
        added := false;
      }
      if old(InBounds(prizes)) {
        AddKeepsBounds(old(prizes), input);
      }
    }
  }
}
