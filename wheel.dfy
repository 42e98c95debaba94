/** The wheel's state machine, one pure function per event handler of
    script.js. Each function maps the wheel's state before the event to the
    state after it; the class `WheelEngine.Engine` runs the same steps in
    place on its fields and is proved to agree with these functions. */
module Wheel {
  import opened JsMath
  import opened Resolution
  import opened Wrappers

  /** Velocity kept per tick (`friction`). */
  const Friction: real := 0.99
  /** Largest speed a released drag may hand to the wheel. */
  const MaxReleaseSpeed: real := 50.0
  /** A released drag faster than this counts as a spin. */
  const FlickSpeed: real := 2.0
  /** A spin slower than this after friction comes to rest. */
  const StopSpeed: real := 0.1
  /** A wheel that is not spinning still drifts while faster than this. */
  const DriftSpeed: real := 0.01
  /** Milliseconds in the reference frame that velocities are measured in. */
  const FrameMs: real := 16.0
  /** Degrees of rotation per pixel of vertical drag. */
  const DragSensitivity: real := 0.5
  /** The spin button's impulse is `ImpulseBase + ImpulseSpread * u`. */
  const ImpulseBase: real := 30.0
  const ImpulseSpread: real := 20.0

  /** The module-level variables of script.js that the engine reads and
      writes. `winner` is the label last written into the result panel. */
  datatype State = State(
    prizes: seq<string>,
    currentRotation: real,
    velocity: real,
    isSpinning: bool,
    isDragging: bool,
    lastFrameTime: real,
    startY: real,
    lastY: real,
    lastTimestamp: real,
    winner: Option<string>)

  /** The state right after start-up, with the prize list loaded: the wheel
      at rest at rotation 0, not dragged, and nothing announced yet. */
  function Initial(prizes: seq<string>): (r: State)
    ensures r.prizes == prizes && r.currentRotation == 0.0
    ensures !r.isSpinning && !r.isDragging && r.velocity == 0.0 && r.winner == None
    ensures r.lastFrameTime == 0.0
  {
    State(prizes, 0.0, 0.0, false, false, 0.0, 0.0, 0.0, 0.0, None)
  }

  /** `prizes[index]` for the slice under the pointer. An empty list has no
      such entry (JavaScript yields `undefined`). */
  function Winner(prizes: seq<string>, rotation: real): (w: Option<string>)
    ensures w.Some? <==> |prizes| > 0
    ensures w.Some? ==>
      exists i :: 0 <= i < |prizes| && w.value == prizes[i] && InSlice(PointerAngle(rotation), |prizes|, i)
  {
    if |prizes| == 0 then None else Some(prizes[WinnerIndex(rotation, |prizes|)])
  }

  /** The wheel has come to rest and announced the prize under the pointer. */
  predicate Stopped(s: State)
  {
    !s.isSpinning && s.velocity == 0.0 && s.winner == Winner(s.prizes, s.currentRotation)
  }

  /** `finishSpin` (script.js:159-199): stop the wheel and announce the prize
      under the pointer. */
  function FinishSpin(s: State): (r: State)
    ensures Stopped(r)
    ensures r.currentRotation == s.currentRotation && r.prizes == s.prizes
    ensures r == s.(isSpinning := false, velocity := 0.0, winner := r.winner)
  {
    s.(isSpinning := false, velocity := 0.0, winner := Winner(s.prizes, s.currentRotation))
  }

  /** `startSpin` (script.js:142-157); `u` stands for `Math.random()`. A second
      press while spinning is ignored; otherwise the wheel spins with an
      impulse in [30, 50). The wheel being dragged is not checked. */
  function StartSpin(s: State, u: real): (r: State)
    requires 0.0 <= u < 1.0
    ensures s.isSpinning ==> r == s
    ensures !s.isSpinning ==> r.isSpinning && 30.0 <= r.velocity < 50.0
    ensures !s.isSpinning ==> r == s.(isSpinning := true, velocity := r.velocity)
  {
    if s.isSpinning then s
    else s.(isSpinning := true, velocity := ImpulseBase + u * ImpulseSpread)
  }

  /** Every speed in [30, 50) is the impulse of some random draw, so the
      range above is exact. */
  lemma ImpulseCoversRange(s: State, v: real)
    requires !s.isSpinning && 30.0 <= v < 50.0
    ensures exists u :: 0.0 <= u < 1.0 && StartSpin(s, u).velocity == v
  {
    var u := (v - ImpulseBase) / ImpulseSpread;
    assert StartSpin(s, u).velocity == v;
  }

  /** Milliseconds since the previous tick; the first tick (no previous
      frame time recorded) has none. */
  function Elapsed(s: State, timestamp: real): (e: real)
    ensures s.lastFrameTime == 0.0 ==> e == 0.0
    ensures s.lastFrameTime != 0.0 ==> s.lastFrameTime + e == timestamp
  {
    if s.lastFrameTime == 0.0 then 0.0 else timestamp - s.lastFrameTime
  }

  /** One `updateLoop` tick at `timestamp` (script.js:116-135): while the
      wheel spins or still drifts, advance the rotation by the velocity
      scaled to the elapsed time, apply friction, and finish a spin that has
      slowed below the stopping speed. */
  function Tick(s: State, timestamp: real): (r: State)
    ensures r.lastFrameTime == timestamp
    ensures r.(currentRotation := s.currentRotation, velocity := s.velocity,
               isSpinning := s.isSpinning, lastFrameTime := s.lastFrameTime,
               winner := s.winner) == s
    ensures Abs(r.velocity) <= Abs(s.velocity)
    ensures !s.isSpinning && Abs(s.velocity) <= DriftSpeed ==> r == s.(lastFrameTime := timestamp)
    ensures !s.isSpinning ==> !r.isSpinning && r.winner == s.winner
    ensures r.isSpinning ==> r.winner == s.winner
    ensures !s.isSpinning && Abs(s.velocity) > DriftSpeed ==> r.velocity == s.velocity * Friction
    ensures s.isSpinning && Abs(s.velocity * Friction) >= StopSpeed ==>
      r.isSpinning && r.velocity == s.velocity * Friction
    ensures s.isSpinning && Abs(s.velocity * Friction) < StopSpeed ==> Stopped(r)
    ensures s.isSpinning && !r.isSpinning ==> Stopped(r)
  {
    if s.isSpinning || Abs(s.velocity) > DriftSpeed then
      var stepped := Advance(s, timestamp);
      if stepped.isSpinning && Abs(stepped.velocity) < StopSpeed then FinishSpin(stepped)
      else stepped
    else s.(lastFrameTime := timestamp)
  }

  /** The moving part of a tick: the rotation advanced by the velocity over
      the elapsed time, then friction applied, which slows the wheel without
      turning it round. */
  function Advance(s: State, timestamp: real): (r: State)
    ensures r.currentRotation - s.currentRotation == s.velocity * (Elapsed(s, timestamp) / FrameMs)
    ensures r.velocity == s.velocity * Friction
    ensures Abs(r.velocity) <= Abs(s.velocity) && Sign(r.velocity) == Sign(s.velocity)
    ensures r == s.(lastFrameTime := timestamp, currentRotation := r.currentRotation, velocity := r.velocity)
  {
    s.(lastFrameTime := timestamp,
       currentRotation := s.currentRotation + s.velocity * (Elapsed(s, timestamp) / FrameMs),
       velocity := s.velocity * Friction)
  }

  /** How far a tick turns the wheel: by the velocity it had, scaled from
      16 ms frames to the time since the previous tick; the first tick, with
      no previous frame, does not turn it at all. */
  lemma TickRotation(s: State, timestamp: real)
    ensures s.isSpinning || Abs(s.velocity) > DriftSpeed ==>
      Tick(s, timestamp).currentRotation == s.currentRotation + s.velocity * (Elapsed(s, timestamp) / FrameMs)
    ensures !s.isSpinning && Abs(s.velocity) <= DriftSpeed ==>
      Tick(s, timestamp).currentRotation == s.currentRotation
    ensures s.lastFrameTime == 0.0 ==> Tick(s, timestamp).currentRotation == s.currentRotation
  {
    if s.isSpinning || Abs(s.velocity) > DriftSpeed {
      assert Tick(s, timestamp).currentRotation == Advance(s, timestamp).currentRotation;
    }
  }

  /** `handleDragStart` (script.js:215-224) with the pointer at `clientY` and
      `Date.now()` equal to `now`: ignored while spinning, otherwise a drag
      begins and the wheel's velocity is dropped. */
  function DragStart(s: State, clientY: real, now: real): (r: State)
    ensures s.isSpinning ==> r == s
    ensures !s.isSpinning ==> r.isDragging && r.velocity == 0.0 && r.lastY == clientY
    ensures !s.isSpinning ==>
      r == s.(isDragging := true, startY := clientY, lastY := clientY, lastTimestamp := now, velocity := 0.0)
  {
    if s.isSpinning then s
    else s.(isDragging := true, startY := clientY, lastY := clientY, lastTimestamp := now, velocity := 0.0)
  }

  /** `handleDragMove` (script.js:226-249): ignored unless dragging;
      otherwise the wheel turns by half the vertical movement, and when time
      has passed the velocity becomes that turn per 16 ms frame. */
  function DragMove(s: State, clientY: real, now: real): (r: State)
    ensures !s.isDragging ==> r == s
    ensures s.isDragging ==> r.currentRotation - s.currentRotation == (clientY - s.lastY) * DragSensitivity
    ensures s.isDragging && now - s.lastTimestamp > 0.0 ==>
      r.velocity * ((now - s.lastTimestamp) / FrameMs) == r.currentRotation - s.currentRotation
    ensures s.isDragging && now - s.lastTimestamp <= 0.0 ==> r.velocity == s.velocity
    ensures s.isDragging ==> r == s.(currentRotation := r.currentRotation, velocity := r.velocity,
                                     lastY := clientY, lastTimestamp := now)
  {
    if !s.isDragging then s
    else
      var deltaRotation := (clientY - s.lastY) * DragSensitivity;
      var dt := now - s.lastTimestamp;
      s.(currentRotation := s.currentRotation + deltaRotation,
         velocity := if dt > 0.0 then deltaRotation / (dt / FrameMs) else s.velocity,
         lastY := clientY,
         lastTimestamp := now)
  }

  /** The release velocity: a speed above 50 is cut to 50, keeping its
      direction. */
  function ClampRelease(v: real): (c: real)
    ensures Abs(c) <= MaxReleaseSpeed
    ensures Sign(c) == Sign(v)
    ensures Abs(v) <= MaxReleaseSpeed ==> c == v
    ensures Abs(v) > MaxReleaseSpeed ==> Abs(c) == MaxReleaseSpeed
  {
    if Abs(v) > MaxReleaseSpeed then MaxReleaseSpeed * Sign(v) else v
  }

  /** `handleDragEnd` (script.js:251-269): ignored unless dragging; otherwise
      the drag ends, the velocity is clamped, and a release faster than 2
      makes the wheel spin. A slower release leaves `isSpinning` as it was. */
  function DragEnd(s: State): (r: State)
    ensures !s.isDragging ==> r == s
    ensures s.isDragging ==> !r.isDragging && Abs(r.velocity) <= MaxReleaseSpeed
    ensures s.isDragging ==> r.velocity == ClampRelease(s.velocity)
    ensures s.isDragging ==> (r.isSpinning <==> s.isSpinning || Abs(r.velocity) > FlickSpeed)
    ensures s.isDragging ==> r == s.(isDragging := false, velocity := r.velocity, isSpinning := r.isSpinning)
  {
    if !s.isDragging then s
    else
      var v := ClampRelease(s.velocity);
      s.(isDragging := false, velocity := v, isSpinning := s.isSpinning || Abs(v) > FlickSpeed)
  }

  // ---------------------------------------------------------------------
  // Several events in a row

  /** A run of animation ticks at the given timestamps. */
  function Run(s: State, timestamps: seq<real>): State
    decreases |timestamps|
  {
    if timestamps == [] then s else Run(Tick(s, timestamps[0]), timestamps[1..])
  }

  /** A run of drag moves, each a pointer position and a time. */
  function Drag(s: State, moves: seq<(real, real)>): State
    decreases |moves|
  {
    if moves == [] then s else Drag(DragMove(s, moves[0].0, moves[0].1), moves[1..])
  }

  /** The velocity factor after `k` ticks of friction: 0.99 to the power k. */
  function FrictionAfter(k: nat): real
  {
    if k == 0 then 1.0 else Friction * FrictionAfter(k - 1)
  }

  /** Friction decays at least as fast as `1 / (1 + k/99)` (Bernoulli's
      inequality for 1/0.99). */
  lemma {:induction false} FrictionDecays(k: nat)
    ensures 0.0 < FrictionAfter(k) <= 1.0
    ensures FrictionAfter(k) * (1.0 + k as real / 99.0) <= 1.0
  {
    if k > 0 {
      FrictionDecays(k - 1);
      var a := FrictionAfter(k - 1);
      var b := 1.0 + (k - 1) as real / 99.0;
      assert FrictionAfter(k) == Friction * a;
      assert 1.0 + k as real / 99.0 == b + 1.0 / 99.0;
      assert Friction * a * (b + 1.0 / 99.0) == 0.99 * (a * b) + 0.01 * a;
    }
  }

  /** A stopped wheel stays stopped, with the same winner, however many
      ticks follow. */
  lemma {:induction false} StoppedStays(s: State, timestamps: seq<real>)
    requires Stopped(s)
    ensures var r := Run(s, timestamps);
      Stopped(r) && r.currentRotation == s.currentRotation && r.winner == s.winner
      && r.prizes == s.prizes
    decreases |timestamps|
  {
    if timestamps != [] {
      StoppedStays(Tick(s, timestamps[0]), timestamps[1..]);
    }
  }

  /** Ticks never start a spin. */
  lemma {:induction false} IdleStaysIdle(s: State, timestamps: seq<real>)
    requires !s.isSpinning
    ensures !Run(s, timestamps).isSpinning
    decreases |timestamps|
  {
    if timestamps != [] {
      IdleStaysIdle(Tick(s, timestamps[0]), timestamps[1..]);
    }
  }

  /** A spin that has ended has stopped the wheel and announced the prize
      under the pointer where it came to rest. */
  lemma {:induction false} SpinEndsStopped(s: State, timestamps: seq<real>)
    requires s.isSpinning
    ensures Run(s, timestamps).isSpinning || Stopped(Run(s, timestamps))
    decreases |timestamps|
  {
    if timestamps != [] {
      var s1 := Tick(s, timestamps[0]);
      if s1.isSpinning {
        SpinEndsStopped(s1, timestamps[1..]);
      } else {
        StoppedStays(s1, timestamps[1..]);
      }
    }
  }

  /** A speed `v` after `k` more ticks of friction. */
  function Decayed(v: real, k: nat): real
    decreases k
  {
    if k == 0 then v else Decayed(v * Friction, k - 1)
  }

  /** The decayed speed is the speed scaled by the friction factor. */
  lemma {:induction false} DecayedScales(v: real, k: nat)
    ensures Decayed(v, k) == v * FrictionAfter(k)
    decreases k
  {
    if k > 0 {
      var w := v * Friction;
      DecayedScales(w, k - 1);
      var p := FrictionAfter(k - 1);
      assert Decayed(v, k) == w * p;
      assert FrictionAfter(k) == Friction * p;
      Associate(v, Friction, p);
    }
  }

  /** While a spin lasts, its velocity is the starting velocity decayed by
      friction once per tick so far. */
  lemma {:induction false} SpinDecays(s: State, timestamps: seq<real>)
    requires s.isSpinning
    ensures Run(s, timestamps).isSpinning ==>
      Run(s, timestamps).velocity == Decayed(s.velocity, |timestamps|)
    decreases |timestamps|
  {
    if timestamps != [] {
      var s1 := Tick(s, timestamps[0]);
      var rest := timestamps[1..];
      if s1.isSpinning {
        TickKeepsSpinning(s, timestamps[0]);
        SpinDecays(s1, rest);
      } else {
        IdleStaysIdle(s1, rest);
      }
    }
  }

  lemma Associate(a: real, b: real, c: real)
    ensures (a * b) * c == a * (b * c)
  {
  }

  /** A spin still going after at least one tick is at or above the stopping
      speed. */
  lemma {:induction false} SpinStaysFast(s: State, timestamps: seq<real>)
    requires s.isSpinning && timestamps != []
    ensures Run(s, timestamps).isSpinning ==> Abs(Run(s, timestamps).velocity) >= StopSpeed
    decreases |timestamps|
  {
    var s1 := Tick(s, timestamps[0]);
    var rest := timestamps[1..];
    if s1.isSpinning && rest != [] {
      SpinStaysFast(s1, rest);
    } else if !s1.isSpinning {
      IdleStaysIdle(s1, rest);
    }
  }

  /** A spin that survives a tick has lost exactly the friction factor. */
  lemma TickKeepsSpinning(s: State, timestamp: real)
    requires s.isSpinning && Tick(s, timestamp).isSpinning
    ensures Tick(s, timestamp).velocity == s.velocity * Friction
  {
  }

  /** A generous bound on the ticks any spin lasts. */
  const SpinTickBound: nat := 49500

  /** Every spin whose speed is at most 50 (the button's impulse, or a
      clamped release) comes to rest and announces its winner within
      `SpinTickBound` ticks. */
  lemma SpinResolves(s: State, timestamps: seq<real>)
    requires s.isSpinning && Abs(s.velocity) <= MaxReleaseSpeed
    requires |timestamps| >= SpinTickBound
    ensures Stopped(Run(s, timestamps))
  {
    SpinDecays(s, timestamps);
    SpinStaysFast(s, timestamps);
    SpinEndsStopped(s, timestamps);
    SlowDecay(s.velocity, |timestamps|);
  }

  /** A speed of at most 50 decays below the stopping speed within
      `SpinTickBound` ticks. */
  lemma SlowDecay(v: real, k: nat)
    requires Abs(v) <= MaxReleaseSpeed && k >= SpinTickBound
    ensures Abs(Decayed(v, k)) < 0.1
  {
    var p := FrictionAfter(k);
    FrictionDecays(k);
    DecayedScales(v, k);
    AbsScale(v, p);
    SlowedBelowStop(Abs(v), k);
  }

  /** After `SpinTickBound` ticks of friction, no speed up to 50 is left
      above the stopping speed. */
  lemma SlowedBelowStop(v: real, k: nat)
    requires 0.0 <= v <= MaxReleaseSpeed && k >= SpinTickBound
    ensures v * FrictionAfter(k) < 0.1
  {
    FrictionDecays(k);
    BelowStopArith(v, FrictionAfter(k), 1.0 + k as real / 99.0);
  }

  lemma BelowStopArith(v: real, p: real, b: real)
    requires 0.0 < p && p * b <= 1.0 && b >= 501.0 && 0.0 <= v <= 50.0
    ensures v * p < 0.1
  {
    ScaleWeak(p, 501.0, b);
    ScaleWeak(p, v, 50.0);
  }

  lemma AbsScale(v: real, p: real)
    requires p > 0.0
    ensures Abs(v * p) == Abs(v) * p
  {
    if v < 0.0 { ScaleStrict(p, v, 0.0); } else { ScaleWeak(p, 0.0, v); }
  }

  /** A spin started with the button always resolves. */
  lemma ButtonSpinResolves(s: State, u: real, timestamps: seq<real>)
    requires !s.isSpinning && 0.0 <= u < 1.0
    requires |timestamps| >= SpinTickBound
    ensures Stopped(Run(StartSpin(s, u), timestamps))
  {
    SpinResolves(StartSpin(s, u), timestamps);
  }

  /** A drag released fast enough to spin always resolves. */
  lemma FlickResolves(s: State, timestamps: seq<real>)
    requires s.isDragging && DragEnd(s).isSpinning
    requires |timestamps| >= SpinTickBound
    ensures Stopped(Run(DragEnd(s), timestamps))
  {
    SpinResolves(DragEnd(s), timestamps);
  }

  /** A run of drag moves turns the wheel by half the total vertical
      movement, however the moves are spaced in time. */
  lemma {:induction false} DragTelescopes(s: State, moves: seq<(real, real)>)
    requires s.isDragging && moves != []
    ensures var r := Drag(s, moves);
      && r.isDragging && r.isSpinning == s.isSpinning && r.prizes == s.prizes
      && r.lastY == moves[|moves| - 1].0
      && r.currentRotation == s.currentRotation + (moves[|moves| - 1].0 - s.lastY) * DragSensitivity
    decreases |moves|
  {
    var s1 := DragMove(s, moves[0].0, moves[0].1);
    if |moves| > 1 {
      DragTelescopes(s1, moves[1..]);
      assert moves[1..][|moves| - 2] == moves[|moves| - 1];
    }
  }

  /** From the press to the last move, the wheel follows the pointer: it has
      turned by half the pointer's vertical travel. */
  lemma DragTracksPointer(s: State, clientY: real, now: real, moves: seq<(real, real)>)
    requires !s.isSpinning && moves != []
    ensures Drag(DragStart(s, clientY, now), moves).currentRotation
      == s.currentRotation + (moves[|moves| - 1].0 - clientY) * DragSensitivity
  {
    DragTelescopes(DragStart(s, clientY, now), moves);
  }

  /** With four prizes, a wheel that comes to rest after whole turns has
      the fourth prize under the pointer, and one at rest at 450 degrees the
      third. */
  lemma DefaultWinnerAtRest()
    ensures Winner(["A", "B", "C", "D"], 0.0) == Some("D")
    ensures Winner(["A", "B", "C", "D"], 450.0) == Some("C")
  {
    FourPrizeExamples();
  }
}
