/**
 The interaction and animation state of the fire-hydrant cabinet viewer:
 the scene's orientation, the door hinge animation, the camera distance and
 the lighting switch, together with the three callbacks that change them
 (the animation timer, the keyboard handler and the special-key handler).

 The three angles, the door angle and the camera distance are `float` in the
 program, but every value they can reach is an integer (the angles start at
 20 and 0 and move by 5, the door moves by 2 between 0 and 120, the camera
 starts at -80 and moves by 5), and a `float` holds it exactly while it stays
 within 2^24 in magnitude, so the model keeps them as `int`; the door and
 lighting flags are `bool` there and here.
 */
module Hydrant {

  /** Door hinge limits and the animation step, in degrees. */
  const DoorClosedAngle: int := 0
  const DoorOpenAngle: int := 120
  const DoorStep: int := 2

  /** Rotation and zoom steps, and the full turn used for wrapping. */
  const RotateStep: int := 5
  const ZoomStep: int := 5
  const FullTurn: int := 360

  /** The escape key, which ends the program. */
  const Esc: char := 27 as char

  /** GLUT's codes for the arrow keys delivered to the special-key handler. */
  const KeyLeft: int := 100
  const KeyUp: int := 101
  const KeyRight: int := 102
  const KeyDown: int := 103

  /** The program's whole mutable state, as a value. */
  datatype Scene = Scene(
    xAngle: int,
    yAngle: int,
    zAngle: int,
    doorAngle: int,
    doorOpening: bool,
    doorClosing: bool,
    cameraDistance: int,
    lightingEnabled: bool
  )

  /** An angle within one closed turn, the range the letter keys keep. */
  predicate InTurn(a: int) {
    0 <= a <= FullTurn
  }

  /**
   What every reachable scene satisfies: the door lies within its hinge
   limits on an even angle, it is never asked to open and close at once, it
   never rests part-way, the z angle stays within a turn (only the wrapping
   letter keys touch it), and every angle and the camera distance are
   multiples of 5.
   */
  predicate Invariant(s: Scene) {
    && DoorClosedAngle <= s.doorAngle <= DoorOpenAngle
    && s.doorAngle % DoorStep == 0
    && !(s.doorOpening && s.doorClosing)
    && (DoorClosedAngle < s.doorAngle < DoorOpenAngle ==> s.doorOpening || s.doorClosing)
    && InTurn(s.zAngle)
    && s.xAngle % 5 == 0 && s.yAngle % 5 == 0 && s.zAngle % 5 == 0
    && s.cameraDistance % 5 == 0
  }

  /** The values the program's globals start with. */
  function Initial(): (s: Scene)
    ensures Invariant(s)
    ensures s.doorAngle == DoorClosedAngle && !s.doorOpening && !s.doorClosing
    ensures InTurn(s.xAngle) && InTurn(s.yAngle) && InTurn(s.zAngle)
  {
    Scene(20, 0, 0, 0, false, false, -80, true)
  }

  /**
   One timer tick of the door animation. Opening is tried first and only
   while the door is short of fully open; otherwise closing is tried while
   the door is not shut; the angle is clamped at the limit it reaches, and
   reaching it clears the matching flag.
   */
  function Animate(s: Scene): (r: Scene)
    // Only the door changes.
    ensures r.(doorAngle := s.doorAngle, doorOpening := s.doorOpening, doorClosing := s.doorClosing) == s
    // The hinge limits are never passed.
    ensures DoorClosedAngle <= s.doorAngle <= DoorOpenAngle ==> DoorClosedAngle <= r.doorAngle <= DoorOpenAngle
    // A tick moves the door by at most one step, toward the requested side.
    ensures s.doorAngle - DoorStep <= r.doorAngle <= s.doorAngle + DoorStep
    ensures s.doorOpening && s.doorAngle < DoorOpenAngle ==> r.doorAngle > s.doorAngle
    ensures !(s.doorOpening && s.doorAngle < DoorOpenAngle) && s.doorClosing && s.doorAngle > DoorClosedAngle
      ==> r.doorAngle < s.doorAngle
    // With nothing to do the tick is a no-op.
    ensures !(s.doorOpening && s.doorAngle < DoorOpenAngle) && !(s.doorClosing && s.doorAngle > DoorClosedAngle)
      ==> r == s
    // Flags are only ever cleared, a cleared flag means its limit was reached,
    // and reaching the limit while moving toward it clears the flag.
    ensures r.doorOpening ==> s.doorOpening
    ensures r.doorClosing ==> s.doorClosing
    ensures s.doorOpening && !r.doorOpening ==> r.doorAngle == DoorOpenAngle
    ensures s.doorClosing && !r.doorClosing ==> r.doorAngle == DoorClosedAngle
    ensures s.doorOpening && s.doorAngle < DoorOpenAngle && r.doorAngle == DoorOpenAngle ==> !r.doorOpening
    ensures (!(s.doorOpening && s.doorAngle < DoorOpenAngle) && s.doorClosing && s.doorAngle > DoorClosedAngle
             && r.doorAngle == DoorClosedAngle) ==> !r.doorClosing
    ensures Invariant(s) ==> Invariant(r)
  {
    if s.doorOpening && s.doorAngle < DoorOpenAngle then
      var a := s.doorAngle + DoorStep;
      if a >= DoorOpenAngle then s.(doorAngle := DoorOpenAngle, doorOpening := false)
      else s.(doorAngle := a)
    else if s.doorClosing && s.doorAngle > DoorClosedAngle then
      var a := s.doorAngle - DoorStep;
      if a <= DoorClosedAngle then s.(doorAngle := DoorClosedAngle, doorClosing := false)
      else s.(doorAngle := a)
    else
      s
  }

  /** `n` consecutive timer ticks. */
  function Ticks(s: Scene, n: nat): (r: Scene)
    decreases n
    ensures r.(doorAngle := s.doorAngle, doorOpening := s.doorOpening, doorClosing := s.doorClosing) == s
    ensures DoorClosedAngle <= s.doorAngle <= DoorOpenAngle ==> DoorClosedAngle <= r.doorAngle <= DoorOpenAngle
    ensures s.doorAngle - DoorStep * n <= r.doorAngle <= s.doorAngle + DoorStep * n
    ensures r.doorOpening ==> s.doorOpening
    ensures r.doorClosing ==> s.doorClosing
    ensures Invariant(s) ==> Invariant(r)
  {
    if n == 0 then s else Animate(Ticks(s, n - 1))
  }

  /** A rotation by +5 degrees that wraps once when the result passes a full turn. */
  function RotateUp(a: int): (r: int)
    ensures InTurn(a) ==> InTurn(r)
    ensures (r - a) % FullTurn == RotateStep
    ensures r == a + RotateStep || r == a + RotateStep - FullTurn
    ensures a + RotateStep <= FullTurn ==> r == a + RotateStep
    ensures a + RotateStep > FullTurn ==> r == a + RotateStep - FullTurn
    ensures r % 5 == a % 5
  {
    var b := a + RotateStep;
    if b > FullTurn then b - FullTurn else b
  }

  /** A rotation by -5 degrees that wraps once when the result drops below zero. */
  function RotateDown(a: int): (r: int)
    ensures InTurn(a) ==> InTurn(r)
    ensures (r - a) % FullTurn == FullTurn - RotateStep
    ensures r == a - RotateStep || r == a - RotateStep + FullTurn
    ensures a - RotateStep >= 0 ==> r == a - RotateStep
    ensures a - RotateStep < 0 ==> r == a - RotateStep + FullTurn
    ensures r % 5 == a % 5
  {
    var b := a - RotateStep;
    if b < 0 then b + FullTurn else b
  }

  /** The keys the keyboard handler acts on, besides escape. */
  predicate IsCommandKey(key: char) {
    key in "xXyYzZoOcClL+-"
  }

  /**
   The state change of one ordinary key press. Escape ends the program
   without touching the scene, so its scene is unchanged here.
   */
  function KeyInput(s: Scene, key: char): (r: Scene)
    // Keys never move the door, only set its direction.
    ensures r.doorAngle == s.doorAngle
    ensures !IsCommandKey(key) ==> r == s
    ensures Invariant(s) ==> Invariant(r)
  {
    match key
    case 'x' => s.(xAngle := RotateUp(s.xAngle))
    case 'X' => s.(xAngle := RotateDown(s.xAngle))
    case 'y' => s.(yAngle := RotateUp(s.yAngle))
    case 'Y' => s.(yAngle := RotateDown(s.yAngle))
    case 'z' => s.(zAngle := RotateUp(s.zAngle))
    case 'Z' => s.(zAngle := RotateDown(s.zAngle))
    case 'o' => s.(doorOpening := true, doorClosing := false)
    case 'O' => s.(doorOpening := true, doorClosing := false)
    case 'c' => s.(doorClosing := true, doorOpening := false)
    case 'C' => s.(doorClosing := true, doorOpening := false)
    case 'l' => s.(lightingEnabled := !s.lightingEnabled)
    case 'L' => s.(lightingEnabled := !s.lightingEnabled)
    case '+' => s.(cameraDistance := s.cameraDistance + ZoomStep)
    case '-' => s.(cameraDistance := s.cameraDistance - ZoomStep)
    case _ => s
  }

  /** The state change of one special (arrow) key press; these do not wrap. */
  function SpecialKeyInput(s: Scene, key: int): (r: Scene)
    ensures r.(xAngle := s.xAngle, yAngle := s.yAngle) == s
    ensures key == KeyUp ==> r.xAngle == s.xAngle - RotateStep && r.yAngle == s.yAngle
    ensures key == KeyDown ==> r.xAngle == s.xAngle + RotateStep && r.yAngle == s.yAngle
    ensures key == KeyLeft ==> r.yAngle == s.yAngle - RotateStep && r.xAngle == s.xAngle
    ensures key == KeyRight ==> r.yAngle == s.yAngle + RotateStep && r.xAngle == s.xAngle
    ensures key !in {KeyUp, KeyDown, KeyLeft, KeyRight} ==> r == s
    ensures Invariant(s) ==> Invariant(r)
  {
    if key == KeyUp then s.(xAngle := s.xAngle - RotateStep)
    else if key == KeyDown then s.(xAngle := s.xAngle + RotateStep)
    else if key == KeyLeft then s.(yAngle := s.yAngle - RotateStep)
    else if key == KeyRight then s.(yAngle := s.yAngle + RotateStep)
    else s
  }

  /**
   The program's globals and its three callbacks. `halted` records that
   escape ended the process; no callback runs after it. `redrawRequests`
   counts the redisplay requests the callbacks post.
   */
  class HydrantApp {
    var xAngle: int
    var yAngle: int
    var zAngle: int
    var doorAngle: int
    var doorOpening: bool
    var doorClosing: bool
    var cameraDistance: int
    var lightingEnabled: bool
    var halted: bool
    ghost var redrawRequests: nat

    /** The fields as a `Scene` value. */
    function Snapshot(): Scene
      reads this
    {
      Scene(xAngle, yAngle, zAngle, doorAngle, doorOpening, doorClosing, cameraDistance, lightingEnabled)
    }

    ghost predicate Valid()
      reads this
    {
      Invariant(Snapshot())
    }

    /** The globals at program start. */
    constructor ()
      ensures Snapshot() == Initial() && Valid()
      ensures !halted && redrawRequests == 0
    {
      xAngle, yAngle, zAngle := 20, 0, 0;
      doorAngle := 0;
      doorOpening, doorClosing := false, false;
      cameraDistance := -80;
      lightingEnabled := true;
      halted := false;
      redrawRequests := 0;
    }

    /** The animation timer callback: one door step, then a redisplay request. */
    method Tick()
      requires !halted
      modifies this
      ensures Snapshot() == Animate(old(Snapshot()))
      ensures old(Valid()) ==> Valid()
      ensures !halted && redrawRequests == old(redrawRequests) + 1
    {
      if doorOpening && doorAngle < DoorOpenAngle {
        doorAngle := doorAngle + DoorStep;
        if doorAngle >= DoorOpenAngle {
          doorAngle := DoorOpenAngle;
          doorOpening := false;
        }
      } else if doorClosing && doorAngle > DoorClosedAngle {
        doorAngle := doorAngle - DoorStep;
        if doorAngle <= DoorClosedAngle {
          doorAngle := DoorClosedAngle;
          doorClosing := false;
        }
      }
      redrawRequests := redrawRequests + 1;
    }

    /**
     The self-rescheduling timer chain: `n` successive firings of the
     animation callback.
     */
    method RunTimer(n: nat)
      requires !halted
      modifies this
      ensures Snapshot() == Ticks(old(Snapshot()), n)
      ensures old(Valid()) ==> Valid()
      ensures !halted && redrawRequests == old(redrawRequests) + n
    {
      var i := 0;
      while i < n
        invariant 0 <= i <= n
        invariant !halted
        invariant Snapshot() == Ticks(old(Snapshot()), i)
        invariant redrawRequests == old(redrawRequests) + i
      {
        Tick();
        i := i + 1;
      }
    }

    /**
     The keyboard callback. Escape ends the program at once, without a
     redisplay request; every other key, recognised or not, posts one.
     */
    method Key(key: char)
      requires !halted
      modifies this
      ensures halted <==> key == Esc
      ensures Snapshot() == KeyInput(old(Snapshot()), key)
      ensures old(Valid()) ==> Valid()
      ensures redrawRequests == old(redrawRequests) + (if key == Esc then 0 else 1)
    {
      if key == Esc {
        halted := true;
        return;
      }
      match key {
      case 'x' =>
        xAngle := xAngle + RotateStep;
        if xAngle > FullTurn { xAngle := xAngle - FullTurn; }
      case 'X' =>
        xAngle := xAngle - RotateStep;
        if xAngle < 0 { xAngle := xAngle + FullTurn; }
      case 'y' =>
        yAngle := yAngle + RotateStep;
        if yAngle > FullTurn { yAngle := yAngle - FullTurn; }
      case 'Y' =>
        yAngle := yAngle - RotateStep;
        if yAngle < 0 { yAngle := yAngle + FullTurn; }
      case 'z' =>
        zAngle := zAngle + RotateStep;
        if zAngle > FullTurn { zAngle := zAngle - FullTurn; }
      case 'Z' =>
        zAngle := zAngle - RotateStep;
        if zAngle < 0 { zAngle := zAngle + FullTurn; }
      case 'o' =>
        doorOpening := true;
        doorClosing := false;
      case 'O' =>
        doorOpening := true;
        doorClosing := false;
      case 'c' =>
        doorClosing := true;
        doorOpening := false;
      case 'C' =>
        doorClosing := true;
        doorOpening := false;
      case 'l' =>
        lightingEnabled := !lightingEnabled;
      case 'L' =>
        lightingEnabled := !lightingEnabled;
      case '+' =>
        cameraDistance := cameraDistance + ZoomStep;
      case '-' =>
        cameraDistance := cameraDistance - ZoomStep;
      case _ =>
      }
      redrawRequests := redrawRequests + 1;
    }

    /** The special-key callback: arrow keys turn about x and y; it always posts a redisplay. */
    method SpecialKey(key: int)
      requires !halted
      modifies this
      ensures Snapshot() == SpecialKeyInput(old(Snapshot()), key)
      ensures old(Valid()) ==> Valid()
      ensures !halted && redrawRequests == old(redrawRequests) + 1
    {
      if key == KeyUp {
        xAngle := xAngle - RotateStep;
      } else if key == KeyDown {
        xAngle := xAngle + RotateStep;
      } else if key == KeyLeft {
        yAngle := yAngle - RotateStep;
      } else if key == KeyRight {
        yAngle := yAngle + RotateStep;
      }
      redrawRequests := redrawRequests + 1;
    }
  }
}
