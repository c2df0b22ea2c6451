/**
 Properties of the hydrant viewer's state machine that span several
 callbacks: door convergence and rest, direction reversal, the angle-wrap
 range of the letter keys, and the inverse pairs among the keys.
 */
module HydrantProperties {
  import opened Hydrant

  /** Running the timer for `m` then `n` ticks is running it for `m + n`. */
  lemma {:induction false} TicksAdd(s: Scene, m: nat, n: nat)
    ensures Ticks(s, m + n) == Ticks(Ticks(s, m), n)
    decreases n
  {
    if n > 0 {
      TicksAdd(s, m, n - 1);
    }
  }

  /**
   While opening, each tick adds exactly one step: after `k` ticks that do
   not pass the open limit the door is `2k` degrees further, and the opening
   flag is cleared exactly when the limit is reached.
   */
  lemma {:induction false} OpeningProgress(s: Scene, k: nat)
    requires Invariant(s) && s.doorOpening && s.doorAngle < DoorOpenAngle
    requires DoorStep * k <= DoorOpenAngle - s.doorAngle
    ensures Ticks(s, k) == s.(doorAngle := s.doorAngle + DoorStep * k,
                              doorOpening := s.doorAngle + DoorStep * k < DoorOpenAngle)
    decreases k
  {
    if k > 0 {
      OpeningProgress(s, k - 1);
    }
  }

  /** While closing, each tick removes exactly one step, down to the closed limit. */
  lemma {:induction false} ClosingProgress(s: Scene, k: nat)
    requires Invariant(s) && s.doorClosing && s.doorAngle > DoorClosedAngle
    requires DoorStep * k <= s.doorAngle - DoorClosedAngle
    ensures Ticks(s, k) == s.(doorAngle := s.doorAngle - DoorStep * k,
                              doorClosing := s.doorAngle - DoorStep * k > DoorClosedAngle)
    decreases k
  {
    if k > 0 {
      ClosingProgress(s, k - 1);
    }
  }

  /**
   A fully open door that is not asked to close stays put, whether or not
   its opening flag is still set.
   */
  lemma {:induction false} OpenIsRest(s: Scene, k: nat)
    requires s.doorAngle == DoorOpenAngle && !s.doorClosing
    ensures Ticks(s, k) == s
    decreases k
  {
    if k > 0 {
      OpenIsRest(s, k - 1);
    }
  }

  /** A shut door that is not asked to open stays put. */
  lemma {:induction false} ClosedIsRest(s: Scene, k: nat)
    requires s.doorAngle == DoorClosedAngle && !s.doorOpening
    ensures Ticks(s, k) == s
    decreases k
  {
    if k > 0 {
      ClosedIsRest(s, k - 1);
    }
  }

  /**
   From any reachable opening state the door reaches the open limit in
   exactly `(120 - angle) / 2` ticks, with the opening flag then cleared,
   and every later tick leaves it there.
   */
  lemma OpeningConverges(s: Scene)
    requires Invariant(s) && s.doorOpening && s.doorAngle < DoorOpenAngle
    ensures var n := (DoorOpenAngle - s.doorAngle) / DoorStep;
      && Ticks(s, n) == s.(doorAngle := DoorOpenAngle, doorOpening := false)
      && (forall k: nat :: k < n ==> Ticks(s, k).doorAngle < DoorOpenAngle)
      && (forall k: nat :: k >= n ==> Ticks(s, k) == Ticks(s, n))
  {
    var n := (DoorOpenAngle - s.doorAngle) / DoorStep;
    assert DoorStep * n == DoorOpenAngle - s.doorAngle;
    OpeningProgress(s, n);
    forall k: nat | k < n
      ensures Ticks(s, k).doorAngle < DoorOpenAngle
    {
      OpeningProgress(s, k);
    }
    forall k: nat | k >= n
      ensures Ticks(s, k) == Ticks(s, n)
    {
      TicksAdd(s, n, k - n);
      OpenIsRest(Ticks(s, n), k - n);
    }
  }

  /**
   From any reachable closing state the door reaches the closed limit in
   exactly `angle / 2` ticks, never going below it, with the closing flag
   then cleared, and every later tick leaves it there.
   */
  lemma ClosingConverges(s: Scene)
    requires Invariant(s) && s.doorClosing && s.doorAngle > DoorClosedAngle
    ensures var n := (s.doorAngle - DoorClosedAngle) / DoorStep;
      && Ticks(s, n) == s.(doorAngle := DoorClosedAngle, doorClosing := false)
      && (forall k: nat :: k < n ==> Ticks(s, k).doorAngle > DoorClosedAngle)
      && (forall k: nat :: k >= n ==> Ticks(s, k) == Ticks(s, n))
  {
    var n := (s.doorAngle - DoorClosedAngle) / DoorStep;
    assert DoorStep * n == s.doorAngle - DoorClosedAngle;
    ClosingProgress(s, n);
    forall k: nat | k < n
      ensures Ticks(s, k).doorAngle > DoorClosedAngle
    {
      ClosingProgress(s, k);
    }
    forall k: nat | k >= n
      ensures Ticks(s, k) == Ticks(s, n)
    {
      TicksAdd(s, n, k - n);
      ClosedIsRest(Ticks(s, n), k - n);
    }
  }

  /** From shut, an open command makes the door fully open after exactly 60 ticks. */
  lemma OpensInSixtyTicks(s: Scene, key: char)
    requires Invariant(s) && s.doorAngle == DoorClosedAngle
    requires key == 'o' || key == 'O'
    ensures var t := KeyInput(s, key);
      && Ticks(t, 60) == t.(doorAngle := DoorOpenAngle, doorOpening := false)
      && Ticks(t, 59).doorAngle == DoorOpenAngle - DoorStep
      && (forall k: nat :: k >= 60 ==> Ticks(t, k) == Ticks(t, 60))
  {
    var t := KeyInput(s, key);
    OpeningConverges(t);
    OpeningProgress(t, 59);
  }

  /** From fully open, a close command makes the door shut after exactly 60 ticks. */
  lemma ClosesInSixtyTicks(s: Scene, key: char)
    requires Invariant(s) && s.doorAngle == DoorOpenAngle
    requires key == 'c' || key == 'C'
    ensures var t := KeyInput(s, key);
      && Ticks(t, 60) == t.(doorAngle := DoorClosedAngle, doorClosing := false)
      && Ticks(t, 59).doorAngle == DoorClosedAngle + DoorStep
      && (forall k: nat :: k >= 60 ==> Ticks(t, k) == Ticks(t, 60))
  {
    var t := KeyInput(s, key);
    ClosingConverges(t);
    ClosingProgress(t, 59);
  }

  /**
   An open or close command sets the direction and nothing else: the door
   stays where it is, and the next tick moves it one step the new way from
   there, reversing a motion in progress without a jump.
   */
  lemma DoorCommands(s: Scene, key: char)
    requires key in "oOcC"
    ensures var t := KeyInput(s, key);
      && t.doorAngle == s.doorAngle
      && (key in "oO" ==> t == s.(doorOpening := true, doorClosing := false))
      && (key in "cC" ==> t == s.(doorOpening := false, doorClosing := true))
      && ((key in "oO" && DoorClosedAngle <= s.doorAngle <= DoorOpenAngle - DoorStep)
            ==> Animate(t).doorAngle == s.doorAngle + DoorStep)
      && ((key in "cC" && DoorClosedAngle + DoorStep <= s.doorAngle <= DoorOpenAngle)
            ==> Animate(t).doorAngle == s.doorAngle - DoorStep)
  {
  }

  /**
   With both flags set (which no key sequence produces) opening wins while
   the door is short of open; at the open limit the opening flag is left set
   and the tick falls through to closing.
   */
  lemma OpeningTakesPriority(s: Scene)
    requires s.doorOpening
    ensures s.doorAngle < DoorOpenAngle ==> Animate(s).doorAngle > s.doorAngle
    ensures s.doorAngle >= DoorOpenAngle && !s.doorClosing ==> Animate(s) == s
    ensures s.doorAngle == DoorOpenAngle ==> Animate(s).doorOpening
    ensures s.doorClosing && s.doorAngle == DoorOpenAngle
      ==> Animate(s) == s.(doorAngle := DoorOpenAngle - DoorStep)
  {
  }

  /**
   A letter rotation key changes only its own axis, keeps it within
   [0, 360] when it starts there (360 itself is kept, as the wrap test is
   strict), and turns it by +5 or -5 degrees modulo a full turn.
   */
  lemma RotationKeys(s: Scene, key: char)
    requires key in "xXyYzZ"
    ensures var r := KeyInput(s, key);
      var turn := if key in "xyz" then RotateStep else FullTurn - RotateStep;
      && (key in "xX" ==> r == s.(xAngle := r.xAngle) && (InTurn(s.xAngle) ==> InTurn(r.xAngle))
                           && (r.xAngle - s.xAngle) % FullTurn == turn)
      && (key in "yY" ==> r == s.(yAngle := r.yAngle) && (InTurn(s.yAngle) ==> InTurn(r.yAngle))
                           && (r.yAngle - s.yAngle) % FullTurn == turn)
      && (key in "zZ" ==> r == s.(zAngle := r.zAngle) && (InTurn(s.zAngle) ==> InTurn(r.zAngle))
                           && (r.zAngle - s.zAngle) % FullTurn == turn)
  {
  }

  /** An angle of exactly 360 is left alone by a rotation that lands on it, and wraps on the next. */
  lemma FullTurnIsKept(s: Scene)
    requires s.xAngle == FullTurn - RotateStep
    ensures KeyInput(s, 'x').xAngle == FullTurn
    ensures KeyInput(KeyInput(s, 'x'), 'x').xAngle == RotateStep
  {
  }

  /** The wrap is a single correction: an angle far outside the turn stays outside. */
  lemma WrapIsOneStep(s: Scene)
    requires s.xAngle == 2 * FullTurn
    ensures KeyInput(s, 'x').xAngle == FullTurn + RotateStep
  {
  }

  /** Arrow keys do not wrap, so they can take an angle out of [0, 360]. */
  lemma ArrowKeysDoNotWrap(s: Scene)
    requires s.xAngle == 0 && s.yAngle == FullTurn
    ensures SpecialKeyInput(s, KeyUp).xAngle == -RotateStep
    ensures SpecialKeyInput(s, KeyRight).yAngle == FullTurn + RotateStep
  {
  }

  /** Opposite arrow keys undo each other. */
  lemma ArrowKeysCancel(s: Scene)
    ensures SpecialKeyInput(SpecialKeyInput(s, KeyUp), KeyDown) == s
    ensures SpecialKeyInput(SpecialKeyInput(s, KeyLeft), KeyRight) == s
  {
  }

  /**
   A letter rotation followed by its opposite restores the angle on the part
   of the turn where the two wraps agree: `x` then `X` on [0, 360), `X` then
   `x` on (0, 360]. At the other end the pair lands on the twin of the angle.
   */
  lemma RotationKeysCancel(s: Scene)
    ensures 0 <= s.xAngle < FullTurn ==> KeyInput(KeyInput(s, 'x'), 'X') == s
    ensures 0 < s.xAngle <= FullTurn ==> KeyInput(KeyInput(s, 'X'), 'x') == s
    ensures s.xAngle == FullTurn ==> KeyInput(KeyInput(s, 'x'), 'X').xAngle == 0
    ensures s.xAngle == 0 ==> KeyInput(KeyInput(s, 'X'), 'x').xAngle == FullTurn
  {
  }

  /** The lighting key flips the switch, and pressing it twice restores it. */
  lemma LightingToggle(s: Scene, key: char)
    requires key == 'l' || key == 'L'
    ensures KeyInput(s, key) == s.(lightingEnabled := !s.lightingEnabled)
    ensures KeyInput(KeyInput(s, key), key) == s
  {
  }

  /** Zoom moves the camera by exactly 5 without a bound; `+` and `-` undo each other. */
  lemma ZoomKeys(s: Scene)
    ensures KeyInput(s, '+') == s.(cameraDistance := s.cameraDistance + ZoomStep)
    ensures KeyInput(s, '-') == s.(cameraDistance := s.cameraDistance - ZoomStep)
    ensures KeyInput(KeyInput(s, '+'), '-') == s
    ensures KeyInput(KeyInput(KeyInput(KeyInput(s, '+'), '+'), '+'), '-').cameraDistance
              == s.cameraDistance + 2 * ZoomStep
  {
  }
}
