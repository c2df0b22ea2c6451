# Hydrant cabinet viewer: interaction and door-animation state machine

The viewer draws a fire-hydrant cabinet and lets the user rotate it, zoom,
switch lighting, and open or close its door. Its behaviour lives in a handful
of global variables: three orientation angles, the door angle and its
opening/closing flags, the camera distance and the lighting switch. Three
callbacks change them:

- the animation timer moves the door 2 degrees per tick toward 120 (opening)
  or 0 (closing), clamps at the limit and clears the flag;
- the keyboard handler rotates by 5 degrees with a one-step wrap
  (`x X y Y z Z`), sets the door direction (`o O c C`), toggles lighting
  (`l L`), zooms by 5 (`+ -`) and exits on escape;
- the special-key handler turns about x and y with the arrow keys, without
  wrapping.

`hydrant.dfy` (module `Hydrant`) holds the state as a value (`Scene`), one
pure function per callback (`Animate`, `KeyInput`, `SpecialKeyInput`), `Ticks`
for repeated timer firings, the reachable-state `Invariant`, and the class
`HydrantApp` whose fields are the program's globals and whose methods
(`Tick`, `RunTimer`, `Key`, `SpecialKey`) update them in place, each proved
to produce the state the matching function describes. `properties.dfy`
(module `HydrantProperties`) proves the behaviour across several calls:
convergence of the door in exactly 60 ticks, rest at the limits, reversal
without a jump, the wrap range of the letter keys and the inverse key pairs.

The program stores the three angles, the door angle and the camera distance
as `float`; the door and lighting flags are `bool`. Every value those
`float` fields can reach is an integer (angles start at 20 and 0 and move by
5, the door moves by 2 within [0, 120], the camera starts at -80 and moves
by 5), and a `float` holds it exactly while it stays within 2^24 in
magnitude (see "Left out"), so the model uses `int`. `Invariant` records the multiples of 5
and the even door angle.

Rotation wrapping, as the code does it:

- the letter keys keep an angle in the closed range [0, 360]: 360 itself is
  kept, because the wrap test is `> 360` (`FullTurnIsKept`, `RotateUp`);
- the arrow keys do not wrap at all (`ArrowKeysDoNotWrap`);
- the wrap is a single correction, so an angle far outside the turn stays
  outside (`WrapIsOneStep`).

## Model

| member | source | states |
|---|---|---|
| Hydrant.Initial | Group_Project/Hydrant.cpp:7-15 | The starting globals satisfy the reachable-state invariant. The door starts shut and idle, and all three angles start within one turn. |
| Hydrant.Animate | Group_Project/Hydrant.cpp:244-264 | One tick changes only the door. It never leaves [0, 120] and moves by at most one step, toward the requested side, with opening checked first. With nothing to do it is a no-op. Flags are only cleared, only at their limit, and always when the moving door reaches it. It preserves the invariant. |
| Hydrant.Ticks | Group_Project/Hydrant.cpp:244-268 | Any number of ticks keeps the door within [0, 120] and within 2n degrees of where it was. Flags are only cleared, other fields are untouched, and the invariant is preserved. |
| Hydrant.RotateUp | Group_Project/Hydrant.cpp:342-344 | +5 with a single wrap. A result up to and including 360 is not wrapped; a result above 360 has 360 subtracted once, whatever the input (365 gives 10). It stays in [0, 360] when it starts there and turns by +5 modulo 360. |
| Hydrant.RotateDown | Group_Project/Hydrant.cpp:346-348 | -5 with a single wrap. A result of 0 or more is not wrapped; a result below 0 has 360 added once, whatever the input (-5 gives 350). It stays in [0, 360] when it starts there and turns by -5 modulo 360. |
| Hydrant.KeyInput | Group_Project/Hydrant.cpp:335-394 | No key moves the door. An unrecognised key changes nothing. Every key preserves the invariant. |
| Hydrant.SpecialKeyInput | Group_Project/Hydrant.cpp:397-415 | Up/down change the x angle by -5/+5 and left/right change the y angle by -5/+5. Nothing else changes, and any other code is a no-op. |
| Hydrant.HydrantApp.constructor | Group_Project/Hydrant.cpp:7-15 | The globals start at the initial scene, and no redraw has been requested. |
| Hydrant.HydrantApp.Tick | Group_Project/Hydrant.cpp:244-268 | The in-place update yields exactly `Animate` of the old state, keeps the invariant and posts one redraw. |
| Hydrant.HydrantApp.RunTimer | Group_Project/Hydrant.cpp:244-268 | n firings of the self-rescheduling timer yield `Ticks(old, n)` and post n redraws. |
| Hydrant.HydrantApp.Key | Group_Project/Hydrant.cpp:335-394 | The in-place update yields exactly `KeyInput` of the old state. Escape halts without posting a redraw, and every other key posts exactly one. |
| Hydrant.HydrantApp.SpecialKey | Group_Project/Hydrant.cpp:397-415 | The in-place update yields exactly `SpecialKeyInput` of the old state and always posts one redraw. |
| HydrantProperties.TicksAdd | Group_Project/Hydrant.cpp:267 | m ticks followed by n ticks equal m + n ticks. |
| HydrantProperties.OpeningProgress | Group_Project/Hydrant.cpp:247-255 | While opening, k ticks add exactly 2k degrees. The flag is cleared exactly when 120 is reached. |
| HydrantProperties.ClosingProgress | Group_Project/Hydrant.cpp:256-264 | While closing, k ticks remove exactly 2k degrees. The flag is cleared exactly when 0 is reached. |
| HydrantProperties.OpenIsRest | Group_Project/Hydrant.cpp:247-264 | A door at 120 that is not closing never moves, even with the opening flag still set. |
| HydrantProperties.ClosedIsRest | Group_Project/Hydrant.cpp:247-264 | A door at 0 that is not opening never moves. |
| HydrantProperties.OpeningConverges | Group_Project/Hydrant.cpp:247-255 | From any reachable opening state the door reaches 120 in exactly (120 - angle)/2 ticks, with the flag cleared. It is below 120 before that and stays at 120 after. |
| HydrantProperties.ClosingConverges | Group_Project/Hydrant.cpp:256-264 | From any reachable closing state the door reaches 0 in exactly angle/2 ticks and never goes below 0. The flag is cleared, and the door stays at 0 after. |
| HydrantProperties.OpensInSixtyTicks | Group_Project/Hydrant.cpp:247-255 | From shut, `o`/`O` and 60 ticks give a door at 120 with the flag cleared. At 59 ticks the door is at 118, and later ticks change nothing. |
| HydrantProperties.ClosesInSixtyTicks | Group_Project/Hydrant.cpp:256-264 | From fully open, `c`/`C` and 60 ticks give a door at 0 with the flag cleared. At 59 ticks the door is at 2, and later ticks change nothing. |
| HydrantProperties.DoorCommands | Group_Project/Hydrant.cpp:366-375 | Open and close set one flag and clear the other, leaving the angle alone. The next tick moves the door one step the new way from its current angle. |
| HydrantProperties.OpeningTakesPriority | Group_Project/Hydrant.cpp:247-256 | Opening wins only while the door is below 120. At 120 with opening set and closing not set, a tick changes nothing and the opening flag stays set. At 120 with both flags set, the tick falls through to closing and moves the door to 118. |
| HydrantProperties.RotationKeys | Group_Project/Hydrant.cpp:342-365 | Each letter rotation changes only its own angle. It keeps that angle in [0, 360] when it starts there and turns it by ±5 modulo 360. |
| HydrantProperties.FullTurnIsKept | Group_Project/Hydrant.cpp:343-344 | 355 + 5 gives 360, which is not wrapped. A further `x` gives 5. |
| HydrantProperties.WrapIsOneStep | Group_Project/Hydrant.cpp:343-344 | The wrap subtracts 360 once only, so 720 + 5 gives 365. |
| HydrantProperties.ArrowKeysDoNotWrap | Group_Project/Hydrant.cpp:401-412 | Up from 0 gives -5 and right from 360 gives 365. |
| HydrantProperties.ArrowKeysCancel | Group_Project/Hydrant.cpp:401-412 | Up then down, and left then right, restore the scene. |
| HydrantProperties.RotationKeysCancel | Group_Project/Hydrant.cpp:342-349 | On [0, 360), `x` then `X` restores the scene; on (0, 360], `X` then `x` restores it. At the excluded ends they do not: `X` then `x` takes 0 to 360, and `x` then `X` takes 360 to 0. |
| HydrantProperties.LightingToggle | Group_Project/Hydrant.cpp:376-378 | `l`/`L` flips only the lighting switch, and two presses restore it. |
| HydrantProperties.ZoomKeys | Group_Project/Hydrant.cpp:384-389 | `+`/`-` move the camera by exactly ±5 with no bound. `+` then `-` is the identity, and `+ + + -` nets +10. |

## Left out

- All drawing (`drawBox`, `drawAlarmButton`, `drawConnector`, `drawSpeakerHoles`, `drawHydrantText`, `drawHydrantCabinet`, `drawScene`): fixed-function graphics calls with no state of their own. The transform push/pop discipline belongs to the graphics library's state.
- `setupLighting`, `setup` and `resize`: graphics-context setup and a floating-point perspective projection.
- The timer's 16 ms period, the initial 5 ms delay and drift: the model counts firings (`RunTimer`) and leaves out time.
- The redisplay itself: the model only counts redraw requests, in the ghost field `redrawRequests`.
- The graphics side effect of the lighting toggle (enabling or disabling `GL_LIGHTING`): only the boolean is modelled.
- Escape's process exit: it is the `halted` field. Every callback requires that escape has not been pressed, because after `exit(0)` none can run.
- `printInstructions` and `main`: console output and window creation.
- Floating-point precision: `float` holds these integers exactly only up to 2^24 in magnitude. The arrow keys and zoom are unbounded, so millions of presses could leave that range. The model uses unbounded `int`.
- Key codes: the keyboard handler's `unsigned char` is a Dafny `char`. The arrow-key codes are GLUT's values (left 100, up 101, right 102, down 103), taken from the GLUT header, which is not part of this model.
