# Tube runner control state, in Dafny

This project models the control logic of a browser game in which a sphere
travels through a procedurally extended tube. All of that logic lives in
`COS-426-Final-Project/src/app.js`. The model has two parts.

- **Phase and score.** The module-level flags `showMenu`, `endedGame` and
  `soundOn`, the score `scene.virusCount`, the end screen's score text and the
  three menu CSS classes are modelled. They are changed by `startGame`, by
  `endGame`, by the key handler `handleImpactEvents` and by the clot-hit branch
  of the frame loop.
  - `GameState` gives each event as a function on a `Controls` value.
  - `GameControl.Game` is a class with the same state as fields and one method
    per event. Each method is proved to end in the state that the matching
    function computes.
  - The invariant `Inv` says that an ended game never shows the menu. It also
    says that each CSS class mirrors the flags: the start menu is "started"
    exactly in the menu, the score display is "started" exactly while playing,
    and the end menu is "ended" exactly when the game has ended.
  - The handlers are proved to follow the intended three-phase game flow
    (menu, playing, ended), written over phases rather than flags as
    `FlowStep`. Space starts a game from the menu. "q" or a clot ends a
    running game. From the end screen, "s" returns to the menu and Space
    starts a new game. Every other event leaves the phase unchanged.
- **Segment cursor.** This is the per-frame bookkeeping of `curTubeDist`,
  `prevAngle` and `tubeRemove` in `SegmentCursor.Cursor`. It covers the
  deferred mesh removal, the advance along the curve, the heading correction
  by `rotateY`, and the start of the next segment once the current one is used
  up.
  - The tube's `remove`, `removeObjs`, `rotateY` and `addTube` calls are
    recorded in ghost logs.
  - The curve's length and the frame's tangent angle are supplied by the
    caller.

Sound playback and `addForce` on the sphere are calls into code outside the
model. They are recorded as requests (`Effect`): `PlayIntro`, `PlayCrash`,
`StopIfPlaying` and `AddForce(v)`.

Three behaviours of the code differ from what one might expect of such a
game. The model follows the code in each.

- A game-over that fires once would do nothing on a second clot hit. The code
  runs `endGame` again on every clot hit after the game has ended, and on
  every further "q". The flags stay the same (`EndRunRepeats`), but with sound
  on the intro music is requested again each time.
- There is no high score, no speed that ramps up and no power-up. The forward
  speed is the constant `curSpeed = 0.1`.
- Starting a game resets only the score. No speed or other state is reset.

## Model

| member | source | states |
|---|---|---|
| `GameState.KeyMap` | COS-426-Final-Project/src/app.js:276-281 | every arrow key maps to an axis-aligned force in the x/y plane of magnitude 0.02; up is +y, down -y, left -x, right +x |
| `GameState.ToggleMenu` | COS-426-Final-Project/src/app.js:84-95 | `startGame` flips `showMenu`, shows the start menu exactly when the menu is now on and the score display exactly when it is off, and changes nothing else |
| `GameState.Initial` | COS-426-Final-Project/src/app.js:74-88 | after the declarations (all flags false) and the one `startGame` call at line 113, the game is in the menu with sound off, the given score and sphere, and the invariant holds |
| `GameState.EndRun` | COS-426-Final-Project/src/app.js:97-111 | `endGame` sets `endedGame`, records the score as end-screen text, hides the score display, shows the end menu, leaves `showMenu`, sound and score alone, and requests the intro, once, exactly when sound is on |
| `GameState.ToggleSound` | COS-426-Final-Project/src/app.js:283-300 | "m" flips only `soundOn`; it requests the intro exactly when sound comes on in the menu, a stop exactly when sound goes off, and at most one of them |
| `GameState.OnKey` | COS-426-Final-Project/src/app.js:271-365 | keys aimed at an `<input>` and unbound keys (including Enter) change nothing; the invariant is kept; the phase moves as the intended game flow says; "m" issues exactly the `ToggleSound` requests, "q" outside the menu exactly the `EndRun` requests, Space from the menu or end screen exactly one stop request, "s" from the end screen none, "q"/"s" in the menu and Space/"s" during play change nothing and issue nothing; the score is reset exactly when the game leaves the menu or the end screen; only "q" outside the menu rewrites the end score; arrow keys add exactly the `KeyMap` force while playing with a sphere, and otherwise change nothing and issue nothing |
| `GameState.OnClotHit` | COS-426-Final-Project/src/app.js:218-229 | a clot outside the menu does exactly what `endGame` does: it ends the game, records the score and requests the intro exactly when sound is on; in the menu nothing happens; the crash sound is never requested, because `endGame` has already set `endedGame` |
| `GameState.Step` | COS-426-Final-Project/src/app.js:218-229 | dispatches a key press to the handler registered at app.js:269 or a clot hit to the frame loop's clot branch; any such event keeps the invariant, follows the intended game flow, keeps or zeroes the score, and never requests the crash sound |
| `GameState.Run` | COS-426-Final-Project/src/app.js:269-271 | the invariant (`endedGame ==> !showMenu` and the CSS classes mirroring the flags) holds after any sequence of key presses and clot hits |
| `GameState.RunFollowsFlow` | COS-426-Final-Project/src/app.js:303-346 | over any sequence of events the flags' phase equals the phase that the intended game flow reaches |
| `GameState.MenuNeedsSpace` | COS-426-Final-Project/src/app.js:331-346 | from the menu, no sequence of events without a Space press (not aimed at an `<input>`) leaves the menu or changes the score |
| `GameState.NoCrashSound` | COS-426-Final-Project/src/app.js:218-229 | the crash-sound branch is dead: no sequence of events requests it |
| `GameState.ScoreOnlyResets` | COS-426-Final-Project/src/app.js:309-341 | over any sequence of events the handlers either keep the score or set it to 0 |
| `GameState.EndRunRepeats` | COS-426-Final-Project/src/app.js:97-111 | repeating `endGame` leaves the state unchanged, but with sound on it requests the intro music again |
| `GameControl.Game.constructor` | COS-426-Final-Project/src/app.js:74-113 | the page starts in the menu with sound off and the invariant established |
| `GameControl.Game.StartGame` | COS-426-Final-Project/src/app.js:84-95 | the in-place toggle leaves the fields as `ToggleMenu` says |
| `GameControl.Game.EndGame` | COS-426-Final-Project/src/app.js:97-111 | called outside the menu, it keeps the invariant, ends the game, records the old score and issues the `EndRun` requests |
| `GameControl.Game.KeyDown` | COS-426-Final-Project/src/app.js:271-365 | the early-return chain keeps the invariant and leaves the fields and requests as `OnKey` says |
| `GameControl.Game.ClotHit` | COS-426-Final-Project/src/app.js:218-229 | keeps the invariant, matches `OnClotHit`, and adds no crash request |
| `SegmentCursor.Telescope` | COS-426-Final-Project/src/app.js:146-151 | over frames that turn the same way, the applied `rotateY` deltas (`angle - prevAngle`, negated for left) add up to the latest angle, negated for left |
| `SegmentCursor.Cursor.constructor` | COS-426-Final-Project/src/app.js:70-72 | distance 0, angle 0, no pending removal, empty logs |
| `SegmentCursor.Cursor.RemovePending` | COS-426-Final-Project/src/app.js:121-125 | a pending mesh is removed (with one `removeObjs`) exactly when the distance is at least 1, and `tubeRemove` becomes none; otherwise nothing changes |
| `SegmentCursor.Cursor.Advance` | COS-426-Final-Project/src/app.js:145-151 | the distance grows by `curSpeed`; one `rotateY` of the angle change is applied; `prevAngle` becomes the angle; within a one-way segment the rotations add up to the signed stored angle |
| `SegmentCursor.Cursor.Exhaust` | COS-426-Final-Project/src/app.js:188-193 | at or past the segment length, distance and angle reset to 0, exactly one tube is added, the oldest mesh is scheduled (an unexecuted older schedule is logged as dropped) and the segment's total turn is recorded; otherwise nothing changes |
| `SegmentCursor.Cursor.Frame` | COS-426-Final-Project/src/app.js:121-193 | one frame keeps the distance in [0, length); it removes only a due mesh; it applies one rotation; on exhaustion it resets, adds one tube, schedules the oldest mesh and says which scheduled mesh, if any, is dropped, and a one-way segment ends turned by its last angle; a segment at least `1 + curSpeed` long never drops a scheduled removal; removed + dropped + pending always equals the tubes added |

## Left out

- Rendering, the bloom post-processing pass, the camera and window resizing (app.js:20-47, 245-267): these are graphics-library calls and floating-point camera maths.
- Audio loading and playback (app.js:61-65 and the `audioLoader.load` callbacks): modelled only as play and stop requests. The `sound.isPlaying` test is inside the `StopIfPlaying` request.
- The vector geometry of a frame (app.js:135-143, 154-182): sampling points and tangents on the curve, and moving meshes and entities. Only the curve length and the tangent angle enter the model, as parameters.
- The virus, clot and red-cell distance tests and the red-cell push (app.js:196-243). The clot test decides whether `ClotHit` is called. The virus branch's `removeVirus` and `addVirusCount` are in scene code that is not part of this model, so the score here changes only through its resets. In the code that branch (app.js:200-202) has no phase guard; only the squish sound at line 203 is. The real score therefore also grows in the menu and after game over, and a repeated `endGame` then rewrites the end score with the larger count. `GameState.MenuNeedsSpace`'s clause that the score is unchanged, and `GameState.ScoreOnlyResets`, hold only because that branch is outside the model.
- The frame loop's `scene.update(timeStamp)` (app.js:118) and `scene.simulate()` (app.js:186): they move the scene's objects and run its physics in scene code that is not part of this model.
- The per-frame refresh of the score display's text from `scene.virusCount` (app.js:184): it only copies the score to the page, so the model keeps the score and not its on-screen text.
- `roundDistance` and `maxDistance` (app.js:67-68, 152): `roundDistance` only accumulates `curSpeed` at line 152 and is never used anywhere else; `maxDistance` is never used.
- The page's HTML: the initial CSS classes of the three menus are taken to be absent, and the initial end-score text to be unset.
- `scene.virusCount`'s initial value and whether `scene.sphere` exists come from scene code that is not part of this model. They are constructor parameters.
- The code reads the score display as `scoremenu`, which is the browser's global for the element with that id. The constant declared for it is `scoreMenu`. Both are modelled as the one `scoreMenuStarted` flag.
- `SegmentCursor.Cursor.Frame`: `curTubeDist` and the angles are exact reals, so the floating-point rounding of repeated `+= 0.1` is not modelled. `curSpeed` is a positive parameter, where the source fixes it at 0.1.
- `SegmentCursor.Cursor.Exhaust`: `scene.tube.meshes[0]` is taken to exist. An empty mesh list would schedule `undefined`, and that case is not modelled.
- `GameControl.Game.KeyDown`: `event.key` is a string. The test `event.target.tagName === "INPUT"` (app.js:273) is the boolean parameter `targetIsInput`. That test matches every `<input>` element, checkboxes included, and no `<textarea>`. The model does not tell element kinds apart.
