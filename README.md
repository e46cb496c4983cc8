# Room interactions: a Dafny model

This project models the interaction logic of a first-person 3D room. It
has four parts:

- **Pointer interaction resolver** (`useRaycast`).
  - It sorts the scene's named objects into walls and interactive objects, caching both lists for 5000 ms.
  - It classifies what a click or a hover ray meets, checking walls before interactive objects.
  - It cancels walking on a wall click or a click on nothing.
  - It throttles the hover decision (50 ms) and the forward-obstruction check (100 ms).
- **Camera motion controller** (`CustomControls`). This is a mutable state bag: held keys, velocity, pitch and yaw, zoom, a wall cache and a pending-frame flag.
  - Key, pointer and touch handlers update it.
  - A self-rescheduling tick turns held keys into a target direction, damps and accelerates the velocity, stops at walls found by probe rays (or advances the camera), and clamps the pitch.
- **Terminal** (`Terminal`). A tokeniser and five commands (`help`, `clear`, `ls`, `cat`, `answer`) over a fixed three-file table, and a log that every command extends or, for `clear`, empties.
- **Camera store** (`cameraStore`). A seven-field record whose setters each overwrite one field.

Modules:

| module | file | contents |
|---|---|---|
| `Wrappers` | `wrappers.dfy` | `Option`, for `null`/`undefined` slots |
| `Strings` | `strings.dfy` | `toLowerCase` (ASCII), `includes`, `trim` (exact JavaScript white-space set), `split` on one character, `join`, `padStart`, number to decimal |
| `Geometry` | `geometry.dfy` | `Vec3`, squared length, clamp |
| `Scene` | `scene.dfy` | scene objects, the name-based classification, ray tests |
| `Store` | `store.dfy` | the camera store class |
| `Raycast` | `raycast.dfy` | the `useRaycast` state as a class and its decision functions |
| `Controls` | `controls.dfy` | the `CustomControls` state bag as a class and its step functions |
| `Terminal` | `terminal.dfy` | the file table, commands, tokeniser and the terminal state class |

**Ray tests.** A ray test is an oracle: `Ray = SceneObject -> Option<real>` gives the distance at which the ray meets an object, if it does.

- `Intersect` lists the hits in traversal order.
- `Nearest` picks what three.js reports first after its stable sort by distance: the least distance, the earliest among ties.
- So "the hit list is not empty" and "the first hit is nearer than d" are derived facts. An empty object list has no hits.

**Clocks.** `performance.now()` and `Date.now()` are `int` millisecond parameters. One handler call reads one value of the clock.

**Caller-supplied values.** Some tick and touch values need a square root: the normalised target direction, the speed and the finger distance. They enter as parameters, and preconditions state the equations that define them:

- `targetScale² · |raw|² = acceleration²`;
- `speed² = |v|²`;
- `span² = dx² + dy²`.

The swipe test compares squared distances (`dx² + dy² > 50²`).

**Two caches.** The interaction resolver and the controller refresh their caches differently.

- `useRaycast.js:33` refreshes when the cache is at least 5000 ms old. There is no "already populated" test, so a hook mounted and clicked before 5000 ms has empty lists, and every such click is classified as hitting nothing and cancelled (`EarlyClickIsCancelled`).
- `CustomControls.jsx:42-45` refreshes when there is no cache, or when it is strictly more than 5000 ms old.

**Keys.** A key-down writes the key under its raw identifier and under its lower-cased one; a key-up clears both. A key pressed with Shift ("W") and released after Shift ("w") therefore stays held under "W". `ShiftedReleaseLeavesKeyHeld` states the consequence: some key stays held, so every tick requests the next frame, while the direction asked for is the one with "w" released.

**Swipes.** A one-finger swipe presses a direction key but, unlike a key-down, requests no frame (`CustomControls.jsx:132-157`). `SwipeAloneRequestsNoFrame` shows that on a fresh controller a swipe leaves no frame pending and that its timer's release leaves nothing held. Whether a frame runs in between is up to the browser's frame scheduling, which is not part of this model.

## Model

| member | source | states |
|---|---|---|
| Strings.ToLower | src/components/interactions/useRaycast.js:43 | same length, each character lower-cased (ASCII letters) |
| Strings.ToLowerIdempotent | src/components/interactions/useRaycast.js:43 | lower-casing twice is lower-casing once |
| Strings.Contains | src/components/interactions/useRaycast.js:45-60 | `includes` holds exactly when the substring occurs at some index |
| Strings.LeadingSpaces | src/components/Terminal.jsx:46 | the longest white-space prefix |
| Strings.TrailingSpaces | src/components/Terminal.jsx:46 | the longest white-space suffix |
| Strings.Trim | src/components/Terminal.jsx:46 | the result is a slice of the input that neither starts nor ends with white space, and everything cut off on either side is white space |
| Strings.TrimEmptyIffAllSpace | src/components/Terminal.jsx:69 | a string trims to empty exactly when it is all white space |
| Strings.Split | src/components/Terminal.jsx:12 | at least one part, no part holds the separator, joining the parts gives the input back |
| Strings.SplitPrefix | src/components/Terminal.jsx:46 | a separator-free prefix extends the first part of the rest's split |
| Strings.SplitJoin | src/components/Terminal.jsx:12 | splitting undoes joining, for separator-free parts |
| Strings.Repeat | src/components/Terminal.jsx:12 | `n` copies of the pad character |
| Strings.PadStart | src/components/Terminal.jsx:12 | the input right-aligned in the width, padded on the left with the pad character |
| Strings.DigitChar | src/components/Terminal.jsx:12 | a digit renders as the decimal digit character whose value it is |
| Strings.NatToString | src/components/Terminal.jsx:12 | decimal digits with no leading zero; one digit exactly below 10 |
| Strings.ParseNatToString | src/components/Terminal.jsx:12 | reading the rendered digits back gives the number |
| Geometry.LengthSq | src/components/interactions/CustomControls.jsx:347 | a squared length is never negative |
| Geometry.Clamp | src/components/interactions/CustomControls.jsx:168-171 | `max(lo, min(hi, x))` lies in `[lo, hi]`, is `x` inside and the nearer bound outside |
| Scene.HasKeyword | src/components/interactions/useRaycast.js:47-60 | true exactly when some listed keyword occurs in the lower-cased name |
| Scene.Classify | src/components/interactions/useRaycast.js:40-63 | a named object is a wall iff its lower-cased name contains "wall"; interactive iff it does not but contains a keyword; an unnamed object is neither |
| Scene.WallpaperIsWall | src/components/interactions/useRaycast.js:45-56 | "Wallpaper" contains both "wall" and "paper" and is a wall |
| Scene.Select | src/components/interactions/useRaycast.js:37-64 | a bucket holds exactly the scene's objects of that class |
| Scene.SelectKeepsOrder | src/components/interactions/useRaycast.js:40-64 | each bucket is a subsequence of the traversal order |
| Scene.BucketsDisjoint | src/components/interactions/useRaycast.js:40-63 | no object is in both buckets; unnamed objects are in neither |
| Scene.Intersect | src/components/interactions/useRaycast.js:121-124 | the hits are exactly the objects of the list that the ray meets, each with its distance |
| Scene.Nearest | src/components/interactions/useRaycast.js:127 | the reported hit is one of the hits and no hit is nearer |
| Scene.FirstHitWithinIff | src/components/interactions/useRaycast.js:101-104 | "first hit nearer than d" holds iff some object of the list is met nearer than d |
| Scene.AnyHitIff | src/components/interactions/useRaycast.js:126 | the hit list is non-empty iff the ray meets some object of the list |
| Store.CameraStore.constructor | src/store/cameraStore.js:4-10 | zero positions and rotations, no active camera, not walking, not dragging |
| Store.CameraStore.SetCameraPosition | src/store/cameraStore.js:11 | overwrites `cameraPosition` alone |
| Store.CameraStore.SetCameraRotation | src/store/cameraStore.js:12 | overwrites `cameraRotation` alone |
| Store.CameraStore.SetTargetCameraPosition | src/store/cameraStore.js:13-14 | overwrites `targetCameraPosition` alone |
| Store.CameraStore.SetTargetCameraRotation | src/store/cameraStore.js:15-16 | overwrites `targetCameraRotation` alone |
| Store.CameraStore.SetActiveCamera | src/store/cameraStore.js:17 | overwrites `activeCamera` alone |
| Store.CameraStore.SetIsWalking | src/store/cameraStore.js:18 | overwrites `isWalking` alone, which then equals the argument |
| Store.CameraStore.SetIsDragging | src/store/cameraStore.js:19 | overwrites `isDragging` alone, which then equals the argument |
| Store.SettersIdempotent | src/store/cameraStore.js:11-19 | each setter applied twice with one value equals applying it once |
| Raycast.RefreshCacheSpec | src/components/interactions/useRaycast.js:37-68 | a refresh keeps every cached wall a wall and every cached interactive object interactive; one that ran keeps the traversal order in both lists |
| Raycast.EarlyRefreshesLeaveCacheEmpty | src/components/interactions/useRaycast.js:14-18 | with no populated test, refreshes before 5000 ms leave the initial empty cache as it was |
| Raycast.RefreshCache | src/components/interactions/useRaycast.js:29-69 | within 5000 ms the cache is kept as it was; otherwise the lists hold exactly the scene's walls and interactive objects and the time is `now` |
| Raycast.ClassifyClick | src/components/interactions/useRaycast.js:120-140 | wall iff the wall hit list is non-empty; interactive iff it is empty and the interactive one is not; the reported hit belongs to the deciding list and none of that list is nearer |
| Raycast.HoverCursor | src/components/interactions/useRaycast.js:169-190 | always sets a cursor; the pointer iff no wall is hit and something interactive is |
| Raycast.ClickClassification | src/components/interactions/useRaycast.js:120-140 | wall iff the ray meets some wall (even if interactive objects are also hit); interactive iff no wall and some interactive object; none iff neither; the reported hit is the nearest of its list |
| Raycast.HoverAgreesWithClick | src/components/interactions/useRaycast.js:175-190 | the pointer cursor shows exactly where a click would not be cancelled |
| Raycast.RaycastState.constructor | src/components/interactions/useRaycast.js:14-26 | empty buckets at time 0, both throttle clocks 0 |
| Raycast.RaycastState.UpdateObjectCache | src/components/interactions/useRaycast.js:29-69 | the traversal loop leaves the cache equal to `RefreshCache` of the old one; throttle clocks and cursor unchanged |
| Raycast.RaycastState.CheckForwardObstruction | src/components/interactions/useRaycast.js:72-105 | within 100 ms of the last check: false and no change; otherwise the check time is `now`, the cache refreshed, and the result is whether the nearest wall ahead is nearer than 2 |
| Raycast.RaycastState.CheckClick | src/components/interactions/useRaycast.js:108-143 | refreshes the cache, then returns the wall-first classification of the click ray |
| Raycast.RaycastState.HandleMouseMove | src/components/interactions/useRaycast.js:150-191 | a move within 50 ms changes nothing; otherwise the clock is `now` and the cursor is the hover decision; the cache is never refreshed here |
| Raycast.RaycastState.HandleClick | src/components/interactions/useRaycast.js:194-217 | cancelled iff the click is on a wall or nothing; then (only then) the store's `isWalking` is set false and every other store field is unchanged |
| Raycast.EarlyClickIsCancelled | src/components/interactions/useRaycast.js:14-18 | a hook mounted and clicked before 5000 ms cancels the click whatever the scene and ray |
| Controls.ClampPitch | src/components/interactions/CustomControls.jsx:227-231 | the pitch lies in `[-maxPhi, maxPhi]` and is unchanged when already inside |
| Controls.Press | src/components/interactions/CustomControls.jsx:437-440 | the key is held under its raw and lower-cased identifiers; no other entry is added or changed |
| Controls.Release | src/components/interactions/CustomControls.jsx:445-449 | both identifiers are present and not held; no other entry is added or changed |
| Controls.ReleaseUndoesPress | src/components/interactions/CustomControls.jsx:437-449 | a key-down holds the key under both identifiers; the matching key-up releases both and leaves nothing held that was not |
| Controls.ShiftedReleaseLeavesKeyHeld | src/components/interactions/CustomControls.jsx:437-449 | pressed as "W", released as "w": "W" stays held, so some key is held, while the direction is as with "w" released |
| Controls.TargetSigns | src/components/interactions/CustomControls.jsx:302-327 | forward sign = [w or ArrowUp] − [s or ArrowDown], strafe sign = [d or ArrowRight] − [a or ArrowLeft], each in {-1, 0, 1}; opposite keys cancel |
| Controls.NoDirectionOnlyDamps | src/components/interactions/CustomControls.jsx:330-337 | with no direction the target is zero and the velocity is only damped |
| Controls.PitchStep | src/components/interactions/CustomControls.jsx:368-375 | Q and E together cancel; the step is positive iff only Q is held |
| Controls.SwipeKey | src/components/interactions/CustomControls.jsx:120-157 | a key is pressed iff the squared distance exceeds 50² and less than 300 ms passed; it is one of w, a, s, d, and a or d exactly when the horizontal offset dominates |
| Controls.SwipeDirection | src/components/interactions/CustomControls.jsx:132-157 | horizontal-dominant swipes strafe toward their side; the rest (ties included) drive back when downward and forward when upward |
| Controls.BlockedIff | src/components/interactions/CustomControls.jsx:80-91 | a collision is some wall met by some probe nearer than the distance |
| Controls.Blocked | src/components/interactions/CustomControls.jsx:80-91 | a collision needs some probe and some wall: no walls, no collision |
| Controls.PitchStaysInRange | src/components/interactions/CustomControls.jsx:377-382 | after a frame that moved the pitch is within the limit; otherwise it is unchanged |
| Controls.ControlsState.constructor | src/components/interactions/CustomControls.jsx:12-35 | no keys, zero velocity, zoom 1, no wall cache, no frame pending, pose read from the camera |
| Controls.ControlsState.GetWallObjects | src/components/interactions/CustomControls.jsx:38-58 | rebuilds (the named objects containing "wall", in order, time `now`) only when there is no cache or it is more than 5000 ms old; otherwise returns the cached list unchanged |
| Controls.ControlsState.CheckCollision | src/components/interactions/CustomControls.jsx:61-92 | false without a scene; otherwise `Blocked` over the wall cache as refreshed at this call |
| Controls.CastProbes | src/components/interactions/CustomControls.jsx:80-91 | the probe loop answers true exactly when some probe's nearest wall hit is closer than the distance (`Blocked`) |
| Controls.ControlsState.HandleKeyDown | src/components/interactions/CustomControls.jsx:415-443 | while walking nothing changes; otherwise both identifiers are held, control keys have their default prevented and a frame is requested iff none was pending |
| Controls.ControlsState.HandleKeyUp | src/components/interactions/CustomControls.jsx:445-459 | releases both identifiers in either mode; when not walking and nothing is held, pitch and yaw are re-read from the camera |
| Controls.ControlsState.HandleTouchStart | src/components/interactions/CustomControls.jsx:104-116 | one finger records the swipe start, two record the pinch span, others change nothing |
| Controls.ControlsState.HandleTouchMove | src/components/interactions/CustomControls.jsx:118-178 | a one-finger swipe presses the `SwipeKey` key; a pinch moves the zoom by 0.005 per pixel of span change, clamped to [0.5, 2], and leaves it unchanged when no pinch start is recorded; walking changes nothing |
| Controls.ControlsState.ReleaseSwipeKey | src/components/interactions/CustomControls.jsx:136-155 | the swipe's timer releases the key it pressed |
| Controls.ControlsState.HandlePointerMove | src/components/interactions/CustomControls.jsx:211-248 | under pointer lock, not walking, at least 16 ms after the last update: yaw and pitch turn by the deltas times 0.0015, pitch clamped; otherwise nothing changes |
| Controls.ControlsState.UpdateVelocity | src/components/interactions/CustomControls.jsx:334-344 | damping, acceleration toward the target and the speed limit give `NextVelocity` |
| Controls.ControlsState.StopOrAdvance | src/components/interactions/CustomControls.jsx:347-365 | above the threshold a collision zeroes the velocity, leaves the position and calls `onCollision` once; no collision advances the position by exactly the velocity; with a scene the wall cache is rebuilt (time `now`) when missing or more than 5000 ms old and kept otherwise, and the collision is `Blocked` over it; below the threshold or without a scene nothing is checked and the cache is untouched |
| Controls.ControlsState.Move | src/components/interactions/CustomControls.jsx:330-365 | the velocity update followed by the collision response, with probes looking `speed + 0.4` ahead and the wall cache rule of `StopOrAdvance` |
| Controls.ControlsState.TiltPitch | src/components/interactions/CustomControls.jsx:368-375 | Q raises and E lowers the pitch by 0.005; reports whether either is held |
| Controls.ControlsState.Tilt | src/components/interactions/CustomControls.jsx:367-403 | a frame moved iff the camera advanced or Q/E is held; then the pitch is clamped, the rotation rebuilt, and the clock set when more than 100 ms have passed |
| Controls.ControlsState.Step | src/components/interactions/CustomControls.jsx:275-406 | one non-walking frame: velocity, collision response against the refreshed wall cache, pitch; yaw, keys, zoom, touch state and the pending-frame flag unchanged |
| Controls.ControlsState.Tick | src/components/interactions/CustomControls.jsx:258-413 | walking re-reads the pose and changes nothing else (velocity, position, rotation, zoom, wall cache and its time, touch state, clocks); otherwise one `Step`; either way the next frame is requested iff some key is held |
| Controls.SwipeAloneRequestsNoFrame | src/components/interactions/CustomControls.jsx:118-157 | on a fresh controller a swipe presses its key but leaves no frame pending, and after its timer nothing is held |
| Terminal.Lookup | src/components/Terminal.jsx:22 | a name is found iff some file of the table has it, and the content found is that file's |
| Terminal.Names | src/components/Terminal.jsx:18 | the file names in table order |
| Terminal.NumberLineNoNewline | src/components/Terminal.jsx:12 | numbering a line adds no newline |
| Terminal.NumberedLinesNoNewline | src/components/Terminal.jsx:12 | numbering newline-free lines leaves every numbered line newline-free |
| Terminal.FormatWithLineNumbers | src/components/Terminal.jsx:11-13 | splitting the listing at its newlines gives back exactly the numbered lines, one per line of the text |
| Terminal.FormatKeepsLines | src/components/Terminal.jsx:11-13 | the listing has one line per input line, line `i` being `padStart(i + 1, 2)`, a space, input line `i` |
| Terminal.FindCommand | src/components/Terminal.jsx:15-37 | a name finds a command iff it is one of the five table keys, and each key finds its own command |
| Terminal.Tokenize | src/components/Terminal.jsx:46 | name and arguments joined by single spaces give the trimmed line back; no token holds a space |
| Terminal.TokenizeJoin | src/components/Terminal.jsx:46 | tokenising words joined by single spaces gives the words back |
| Terminal.AfterCommand | src/components/Terminal.jsx:45-65 | `clear` empties the log; any other command keeps every earlier entry and appends the `$ cmd` echo and an output entry holding `Respond` of the tokenised line |
| Terminal.TerminalState.constructor | src/components/Terminal.jsx:40-41 | empty input and the one greeting line |
| Terminal.TerminalState.ExecuteCommand | src/components/Terminal.jsx:45-65 | the log becomes `AfterCommand` of the old log and the untrimmed command |
| Terminal.TerminalState.HandleKeyDown | src/components/Terminal.jsx:67-74 | Enter on a non-blank input executes it and clears the input; anything else changes nothing |
| Terminal.TerminalState.HandleChange | src/components/Terminal.jsx:150 | the input becomes the field's value |
| Terminal.ListFiles | src/components/Terminal.jsx:18 | `ls` prints "riddle.txt  words.txt  live.txt" |
| Terminal.FileTable | src/components/Terminal.jsx:4-8 | each declared name finds its own text, and no file is empty |
| Terminal.CatFile | src/components/Terminal.jsx:19-29 | no arguments: usage; a name outside the table: not found; `words.txt`: the numbered listing; the other files: their raw text |
| Terminal.AnswerRiddle | src/components/Terminal.jsx:31-36 | correct iff there is a first argument and it lower-cases to "keyboard"; the hint otherwise |
| Terminal.Respond | src/components/Terminal.jsx:54-59 | the lower-cased name selects help, ls, cat or answer with the arguments; an unknown command is named in the not-found line as typed |
| Terminal.DoubledSpaceLine | src/components/Terminal.jsx:46 | `cat  riddle.txt` is `cat`, `` and `riddle.txt` joined by single spaces, and trimming leaves it unchanged |
| Terminal.DoubledSpaceGivesEmptyArgument | src/components/Terminal.jsx:46 | `cat  riddle.txt` tokenises to `cat` with arguments `""` and `riddle.txt` |
| Terminal.EmptyArgumentNotFound | src/components/Terminal.jsx:19-22 | so it answers with the not-found line for the empty name |

## Left out

- three.js internals: `Raycaster.set`/`setFromCamera`/`intersectObjects`, `scene.traverse`, mouse-to-device coordinates, `getWorldDirection`, `Euler.setFromQuaternion` and `updateProjectionMatrix`. The model takes the traversal order, one ray per test, and the camera's pitch, yaw and horizontal basis as inputs.
- Scene.Intersect: one distance per object (its nearest face); three.js may report several faces of one object, which does not change which object is first.
- Floating-point behaviour: rounding, and the square roots of normalisation and of speed. These values are parameters tied to their defining equations by preconditions. The fallback forward vector and the perturbed probe directions are part of the `probes` input.
- Controls.ControlsState.Tick: the `isAnimating` re-entrancy flag is not modelled, because a frame runs to completion.
- Controls.ControlsState.HandleTouchMove: a pinch before any two-finger touch start makes the source's zoom `NaN`. The model leaves the zoom unchanged there, so its clamp holds for that case only in the model.
- Controls.ControlsState.HandleTouchMove: a one-finger move with no recorded touch start throws in the source. The model returns with nothing changed, which is also the source's state after the throw.
- Controls.ControlsState.ReleaseSwipeKey: the 100 ms `setTimeout` that releases a swiped key is a separate operation, and its timing is not modelled.
- Store publication from the controller (`setCameraPosition`/`setCameraRotation` and the `lastRotationUpdate` clock) is not modelled, because those writes only mirror the camera pose. The clock the tick shares with pointer moves (`lastUpdate`) is modelled.
- Strings.ToLower: ASCII letters only; other characters are left unchanged.
- DOM and browser plumbing: pointer-lock requests and the lock-change listener, listener registration and cleanup, `requestAnimationFrame` (a pending-frame flag stands for `animationId`), focus and scroll effects, and rendering.
- Lookups in `commands[...]` and `files[...]` range over the declared keys only. JavaScript would also find inherited keys such as `constructor`.
- The camera transition animator and the scene components are not part of this model.
