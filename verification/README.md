# dtvtt interaction core in Dafny

This project models the interaction logic of dtvtt, a small virtual tabletop built on the Bevy engine. Tokens are placed on a ground plane by a Control-click. A click selects a token; with Shift held, a click toggles the token in a multi-selection. A token is moved by dragging the pointer. The repository has two variants of this logic:

- `src/token.rs` is the tank tabletop. Each token keeps a drag session with two anchors: the token's translation and the cursor's plane point at drag start. Each drag event then places the token relative to those anchors. The `Simple` policy moves the token freely in x and z. The `Straight` policy moves it only along its own heading.
- `src/main.rs` is the flat-token prototype. Each drag event adds that frame's cursor displacement on the ground to the token's x and z. A handler on the window catches clicks that hit no token.

Files and modules:

- `ecs.dfy`, module `Ecs`: entity identifiers, `Option`, and the outcome of a drag handler (`Moved`, `Ignored`, `Panicked`).
- `geometry.dfy`, module `Geometry`: world vectors over `real` (`Add`, `Sub`, `Scale`, `Dot`, `Raised`).
- `selection.dfy`, module `Selection`: `select_on_click` and `deselect_all`, which read the same in both source files.
  - The handler's state is `Marks`: the outline flag (`OutlineVolume.visible`) of every queried entity, and the set of entities carrying the `Selected` marker.
  - Outline flags change in place.
  - Marker changes are queued as deferred commands (`MarkerCommand`). The queue is applied in order after the handler returns (`ApplyAll`). So branch decisions read the markers as they were before the click, and "deselect all, then insert the target" leaves the target selected.
  - `Click` states the whole transition at once. `SelectOnClick` runs the queue-based procedure and is proved equal to `Click`. Lemmas state what `Click` means.
- `token.dfy`, module `Token`: the class `Tabletop` holds one map (or set) per component, keyed by entity: translation, heading, outline flag, `Selected` marker and `Draggable`. Its methods are the handlers of `src/token.rs`. `DragTranslation` is where a drag event puts a token, and its lemmas state the two drag policies.
- `prototype.dfy`, module `Prototype`: the class `Scene` holds the components of `src/main.rs` tokens, and its methods are that file's handlers. `Nudged` is one incremental drag step, and `DragPath` is a run of such steps along a cursor path on which every projection succeeds. `DragEvents` is the same run when any projection may fail.
- `drag_comparison.dfy`, module `DragComparison`: the anchored free drag and the incremental drag agree on every cursor path on which every projection succeeds. They part ways when a projection fails mid-path.

Inputs that come from the engine:

- Each handler takes the camera ray and its intersection with a horizontal plane as a parameter `Option<Vec3>`. `None` means no cursor in the window, no ray, or no intersection.
- A run of drag events in `src/main.rs` is modelled as a sequence of `Sample`s, one per cursor position. Each sample records whether the window reports a cursor there, and its ground hit (`None` when the position's ray or hit fails). These are two separate fields because an event's earlier point (`cursor_pos - drag.delta`, src/main.rs:211-219) is projected without asking the window for a cursor.
- The pressed keys are boolean parameters: left and right Control, left and right Shift.
- The clicked or dragged entity is a parameter. A background click targets the window entity, which is not a token.

Code behaviour that the model follows:

- In `src/token.rs` the drag handlers project the cursor onto the fixed plane y = `TANK_HEIGHT`/2 (src/token.rs:202-205 and 248-251), whatever the token's current height.
- `drag_fn` in `src/token.rs` unwraps both anchors (src/token.rs:256, 262-263, 268). A drag event on a token with no anchor therefore aborts the handler, and the model reports this as `Panicked`.
- `drag_on_drag` in `src/main.rs` unwraps the lookup of the dragged entity's transform (src/main.rs:224). A missing target therefore also gives `Panicked`.
- Both `spawn_token` functions give the outline volume only a width, so the outline crate's default is used for its visibility. That default is false, so a spawned token starts unselected and not highlighted.

## Model

| member | source | states |
|---|---|---|
| Selection.Click | src/token.rs:165-181 | one click as a single transition on the outline flags and markers: without Shift every selected entity is cleared; a queried target is then deselected if Shift is held and it was selected, and selected otherwise; the set of queried entities never changes |
| Selection.DeselectAll | src/token.rs:151-163 | every queried entity holding the marker has its outline hidden and its removal queued; no other outline changes; flushing the queue leaves no queried entity selected |
| Selection.ApplyAllSnoc | src/main.rs:168-183 | deferred marker commands apply in queue order: a command queued after the others acts on their combined result |
| Selection.SelectOnClick | src/token.rs:143-182 | the handler (outline writes in place, marker changes queued and then flushed) yields exactly the transition `Click` describes, whatever order the query visits entities in |
| Selection.ExclusiveClick | src/token.rs:165-181 | without Shift the selected set becomes {target} when the target is a queried token, and empty otherwise |
| Selection.ExclusiveClickSelectsAtMostOne | src/main.rs:167-184 | without Shift at most one token is selected after the click |
| Selection.BackgroundClickClears | src/main.rs:104-109 | a plain click routed to the window (no OutlineVolume) clears every selection, and a second background click changes nothing |
| Selection.MultiClickToggles | src/token.rs:165-180 | with Shift the target leaves the selection if it was selected and joins it otherwise; every other entity keeps its marker and outline |
| Selection.MultiClickTwiceRestores | src/main.rs:173-183 | two Shift-clicks on the same entity restore the state exactly |
| Selection.ClickKeepsMirrored | src/token.rs:155-179 | if every outline is visible exactly when its entity is selected before a click, this holds after it |
| Selection.ExclusiveScenario | src/main.rs:164-184 | with three distinct tokens, a plain click on A selects {A}; a plain click on B then leaves only B selected, with only B's outline shown |
| Selection.MultiSelectScenario | src/main.rs:164-184 | a plain click on A, then a Shift-click on B, selects {A, B}; a second Shift-click on B leaves {A} |
| Token.Tabletop.SpawnToken | src/token.rs:99-118 | adds one fresh entity at the given point raised by TANK_HEIGHT/2, facing -z, with its outline hidden, no Selected marker, and no drag anchors under the Straight policy; no other token changes |
| Token.Tabletop.SpawnTokenOnClick | src/token.rs:73-97 | a token is added if and only if a Control key is held and the ground plane y = 0 was hit; then exactly one token is added, at the hit point raised by TANK_HEIGHT/2; otherwise nothing changes; the well-formedness invariant is preserved |
| Token.Tabletop.SelectOnClick | src/token.rs:143-182 | the outline flags and markers become `Click` of the old ones with multi-select = either Shift key; nothing else changes; outline-mirrors-selection is preserved |
| Token.Tabletop.DragStart | src/token.rs:184-220 | on a plane hit on a token, cursor_start_pos becomes the hit point and start_pos the current translation, and the drag type is kept; a missing hit or target leaves every Draggable unchanged |
| Token.Tabletop.Drag | src/token.rs:222-271 | a missing target or plane hit is ignored; a missing anchor aborts (Panicked); otherwise only the target's translation changes, to `DragTranslation` of its anchors, the hit point and its heading |
| Token.DragTranslation | src/token.rs:256-269 | where one drag event puts a token: Simple sets x and z to start_pos plus the cursor delta and keeps the current y; Straight sets the translation to start_pos plus the heading times dot(delta, heading) |
| Token.SimpleDragFollowsCursor | src/token.rs:256-264 | a Simple drag keeps y and moves x and z from start_pos by exactly the cursor's x and z displacement from cursor_start_pos |
| Token.StraightDragStaysOnAxis | src/token.rs:265-269 | for a unit heading, a Straight drag moves the token from start_pos by the heading times dot(delta, heading): the displacement is parallel to the heading and has no component across it |
| Token.StraightDragIgnoresSideways | src/token.rs:265-268 | adding any cursor movement perpendicular to the heading leaves a Straight drag's result unchanged |
| Token.StraightDragKeepsLevel | src/token.rs:266-268 | with a level heading (as spawned tokens have) a Straight drag keeps start_pos's height |
| Token.DragBackToAnchor | src/token.rs:256-270 | a drag with the cursor back on its anchor puts the token at start_pos (a Simple drag keeps the current height) |
| Token.FreePlanarExample | src/token.rs:261-263 | start (0,0,0), cursor anchor (2,0,3), cursor now (5,0,3): a Simple drag lands at (3,0,0) |
| Token.AxisConstrainedExample | src/token.rs:266-268 | a token facing +z at the origin, cursor delta (4,0,4): a Straight drag lands at (0,0,4) |
| Prototype.Scene.constructor | src/main.rs:75-91 | the scene starts with one unselected token at (0, 0, 0.05) raised by TOKEN_HEIGHT/2 |
| Prototype.Scene.SpawnToken | src/main.rs:55-72 | adds one fresh entity at the given point raised by TOKEN_HEIGHT/2, with its outline hidden and no Selected marker; no other token changes |
| Prototype.Scene.SpawnTokenOnClick | src/main.rs:25-50 | a token is added if and only if a Control key is held and the ground was hit; then exactly one token, at the hit point raised by TOKEN_HEIGHT/2; otherwise nothing changes; outline-mirrors-selection is preserved |
| Prototype.Scene.SelectOnClick | src/main.rs:140-185 | the outline flags and markers become `Click` of the old ones with multi-select = either Shift key, for a token or a window target alike; outline-mirrors-selection is preserved |
| Prototype.Scene.DragOnDrag | src/main.rs:187-227 | a failed current or previous projection leaves every translation unchanged; with both points, a missing target aborts (Panicked); otherwise only the target moves, by point - prevPoint in x and z, with y unchanged |
| Prototype.Nudged | src/main.rs:222-226 | one successful drag event adds point - prev to x and z and never changes y |
| Prototype.DragPathTelescopes | src/main.rs:222-226 | a run of incremental drag events along any cursor path on which every projection succeeds moves the token by (last - first) in x and z and never changes y |
| Prototype.SuccessfulEventsFollowPath | src/main.rs:196-226 | when every projection succeeds, the drag events (each one's earlier point being the point of the event before) move the token exactly as `DragPath` does |
| Prototype.FailedProjectionSplitsPath | src/main.rs:200-220 | a cursor position whose ray or ground hit fails, with or without a cursor in the window, ends early both the event at it and the event after it, so the run splits in two and the displacement across that position is lost |
| Prototype.CursorOutsideLosesOnlyItsEvent | src/main.rs:196-213 | a position where the window reports no cursor but whose ray meets the ground loses only its own event; the next event still projects it as its earlier point and moves the token from it |
| DragComparison.AnchoredMatchesIncremental | src/token.rs:256-263 | along any cursor path on which every projection succeeds, the anchored Simple drag and the incremental drag of src/main.rs:222-226 end at the same translation |
| DragComparison.FailedProjectionDiverges | src/main.rs:204-208 | with the cursor in the window and ground hits at the origin, then none, then at (5,0,0), the incremental drag leaves the token at its start, while the anchored Simple drag of src/token.rs:256-263 puts it at (5,0,0) |

## Left out

- Ray casting and plane intersection (`viewport_to_world`, `intersect_plane`, `get_point`) are engine geometry. Their combined result is an input, so the model does not check that a hit lies on its plane.
- Heading: `-local_z().normalize()` is not computed from a rotation. Each token stores its heading as a vector, set to (0, 0, -1) at spawn, because no handler in the core ever rotates a token.
- Floating point: coordinates are unbounded reals, not f32. Rounding, overflow and NaN are not modelled.
- Observer dispatch and event propagation are not modelled; each handler runs once per event. In `src/token.rs` the handlers call `propagate(true)`, and src/main_scene.rs:13-15 registers `select_on_click` and `spawn_token_on_click` on the window. A press on a tank therefore runs `select_on_click` twice in the running program, first on the tank and then on the window, both times with the tank as target. `spawn_token_on_click` is attached only to the window (a token gets only `select_on_click`, `drag_start_fn` and `drag_fn`, src/token.rs:138-140), so it runs once per press. Because the press bubbles to the window, a Control-press on a tank also spawns a new tank.
- The window-level `select_on_click` of `src/main.rs` is covered by passing a target that is not a token. Picking and hit-testing, which choose the target, are left out.
- Child entities (the turret and gun of src/token.rs:119-137) are not modelled. Neither is the engine's composition of their transforms with the root transform.
- Asset construction, camera, lights and the `draw_axes` gizmo (src/token.rs:20-36 and 273-282, src/main.rs:93-137) are rendering setup with no interaction logic.
- src/main_scene.rs and src/map.rs (scene wiring) are not part of this model.
- `eprintln!` diagnostics are not modelled. Neither is the `commands.get_entity` check, which always succeeds for an entity the query just returned.
- The drag-event runs (`DragEvents`, `DragPath`) take each event's earlier cursor position to be the position of the event before it, as the engine's drag delta intends. A `Sample` with no ground hit stands for a failed ray or ground hit at that position; a missing window cursor is its separate `cursorInWindow` flag, which fails only that position's own event. The single `DragOnDrag` handler takes both projections as independent inputs.
- A panic is modelled only as a `Panicked` outcome with the state unchanged. The abort of the whole application that follows is not modelled.
