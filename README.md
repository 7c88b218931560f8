# Gizmo ball: editor and play-session state, modelled in Dafny

Gizmo ball is a browser game. In Layout mode the user places obstacles, balls and two
key-driven baffles on a grid; in Play mode a simulation moves the balls and lets the player
steer the baffles. This project models the state-transition layer of the game's views:

- the play session (`GamePanel.PlayingSession`): the split of the movables into balls and
  baffles, the precompute table for the static polygons, the four-entry held-key map, the
  collision-gated baffle-move tick, the ball tick and the refresh snapshot;
- the editor panel's selection click and drop-offset arithmetic (`GamePanel`);
- the main view (`GameMain`): grid snapping, the collision-gated `setMapItems`, the candidate
  collections of the place, drop, remove, rotate and zoom handlers, the Layout-only tool
  handlers, the keyboard shortcuts, the mode switches and the play-mode snapshot;
- the React-style state cells the view is built from (`ReactHooks`).

The geometry core (collision detection, polygon precomputation, the ball simulation step, the
item factory, the item transformations and the capability tests) is not part of this model.
Its operations are the fields of the record `MapItems.Core`, passed in as function values, so
every result holds whatever they compute. Vectors are pairs of reals with componentwise
operations (`Vectors`). The array utilities `replaceItemInArray` and `removeItemInArray` act on
the item that is `===` to their argument; with distinct item objects that is a position, so
the model replaces or removes at the index of the item (`items[i := v]`, `Seqs.RemoveAt`).

The main properties proved:

- the gate: a collection that is collision-free stays collision-free under every gated
  change, and a rejected change leaves the collection as it was (`GameMain.Gate`,
  `GameMain.Editor.SetMapItems` and every handler built on it);
- the same for the baffles: a baffle set that collides neither with the statics nor with the
  balls keeps that property through every baffle tick (`GamePanel.BaffleStep`,
  `GamePanel.ApplyCombinations`, `GamePanel.PlayingSession.BaffleTick`);
- single selection after a click (`GamePanel.ClickItem`), and the click always passes the
  gate on a collision-free collection (`GameMain.ClickPassesGate`); single selection is also
  kept by removal, grid clicks, drops, rotation and zoom, under stated assumptions about the
  geometry core (`GameMain.RemoveCandidate`, `GameMain.GridClickKeepsSingleSelection`,
  `GameMain.DropKeepsSingleSelection`, `GameMain.ToolKeepsSingleSelection`);
- grid snapping lands on the grid, moves each coordinate by at most half a cell, and is
  idempotent (`GameMain.NormalizeToCenter`, `GameMain.NormalizeIdempotent`).

The selection click also goes through the gated `setMapItems`, because the editor panel's
`onMapItemsChange` is `setMapItems` (src/views/game-main/index.tsx:209).
`GameMain.ClickPassesGate` shows that the click always commits on a collision-free collection.

The `BaffleKey` enumeration is not part of this model. Its four values are taken to be the
strings "a", "d", "j" and "l" (`GamePanel.AlphaLeft` ... `GamePanel.BetaRight`), the property
names the baffle tick destructures from the key map (src/components/game-panel/index.tsx:349).

## Model

| member | source | states |
|---|---|---|
| `Seqs.Filter` | src/components/game-panel/index.tsx:293-299 | the result keeps exactly the elements that pass the test and is no longer than the input |
| `Seqs.FilterAppend` | src/components/game-panel/index.tsx:293-299 | filtering distributes over concatenation, so the filtered items keep their original order |
| `Seqs.RemoveAt` | src/views/game-main/index.tsx:149-153 | removing one element: one shorter, the rest in order, the multiset loses exactly that element |
| `MapItems.Colliders` | src/views/game-main/index.tsx:74 | the collider sequence has one collider per item, in order |
| `MapItems.SameGeometryColliders` | src/components/game-panel/index.tsx:113-131 | changing only statuses leaves the collider sequence unchanged |
| `MapItems.FirstSelected` | src/views/game-main/index.tsx:121-123 | `find` of the selected item: the first Selected position, or none exactly when nothing is Selected |
| `MapItems.ResetStatus` | src/views/game-main/index.tsx:257-262 | every item is kept with its status set to Normal |
| `MapItems.ResetStatusAppend` | src/views/game-main/index.tsx:257-262 | resetting statuses distributes over concatenation |
| `ReactHooks.StateCell.constructor` | src/utils/react-hooks.ts:3-5 | a new cell holds `initValue` |
| `ReactHooks.StateCell.Set` | src/utils/react-hooks.ts:8-11 | a value is stored as given; a function is applied to the previous value; the stored value is returned |
| `ReactHooks.ReducerCell.constructor` | src/utils/react-hooks.ts:15-17 | a new reducer cell holds `initialValue` and its reducer |
| `ReactHooks.ReducerCell.Dispatch` | src/utils/react-hooks.ts:18 | dispatch replaces the value by `reducer` of the previous value |
| `GamePanel.ClickItem` | src/components/game-panel/index.tsx:113-131 | after clicking item k: same length and geometry, item k's status flipped, every other item Normal, at most one Selected |
| `GamePanel.HandleDrop` | src/components/game-panel/index.tsx:75-91 | no call without transfer data or panel; without a pick-up position the offset is page minus panel offset; with one, the item center plus the cursor's displacement |
| `GamePanel.PanelClickOffset` | src/components/game-panel/index.tsx:92-98 | the click offset plus the panel offset is the page position |
| `GamePanel.InitialKeyStatus` | src/components/game-panel/index.tsx:315-320 | the map has exactly the four baffle keys, all released |
| `GamePanel.ToggleKeyState` | src/components/game-panel/index.tsx:321-331 | a baffle key takes the target state and no other entry changes; any other key leaves the map unchanged |
| `GamePanel.MovedBaffle` | src/components/game-panel/index.tsx:334-347 | center and collider center shift by (moveStep*(r-l), 0), every other field unchanged; zero shift when l == r |
| `GamePanel.Combinations` | src/components/game-panel/index.tsx:349-357 | two combinations, alpha's (a, d) first and beta's (j, l) second |
| `GamePanel.MoveNamed` | src/components/game-panel/index.tsx:360-362 | only the baffles with the combination's name are moved; names and length are kept |
| `GamePanel.BaffleFree` | src/components/game-panel/index.tsx:363-370 | the baffle test holds iff the baffles together with the statics, and together with the balls, are each collision-free |
| `GamePanel.BaffleStep` | src/components/game-panel/index.tsx:359-373 | no candidate when the keys agree; the candidate is committed iff it collides with neither statics nor balls, otherwise the baffles are unchanged; the no-collision property is preserved |
| `GamePanel.ApplyCombinations` | src/components/game-panel/index.tsx:358-374 | the loop over the combinations keeps length and names, and keeps a collision-free baffle set collision-free |
| `GamePanel.TickOrder` | src/components/game-panel/index.tsx:349-374 | beta's step starts from the baffles as alpha's step left them |
| `GamePanel.IdleTick` | src/components/game-panel/index.tsx:358-374 | when no pair has exactly one key held, the tick changes nothing |
| `GamePanel.PreComputeTable` | src/components/game-panel/index.tsx:300-305 | the table has an entry for exactly the statics not named "circle", each the precomputation of its collider |
| `GamePanel.PlayingSession.constructor` | src/components/game-panel/index.tsx:293-320 | balls are the movables named "ball", baffles those named "baffle-alpha"/"baffle-beta", in order; the precompute table is built; all keys released |
| `GamePanel.PlayingSession.ItemTick` | src/components/game-panel/index.tsx:306-313 | the balls become the simulation step of balls, baffles, statics and table |
| `GamePanel.PlayingSession.KeyDown` | src/components/game-panel/index.tsx:330 | keydown sets a baffle key to held and ignores other keys |
| `GamePanel.PlayingSession.KeyUp` | src/components/game-panel/index.tsx:331 | keyup sets a baffle key to released and ignores other keys |
| `GamePanel.PlayingSession.BaffleTick` | src/components/game-panel/index.tsx:348-375 | the loop applies the combinations in order; baffles free of collisions with statics and balls stay so |
| `GamePanel.PlayingSession.Refresh` | src/components/game-panel/index.tsx:376-378 | the refresh hands over the current baffles and balls |
| `GameMain.Round` | src/views/game-main/index.tsx:55-56 | `Math.round`: the integer within (t - 1/2, t + 1/2] |
| `GameMain.SnapOnGrid` | src/views/game-main/index.tsx:55-56 | a snapped coordinate is a multiple of the cell length |
| `GameMain.SnapClose` | src/views/game-main/index.tsx:55-56 | a snapped coordinate is at most half a cell away |
| `GameMain.SnapOfOnGrid` | src/views/game-main/index.tsx:55-56 | snapping a multiple of the cell length leaves it unchanged |
| `GameMain.NormalizeToCenter` | src/views/game-main/index.tsx:47-59 | each coordinate of the result minus half the size is a multiple of the cell length, and within half a cell of the pointer |
| `GameMain.NormalizeIdempotent` | src/views/game-main/index.tsx:47-59 | snapping twice is snapping once |
| `GameMain.ToggleBoolean` | src/views/game-main/index.tsx:61 | the toggle always changes the flag |
| `GameMain.ToggleBooleanTwice` | src/views/game-main/index.tsx:61 | toggling twice restores the value |
| `GameMain.Gate` | src/views/game-main/index.tsx:70-76 | a colliding candidate is rejected and the previous collection kept, a collision-free one committed; collision-freedom is preserved |
| `GameMain.ClickPassesGate` | src/components/game-panel/index.tsx:113-131 | on a collision-free collection the gate commits the click's collection, which has at most one Selected item |
| `GameMain.GridClickCandidate` | src/views/game-main/index.tsx:103-118 | no proposal with "select"; otherwise the collection with the new snapped item appended |
| `GameMain.DropCandidate` | src/views/game-main/index.tsx:133-148 | a drop from the board with a selection removes the selected item and appends the moved one (same length); any other drop appends (one longer) |
| `GameMain.RemoveCandidate` | src/views/game-main/index.tsx:149-153 | unchanged without a selection; otherwise exactly the selected item is removed, leaving nothing Selected when at most one was Selected |
| `GameMain.TransformSelected` | src/views/game-main/index.tsx:126-132 | unchanged without a selection or without the capability; otherwise only the selected item is replaced by its transform |
| `GameMain.ToolCandidate` | src/views/game-main/index.tsx:154-175 | "remove" proposes the removal candidate, "rotate" the selected item rotated when it can rotate, "zoom in" and "zoom out" the selected item zoomed when it can zoom; every tool except removal keeps the length |
| `GameMain.GateKeepsSingleSelection` | src/views/game-main/index.tsx:70-76 | the gate keeps single selection when both the old and the proposed collection have it |
| `GameMain.GridClickKeepsSingleSelection` | src/views/game-main/index.tsx:103-118 | a grid click keeps single selection, assuming the item factory creates Normal items |
| `GameMain.DropKeepsSingleSelection` | src/views/game-main/index.tsx:133-148 | a drop keeps single selection, assuming a palette drag carries a Normal item and moving keeps an item's status; a board drop needs neither for the moved selected item |
| `GameMain.ToolKeepsSingleSelection` | src/views/game-main/index.tsx:124-175 | every tool keeps single selection, assuming rotation and zoom keep an item's status |
| `GameMain.ToolWithoutSelection` | src/views/game-main/index.tsx:124-175 | no tool changes a collection with nothing selected |
| `GameMain.ToLower` | src/views/game-main/index.tsx:179 | lower-casing maps each character and keeps length |
| `GameMain.KeyAction` | src/views/game-main/index.tsx:178-193 | "delete", "r", "=" and "-" (any case) name remove, rotate, zoom-in and zoom-out; every other key names nothing |
| `GameMain.KeyActionIgnoresCase` | src/views/game-main/index.tsx:179 | the dispatch gives the same answer for a key and its lower case |
| `GameMain.Listening` | src/views/game-main/index.tsx:176-201 | when the listener is registered at start only in Layout, after any mode changes it is registered only if the last mode is Layout |
| `GameMain.ListeningCorrected` | src/views/game-main/index.tsx:176-201 | with the watcher also run at start, the shortcut listener is registered exactly while in Layout |
| `GameMain.ListeningAsWritten` | src/views/game-main/index.tsx:176-201 | with the lazy watcher, the listener is registered exactly when in Layout after Play has been entered at least once |
| `GameMain.RenderPlaying` | src/views/game-main/index.tsx:252-272 | movables are exactly the movable items and statics exactly the static items, with only their status changed, to Normal; the panel follows the DOM-mode flag |
| `GameMain.RenderPlayingAppend` | src/views/game-main/index.tsx:257-262 | the snapshot distributes over concatenation, so it keeps the collection's order |
| `GameMain.Editor.constructor` | src/views/game-main/index.tsx:66-86 | tool "select", the border collection, Layout mode, not paused, DOM mode off |
| `GameMain.Editor.SetMapItems` | src/views/game-main/index.tsx:70-76 | the underlying setter receives the gated update; collision-freedom is preserved |
| `GameMain.Editor.SetItemName` | src/views/game-main/index.tsx:66 | the chosen tool is stored |
| `GameMain.Editor.HandleItemClick` | src/components/game-panel/index.tsx:113-131 | a click on a rendered (non-border) item goes through the gate; on a collision-free collection it commits, with at most one Selected |
| `GameMain.Editor.HandleGridClick` | src/views/game-main/index.tsx:103-118 | "select" changes nothing; otherwise the gated append |
| `GameMain.Editor.HandleDropItem` | src/views/game-main/index.tsx:133-148 | the drop candidate goes through the gate |
| `GameMain.Editor.RunTool` | src/views/game-main/index.tsx:124-125 | outside Layout mode a tool changes nothing; in Layout its candidate goes through the gate |
| `GameMain.Editor.HandleRemoveItem` | src/views/game-main/index.tsx:149-153 | Layout-only gated removal of the selected item |
| `GameMain.Editor.HandleRotateItem` | src/views/game-main/index.tsx:126-132 | Layout-only gated rotation of the selected rotatable item |
| `GameMain.Editor.HandleZoomInItem` | src/views/game-main/index.tsx:154-164 | Layout-only gated zoom-in of the selected zoomable item |
| `GameMain.Editor.HandleZoomOutItem` | src/views/game-main/index.tsx:165-175 | Layout-only gated zoom-out of the selected zoomable item |
| `GameMain.Editor.HandleKeyDown` | src/views/game-main/index.tsx:176-201 | in Layout a shortcut key runs its tool; any other key, or any key outside Layout, changes nothing |
| `GameMain.Editor.HandleLayoutMode` | src/views/game-main/index.tsx:79-82 | mode becomes Layout and paused false |
| `GameMain.Editor.HandlePlayMode` | src/views/game-main/index.tsx:83-85 | mode becomes Play |
| `GameMain.Editor.TogglePaused` | src/views/game-main/index.tsx:102 | paused is negated |
| `GameMain.Editor.ToggleDomMode` | src/views/game-main/index.tsx:86 | DOM mode is negated by one dispatch |
| `GameMain.Editor.HandleLoaded` | src/views/game-main/index.tsx:87-96 | a loaded collection goes through the gate; a failed load changes nothing |
| `GameMain.Editor.PlayingView` | src/views/game-main/index.tsx:214 | the playing view shown in Play mode: the DOM-boost panel iff DOM mode is on, paused as the flag says, the movable and static items with the same geometry and nothing Selected |
| `GameMain.ToggleTwice` | src/utils/react-hooks.ts:15-18 | two dispatches of the `toggleBoolean` reducer restore the value |

## Left out

- The geometry core (collision test, precomputation, ball step with bounce and absorption,
  item factory, border generation, size lookup, move, rotate, zoom, capability tests) is not
  part of this model; it enters as the function values of `MapItems.Core`.
- `replaceItemInArray` and `removeItemInArray` are not part of this model; they are taken to act
  at the position of the item they are given (items are distinct objects).
- Timers (`setInterval`, `clearInterval`), the window key listeners and the session's cleanup
  closure: each tick and each listener is a method, called one at a time.
- The watchers of the two playing panels that start a session on unpausing, and the DOM
  patching of the DOM-boost panel: rendering glue.
- All rendering (JSX, styles, images, tooltips, the palette, the controls).
- Persistence: `handleSave` only passes the collection to the save service, and the load and
  save services only report failure; a load is modelled by its outcome (`HandleLoaded`),
  and an alert on failure is left out.
- Floating point: coordinates are reals, so rounding of IEEE doubles is not modelled.
- GameMain.Editor.HandleKeyDown: takes the shortcut listener to be registered in every Layout
  state, the corrected watcher; as written it is absent from start until Play and then Layout
  have been chosen once (see `GameMain.ListeningAsWritten` and the finding below).
- GameMain.ToLower: lower-cases only ASCII letters; locale-specific case mappings of other
  characters are not modelled, and none of them yields the four shortcut keys.
- GameMain.Editor.HandleLoaded: a loaded collection may carry any statuses, so single selection
  is not promised after a load; the single-selection lemmas assume it of the collection they
  start from.
- The single-selection lemmas take as hypotheses what the geometry core is expected to do: the
  factory creates Normal items, and move, rotate and zoom keep an item's status.
- A click on a map item also bubbles to the panel's own click handler (src/components/map-item/index.tsx:62
  to src/components/game-panel/index.tsx:107), so one click both toggles the selection and runs
  `handleGridClick`; the model treats the two as separate events, `HandleItemClick` and
  `HandleGridClick`, which a caller may issue in that order.
- GamePanel.PreComputeTable: the table is keyed by item value, while the program keys it by
  object; two equal static items share one entry, which holds the same precomputation.

## Findings

| source | as written | input that shows it | evidently intended | confidence | as-written member | corrected member |
|---|---|---|---|---|---|---|
| src/views/game-main/index.tsx:176-201 | the shortcut listener is registered by a lazy `watch` on "is editing", which does not run at start, although the view starts in Layout | right after start, select a rotatable item and press "r": nothing happens until Play and then Layout have been chosen once | the listener registered whenever the mode is Layout, as with `{ immediate: true }`, the option the playing panels use | not executed; high | `GameMain.ListeningAsWritten` | `GameMain.ListeningCorrected` |

`GameMain.Editor.HandleKeyDown` follows the corrected behaviour: it acts in every Layout state.
