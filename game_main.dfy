/**
 * The main view: grid snapping, the collision-gated setter of the item
 * collection, the candidate collections the editing handlers propose, the
 * keyboard shortcuts, the snapshot taken when a game starts, and the editor
 * state itself as a set of state cells.
 */
module GameMain {
  import opened Wrappers
  import opened Vectors
  import opened Seqs
  import opened MapItems
  import opened ReactHooks
  import opened GamePanel

  // ---------------------------------------------------------------------------
  // Grid snapping
  // ---------------------------------------------------------------------------

  /** JavaScript's `Math.round`: the nearest integer, halves rounded up. */
  function Round(t: real): (r: int)
    ensures t - 0.5 < r as real <= t + 0.5
  {
    (t + 0.5).Floor
  }

  /** `v` is an integer multiple of `length`. */
  predicate OnGrid(v: real, length: real)
    requires length > 0.0
  {
    (v / length).Floor as real == v / length
  }

  /** One coordinate of `normalizeToCenter`: `v` in cells, rounded to a whole cell, back in length units. */
  function Snap(v: real, length: real): real
    requires length > 0.0
  {
    Round(v / length) as real * length
  }

  lemma SnapOnGrid(v: real, length: real)
    requires length > 0.0
    ensures OnGrid(Snap(v, length), length)
  {
    var k := Round(v / length) as real;
    assert Snap(v, length) / length == k;
  }

  lemma SnapClose(v: real, length: real)
    requires length > 0.0
    ensures -length / 2.0 <= Snap(v, length) - v <= length / 2.0
  {
    var t := v / length;
    var k := Round(t) as real;
    assert v == t * length;
    var d := k - t;
    assert Snap(v, length) - v == d * length;
    assert 0.0 < d + 0.5 && 0.0 <= 0.5 - d;
    assert 0.0 < (d + 0.5) * length;
    assert 0.0 <= (0.5 - d) * length;
  }

  lemma SnapOfOnGrid(v: real, length: real)
    requires length > 0.0
    requires OnGrid(v, length)
    ensures Snap(v, length) == v
  {
    var t := v / length;
    assert Round(t) == t.Floor;
    assert v == t * length;
  }

  /**
   * `normalizeToCenter`: the item of size `size` whose center is nearest
   * `pointer` with its top-left corner on the grid of cell `length`.
   */
  function NormalizeToCenter(pointer: Vec, size: Vec, length: real): (r: Vec)
    requires length > 0.0
    ensures OnGrid(r.x - size.x * 0.5, length) && OnGrid(r.y - size.y * 0.5, length)
    ensures -length / 2.0 <= r.x - pointer.x <= length / 2.0
    ensures -length / 2.0 <= r.y - pointer.y <= length / 2.0
  {
    var offset := Scale(size, 0.5);
    var p := Sub(pointer, offset);
    SnapOnGrid(p.x, length);
    SnapOnGrid(p.y, length);
    SnapClose(p.x, length);
    SnapClose(p.y, length);
    Add(Vec(Snap(p.x, length), Snap(p.y, length)), offset)
  }

  /** Snapping a snapped position changes nothing. */
  lemma NormalizeIdempotent(pointer: Vec, size: Vec, length: real)
    requires length > 0.0
    ensures NormalizeToCenter(NormalizeToCenter(pointer, size, length), size, length) ==
      NormalizeToCenter(pointer, size, length)
  {
    var r := NormalizeToCenter(pointer, size, length);
    SnapOfOnGrid(r.x - size.x * 0.5, length);
    SnapOfOnGrid(r.y - size.y * 0.5, length);
  }

  // ---------------------------------------------------------------------------
  // The gated setter and the candidate collections
  // ---------------------------------------------------------------------------

  function ToggleBoolean(p: bool): (r: bool)
    ensures r != p
  {
    !p
  }

  lemma ToggleBooleanTwice(p: bool)
    ensures ToggleBoolean(ToggleBoolean(p)) == p
  {
  }

  /**
   * The body of `setMapItems`: the pending collection is committed unless its
   * colliders collide, in which case the previous collection stays.
   */
  function Gate(hasAnyCollision: seq<Collider> -> bool, items: seq<MapItem>, pending: seq<MapItem>): (r: seq<MapItem>)
    ensures r == items || r == pending
    ensures CollisionFree(hasAnyCollision, pending) ==> r == pending
    ensures !CollisionFree(hasAnyCollision, pending) ==> r == items
    ensures CollisionFree(hasAnyCollision, items) ==> CollisionFree(hasAnyCollision, r)
  {
    if hasAnyCollision(Colliders(pending)) then items else pending
  }

  /** A selection click changes no collider, so the gate lets it through on a collision-free collection. */
  lemma ClickPassesGate(hasAnyCollision: seq<Collider> -> bool, items: seq<MapItem>, k: nat)
    requires k < |items|
    requires CollisionFree(hasAnyCollision, items)
    ensures Gate(hasAnyCollision, items, ClickItem(items, k)) == ClickItem(items, k)
    ensures AtMostOneSelected(Gate(hasAnyCollision, items, ClickItem(items, k)))
  {
    SameGeometryColliders(items, ClickItem(items, k));
  }

  /** The tool chosen in the item palette ("select" or an item to place). */
  datatype Tool = Select | Place(name: ItemName)

  datatype Mode = Layout | Play

  /** The item created by a grid click with tool `name` at `offset`. */
  function PlacedItem(core: Core, name: ItemName, offset: Vec, gridLength: real): MapItem
    requires gridLength > 0.0
  {
    core.createMapItem(name, NormalizeToCenter(offset, core.sizeOfMapItem(name, gridLength), gridLength), gridLength)
  }

  /** `handleGridClick`: nothing with "select", otherwise the new item appended. */
  function GridClickCandidate(core: Core, tool: Tool, offset: Vec, gridLength: real, items: seq<MapItem>): (r: Option<seq<MapItem>>)
    requires gridLength > 0.0
    ensures r.None? <==> tool == Select
    ensures r.Some? ==> |r.value| == |items| + 1 && r.value[..|items|] == items
    ensures r.Some? ==> r.value[|items|] == PlacedItem(core, tool.name, offset, gridLength)
  {
    match tool
    case Select => None
    case Place(name) => Some(items + [PlacedItem(core, name, offset, gridLength)])
  }

  /** The item dropped at `offset`: moved so that its center snaps to the grid. */
  function DroppedItem(core: Core, item: MapItem, offset: Vec, gridLength: real): MapItem
    requires gridLength > 0.0
  {
    core.moveMapItem(item, NormalizeToCenter(offset, item.size, gridLength))
  }

  /**
   * `handleDropItem`: a drag from the board with an item selected moves the
   * selected item (removed, then the moved copy appended); any other drop
   * appends a new item.
   */
  function DropCandidate(core: Core, data: TransferData, offset: Vec, gridLength: real, items: seq<MapItem>): (r: seq<MapItem>)
    requires gridLength > 0.0
    ensures |r| > 0 && r[|r| - 1] == DroppedItem(core, data.item, offset, gridLength)
    ensures data.from == FromPanel && FirstSelected(items).Some? ==>
      |r| == |items| && r[..|r| - 1] == RemoveAt(items, FirstSelected(items).value)
    ensures !(data.from == FromPanel && FirstSelected(items).Some?) ==>
      |r| == |items| + 1 && r[..|items|] == items
  {
    var sel := FirstSelected(items);
    var kept := if data.from == FromPanel && sel.Some? then RemoveAt(items, sel.value) else items;
    kept + [DroppedItem(core, data.item, offset, gridLength)]
  }

  /** `handleRemoveItem`'s candidate: the selected item removed, if there is one. */
  function RemoveCandidate(items: seq<MapItem>): (r: seq<MapItem>)
    ensures FirstSelected(items).None? ==> r == items
    ensures FirstSelected(items).Some? ==>
      |r| == |items| - 1 && multiset(r) + multiset{items[FirstSelected(items).value]} == multiset(items)
    ensures AtMostOneSelected(items) ==> NoneSelected(r)
  {
    match FirstSelected(items)
    case None => items
    case Some(i) => RemoveAt(items, i)
  }

  /**
   * The rotate and zoom candidates: the selected item replaced by `f` of it
   * when it has the capability `can`, the collection unchanged otherwise.
   */
  function TransformSelected(items: seq<MapItem>, can: MapItem -> bool, f: MapItem -> MapItem): (r: seq<MapItem>)
    ensures |r| == |items|
    ensures FirstSelected(items).None? ==> r == items
    ensures FirstSelected(items).Some? && !can(items[FirstSelected(items).value]) ==> r == items
    ensures FirstSelected(items).Some? && can(items[FirstSelected(items).value]) ==>
      var i := FirstSelected(items).value;
      r[i] == f(items[i]) && forall j :: 0 <= j < |r| && j != i ==> r[j] == items[j]
  {
    match FirstSelected(items)
    case None => items
    case Some(i) => if can(items[i]) then items[i := f(items[i])] else items
  }

  /** The four editing tools. */
  datatype ToolAction = RemoveItem | RotateItem | ZoomInItem | ZoomOutItem

  /** The candidate each tool proposes. */
  function ToolCandidate(core: Core, action: ToolAction, items: seq<MapItem>): (r: seq<MapItem>)
    ensures action.RemoveItem? ==> r == RemoveCandidate(items)
    ensures action.RotateItem? ==> r == TransformSelected(items, core.canRotate, core.rotateItem)
    ensures action.ZoomInItem? ==>
      r == TransformSelected(items, core.canZoom, (m: MapItem) => core.zoomItem(m, ZoomIn))
    ensures action.ZoomOutItem? ==>
      r == TransformSelected(items, core.canZoom, (m: MapItem) => core.zoomItem(m, ZoomOut))
    ensures !action.RemoveItem? ==> |r| == |items|
  {
    match action
    case RemoveItem => RemoveCandidate(items)
    case RotateItem => TransformSelected(items, core.canRotate, core.rotateItem)
    case ZoomInItem => TransformSelected(items, core.canZoom, (m: MapItem) => core.zoomItem(m, ZoomIn))
    case ZoomOutItem => TransformSelected(items, core.canZoom, (m: MapItem) => core.zoomItem(m, ZoomOut))
  }

  /** With nothing selected no tool changes the collection. */
  lemma ToolWithoutSelection(core: Core, action: ToolAction, items: seq<MapItem>)
    requires NoneSelected(items)
    ensures ToolCandidate(core, action, items) == items
  {
  }

  /** The gate keeps single selection when both the old and the pending collection have it. */
  lemma GateKeepsSingleSelection(hasAnyCollision: seq<Collider> -> bool, items: seq<MapItem>, pending: seq<MapItem>)
    requires AtMostOneSelected(items) && AtMostOneSelected(pending)
    ensures AtMostOneSelected(Gate(hasAnyCollision, items, pending))
  {
  }

  /** Appending an item that is not Selected keeps single selection. */
  lemma AppendNormalKeepsSingleSelection(items: seq<MapItem>, item: MapItem)
    requires AtMostOneSelected(items) && item.status == Normal
    ensures AtMostOneSelected(items + [item])
  {
    var r := items + [item];
    forall i, j | 0 <= i < |r| && 0 <= j < |r| && r[i].status == Selected && r[j].status == Selected
      ensures i == j
    {
      assert i < |items| && j < |items|;
      assert r[i] == items[i] && r[j] == items[j];
    }
  }

  /** A grid click keeps single selection when the factory creates items in the Normal status. */
  lemma GridClickKeepsSingleSelection(core: Core, tool: Tool, offset: Vec, gridLength: real, items: seq<MapItem>)
    requires gridLength > 0.0
    requires AtMostOneSelected(items)
    requires forall n, c, l :: core.createMapItem(n, c, l).status == Normal
    ensures var c := GridClickCandidate(core, tool, offset, gridLength, items);
      c.Some? ==> AtMostOneSelected(c.value)
  {
    if tool.Place? {
      AppendNormalKeepsSingleSelection(items, PlacedItem(core, tool.name, offset, gridLength));
    }
  }

  /**
   * A drop keeps single selection.  A drag from the board with an item
   * selected needs no hypothesis; otherwise the dropped item must not be
   * Selected, which holds when a drag from the palette carries a Normal item
   * and moving an item keeps its status.
   */
  lemma DropKeepsSingleSelection(core: Core, data: TransferData, offset: Vec, gridLength: real, items: seq<MapItem>)
    requires gridLength > 0.0
    requires AtMostOneSelected(items)
    requires data.from == FromCollection ==> data.item.status == Normal
    requires forall m, c :: core.moveMapItem(m, c).status == m.status
    ensures AtMostOneSelected(DropCandidate(core, data, offset, gridLength, items))
  {
    var r := DropCandidate(core, data, offset, gridLength, items);
    var sel := FirstSelected(items);
    if data.from == FromPanel && sel.Some? {
      var kept := RemoveAt(items, sel.value);
      assert NoneSelected(kept) by {
        forall j | 0 <= j < |kept| ensures kept[j].status == Normal {
          if j < sel.value {
            assert kept[j] == items[j];
          } else {
            assert kept[j] == items[j + 1];
          }
        }
      }
      assert r == kept + [r[|r| - 1]];
      forall i, j | 0 <= i < |r| && 0 <= j < |r| && r[i].status == Selected && r[j].status == Selected
        ensures i == j
      {
        assert i == |r| - 1 && j == |r| - 1;
      }
    } else if data.from == FromPanel {
      assert NoneSelected(items);
      assert r == items + [r[|r| - 1]];
      forall i, j | 0 <= i < |r| && 0 <= j < |r| && r[i].status == Selected && r[j].status == Selected
        ensures i == j
      {
        assert i == |r| - 1 && j == |r| - 1;
      }
    } else {
      AppendNormalKeepsSingleSelection(items, DroppedItem(core, data.item, offset, gridLength));
    }
  }

  /** Rotation and zoom keep single selection when the item operations keep an item's status. */
  lemma ToolKeepsSingleSelection(core: Core, action: ToolAction, items: seq<MapItem>)
    requires AtMostOneSelected(items)
    requires forall m :: core.rotateItem(m).status == m.status
    requires forall m, z :: core.zoomItem(m, z).status == m.status
    ensures AtMostOneSelected(ToolCandidate(core, action, items))
  {
    var r := ToolCandidate(core, action, items);
    match FirstSelected(items)
    case None =>
    case Some(k) =>
      if !action.RemoveItem? {
        forall i | 0 <= i < |r| ensures r[i].status == items[i].status {
          if i == k {
            match action {
              case RotateItem =>
              case ZoomInItem =>
              case ZoomOutItem =>
            }
          }
        }
      }
  }

  // ---------------------------------------------------------------------------
  // Keyboard shortcuts
  // ---------------------------------------------------------------------------

  /** Lower case for the ASCII letters; every other character is its own lower case. */
  function LowerChar(c: char): char
  {
    if 'A' <= c <= 'Z' then (c as int + 32) as char else c
  }

  function ToLower(s: string): (r: string)
    ensures |r| == |s|
    ensures forall i :: 0 <= i < |s| ==> r[i] == LowerChar(s[i])
  {
    seq(|s|, i requires 0 <= i < |s| => LowerChar(s[i]))
  }

  /** The keydown dispatch: the lower-cased key names a tool, or nothing. */
  function KeyAction(key: string): (r: Option<ToolAction>)
    ensures r == Some(RemoveItem) <==> ToLower(key) == "delete"
    ensures r == Some(RotateItem) <==> ToLower(key) == "r"
    ensures r == Some(ZoomInItem) <==> ToLower(key) == "="
    ensures r == Some(ZoomOutItem) <==> ToLower(key) == "-"
    ensures r.None? <==> ToLower(key) !in {"delete", "r", "=", "-"}
  {
    var action := ToLower(key);
    if action == "delete" then Some(RemoveItem)
    else if action == "r" then Some(RotateItem)
    else if action == "=" then Some(ZoomInItem)
    else if action == "-" then Some(ZoomOutItem)
    else None
  }

  /** The dispatch ignores letter case. */
  lemma KeyActionIgnoresCase(key: string)
    ensures KeyAction(ToLower(key)) == KeyAction(key)
  {
    assert ToLower(ToLower(key)) == ToLower(key);
  }

  /**
   * Whether the shortcut listener is registered after `mode` has taken the
   * successive values `changes`, starting from `mode` with `listening`.  The
   * watcher on "is editing" runs only when that value changes: it removes the
   * listener on leaving Layout and registers it on entering Layout.
   */
  function LastMode(mode: Mode, changes: seq<Mode>): Mode
  {
    if changes == [] then mode else changes[|changes| - 1]
  }

  function Listening(listening: bool, mode: Mode, changes: seq<Mode>): (r: bool)
    decreases |changes|
    ensures (listening ==> mode == Layout) ==> (r ==> LastMode(mode, changes) == Layout)
  {
    if changes == [] then listening
    else
      var next := changes[0];
      Listening(if next != mode then next == Layout else listening, next, changes[1..])
  }

  /**
   * The watcher as intended (run once at start as well): from a state where
   * the listener is registered exactly in Layout, it is registered exactly in
   * Layout after any sequence of mode changes.
   */
  lemma {:induction false} ListeningCorrected(mode: Mode, changes: seq<Mode>)
    decreases |changes|
    ensures Listening(mode == Layout, mode, changes) == (LastMode(mode, changes) == Layout)
  {
    if changes != [] {
      ListeningCorrected(changes[0], changes[1..]);
      assert LastMode(mode, changes) == LastMode(changes[0], changes[1..]);
    }
  }

  /**
   * The watcher as written (lazy, so not run at start): the view starts in
   * Layout with no listener, and the shortcuts work only once the mode has
   * been Play at least once.
   */
  lemma {:induction false} ListeningAsWritten(changes: seq<Mode>)
    ensures Listening(false, Layout, changes) == (LastMode(Layout, changes) == Layout && Play in changes)
  {
    if changes != [] {
      var next := changes[0];
      assert LastMode(Layout, changes) == LastMode(next, changes[1..]);
      assert Play in changes <==> next == Play || Play in changes[1..];
      if next == Layout {
        ListeningAsWritten(changes[1..]);
      } else {
        ListeningCorrected(next, changes[1..]);
      }
    }
  }

  // ---------------------------------------------------------------------------
  // Entering play mode
  // ---------------------------------------------------------------------------

  /** Which of the two playing panels renders the game. */
  datatype PanelKind = DomBoostPanel | ReactivePanel

  /** What `renderPlaying` hands to the playing panel. */
  datatype PlayView = PlayView(panel: PanelKind, paused: bool, statics: seq<MapItem>, movables: seq<MapItem>)

  /** `renderPlaying`: the movable and the static items, each reset to Normal. */
  function RenderPlaying(core: Core, domMode: bool, paused: bool, items: seq<MapItem>): (v: PlayView)
    ensures v.panel == DomBoostPanel <==> domMode
    ensures v.paused == paused
    ensures NoneSelected(v.movables) && NoneSelected(v.statics)
    ensures SameGeometry(Filter(items, core.isMovable), v.movables)
    ensures SameGeometry(Filter(items, core.isStatic), v.statics)
  {
    PlayView(
      if domMode then DomBoostPanel else ReactivePanel,
      paused,
      ResetStatus(Filter(items, core.isStatic)),
      ResetStatus(Filter(items, core.isMovable)))
  }

  /** The snapshot keeps the order of the collection: it distributes over concatenation. */
  lemma RenderPlayingAppend(core: Core, domMode: bool, paused: bool, a: seq<MapItem>, b: seq<MapItem>)
    ensures RenderPlaying(core, domMode, paused, a + b).movables ==
      RenderPlaying(core, domMode, paused, a).movables + RenderPlaying(core, domMode, paused, b).movables
    ensures RenderPlaying(core, domMode, paused, a + b).statics ==
      RenderPlaying(core, domMode, paused, a).statics + RenderPlaying(core, domMode, paused, b).statics
  {
    FilterAppend(a, b, core.isMovable);
    FilterAppend(a, b, core.isStatic);
    ResetStatusAppend(Filter(a, core.isMovable), Filter(b, core.isMovable));
    ResetStatusAppend(Filter(a, core.isStatic), Filter(b, core.isStatic));
  }

  // ---------------------------------------------------------------------------
  // The editor state
  // ---------------------------------------------------------------------------

  /**
   * The state cells of the main view and its handlers.  The shortcut listener
   * is taken to be registered exactly while the mode is Layout (the watcher as
   * intended; see `ListeningAsWritten` for the watcher as written).
   */
  class Editor {
    const core: Core
    const gridLength: real
    const itemName: StateCell<Tool>
    const mapItems: StateCell<seq<MapItem>>
    const mode: StateCell<Mode>
    const paused: StateCell<bool>
    const domMode: ReducerCell<bool>

    ghost predicate Valid()
    {
      gridLength > 0.0 && forall b :: domMode.reducer(b) == ToggleBoolean(b)
    }

    constructor (core: Core, gridLength: real, xCells: int, yCells: int)
      requires gridLength > 0.0
      ensures Valid()
      ensures this.core == core && this.gridLength == gridLength
      ensures fresh(itemName) && fresh(mapItems) && fresh(mode) && fresh(paused) && fresh(domMode)
      ensures itemName.value == Select
      ensures mapItems.value == core.createBorder(gridLength, xCells, yCells)
      ensures mode.value == Layout && !paused.value && !domMode.value
    {
      this.core := core;
      this.gridLength := gridLength;
      itemName := new StateCell(Select);
      mapItems := new StateCell(core.createBorder(gridLength, xCells, yCells));
      mode := new StateCell(Layout);
      paused := new StateCell(false);
      domMode := new ReducerCell(ToggleBoolean, false);
    }

    /** `setMapItems`: the previous collection's setter, wrapped in the collision gate. */
    method SetMapItems(action: SetAction<seq<MapItem>>) returns (r: seq<MapItem>)
      modifies mapItems
      ensures action.Value? ==> mapItems.value == Gate(core.hasAnyCollision, old(mapItems.value), action.value)
      ensures action.Update? ==>
        mapItems.value == Gate(core.hasAnyCollision, old(mapItems.value), action.updater(old(mapItems.value)))
      ensures CollisionFree(core.hasAnyCollision, old(mapItems.value)) ==>
        CollisionFree(core.hasAnyCollision, mapItems.value)
      ensures r == mapItems.value
    {
      var hasAnyCollision := core.hasAnyCollision;
      r := mapItems.Set(Update((items: seq<MapItem>) =>
        Gate(hasAnyCollision, items, if action.Value? then action.value else action.updater(items))));
    }

    /** The item palette's radio buttons. */
    method SetItemName(tool: Tool)
      modifies itemName
      ensures itemName.value == tool
    {
      var _ := itemName.Set(Value(tool));
    }

    /**
     * A click on item `k` of the editor panel, passed to `setMapItems`.  The
     * panel renders no image for the border, so the border is never clicked.
     */
    method HandleItemClick(k: nat)
      requires k < |mapItems.value|
      requires mapItems.value[k].name != Border
      modifies mapItems
      ensures mapItems.value == Gate(core.hasAnyCollision, old(mapItems.value), ClickItem(old(mapItems.value), k))
      ensures CollisionFree(core.hasAnyCollision, old(mapItems.value)) ==>
        mapItems.value == ClickItem(old(mapItems.value), k) && AtMostOneSelected(mapItems.value)
    {
      if CollisionFree(core.hasAnyCollision, mapItems.value) {
        ClickPassesGate(core.hasAnyCollision, mapItems.value, k);
      }
      var _ := SetMapItems(Value(ClickItem(mapItems.value, k)));
    }

    method HandleGridClick(offset: Vec)
      requires Valid()
      modifies mapItems
      ensures var c := GridClickCandidate(core, itemName.value, offset, gridLength, old(mapItems.value));
        mapItems.value == if c.None? then old(mapItems.value) else Gate(core.hasAnyCollision, old(mapItems.value), c.value)
    {
      var name := itemName.value;
      if name.Place? {
        var core, gridLength := core, gridLength;
        var _ := SetMapItems(Update((items: seq<MapItem>) => items + [PlacedItem(core, name.name, offset, gridLength)]));
      }
    }

    method HandleDropItem(data: TransferData, offset: Vec)
      requires Valid()
      modifies mapItems
      ensures mapItems.value ==
        Gate(core.hasAnyCollision, old(mapItems.value), DropCandidate(core, data, offset, gridLength, old(mapItems.value)))
    {
      var core, gridLength := core, gridLength;
      var _ := SetMapItems(Update((items: seq<MapItem>) => DropCandidate(core, data, offset, gridLength, items)));
    }

    /** A tool handler built by `createToolHandler`: it acts only in Layout mode. */
    method RunTool(action: ToolAction)
      modifies mapItems
      ensures mode.value != Layout ==> mapItems.value == old(mapItems.value)
      ensures mode.value == Layout ==>
        mapItems.value == Gate(core.hasAnyCollision, old(mapItems.value), ToolCandidate(core, action, old(mapItems.value)))
    {
      if mode.value == Layout {
        var core := core;
        var _ := SetMapItems(Update((items: seq<MapItem>) => ToolCandidate(core, action, items)));
      }
    }

    method HandleRemoveItem()
      modifies mapItems
      ensures mode.value != Layout ==> mapItems.value == old(mapItems.value)
      ensures mode.value == Layout ==>
        mapItems.value == Gate(core.hasAnyCollision, old(mapItems.value), RemoveCandidate(old(mapItems.value)))
    {
      RunTool(RemoveItem);
    }

    method HandleRotateItem()
      modifies mapItems
      ensures mode.value != Layout ==> mapItems.value == old(mapItems.value)
      ensures mode.value == Layout ==>
        mapItems.value == Gate(core.hasAnyCollision, old(mapItems.value), ToolCandidate(core, RotateItem, old(mapItems.value)))
    {
      RunTool(RotateItem);
    }

    method HandleZoomInItem()
      modifies mapItems
      ensures mode.value != Layout ==> mapItems.value == old(mapItems.value)
      ensures mode.value == Layout ==>
        mapItems.value == Gate(core.hasAnyCollision, old(mapItems.value), ToolCandidate(core, ZoomInItem, old(mapItems.value)))
    {
      RunTool(ZoomInItem);
    }

    method HandleZoomOutItem()
      modifies mapItems
      ensures mode.value != Layout ==> mapItems.value == old(mapItems.value)
      ensures mode.value == Layout ==>
        mapItems.value == Gate(core.hasAnyCollision, old(mapItems.value), ToolCandidate(core, ZoomOutItem, old(mapItems.value)))
    {
      RunTool(ZoomOutItem);
    }

    /** The keydown listener: registered in Layout mode, it runs the tool the key names. */
    method HandleKeyDown(key: string)
      modifies mapItems
      ensures mode.value == Layout && KeyAction(key).Some? ==>
        mapItems.value == Gate(core.hasAnyCollision, old(mapItems.value), ToolCandidate(core, KeyAction(key).value, old(mapItems.value)))
      ensures mode.value != Layout || KeyAction(key).None? ==> mapItems.value == old(mapItems.value)
    {
      if mode.value == Layout {
        match KeyAction(key) {
          case Some(action) => RunTool(action);
          case None =>
        }
      }
    }

    method HandleLayoutMode()
      modifies mode, paused
      ensures mode.value == Layout && !paused.value
    {
      var _ := mode.Set(Value(Layout));
      var _ := paused.Set(Value(false));
    }

    method HandlePlayMode()
      modifies mode
      ensures mode.value == Play
    {
      var _ := mode.Set(Value(Play));
    }

    method TogglePaused()
      modifies paused
      ensures paused.value == !old(paused.value)
    {
      var _ := paused.Set(Update(ToggleBoolean));
    }

    method ToggleDomMode()
      requires Valid()
      modifies domMode
      ensures domMode.value == !old(domMode.value)
    {
      var _ := domMode.Dispatch();
    }

    /** `handleLoad`'s continuation: a loaded collection goes through the gate; a failure changes nothing. */
    method HandleLoaded(loaded: Option<seq<MapItem>>)
      modifies mapItems
      ensures loaded.None? ==> mapItems.value == old(mapItems.value)
      ensures loaded.Some? ==> mapItems.value == Gate(core.hasAnyCollision, old(mapItems.value), loaded.value)
    {
      if loaded.Some? {
        var _ := SetMapItems(Value(loaded.value));
      }
    }

    /** The view while playing. */
    function PlayingView(): (v: PlayView)
      reads mapItems, paused, domMode
      ensures v.panel == DomBoostPanel <==> domMode.value
      ensures v.paused == paused.value
      ensures NoneSelected(v.movables) && NoneSelected(v.statics)
      ensures SameGeometry(Filter(mapItems.value, core.isMovable), v.movables)
      ensures SameGeometry(Filter(mapItems.value, core.isStatic), v.statics)
    {
      RenderPlaying(core, domMode.value, paused.value, mapItems.value)
    }
  }

  /** Two dispatches of a cell whose reducer is `toggleBoolean` restore its value. */
  method ToggleTwice(cell: ReducerCell<bool>)
    requires forall b :: cell.reducer(b) == ToggleBoolean(b)
    modifies cell
    ensures cell.value == old(cell.value)
  {
    var _ := cell.Dispatch();
    var _ := cell.Dispatch();
  }
}
