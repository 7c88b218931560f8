/**
 * The game panel: the item-selection click and the drop-offset arithmetic of
 * the editor panel, and the play-session controller that owns balls, baffles
 * and the held-key map while a game runs.
 */
module GamePanel {
  import opened Wrappers
  import opened Vectors
  import opened Seqs
  import opened MapItems

  // ---------------------------------------------------------------------------
  // Editor panel
  // ---------------------------------------------------------------------------

  function Toggled(s: Status): Status
  {
    if s == Selected then Normal else Selected
  }

  /**
   * The collection proposed when item `k` is clicked: every other item is reset
   * to Normal and item `k` toggles between Normal and Selected.
   */
  function ClickItem(items: seq<MapItem>, k: nat): (r: seq<MapItem>)
    requires k < |items|
    ensures SameGeometry(items, r)
    ensures r[k].status == Toggled(items[k].status)
    ensures forall i :: 0 <= i < |r| && i != k ==> r[i].status == Normal
    ensures AtMostOneSelected(r)
  {
    var others := seq(|items|, i requires 0 <= i < |items| =>
      if i == k then items[i] else items[i].(status := Normal));
    others[k := items[k].(status := Toggled(items[k].status))]
  }

  /** Where a drag started: on the board ("panel") or in the item palette ("collection"). */
  datatype Origin = FromPanel | FromCollection

  /** What a drag carries: the item, its origin, and where it was picked up (page coordinates). */
  datatype TransferData = TransferData(item: MapItem, from: Origin, pickedUpPosition: Option<Vec>)

  /** A call of `onDropItem` with the transferred data and the panel-relative drop offset. */
  datatype DropRequest = DropRequest(data: TransferData, offset: Vec)

  /**
   * `handleDrop`: `data` is what the transfer holds and `panelOffset` the
   * panel element's offset, each absent when there is none; `page` is the
   * event's page position.  The offset reported is the drop position relative
   * to the panel, corrected by where inside the item the cursor held it.
   */
  function HandleDrop(data: Option<TransferData>, panelOffset: Option<Vec>, page: Vec): (r: Option<DropRequest>)
    ensures r.None? <==> data.None? || panelOffset.None?
    ensures r.Some? ==> r.value.data == data.value
    ensures r.Some? && data.value.pickedUpPosition.None? ==>
      r.value.offset == Sub(page, panelOffset.value)
    ensures r.Some? && data.value.pickedUpPosition.Some? ==>
      r.value.offset == Add(data.value.item.center, Sub(page, data.value.pickedUpPosition.value))
  {
    if data.None? || panelOffset.None? then None
    else
      var d, panel := data.value, panelOffset.value;
      var absolutePickedCenter := Add(d.item.center, panel);
      var pickedUp := if d.pickedUpPosition.Some? then d.pickedUpPosition.value else absolutePickedCenter;
      var cursorCenterOffset := Sub(pickedUp, absolutePickedCenter);
      var droppedOffset := Sub(page, panel);
      Some(DropRequest(d, Sub(droppedOffset, cursorCenterOffset)))
  }

  /** `handlePanelClick`: the click position relative to the panel. */
  function PanelClickOffset(panelOffset: Vec, page: Vec): (r: Vec)
    ensures Add(r, panelOffset) == page
  {
    Sub(page, panelOffset)
  }

  // ---------------------------------------------------------------------------
  // Play session
  // ---------------------------------------------------------------------------

  const AlphaLeft: string := "a"
  const AlphaRight: string := "d"
  const BetaLeft: string := "j"
  const BetaRight: string := "l"
  const BaffleKeys: set<string> := {AlphaLeft, AlphaRight, BetaLeft, BetaRight}

  predicate IsBall(m: MapItem)
  {
    m.name == Ball
  }

  predicate IsBaffle(m: MapItem)
  {
    m.name == BaffleAlpha || m.name == BaffleBeta
  }

  /** The held-key map at the start of a session. */
  function InitialKeyStatus(): (keys: map<string, bool>)
    ensures keys.Keys == BaffleKeys
    ensures forall k :: k in keys ==> !keys[k]
  {
    map[AlphaLeft := false, AlphaRight := false, BetaLeft := false, BetaRight := false]
  }

  /** A key event: a baffle key takes the state `target`, any other key is ignored. */
  function ToggleKeyState(keys: map<string, bool>, key: string, target: bool): (r: map<string, bool>)
    ensures r.Keys == keys.Keys
    ensures key in keys ==> r[key] == target
    ensures forall k :: k in keys && k != key ==> r[k] == keys[k]
    ensures key !in keys ==> r == keys
  {
    if key in keys then keys[key := target] else keys
  }

  /** JavaScript's unary `+` on a boolean. */
  function Num(b: bool): real
  {
    if b then 1.0 else 0.0
  }

  /**
   * `movedBaffle`: the baffle shifted horizontally by `moveStep` times
   * (right - left), the item and its collider alike.
   */
  function MovedBaffle(baffle: MapItem, l: bool, r: bool, moveStep: real): (m: MapItem)
    ensures m.center == Vec(baffle.center.x + moveStep * (Num(r) - Num(l)), baffle.center.y)
    ensures m.collider.center ==
      Vec(baffle.collider.center.x + moveStep * (Num(r) - Num(l)), baffle.collider.center.y)
    ensures m.(center := baffle.center, collider := baffle.collider) == baffle
    ensures m.collider.(center := baffle.collider.center) == baffle.collider
    ensures l == r ==> m == baffle
  {
    var moveOffset := Scale(Vec(moveStep, 0.0), Num(r) - Num(l));
    baffle.(center := Add(baffle.center, moveOffset),
            collider := baffle.collider.(center := Add(baffle.collider.center, moveOffset)))
  }

  /** One entry of the tick's `combinations`: the left and right key states and the baffle they drive. */
  datatype Combination = Combination(left: bool, right: bool, name: ItemName)

  /** The combinations of one baffle tick, alpha first. */
  function Combinations(keys: map<string, bool>): (r: seq<Combination>)
    requires BaffleKeys <= keys.Keys
    ensures |r| == 2
    ensures r[0] == Combination(keys[AlphaLeft], keys[AlphaRight], BaffleAlpha)
    ensures r[1] == Combination(keys[BetaLeft], keys[BetaRight], BaffleBeta)
  {
    [Combination(keys[AlphaLeft], keys[AlphaRight], BaffleAlpha),
     Combination(keys[BetaLeft], keys[BetaRight], BaffleBeta)]
  }

  /** The candidate of one combination: the baffles named `c.name` moved, every other one kept. */
  function MoveNamed(baffles: seq<MapItem>, c: Combination, moveStep: real): (r: seq<MapItem>)
    ensures |r| == |baffles|
    ensures forall i :: 0 <= i < |r| ==> r[i].name == baffles[i].name
    ensures forall i :: 0 <= i < |r| && baffles[i].name != c.name ==> r[i] == baffles[i]
    ensures forall i :: 0 <= i < |r| && baffles[i].name == c.name ==>
      r[i] == MovedBaffle(baffles[i], c.left, c.right, moveStep)
  {
    seq(|baffles|, i requires 0 <= i < |baffles| =>
      if baffles[i].name == c.name then MovedBaffle(baffles[i], c.left, c.right, moveStep) else baffles[i])
  }

  /** What a baffle tick works against: the collision test, the statics, the balls and the step. */
  datatype Arena = Arena(
    hasAnyCollision: seq<Collider> -> bool,
    statics: seq<MapItem>,
    balls: seq<MapItem>,
    moveStep: real)

  /** The gate of a baffle move: no collision against the statics and none against the balls. */
  predicate BaffleFree(arena: Arena, baffles: seq<MapItem>): (r: bool)
    ensures r <==>
      CollisionFree(arena.hasAnyCollision, baffles + arena.statics) &&
      CollisionFree(arena.hasAnyCollision, baffles + arena.balls)
  {
    && !arena.hasAnyCollision(Colliders(baffles + arena.statics))
    && !arena.hasAnyCollision(Colliders(baffles + arena.balls))
  }

  /** One pass of the tick's loop body: propose a move when the keys disagree, commit it if it passes the gate. */
  function BaffleStep(arena: Arena, c: Combination, baffles: seq<MapItem>): (r: seq<MapItem>)
    ensures c.left == c.right ==> r == baffles
    ensures r == baffles || r == MoveNamed(baffles, c, arena.moveStep)
    ensures c.left != c.right && BaffleFree(arena, MoveNamed(baffles, c, arena.moveStep)) ==>
      r == MoveNamed(baffles, c, arena.moveStep)
    ensures !BaffleFree(arena, MoveNamed(baffles, c, arena.moveStep)) ==> r == baffles
    ensures BaffleFree(arena, baffles) ==> BaffleFree(arena, r)
  {
    if c.left != c.right then
      var newBaffles := MoveNamed(baffles, c, arena.moveStep);
      if BaffleFree(arena, newBaffles) then newBaffles else baffles
    else baffles
  }

  /** The combinations applied in order, each starting from the baffles the previous one left. */
  function ApplyCombinations(arena: Arena, combos: seq<Combination>, baffles: seq<MapItem>): (r: seq<MapItem>)
    decreases |combos|
    ensures |r| == |baffles|
    ensures forall i :: 0 <= i < |r| ==> r[i].name == baffles[i].name
    ensures BaffleFree(arena, baffles) ==> BaffleFree(arena, r)
  {
    if combos == [] then baffles
    else BaffleStep(arena, combos[|combos| - 1], ApplyCombinations(arena, combos[..|combos| - 1], baffles))
  }

  /** Beta's candidate is built from the baffles as they stand after alpha's step. */
  lemma TickOrder(arena: Arena, alpha: Combination, beta: Combination, baffles: seq<MapItem>)
    ensures ApplyCombinations(arena, [alpha, beta], baffles) ==
      BaffleStep(arena, beta, BaffleStep(arena, alpha, baffles))
  {
    assert [alpha, beta][..1] == [alpha];
    assert [alpha][..0] == [];
    assert ApplyCombinations(arena, [], baffles) == baffles;
    assert ApplyCombinations(arena, [alpha], baffles) == BaffleStep(arena, alpha, baffles);
  }

  /** With no baffle driven by exactly one key, a tick changes nothing. */
  lemma {:induction false} IdleTick(arena: Arena, combos: seq<Combination>, baffles: seq<MapItem>)
    requires forall i :: 0 <= i < |combos| ==> combos[i].left == combos[i].right
    ensures ApplyCombinations(arena, combos, baffles) == baffles
  {
    if combos != [] {
      IdleTick(arena, combos[..|combos| - 1], baffles);
    }
  }

  /**
   * The precompute table: `preCompute` of the collider of every static item
   * not named "circle", keyed by the item.
   */
  function PreComputeTable(preCompute: Collider -> PolygonData, statics: seq<MapItem>): (r: map<MapItem, PolygonData>)
    decreases |statics|
    ensures forall m :: m in r <==> m in statics && m.name != Circle
    ensures forall m :: m in r ==> r[m] == preCompute(m.collider)
  {
    if statics == [] then map[]
    else
      var acc := PreComputeTable(preCompute, statics[..|statics| - 1]);
      var item := statics[|statics| - 1];
      assert statics == statics[..|statics| - 1] + [item];
      if item.name != Circle then acc[item := preCompute(item.collider)] else acc
  }

  /**
   * The state of one play session: `createGizmoballPlayingEffectCleanUp`'s
   * `currentBalls`, `currentBaffles` and `keyStatus`.  Each timer callback and
   * each key listener is a method; the scheduler calls them one at a time, in
   * any order.
   */
  class PlayingSession {
    const core: Core
    const statics: seq<MapItem>
    const moveStep: real
    const preComputed: map<MapItem, PolygonData>
    var currentBalls: seq<MapItem>
    var currentBaffles: seq<MapItem>
    var keyStatus: map<string, bool>

    ghost predicate Valid()
      reads this
    {
      && keyStatus.Keys == BaffleKeys
      && forall i :: 0 <= i < |currentBaffles| ==> IsBaffle(currentBaffles[i])
    }

    /** The arena the baffle tick works against in the current state. */
    function CurrentArena(): Arena
      reads this
    {
      Arena(core.hasAnyCollision, statics, currentBalls, moveStep)
    }

    /** Session start: split the movables, precompute the statics, release every key. */
    constructor (movables: seq<MapItem>, statics: seq<MapItem>, core: Core, moveStep: real)
      ensures Valid()
      ensures this.core == core && this.statics == statics && this.moveStep == moveStep
      ensures currentBalls == Filter(movables, IsBall)
      ensures currentBaffles == Filter(movables, IsBaffle)
      ensures preComputed == PreComputeTable(core.preCompute, statics)
      ensures keyStatus == InitialKeyStatus()
    {
      this.core := core;
      this.statics := statics;
      this.moveStep := moveStep;
      currentBalls := Filter(movables, IsBall);
      currentBaffles := Filter(movables, IsBaffle);
      preComputed := PreComputeTable(core.preCompute, statics);
      keyStatus := InitialKeyStatus();
    }

    /** The item-update timer: advance the balls by one simulation step. */
    method ItemTick()
      requires Valid()
      modifies this`currentBalls
      ensures Valid()
      ensures currentBalls == core.reduceNextTick(old(currentBalls), currentBaffles, statics, preComputed)
    {
      currentBalls := core.reduceNextTick(currentBalls, currentBaffles, statics, preComputed);
    }

    /** The keydown listener. */
    method KeyDown(key: string)
      requires Valid()
      modifies this`keyStatus
      ensures Valid()
      ensures keyStatus == ToggleKeyState(old(keyStatus), key, true)
    {
      keyStatus := ToggleKeyState(keyStatus, key, true);
    }

    /** The keyup listener. */
    method KeyUp(key: string)
      requires Valid()
      modifies this`keyStatus
      ensures Valid()
      ensures keyStatus == ToggleKeyState(old(keyStatus), key, false)
    {
      keyStatus := ToggleKeyState(keyStatus, key, false);
    }

    /** The baffle-move timer: each combination in turn, each move collision-gated. */
    method BaffleTick()
      requires Valid()
      modifies this`currentBaffles
      ensures Valid()
      ensures currentBaffles == ApplyCombinations(CurrentArena(), Combinations(keyStatus), old(currentBaffles))
      ensures BaffleFree(CurrentArena(), old(currentBaffles)) ==> BaffleFree(CurrentArena(), currentBaffles)
    {
      var combinations := Combinations(keyStatus);
      for i := 0 to |combinations|
        invariant Valid()
        invariant currentBaffles == ApplyCombinations(CurrentArena(), combinations[..i], old(currentBaffles))
      {
        var c := combinations[i];
        if c.left != c.right {
          var newBaffles := MoveNamed(currentBaffles, c, moveStep);
          if !core.hasAnyCollision(Colliders(newBaffles + statics))
            && !core.hasAnyCollision(Colliders(newBaffles + currentBalls))
          {
            currentBaffles := newBaffles;
          }
        }
        assert combinations[..i + 1][..i] == combinations[..i];
      }
      assert combinations[..|combinations|] == combinations;
    }

    /** The refresh timer: the snapshot handed to `updateMovables`, baffles first. */
    method Refresh() returns (baffles: seq<MapItem>, balls: seq<MapItem>)
      ensures baffles == currentBaffles && balls == currentBalls
    {
      baffles, balls := currentBaffles, currentBalls;
    }
  }
}
