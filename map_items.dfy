/**
 * The map-item data model and the operations of the program's geometry core.
 *
 * The collision detector, the polygon precomputation, the ball simulation step,
 * the item factory and the item transformations live in modules that are not
 * part of this model.  They are gathered in the record `Core` as function
 * values: every statement proved here holds for every choice of them.
 */
module MapItems {
  import opened Wrappers
  import opened Vectors

  /** The item variants, named as the program names them ("baffle-alpha", ...). */
  datatype ItemName =
    | Border | Ball | BaffleAlpha | BaffleBeta | Absorber
    | Circle | Square | Triangle | Pipe | PipeTurned

  datatype Status = Normal | Selected

  datatype Rotation = Up | Right | Down | Left

  datatype Shape = CircleShape(radius: real) | PolygonShape(vertices: seq<Vec>)

  /** A collider; `center` is the only part the modelled code reads or changes. */
  datatype Collider = Collider(center: Vec, shape: Shape)

  /**
   * A map item.  Items without the rotation capability carry `Up`, which the
   * modelled code never reads.
   */
  datatype MapItem = MapItem(
    name: ItemName,
    center: Vec,
    size: Vec,
    status: Status,
    rotation: Rotation,
    collider: Collider)

  /** Edges and normals of one polygon collider, as the precomputation derives them. */
  datatype PolygonData = PolygonData(edges: seq<Vec>, normals: seq<Vec>)

  /** The two scale steps `zoomInReducer` and `zoomOutReducer`. */
  datatype Zoom = ZoomIn | ZoomOut

  /** The operations of the geometry core that the modelled code calls. */
  datatype Core = Core(
    hasAnyCollision: seq<Collider> -> bool,
    preCompute: Collider -> PolygonData,
    reduceNextTick: (seq<MapItem>, seq<MapItem>, seq<MapItem>, map<MapItem, PolygonData>) -> seq<MapItem>,
    createMapItem: (ItemName, Vec, real) -> MapItem,
    createBorder: (real, int, int) -> seq<MapItem>,
    sizeOfMapItem: (ItemName, real) -> Vec,
    moveMapItem: (MapItem, Vec) -> MapItem,
    rotateItem: MapItem -> MapItem,
    zoomItem: (MapItem, Zoom) -> MapItem,
    canRotate: MapItem -> bool,
    canZoom: MapItem -> bool,
    isMovable: MapItem -> bool,
    isStatic: MapItem -> bool)

  /** The collider of each item, in the order of the items. */
  function Colliders(items: seq<MapItem>): (r: seq<Collider>)
    ensures |r| == |items|
    ensures forall i :: 0 <= i < |items| ==> r[i] == items[i].collider
  {
    seq(|items|, i requires 0 <= i < |items| => items[i].collider)
  }

  /** The collection invariant: no two colliders of the items overlap. */
  predicate CollisionFree(hasAnyCollision: seq<Collider> -> bool, items: seq<MapItem>)
  {
    !hasAnyCollision(Colliders(items))
  }

  /** Every item of `r` is the item of `items` at the same place with only its status replaced. */
  predicate SameGeometry(items: seq<MapItem>, r: seq<MapItem>)
  {
    |r| == |items| && forall i :: 0 <= i < |r| ==> r[i] == items[i].(status := r[i].status)
  }

  /** Changing only statuses leaves the collider sequence, and so the collision verdict, as it was. */
  lemma SameGeometryColliders(items: seq<MapItem>, r: seq<MapItem>)
    requires SameGeometry(items, r)
    ensures Colliders(r) == Colliders(items)
  {
  }

  predicate AtMostOneSelected(items: seq<MapItem>)
  {
    forall i, j ::
      0 <= i < |items| && 0 <= j < |items| && items[i].status == Selected && items[j].status == Selected
      ==> i == j
  }

  predicate NoneSelected(items: seq<MapItem>)
  {
    forall i :: 0 <= i < |items| ==> items[i].status == Normal
  }

  /**
   * The search for the selected item: the position of the first item whose
   * status is Selected, if there is one.
   */
  function FirstSelected(items: seq<MapItem>): (r: Option<nat>)
    ensures r.Some? ==> r.value < |items| && items[r.value].status == Selected
    ensures r.Some? ==> forall j :: 0 <= j < r.value ==> items[j].status == Normal
    ensures r.None? <==> NoneSelected(items)
  {
    if items == [] then None
    else if items[0].status == Selected then Some(0)
    else match FirstSelected(items[1..])
      case None => None
      case Some(k) => Some(k + 1)
  }

  /** Each item copied with its status set to Normal. */
  function ResetStatus(items: seq<MapItem>): (r: seq<MapItem>)
    ensures SameGeometry(items, r)
    ensures NoneSelected(r)
  {
    seq(|items|, i requires 0 <= i < |items| => items[i].(status := Normal))
  }

  lemma ResetStatusAppend(a: seq<MapItem>, b: seq<MapItem>)
    ensures ResetStatus(a + b) == ResetStatus(a) + ResetStatus(b)
  {
  }
}
