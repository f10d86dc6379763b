/**
 * The OSM records the buildings layer builds from a tile's element array, and a
 * functional specification of what ingesting those elements does to the layer's
 * state: the `ways` list, the `relations` list and the log of `Build` calls.
 */
module Osm {
  import opened Wrappers

  /** The layer's initial mercator position: every point of a tile is projected against it. */
  datatype Vec3 = Vec3(x: real, y: real, z: real)

  /** One `{lat, lon}` entry of a JSON `geometry` array. */
  datatype GeoPoint = GeoPoint(lat: real, lon: real)

  /**
   * A parsed point: its coordinates and the origin it was projected against.
   * The projected position itself is floating-point math and is not modelled.
   */
  datatype Point = Point(lat: real, lon: real, origin: Vec3)

  datatype Tag = Tag(key: string, value: string)

  /** One entry of a relation's `members` array: the `ref` and the member's inline geometry. */
  datatype Member = Member(ref: int, geometry: seq<GeoPoint>)

  /**
   * One JSON element. A field the JSON lacks reads as empty, as a missing array
   * or object does in the JSON library; `tags` keeps the object's key order.
   */
  datatype Element = Element(
    kind: string,
    id: int,
    geometry: seq<GeoPoint>,
    members: seq<Member>,
    tags: seq<(string, string)>)

  datatype Way = Way(id: int, points: seq<Point>, tags: seq<Tag>)

  /**
   * What a relation holds for one member. `Listed(i)` is the very object at index
   * `i` of the layer's `ways` list; `Detached(w)` is a way object built for this
   * member alone and present in no list.
   */
  datatype WayRef = Listed(index: nat) | Detached(way: Way)

  datatype Relation = Relation(id: int, ways: seq<WayRef>, tags: seq<Tag>)

  /** One call of `Build`: the way's id and its points, in order. */
  datatype BuildCall = BuildCall(id: int, points: seq<Point>)

  /** The part of the layer that tile parsing changes. */
  datatype Layer = Layer(ways: seq<Way>, relations: seq<Relation>, builds: seq<BuildCall>)

  function Project(g: GeoPoint, origin: Vec3): Point
  {
    Point(g.lat, g.lon, origin)
  }

  /** The points of a geometry array, in order. */
  function ProjectAll(geometry: seq<GeoPoint>, origin: Vec3): seq<Point>
  {
    if geometry == [] then []
    else ProjectAll(geometry[..|geometry| - 1], origin) + [Project(geometry[|geometry| - 1], origin)]
  }

  /** The tags of a JSON tag object, in its key order. */
  function ConvertTags(entries: seq<(string, string)>): seq<Tag>
  {
    if entries == [] then []
    else
      var last := entries[|entries| - 1];
      ConvertTags(entries[..|entries| - 1]) + [Tag(last.0, last.1)]
  }

  /** The way `AddWay` builds from a `way` element. */
  function WayOf(e: Element, origin: Vec3): Way
  {
    Way(e.id, ProjectAll(e.geometry, origin), ConvertTags(e.tags))
  }

  /** The way `AddRelation` builds for a member it cannot find: id and points, no tags. */
  function MemberWay(m: Member, origin: Vec3): Way
  {
    Way(m.ref, ProjectAll(m.geometry, origin), [])
  }

  function BuildOf(w: Way): BuildCall
  {
    BuildCall(w.id, w.points)
  }

  /** The first index at or after `from` whose way has id `ref` (what `List.Find` scans for). */
  function FirstFrom(ways: seq<Way>, ref: int, from: nat): (r: Option<nat>)
    requires from <= |ways|
    ensures r.None? <==> forall j :: from <= j < |ways| ==> ways[j].id != ref
    ensures r.Some? ==> from <= r.value < |ways| && ways[r.value].id == ref
    ensures r.Some? ==> forall j :: from <= j < r.value ==> ways[j].id != ref
    decreases |ways| - from
  {
    if from == |ways| then None
    else if ways[from].id == ref then Some(from)
    else FirstFrom(ways, ref, from + 1)
  }

  /** `List.Find`: the first way with id `ref`, or none exactly when no way has it. */
  function FirstWithId(ways: seq<Way>, ref: int): (r: Option<nat>)
    ensures r.None? <==> forall j :: 0 <= j < |ways| ==> ways[j].id != ref
    ensures r.Some? ==> r.value < |ways| && ways[r.value].id == ref
    ensures r.Some? ==> forall j :: 0 <= j < r.value ==> ways[j].id != ref
  {
    FirstFrom(ways, ref, 0)
  }

  /** How `AddRelation` resolves one member against the `ways` list. */
  function Resolve(ways: seq<Way>, m: Member, origin: Vec3): WayRef
  {
    match FirstWithId(ways, m.ref)
    case Some(i) => Listed(i)
    case None => Detached(MemberWay(m, origin))
  }

  /** The way object a reference designates. */
  function Deref(ways: seq<Way>, r: WayRef): Way
    requires r.Listed? ==> r.index < |ways|
  {
    match r
    case Listed(i) => ways[i]
    case Detached(w) => w
  }

  /** The way a member resolves to. */
  function ResolvedWay(ways: seq<Way>, m: Member, origin: Vec3): Way
  {
    Deref(ways, Resolve(ways, m, origin))
  }

  /** A relation's way references, one per member, in member order. */
  function ResolveAll(ways: seq<Way>, members: seq<Member>, origin: Vec3): seq<WayRef>
  {
    if members == [] then []
    else ResolveAll(ways, members[..|members| - 1], origin) + [Resolve(ways, members[|members| - 1], origin)]
  }

  /** The `Build` calls `AddRelation` makes, one per member, in member order. */
  function MemberBuilds(ways: seq<Way>, members: seq<Member>, origin: Vec3): seq<BuildCall>
  {
    if members == [] then []
    else MemberBuilds(ways, members[..|members| - 1], origin) + [BuildOf(ResolvedWay(ways, members[|members| - 1], origin))]
  }

  /** `AddWay`: build the way, then append it to `ways`. */
  function AddWayStep(l: Layer, e: Element, origin: Vec3): Layer
  {
    var w := WayOf(e, origin);
    Layer(l.ways + [w], l.relations, l.builds + [BuildOf(w)])
  }

  /** `AddRelation`: resolve and build every member, then append the relation; `ways` is not touched. */
  function AddRelationStep(l: Layer, e: Element, origin: Vec3): Layer
  {
    var r := Relation(e.id, ResolveAll(l.ways, e.members, origin), ConvertTags(e.tags));
    Layer(l.ways, l.relations + [r], l.builds + MemberBuilds(l.ways, e.members, origin))
  }

  /** One iteration of `ParseTileData`: dispatch on the element's `type`. */
  function Step(l: Layer, e: Element, origin: Vec3): Layer
  {
    if e.kind == "way" then AddWayStep(l, e, origin)
    else if e.kind == "relation" then AddRelationStep(l, e, origin)
    else l
  }

  /** `ParseTileData`: the elements in array order. */
  function ParseAll(l: Layer, elements: seq<Element>, origin: Vec3): Layer
  {
    if elements == [] then l
    else Step(ParseAll(l, elements[..|elements| - 1], origin), elements[|elements| - 1], origin)
  }

  /**
   * The layer's reference invariant: every listed reference of every relation is
   * an index into `ways`, and no earlier way carries the same id (it is the way
   * `List.Find` returned).
   */
  ghost predicate RefsValid(l: Layer)
  {
    forall i, k ::
      0 <= i < |l.relations| && 0 <= k < |l.relations[i].ways| && l.relations[i].ways[k].Listed? ==>
        var x := l.relations[i].ways[k].index;
        x < |l.ways| && forall j :: 0 <= j < x ==> l.ways[j].id != l.ways[x].id
  }

  predicate Known(e: Element)
  {
    e.kind == "way" || e.kind == "relation"
  }

  /** The elements that `ParseTileData` does not skip. */
  function KnownOnly(elements: seq<Element>): seq<Element>
  {
    if elements == [] then []
    else
      var e := elements[|elements| - 1];
      KnownOnly(elements[..|elements| - 1]) + (if Known(e) then [e] else [])
  }

  /** The ways built from the `way` elements, in element order. */
  function WaysOf(elements: seq<Element>, origin: Vec3): seq<Way>
  {
    if elements == [] then []
    else
      var e := elements[|elements| - 1];
      WaysOf(elements[..|elements| - 1], origin) + (if e.kind == "way" then [WayOf(e, origin)] else [])
  }

  function RelationCount(elements: seq<Element>): nat
  {
    if elements == [] then 0
    else RelationCount(elements[..|elements| - 1]) + (if elements[|elements| - 1].kind == "relation" then 1 else 0)
  }

  function WayCount(elements: seq<Element>): nat
  {
    if elements == [] then 0
    else WayCount(elements[..|elements| - 1]) + (if elements[|elements| - 1].kind == "way" then 1 else 0)
  }

  /** The number of members over all `relation` elements. */
  function MemberCount(elements: seq<Element>): nat
  {
    if elements == [] then 0
    else
      var e := elements[|elements| - 1];
      MemberCount(elements[..|elements| - 1]) + (if e.kind == "relation" then |e.members| else 0)
  }
}
