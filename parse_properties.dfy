/** What tile parsing guarantees about the layer's ways, relations and builds. */
module ParseProperties {
  import opened Wrappers
  import opened Osm

  /** One point per geometry entry, in order. */
  lemma {:induction false} ProjectAllPointwise(geometry: seq<GeoPoint>, origin: Vec3)
    ensures |ProjectAll(geometry, origin)| == |geometry|
    ensures forall j :: 0 <= j < |geometry| ==> ProjectAll(geometry, origin)[j] == Project(geometry[j], origin)
  {
    if geometry != [] {
      ProjectAllPointwise(geometry[..|geometry| - 1], origin);
    }
  }

  /** One tag per tag entry, in order. */
  lemma {:induction false} ConvertTagsPointwise(entries: seq<(string, string)>)
    ensures |ConvertTags(entries)| == |entries|
    ensures forall j :: 0 <= j < |entries| ==> ConvertTags(entries)[j] == Tag(entries[j].0, entries[j].1)
  {
    if entries != [] {
      ConvertTagsPointwise(entries[..|entries| - 1]);
    }
  }

  /**
   * Member resolution: a member whose `ref` some way in `ways` carries is the
   * first such way, and no way is constructed; otherwise it is a new way built
   * from the member's own geometry.
   */
  lemma ResolveSpec(ways: seq<Way>, m: Member, origin: Vec3)
    ensures (exists j :: 0 <= j < |ways| && ways[j].id == m.ref) ==>
      Resolve(ways, m, origin).Listed? &&
      var i := Resolve(ways, m, origin).index;
      i < |ways| && ways[i].id == m.ref && forall j :: 0 <= j < i ==> ways[j].id != m.ref
    ensures (forall j :: 0 <= j < |ways| ==> ways[j].id != m.ref) ==>
      Resolve(ways, m, origin) == Detached(Way(m.ref, ProjectAll(m.geometry, origin), []))
  {
  }

  /** A fresh member way has the member's id and one point per geometry entry, in order. */
  lemma MemberWayShape(m: Member, origin: Vec3)
    ensures MemberWay(m, origin).id == m.ref && MemberWay(m, origin).tags == []
    ensures |MemberWay(m, origin).points| == |m.geometry|
    ensures forall j :: 0 <= j < |m.geometry| ==> MemberWay(m, origin).points[j] == Project(m.geometry[j], origin)
  {
    ProjectAllPointwise(m.geometry, origin);
  }

  /** One reference per member, in member order. */
  lemma {:induction false} ResolveAllPointwise(ways: seq<Way>, members: seq<Member>, origin: Vec3)
    ensures |ResolveAll(ways, members, origin)| == |members|
    ensures forall k :: 0 <= k < |members| ==> ResolveAll(ways, members, origin)[k] == Resolve(ways, members[k], origin)
  {
    if members != [] {
      ResolveAllPointwise(ways, members[..|members| - 1], origin);
    }
  }

  /** One `Build` call per member, in member order, of the way the member resolves to. */
  lemma {:induction false} MemberBuildsPointwise(ways: seq<Way>, members: seq<Member>, origin: Vec3)
    ensures |MemberBuilds(ways, members, origin)| == |members|
    ensures forall k :: 0 <= k < |members| ==>
      MemberBuilds(ways, members, origin)[k] == BuildOf(ResolvedWay(ways, members[k], origin))
  {
    if members != [] {
      MemberBuildsPointwise(ways, members[..|members| - 1], origin);
    }
  }

  /**
   * `AddWay` appends exactly one way to `ways`, with the element's id, its points
   * and its tags in order, builds that same way once, and leaves `relations` alone.
   */
  lemma AddWaySpec(l: Layer, e: Element, origin: Vec3)
    ensures var l' := AddWayStep(l, e, origin);
      |l'.ways| == |l.ways| + 1 && l'.ways[..|l.ways|] == l.ways &&
      l'.relations == l.relations &&
      |l'.builds| == |l.builds| + 1 && l'.builds[..|l.builds|] == l.builds &&
      var w := l'.ways[|l.ways|];
      l'.builds[|l.builds|] == BuildCall(e.id, w.points) &&
      w.id == e.id &&
      |w.points| == |e.geometry| &&
      (forall j :: 0 <= j < |e.geometry| ==> w.points[j] == Project(e.geometry[j], origin)) &&
      |w.tags| == |e.tags| &&
      (forall j :: 0 <= j < |e.tags| ==> w.tags[j] == Tag(e.tags[j].0, e.tags[j].1))
  {
    ProjectAllPointwise(e.geometry, origin);
    ConvertTagsPointwise(e.tags);
    var l' := AddWayStep(l, e, origin);
    assert l'.ways[..|l.ways|] == l.ways;
    assert l'.builds[..|l.builds|] == l.builds;
  }

  /**
   * `AddRelation` leaves `ways` alone, appends exactly one relation with the
   * element's id, one reference per member in member order, and the tags in
   * order, and calls `Build` once per member.
   */
  lemma AddRelationSpec(l: Layer, e: Element, origin: Vec3)
    ensures var l' := AddRelationStep(l, e, origin);
      l'.ways == l.ways &&
      |l'.relations| == |l.relations| + 1 && l'.relations[..|l.relations|] == l.relations &&
      var r := l'.relations[|l.relations|];
      r.id == e.id &&
      |r.ways| == |e.members| &&
      (forall k :: 0 <= k < |e.members| ==> r.ways[k] == Resolve(l.ways, e.members[k], origin)) &&
      |r.tags| == |e.tags| &&
      (forall j :: 0 <= j < |e.tags| ==> r.tags[j] == Tag(e.tags[j].0, e.tags[j].1)) &&
      |l'.builds| == |l.builds| + |e.members| && l'.builds[..|l.builds|] == l.builds &&
      (forall k :: 0 <= k < |e.members| ==>
        l'.builds[|l.builds| + k] == BuildOf(ResolvedWay(l.ways, e.members[k], origin)))
  {
    ResolveAllPointwise(l.ways, e.members, origin);
    MemberBuildsPointwise(l.ways, e.members, origin);
    ConvertTagsPointwise(e.tags);
    var l' := AddRelationStep(l, e, origin);
    assert l'.relations[..|l.relations|] == l.relations;
    assert l'.builds[..|l.builds|] == l.builds;
  }

  lemma {:induction false} ParseAllAppend(l: Layer, xs: seq<Element>, ys: seq<Element>, origin: Vec3)
    ensures ParseAll(l, xs + ys, origin) == ParseAll(ParseAll(l, xs, origin), ys, origin)
    decreases |ys|
  {
    if ys == [] {
      assert xs + ys == xs;
    } else {
      var ys' := ys[..|ys| - 1];
      assert (xs + ys)[..|xs + ys| - 1] == xs + ys';
      assert (xs + ys)[|xs + ys| - 1] == ys[|ys| - 1];
      ParseAllAppend(l, xs, ys', origin);
    }
  }

  /** An element whose `type` is neither "way" nor "relation" changes nothing. */
  lemma UnknownElementIgnored(l: Layer, e: Element, origin: Vec3)
    requires !Known(e)
    ensures ParseAll(l, [e], origin) == l
  {
  }

  /** Parsing gives the same layer as parsing the array with every unknown element removed. */
  lemma {:induction false} ParseIgnoresUnknown(l: Layer, elements: seq<Element>, origin: Vec3)
    ensures ParseAll(l, elements, origin) == ParseAll(l, KnownOnly(elements), origin)
  {
    if elements != [] {
      var init := elements[..|elements| - 1];
      var e := elements[|elements| - 1];
      ParseIgnoresUnknown(l, init, origin);
      var tail := if Known(e) then [e] else [];
      ParseAllAppend(l, KnownOnly(init), tail, origin);
      if Known(e) {
        assert tail[..0] == [];
      }
    }
  }

  /**
   * After a parse `ways` is the old list followed by the `way` elements' ways, in
   * order: a way that appears only as a relation member is never added.
   */
  lemma {:induction false} ParseWays(l: Layer, elements: seq<Element>, origin: Vec3)
    ensures ParseAll(l, elements, origin).ways == l.ways + WaysOf(elements, origin)
  {
    if elements != [] {
      ParseWays(l, elements[..|elements| - 1], origin);
    }
  }

  /** Parsing keeps the old relations as a prefix and appends one per `relation` element. */
  lemma {:induction false} ParseRelations(l: Layer, elements: seq<Element>, origin: Vec3)
    ensures |ParseAll(l, elements, origin).relations| == |l.relations| + RelationCount(elements)
    ensures ParseAll(l, elements, origin).relations[..|l.relations|] == l.relations
  {
    if elements != [] {
      ParseRelations(l, elements[..|elements| - 1], origin);
      var mid := ParseAll(l, elements[..|elements| - 1], origin);
      assert mid.relations[..|l.relations|] == l.relations;
      var after := ParseAll(l, elements, origin);
      assert after.relations[..|mid.relations|] == mid.relations;
      assert after.relations[..|l.relations|] == mid.relations[..|l.relations|];
    }
  }

  /**
   * The number of `Build` calls in a parse is the number of `way` elements plus
   * the number of members over all `relation` elements; the old log is kept.
   */
  lemma {:induction false} ParseBuildCount(l: Layer, elements: seq<Element>, origin: Vec3)
    ensures |ParseAll(l, elements, origin).builds| == |l.builds| + WayCount(elements) + MemberCount(elements)
    ensures ParseAll(l, elements, origin).builds[..|l.builds|] == l.builds
  {
    if elements != [] {
      var init := elements[..|elements| - 1];
      ParseBuildCount(l, init, origin);
      var mid := ParseAll(l, init, origin);
      var e := elements[|elements| - 1];
      if e.kind == "relation" {
        MemberBuildsPointwise(mid.ways, e.members, origin);
      }
      var after := ParseAll(l, elements, origin);
      assert after.builds[..|mid.builds|] == mid.builds;
      assert after.builds[..|l.builds|] == mid.builds[..|l.builds|];
    }
  }

  /** Appending a way keeps every listed reference valid. */
  lemma AddWayKeepsRefs(l: Layer, e: Element, origin: Vec3)
    requires RefsValid(l)
    ensures RefsValid(AddWayStep(l, e, origin))
  {
  }

  /** A new relation's listed references point at the first way with their id. */
  lemma AddRelationKeepsRefs(l: Layer, e: Element, origin: Vec3)
    requires RefsValid(l)
    ensures RefsValid(AddRelationStep(l, e, origin))
  {
    var l' := AddRelationStep(l, e, origin);
    ResolveAllPointwise(l.ways, e.members, origin);
    forall i, k | 0 <= i < |l'.relations| && 0 <= k < |l'.relations[i].ways| && l'.relations[i].ways[k].Listed?
      ensures var x := l'.relations[i].ways[k].index;
        x < |l'.ways| && forall j :: 0 <= j < x ==> l'.ways[j].id != l'.ways[x].id
    {
      if i != |l.relations| {
        assert l'.relations[i] == l.relations[i];
      }
    }
  }

  lemma StepKeepsRefs(l: Layer, e: Element, origin: Vec3)
    requires RefsValid(l)
    ensures RefsValid(Step(l, e, origin))
  {
    if e.kind == "way" {
      AddWayKeepsRefs(l, e, origin);
    } else if e.kind == "relation" {
      AddRelationKeepsRefs(l, e, origin);
    }
  }

  /** Parsing preserves the reference invariant. */
  lemma {:induction false} ParseKeepsRefs(l: Layer, elements: seq<Element>, origin: Vec3)
    requires RefsValid(l)
    ensures RefsValid(ParseAll(l, elements, origin))
  {
    if elements != [] {
      ParseKeepsRefs(l, elements[..|elements| - 1], origin);
      StepKeepsRefs(ParseAll(l, elements[..|elements| - 1], origin), elements[|elements| - 1], origin);
    }
  }

  /** A way element list none of whose way elements carries `x` contributes no way with id `x`. */
  lemma {:induction false} WaysOfWithoutId(elements: seq<Element>, x: int, origin: Vec3)
    requires forall i :: 0 <= i < |elements| && elements[i].kind == "way" ==> elements[i].id != x
    ensures forall j :: 0 <= j < |WaysOf(elements, origin)| ==> WaysOf(elements, origin)[j].id != x
  {
    if elements != [] {
      WaysOfWithoutId(elements[..|elements| - 1], x, origin);
    }
  }

  /**
   * The state just before the second relation: no listed way carries the id, and
   * the first relation (at index `n1`) holds a detached way for its member.
   */
  lemma FirstRelationDetached(
    l: Layer, xs: seq<Element>, e1: Element, k1: nat, ys: seq<Element>, origin: Vec3)
    requires e1.kind == "relation" && k1 < |e1.members|
    requires forall j :: 0 <= j < |l.ways| ==> l.ways[j].id != e1.members[k1].ref
    requires forall i :: 0 <= i < |xs| && xs[i].kind == "way" ==> xs[i].id != e1.members[k1].ref
    requires forall i :: 0 <= i < |ys| && ys[i].kind == "way" ==> ys[i].id != e1.members[k1].ref
    ensures var l2 := ParseAll(l, xs + [e1] + ys, origin);
      var n1 := |l.relations| + RelationCount(xs);
      (forall j :: 0 <= j < |l2.ways| ==> l2.ways[j].id != e1.members[k1].ref) &&
      |l2.relations| == n1 + 1 + RelationCount(ys) &&
      |l2.relations[n1].ways| == |e1.members| &&
      l2.relations[n1].ways[k1] == Detached(MemberWay(e1.members[k1], origin))
  {
    var x := e1.members[k1].ref;
    var n1 := |l.relations| + RelationCount(xs);
    var l0 := ParseAll(l, xs, origin);
    ParseWays(l, xs, origin);
    ParseRelations(l, xs, origin);
    WaysOfWithoutId(xs, x, origin);
    assert forall j :: 0 <= j < |l0.ways| ==> l0.ways[j].id != x;
    ParseSnoc(l, xs, e1, origin);
    var l1 := AddRelationStep(l0, e1, origin);
    AddRelationSpec(l0, e1, origin);
    ResolveSpec(l0.ways, e1.members[k1], origin);
    ParseAllAppend(l, xs + [e1], ys, origin);
    var l2 := ParseAll(l1, ys, origin);
    ParseWays(l1, ys, origin);
    ParseRelations(l1, ys, origin);
    WaysOfWithoutId(ys, x, origin);
    assert l2.relations[n1] == l2.relations[..|l1.relations|][n1] == l1.relations[n1];
  }

  /**
   * A member-only id (no listed way and no way element of the parse carries it)
   * named by two relations anywhere in a parse gives each relation its own
   * detached way, and `ways` gains only the way elements' ways.
   */
  lemma TwoRelationsTwoDetachedWays(
    l: Layer, xs: seq<Element>, e1: Element, k1: nat, ys: seq<Element>, e2: Element, k2: nat, origin: Vec3)
    requires e1.kind == "relation" && e2.kind == "relation"
    requires k1 < |e1.members| && k2 < |e2.members|
    requires e1.members[k1].ref == e2.members[k2].ref
    requires forall j :: 0 <= j < |l.ways| ==> l.ways[j].id != e1.members[k1].ref
    requires forall i :: 0 <= i < |xs| && xs[i].kind == "way" ==> xs[i].id != e1.members[k1].ref
    requires forall i :: 0 <= i < |ys| && ys[i].kind == "way" ==> ys[i].id != e1.members[k1].ref
    ensures var elements := xs + [e1] + ys + [e2];
      var after := ParseAll(l, elements, origin);
      var n1 := |l.relations| + RelationCount(xs);
      var n2 := n1 + 1 + RelationCount(ys);
      after.ways == l.ways + WaysOf(elements, origin) &&
      |after.relations| == n2 + 1 &&
      |after.relations[n1].ways| == |e1.members| &&
      |after.relations[n2].ways| == |e2.members| &&
      after.relations[n1].ways[k1] == Detached(MemberWay(e1.members[k1], origin)) &&
      after.relations[n2].ways[k2] == Detached(MemberWay(e2.members[k2], origin))
  {
    var n1 := |l.relations| + RelationCount(xs);
    var l2 := ParseAll(l, xs + [e1] + ys, origin);
    FirstRelationDetached(l, xs, e1, k1, ys, origin);
    ParseSnoc(l, xs + [e1] + ys, e2, origin);
    AddRelationSpec(l2, e2, origin);
    ResolveSpec(l2.ways, e2.members[k2], origin);
    ParseWays(l, xs + [e1] + ys + [e2], origin);
    var after := AddRelationStep(l2, e2, origin);
    assert after.relations[n1] == after.relations[..|l2.relations|][n1];
  }

  /** Parsing one more element is one more dispatch step. */
  lemma ParseSnoc(l: Layer, elements: seq<Element>, e: Element, origin: Vec3)
    ensures ParseAll(l, elements + [e], origin) == Step(ParseAll(l, elements, origin), e, origin)
  {
    assert (elements + [e])[..|elements|] == elements;
  }

  /** An index with the id and none before it is what `List.Find` returns. */
  lemma FirstWithIdIs(ways: seq<Way>, x: int, i: nat)
    requires i < |ways| && ways[i].id == x
    requires forall j :: 0 <= j < i ==> ways[j].id != x
    ensures FirstWithId(ways, x) == Some(i)
  {
  }

  /** Appending ways does not change which way `List.Find` finds first. */
  lemma FirstWithIdExtend(ways: seq<Way>, more: seq<Way>, x: int)
    requires FirstWithId(ways, x).Some?
    ensures FirstWithId(ways + more, x) == FirstWithId(ways, x)
  {
    var i := FirstWithId(ways, x).value;
    assert (ways + more)[i] == ways[i];
    assert forall j :: 0 <= j < i ==> (ways + more)[j] == ways[j];
    FirstWithIdIs(ways + more, x, i);
  }

  /**
   * Right after the way element: its way is listed at index `i0`, the first with
   * its id, and its build is at index `b0`.
   */
  lemma WayListed(l: Layer, xs: seq<Element>, w: Element, origin: Vec3)
    requires w.kind == "way"
    requires forall j :: 0 <= j < |l.ways| ==> l.ways[j].id != w.id
    requires forall i :: 0 <= i < |xs| && xs[i].kind == "way" ==> xs[i].id != w.id
    ensures var l1 := ParseAll(l, xs + [w], origin);
      var i0 := |l.ways| + |WaysOf(xs, origin)|;
      var b0 := |l.builds| + WayCount(xs) + MemberCount(xs);
      |l1.ways| == i0 + 1 && l1.ways[i0] == WayOf(w, origin) &&
      FirstWithId(l1.ways, w.id) == Some(i0) &&
      |l1.builds| == b0 + 1 && l1.builds[b0] == BuildOf(WayOf(w, origin)) &&
      |l1.relations| == |l.relations| + RelationCount(xs)
  {
    var l0 := ParseAll(l, xs, origin);
    ParseWays(l, xs, origin);
    ParseRelations(l, xs, origin);
    ParseBuildCount(l, xs, origin);
    WaysOfWithoutId(xs, w.id, origin);
    assert forall j :: 0 <= j < |l0.ways| ==> l0.ways[j].id != w.id;
    ParseSnoc(l, xs, w, origin);
    var l1 := AddWayStep(l0, w, origin);
    FirstWithIdIs(l1.ways, w.id, |l0.ways|);
  }

  /**
   * The state just before the relation: the way element's way is still the first
   * with its id, and its build is still at index `b0`.
   */
  lemma WayListedAndBuilt(l: Layer, xs: seq<Element>, w: Element, ys: seq<Element>, origin: Vec3)
    requires w.kind == "way"
    requires forall j :: 0 <= j < |l.ways| ==> l.ways[j].id != w.id
    requires forall i :: 0 <= i < |xs| && xs[i].kind == "way" ==> xs[i].id != w.id
    ensures var l2 := ParseAll(l, xs + [w] + ys, origin);
      var i0 := |l.ways| + |WaysOf(xs, origin)|;
      var b0 := |l.builds| + WayCount(xs) + MemberCount(xs);
      FirstWithId(l2.ways, w.id) == Some(i0) && i0 < |l2.ways| && l2.ways[i0] == WayOf(w, origin) &&
      |l2.builds| == b0 + 1 + WayCount(ys) + MemberCount(ys) &&
      l2.builds[b0] == BuildOf(WayOf(w, origin)) &&
      |l2.relations| == |l.relations| + RelationCount(xs) + RelationCount(ys)
  {
    var l1 := ParseAll(l, xs + [w], origin);
    WayListed(l, xs, w, origin);
    ParseAllAppend(l, xs + [w], ys, origin);
    var l2 := ParseAll(l1, ys, origin);
    ParseWays(l1, ys, origin);
    ParseRelations(l1, ys, origin);
    ParseBuildCount(l1, ys, origin);
    FirstWithIdExtend(l1.ways, WaysOf(ys, origin), w.id);
    var i0 := |l.ways| + |WaysOf(xs, origin)|;
    var b0 := |l.builds| + WayCount(xs) + MemberCount(xs);
    assert l2.ways[i0] == l1.ways[i0];
    assert l2.builds[b0] == l2.builds[..|l1.builds|][b0];
  }

  /**
   * One relation step over a member whose id the `ways` list carries: the member
   * references the first way with that id and that way is built again; earlier
   * builds are kept.
   */
  lemma RelationRebuildsListed(l: Layer, r: Element, k: nat, i0: nat, b0: nat, origin: Vec3)
    requires k < |r.members| && FirstWithId(l.ways, r.members[k].ref) == Some(i0)
    requires b0 < |l.builds|
    ensures var a := AddRelationStep(l, r, origin);
      |a.builds| == |l.builds| + |r.members| &&
      a.builds[b0] == l.builds[b0] &&
      a.builds[|l.builds| + k] == BuildOf(l.ways[i0]) &&
      |a.relations| == |l.relations| + 1 &&
      |a.relations[|l.relations|].ways| == |r.members| &&
      a.relations[|l.relations|].ways[k] == Listed(i0)
  {
    var made := MemberBuilds(l.ways, r.members, origin);
    ResolveAllPointwise(l.ways, r.members, origin);
    MemberBuildsPointwise(l.ways, r.members, origin);
    assert made[k] == BuildOf(ResolvedWay(l.ways, r.members[k], origin));
    assert (l.builds + made)[b0] == l.builds[b0];
    assert (l.builds + made)[|l.builds| + k] == made[k];
  }

  /**
   * A top-level way that a later relation references is built a second time:
   * once by `AddWay` and once more for the relation's member, which references
   * that listed way (no earlier way carries its id).
   */
  lemma WayBuiltTwice(
    l: Layer, xs: seq<Element>, w: Element, ys: seq<Element>, r: Element, k: nat, origin: Vec3, after: Layer)
    requires w.kind == "way" && r.kind == "relation"
    requires k < |r.members| && r.members[k].ref == w.id
    requires forall j :: 0 <= j < |l.ways| ==> l.ways[j].id != w.id
    requires forall i :: 0 <= i < |xs| && xs[i].kind == "way" ==> xs[i].id != w.id
    requires after == ParseAll(l, xs + [w] + ys + [r], origin)
    ensures
      var b0 := |l.builds| + WayCount(xs) + MemberCount(xs);
      var b2 := b0 + 1 + WayCount(ys) + MemberCount(ys);
      var n := |l.relations| + RelationCount(xs) + RelationCount(ys);
      |after.builds| == b2 + |r.members| &&
      after.builds[b0] == BuildOf(WayOf(w, origin)) &&
      after.builds[b2 + k] == BuildOf(WayOf(w, origin)) &&
      |after.relations| == n + 1 &&
      |after.relations[n].ways| == |r.members| &&
      after.relations[n].ways[k] == Listed(|l.ways| + |WaysOf(xs, origin)|)
  {
    WayListedAndBuilt(l, xs, w, ys, origin);
    ParseSnoc(l, xs + [w] + ys, r, origin);
    RelationRebuildsListed(ParseAll(l, xs + [w] + ys, origin), r, k,
      |l.ways| + |WaysOf(xs, origin)|, |l.builds| + WayCount(xs) + MemberCount(xs), origin);
  }
}
