/**
 * The buildings layer: the object that holds the `ways` and `relations` lists a
 * tile's elements are appended to, the cache directory, and the log of what it
 * asked the builder, the transport and the callback to do.
 */
module Buildings {
  import opened Wrappers
  import opened Osm
  import opened TileCache
  import ParseProperties

  /** `String.Replace(char, char)`: every `from` becomes `to`, nothing else changes. */
  function Replace(s: string, from: char, to: char): (r: string)
    ensures |r| == |s|
    ensures forall i :: 0 <= i < |s| ==> r[i] == (if s[i] == from then to else s[i])
    ensures from != to ==> from !in r
  {
    if s == [] then [] else [if s[0] == from then to else s[0]] + Replace(s[1..], from, to)
  }

  /**
   * The parameter arrays `InterpolatedUrl` hands to the URL template: five slots
   * each, the first four holding the four boundary values (formatted, with `,`
   * turned into `.`) and their names; the fifth slot is never filled.
   */
  method UrlParameters(boundaries: seq<string>) returns (values: array<Option<string>>, names: array<Option<string>>)
    requires |boundaries| >= 4
    ensures fresh(values) && fresh(names)
    ensures values[..] == [
      Some(Replace(boundaries[0], ',', '.')),
      Some(Replace(boundaries[1], ',', '.')),
      Some(Replace(boundaries[2], ',', '.')),
      Some(Replace(boundaries[3], ',', '.')),
      None]
    ensures names[..] == [Some("startLatitude"), Some("startLongitude"), Some("endLatitude"), Some("endLongitude"), None]
  {
    values := new Option<string>[5](_ => None);
    names := new Option<string>[5](_ => None);
    values[0] := Some(Replace(boundaries[0], ',', '.'));
    names[0] := Some("startLatitude");
    values[1] := Some(Replace(boundaries[1], ',', '.'));
    names[1] := Some("startLongitude");
    values[2] := Some(Replace(boundaries[2], ',', '.'));
    names[2] := Some("endLatitude");
    values[3] := Some(Replace(boundaries[3], ',', '.'));
    names[3] := Some("endLongitude");
  }

  class BuildingsLayer {
    var ways: seq<Way>
    var relations: seq<Relation>
    /** Every `Build` call, in order. */
    var builds: seq<BuildCall>
    /** The cache directory: file name to stored text. */
    var cache: map<string, string>
    /** Requests sent, files written, callbacks run and lines logged, in order. */
    var effects: seq<Effect>
    /** `initialMercatorPosition`. */
    const origin: Vec3
    /** `Crypto.Hash`, which names a URL's cache file. */
    const hash: string -> string

    function Snapshot(): Layer
      reads this
    {
      Layer(ways, relations, builds)
    }

    ghost predicate Valid()
      reads this
    {
      RefsValid(Snapshot())
    }

    constructor (origin: Vec3, hash: string -> string, cache: map<string, string>)
      ensures Valid()
      ensures this.origin == origin && this.hash == hash && this.cache == cache
      ensures ways == [] && relations == [] && builds == [] && effects == []
    {
      this.origin := origin;
      this.hash := hash;
      this.cache := cache;
      ways, relations, builds, effects := [], [], [], [];
    }

    /** `Build`: copy the way's points into the building and hand it to the builder. */
    method Build(w: Way)
      modifies this`builds
      ensures builds == old(builds) + [BuildCall(w.id, w.points)]
    {
      var points := new Point[|w.points|];
      for i := 0 to |w.points|
        invariant builds == old(builds)
        invariant points[..i] == w.points[..i]
      {
        points[i] := w.points[i];
      }
      assert points[..] == w.points[..|w.points|] == w.points;
      builds := builds + [BuildCall(w.id, points[..])];
    }

    /** `ways.Find`: the index of the first way with id `ref`, or none when no way has it. */
    method FindWay(ref: int) returns (found: Option<nat>)
      ensures found == FirstWithId(ways, ref)
      ensures found.Some? ==> found.value < |ways| && ways[found.value].id == ref
      ensures found.Some? ==> forall j :: 0 <= j < found.value ==> ways[j].id != ref
      ensures found.None? <==> forall j :: 0 <= j < |ways| ==> ways[j].id != ref
    {
      var i := 0;
      while i < |ways|
        invariant 0 <= i <= |ways|
        invariant forall j :: 0 <= j < i ==> ways[j].id != ref
        invariant FirstWithId(ways, ref) == FirstFrom(ways, ref, i)
      {
        if ways[i].id == ref {
          return Some(i);
        }
        i := i + 1;
      }
      return None;
    }

    /** The points of a geometry array, projected against the layer's origin, in order. */
    method ProjectGeometry(geometry: seq<GeoPoint>) returns (points: seq<Point>)
      ensures points == ProjectAll(geometry, origin)
    {
      points := [];
      for j := 0 to |geometry|
        invariant points == ProjectAll(geometry[..j], origin)
      {
        assert geometry[..j + 1][..j] == geometry[..j];
        points := points + [Project(geometry[j], origin)];
      }
      assert geometry[..|geometry|] == geometry;
    }

    /** The tags of a JSON tag object, in its key order. */
    method CopyTags(entries: seq<(string, string)>) returns (tags: seq<Tag>)
      ensures tags == ConvertTags(entries)
    {
      tags := [];
      for j := 0 to |entries|
        invariant tags == ConvertTags(entries[..j])
      {
        assert entries[..j + 1][..j] == entries[..j];
        tags := tags + [Tag(entries[j].0, entries[j].1)];
      }
      assert entries[..|entries|] == entries;
    }

    /** `AddWay`: build the element's way, then append it to `ways`. */
    method AddWay(e: Element) returns (w: Way)
      requires Valid()
      modifies this`ways, this`builds
      ensures Valid()
      ensures w == WayOf(e, origin)
      ensures Snapshot() == AddWayStep(old(Snapshot()), e, origin)
    {
      var points := ProjectGeometry(e.geometry);
      var tags := CopyTags(e.tags);
      w := Way(e.id, points, tags);
      Build(w);
      ways := ways + [w];
      ParseProperties.AddWayKeepsRefs(old(Snapshot()), e, origin);
    }

    /**
     * `AddRelation`: resolve every member against `ways` (a way that is not there
     * is built from the member's geometry and kept out of `ways`), build it, then
     * append the relation.
     */
    method AddRelation(e: Element) returns (r: Relation)
      requires Valid()
      modifies this`relations, this`builds
      ensures Valid()
      ensures r == Relation(e.id, ResolveAll(ways, e.members, origin), ConvertTags(e.tags))
      ensures Snapshot() == AddRelationStep(old(Snapshot()), e, origin)
    {
      var refs: seq<WayRef> := [];
      for j := 0 to |e.members|
        invariant relations == old(relations)
        invariant refs == ResolveAll(ways, e.members[..j], origin)
        invariant builds == old(builds) + MemberBuilds(ways, e.members[..j], origin)
      {
        var m := e.members[j];
        var found := FindWay(m.ref);
        var way: Way;
        var ref: WayRef;
        match found {
          case Some(i) =>
            way := ways[i];
            ref := Listed(i);
          case None =>
            var points := ProjectGeometry(m.geometry);
            way := Way(m.ref, points, []);
            ref := Detached(way);
        }
        assert ref == Resolve(ways, m, origin) && way == ResolvedWay(ways, m, origin);
        Build(way);
        refs := refs + [ref];
        assert e.members[..j + 1][..j] == e.members[..j];
      }
      assert e.members[..|e.members|] == e.members;
      var tags := CopyTags(e.tags);
      r := Relation(e.id, refs, tags);
      relations := relations + [r];
      ParseProperties.AddRelationKeepsRefs(old(Snapshot()), e, origin);
    }

    /** `ParseTileData`: every element in array order; only `way` and `relation` elements do anything. */
    method ParseTileData(elements: seq<Element>)
      requires Valid()
      modifies this`ways, this`relations, this`builds
      ensures Valid()
      ensures Snapshot() == ParseAll(old(Snapshot()), elements, origin)
    {
      for i := 0 to |elements|
        invariant Valid()
        invariant Snapshot() == ParseAll(old(Snapshot()), elements[..i], origin)
      {
        var e := elements[i];
        if e.kind == "way" {
          var _ := AddWay(e);
        } else if e.kind == "relation" {
          var _ := AddRelation(e);
        }
        assert elements[..i + 1][..i] == elements[..i];
      }
      assert elements[..|elements|] == elements;
    }

    /** `ClearCache`: delete every file of the cache directory. */
    method ClearCache()
      modifies this`cache
      ensures cache == map[]
    {
      var files := cache.Keys;
      while files != {}
        invariant cache.Keys == files
        decreases files
      {
        var f :| f in files;
        cache := cache - {f};
        files := files - {f};
      }
      assert cache == map[];
    }

    /** `LoadFromDisk`: read the stored text and run the callback on it. */
    method LoadFromDisk(key: string) returns (delivered: Option<string>)
      requires key in cache
      modifies this`effects
      ensures var o := DiskOutcome(old(cache), key);
        effects == old(effects) + o.emitted && delivered == o.delivered
    {
      var text := cache[key];
      effects := effects + [Deliver(text)];
      delivered := Some(text);
    }

    /** `DownLoad`: request the URL; on success write the cache file, then run the callback; on failure only log. */
    method DownLoad(url: string, key: string, response: Response) returns (delivered: Option<string>)
      modifies this`cache, this`effects
      ensures var o := DownLoadOutcome(old(cache), url, key, response);
        cache == o.files && effects == old(effects) + o.emitted && delivered == o.delivered
    {
      effects := effects + [Request(url)];
      match response {
        case Failure(error) =>
          effects := effects + [Log(error)];
          delivered := None;
        case Success(text) =>
          cache := cache[key := text];
          effects := effects + [Write(key, text)];
          effects := effects + [Deliver(text)];
          delivered := Some(text);
      }
    }

    /** `Load`: serve the tile from the cache file named `hash(url)` if there is one, else download it. */
    method Load(url: string, response: Response) returns (delivered: Option<string>)
      modifies this`cache, this`effects
      ensures var o := LoadOutcome(old(cache), hash, url, response);
        cache == o.files && effects == old(effects) + o.emitted && delivered == o.delivered
    {
      var key := hash(url);
      if key in cache {
        delivered := LoadFromDisk(key);
      } else {
        delivered := DownLoad(url, key, response);
      }
    }

    /**
     * `AddTile`, with its coroutine run to the end: load the tile's URL and, when
     * the callback runs, parse the elements of the delivered text. `decode` stands
     * for the JSON parser's `elements` array.
     */
    method AddTile(url: string, response: Response, decode: string -> seq<Element>) returns (delivered: Option<string>)
      requires Valid()
      modifies this
      ensures Valid()
      ensures var o := LoadOutcome(old(cache), hash, url, response);
        cache == o.files && effects == old(effects) + o.emitted && delivered == o.delivered
      ensures delivered.None? ==> Snapshot() == old(Snapshot())
      ensures delivered.Some? ==> Snapshot() == ParseAll(old(Snapshot()), decode(delivered.value), origin)
    {
      delivered := Load(url, response);
      if delivered.Some? {
        ParseTileData(decode(delivered.value));
      }
    }
  }
}
