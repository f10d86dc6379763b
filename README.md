# Buildings layer: tile ingestion and tile cache

This project models the buildings layer of the FunkySheep world (`LayerSO`). It does two jobs for each map tile:

- It fetches the tile's OSM JSON. A cache file named by the hash of the URL is read if it exists. Otherwise the URL is downloaded. On a successful download the response is stored and then the callback runs; on a failed one the error is only logged and the callback never runs.
- It ingests the tile's element array. `way` elements become `Way` records appended to the layer's `ways` list. `relation` elements become `Relation` records appended to `relations`. Each relation member is looked up in `ways` with `List.Find`. If no way matches, a way is built from the member's inline geometry, and that way is not added to `ways`. `Build` is called for every top-level way and for every relation member.

Files:

- `osm.dfy` (module `Osm`): the records, plus a functional specification of one ingestion step and of a whole parse (`AddWayStep`, `AddRelationStep`, `Step`, `ParseAll`). It also defines the layer's reference invariant `RefsValid`.
- `parse_properties.dfy` (module `ParseProperties`): the lemmas about that specification.
- `tile_cache.dfy` (module `TileCache`): the cache-or-fetch protocol as functions, plus lemmas about it. The observable effects are a trace of `Request`, `Write`, `Deliver` (the callback) and `Log`, kept in the order they happen.
- `buildings_layer.dfy` (module `Buildings`): the class `BuildingsLayer`. Its fields are `ways`, `relations`, the `builds` log, the `cache` directory and the `effects` trace, and its methods contain the source's loops. Each method is proved to produce exactly the new state the specification functions describe.
- `wrappers.dfy`: `Option`.

Modelling choices:

- A relation holds references to way objects. In the model this is a `WayRef`:
  - `Listed(i)` is the object at index `i` of `ways`, which is what `List.Find` returned;
  - `Detached(w)` is a way built for that member alone and present in no list.
  This keeps the aliasing of the C# lists. For example, two relations that name the same unlisted id get two separate way objects.
- Ids are compared as numbers; the model takes them as integers.
- A `Point` is its latitude and longitude together with the origin (`initialMercatorPosition`) it was projected against. The projection itself is floating-point math and is not modelled.
- `Crypto.Hash` is an arbitrary function `string -> string`, fixed when the layer is constructed.
- The transport's answer is a method input, `Success(text)` or `Failure(error)`. The callback is modelled two ways: as a `Deliver` effect, and as the text that `Load` returns.
- A member's `type` is ignored, as in the code: every member's `ref` is looked up among the listed ways. OSM node ids and way ids are separate number spaces, so a `node` member whose ref equals a listed way's id resolves to that way and builds it again.
- A JSON field that is missing reads as an empty array or object, as it does in the JSON library. So a way without `tags` has an empty tag list, and a member without `geometry` has no points.

In a few places a reader might expect one behaviour while the code does another; the model follows the code:

- A reader might expect a relation-only member way to join the way set; the code instead never touches `ways` in `AddRelation` (`ParseWays`, `TwoRelationsTwoDetachedWays`).
- A reader might expect a way to be built once per id; the code instead builds a top-level way again when a relation references it (`WayBuiltTwice`).
- A reader might expect a failed download to report the failure to the caller; the code instead only logs it, and the callback never runs (`DownLoadFailure`).
- `InterpolatedUrl` allocates five parameter slots but fills only four. The fifth value and the fifth name stay `null`, modelled as `None`.

## Model

| member | source | states |
|---|---|---|
| Osm.FirstFrom | Assets/_LIB/World/Runtime/Layers/Buildings/LayerSO.cs:174 | none is found exactly when no way from the start index on has the id; a found index lies in that range, its way has the id and no way before it from the start index does |
| Osm.FirstWithId | Assets/_LIB/World/Runtime/Layers/Buildings/LayerSO.cs:174 | `List.Find` semantics: the first index whose way has the id, or none exactly when no way has it |
| ParseProperties.ProjectAllPointwise | Assets/_LIB/World/Runtime/Layers/Buildings/LayerSO.cs:147-152 | one point per geometry entry, entry j giving point j |
| ParseProperties.ConvertTagsPointwise | Assets/_LIB/World/Runtime/Layers/Buildings/LayerSO.cs:154-159 | one tag per tag entry, in the object's order, with its key and value |
| ParseProperties.ResolveSpec | Assets/_LIB/World/Runtime/Layers/Buildings/LayerSO.cs:174-182 | a member whose ref some listed way carries resolves to the first such way; otherwise to a new way with the member's id, its geometry's points and no tags |
| ParseProperties.MemberWayShape | Assets/_LIB/World/Runtime/Layers/Buildings/LayerSO.cs:176-181 | a fresh member way has the member's ref as id, no tags, and one point per geometry entry in order |
| ParseProperties.ResolveAllPointwise | Assets/_LIB/World/Runtime/Layers/Buildings/LayerSO.cs:172-185 | a relation's way list has one entry per member, entry k being member k's resolution |
| ParseProperties.MemberBuildsPointwise | Assets/_LIB/World/Runtime/Layers/Buildings/LayerSO.cs:172-185 | one `Build` call per member, call k being of the way member k resolves to |
| ParseProperties.AddWaySpec | Assets/_LIB/World/Runtime/Layers/Buildings/LayerSO.cs:143-164 | exactly one way is appended, with the element's id, points and tags in order; exactly one build of it; relations unchanged |
| ParseProperties.AddRelationSpec | Assets/_LIB/World/Runtime/Layers/Buildings/LayerSO.cs:166-195 | ways unchanged; exactly one relation appended with the element's id, one resolved reference per member in order and the tags in order; one build per member |
| ParseProperties.ParseAllAppend | Assets/_LIB/World/Runtime/Layers/Buildings/LayerSO.cs:127-140 | parsing a concatenation is parsing the first part, then the second |
| ParseProperties.UnknownElementIgnored | Assets/_LIB/World/Runtime/Layers/Buildings/LayerSO.cs:129-138 | an element whose type is neither "way" nor "relation" leaves ways, relations and builds unchanged |
| ParseProperties.ParseIgnoresUnknown | Assets/_LIB/World/Runtime/Layers/Buildings/LayerSO.cs:127-140 | parsing an array gives the same layer as parsing it with every unknown element removed |
| ParseProperties.ParseWays | Assets/_LIB/World/Runtime/Layers/Buildings/LayerSO.cs:127-193 | after a parse, `ways` is the old list followed by exactly the way elements' ways in order; no relation-only way is ever added |
| ParseProperties.ParseRelations | Assets/_LIB/World/Runtime/Layers/Buildings/LayerSO.cs:127-193 | old relations are kept as a prefix and one relation is added per relation element |
| ParseProperties.ParseBuildCount | Assets/_LIB/World/Runtime/Layers/Buildings/LayerSO.cs:127-193 | build count grows by the number of way elements plus the total number of relation members; the old log is kept |
| ParseProperties.AddWayKeepsRefs | Assets/_LIB/World/Runtime/Layers/Buildings/LayerSO.cs:161 | appending a way keeps every listed reference pointing at the first way with its id |
| ParseProperties.AddRelationKeepsRefs | Assets/_LIB/World/Runtime/Layers/Buildings/LayerSO.cs:172-193 | a new relation's listed references point at the first way with their id |
| ParseProperties.StepKeepsRefs | Assets/_LIB/World/Runtime/Layers/Buildings/LayerSO.cs:129-138 | one dispatch step preserves the reference invariant |
| ParseProperties.ParseKeepsRefs | Assets/_LIB/World/Runtime/Layers/Buildings/LayerSO.cs:127-140 | a whole parse preserves the reference invariant |
| ParseProperties.TwoRelationsTwoDetachedWays | Assets/_LIB/World/Runtime/Layers/Buildings/LayerSO.cs:172-193 | an id that no listed way and no way element of the parse carries, named by one relation and by a later one with any elements in between, gives each relation its own detached way; ways gains only the way elements' ways |
| ParseProperties.WayBuiltTwice | Assets/_LIB/World/Runtime/Layers/Buildings/LayerSO.cs:160-183 | a top-level way whose id no earlier way carries, referenced by any later relation with any elements in between, is built twice: once by AddWay, once for the member, which references that listed way |
| ParseProperties.FirstWithIdIs | Assets/_LIB/World/Runtime/Layers/Buildings/LayerSO.cs:174 | a way with the id and no earlier way with it is what `List.Find` returns |
| ParseProperties.FirstWithIdExtend | Assets/_LIB/World/Runtime/Layers/Buildings/LayerSO.cs:174 | appending ways never changes a match `List.Find` already finds |
| ParseProperties.WaysOfWithoutId | Assets/_LIB/World/Runtime/Layers/Buildings/LayerSO.cs:127-164 | an id no way element carries is carried by none of the ways those elements add |
| ParseProperties.FirstRelationDetached | Assets/_LIB/World/Runtime/Layers/Buildings/LayerSO.cs:172-193 | a relation member whose id no listed way and no way element carries gets a detached way, and the id stays absent from ways through the rest of the parse |
| ParseProperties.WayListed | Assets/_LIB/World/Runtime/Layers/Buildings/LayerSO.cs:143-164 | right after a way element whose id no earlier way carries, its way is the first with that id and its build is the last one |
| ParseProperties.WayListedAndBuilt | Assets/_LIB/World/Runtime/Layers/Buildings/LayerSO.cs:127-164 | that way stays the first with its id and its build stays in place through any later elements |
| ParseProperties.RelationRebuildsListed | Assets/_LIB/World/Runtime/Layers/Buildings/LayerSO.cs:172-185 | a member whose id a listed way carries references the first such way and builds it again; earlier builds are kept |
| TileCache.DownLoadCounts | Assets/_LIB/World/Runtime/Layers/Buildings/LayerSO.cs:104-119 | a download sends exactly one request and runs the callback once on success, never on failure |
| TileCache.LoadHit | Assets/_LIB/World/Runtime/Layers/Buildings/LayerSO.cs:80-97 | on a cache hit the callback runs exactly once with the stored text, no request is sent and the directory is unchanged |
| TileCache.LoadMiss | Assets/_LIB/World/Runtime/Layers/Buildings/LayerSO.cs:80-87 | on a miss the download path is taken and the request is the first and only one |
| TileCache.DownLoadFailure | Assets/_LIB/World/Runtime/Layers/Buildings/LayerSO.cs:109-112 | a failed download never runs the callback, writes no file and leaves the directory unchanged |
| TileCache.DownLoadSuccess | Assets/_LIB/World/Runtime/Layers/Buildings/LayerSO.cs:113-118 | a successful download maps the key to the text, changes no other file, writes before the single callback |
| TileCache.DeliveredAtMostOnce | Assets/_LIB/World/Runtime/Layers/Buildings/LayerSO.cs:78-119 | on every path the callback runs once if the load delivers and never otherwise |
| TileCache.SecondLoadIsCacheHit | Assets/_LIB/World/Runtime/Layers/Buildings/LayerSO.cs:80-118 | once a load has delivered, loading the same URL again serves the same text with no request |
| TileCache.HashCollisionIsCacheHit | Assets/_LIB/World/Runtime/Layers/Buildings/LayerSO.cs:80-83 | two URLs with the same hash share one file: the second is served the first one's text |
| Buildings.Replace | Assets/_LIB/World/Runtime/Layers/Buildings/LayerSO.cs:49 | same length, each `from` becomes `to`, every other character kept, no `from` left |
| Buildings.UrlParameters | Assets/_LIB/World/Runtime/Layers/Buildings/LayerSO.cs:44-62 | five slots each; slots 0-3 hold the boundary values with `,` replaced by `.` and their names, slot 4 stays empty |
| Buildings.BuildingsLayer.constructor | Assets/_LIB/World/Runtime/Layers/Buildings/LayerSO.cs:17-18 | empty lists and logs, the given cache directory, the reference invariant holds |
| Buildings.BuildingsLayer.Build | Assets/_LIB/World/Runtime/Layers/Buildings/LayerSO.cs:201-210 | appends exactly one build entry with the way's id and all its points in order; nothing else changes |
| Buildings.BuildingsLayer.FindWay | Assets/_LIB/World/Runtime/Layers/Buildings/LayerSO.cs:174 | returns the first index whose way has the id, or none iff no way has it |
| Buildings.BuildingsLayer.ProjectGeometry | Assets/_LIB/World/Runtime/Layers/Buildings/LayerSO.cs:149-152 | the loop produces the geometry's points in order |
| Buildings.BuildingsLayer.CopyTags | Assets/_LIB/World/Runtime/Layers/Buildings/LayerSO.cs:154-159 | the loop produces the object's tags in order |
| Buildings.BuildingsLayer.AddWay | Assets/_LIB/World/Runtime/Layers/Buildings/LayerSO.cs:143-164 | returns the element's way; the new ways, relations and builds are those of one AddWay step; cache and effects untouched; invariant kept |
| Buildings.BuildingsLayer.AddRelation | Assets/_LIB/World/Runtime/Layers/Buildings/LayerSO.cs:166-195 | returns the relation of resolved members and tags; the new state is one AddRelation step, ways untouched; invariant kept |
| Buildings.BuildingsLayer.ParseTileData | Assets/_LIB/World/Runtime/Layers/Buildings/LayerSO.cs:124-141 | the new ways, relations and builds are the parse of the whole array in order; invariant kept |
| Buildings.BuildingsLayer.ClearCache | Assets/_LIB/World/Runtime/Layers/Buildings/LayerSO.cs:67-73 | every cache file is deleted; nothing else changes |
| Buildings.BuildingsLayer.LoadFromDisk | Assets/_LIB/World/Runtime/Layers/Buildings/LayerSO.cs:93-97 | runs the callback once on the stored text |
| Buildings.BuildingsLayer.DownLoad | Assets/_LIB/World/Runtime/Layers/Buildings/LayerSO.cs:104-119 | directory, trace and delivered text are those of the download outcome (see the TileCache lemmas) |
| Buildings.BuildingsLayer.Load | Assets/_LIB/World/Runtime/Layers/Buildings/LayerSO.cs:78-88 | directory, trace and delivered text are those of the cache-or-fetch outcome for `hash(url)` |
| Buildings.BuildingsLayer.AddTile | Assets/_LIB/World/Runtime/Layers/Buildings/LayerSO.cs:29-37 | loads the URL; if nothing is delivered, ways, relations and builds are unchanged; otherwise they are the parse of the delivered elements |

## Left out

- Assets/_LIB/Map/Runtime/Utils/Utils.cs is not part of this model. It is tile math in floating point (`Math.Log`, `Tan`, `Atan`, `Exp`, `Pow`, `Cos`, float casts), which cannot be stated faithfully over exact reals.
- Assets/_LIB/OSM/Runtime/Parser.cs is not part of this model. It forwards elements to `Data.AddElement`, whose code is not available, and otherwise calls the JSON library and UTF-8 decoding.
- JSON parsing (SimpleJSON): elements are given as the `Element` datatype. `AddTile` takes the text-to-elements decoding as a function parameter. Malformed JSON is not modelled.
- The projection of points against `initialMercatorPosition` is floating point. A `Point` only records the coordinates and the origin it was taken against.
- `Build`'s Unity object creation (`CreateInstance`, `Instantiate`, `Init`, transforms, `Manager.Create`) and `way.id.ToString()` are out. Each call is only a log entry of the integer id and the points.
- `Build` is called before `ways.Add` in `AddWay`. `Build` never reads `ways`, so that order cannot be observed, and the model states only the final state.
- `Crypto.Hash` is an arbitrary function; no collision resistance is assumed. `url.Interpolate` and `double.ToString` are foreign: `UrlParameters` takes the already formatted boundary values and returns only the two parameter arrays, not the URL.
- `UnityWebRequest`, `File.Exists`/`ReadAllText`/`WriteAllText`/`Delete` and `Debug.Log` are out. They appear as the `Response` input, the `cache` map, and `Request`/`Write`/`Deliver`/`Log` effects. I/O errors on the disk are not modelled.
- `OnEnable`'s directory creation is out. `Tile` creation in `AddTile` is out. Coroutine scheduling is out: `AddTile` runs its coroutine to the end as sequential steps.
- `Buildings.BuildingsLayer.ClearCache`: it deletes exactly the files the layer's cache map holds. Other files in the directory are not modelled.
- `initialMercatorPosition` is a shared variable object that the source reads again for every point. The model takes the origin as fixed for the layer's whole lifetime (`BuildingsLayer.origin`), so a change of that variable between tiles is not modelled. Every lemma holds for any origin.
