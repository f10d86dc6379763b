/**
 * The buildings layer's cache-or-fetch protocol for one tile URL. The cache
 * directory is a map from file name (the hash of a URL) to stored text; the
 * transport's answer is an input; what the protocol does to the outside world
 * (a request sent, a file written, the callback run, a line logged) is a trace
 * of effects in the order they happen.
 */
module TileCache {
  import opened Wrappers

  /** What the web request for a URL came back with. */
  datatype Response = Success(text: string) | Failure(error: string)

  datatype Effect =
    | Request(url: string)
    | Write(key: string, text: string)
    | Deliver(text: string)
    | Log(message: string)

  /** The directory afterwards, the effects in order, and the text the callback received, if any. */
  datatype Outcome = Outcome(files: map<string, string>, emitted: seq<Effect>, delivered: Option<string>)

  /** `LoadFromDisk`: read the stored text and run the callback on it. */
  function DiskOutcome(files: map<string, string>, key: string): Outcome
    requires key in files
  {
    Outcome(files, [Deliver(files[key])], Some(files[key]))
  }

  /** `DownLoad`: send the request; on success write the file, then run the callback; on failure only log. */
  function DownLoadOutcome(files: map<string, string>, url: string, key: string, response: Response): Outcome
  {
    match response
    case Failure(error) => Outcome(files, [Request(url), Log(error)], None)
    case Success(text) => Outcome(files[key := text], [Request(url), Write(key, text), Deliver(text)], Some(text))
  }

  /** `Load`: a file named `hash(url)` is read from disk; otherwise the URL is downloaded. */
  function LoadOutcome(files: map<string, string>, hash: string -> string, url: string, response: Response): Outcome
  {
    var key := hash(url);
    if key in files then DiskOutcome(files, key) else DownLoadOutcome(files, url, key, response)
  }

  /** How many times a trace runs the callback. */
  function Deliveries(effects: seq<Effect>): nat
  {
    if effects == [] then 0
    else Deliveries(effects[..|effects| - 1]) + (if effects[|effects| - 1].Deliver? then 1 else 0)
  }

  function Requests(effects: seq<Effect>): nat
  {
    if effects == [] then 0
    else Requests(effects[..|effects| - 1]) + (if effects[|effects| - 1].Request? then 1 else 0)
  }

  lemma {:induction false} CountsOfConcat(a: seq<Effect>, b: seq<Effect>)
    ensures Deliveries(a + b) == Deliveries(a) + Deliveries(b)
    ensures Requests(a + b) == Requests(a) + Requests(b)
    decreases |b|
  {
    if b == [] {
      assert a + b == a;
    } else {
      assert (a + b)[..|a + b| - 1] == a + b[..|b| - 1];
      CountsOfConcat(a, b[..|b| - 1]);
    }
  }

  lemma CountsOfOne(e: Effect)
    ensures Deliveries([e]) == (if e.Deliver? then 1 else 0)
    ensures Requests([e]) == (if e.Request? then 1 else 0)
  {
  }

  /** The counts of the traces `DownLoad` emits. */
  lemma DownLoadCounts(files: map<string, string>, url: string, key: string, response: Response)
    ensures var o := DownLoadOutcome(files, url, key, response);
      Requests(o.emitted) == 1 && Deliveries(o.emitted) == (if response.Success? then 1 else 0)
  {
    CountsOfOne(Request(url));
    match response
    case Failure(error) =>
      CountsOfOne(Log(error));
      CountsOfConcat([Request(url)], [Log(error)]);
      assert [Request(url)] + [Log(error)] == [Request(url), Log(error)];
    case Success(text) =>
      CountsOfOne(Write(key, text));
      CountsOfOne(Deliver(text));
      CountsOfConcat([Request(url)], [Write(key, text)]);
      assert [Request(url)] + [Write(key, text)] == [Request(url), Write(key, text)];
      CountsOfConcat([Request(url), Write(key, text)], [Deliver(text)]);
      assert [Request(url), Write(key, text)] + [Deliver(text)] == [Request(url), Write(key, text), Deliver(text)];
  }

  /**
   * A cache hit: the callback runs exactly once, with the stored text; no request
   * is sent and the directory is unchanged.
   */
  lemma LoadHit(files: map<string, string>, hash: string -> string, url: string, response: Response)
    requires hash(url) in files
    ensures var o := LoadOutcome(files, hash, url, response);
      o.files == files && o.delivered == Some(files[hash(url)]) &&
      o.emitted == [Deliver(files[hash(url)])] &&
      Deliveries(o.emitted) == 1 && Requests(o.emitted) == 0
  {
  }

  /** A cache miss: the URL is requested first, and only once. */
  lemma LoadMiss(files: map<string, string>, hash: string -> string, url: string, response: Response)
    requires hash(url) !in files
    ensures var o := LoadOutcome(files, hash, url, response);
      o == DownLoadOutcome(files, url, hash(url), response) &&
      |o.emitted| >= 1 && o.emitted[0] == Request(url) && Requests(o.emitted) == 1
  {
    DownLoadCounts(files, url, hash(url), response);
  }

  /** A failed download never runs the callback, writes no file and leaves the directory unchanged. */
  lemma DownLoadFailure(files: map<string, string>, url: string, key: string, error: string)
    ensures var o := DownLoadOutcome(files, url, key, Failure(error));
      o.files == files && o.delivered == None && Deliveries(o.emitted) == 0 &&
      (forall i :: 0 <= i < |o.emitted| ==> !o.emitted[i].Write?)
  {
    DownLoadCounts(files, url, key, Failure(error));
  }

  /**
   * A successful download maps the key to the response text and changes no other
   * file; the file is written before the callback, which runs exactly once.
   */
  lemma DownLoadSuccess(files: map<string, string>, url: string, key: string, text: string)
    ensures var o := DownLoadOutcome(files, url, key, Success(text));
      key in o.files && o.files[key] == text &&
      o.files.Keys == files.Keys + {key} &&
      (forall k :: k in files && k != key ==> o.files[k] == files[k]) &&
      o.delivered == Some(text) &&
      Deliveries(o.emitted) == 1 &&
      exists w, d :: 0 <= w < d < |o.emitted| && o.emitted[w] == Write(key, text) && o.emitted[d] == Deliver(text)
  {
    var o := DownLoadOutcome(files, url, key, Success(text));
    DownLoadCounts(files, url, key, Success(text));
    assert o.emitted[1] == Write(key, text) && o.emitted[2] == Deliver(text);
  }

  /** Whatever path `Load` takes, the callback runs once if it delivers and never otherwise. */
  lemma DeliveredAtMostOnce(files: map<string, string>, hash: string -> string, url: string, response: Response)
    ensures var o := LoadOutcome(files, hash, url, response);
      Deliveries(o.emitted) == (if o.delivered.Some? then 1 else 0)
  {
    if hash(url) in files {
      LoadHit(files, hash, url, response);
    } else {
      match response
      case Failure(error) => DownLoadFailure(files, url, hash(url), error);
      case Success(text) => DownLoadSuccess(files, url, hash(url), text);
    }
  }

  /**
   * Once a load has delivered, loading the same URL again is a cache hit whatever
   * the transport would answer: the same text, no request.
   */
  lemma SecondLoadIsCacheHit(files: map<string, string>, hash: string -> string, url: string, first: Response, second: Response)
    requires LoadOutcome(files, hash, url, first).delivered.Some?
    ensures var o1 := LoadOutcome(files, hash, url, first);
      var o2 := LoadOutcome(o1.files, hash, url, second);
      hash(url) in o1.files &&
      o2.files == o1.files && o2.delivered == o1.delivered && Requests(o2.emitted) == 0
  {
  }

  /** Two URLs with the same hash share one file: the second is served the first one's text. */
  lemma HashCollisionIsCacheHit(files: map<string, string>, hash: string -> string, u1: string, u2: string, first: Response, second: Response)
    requires hash(u1) == hash(u2)
    requires LoadOutcome(files, hash, u1, first).delivered.Some?
    ensures var o1 := LoadOutcome(files, hash, u1, first);
      LoadOutcome(o1.files, hash, u2, second).delivered == o1.delivered
  {
  }
}
