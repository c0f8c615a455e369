// What the three service worker scripts share: the Cache Storage they work
// on, the two cache names, the activation clean-up that keeps only those two
// caches, the all-or-nothing precache of `cache.addAll`, and the routing and
// caching rules of the fetch handler that src/public/service-worker.js and
// src/service-worker.js both carry (their lines 44-121 and 45-122 are the
// same code). The network is a parameter: a fetch gives a response, or None
// when it rejects.

module ServiceWorkerCore {
  import opened Js
  import JsText

  const CacheName := "tunematch-v1"
  const RuntimeCache := "tunematch-runtime"

  /** A response as the handlers read it: its status, its `type` and an opaque body. */
  datatype Response = Response(status: int, kind: string, body: string)

  /** `response.ok`, which `cache.addAll` demands of every response. */
  predicate Ok(r: Response)
  {
    200 <= r.status <= 299
  }

  /** A request: its URL's origin, path and query, and whether it is a navigation. */
  datatype Request = Request(origin: string, pathname: string, search: string, navigate: bool)

  /** Caches are keyed by the full URL. */
  function Key(r: Request): (k: string)
  {
    r.origin + r.pathname + r.search
  }

  datatype NamedCache = NamedCache(name: string, entries: map<string, Response>)

  function Names(cs: seq<NamedCache>): (ns: seq<string>)
    ensures |ns| == |cs| && forall i :: 0 <= i < |cs| ==> ns[i] == cs[i].name
  {
    seq(|cs|, i requires 0 <= i < |cs| => cs[i].name)
  }

  /** No two caches share a name. */
  predicate UniqueNames(cs: seq<NamedCache>)
  {
    forall i, j :: 0 <= i < j < |cs| ==> cs[i].name != cs[j].name
  }

  /** `caches.match(key)`: the first cache, in creation order, holding the key. */
  function MatchIn(cs: seq<NamedCache>, key: string): (r: Option<Response>)
    ensures r.Some? <==> exists i :: 0 <= i < |cs| && key in cs[i].entries
    ensures r.Some? ==> exists i :: 0 <= i < |cs| && key in cs[i].entries && cs[i].entries[key] == r.value
    decreases |cs|
  {
    if |cs| == 0 then None
    else if key in cs[0].entries then Some(cs[0].entries[key])
    else
      var rest := MatchIn(cs[1..], key);
      assert forall i :: 1 <= i < |cs| ==> cs[i] == cs[1..][i - 1];
      rest
  }

  /** The caches after `caches.open(name)`: a missing cache is created, empty, after the others. */
  function Opened(cs: seq<NamedCache>, name: string): (r: seq<NamedCache>)
    ensures name in Names(r)
    ensures name in Names(cs) ==> r == cs
    ensures name !in Names(cs) ==> r == cs + [NamedCache(name, map[])]
  {
    if name in Names(cs) then cs
    else
      var r := cs + [NamedCache(name, map[])];
      assert Names(r)[|cs|] == name;
      r
  }

  /** The caches with entries `more` written into the cache called `name`, opening it first. */
  function PutAll(cs: seq<NamedCache>, name: string, more: map<string, Response>): (r: seq<NamedCache>)
    ensures |r| == |Opened(cs, name)| && Names(r) == Names(Opened(cs, name))
    ensures forall i :: 0 <= i < |r| ==>
      r[i].entries == (if r[i].name == name then Opened(cs, name)[i].entries + more else Opened(cs, name)[i].entries)
  {
    var o := Opened(cs, name);
    seq(|o|, i requires 0 <= i < |o| => if o[i].name == name then NamedCache(name, o[i].entries + more) else o[i])
  }

  /** The caches with every cache whose name is in `gone` deleted. */
  function Without(cs: seq<NamedCache>, gone: set<string>): (r: seq<NamedCache>)
    ensures forall c :: c in r <==> c in cs && c.name !in gone
    decreases |cs|
  {
    if |cs| == 0 then []
    else (if cs[0].name in gone then [] else [cs[0]]) + Without(cs[1..], gone)
  }

  /** The two names activation keeps. */
  predicate Kept(name: string)
  {
    name == CacheName || name == RuntimeCache
  }

  /** The caches activation leaves: exactly the two named ones, as they were. */
  function KeepOnly(cs: seq<NamedCache>): (r: seq<NamedCache>)
    ensures forall c :: c in r <==> c in cs && Kept(c.name)
    decreases |cs|
  {
    if |cs| == 0 then []
    else (if Kept(cs[0].name) then [cs[0]] else []) + KeepOnly(cs[1..])
  }

  lemma {:induction false} WithoutNothing(cs: seq<NamedCache>)
    ensures Without(cs, {}) == cs
    decreases |cs|
  {
    if |cs| > 0 {
      WithoutNothing(cs[1..]);
      assert cs == [cs[0]] + cs[1..];
    }
  }

  lemma {:induction false} WithoutMore(cs: seq<NamedCache>, gone: set<string>, n: string)
    ensures Without(Without(cs, gone), {n}) == Without(cs, gone + {n})
    decreases |cs|
  {
    if |cs| > 0 {
      WithoutMore(cs[1..], gone, n);
      var head := if cs[0].name in gone then [] else [cs[0]];
      var rest := Without(cs[1..], gone);
      var w := head + rest;
      if cs[0].name in gone {
        assert w == rest;
      } else {
        assert w[0] == cs[0] && w[1..] == rest;
      }
    }
  }

  /** Deleting every name that is not kept leaves what `KeepOnly` leaves. */
  lemma {:induction false} WithoutUnkept(cs: seq<NamedCache>, gone: set<string>)
    requires forall n :: n in gone ==> !Kept(n)
    requires forall i :: 0 <= i < |cs| ==> Kept(cs[i].name) || cs[i].name in gone
    ensures Without(cs, gone) == KeepOnly(cs)
    decreases |cs|
  {
    if |cs| > 0 {
      WithoutUnkept(cs[1..], gone);
    }
  }

  class CacheStorage {
    var caches: seq<NamedCache>

    constructor(caches: seq<NamedCache>)
      ensures this.caches == caches
    {
      this.caches := caches;
    }

    /** `caches.delete(name)` */
    method Delete(name: string)
      modifies this
      ensures caches == Without(old(caches), {name})
    {
      caches := Without(caches, {name});
    }
  }

  /** The names of the caches in `cs` that activation deletes. */
  function Unkept(cs: seq<NamedCache>): (gone: set<string>)
    ensures forall n :: n in gone ==> !Kept(n)
    decreases |cs|
  {
    if |cs| == 0 then {}
    else Unkept(cs[..|cs| - 1]) + (if Kept(cs[|cs| - 1].name) then {} else {cs[|cs| - 1].name})
  }

  lemma {:induction false} UnkeptCovers(cs: seq<NamedCache>)
    ensures forall i :: 0 <= i < |cs| ==> Kept(cs[i].name) || cs[i].name in Unkept(cs)
    decreases |cs|
  {
    if |cs| > 0 {
      var init := cs[..|cs| - 1];
      UnkeptCovers(init);
      assert forall i :: 0 <= i < |init| ==> cs[i] == init[i];
    }
  }

  /** One step of the clean-up: the next name joins the deleted ones unless it is kept. */
  lemma UnkeptStep(start: seq<NamedCache>, i: nat)
    requires i < |start|
    ensures Unkept(start[..i + 1]) == Unkept(start[..i]) + (if Kept(start[i].name) then {} else {start[i].name})
  {
    var prefix := start[..i + 1];
    assert prefix[..|prefix| - 1] == start[..i] && prefix[|prefix| - 1] == start[i];
  }

  /** A kept name adds nothing to the deleted ones. */
  lemma KeptStep(start: seq<NamedCache>, i: nat)
    requires i < |start| && Kept(start[i].name)
    ensures Unkept(start[..i + 1]) == Unkept(start[..i])
  {
    UnkeptStep(start, i);
  }

  /** Deleting the next, unkept, name leaves the caches without every name deleted so far. */
  lemma DeleteStep(start: seq<NamedCache>, i: nat)
    requires i < |start| && !Kept(start[i].name)
    ensures Without(Without(start, Unkept(start[..i])), {start[i].name}) == Without(start, Unkept(start[..i + 1]))
  {
    UnkeptStep(start, i);
    WithoutMore(start, Unkept(start[..i]), start[i].name);
  }

  /** After the last step exactly the two kept caches remain. */
  lemma ActivateDone(start: seq<NamedCache>)
    ensures Without(start, Unkept(start[..|start|])) == KeepOnly(start)
  {
    assert start[..|start|] == start;
    UnkeptCovers(start);
    WithoutUnkept(start, Unkept(start));
  }

  /**
   * The `activate` handler: every cache whose name is neither of the two is
   * deleted, one `caches.delete` per name that `caches.keys()` lists.
   */
  method Activate(storage: CacheStorage)
    modifies storage
    ensures storage.caches == KeepOnly(old(storage.caches))
  {
    var names := Names(storage.caches);
    ghost var start := storage.caches;
    WithoutNothing(start);
    assert start[..0] == [];
    var i := 0;
    while i < |names|
      invariant 0 <= i <= |names| == |start|
      invariant storage.caches == Without(start, Unkept(start[..i]))
    {
      if !Kept(names[i]) {
        DeleteStep(start, i);
        storage.Delete(names[i]);
      } else {
        KeptStep(start, i);
      }
      i := i + 1;
    }
    ActivateDone(start);
  }

  /** Every response was fetched and is `ok`. */
  predicate AllOk(responses: seq<Option<Response>>)
  {
    forall i :: 0 <= i < |responses| ==> responses[i].Some? && Ok(responses[i].value)
  }

  /** The entries `cache.addAll` writes: each asset's URL to its response. */
  function AssetEntries(origin: string, assets: seq<string>, responses: seq<Option<Response>>): (m: map<string, Response>)
    requires |responses| == |assets| && AllOk(responses)
    ensures m.Keys == set i | 0 <= i < |assets| :: origin + assets[i]
    decreases |assets|
  {
    if |assets| == 0 then map[]
    else
      var rest := AssetEntries(origin, assets[1..], responses[1..]);
      assert forall i :: 1 <= i < |assets| ==> assets[i] == assets[1..][i - 1];
      assert (set i | 0 <= i < |assets| :: origin + assets[i]) == {origin + assets[0]} + rest.Keys;
      rest[origin + assets[0] := responses[0].value]
  }

  /**
   * `caches.open(CacheName).then(cache => cache.addAll(assets))`: `responses`
   * are the fetches of the assets. The cache is created either way; the
   * assets are stored only when every fetch gave an `ok` response.
   */
  method Precache(storage: CacheStorage, origin: string, assets: seq<string>, responses: seq<Option<Response>>)
      returns (stored: bool)
    requires |responses| == |assets|
    modifies storage
    ensures stored <==> AllOk(responses)
    ensures stored ==> storage.caches == PutAll(old(storage.caches), CacheName, AssetEntries(origin, assets, responses))
    ensures !stored ==> storage.caches == Opened(old(storage.caches), CacheName)
  {
    var i := 0;
    while i < |responses|
      invariant 0 <= i <= |responses|
      invariant forall k :: 0 <= k < i ==> responses[k].Some? && Ok(responses[k].value)
    {
      if responses[i].None? || !Ok(responses[i].value) {
        storage.caches := Opened(storage.caches, CacheName);
        return false;
      }
      i := i + 1;
    }
    storage.caches := PutAll(storage.caches, CacheName, AssetEntries(origin, assets, responses));
    stored := true;
  }

  /** After a successful precache every asset is found by `caches.match`. */
  lemma PrecachedAssetsMatch(cs: seq<NamedCache>, origin: string, assets: seq<string>, responses: seq<Option<Response>>)
    requires |responses| == |assets| && AllOk(responses)
    ensures forall i :: 0 <= i < |assets| ==>
      MatchIn(PutAll(cs, CacheName, AssetEntries(origin, assets, responses)), origin + assets[i]).Some?
  {
    var more := AssetEntries(origin, assets, responses);
    var o := Opened(cs, CacheName);
    var r := PutAll(cs, CacheName, more);
    var j :| 0 <= j < |o| && Names(o)[j] == CacheName;
    assert r[j].name == CacheName by {
      assert Names(r)[j] == Names(o)[j];
    }
    forall i | 0 <= i < |assets| ensures MatchIn(r, origin + assets[i]).Some? {
      assert origin + assets[i] in more.Keys;
      assert origin + assets[i] in r[j].entries;
    }
  }

  /** What the fetch handler does with a request. */
  datatype Route =
    | Ignore        // cross-origin: not intercepted
    | NetworkOnly   // API calls: always fetched fresh
    | NetworkFirst  // navigations
    | CacheFirst    // everything else

  /** The routing rules, in the order the handler tests them. */
  function RouteOf(req: Request, selfOrigin: string): (r: Route)
    ensures r == Ignore <==> req.origin != selfOrigin
    ensures r == NetworkOnly <==>
      req.origin == selfOrigin
      && (JsText.Contains(req.pathname, "/functions/v1/") || JsText.Contains(req.pathname, "/api/"))
    ensures r == NetworkFirst ==> req.navigate
    ensures r == CacheFirst ==> !req.navigate
  {
    if req.origin != selfOrigin then Ignore
    else if JsText.Contains(req.pathname, "/functions/v1/") || JsText.Contains(req.pathname, "/api/") then NetworkOnly
    else if req.navigate then NetworkFirst
    else CacheFirst
  }

  /** How a fetch event ends: left to the browser, answered with a response, or failed as a network error. */
  datatype Answer = Passthrough | Respond(response: Response) | NetworkError

  /** The answer and the response written to the runtime cache, if any. */
  datatype FetchOutcome = FetchOutcome(answer: Answer, stored: Option<Response>)

  /**
   * The fetch handler of src/public/service-worker.js and
   * src/service-worker.js over caches `cs`: `network` is the handler's own
   * fetch, `refresh` the background fetch a cache hit starts.
   */
  function FetchStep(cs: seq<NamedCache>, req: Request, selfOrigin: string,
                     network: Option<Response>, refresh: Option<Response>): (o: FetchOutcome)
    ensures o.answer.Passthrough? <==> req.origin != selfOrigin
    ensures o.answer.Respond? ==>
      network == Some(o.answer.response)
      || MatchIn(cs, Key(req)) == Some(o.answer.response)
      || MatchIn(cs, selfOrigin + "/") == Some(o.answer.response)
  {
    var key := Key(req);
    match RouteOf(req, selfOrigin)
    case Ignore => FetchOutcome(Passthrough, None)
    case NetworkOnly =>
      FetchOutcome(if network.Some? then Respond(network.value) else NetworkError, None)
    case NetworkFirst =>
      if network.Some? then FetchOutcome(Respond(network.value), network)
      else if MatchIn(cs, key).Some? then FetchOutcome(Respond(MatchIn(cs, key).value), None)
      else if MatchIn(cs, selfOrigin + "/").Some? then FetchOutcome(Respond(MatchIn(cs, selfOrigin + "/").value), None)
      else FetchOutcome(NetworkError, None)
    case CacheFirst =>
      if MatchIn(cs, key).Some? then
        FetchOutcome(Respond(MatchIn(cs, key).value),
                     if refresh.Some? && refresh.value.status == 200 then refresh else None)
      else if network.None? then FetchOutcome(NetworkError, None)
      else if network.value.status != 200 || network.value.kind == "error" then FetchOutcome(Respond(network.value), None)
      else FetchOutcome(Respond(network.value), network)
  }

  /** The caches after a fetch event: the stored response, if any, written under the request's URL. */
  function AfterFetch(cs: seq<NamedCache>, o: FetchOutcome, req: Request): (r: seq<NamedCache>)
  {
    if o.stored.Some? then PutAll(cs, RuntimeCache, map[Key(req) := o.stored.value]) else cs
  }

  /** Only navigations and status-200 responses are written; API calls and cross-origin requests never are. */
  lemma CachingRules(cs: seq<NamedCache>, req: Request, selfOrigin: string,
                     network: Option<Response>, refresh: Option<Response>)
    ensures var route := RouteOf(req, selfOrigin);
      var o := FetchStep(cs, req, selfOrigin, network, refresh);
      && (route == Ignore || route == NetworkOnly ==> o.stored.None?)
      && (route == NetworkFirst ==> o.stored == network)
      && (route == CacheFirst && o.stored.Some? ==> o.stored.value.status == 200)
      && (route == CacheFirst && MatchIn(cs, Key(req)).None? && o.stored.Some? ==> o.stored.value.kind != "error")
      && (route == CacheFirst && MatchIn(cs, Key(req)).Some? ==> o.answer == Respond(MatchIn(cs, Key(req)).value))
  {
  }

  /** A navigation that the network cannot answer falls back to the cached page, then to the cached root. */
  lemma OfflineNavigation(cs: seq<NamedCache>, req: Request, selfOrigin: string, refresh: Option<Response>)
    requires RouteOf(req, selfOrigin) == NetworkFirst
    ensures var a := FetchStep(cs, req, selfOrigin, None, refresh).answer;
      && (MatchIn(cs, Key(req)).Some? ==> a == Respond(MatchIn(cs, Key(req)).value))
      && (MatchIn(cs, Key(req)).None? && MatchIn(cs, selfOrigin + "/").Some? ==> a == Respond(MatchIn(cs, selfOrigin + "/").value))
      && (MatchIn(cs, Key(req)).None? && MatchIn(cs, selfOrigin + "/").None? ==> a == NetworkError)
  {
  }

  /** The fetch event of either worker, applied to the storage. */
  method HandleFetch(storage: CacheStorage, req: Request, selfOrigin: string,
                     network: Option<Response>, refresh: Option<Response>) returns (answer: Answer)
    modifies storage
    ensures answer == FetchStep(old(storage.caches), req, selfOrigin, network, refresh).answer
    ensures storage.caches == AfterFetch(old(storage.caches), FetchStep(old(storage.caches), req, selfOrigin, network, refresh), req)
  {
    var o := FetchStep(storage.caches, req, selfOrigin, network, refresh);
    if o.stored.Some? {
      storage.caches := PutAll(storage.caches, RuntimeCache, map[Key(req) := o.stored.value]);
    }
    answer := o.answer;
  }

  /** The `message` handler: `data` is the message's data when it is an object, None for a falsy or other value. */
  predicate SkipsWaiting(data: Option<Body>)
  {
    data.Some? && Field(data.value, "type") == Text("SKIP_WAITING")
  }
}
