// The service worker of build/service-worker.js: the four-asset precache and
// the activation clean-up of module ServiceWorkerCore, and a fetch handler
// that answers every request from the caches when it can and from the
// network otherwise, writing nothing.

module BuildWorker {
  import opened Js
  import ServiceWorkerCore

  const PrecacheAssets := ["/", "/index.html", "/styles/globals.css", "/manifest.json"]

  /** `caches.match(request).then(cached => cached || fetch(request))`: `network` is the fetch, None when it rejects. */
  function CacheOrNetwork(cs: seq<ServiceWorkerCore.NamedCache>, req: ServiceWorkerCore.Request,
                          network: Option<ServiceWorkerCore.Response>): (a: ServiceWorkerCore.Answer)
    ensures !a.Passthrough?
    ensures ServiceWorkerCore.MatchIn(cs, ServiceWorkerCore.Key(req)).Some? ==>
      a == ServiceWorkerCore.Respond(ServiceWorkerCore.MatchIn(cs, ServiceWorkerCore.Key(req)).value)
    ensures ServiceWorkerCore.MatchIn(cs, ServiceWorkerCore.Key(req)).None? ==>
      a == (if network.Some? then ServiceWorkerCore.Respond(network.value) else ServiceWorkerCore.NetworkError)
  {
    var cached := ServiceWorkerCore.MatchIn(cs, ServiceWorkerCore.Key(req));
    if cached.Some? then ServiceWorkerCore.Respond(cached.value)
    else if network.Some? then ServiceWorkerCore.Respond(network.value)
    else ServiceWorkerCore.NetworkError
  }

  class Worker {
    const storage: ServiceWorkerCore.CacheStorage
    /** The page origin the precached asset paths resolve against. */
    const origin: string
    var skippedWaiting: bool
    var claimed: bool

    constructor(storage: ServiceWorkerCore.CacheStorage, origin: string)
      ensures this.storage == storage && this.origin == origin && !skippedWaiting && !claimed
    {
      this.storage := storage;
      this.origin := origin;
      skippedWaiting := false;
      claimed := false;
    }

    /** The `install` handler: a failed precache fails the installation; a successful one skips waiting. */
    method Install(responses: seq<Option<ServiceWorkerCore.Response>>) returns (installed: bool)
      requires |responses| == |PrecacheAssets|
      modifies this, storage
      ensures installed <==> ServiceWorkerCore.AllOk(responses)
      ensures installed ==> storage.caches == ServiceWorkerCore.PutAll(old(storage.caches), ServiceWorkerCore.CacheName,
                                                                      ServiceWorkerCore.AssetEntries(origin, PrecacheAssets, responses))
      ensures !installed ==> storage.caches == ServiceWorkerCore.Opened(old(storage.caches), ServiceWorkerCore.CacheName)
      ensures skippedWaiting == (old(skippedWaiting) || installed) && claimed == old(claimed)
    {
      installed := ServiceWorkerCore.Precache(storage, origin, PrecacheAssets, responses);
      if installed {
        skippedWaiting := true;
      }
    }

    /** The `activate` handler: only the two named caches survive, then the worker claims its clients. */
    method Activate()
      modifies this, storage
      ensures storage.caches == ServiceWorkerCore.KeepOnly(old(storage.caches))
      ensures claimed && skippedWaiting == old(skippedWaiting)
    {
      ServiceWorkerCore.Activate(storage);
      claimed := true;
    }

    /** The `fetch` handler: every request is answered, and no cache is written. */
    method Fetch(req: ServiceWorkerCore.Request, network: Option<ServiceWorkerCore.Response>)
        returns (answer: ServiceWorkerCore.Answer)
      ensures answer == CacheOrNetwork(storage.caches, req, network)
    {
      answer := CacheOrNetwork(storage.caches, req, network);
    }
  }

  /** Once the shell is precached, the build worker serves it from the cache whatever the network does. */
  lemma ShellServedOffline(cs: seq<ServiceWorkerCore.NamedCache>, origin: string,
                           responses: seq<Option<ServiceWorkerCore.Response>>, req: ServiceWorkerCore.Request)
    requires |responses| == |PrecacheAssets| && ServiceWorkerCore.AllOk(responses)
    requires ServiceWorkerCore.Key(req) == origin + "/index.html"
    ensures var after := ServiceWorkerCore.PutAll(cs, ServiceWorkerCore.CacheName,
                                                  ServiceWorkerCore.AssetEntries(origin, PrecacheAssets, responses));
      CacheOrNetwork(after, req, None).Respond?
  {
    ServiceWorkerCore.PrecachedAssetsMatch(cs, origin, PrecacheAssets, responses);
    assert PrecacheAssets[1] == "/index.html";
  }
}
