// The service worker of src/service-worker.js: the same routing and caching
// rules as src/public/service-worker.js (module ServiceWorkerCore), a
// three-asset precache whose failure is swallowed so installation always
// proceeds, and the `SKIP_WAITING` message handler.

module SrcWorker {
  import opened Js
  import ServiceWorkerCore

  const PrecacheAssets := ["/", "/App.tsx", "/styles/globals.css"]

  class Worker {
    const storage: ServiceWorkerCore.CacheStorage
    /** The page origin, `location.origin`. */
    const origin: string
    var skippedWaiting: bool
    var claimed: bool

    constructor(storage: ServiceWorkerCore.CacheStorage, origin: string)
      ensures this.storage == storage && this.origin == origin && !skippedWaiting && !claimed
    {
      this.storage := storage;
      this.origin := origin;
      skippedWaiting := false;
      claimed := false;
    }

    /**
     * The `install` handler: `responses` are the fetches of the three assets.
     * The precache stores all of them or none, and either way the worker
     * installs and skips waiting.
     */
    method Install(responses: seq<Option<ServiceWorkerCore.Response>>)
      requires |responses| == |PrecacheAssets|
      modifies this, storage
      ensures ServiceWorkerCore.AllOk(responses) ==>
        storage.caches == ServiceWorkerCore.PutAll(old(storage.caches), ServiceWorkerCore.CacheName,
                                                   ServiceWorkerCore.AssetEntries(origin, PrecacheAssets, responses))
      ensures !ServiceWorkerCore.AllOk(responses) ==>
        storage.caches == ServiceWorkerCore.Opened(old(storage.caches), ServiceWorkerCore.CacheName)
      ensures skippedWaiting && claimed == old(claimed)
    {
      var stored := ServiceWorkerCore.Precache(storage, origin, PrecacheAssets, responses);
      skippedWaiting := true;
    }

    /** The `activate` handler: only the two named caches survive, then the worker claims its clients. */
    method Activate()
      modifies this, storage
      ensures storage.caches == ServiceWorkerCore.KeepOnly(old(storage.caches))
      ensures claimed && skippedWaiting == old(skippedWaiting)
    {
      ServiceWorkerCore.Activate(storage);
      claimed := true;
    }

    /** The `fetch` handler. */
    method Fetch(req: ServiceWorkerCore.Request, network: Option<ServiceWorkerCore.Response>,
                 refresh: Option<ServiceWorkerCore.Response>) returns (answer: ServiceWorkerCore.Answer)
      modifies storage
      ensures var o := ServiceWorkerCore.FetchStep(old(storage.caches), req, origin, network, refresh);
        answer == o.answer && storage.caches == ServiceWorkerCore.AfterFetch(old(storage.caches), o, req)
    {
      answer := ServiceWorkerCore.HandleFetch(storage, req, origin, network, refresh);
    }

    /** The `message` handler: a `SKIP_WAITING` message activates the waiting worker. */
    method Message(data: Option<Body>)
      modifies this
      ensures skippedWaiting == (old(skippedWaiting) || ServiceWorkerCore.SkipsWaiting(data))
      ensures claimed == old(claimed)
    {
      if ServiceWorkerCore.SkipsWaiting(data) {
        skippedWaiting := true;
      }
    }
  }
}
