// The service worker of src/public/service-worker.js: install precaches the
// app shell, activate clears old caches, fetch follows the shared routing
// rules of module ServiceWorkerCore, and the message and notification-click
// handlers. The background sync and push handlers are not part of this model.

module PublicWorker {
  import opened Js
  import ServiceWorkerCore

  const PrecacheAssets := ["/", "/index.html", "/styles/globals.css", "/manifest.json"]

  class Worker {
    const storage: ServiceWorkerCore.CacheStorage
    /** The page origin, `location.origin`. */
    const origin: string
    var skippedWaiting: bool
    var claimed: bool

    constructor(storage: ServiceWorkerCore.CacheStorage, origin: string)
      ensures this.storage == storage && this.origin == origin && !skippedWaiting && !claimed
    {
      this.storage := storage;
      this.origin := origin;
      skippedWaiting := false;
      claimed := false;
    }

    /**
     * The `install` handler: `responses` are the fetches of the four assets.
     * A failed precache fails the installation, and waiting is skipped only
     * after a successful one.
     */
    method Install(responses: seq<Option<ServiceWorkerCore.Response>>) returns (installed: bool)
      requires |responses| == |PrecacheAssets|
      modifies this, storage
      ensures installed <==> ServiceWorkerCore.AllOk(responses)
      ensures installed ==> storage.caches == ServiceWorkerCore.PutAll(old(storage.caches), ServiceWorkerCore.CacheName,
                                                                      ServiceWorkerCore.AssetEntries(origin, PrecacheAssets, responses))
      ensures !installed ==> storage.caches == ServiceWorkerCore.Opened(old(storage.caches), ServiceWorkerCore.CacheName)
      ensures skippedWaiting == (old(skippedWaiting) || installed) && claimed == old(claimed)
    {
      installed := ServiceWorkerCore.Precache(storage, origin, PrecacheAssets, responses);
      if installed {
        skippedWaiting := true;
      }
    }

    /** The `activate` handler: only the two named caches survive, then the worker claims its clients. */
    method Activate()
      modifies this, storage
      ensures storage.caches == ServiceWorkerCore.KeepOnly(old(storage.caches))
      ensures claimed && skippedWaiting == old(skippedWaiting)
    {
      ServiceWorkerCore.Activate(storage);
      claimed := true;
    }

    /** The `fetch` handler. */
    method Fetch(req: ServiceWorkerCore.Request, network: Option<ServiceWorkerCore.Response>,
                 refresh: Option<ServiceWorkerCore.Response>) returns (answer: ServiceWorkerCore.Answer)
      modifies storage
      ensures var o := ServiceWorkerCore.FetchStep(old(storage.caches), req, origin, network, refresh);
        answer == o.answer && storage.caches == ServiceWorkerCore.AfterFetch(old(storage.caches), o, req)
    {
      answer := ServiceWorkerCore.HandleFetch(storage, req, origin, network, refresh);
    }

    /** The `message` handler: a `SKIP_WAITING` message activates the waiting worker. */
    method Message(data: Option<Body>)
      modifies this
      ensures skippedWaiting == (old(skippedWaiting) || ServiceWorkerCore.SkipsWaiting(data))
      ensures claimed == old(claimed)
    {
      if ServiceWorkerCore.SkipsWaiting(data) {
        skippedWaiting := true;
      }
    }
  }

  /** The `notificationclick` handler: the window it opens, if any. */
  function NotificationClick(action: string): (target: Option<string>)
    ensures target.Some? <==> action == "explore"
    ensures target.Some? ==> target.value == "/?tab=inbox"
  {
    if action == "explore" then Some("/?tab=inbox") else None
  }
}
