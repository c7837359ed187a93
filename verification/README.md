# Songbook offline caching layer, in Dafny

This project models the two stateful components of the songbook's offline
layer and proves what they promise.

- **The service worker** (`public/sw.js`). It uses two named response
  caches: `songbook-poc-cache-v1` for static assets and
  `song-data-cache-v1` for API data.
  - On `install`, it opens both caches and fills the asset cache with
    `Cache.addAll` over the four-entry manifest.
  - On `fetch`, a request whose URL contains `supabase.co` takes the
    network-first path. A 200 response is written back to the data cache.
    On a network error the handler falls back to the cached entry.
  - Every other request takes the cache-first path. On a miss it fetches,
    and keeps the response only when the status is 200 and the type is
    `basic`.
- **The structured local store** (`src/lib/db.ts`). This is the IndexedDB
  database `songbook-poc`, at version 1, with the object stores `songs` and
  `songData`, both keyed by `id`.
  - `initDB` opens it lazily, once, and keeps the handle.
  - `saveSong` and `saveSongData` upsert. `saveSongData` stamps the record
    with the clock.
  - `getSong` and `getSongData` return the record or "absent".
  - `getAllSongs` lists the songs. `deleteAllData` clears both stores.

Files:

- `wrappers.dfy`: the `Option` type.
- `service_worker.dfy` (module `ServiceWorker`):
  - the pure definitions `Fetch`, `NetworkFirst`, `CacheFirst` and
    `Install`, over the value `Storage` (the two caches, each absent until
    `caches.open` creates it);
  - class `Worker`, whose event methods are proved equal to those
    definitions;
  - lemmas on what happens across events.
- `song_store.dfy` (module `SongStore`): class `Database`. It holds the
  handle flag, the persisted version and schema, and the two stores. The
  class's methods are the exported functions of `db.ts`. Pure lemmas cover
  repeated saves, and a `getAll` method covers listing.

The network and the clock are inputs:

- A fetch's outcome is the parameter `net: Net`, either `Fail` (the fetch
  rejects) or `Ok(response)`.
- Install takes one `Net` per manifest entry.
- `Date.now()` is the parameter `now`.

The model relies on platform behaviour that the code depends on but does not
spell out:

- **`Cache.put` and `Cache.match` only work on GET requests.** Per the W3C
  Service Workers specification, `put` rejects any other method with a
  TypeError. With default options, `match` never matches one. Both `put`
  calls in `sw.js` are unawaited, so the rejection never reaches the page.
  As a result, an API request that is not GET is never cached and cannot be
  replayed offline (`NonGetApiRequestNeverCached`). This matters because
  Supabase RPC calls are normally POST requests.
- **`caches.match` searches every cache.** On the static path it searches
  the data cache too, in creation order, asset cache first.
  `StaticLookupSkipsDataCache` shows that only the asset cache can answer a
  static request, because every data-cache key is an API request.
- **`Cache.addAll` is all-or-nothing.** It rejects when any fetch fails or
  yields a status outside 200-299, a 206 or an `error` type, and then it
  stores nothing.
- **`openDB` rejects with a VersionError when the stored version is newer
  than 1.** In that case `initDB`, and every operation that calls it, fails.
  The model carries this as the `Failed`/`Err` results.

The code lacks several behaviours an offline cache is often expected to have. The model follows the code:

- Both fetch paths test `status === 200` exactly, not any success status.
- `deleteAllData` runs two separate clears, not one atomic reset.
- `saveSong` does no freshness check on `lastUpdated` (`StaleSaveOverwrites`).
- There is no `activate` handler, so old cache generations are never purged.
- There is no timeout.

## Model

| member | source | states |
|---|---|---|
| ServiceWorker.IncludesIff | public/sw.js:24 | the routing test holds exactly when `supabase.co` occurs at some position of the URL |
| ServiceWorker.ShortUrlIsStatic | public/sw.js:24 | a URL shorter than `supabase.co` is always routed to the static path |
| ServiceWorker.CachePut | public/sw.js:30 | after `put`, matching the same GET request gives the stored response; a non-GET put stores nothing; every other request matches as before |
| ServiceWorker.AddAllAllOrNothing | public/sw.js:16 | `addAll` succeeds if and only if every fetch in the list is accepted |
| ServiceWorker.AddAllStores | public/sw.js:16 | after a successful `addAll`, each listed GET request maps to the response fetched for it |
| ServiceWorker.AddAllKeepsOthers | public/sw.js:16 | a successful `addAll` leaves every request outside its list unchanged |
| ServiceWorker.InstallOutcome | public/sw.js:2-19 | install succeeds iff every manifest fetch is accepted; then every manifest path is served from the caches with its response; on failure the asset cache keeps its old entries; in both cases the data cache exists and is unchanged, and nothing outside the manifest changes |
| ServiceWorker.NetworkFirst | public/sw.js:25-38 | a network response is returned unmodified; with status 200 it is stored under the GET request; with any other status the data cache is unchanged; on network failure the result is the data cache's entry for the identical request (possibly absent) and nothing is written; other requests are never affected |
| ServiceWorker.CacheFirst | public/sw.js:43-67 | a cache hit is returned with no change and whatever the network does; on a miss the network response (or a network error) is returned, and the asset cache gains it only when the status is 200 and the type is `basic` |
| ServiceWorker.Fetch | public/sw.js:22-68 | the API path never writes the asset cache and always leaves the data cache created; the static path never writes the data cache |
| ServiceWorker.FetchKeepsDataKeysApi | public/sw.js:26-30 | every data-cache key stays an API request across any fetch event |
| ServiceWorker.InstallKeepsDataKeysApi | public/sw.js:12-19 | install keeps every data-cache key an API request |
| ServiceWorker.StaticLookupSkipsDataCache | public/sw.js:44 | under that invariant, the cross-cache lookup of the static path equals a lookup in the asset cache alone |
| ServiceWorker.OfflineReplaysApiResponse | public/sw.js:27-36 | after a 200 GET API response has been served, an identical request while offline returns that same response |
| ServiceWorker.NonGetApiRequestNeverCached | public/sw.js:30-35 | a non-GET API request never changes the data cache's entries, and offline it always ends in a network error |
| ServiceWorker.OfflineApiMissIsNetworkError | public/sw.js:34-36 | offline, with no stored entry, an API request yields no response and changes nothing except creating the data cache |
| ServiceWorker.StaticRepeatServedFromCache | public/sw.js:44-63 | once a static GET request has been answered with a cacheable response, a repeat of it gets the same answer, whatever the network does, and changes nothing |
| ServiceWorker.InstallThenOfflineRoot | public/sw.js:2-19 | after a successful install, `/` is served from the asset cache while the network is down |
| ServiceWorker.Worker.constructor | public/sw.js:1-10 | a new origin starts with neither cache created |
| ServiceWorker.Worker.OnInstall | public/sw.js:12-20 | the install event's result and new caches are those of `Install`, and it keeps the data-cache invariant |
| ServiceWorker.Worker.OnFetch | public/sw.js:22-68 | the response passed to `respondWith` and the new caches are those of `Fetch`, and it keeps the data-cache invariant |
| SongStore.Upsert | src/lib/db.ts:38-41 | after a put, the song's id holds that song, every other id is unchanged, and records stay under their own ids |
| SongStore.LastWriteWins | src/lib/db.ts:38-41 | after a sequence of saves, an id holds the song of the last save with that id |
| SongStore.SaveSongsKeepsOthers | src/lib/db.ts:38-41 | saves of other ids leave a record unchanged |
| SongStore.StaleSaveOverwrites | src/lib/db.ts:40 | a save replaces a stored song even when the stored one has a later `lastUpdated` |
| SongStore.GetAll | src/lib/db.ts:62-65 | `getAll` yields every stored song, each once, no other value, in ascending id order |
| SongStore.Database.constructor | src/lib/db.ts:23 | a page load starts with the handle unset over the persisted database |
| SongStore.Database.InitDB | src/lib/db.ts:25-36 | the first successful call opens at version 1 and keeps the handle; the upgrade creates exactly `songs` and `songData`, both keyed by `id`, when the database did not exist; later calls change nothing; a newer persisted version fails with no change; records are never touched |
| SongStore.Database.SaveSong | src/lib/db.ts:38-41 | on success the song is upserted at its id and `songData` is unchanged; if the database cannot be opened, nothing changes |
| SongStore.Database.SaveSongData | src/lib/db.ts:43-50 | on success `getSongData(id)` gives `{id, data, lastUpdated: now}`, other ids and `songs` are unchanged; if the database cannot be opened, nothing changes |
| SongStore.Database.GetSong | src/lib/db.ts:52-55 | returns the stored song or "absent"; on success the handle is set (so, with the invariant, version 1 and both stores) and no record changes |
| SongStore.Database.GetSongData | src/lib/db.ts:57-60 | returns the stored payload record or "absent"; on success the handle is set and no record changes |
| SongStore.Database.GetAllSongs | src/lib/db.ts:62-65 | returns every stored song once, no others, in ascending id order; on success the handle is set and no record changes |
| SongStore.Database.DeleteAllData | src/lib/db.ts:67-71 | on success both stores are empty, so every get returns "absent" and the listing is empty |

## Left out

- Asynchrony and concurrency are not modelled. Each handler or store call is
  one atomic step. This leaves out three races:
  - the fire-and-forget `caches.open(...).then(put)` on the static path;
  - the same-key race between a write-back and a concurrent read;
  - two concurrent first calls of `initDB`. Both see no handle and both
    call `openDB`, because the source keeps no pending promise.
- Response bodies, streaming and `clone()` are not modelled. A response is
  an opaque value and `clone()` is the identity.
- Request matching compares method and URL exactly. Vary headers, URL
  fragments and the other `CacheQueryOptions` are not modelled.
- The worker lifecycle is not modelled: `OnFetch` may run before `OnInstall`
  or after a failed one, whereas the browser only dispatches fetch events to
  a worker that installed and activated. The proved properties hold for
  every order, so they cover the gated one.
- Manifest paths are kept as written. Their resolution against the worker's
  origin is not modelled.
- Storage failures are not modelled: quota errors, a failing `put` or
  `clear`, and a blocked open. So a failure between the two clears of
  `deleteAllData` is not represented.
- `addAll`'s rejection of a list that repeats a request is not modelled.
  The manifest has no duplicates.
- `data: any` is an opaque string. Ids are integers, so a non-integer or
  NaN key (an IndexedDB DataError) is not modelled.
- `src/sw-register.ts`, `src/lib/supabase.ts`, `src/router/index.ts` and
  `public/icons/generate-icons.js` are not part of this model. They are
  browser registration, UI, remote-call and tooling glue.
- Cache-generation cleanup on activation, an atomic two-store reset,
  monotonic timestamps and request timeouts are absent from the code, so
  they are not modelled as verified behaviour.
