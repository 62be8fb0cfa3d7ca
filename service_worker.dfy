/**
 * The service worker: versioned provisioning of the Cache Storage on install
 * (`caching()`) and the cache-first answer to every fetch (`getResponse()`).
 *
 * The Cache Storage is a list of named stores in creation order, each mapping
 * a request URL to a stored response. The network is a map from URL to the
 * response the server would send; a URL outside it is a network error.
 */
module ServiceWorker {
  import opened Wrappers
  import opened Sequences

  type Url = string

  datatype Request = Request(verb: string, url: Url)

  datatype Response = Response(status: int, body: string)

  /** One named store: request URL to stored response. */
  type Cache = map<Url, Response>

  /** What `fetch(url)` would resolve with; a URL outside the map rejects. */
  type Network = map<Url, Response>

  /** The label of the current cache generation. */
  const VERSION: string := "3.0"

  /** The manifest bulk-added to the `VERSION` store. */
  const RESSOURCES: seq<Url> := [
    "./",
    "./index.html",
    "./formul_cheval.html",
    "./meteo.html",
    "./service_worker.js",
    "./css/style.css",
    "./favicon/apple-touch-icon.png",
    "./favicon/favicon.ico",
    "./favicon/favicon.svg",
    "./favicon/favicon-96x96.png",
    "./favicon/site.webmanifest",
    "./favicon/web-app-manifest-192x192.png",
    "./favicon/web-app-manifest-512x512.png",
    "./js/pwa.js",
    "./js/app.js",
    "./js/formul_cheval.js",
    "./js/meteo_detail.js",
    "./son/cheval.mp3",
    "https://code.getmdl.io/1.3.0/material.teal-amber.min.css",
    "https://code.getmdl.io/1.3.0/material.min.js",
    "https://fonts.googleapis.com/icon?family=Material+Icons",
    "https://fonts.googleapis.com/css2?family=Poppins:wght@300;500;700&family=Roboto:wght@300;400;500&display=swap",
    "https://unpkg.com/leaflet@1.9.4/dist/leaflet.css",
    "https://unpkg.com/leaflet@1.9.4/dist/leaflet.js",
    "https://cdn.jsdelivr.net/npm/fullcalendar@6.1.10/index.global.min.js"
  ]

  /******************************************************************************/
  /* The Cache Storage as a value                                               */
  /******************************************************************************/

  /** Store names in creation order (what `caches.keys()` lists) and each store's entries. */
  datatype Snapshot = Snapshot(names: seq<string>, caches: map<string, Cache>)

  /** Every name listed once, and the listed names are exactly the existing stores. */
  ghost predicate WellFormed(s: Snapshot) {
    Distinct(s.names) && forall n :: n in s.names <==> n in s.caches
  }

  /** `names` without `name`, the others in their order. */
  function Remove(names: seq<string>, name: string): (r: seq<string>)
    ensures forall n :: n in r <==> n in names && n != name
    ensures Distinct(names) ==> Distinct(r)
  {
    if names == [] then []
    else
      var rest := Remove(names[1..], name);
      assert Distinct(names) ==> Distinct(names[1..]) && names[0] !in rest by {
        if Distinct(names) {
          forall i, j | 0 <= i < j < |names[1..]| ensures names[1..][i] != names[1..][j] {
            assert names[1..][i] == names[i + 1] && names[1..][j] == names[j + 1];
          }
          assert names[0] !in names[1..];
        }
      }
      (if names[0] == name then [] else [names[0]]) + rest
  }

  /** `caches.open(name)`: the existing store, or a new empty one listed last. */
  function Opened(s: Snapshot, name: string): (r: Snapshot)
    ensures name in r.caches
    ensures WellFormed(s) ==> WellFormed(r)
    ensures forall n :: n in s.caches ==> n in r.caches && r.caches[n] == s.caches[n]
  {
    if name in s.caches then s
    else Snapshot(s.names + [name], s.caches[name := map[]])
  }

  /** `caches.delete(name)`: the store and all its entries disappear. */
  function Deleted(s: Snapshot, name: string): (r: Snapshot)
    ensures WellFormed(s) ==> WellFormed(r)
    ensures name !in r.caches
  {
    Snapshot(Remove(s.names, name), s.caches - {name})
  }

  /** An ok status other than 206 (partial content), the only kind of response `addAll` accepts. */
  predicate OkStatus(r: Response) {
    200 <= r.status <= 299 && r.status != 206
  }

  /** Every URL is served by the network with an ok status. */
  predicate AllFetched(network: Network, urls: seq<Url>) {
    forall u :: u in urls ==> u in network && OkStatus(network[u])
  }

  /** The entries `addAll` writes: each URL with its network response. */
  function FetchedEntries(network: Network, urls: seq<Url>): (c: Cache)
    requires AllFetched(network, urls)
    ensures forall u :: u in c <==> u in urls
    ensures forall u :: u in c ==> c[u] == network[u]
  {
    map u | u in urls :: network[u]
  }

  /**
   * `cache.addAll(urls)` on the store `name`: all entries are written, or,
   * when a fetch fails, a status is not ok, or a URL is requested twice,
   * nothing is written and the call rejects (`None`).
   */
  function AddedAll(s: Snapshot, name: string, urls: seq<Url>, network: Network): (r: Option<Snapshot>)
    requires name in s.caches
    ensures r.Some? <==> AllFetched(network, urls) && Distinct(urls)
    ensures r.Some? ==> r.value.names == s.names && r.value.caches.Keys == s.caches.Keys
    ensures r.Some? ==> WellFormed(s) ==> WellFormed(r.value)
  {
    if AllFetched(network, urls) && Distinct(urls) then
      Some(Snapshot(s.names, s.caches[name := s.caches[name] + FetchedEntries(network, urls)]))
    else None
  }

  /** The `for (const KEY of KEYS)` loop of `caching()`: delete, in order, every key that is not `version`. */
  function DeleteStale(s: Snapshot, keys: seq<string>, version: string): Snapshot
    decreases |keys|
  {
    if keys == [] then s
    else
      var rest := DeleteStale(s, keys[..|keys| - 1], version);
      var key := keys[|keys| - 1];
      if key != version then Deleted(rest, key) else rest
  }

  /**
   * `caching()` as written: snapshot the names; if `version` is absent, open
   * it, bulk-add the manifest and only then delete every other snapshotted
   * store. A rejected `addAll` leaves the freshly opened store in place.
   */
  function Provisioned(s: Snapshot, version: string, manifest: seq<Url>, network: Network): (r: Snapshot)
    ensures version in s.names ==> r == s
  {
    if version in s.names then s
    else
      var created := Opened(s, version);
      match AddedAll(created, version, manifest, network)
      case None => created
      case Some(filled) => DeleteStale(filled, s.names, version)
  }

  /** Whether the promise of `caching()` resolves (so the install succeeds). */
  predicate ProvisionSucceeds(s: Snapshot, version: string, manifest: seq<Url>, network: Network) {
    version in s.names || (AllFetched(network, manifest) && Distinct(manifest))
  }

  /**
   * `caching()` corrected: a rejected `addAll` also deletes the store it had
   * just opened, so the next install starts from the same state.
   */
  function ProvisionedWithRollback(s: Snapshot, version: string, manifest: seq<Url>, network: Network): (r: Snapshot)
    ensures version in s.names ==> r == s
  {
    if version in s.names then s
    else
      var created := Opened(s, version);
      match AddedAll(created, version, manifest, network)
      case None => Deleted(created, version)
      case Some(filled) => DeleteStale(filled, s.names, version)
  }

  /** `caches.match(url)`: the entry of the first store, in creation order, that holds `url`. */
  function MatchIn(names: seq<string>, caches: map<string, Cache>, url: Url): (r: Option<Response>)
    requires forall n :: n in names ==> n in caches
    ensures r.Some? <==> exists n :: n in names && url in caches[n]
  {
    if names == [] then None
    else if url in caches[names[0]] then Some(caches[names[0]][url])
    else MatchIn(names[1..], caches, url)
  }

  /** The store that answers is the earliest one holding the URL. */
  lemma {:induction false} MatchInFirstHit(names: seq<string>, caches: map<string, Cache>, url: Url)
    requires forall n :: n in names ==> n in caches
    ensures var r := MatchIn(names, caches, url);
      r.Some? ==> exists i :: 0 <= i < |names| && url in caches[names[i]] && r.value == caches[names[i]][url]
                              && forall j :: 0 <= j < i ==> url !in caches[names[j]]
  {
    if names != [] && url !in caches[names[0]] {
      MatchInFirstHit(names[1..], caches, url);
      var r := MatchIn(names, caches, url);
      if r.Some? {
        var i :| 0 <= i < |names[1..]| && url in caches[names[1..][i]] && r.value == caches[names[1..][i]][url]
                 && forall j :: 0 <= j < i ==> url !in caches[names[1..][j]];
        forall j | 0 <= j < i + 1 ensures url !in caches[names[j]] {
          if j > 0 { assert names[j] == names[1..][j - 1]; }
        }
        assert names[i + 1] == names[1..][i];
      }
    }
  }

  /** Cache matching ignores every request whose method is not GET. */
  function Match(s: Snapshot, request: Request): (r: Option<Response>)
    requires WellFormed(s)
    ensures request.verb != "GET" ==> r == None
    ensures r.Some? <==> request.verb == "GET" && exists n :: n in s.names && request.url in s.caches[n]
  {
    if request.verb == "GET" then MatchIn(s.names, s.caches, request.url) else None
  }

  /******************************************************************************/
  /* What caching() guarantees                                                  */
  /******************************************************************************/

  lemma {:induction false} RemoveAbsent(names: seq<string>, name: string)
    requires name !in names
    ensures Remove(names, name) == names
  {
    if names != [] {
      RemoveAbsent(names[1..], name);
    }
  }

  lemma {:induction false} RemoveLast(names: seq<string>, name: string)
    requires name !in names
    ensures Remove(names + [name], name) == names
  {
    if names == [] {
      assert names + [name] == [name];
    } else {
      assert (names + [name])[1..] == names[1..] + [name];
      RemoveLast(names[1..], name);
    }
  }

  /** Deleting the head of a distinct list leaves its tail. */
  lemma RemoveHead(names: seq<string>)
    requires Distinct(names) && names != []
    ensures Remove(names, names[0]) == names[1..]
  {
    assert names[0] !in names[1..] by {
      forall j | 1 <= j < |names| ensures names[j] != names[0] {
      }
    }
    RemoveAbsent(names[1..], names[0]);
  }

  /** A suffix of a distinct list is distinct. */
  lemma DistinctSuffix(names: seq<string>, i: nat)
    requires Distinct(names) && i <= |names|
    ensures Distinct(names[i..])
  {
    forall a, b | 0 <= a < b < |names[i..]| ensures names[i..][a] != names[i..][b] {
      assert names[i..][a] == names[i + a] && names[i..][b] == names[i + b];
    }
  }

  /**
   * Deleting, in order, the first `i` snapshotted names from `keys + [version]`
   * leaves the remaining keys followed by `version`.
   */
  lemma {:induction false} DeleteStalePrefix(s: Snapshot, keys: seq<string>, version: string, i: nat)
    requires Distinct(s.names) && s.names == keys + [version] && i <= |keys|
    ensures DeleteStale(s, keys[..i], version).names == keys[i..] + [version]
  {
    if i == 0 {
      assert keys[..0] == [] && keys[0..] == keys;
    } else {
      DeleteStalePrefix(s, keys, version, i - 1);
      var rest := DeleteStale(s, keys[..i - 1], version);
      var key := keys[i - 1];
      assert keys[..i][..i - 1] == keys[..i - 1];
      assert keys[..i] == keys[..i - 1] + [key];
      assert s.names[i - 1] == key && s.names[|keys|] == version;
      assert DeleteStale(s, keys[..i], version) == Deleted(rest, key);
      assert rest.names == s.names[i - 1..];
      DistinctSuffix(s.names, i - 1);
      RemoveHead(rest.names);
      assert rest.names[1..] == keys[i..] + [version];
    }
  }

  /**
   * The delete loop removes exactly the listed stores other than `version`;
   * every store it keeps holds the same entries, and the names stay well formed.
   */
  lemma {:induction false} DeleteStaleRemovesExactly(s: Snapshot, keys: seq<string>, version: string)
    requires WellFormed(s)
    ensures var r := DeleteStale(s, keys, version);
      WellFormed(r)
      && (forall n :: n in r.caches <==> n in s.caches && (n == version || n !in keys))
      && (forall n :: n in r.caches ==> r.caches[n] == s.caches[n])
    decreases |keys|
  {
    if keys != [] {
      var init := keys[..|keys| - 1];
      DeleteStaleRemovesExactly(s, init, version);
      assert forall n :: n in keys <==> n in init || n == keys[|keys| - 1] by {
        assert keys == init + [keys[|keys| - 1]];
      }
    }
  }

  /** Once every snapshotted key is deleted, only `version` is left, with its entries. */
  lemma DeleteAllStale(s: Snapshot, keys: seq<string>, version: string)
    requires WellFormed(s) && s.names == keys + [version]
    ensures DeleteStale(s, keys, version) == Snapshot([version], map[version := s.caches[version]])
  {
    DeleteStalePrefix(s, keys, version, |keys|);
    DeleteStaleRemovesExactly(s, keys, version);
    assert keys[..|keys|] == keys && keys[|keys|..] == [];
    var r := DeleteStale(s, keys, version);
    assert version !in keys by {
      forall j | 0 <= j < |keys| ensures keys[j] != version {
        assert s.names[j] == keys[j] && s.names[|keys|] == version;
      }
    }
    assert version in s.caches by {
      assert s.names[|keys|] == version;
    }
    forall n ensures n in r.caches <==> n == version {
      assert n in s.names <==> n in keys || n == version;
    }
    assert r.caches == map[version := s.caches[version]];
  }

  /** A run that populates the store leaves exactly one store, `version`, holding exactly the manifest. */
  lemma ProvisionedSuccessShape(s: Snapshot, version: string, manifest: seq<Url>, network: Network)
    requires WellFormed(s) && version !in s.names
    requires AllFetched(network, manifest) && Distinct(manifest)
    ensures Provisioned(s, version, manifest, network) == Snapshot([version], map[version := FetchedEntries(network, manifest)])
    ensures ProvisionedWithRollback(s, version, manifest, network) == Provisioned(s, version, manifest, network)
  {
    var fetched := FetchedEntries(network, manifest);
    var created := Opened(s, version);
    assert created == Snapshot(s.names + [version], s.caches[version := map[]]);
    var filled := Snapshot(s.names + [version], s.caches[version := fetched]);
    assert created.caches[version] + fetched == fetched;
    assert created.caches[version := fetched] == filled.caches;
    assert AddedAll(created, version, manifest, network) == Some(filled);
    assert WellFormed(filled) by {
      assert WellFormed(created);
    }
    DeleteAllStale(filled, s.names, version);
  }

  /** After a populating run, `version` is the only store name left. */
  lemma ProvisionedLeavesOnlyVersion(s: Snapshot, version: string, manifest: seq<Url>, network: Network)
    requires WellFormed(s) && version !in s.names
    requires AllFetched(network, manifest) && Distinct(manifest)
    ensures Provisioned(s, version, manifest, network).names == [version]
    ensures Provisioned(s, version, manifest, network).caches.Keys == {version}
    ensures forall n :: n in s.names ==> n !in Provisioned(s, version, manifest, network).caches
  {
    ProvisionedSuccessShape(s, version, manifest, network);
  }

  /** After a populating run, every manifest URL is answered from the `version` store with its network response. */
  lemma ProvisionedCachesManifest(s: Snapshot, version: string, manifest: seq<Url>, network: Network)
    requires WellFormed(s) && version !in s.names
    requires AllFetched(network, manifest) && Distinct(manifest)
    ensures var r := Provisioned(s, version, manifest, network);
      WellFormed(r) && version in r.caches
      && (forall u :: u in manifest ==> u in r.caches[version] && r.caches[version][u] == network[u])
      && (forall u :: u in manifest ==> Match(r, Request("GET", u)) == Some(network[u]))
  {
    ProvisionedSuccessShape(s, version, manifest, network);
  }

  /**
   * A rejected `addAll` deletes nothing: every store that existed is still
   * there with its entries, and the only addition is an empty `version`
   * store listed last.
   */
  lemma ProvisionedFailureKeepsStores(s: Snapshot, version: string, manifest: seq<Url>, network: Network)
    requires WellFormed(s) && version !in s.names
    requires !(AllFetched(network, manifest) && Distinct(manifest))
    ensures var r := Provisioned(s, version, manifest, network);
      WellFormed(r) && !ProvisionSucceeds(s, version, manifest, network)
      && r.names == s.names + [version] && r.caches[version] == map[]
      && forall n :: n in s.caches ==> n in r.caches && r.caches[n] == s.caches[n]
  {
  }

  lemma {:induction false} MatchInIgnoresEmptyLast(names: seq<string>, caches: map<string, Cache>, name: string, url: Url)
    requires forall n :: n in names ==> n in caches
    requires name !in names
    ensures MatchIn(names + [name], caches[name := map[]], url) == MatchIn(names, caches, url)
  {
    if names == [] {
    } else {
      assert (names + [name])[0] == names[0];
      assert (names + [name])[1..] == names[1..] + [name];
      MatchInIgnoresEmptyLast(names[1..], caches, name, url);
      if url in caches[names[0]] {
        assert MatchIn(names, caches, url) == Some(caches[names[0]][url]);
      } else {
        assert MatchIn(names, caches, url) == MatchIn(names[1..], caches, url);
        assert MatchIn(names[1..] + [name], caches[name := map[]], url) == MatchIn(names[1..], caches, url) by {
          assert forall n :: n in names[1..] ==> n in caches[name := map[]] && caches[name := map[]][n] == caches[n];
          MatchInSameCaches(names[1..], caches, caches[name := map[]], url);
        }
      }
    }
  }

  lemma {:induction false} MatchInSameCaches(names: seq<string>, c1: map<string, Cache>, c2: map<string, Cache>, url: Url)
    requires forall n :: n in names ==> n in c1 && n in c2 && c1[n] == c2[n]
    ensures MatchIn(names, c1, url) == MatchIn(names, c2, url)
  {
    if names != [] {
      MatchInSameCaches(names[1..], c1, c2, url);
    }
  }

  /** After a rejected `addAll`, every request is answered exactly as before the run. */
  lemma FailedProvisionMatchesAsBefore(s: Snapshot, version: string, manifest: seq<Url>, network: Network, request: Request)
    requires WellFormed(s) && version !in s.names
    requires !(AllFetched(network, manifest) && Distinct(manifest))
    ensures WellFormed(Provisioned(s, version, manifest, network))
    ensures Match(Provisioned(s, version, manifest, network), request) == Match(s, request)
  {
    MatchInSameCaches(s.names, s.caches, s.caches[version := map[]], request.url);
    MatchInIgnoresEmptyLast(s.names, s.caches, version, request.url);
  }

  /** Running `caching()` a second time with the same version changes nothing, whatever the first run's network. */
  lemma ProvisionedIdempotent(s: Snapshot, version: string, manifest: seq<Url>, first: Network, second: Network)
    requires WellFormed(s)
    ensures var once := Provisioned(s, version, manifest, first);
      WellFormed(once) && version in once.names
      && Provisioned(once, version, manifest, second) == once
      && ProvisionSucceeds(once, version, manifest, second)
  {
    if version !in s.names && AllFetched(first, manifest) && Distinct(manifest) {
      ProvisionedSuccessShape(s, version, manifest, first);
    }
  }

  /**
   * The consequence of opening the store before `addAll`: once a run has
   * failed, every later run with the same version skips population and
   * reports success, so the manifest is never cached and the stale stores
   * are never deleted, however good the network becomes.
   */
  lemma FailedProvisionIsSticky(s: Snapshot, version: string, manifest: seq<Url>, bad: Network, good: Network)
    requires WellFormed(s) && version !in s.names
    requires !(AllFetched(bad, manifest) && Distinct(manifest))
    ensures var once := Provisioned(s, version, manifest, bad);
      var twice := Provisioned(once, version, manifest, good);
      twice == once && ProvisionSucceeds(once, version, manifest, good)
      && twice.caches[version] == map[]
      && forall n :: n in s.names ==> n in twice.names && twice.caches[n] == s.caches[n]
  {
    ProvisionedFailureKeepsStores(s, version, manifest, bad);
  }

  /** A network that serves every manifest URL with status 200. */
  function FullNetwork(): (network: Network)
    ensures AllFetched(network, RESSOURCES)
  {
    map u | u in RESSOURCES :: Response(200, u)
  }

  /**
   * A concrete run of the failure: a client holding version "2.0" installs
   * "3.0" while offline, then again once online. As written, the page keeps
   * receiving the "2.0" copy of ./index.html; with the rollback it receives
   * the fresh one.
   */
  lemma StaleGenerationSurvivesRetry()
    ensures var old2 := Snapshot(["2.0"], map["2.0" := map["./index.html" := Response(200, "index 2.0")]]);
      var request := Request("GET", "./index.html");
      var asWritten := Provisioned(Provisioned(old2, VERSION, RESSOURCES, map[]), VERSION, RESSOURCES, FullNetwork());
      var corrected := ProvisionedWithRollback(ProvisionedWithRollback(old2, VERSION, RESSOURCES, map[]), VERSION, RESSOURCES, FullNetwork());
      WellFormed(asWritten) && WellFormed(corrected)
      && Match(asWritten, request) == Some(Response(200, "index 2.0"))
      && Match(corrected, request) == Some(Response(200, "./index.html"))
  {
    var old2 := Snapshot(["2.0"], map["2.0" := map["./index.html" := Response(200, "index 2.0")]]);
    var request := Request("GET", "./index.html");
    var offline: Network := map[];
    assert "./" in RESSOURCES && "./" !in offline;
    assert !AllFetched(map[], RESSOURCES);
    FailedProvisionIsSticky(old2, VERSION, RESSOURCES, map[], FullNetwork());
    FailedProvisionMatchesAsBefore(old2, VERSION, RESSOURCES, map[], request);
    ManifestIsDistinct();
    RollbackFailureRestores(old2, VERSION, RESSOURCES, map[]);
    ProvisionedCachesManifest(old2, VERSION, RESSOURCES, FullNetwork());
    ProvisionedSuccessShape(old2, VERSION, RESSOURCES, FullNetwork());
    assert "./index.html" in RESSOURCES;
  }

  /** The corrected run: a rejected `addAll` leaves the Cache Storage exactly as it found it. */
  lemma RollbackFailureRestores(s: Snapshot, version: string, manifest: seq<Url>, network: Network)
    requires WellFormed(s) && version !in s.names
    requires !(AllFetched(network, manifest) && Distinct(manifest))
    ensures ProvisionedWithRollback(s, version, manifest, network) == s
  {
    RemoveLast(s.names, version);
    assert s.caches[version := map[]] - {version} == s.caches;
  }

  /**
   * The corrected run: after a failure, the next install behaves as if the
   * failure had never happened, so once the network serves the manifest the
   * store is populated and the stale stores are deleted.
   */
  lemma RollbackRetrySucceeds(s: Snapshot, version: string, manifest: seq<Url>, bad: Network, good: Network)
    requires WellFormed(s) && version !in s.names
    requires !(AllFetched(bad, manifest) && Distinct(manifest))
    ensures var twice := ProvisionedWithRollback(ProvisionedWithRollback(s, version, manifest, bad), version, manifest, good);
      twice == ProvisionedWithRollback(s, version, manifest, good)
      && (AllFetched(good, manifest) && Distinct(manifest) ==> twice.names == [version])
  {
    RollbackFailureRestores(s, version, manifest, bad);
    if AllFetched(good, manifest) && Distinct(manifest) {
      ProvisionedSuccessShape(s, version, manifest, good);
    }
  }

  /** No URL appears twice in the manifest, so `addAll` fails only on a fetch. */
  lemma ManifestIsDistinct()
    ensures Distinct(RESSOURCES)
  {
  }

  /******************************************************************************/
  /* The Cache Storage as state                                                 */
  /******************************************************************************/

  /** The origin's `caches` object, which `caching()` changes store by store. */
  class CacheStorage {
    var names: seq<string>
    var caches: map<string, Cache>

    function State(): Snapshot
      reads this
    {
      Snapshot(names, caches)
    }

    ghost predicate Valid()
      reads this
    {
      WellFormed(State())
    }

    constructor Empty()
      ensures Valid() && State() == Snapshot([], map[])
    {
      names, caches := [], map[];
    }

    /** `caches.keys()` */
    method Keys() returns (keys: seq<string>)
      ensures keys == names
    {
      keys := names;
    }

    /** `caches.open(name)` */
    method Open(name: string)
      requires Valid()
      modifies this
      ensures Valid()
      ensures State() == Opened(old(State()), name)
    {
      if name !in caches {
        names, caches := names + [name], caches[name := map[]];
      }
    }

    /** `cache.addAll(urls)` on the store `name`; `ok` is false when the promise rejects. */
    method AddAll(name: string, urls: seq<Url>, network: Network) returns (ok: bool)
      requires Valid() && name in caches
      modifies this
      ensures Valid()
      ensures ok <==> AllFetched(network, urls) && Distinct(urls)
      ensures State() == if ok then AddedAll(old(State()), name, urls, network).value else old(State())
    {
      var added := AddedAll(State(), name, urls, network);
      ok := added.Some?;
      if ok {
        caches := added.value.caches;
      }
    }

    /** `caches.delete(name)`; `found` is the promise's boolean. */
    method Delete(name: string) returns (found: bool)
      requires Valid()
      modifies this
      ensures Valid()
      ensures found == (name in old(caches))
      ensures State() == Deleted(old(State()), name)
    {
      found := name in caches;
      names, caches := Remove(names, name), caches - {name};
    }
  }

  /** The loop of `caching()`: delete every snapshotted store whose name is not `VERSION`. */
  method DeleteOldVersions(storage: CacheStorage, keys: seq<string>)
    requires storage.Valid()
    modifies storage
    ensures storage.Valid()
    ensures storage.State() == DeleteStale(old(storage.State()), keys, VERSION)
  {
    ghost var start := storage.State();
    for i := 0 to |keys|
      invariant storage.Valid()
      invariant storage.State() == DeleteStale(start, keys[..i], VERSION)
    {
      assert keys[..i + 1][..i] == keys[..i];
      if keys[i] != VERSION {
        var _ := storage.Delete(keys[i]);
      }
    }
    assert keys[..|keys|] == keys;
  }

  /** `caching()` as written; `ok` is false when its promise rejects, which fails the install. */
  method Caching(storage: CacheStorage, network: Network) returns (ok: bool)
    requires storage.Valid()
    modifies storage
    ensures storage.Valid()
    ensures storage.State() == Provisioned(old(storage.State()), VERSION, RESSOURCES, network)
    ensures ok == ProvisionSucceeds(old(storage.State()), VERSION, RESSOURCES, network)
  {
    var keys := storage.Keys();
    if VERSION !in keys {
      storage.Open(VERSION);
      var added := storage.AddAll(VERSION, RESSOURCES, network);
      if !added {
        return false;
      }
      DeleteOldVersions(storage, keys);
    }
    ok := true;
  }

  /** `caching()` corrected: a rejected `addAll` deletes the store it opened. */
  method CachingWithRollback(storage: CacheStorage, network: Network) returns (ok: bool)
    requires storage.Valid()
    modifies storage
    ensures storage.Valid()
    ensures storage.State() == ProvisionedWithRollback(old(storage.State()), VERSION, RESSOURCES, network)
    ensures ok == ProvisionSucceeds(old(storage.State()), VERSION, RESSOURCES, network)
  {
    var keys := storage.Keys();
    if VERSION !in keys {
      storage.Open(VERSION);
      var added := storage.AddAll(VERSION, RESSOURCES, network);
      if !added {
        var _ := storage.Delete(VERSION);
        return false;
      }
      DeleteOldVersions(storage, keys);
    }
    ok := true;
  }

  /******************************************************************************/
  /* Fetch                                                                      */
  /******************************************************************************/

  /** Where the answer to an intercepted request came from. */
  datatype Served = FromCache(response: Response) | FromNetwork(result: Result<Response>)

  /** `fetch(request)`: resolves with any status the server sends; rejects on a network error. */
  function Fetch(network: Network, request: Request): Result<Response> {
    if request.url in network then Success(network[request.url]) else Failure
  }

  /**
   * `getResponse(request)`: a stored entry is returned without touching the
   * network; otherwise the network's answer is passed on as it is. Nothing
   * is written back, as the function reads the storage and changes nothing.
   */
  function GetResponse(storage: CacheStorage, request: Request, network: Network): (r: Served)
    reads storage
    requires storage.Valid()
    ensures r.FromCache? <==> request.verb == "GET" && exists n :: n in storage.names && request.url in storage.caches[n]
    ensures r.FromCache? ==> exists i :: 0 <= i < |storage.names| && request.url in storage.caches[storage.names[i]]
                                         && r.response == storage.caches[storage.names[i]][request.url]
                                         && forall j :: 0 <= j < i ==> request.url !in storage.caches[storage.names[j]]
    ensures r.FromNetwork? ==> r.result == Fetch(network, request)
  {
    MatchInFirstHit(storage.names, storage.caches, request.url);
    match Match(storage.State(), request)
    case Some(response) => FromCache(response)
    case None => FromNetwork(Fetch(network, request))
  }
}
