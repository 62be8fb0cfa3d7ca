/**
 * The home page: the position session that feeds the map, the one-shot
 * weather panel with its `localStorage` fallback, and the fall-detection SOS.
 *
 * Each handler of the page is one sequential step. The pure functions on
 * `World` (the page's module-level variables plus `localStorage`) say what a
 * step does; the class `Session` performs the same steps on mutable fields
 * and is proved to agree with them. A fetch is a `Result` input, the clock
 * hour is an input, and the user's answers are inputs.
 */
module App {
  import opened Wrappers
  import opened Sequences
  import opened Browser

  /******************************************************************************/
  /* Page state                                                                 */
  /******************************************************************************/

  /** The Leaflet map: not created yet, or created with its marker on `center`. */
  datatype MapView = NoMap | MapAt(center: Coord)

  /** What `#status-map` says. */
  datatype MapStatus = Idle | Searching | Unsupported | Tracking | OfflineCache | NoPosition

  /**
   * The weather panel: current temperature, rain probability at the current
   * hour (`None` when the hourly array has no such entry and the page shows
   * "undefined"), the day's range, and whether the "(Mode Hors Ligne)" note
   * follows it.
   */
  datatype WeatherView = WeatherView(temperature: int, rain: Option<int>, dayMin: int, dayMax: int, offline: bool)

  /** The body of the SOS text: the fresh GPS fix, or the "unavailable" sentence. */
  datatype SmsBody = AtPosition(lat: real, lon: real) | PositionUnknown

  /** The `sms:` link the page navigates to: number as typed, query separator, message body. */
  datatype SmsLink = SmsLink(numero: string, separator: string, body: SmsBody)

  /** The module-level variables of the page and the parts of the DOM the handlers decide. */
  datatype Page = Page(
    latitude: Option<real>,
    longitude: Option<real>,
    watching: bool,               // watchPosition is running
    status: MapStatus,
    mapView: MapView,
    mapCreations: nat,            // calls of L.map so far
    meteoChargee: bool,
    weatherRequests: seq<ForecastQuery>,
    weather: Option<WeatherView>,
    surveillanceActive: bool,
    motionListener: bool,         // the devicemotion listener is attached
    sosButtonShown: bool,
    alerte: bool,                 // the body carries the "alerte" class
    confirmPending: bool,         // the 500 ms confirmation timer is armed
    sms: Option<SmsLink>)

  /** The page as loaded, before the load event. */
  const START := Page(None, None, false, Idle, NoMap, 0, false, [], None, false, false, true, false, false, None)

  datatype World = World(page: Page, store: Storage)

  /******************************************************************************/
  /* Position persistence                                                       */
  /******************************************************************************/

  /** `saveLocation(lat, lon)`: overwrite "lastKnownLocation", leave every other key. */
  function SavedLocation(st: Storage, at: Coord): (r: Storage)
    ensures r.lastKnownLocation == Some(at)
    ensures r.(lastKnownLocation := st.lastKnownLocation) == st
  {
    st.(lastKnownLocation := Some(at))
  }

  /** `getCachedLocation()`: the stored position, or null when the key was never written. */
  function CachedLocation(st: Storage): Option<Coord> {
    st.lastKnownLocation
  }

  /** Saving then reading gives back the same pair; an empty storage gives null. */
  lemma LocationRoundTrip(st: Storage, lat: real, lon: real)
    ensures CachedLocation(SavedLocation(st, Coord(lat, lon))) == Some(Coord(lat, lon))
    ensures CachedLocation(EMPTY_STORAGE) == None
  {
  }

  /******************************************************************************/
  /* Weather panel                                                              */
  /******************************************************************************/

  /** The query `get_weather` sends: current weather, two hourly series, one day. */
  function WeatherQuery(at: Coord): ForecastQuery {
    ForecastQuery(at, true, ["temperature_2m", "precipitation_probability"], 1, false)
  }

  const MIN_START := 100
  const MAX_START := -100

  /** `temp_min` after the loop: 100 lowered by every smaller hourly temperature. */
  function DayMin(temps: seq<int>): (lo: int)
    ensures lo <= MIN_START
    ensures forall i :: 0 <= i < |temps| ==> lo <= temps[i]
    ensures lo == MIN_START || exists i :: 0 <= i < |temps| && temps[i] == lo
    decreases |temps|
  {
    if temps == [] then MIN_START
    else
      var lo := DayMin(temps[..|temps| - 1]);
      var t := temps[|temps| - 1];
      assert forall i :: 0 <= i < |temps| - 1 ==> temps[..|temps| - 1][i] == temps[i];
      if t < lo then t else lo
  }

  /** `temp_max` after the loop: -100 raised by every larger hourly temperature. */
  function DayMax(temps: seq<int>): (hi: int)
    ensures hi >= MAX_START
    ensures forall i :: 0 <= i < |temps| ==> temps[i] <= hi
    ensures hi == MAX_START || exists i :: 0 <= i < |temps| && temps[i] == hi
    decreases |temps|
  {
    if temps == [] then MAX_START
    else
      var hi := DayMax(temps[..|temps| - 1]);
      var t := temps[|temps| - 1];
      assert forall i :: 0 <= i < |temps| - 1 ==> temps[..|temps| - 1][i] == temps[i];
      if t > hi then t else hi
  }

  /** The min/max loop of `afficherMeteo`. */
  method DayRange(temps: seq<int>) returns (lo: int, hi: int)
    ensures lo == DayMin(temps) && hi == DayMax(temps)
  {
    lo, hi := MIN_START, MAX_START;
    for i := 0 to |temps|
      invariant lo == DayMin(temps[..i]) && hi == DayMax(temps[..i])
    {
      assert temps[..i + 1][..i] == temps[..i];
      if temps[i] < lo { lo := temps[i]; }
      if temps[i] > hi { hi := temps[i]; }
    }
    assert temps[..|temps|] == temps;
  }


  /** What `afficherMeteo(d)` puts on the panel at the given hour. */
  function Shown(d: SimpleForecast, hour: nat, offline: bool): WeatherView {
    WeatherView(d.temperature, At(d.hourlyRain, hour), DayMin(d.hourlyTemperature), DayMax(d.hourlyTemperature), offline)
  }

  /**
   * `get_weather(lat, lon)` once its fetch has settled: a payload is stored
   * and shown; a failure shows the stored payload with the offline note, or
   * leaves the panel as it was when nothing is stored.
   */
  function WeatherFetched(w: World, at: Coord, reply: Result<SimpleForecast>, hour: nat): (r: World)
    ensures r.page == w.page.(weatherRequests := w.page.weatherRequests + [WeatherQuery(at)], weather := r.page.weather)
    ensures r.store == w.store.(meteoCacheSimple := r.store.meteoCacheSimple)
  {
    var p := w.page.(weatherRequests := w.page.weatherRequests + [WeatherQuery(at)]);
    match reply
    case Success(d) => World(p.(weather := Some(Shown(d, hour, false))), w.store.(meteoCacheSimple := Some(d)))
    case Failure =>
      match w.store.meteoCacheSimple
      case Some(cached) => World(p.(weather := Some(Shown(cached, hour, true))), w.store)
      case None => World(p, w.store)
  }

  /** On success the payload is cached exactly, and the panel shows it without the offline note. */
  lemma WeatherSuccessIsCached(w: World, at: Coord, d: SimpleForecast, hour: nat)
    ensures var r := WeatherFetched(w, at, Success(d), hour);
      r.store.meteoCacheSimple == Some(d) && r.page.weather == Some(Shown(d, hour, false))
      && r.store.lastKnownLocation == w.store.lastKnownLocation
  {
  }

  /** On failure the storage is untouched; a stored payload is replayed with the offline note. */
  lemma WeatherFailureReplaysCache(w: World, at: Coord, hour: nat)
    ensures var r := WeatherFetched(w, at, Failure, hour);
      r.store == w.store
      && (w.store.meteoCacheSimple.Some? ==> r.page.weather == Some(Shown(w.store.meteoCacheSimple.value, hour, true)))
      && (w.store.meteoCacheSimple.None? ==> r.page.weather == w.page.weather)
  {
  }

  /******************************************************************************/
  /* Position session                                                           */
  /******************************************************************************/

  /** `updateMapDisplay(lat, lon)`: create the map the first time, afterwards only move it. */
  function MapShown(p: Page, at: Coord): (r: Page)
    ensures r.mapView == MapAt(at)
    ensures r.mapCreations == if p.mapView.NoMap? then p.mapCreations + 1 else p.mapCreations
    ensures r.(mapView := p.mapView, mapCreations := p.mapCreations) == p
  {
    if p.mapView.NoMap? then p.(mapView := MapAt(at), mapCreations := p.mapCreations + 1)
    else p.(mapView := MapAt(at))
  }

  /** The `if (!meteoChargee)` latch: fetch the weather for `at` only the first time. */
  function WeatherOnce(w: World, at: Coord, reply: Result<SimpleForecast>, hour: nat): (r: World)
    ensures w.page.meteoChargee ==> r == w
    ensures !w.page.meteoChargee ==> r.page.meteoChargee && r.page.weatherRequests == w.page.weatherRequests + [WeatherQuery(at)]
    ensures r.page == w.page.(meteoChargee := r.page.meteoChargee, weatherRequests := r.page.weatherRequests, weather := r.page.weather)
    ensures r.store == w.store.(meteoCacheSimple := r.store.meteoCacheSimple)
  {
    if w.page.meteoChargee then w
    else
      var f := WeatherFetched(w, at, reply, hour);
      World(f.page.(meteoChargee := true), f.store)
  }

  /** `initGeolocation()`: start watching, or report that the host has no geolocation. */
  function GeolocationStarted(p: Page, supported: bool): (r: Page)
    ensures r.watching <==> p.watching || supported
    ensures r.status == if supported then Searching else Unsupported
    ensures r.(status := p.status, watching := p.watching) == p
  {
    if supported then p.(status := Searching, watching := true) else p.(status := Unsupported)
  }

  /** `onPositionUpdate(position)`: adopt and persist the fix, move the map, latch the weather. */
  function PositionUpdated(w: World, fix: Coord, reply: Result<SimpleForecast>, hour: nat): (r: World)
    ensures r.page.latitude == Some(fix.lat) && r.page.longitude == Some(fix.lon)
    ensures r.store.lastKnownLocation == Some(fix)
    ensures r.page.status == Tracking && r.page.mapView == MapAt(fix)
    ensures r.page.watching == w.page.watching
    ensures !w.page.meteoChargee ==> r.page.meteoChargee && r.page.weatherRequests == w.page.weatherRequests + [WeatherQuery(fix)]
    ensures w.page.meteoChargee ==> r.page.meteoChargee && r.page.weatherRequests == w.page.weatherRequests
  {
    var p := w.page.(latitude := Some(fix.lat), longitude := Some(fix.lon));
    var st := SavedLocation(w.store, fix);
    WeatherOnce(World(MapShown(p.(status := Tracking), fix), st), fix, reply, hour)
  }

  /**
   * `onPositionError(error)`: only while no fix has been seen, show the stored
   * position (without adopting it) and latch the weather on it.
   */
  function PositionFailed(w: World, reply: Result<SimpleForecast>, hour: nat): (r: World)
    ensures w.page.latitude.Some? ==> r == w
    ensures w.page.latitude.None? && w.store.lastKnownLocation.None? ==> r == World(w.page.(status := NoPosition), w.store)
    ensures w.page.latitude.None? && w.store.lastKnownLocation.Some? ==>
      r.page.status == OfflineCache && r.page.mapView == MapAt(w.store.lastKnownLocation.value)
    ensures w.page.latitude.None? && w.store.lastKnownLocation.Some? && !w.page.meteoChargee ==>
      r.page.meteoChargee && r.page.weatherRequests == w.page.weatherRequests + [WeatherQuery(w.store.lastKnownLocation.value)]
    ensures w.page.meteoChargee ==> r.page.meteoChargee && r.page.weatherRequests == w.page.weatherRequests
  {
    if w.page.latitude.Some? then w
    else
      match CachedLocation(w.store)
      case None => World(w.page.(status := NoPosition), w.store)
      case Some(c) => CachedFallback(w, c, reply, hour)
  }

  /** The cached branch of `onPositionError`: show `c` without adopting it, and latch the weather on it. */
  function CachedFallback(w: World, c: Coord, reply: Result<SimpleForecast>, hour: nat): (r: World)
    ensures r.page.status == OfflineCache && r.page.mapView == MapAt(c)
    ensures r.page.latitude == w.page.latitude && r.page.longitude == w.page.longitude && r.page.watching == w.page.watching
    ensures r.store.lastKnownLocation == w.store.lastKnownLocation
    ensures !w.page.meteoChargee ==> r.page.meteoChargee && r.page.weatherRequests == w.page.weatherRequests + [WeatherQuery(c)]
    ensures w.page.meteoChargee ==> r.page.meteoChargee && r.page.weatherRequests == w.page.weatherRequests
  {
    WeatherOnce(World(MapShown(w.page.(status := OfflineCache), c), w.store), c, reply, hour)
  }

  /** What `watchPosition` delivers: a fix or an error, with the outcome of the weather fetch it may start. */
  datatype GeoEvent = Fix(at: Coord, reply: Result<SimpleForecast>, hour: nat) | Lost(reply: Result<SimpleForecast>, hour: nat)

  /** One callback of `watchPosition`; nothing is delivered when it was never started. */
  function GeoStep(w: World, e: GeoEvent): World {
    if !w.page.watching then w
    else
      match e
      case Fix(at, reply, hour) => PositionUpdated(w, at, reply, hour)
      case Lost(reply, hour) => PositionFailed(w, reply, hour)
  }

  function GeoRun(w: World, events: seq<GeoEvent>): World
    decreases |events|
  {
    if events == [] then w else GeoRun(GeoStep(w, events[0]), events[1..])
  }

  /** A fix is adopted, persisted exactly, and puts the map on it. */
  lemma FixIsAdoptedAndPersisted(w: World, at: Coord, reply: Result<SimpleForecast>, hour: nat)
    requires w.page.watching
    ensures var r := GeoStep(w, Fix(at, reply, hour));
      r.page.latitude == Some(at.lat) && r.page.longitude == Some(at.lon)
      && r.store.lastKnownLocation == Some(at) && r.page.mapView == MapAt(at)
  {
  }

  /** An error never assigns the position, and once a fix exists it changes nothing at all. */
  lemma LostKeepsPosition(w: World, reply: Result<SimpleForecast>, hour: nat)
    ensures GeoStep(w, Lost(reply, hour)).page.latitude == w.page.latitude
    ensures GeoStep(w, Lost(reply, hour)).page.longitude == w.page.longitude
    ensures GeoStep(w, Lost(reply, hour)).store.lastKnownLocation == w.store.lastKnownLocation
    ensures w.page.latitude.Some? ==> GeoStep(w, Lost(reply, hour)) == w
  {
  }

  /** The weather latch: at most one request, and `meteoChargee` exactly when it was made. */
  ghost predicate Latched(p: Page) {
    |p.weatherRequests| <= 1 && (p.meteoChargee <==> |p.weatherRequests| == 1)
  }

  /** The map is created at most once, and exists exactly when it was created. */
  ghost predicate MapOnce(p: Page) {
    p.mapCreations <= 1 && (p.mapCreations == 1 <==> p.mapView.MapAt?)
  }

  /** The latch step itself: fetch at most once, touch neither the map nor the watch. */
  lemma WeatherOnceKeepsLatch(w: World, at: Coord, reply: Result<SimpleForecast>, hour: nat)
    requires Latched(w.page)
    ensures Latched(WeatherOnce(w, at, reply, hour).page)
    ensures WeatherOnce(w, at, reply, hour).page.mapView == w.page.mapView
    ensures WeatherOnce(w, at, reply, hour).page.mapCreations == w.page.mapCreations
    ensures WeatherOnce(w, at, reply, hour).page.watching == w.page.watching
  {
  }

  lemma FixKeepsLatchAndMap(w: World, at: Coord, reply: Result<SimpleForecast>, hour: nat)
    requires Latched(w.page) && MapOnce(w.page)
    ensures Latched(PositionUpdated(w, at, reply, hour).page) && MapOnce(PositionUpdated(w, at, reply, hour).page)
    ensures PositionUpdated(w, at, reply, hour).page.watching == w.page.watching
  {
    var p := w.page.(latitude := Some(at.lat), longitude := Some(at.lon));
    var shown := World(MapShown(p.(status := Tracking), at), SavedLocation(w.store, at));
    WeatherOnceKeepsLatch(shown, at, reply, hour);
  }

  lemma LostKeepsLatchAndMap(w: World, reply: Result<SimpleForecast>, hour: nat)
    requires Latched(w.page) && MapOnce(w.page)
    ensures Latched(PositionFailed(w, reply, hour).page) && MapOnce(PositionFailed(w, reply, hour).page)
    ensures PositionFailed(w, reply, hour).page.watching == w.page.watching
  {
    if w.page.latitude.None? && CachedLocation(w.store).Some? {
      var c := CachedLocation(w.store).value;
      var shown := World(MapShown(w.page.(status := OfflineCache), c), w.store);
      WeatherOnceKeepsLatch(shown, c, reply, hour);
    }
  }

  lemma GeoStepKeepsLatchAndMap(w: World, e: GeoEvent)
    requires Latched(w.page) && MapOnce(w.page)
    ensures Latched(GeoStep(w, e).page) && MapOnce(GeoStep(w, e).page)
    ensures GeoStep(w, e).page.watching == w.page.watching
    ensures w.page.meteoChargee ==> GeoStep(w, e).page.weatherRequests == w.page.weatherRequests
  {
    if w.page.watching {
      match e
      case Fix(at, reply, hour) => FixKeepsLatchAndMap(w, at, reply, hour);
      case Lost(reply, hour) => LostKeepsLatchAndMap(w, reply, hour);
    }
  }

  /**
   * Over any mix of fixes and errors the weather is requested at most once
   * and the map created at most once; once requested, `meteoChargee` stays
   * true and no further request is made.
   */
  lemma {:induction false} WeatherAndMapAtMostOnce(w: World, events: seq<GeoEvent>)
    requires Latched(w.page) && MapOnce(w.page)
    ensures var r := GeoRun(w, events);
      Latched(r.page) && MapOnce(r.page)
      && (w.page.meteoChargee ==> r.page.meteoChargee && r.page.weatherRequests == w.page.weatherRequests)
    decreases |events|
  {
    if events != [] {
      GeoStepKeepsLatchAndMap(w, events[0]);
      WeatherAndMapAtMostOnce(GeoStep(w, events[0]), events[1..]);
    }
  }

  /** Once the latch is set, no callback requests the weather again. */
  lemma {:induction false} LatchedRunSendsNothing(w: World, events: seq<GeoEvent>)
    requires w.page.meteoChargee
    ensures GeoRun(w, events).page.meteoChargee
    ensures GeoRun(w, events).page.weatherRequests == w.page.weatherRequests
    decreases |events|
  {
    if events != [] {
      LatchedRunSendsNothing(GeoStep(w, events[0]), events[1..]);
    }
  }

  /** The first fix of an unlatched session requests the weather for its coordinates, and nothing after it does. */
  lemma FirstFixFetchesOnce(w: World, at: Coord, reply: Result<SimpleForecast>, hour: nat, rest: seq<GeoEvent>)
    requires w.page.watching && !w.page.meteoChargee
    ensures GeoRun(w, [Fix(at, reply, hour)] + rest).page.weatherRequests == w.page.weatherRequests + [WeatherQuery(at)]
  {
    var events := [Fix(at, reply, hour)] + rest;
    assert events[0] == Fix(at, reply, hour) && events[1..] == rest;
    LatchedRunSendsNothing(GeoStep(w, events[0]), rest);
  }

  /**
   * An error before any fix, with a stored location, requests the weather for
   * that location, and nothing after it does.
   */
  lemma CachedFallbackFetchesOnce(w: World, reply: Result<SimpleForecast>, hour: nat, rest: seq<GeoEvent>)
    requires w.page.watching && !w.page.meteoChargee
    requires w.page.latitude.None? && w.store.lastKnownLocation.Some?
    ensures GeoRun(w, [Lost(reply, hour)] + rest).page.weatherRequests
            == w.page.weatherRequests + [WeatherQuery(w.store.lastKnownLocation.value)]
  {
    var events := [Lost(reply, hour)] + rest;
    assert events[0] == Lost(reply, hour) && events[1..] == rest;
    LatchedRunSendsNothing(GeoStep(w, events[0]), rest);
  }

  /** The last fix among the events, if any. */
  function LastFix(events: seq<GeoEvent>): (c: Option<Coord>)
    ensures c.Some? <==> exists i :: 0 <= i < |events| && events[i].Fix?
    ensures c.Some? ==> exists i :: 0 <= i < |events| && events[i] == Fix(c.value, events[i].reply, events[i].hour)
                                   && forall j :: i < j < |events| ==> !events[j].Fix?
    decreases |events|
  {
    if events == [] then None
    else
      var last := events[|events| - 1];
      var earlier := events[..|events| - 1];
      assert forall i :: 0 <= i < |earlier| ==> earlier[i] == events[i];
      if last.Fix? then
        assert events[|events| - 1] == Fix(last.at, last.reply, last.hour);
        Some(last.at)
      else
        LastFix(earlier)
  }

  /**
   * The page's position is always the latest fix of the session: the stored
   * location shown after an error is never adopted, so the SOS cannot report
   * a stale position.
   */
  lemma {:induction false} PositionIsLatestFix(w: World, events: seq<GeoEvent>)
    requires w.page.watching
    ensures var r := GeoRun(w, events);
      match LastFix(events)
      case Some(c) => r.page.latitude == Some(c.lat) && r.page.longitude == Some(c.lon)
      case None => r.page.latitude == w.page.latitude && r.page.longitude == w.page.longitude
    decreases |events|
  {
    if events != [] {
      var last := events[|events| - 1];
      var earlier := events[..|events| - 1];
      PositionIsLatestFix(w, earlier);
      GeoRunAppend(w, earlier, last);
      assert earlier + [last] == events;
      var before := GeoRun(w, earlier);
      GeoRunKeepsWatching(w, earlier);
      match last
      case Fix(at, reply, hour) =>
        FixIsAdoptedAndPersisted(before, at, reply, hour);
      case Lost(reply, hour) =>
        LostKeepsPosition(before, reply, hour);
        assert LastFix(events) == LastFix(earlier);
    }
  }

  lemma {:induction false} GeoRunKeepsWatching(w: World, events: seq<GeoEvent>)
    requires w.page.watching
    ensures GeoRun(w, events).page.watching
    decreases |events|
  {
    if events != [] {
      GeoStepKeepsWatching(w, events[0]);
      GeoRunKeepsWatching(GeoStep(w, events[0]), events[1..]);
    }
  }

  lemma GeoStepKeepsWatching(w: World, e: GeoEvent)
    ensures GeoStep(w, e).page.watching == w.page.watching
  {
    if w.page.watching {
      match e
      case Fix(at, reply, hour) => FixKeepsWatching(w, at, reply, hour);
      case Lost(reply, hour) => LostKeepsWatching(w, reply, hour);
    }
  }

  /** A fix leaves the watch running. */
  lemma FixKeepsWatching(w: World, at: Coord, reply: Result<SimpleForecast>, hour: nat)
    requires w.page.watching
    ensures PositionUpdated(w, at, reply, hour).page.watching
  {
    var p := w.page.(latitude := Some(at.lat), longitude := Some(at.lon));
    var shown := World(MapShown(p.(status := Tracking), at), SavedLocation(w.store, at));
    assert shown.page.watching;
  }

  /** An error leaves the watch running. */
  lemma LostKeepsWatching(w: World, reply: Result<SimpleForecast>, hour: nat)
    requires w.page.watching
    ensures PositionFailed(w, reply, hour).page.watching
  {
  }

  lemma {:induction false} GeoRunAppend(w: World, events: seq<GeoEvent>, e: GeoEvent)
    ensures GeoRun(w, events + [e]) == GeoStep(GeoRun(w, events), e)
    decreases |events|
  {
    if events == [] {
      assert [e][1..] == [];
    } else {
      assert (events + [e])[1..] == events[1..] + [e];
      GeoRunAppend(GeoStep(w, events[0]), events[1..], e);
    }
  }

  /******************************************************************************/
  /* SOS                                                                        */
  /******************************************************************************/

  /** The characters the `\s` class of a JavaScript regular expression matches. */
  predicate IsJsSpace(c: char) {
    c == '\t' || c == '\n' || c == '\U{B}' || c == '\U{C}' || c == '\r' || c == ' '
    || c == '\U{A0}' || c == '\U{1680}' || ('\U{2000}' <= c <= '\U{200A}')
    || c == '\U{2028}' || c == '\U{2029}' || c == '\U{202F}' || c == '\U{205F}' || c == '\U{3000}' || c == '\U{FEFF}'
  }

  /** `value.replace(/\s/g, '')`: the input without its whitespace, in order. */
  function Stripped(s: string): (r: string)
    ensures forall c :: c in r <==> c in s && !IsJsSpace(c)
    ensures forall c :: multiset(r)[c] == if IsJsSpace(c) then 0 else multiset(s)[c]
    ensures IsSubsequence(r, s)
  {
    var keep := (c: char) => !IsJsSpace(c);
    FilterMembers(s, keep);
    FilterCounts(s, keep);
    FilterIsSubsequence(s, keep);
    Filter(s, keep)
  }

  /** A character outside the Basic Multilingual Plane, which UTF-16 writes as a surrogate pair. */
  predicate IsAstral(c: char) {
    c as int > 0xFFFF
  }

  /** `.length` of a JavaScript string: characters outside the BMP take two code units. */
  function Utf16Length(s: string): (n: nat)
    ensures n == |s| + |Filter(s, IsAstral)|
    ensures |s| <= n <= 2 * |s|
  {
    if s == [] then 0 else (if IsAstral(s[0]) then 2 else 1) + Utf16Length(s[1..])
  }

  const MIN_NUMBER_LENGTH := 10

  /** Whether the typed number is long enough to arm the SOS. */
  predicate NumberAccepted(input: string) {
    Utf16Length(Stripped(input)) >= MIN_NUMBER_LENGTH
  }

  /**
   * The motion-permission step of `demarrerSystemeSOS`: the host has no
   * `DeviceMotionEvent.requestPermission`, or its promise resolved "granted",
   * resolved to another state, or rejected.
   */
  datatype Permission = NoPermissionApi | Granted | Refused | RequestFailed

  /** `lancerEcouteurMouvement()`: attach the motion listener, arm, hide the button. */
  function Listening(p: Page): (r: Page)
    ensures r.motionListener && r.surveillanceActive && !r.sosButtonShown
    ensures r.(motionListener := p.motionListener, surveillanceActive := p.surveillanceActive, sosButtonShown := p.sosButtonShown) == p
  {
    p.(motionListener := true, surveillanceActive := true, sosButtonShown := false)
  }

  /** `demarrerSystemeSOS()` on the typed input and the permission outcome. */
  function SosStarted(p: Page, input: string, permission: Permission): (r: Page)
    ensures !NumberAccepted(input) ==> r == p
    ensures r.surveillanceActive <==> p.surveillanceActive || (NumberAccepted(input) && permission in {NoPermissionApi, Granted})
    ensures NumberAccepted(input) && permission in {NoPermissionApi, Granted} ==> r == Listening(p)
    ensures permission !in {NoPermissionApi, Granted} ==> r == p
  {
    if !NumberAccepted(input) then p
    else if permission == NoPermissionApi || permission == Granted then Listening(p)
    else p
  }

  /** `declencherAlerteChute()`: disarm, show the alert, arm the confirmation timer. */
  function AlertRaised(p: Page): (r: Page)
    ensures !r.surveillanceActive && r.alerte && r.confirmPending
    ensures r.(surveillanceActive := p.surveillanceActive, alerte := p.alerte, confirmPending := p.confirmPending) == p
  {
    p.(surveillanceActive := false, alerte := true, confirmPending := true)
  }

  /** `analyserDonneesAccelerometre(event)`: only an armed session with a reading over the threshold alerts. */
  function MotionAnalysed(p: Page, hasAcceleration: bool, overThreshold: bool): (r: Page)
    ensures r.alerte != p.alerte ==> p.surveillanceActive && hasAcceleration && overThreshold
    ensures !p.surveillanceActive ==> r == p
    ensures p.surveillanceActive && hasAcceleration && overThreshold ==> r == AlertRaised(p)
    ensures p.surveillanceActive && !(hasAcceleration && overThreshold) ==> r == p
  {
    if !p.surveillanceActive then p
    else if hasAcceleration && overThreshold then AlertRaised(p)
    else p
  }

  const MESSAGE_PREFIX := "URGENCE PWA : Chute détectée ! Ma position : "
  const MAPS_PREFIX := "http://maps.google.com/?q="
  const NO_POSITION := "Position GPS indisponible " + "(Recherche en cours...)"

  /** One character folded: A to Z become a to z, every other character is kept. */
  function Lower(c: char): (d: char)
    ensures 'A' <= c <= 'Z' ==> d as int == c as int + 32
    ensures !('A' <= c <= 'Z') ==> d == c
    ensures !('A' <= d <= 'Z')
  {
    if 'A' <= c <= 'Z' then (c as int + 32) as char else c
  }

  /** ASCII lower case, which is how `/…/i` compares letters of an ASCII pattern. */
  function FoldCase(s: string): (r: string)
    ensures |r| == |s|
    ensures forall i :: 0 <= i < |s| ==> r[i] == Lower(s[i])
  {
    if s == [] then []
    else
      var r := [Lower(s[0])] + FoldCase(s[1..]);
      assert forall i :: 1 <= i < |s| ==> r[i] == FoldCase(s[1..])[i - 1] && s[i] == s[1..][i - 1];
      r
  }

  /** Folding twice is folding once. */
  lemma FoldCaseIdempotent(s: string)
    ensures FoldCase(FoldCase(s)) == FoldCase(s)
  {
  }

  /** Any spelling of "iPhone" or "iPad", in any case, anywhere in the user agent is recognised. */
  lemma AppleNameDetected(before: string, name: string, after: string)
    requires FoldCase(name) == "iphone" || FoldCase(name) == "ipad"
    ensures IsAppleDevice(before + name + after)
  {
    var ua := before + name + after;
    var i := |before|;
    assert ua[i..i + |name|] == name;
    assert FoldedAt(ua, i, FoldCase(name));
  }

  /** A user agent with no "i" or "I" at all is never taken for an Apple device. */
  lemma NoLetterINotApple(ua: string)
    requires forall i :: 0 <= i < |ua| ==> ua[i] != 'i' && ua[i] != 'I'
    ensures !IsAppleDevice(ua)
  {
    forall i, pattern | pattern in {"iphone", "ipad"} && 0 <= i && i + |pattern| <= |ua|
      ensures !FoldedAt(ua, i, pattern)
    {
      assert ua[i..i + |pattern|][0] == ua[i];
      assert FoldCase(ua[i..i + |pattern|])[0] == Lower(ua[i]) != pattern[0];
    }
  }

  /** `userAgent.match(/iPhone|iPad/i)` finds a match. */
  predicate IsAppleDevice(ua: string) {
    (exists i | 0 <= i <= |ua| :: FoldedAt(ua, i, "iphone")) || (exists i | 0 <= i <= |ua| :: FoldedAt(ua, i, "ipad"))
  }

  /** `pattern` occurs, ignoring ASCII case, at index `i` of `s`. */
  predicate FoldedAt(s: string, i: int, pattern: string) {
    0 <= i && i + |pattern| <= |s| && FoldCase(s[i..i + |pattern|]) == pattern
  }

  /** `preparerEtEnvoyerSMS()`: the link built from the number, the current position and the device. */
  function SmsFor(numero: string, latitude: Option<real>, longitude: Option<real>, ua: string): (s: SmsLink)
    ensures s.numero == numero
    ensures s.body.AtPosition? <==> latitude.Some? && longitude.Some?
    ensures s.body.AtPosition? ==> s.body.lat == latitude.value && s.body.lon == longitude.value
    ensures s.separator == (if IsAppleDevice(ua) then "&" else "?")
  {
    var body := if latitude.Some? && longitude.Some? then AtPosition(latitude.value, longitude.value) else PositionUnknown;
    SmsLink(numero, if IsAppleDevice(ua) then "&" else "?", body)
  }

  /**
   * The message text; `numberText` is JavaScript's conversion of a number to
   * a string. It carries the maps link exactly when the body has a position.
   */
  function MessageText(body: SmsBody, numberText: real -> string): (t: string)
    ensures IsPrefixOf(MESSAGE_PREFIX + MAPS_PREFIX, t) <==> body.AtPosition?
  {
    match body
    case AtPosition(lat, lon) =>
      var t := MESSAGE_PREFIX + (MAPS_PREFIX + numberText(lat) + "," + numberText(lon));
      assert (MESSAGE_PREFIX + MAPS_PREFIX) + (numberText(lat) + "," + numberText(lon)) == t;
      t
    case PositionUnknown =>
      var t := MESSAGE_PREFIX + NO_POSITION;
      assert NO_POSITION[0] == 'P';
      assert MAPS_PREFIX[0] == 'h';
      assert t[|MESSAGE_PREFIX|] == NO_POSITION[0];
      assert (MESSAGE_PREFIX + MAPS_PREFIX)[|MESSAGE_PREFIX|] == MAPS_PREFIX[0];
      t
  }

  predicate IsPrefixOf(prefix: string, s: string) {
    |prefix| <= |s| && s[..|prefix|] == prefix
  }

  /**
   * The confirmation timer of `declencherAlerteChute`: a yes opens the SMS
   * link; a no re-arms the surveillance and clears the alert.
   */
  function AlertAnswered(p: Page, confirmed: bool, numero: string, ua: string): (r: Page)
    requires p.confirmPending
    ensures !r.confirmPending && !r.alerte
    ensures confirmed ==> r.sms == Some(SmsFor(numero, p.latitude, p.longitude, ua)) && r.surveillanceActive == p.surveillanceActive
    ensures !confirmed ==> r.surveillanceActive && r.sms == p.sms
    ensures r.motionListener == p.motionListener && r.sosButtonShown == p.sosButtonShown
    ensures r.latitude == p.latitude && r.longitude == p.longitude
    ensures r.(confirmPending := p.confirmPending, alerte := p.alerte, sms := p.sms, surveillanceActive := p.surveillanceActive) == p
  {
    if confirmed then p.(confirmPending := false, alerte := false, sms := Some(SmsFor(numero, p.latitude, p.longitude, ua)))
    else p.(confirmPending := false, surveillanceActive := true, alerte := false)
  }

  /**
   * The SOS invariant: an armed session has its listener and no button; a
   * pending confirmation is disarmed and alerting; the button is hidden
   * exactly when the listener is attached.
   */
  ghost predicate SosConsistent(p: Page) {
    (p.surveillanceActive ==> p.motionListener)
    && (p.confirmPending ==> !p.surveillanceActive && p.alerte && p.motionListener)
    && (p.motionListener <==> !p.sosButtonShown)
  }

  /** What the user and the sensors do: click the button, move, answer the confirmation. */
  datatype SosEvent = Click(input: string, permission: Permission)
                    | Motion(hasAcceleration: bool, overThreshold: bool)
                    | Answer(confirmed: bool, numero: string, ua: string)

  /** One SOS event; each needs its source (a visible button, an attached listener, an armed timer). */
  function SosStep(p: Page, e: SosEvent): Page {
    match e
    case Click(input, permission) => if p.sosButtonShown then SosStarted(p, input, permission) else p
    case Motion(acc, over) => if p.motionListener then MotionAnalysed(p, acc, over) else p
    case Answer(confirmed, numero, ua) => if p.confirmPending then AlertAnswered(p, confirmed, numero, ua) else p
  }

  lemma SosStepConsistent(p: Page, e: SosEvent)
    requires SosConsistent(p)
    ensures SosConsistent(SosStep(p, e))
  {
  }

  /** While a confirmation is pending, no motion can raise a second alert. */
  lemma NoSecondAlertWhilePending(p: Page, acc: bool, over: bool)
    requires SosConsistent(p) && p.confirmPending
    ensures SosStep(p, Motion(acc, over)) == p
  {
  }

  /** An alert disarms the surveillance; declining it re-arms it and clears the alert, sending nothing. */
  lemma DeclineRestoresSurveillance(p: Page, numero: string, ua: string)
    requires SosConsistent(p) && p.surveillanceActive
    ensures var alerted := SosStep(p, Motion(true, true));
      !alerted.surveillanceActive && alerted.alerte && alerted.confirmPending
      && var declined := SosStep(alerted, Answer(false, numero, ua));
      declined.surveillanceActive && !declined.alerte && declined.sms == p.sms
  {
  }

  /** A number with fewer than ten characters once whitespace is removed leaves the session unarmed. */
  lemma ShortNumberRejected(p: Page, input: string, permission: Permission)
    requires !p.surveillanceActive && Utf16Length(Stripped(input)) < MIN_NUMBER_LENGTH
    ensures SosStep(p, Click(input, permission)) == p
    ensures !SosStep(p, Click(input, permission)).surveillanceActive
  {
  }

  /**
   * A session that never had a fix reports "position unavailable" in its
   * SOS, whatever is stored from earlier sessions.
   */
  lemma {:induction false} NoFixMeansNoPositionInSms(w: World, events: seq<GeoEvent>, numero: string, ua: string)
    requires w.page.watching && w.page.latitude.None?
    requires forall i :: 0 <= i < |events| ==> events[i].Lost?
    ensures var r := GeoRun(w, events);
      SmsFor(numero, r.page.latitude, r.page.longitude, ua).body == PositionUnknown
  {
    PositionIsLatestFix(w, events);
  }

  /******************************************************************************/
  /* The page as mutable state                                                  */
  /******************************************************************************/

  class Session {
    var latitude: Option<real>
    var longitude: Option<real>
    var watching: bool
    var status: MapStatus
    var mapView: MapView
    var mapCreations: nat
    var meteoChargee: bool
    var weatherRequests: seq<ForecastQuery>
    var weather: Option<WeatherView>
    var surveillanceActive: bool
    var motionListener: bool
    var sosButtonShown: bool
    var alerte: bool
    var confirmPending: bool
    var sms: Option<SmsLink>
    const ls: LocalStorage

    function PageState(): Page
      reads this
    {
      Page(latitude, longitude, watching, status, mapView, mapCreations, meteoChargee, weatherRequests, weather,
           surveillanceActive, motionListener, sosButtonShown, alerte, confirmPending, sms)
    }

    function State(): World
      reads this, ls
    {
      World(PageState(), ls.State())
    }

    constructor (storage: LocalStorage)
      ensures ls == storage && PageState() == START
    {
      latitude, longitude, watching, status := None, None, false, Idle;
      mapView, mapCreations, meteoChargee, weatherRequests, weather := NoMap, 0, false, [], None;
      surveillanceActive, motionListener, sosButtonShown, alerte, confirmPending, sms := false, false, true, false, false, None;
      ls := storage;
    }

    method SaveLocation(lat: real, lon: real)
      modifies ls
      ensures State() == World(old(PageState()), SavedLocation(old(ls.State()), Coord(lat, lon)))
    {
      ls.lastKnownLocation := Some(Coord(lat, lon));
    }

    method GetCachedLocation() returns (c: Option<Coord>)
      ensures c == CachedLocation(ls.State())
    {
      c := ls.lastKnownLocation;
    }

    method InitGeolocation(supported: bool)
      modifies this
      ensures State() == World(GeolocationStarted(old(PageState()), supported), old(ls.State()))
    {
      status := Searching;
      if !supported {
        status := Unsupported;
        return;
      }
      watching := true;
    }

    method UpdateMapDisplay(at: Coord)
      modifies this
      ensures State() == World(MapShown(old(PageState()), at), old(ls.State()))
    {
      if mapView == NoMap {
        mapCreations := mapCreations + 1;
      }
      mapView := MapAt(at);
    }

    method AfficherMeteo(d: SimpleForecast, hour: nat)
      modifies this
      ensures State() == World(old(PageState()).(weather := Some(Shown(d, hour, false))), old(ls.State()))
    {
      var rain := if hour < |d.hourlyRain| then Some(d.hourlyRain[hour]) else None;
      var lo, hi := DayRange(d.hourlyTemperature);
      weather := Some(WeatherView(d.temperature, rain, lo, hi, false));
    }

    method GetWeather(at: Coord, reply: Result<SimpleForecast>, hour: nat)
      modifies this, ls
      ensures State() == WeatherFetched(old(State()), at, reply, hour)
    {
      weatherRequests := weatherRequests + [WeatherQuery(at)];
      match reply
      case Success(d) =>
        ls.meteoCacheSimple := Some(d);
        AfficherMeteo(d, hour);
      case Failure =>
        var cached := ls.meteoCacheSimple;
        if cached.Some? {
          AfficherMeteo(cached.value, hour);
          weather := Some(weather.value.(offline := true));
        }
    }

    /** The `if (!meteoChargee)` block both position callbacks end with. */
    method FetchWeatherOnce(at: Coord, reply: Result<SimpleForecast>, hour: nat)
      modifies this, ls
      ensures State() == WeatherOnce(old(State()), at, reply, hour)
    {
      if !meteoChargee {
        GetWeather(at, reply, hour);
        meteoChargee := true;
      }
    }

    /** The first part of `onPositionUpdate`: adopt the fix, persist it, clear the status, move the map. */
    method AdoptFix(fix: Coord)
      modifies this, ls
      ensures State() == World(MapShown(old(PageState()).(latitude := Some(fix.lat), longitude := Some(fix.lon), status := Tracking), fix),
                               SavedLocation(old(ls.State()), fix))
    {
      latitude, longitude := Some(fix.lat), Some(fix.lon);
      SaveLocation(fix.lat, fix.lon);
      status := Tracking;
      UpdateMapDisplay(fix);
    }

    method OnPositionUpdate(fix: Coord, reply: Result<SimpleForecast>, hour: nat)
      modifies this, ls
      ensures State() == PositionUpdated(old(State()), fix, reply, hour)
    {
      AdoptFix(fix);
      FetchWeatherOnce(fix, reply, hour);
    }

    method OnPositionError(reply: Result<SimpleForecast>, hour: nat)
      modifies this, ls
      ensures State() == PositionFailed(old(State()), reply, hour)
    {
      if latitude == None {
        var cached := GetCachedLocation();
        if cached.Some? {
          status := OfflineCache;
          UpdateMapDisplay(cached.value);
          FetchWeatherOnce(cached.value, reply, hour);
        } else {
          status := NoPosition;
        }
      }
    }

    method LancerEcouteurMouvement()
      modifies this
      ensures State() == World(Listening(old(PageState())), old(ls.State()))
    {
      motionListener := true;
      surveillanceActive := true;
      sosButtonShown := false;
    }

    method DemarrerSystemeSos(input: string, permission: Permission)
      requires sosButtonShown
      modifies this
      ensures State() == World(SosStarted(old(PageState()), input, permission), old(ls.State()))
    {
      var numeroNettoye := Stripped(input);
      if Utf16Length(numeroNettoye) < MIN_NUMBER_LENGTH {
        return;
      }
      if permission == NoPermissionApi || permission == Granted {
        LancerEcouteurMouvement();
      }
    }

    method DeclencherAlerteChute()
      modifies this
      ensures State() == World(AlertRaised(old(PageState())), old(ls.State()))
    {
      surveillanceActive := false;
      alerte := true;
      confirmPending := true;
    }

    method AnalyserDonneesAccelerometre(hasAcceleration: bool, overThreshold: bool)
      modifies this
      ensures State() == World(MotionAnalysed(old(PageState()), hasAcceleration, overThreshold), old(ls.State()))
    {
      if !surveillanceActive {
        return;
      }
      if hasAcceleration && overThreshold {
        DeclencherAlerteChute();
      }
    }

    method PreparerEtEnvoyerSms(numero: string, ua: string)
      modifies this
      ensures State() == World(old(PageState()).(alerte := false, sms := Some(SmsFor(numero, old(latitude), old(longitude), ua))), old(ls.State()))
    {
      ghost var link := SmsFor(numero, latitude, longitude, ua);
      var body := if latitude != None && longitude != None then AtPosition(latitude.value, longitude.value) else PositionUnknown;
      var sep := "?";
      if IsAppleDevice(ua) {
        sep := "&";
      }
      assert SmsLink(numero, sep, body) == link;
      sms := Some(SmsLink(numero, sep, body));
      alerte := false;
    }

    /** The callback of the confirmation timer. */
    method OnAlertTimeout(confirmed: bool, numero: string, ua: string)
      requires confirmPending
      modifies this
      ensures State() == World(AlertAnswered(old(PageState()), confirmed, numero, ua), old(ls.State()))
    {
      confirmPending := false;
      if confirmed {
        PreparerEtEnvoyerSms(numero, ua);
      } else {
        surveillanceActive := true;
        alerte := false;
      }
    }
  }
}
