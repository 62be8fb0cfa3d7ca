# EquiTrack core in Dafny

EquiTrack is an offline-capable web app for horse riders, written in JavaScript. This project models its core:

- **Service worker.** It fills a versioned store of the Cache Storage on install and answers every fetch cache-first.
- **Home page.** It has:
  - the position session: the GPS fix, the stored `lastKnownLocation`, and the Leaflet map created once;
  - the one-shot weather panel, with its `meteoCacheSimple` fallback;
  - the fall-detection SOS: number check, arming, alert, confirmation and the `sms:` link.
- **Install controller.** It handles the install and reload buttons, the captured `beforeinstallprompt` event, the window listeners and the service-worker registration.
- **Horse page.** It has the profile form, the care-event log in `localStorage`, the history list (newest first), and the entries handed to the calendar.
- **Detailed forecast page.** It lists hours grouped under date headers, each with a rain icon and past hours dimmed. It falls back to `meteoCacheDetail` with a banner.
- **Exercise server.** It has the two Express handlers `/exercices` and `/exercices/random`.

Browser facilities are state or inputs.

- **Storage:**
  - `localStorage` is the class `Browser.LocalStorage`, with one typed slot per key the core uses. JSON stringify and parse are taken to round-trip.
  - The Cache Storage is the class `ServiceWorker.CacheStorage`. It holds store names in creation order and a map from store name to URL to response.
- **Inputs:**
  - The network's answers to requests.
  - The clock: `Date.now()` and the current hour.
  - The user's answers to `confirm`.
  - The prompt outcome, the host capabilities and the user agent.
  - `Math.random()` as a real in [0, 1).

Each handler is one sequential step.

- **Pure functions** on a value of the page state say what each step does. Trace functions (`GeoRun`, `SosStep`, `Pwa.Run`) replay any sequence of events, and lemmas prove over all such sequences the invariants the code relies on.
- **Classes** (`App.Session`, `Pwa.PwaController`, `CareLog.HorsePage`, `MeteoDetail.DetailForecastPage`, `ServiceWorker.CacheStorage`) perform the same steps on mutable fields. Each method is proved equal to its function.
- **Loops** in the source are `for`/`while` loops with invariants:
  - the min/max loop of `afficherMeteo`;
  - the delete loop of `caching()`;
  - the `reste` and `formattedEvents` loops;
  - the history loop;
  - the list loop of `afficherListe`.

Modules: `Wrappers` (Option, Result), `Sequences` (filter and subsequence lemmas), `Browser` (shared records and `localStorage`), `ServiceWorker`, `App`, `Pwa`, `CareLog`, `MeteoDetail`, `Server`.

Three behaviours of the service worker are easy to misread. The model keeps what the code does:

- **No write-back on a miss.** A cache miss stores nothing. `getResponse` returns `fetch(request)` as it is, so `ServiceWorker.GetResponse` reads the storage and changes nothing.
- **Failed population.** After a rejected `addAll`, the next install skips provisioning, and the old generation stays in charge (see Findings).
- **Stale stores.** Other stores are removed only in a run where `VERSION` was absent and `addAll` succeeded. When `VERSION` already exists beside older stores, they survive (`ServiceWorker.Provisioned`).

## Model

| member | source | states |
|---|---|---|
| Server.ListExercices | server.js:17-30 | without a truthy `categorie` the whole list; with one, exactly the exercises whose category is strictly equal, each as many times as in the list and in their order (a subsequence); a repeated query parameter matches nothing |
| Server.RandomIndex | server.js:47 | `Math.floor(Math.random() * n)` lies in [0, n) |
| Server.RandomExercice | server.js:33-48 | 404 with "Aucun exercice trouvé" exactly when the filtered list is empty; otherwise a member of the filtered list, with the requested category when one was given |
| Server.EveryIndexReachable | server.js:47 | every index of the filtered list can be drawn |
| ServiceWorker.Opened | service_worker.js:81 | `caches.open` keeps an existing store or lists a new empty one last; every other store is untouched |
| ServiceWorker.Deleted | service_worker.js:91 | `caches.delete` removes the store and keeps the store list well formed |
| ServiceWorker.DeleteStaleRemovesExactly | service_worker.js:86-93 | the delete loop removes exactly the snapshotted stores other than `VERSION`; every store it keeps holds the same entries |
| ServiceWorker.FetchedEntries | service_worker.js:84 | `addAll` writes exactly one entry per manifest URL, holding the network's response |
| ServiceWorker.AddedAll | service_worker.js:84 | `addAll` succeeds exactly when every URL is fetched with an ok status other than 206 and no URL repeats; then it writes the entries and adds or removes no store |
| ServiceWorker.Provisioned | service_worker.js:71-95 | when `VERSION` is already listed, `caching()` changes nothing, so stale stores beside it survive |
| ServiceWorker.ProvisionedSuccessShape | service_worker.js:75-93 | a populating run leaves exactly one store, `VERSION`, holding exactly the manifest's entries |
| ServiceWorker.ProvisionedLeavesOnlyVersion | service_worker.js:75-93 | after a populating run `VERSION` is the only name left and every earlier store is gone |
| ServiceWorker.ProvisionedCachesManifest | service_worker.js:81-84 | after a populating run every manifest URL is answered from the `VERSION` store with its network response |
| ServiceWorker.ProvisionedFailureKeepsStores | service_worker.js:84-93 | a rejected `addAll` deletes nothing: every earlier store keeps its entries, and the only addition is an empty `VERSION` store |
| ServiceWorker.FailedProvisionMatchesAsBefore | service_worker.js:84-113 | after a rejected `addAll` every request is answered exactly as before the run |
| ServiceWorker.ProvisionedIdempotent | service_worker.js:78 | a second `caching()` with the same version changes nothing and succeeds, whatever the first run's network |
| ServiceWorker.FailedProvisionIsSticky | service_worker.js:81-84 | after one failed run, every later run skips population and reports success; the manifest is never cached and the old stores are never deleted |
| ServiceWorker.StaleGenerationSurvivesRetry | service_worker.js:81-84 | concrete run: the old "2.0" copy of ./index.html is still served after an offline then online install of "3.0"; with the rollback the fresh copy is served |
| ServiceWorker.ProvisionedWithRollback | service_worker.js:71-95 | the corrected `caching()`: also deletes the store it opened when `addAll` rejects |
| ServiceWorker.RollbackFailureRestores | service_worker.js:81-84 | corrected: a rejected `addAll` leaves the Cache Storage exactly as it found it |
| ServiceWorker.RollbackRetrySucceeds | service_worker.js:81-93 | corrected: after a failure the next install is the same as a first one, and with a good network it leaves only `VERSION` |
| ServiceWorker.ManifestIsDistinct | service_worker.js:8-47 | no URL of `RESSOURCES` repeats, so `addAll` can fail only on a fetch |
| ServiceWorker.MatchIn | service_worker.js:113 | `caches.match` finds an entry exactly when some store holds the URL |
| ServiceWorker.MatchInFirstHit | service_worker.js:113 | the answering store is the earliest one, in creation order, holding the URL |
| ServiceWorker.Match | service_worker.js:111-113 | a request other than GET matches nothing; a GET matches exactly when some store holds its URL |
| ServiceWorker.CacheStorage.Empty | service_worker.js:75 | a Cache Storage with no stores |
| ServiceWorker.CacheStorage.Keys | service_worker.js:75 | `caches.keys()` lists the store names in creation order |
| ServiceWorker.CacheStorage.Open | service_worker.js:81 | changes the storage as `Opened` says |
| ServiceWorker.CacheStorage.AddAll | service_worker.js:84 | resolves exactly when `AddedAll` succeeds; otherwise the storage is unchanged |
| ServiceWorker.CacheStorage.Delete | service_worker.js:91 | the promise's boolean is whether the store existed; the storage changes as `Deleted` says |
| ServiceWorker.DeleteOldVersions | service_worker.js:86-93 | the delete loop removes, in order, every snapshotted store whose name differs from `VERSION` |
| ServiceWorker.Caching | service_worker.js:71-95 | the storage ends as `Provisioned` says; the promise resolves exactly when `VERSION` was listed or `addAll` succeeded |
| ServiceWorker.CachingWithRollback | service_worker.js:71-95 | the corrected `caching()`, ending as `ProvisionedWithRollback` says |
| ServiceWorker.GetResponse | service_worker.js:111-127 | a GET request some store holds is answered from the earliest such store without touching the network; otherwise the network's result is passed on as it is; nothing is written |
| App.SavedLocation | js/app.js:59-63 | `saveLocation` overwrites "lastKnownLocation" with exactly the pair and leaves every other key |
| App.LocationRoundTrip | js/app.js:59-73 | saving then reading gives back the pair; with nothing stored `getCachedLocation` gives null |
| App.DayMin | js/app.js:249-256 | `temp_min` is at most 100 and at most every hourly temperature, and it is 100 or one of them |
| App.DayMax | js/app.js:249-256 | `temp_max` is at least -100 and at least every hourly temperature, and it is -100 or one of them |
| App.DayRange | js/app.js:249-256 | the min/max loop computes `DayMin` and `DayMax` |
| App.WeatherFetched | js/app.js:194-233 | `get_weather` sends one request and may change only the panel and "meteoCacheSimple" |
| App.WeatherSuccessIsCached | js/app.js:210-217 | on a parsed answer, "meteoCacheSimple" holds exactly it, and the panel shows it without the offline note |
| App.WeatherFailureReplaysCache | js/app.js:218-232 | on failure the storage is unchanged; a stored payload is shown with the offline note, otherwise the panel is left as it was |
| App.MapShown | js/app.js:165-188 | the map is centred on the position and is created only when none exists |
| App.WeatherOnce | js/app.js:124-153 | with `meteoChargee` set nothing happens; otherwise one request is sent and the latch is set |
| App.GeolocationStarted | js/app.js:79-100 | with geolocation the watch runs and the status says "searching"; without it the status says "unsupported" and the watch is left as it was; nothing else changes |
| App.PositionUpdated | js/app.js:105-129 | a fix becomes `latitude`/`longitude`, is stored as exactly that pair, puts the map on it and sets the status to tracking; an unlatched session requests the weather for that fix and sets `meteoChargee`, a latched one requests nothing; the watch keeps running |
| App.PositionFailed | js/app.js:133-160 | once a fix exists an error changes nothing; without a fix, no stored location changes only the status to "no position", and a stored one is shown on the map under the offline status and, when unlatched, requests the weather for it and sets `meteoChargee`; a latched session requests nothing |
| App.CachedFallback | js/app.js:141-153 | the stored location is shown on the map under the offline status without becoming the position; the stored location is kept; the weather is requested for it exactly when the latch was open, and the latch ends set |
| App.FixIsAdoptedAndPersisted | js/app.js:105-121 | a fix becomes `latitude`/`longitude`, is stored as exactly that pair, and the map is put on it |
| App.LostKeepsPosition | js/app.js:133-160 | an error never assigns the position or the stored location, and once a fix exists it changes nothing |
| App.WeatherOnceKeepsLatch | js/app.js:124-128 | the latch step requests at most once and touches neither the map nor the watch |
| App.FixKeepsLatchAndMap | js/app.js:105-129 | a fix keeps "at most one weather request" and "map created at most once" |
| App.LostKeepsLatchAndMap | js/app.js:133-160 | an error keeps the same two invariants |
| App.GeoStepKeepsLatchAndMap | js/app.js:95-99 | any `watchPosition` callback keeps them, and adds no request once the latch is set |
| App.WeatherAndMapAtMostOnce | js/app.js:124-181 | over any mix of fixes and errors the weather is requested at most once and the map created at most once; once set, `meteoChargee` stays set and no further request is sent |
| App.LatchedRunSendsNothing | js/app.js:124-153 | once `meteoChargee` is set, no sequence of fixes and errors sends another weather request |
| App.FirstFixFetchesOnce | js/app.js:124-128 | in an unlatched session the first fix, followed by any callbacks, yields exactly one weather request, for that fix's coordinates |
| App.CachedFallbackFetchesOnce | js/app.js:150-153 | an error before any fix, with a stored location, followed by any callbacks, yields exactly one weather request, for the stored location |
| App.LastFix | js/app.js:108-109 | present exactly when some callback is a fix, and then the coordinates of a fix that no later fix follows |
| App.PositionIsLatestFix | js/app.js:108-147 | the page's position is always the latest fresh fix, or the initial one when there was none; the stored location shown after an error is never adopted |
| App.Stripped | js/app.js:267 | `replace(/\s/g, '')` keeps every non-whitespace character as many times as it occurs, in order, and drops every whitespace character |
| App.Utf16Length | js/app.js:269 | `.length` is the number of characters plus the number of characters outside the BMP, so between once and twice the character count |
| App.SosStarted | js/app.js:265-296 | a number under 10 characters changes nothing; a long enough number with the permission absent or granted ends in `Listening`; a refused or failed permission changes nothing; surveillance starts exactly in the accepted case |
| App.Listening | js/app.js:300-313 | the motion listener is attached, the surveillance armed and the button hidden; nothing else changes |
| App.MotionAnalysed | js/app.js:317-334 | an armed session with an acceleration over the threshold raises the alert (`AlertRaised`); an armed one without it, and a disarmed one, stay as they were |
| App.AlertRaised | js/app.js:338-346 | the alert disarms the surveillance, shows the alert and arms the confirmation timer; nothing else changes |
| App.AlertAnswered | js/app.js:347-362 | the answer clears the alert and the timer; a yes produces the link of `SmsFor` from the current position, a no re-arms the surveillance and leaves the link as it was; no other field changes |
| App.Lower | js/app.js:387 | the `/i` comparison folds A to Z onto a to z and keeps every other character; no folded character is upper case |
| App.FoldCase | js/app.js:387 | folding keeps the length and folds each character in place |
| App.FoldCaseIdempotent | js/app.js:387 | folding twice is folding once |
| App.AppleNameDetected | js/app.js:387 | "iPhone" or "iPad", in any case, anywhere in the user agent selects "&" |
| App.NoLetterINotApple | js/app.js:387 | a user agent without "i" or "I" never matches `/iPhone|iPad/i` |
| App.SmsFor | js/app.js:367-389 | the link keeps the typed number; the body carries the coordinates exactly when both are set; the separator is "&" on iPhone/iPad (any case) and "?" otherwise |
| App.MessageText | js/app.js:374-383 | the message carries the maps link exactly when the body has a position |
| App.SosStepConsistent | js/app.js:300-362 | every SOS event keeps the invariant: armed implies listening; a pending confirmation is disarmed and alerting; the button is hidden exactly when listening |
| App.NoSecondAlertWhilePending | js/app.js:319-340 | while a confirmation is pending no motion raises a second alert |
| App.DeclineRestoresSurveillance | js/app.js:338-362 | an alert disarms the surveillance; declining re-arms it and clears the alert without producing a link |
| App.ShortNumberRejected | js/app.js:267-273 | a number shorter than 10 once whitespace is removed leaves the session unarmed and unchanged |
| App.NoFixMeansNoPositionInSms | js/app.js:374-381 | a session with no fresh fix reports "position unavailable", whatever is stored from earlier sessions |
| App.Session.constructor | js/app.js:24-33 | the module variables start null, false, with no map |
| App.Session.SaveLocation | js/app.js:59-63 | changes storage as `SavedLocation` says |
| App.Session.GetCachedLocation | js/app.js:65-73 | returns the stored location |
| App.Session.InitGeolocation | js/app.js:79-100 | starts watching, or reports that geolocation is unsupported |
| App.Session.UpdateMapDisplay | js/app.js:165-188 | changes the page as `MapShown` says |
| App.Session.AfficherMeteo | js/app.js:236-260 | shows the payload at the hour, with the day's range from the loop |
| App.Session.GetWeather | js/app.js:194-233 | changes page and storage as `WeatherFetched` says |
| App.Session.FetchWeatherOnce | js/app.js:124-128 | changes page and storage as `WeatherOnce` says |
| App.Session.AdoptFix | js/app.js:108-121 | adopts, stores and shows the fix |
| App.Session.OnPositionUpdate | js/app.js:105-129 | ends in `PositionUpdated` of the old state |
| App.Session.OnPositionError | js/app.js:133-160 | ends in `PositionFailed` of the old state |
| App.Session.LancerEcouteurMouvement | js/app.js:300-313 | attaches the listener, arms, hides the button |
| App.Session.DemarrerSystemeSos | js/app.js:265-296 | ends in `SosStarted` of the old page |
| App.Session.DeclencherAlerteChute | js/app.js:338-346 | disarms, shows the alert, arms the confirmation timer |
| App.Session.AnalyserDonneesAccelerometre | js/app.js:317-334 | ends in `MotionAnalysed` of the old page |
| App.Session.PreparerEtEnvoyerSms | js/app.js:367-393 | produces the link of `SmsFor` from the current position and clears the alert |
| App.Session.OnAlertTimeout | js/app.js:347-362 | a yes produces the link; a no re-arms and clears the alert |
| Pwa.Registered | js/pwa.js:90-114 | one registration attempt where workers exist, none otherwise; the update hook is attached exactly when registration succeeds |
| Pwa.Started | js/pwa.js:27-44 | standalone registers at once and adds no listener; a web page adds both listeners and changes nothing else |
| Pwa.PromptCaptured | js/pwa.js:50-57 | the install button is enabled and the event captured; nothing else changes |
| Pwa.UpdateFound | js/pwa.js:120-127 | an update attaches the state listener of the installing worker; nothing else changes |
| Pwa.Installed | js/pwa.js:61-75 | the prompt is replayed; once settled, accepted or dismissed, the button is disabled and the listener removed and nothing else changes; a rejected prompt changes nothing but the prompt count |
| Pwa.StateChanged | js/pwa.js:131-142 | reload is enabled exactly when it was, or the worker is "installed" and a controller exists |
| Pwa.StepConsistent | js/pwa.js:50-142 | every handler keeps the invariant: an enabled button has what its click needs |
| Pwa.RunConsistent | js/pwa.js:27-142 | from startup, on any host, every sequence of events keeps that invariant |
| Pwa.StartupPaths | js/pwa.js:31-43 | the two startup paths from the loaded page |
| Pwa.PromptIsSingleUse | js/pwa.js:73-74 | once the button is disabled and the listener removed, no later events enable it again |
| Pwa.InstallClosesOffer | js/pwa.js:65-74 | a settled prompt closes the install path for the rest of the session |
| Pwa.AppInstalledRegisters | js/pwa.js:79-84 | `appinstalled` always leads to one registration attempt where workers exist |
| Pwa.FailedRegistrationNeverOffersReload | js/pwa.js:94-113 | without a successful registration no update hook is attached and reload stays disabled, whatever follows |
| Pwa.FirstInstallKeepsReloadDisabled | js/pwa.js:137-141 | without an "installed" state under an existing controller, reload stays disabled |
| Pwa.PwaController.constructor | js/pwa.js:5-19 | both buttons disabled, nothing captured, nothing registered |
| Pwa.PwaController.RegisterServiceWorker | js/pwa.js:90-114 | ends in `Registered` of the old state |
| Pwa.PwaController.Start | js/pwa.js:27-44 | ends in `Started` of the old state |
| Pwa.PwaController.OnBeforeInstallPrompt | js/pwa.js:50-57 | ends in `PromptCaptured` of the old state |
| Pwa.PwaController.InstallPwa | js/pwa.js:61-75 | ends in `Installed` of the old state |
| Pwa.PwaController.OnAppInstalled | js/pwa.js:79-84 | ends in `Registered` of the old state |
| Pwa.PwaController.OnUpdateFound | js/pwa.js:120-127 | attaches the state listener |
| Pwa.PwaController.OnStateChange | js/pwa.js:131-142 | ends in `StateChanged` of the old state |
| CareLog.StoredEvents | js/formul_cheval.js:160-164 | the stored list, empty when nothing was stored |
| CareLog.EventAdded | js/formul_cheval.js:149-151 | exactly one event is appended at the end, earlier events kept in order; no other key changes |
| CareLog.AddClicked | js/formul_cheval.js:136-158 | an empty date stores nothing; otherwise the event with id `Date.now()` and the form's kind, date and description is appended |
| CareLog.WithoutId | js/formul_cheval.js:213-215 | keeps every event whose id differs, as many times as it occurs and in their order (a subsequence), and no event with that id |
| CareLog.EventDeleted | js/formul_cheval.js:211-216 | the stored list becomes `WithoutId` of the old one; no other key changes |
| CareLog.RemainingEvents | js/formul_cheval.js:212-215 | the `reste` loop computes `WithoutId` |
| CareLog.DeleteAbsentIdKeepsList | js/formul_cheval.js:213-215 | deleting an id no event carries leaves the list unchanged |
| CareLog.DeleteUndoesAdd | js/formul_cheval.js:149-216 | deleting the event just added, under a fresh id, restores the earlier list |
| CareLog.EventColor | js/formul_cheval.js:83-88 | the colour per kind, `#3788d8` for every other kind |
| CareLog.UpperAscii | js/formul_cheval.js:92 | `toUpperCase` keeps the length and raises a to z |
| CareLog.Title | js/formul_cheval.js:92 | the upper-cased kind, with " - " and the description only when the description is non-empty |
| CareLog.CalendarEntries | js/formul_cheval.js:76-100 | one entry per event, in order, carrying its id, title, date and colour |
| CareLog.NotAfterTotal | js/formul_cheval.js:175-177 | any two dates are ordered one way or the other |
| CareLog.NotAfterTransitive | js/formul_cheval.js:175-177 | the date order is transitive |
| CareLog.Insert | js/formul_cheval.js:175-177 | inserting keeps every event and adds one |
| CareLog.InsertKeepsOrder | js/formul_cheval.js:175-177 | inserting into a newest-first list keeps it newest first |
| CareLog.NewestFirst | js/formul_cheval.js:175-177 | the sort is a permutation of the events and puts them newest first |
| CareLog.Icon | js/formul_cheval.js:181-186 | the icon per kind; "cours" and "concours" share `emoji_events`; `event` otherwise |
| CareLog.HistoryLines | js/formul_cheval.js:179-206 | one line per sorted event, in order |
| CareLog.HistoryIsNewestFirst | js/formul_cheval.js:166-207 | the history has one line per stored event, newest first; the lines are those of a permutation of the stored events, so each event is shown, and can be deleted, exactly once |
| CareLog.ProfileSaved | js/formul_cheval.js:114-122 | "equitrack_save_info" holds the three inputs; no other key changes |
| CareLog.ProfileLoaded | js/formul_cheval.js:124-132 | a stored profile fills the inputs; without one they keep what they showed |
| CareLog.ProfileRoundTrip | js/formul_cheval.js:114-132 | saving then loading restores the same name, breed and age |
| CareLog.HorsePage.constructor | js/formul_cheval.js:22-23 | no calendar, no history, empty inputs |
| CareLog.HorsePage.RecupererEvenements | js/formul_cheval.js:160-164 | returns `StoredEvents` |
| CareLog.HorsePage.PreparerEvenementsPourCalendrier | js/formul_cheval.js:76-100 | one entry per stored event, in order |
| CareLog.HorsePage.InitialiserCalendrier | js/formul_cheval.js:51-73 | the calendar is created with the stored events' entries |
| CareLog.HorsePage.UpdateCalendrier | js/formul_cheval.js:103-110 | an existing calendar is refilled with the stored events' entries; a missing one stays missing |
| CareLog.HorsePage.ChargerHistorique | js/formul_cheval.js:166-207 | the history shows the stored events as `ShowsHistory` says |
| CareLog.HorsePage.Refresh | js/formul_cheval.js:155-156 | history and calendar both show the stored events |
| CareLog.HorsePage.SaveProfile | js/formul_cheval.js:114-122 | changes storage as `ProfileSaved` says |
| CareLog.HorsePage.ChargerInfoCheval | js/formul_cheval.js:124-132 | the inputs become `ProfileLoaded` of the old ones |
| CareLog.HorsePage.AddEvent | js/formul_cheval.js:136-158 | storage as `AddClicked` says; without a date nothing on the page changes; with one, the description is cleared and history and calendar show the new list |
| CareLog.HorsePage.SupprimerEvent | js/formul_cheval.js:209-221 | without confirmation storage, history and calendar are unchanged; with it, storage as `EventDeleted` says and history and calendar show the rest |
| CareLog.HorsePage.Load | js/formul_cheval.js:27-36 | the profile inputs become `ProfileLoaded`, the history shows the stored events, and the calendar is created with one entry per stored event, in order; the description input and the storage are untouched |
| MeteoDetail.IndexOf | js/meteo_detail.js:75-77 | the first position of a character, or the length when it is absent |
| MeteoDetail.Before | js/meteo_detail.js:75 | `split(c)[0]`: the longest prefix without the character |
| MeteoDetail.TimePart | js/meteo_detail.js:76 | `split("T")[1]` is undefined exactly when the stamp has no "T" |
| MeteoDetail.TimePartShape | js/meteo_detail.js:75-76 | date part, "T" and time part are a prefix of the stamp; the time part has no "T" and ends at the second "T" or at the end of the stamp |
| MeteoDetail.DigitRun | js/meteo_detail.js:77 | the length of the leading run of digits |
| MeteoDetail.LeadingNumber | js/meteo_detail.js:77 | `parseInt` is NaN exactly when the text is empty or does not start with a digit |
| MeteoDetail.StampParts | js/meteo_detail.js:75-77 | a "YYYY-MM-DDTHH:MM" stamp gives its date, its time and its hour HH |
| MeteoDetail.RainIcon | js/meteo_detail.js:101-114 | `water_drop` from 50, `cloud` above 20, `wb_sunny` otherwise or when undefined |
| MeteoDetail.BlueBackground | js/meteo_detail.js:106-110 | the blue background goes exactly with `water_drop` |
| MeteoDetail.Dimmed | js/meteo_detail.js:71-121 | dimmed exactly when the date is the first stamp's date and the hour is a number below the current hour |
| MeteoDetail.AppendHour | js/meteo_detail.js:73-156 | one turn on a stamp with "T" appends that turn's header and row, and the rows still to come then complete the render |
| MeteoDetail.RowsFromStep | js/meteo_detail.js:73-156 | one turn of the loop: a header when the date changes, then the hour row |
| MeteoDetail.RowsFromCompleted | js/meteo_detail.js:73-77 | the loop runs to its end exactly when every remaining stamp has a "T" |
| MeteoDetail.RenderedCompletes | js/meteo_detail.js:61-77 | `afficherListe` returns exactly when the series is non-empty and every stamp has a "T"; otherwise it throws |
| MeteoDetail.RowsFromAtBadStamp | js/meteo_detail.js:73-77 | at a stamp without "T" the loop throws before appending anything |
| MeteoDetail.RenderedBadFirstStamp | js/meteo_detail.js:73-77 | a first stamp without "T" throws in the first turn with nothing listed |
| MeteoDetail.HeaderAt | js/meteo_detail.js:80-98 | a header exactly where the date differs from the previous hour's |
| MeteoDetail.LayoutRows | js/meteo_detail.js:73-155 | the hour rows of the layout are exactly the rows, in order |
| MeteoDetail.LayoutHeaders | js/meteo_detail.js:80-98 | the headers of the layout are exactly one per change of date |
| MeteoDetail.Dates | js/meteo_detail.js:75 | the date part of each stamp |
| MeteoDetail.HourRows | js/meteo_detail.js:100-155 | one row per stamp, in order |
| MeteoDetail.RowsFromIsLayout | js/meteo_detail.js:73-156 | the loop builds the layout: each hour row preceded by a header where a run of equal dates starts |
| MeteoDetail.RenderedIsLayout | js/meteo_detail.js:61-157 | a readable series renders as that layout, with today being the first stamp's date |
| MeteoDetail.ListedHours | js/meteo_detail.js:73-156 | exactly one row per stamp in input order, and exactly one header per maximal run of equal dates |
| MeteoDetail.Fetched | js/meteo_detail.js:23-60 | one request; a parsed answer is stored as it is; a failure leaves the storage unchanged |
| MeteoDetail.Loaded | js/meteo_detail.js:9-21 | with no stored position only the error item, and no request; otherwise `Fetched` at the stored position |
| MeteoDetail.NoPositionNoFetch | js/meteo_detail.js:11-17 | no position: the single error item, no request, storage unchanged |
| MeteoDetail.FetchUsesStoredPosition | js/meteo_detail.js:19-27 | the request is for the stored position |
| MeteoDetail.OnlineShowsAnswer | js/meteo_detail.js:35-41 | a readable answer is stored and listed without the banner |
| MeteoDetail.UnreadableAnswerEscapes | js/meteo_detail.js:35-50 | an unreadable answer is still stored; the catch renders it again and the chain ends in an uncaught error, with no banner |
| MeteoDetail.OfflineShowsCache | js/meteo_detail.js:46-54 | on failure with a readable cache, the banner comes first and then the cached list |
| MeteoDetail.OfflineUnreadableCache | js/meteo_detail.js:46-50 | on failure with a cache that does not render, no banner is added, the list holds what the render appended before it threw, the error escapes, and the storage is unchanged |
| MeteoDetail.OfflineWithoutCache | js/meteo_detail.js:55-58 | on failure without a cache, the list is the single "no connection" item |
| MeteoDetail.RenderedHasNoNotice | js/meteo_detail.js:73-156 | the rendered list holds only headers and hour rows |
| MeteoDetail.DetailForecastPage.constructor | js/meteo_detail.js:5 | an empty list, no request |
| MeteoDetail.DetailForecastPage.AfficherListe | js/meteo_detail.js:61-157 | the loop builds exactly `Rendered`, and reports whether it ran to its end |
| MeteoDetail.DetailForecastPage.RecupererDonneesAPI | js/meteo_detail.js:23-60 | ends in `Fetched` of the old state |
| MeteoDetail.DetailForecastPage.ChargerMeteoDetaillee | js/meteo_detail.js:9-21 | ends in `Loaded` of the old state |
| Browser.LocalStorage.Empty | js/app.js:65-73 | a storage nothing was written to |

## Left out

- `reloadPwa` (js/pwa.js:146-151) is a full page navigation. It has no state of its own to model.
- HTML and DOM output is left out: `innerHTML` strings, styles, `fixVisualMdl`, `alert` and the status texts. Status texts appear only as the `MapStatus` values.
- Leaflet and FullCalendar are kept only as the map's created/moved state and the entry list handed to the calendar.
- Floating point is left out:
  - The fall force (`Math.sqrt` and `SEUIL_CHUTE`) is a boolean input, "over the threshold".
  - Temperatures and rain probabilities are integers.
  - `Math.round` is not modelled.
- `toFixed`, `toLocaleDateString` and JavaScript's number-to-string conversion are left out. The conversion is a function parameter of `App.MessageText`.
- `encodeURIComponent` and the `sms:` URL string are left out. The link is kept as number, separator and body.
- `navigator.vibrate`, the sound button and `window.location` navigation are left out.
- The motion permission request is an input (`App.Permission`).
- The asynchronous interleaving between handlers is left out, as are `event.waitUntil` and `self.skipWaiting()`. Each handler, with its settled promises, is one step.
- The JSON shape of answers is left out. A fetched payload is either a parsed record or a failure. A payload of another shape, for example one missing `current_weather`, is not modelled.
- Express routing, the CORS middleware and `listen` are left out. The query parameter is `Server.Query` (absent, a string, or repeated).
- `App.Session.AfficherMeteo` and `MeteoDetail.DetailForecastPage.AfficherListe` take the current hour as an input. The catch branch re-renders with the same hour as the first render.
- `MeteoDetail.LeadingNumber`: `parseInt`'s leading whitespace, signs and "0x" prefixes are not modelled. The hour field of a provider stamp is two digits.
- `CareLog.NewestFirst`:
  - The in-place `events.sort` is modelled as a sort on a value. The array is local to `chargerHistorique`, so nothing else observes the update in place.
  - That the sort is stable is not proved.
  - Comparing the strings stands for `Date` subtraction. This is exact for the "YYYY-MM-DD" values of a date input. The NaN that other strings give is not modelled.
- `CareLog.UpperAscii`: only a to z are upper-cased. Other letters that `toUpperCase` changes are kept as they are.
- `App.FoldCase`: the `/i` flag is modelled as ASCII case folding, which is all the pattern "iPhone|iPad" needs.
- `App.Utf16Length` counts UTF-16 code units. `App.IsJsSpace` lists the characters of JavaScript's `\s`.
- The buttons' initial `disabled` attribute is part of the page markup, which is not in this model. `Pwa.LOADED` assumes both start disabled.
- A timeout or a lost network in the middle of `addAll` is not modelled separately. It is a URL for which the network has no answer.
- A response is only a status and a body. `addAll` also rejects a response carrying `Vary: *`; headers are not modelled, so that rejection is not either.
- `MeteoDetail.RowsFromStep`: when a later stamp has no "T", the rows kept on the page are described one turn at a time (`RowsFromStep`, then `RowsFromAtBadStamp`), not in one closed form. The closed form over the filtered rows was too costly to prove.

## Findings

| source | as written | input that shows it | evidently intended | confidence | as-written member | corrected member |
|---|---|---|---|---|---|---|
| service_worker.js:81-84 | `caches.open(VERSION)` runs before `addAll`. A rejected `addAll` therefore leaves an empty `VERSION` store behind. Every later install finds `VERSION` among the keys and skips both the population and the deletion of old stores. | A client holds store "2.0" with ./index.html. It installs "3.0" while offline, then again online. ./index.html is still answered from "2.0", and the manifest is never cached. | A failed population leaves the Cache Storage as it was, so the next install provisions again and then removes the old stores. | not executed | ServiceWorker.StaleGenerationSurvivesRetry | ServiceWorker.RollbackRetrySucceeds |
