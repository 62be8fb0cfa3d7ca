/**
 * The detailed forecast page: it reads the last known position, asks the
 * weather provider for three days of hourly data, caches the answer under
 * "meteoCacheDetail" and lists the hours, one date header before each run of
 * hours of the same day. Offline it lists the cached answer under a banner,
 * or says that there is neither a connection nor a cache.
 *
 * The list is modelled as the sequence of items appended to `liste-heures`;
 * the HTML of each item is left out. When `afficherListe` throws (no hours,
 * or an hour stamp without "T"), the items appended before the throw stay on
 * the page and the model keeps them.
 */
module MeteoDetail {
  import opened Wrappers
  import opened Sequences
  import opened Browser

  /******************************************************************************/
  /* Reading an hour stamp                                                      */
  /******************************************************************************/

  /** The position of the first `c` in `s`, or `|s|` when there is none. */
  function IndexOf(s: string, c: char): (k: nat)
    ensures k <= |s|
    ensures forall i :: 0 <= i < k ==> s[i] != c
    ensures k < |s| ==> s[k] == c
  {
    if s == [] then 0
    else if s[0] == c then 0
    else 1 + IndexOf(s[1..], c)
  }

  /** `s.split(c)[0]`: everything before the first `c`. */
  function Before(s: string, c: char): (r: string)
    ensures r <= s && c !in r
    ensures |r| < |s| ==> s[|r|] == c
  {
    s[..IndexOf(s, c)]
  }

  /** `t.split("T")[0]`: the date of a stamp. */
  function DatePart(t: string): string {
    Before(t, 'T')
  }

  /** `t.split("T")[1]`: the text between the first and the second "T", undefined without a "T". */
  function TimePart(t: string): (r: Option<string>)
    ensures r.None? <==> 'T' !in t
  {
    var k := IndexOf(t, 'T');
    if k == |t| then None else Some(Before(t[k + 1..], 'T'))
  }

  /** The time of a stamp follows its date and the first "T", and runs up to the next "T". */
  lemma TimePartShape(t: string)
    requires 'T' in t
    ensures 'T' !in TimePart(t).value
    ensures DatePart(t) + "T" + TimePart(t).value <= t
    ensures var n := |DatePart(t)| + 1 + |TimePart(t).value|; n < |t| ==> t[n] == 'T'
  {
    var k := IndexOf(t, 'T');
    assert t == t[..k] + "T" + t[k + 1..];
    var rest := t[k + 1..];
    assert |Before(rest, 'T')| < |rest| ==> rest[|Before(rest, 'T')|] == 'T';
  }

  predicate IsDigit(c: char) {
    '0' <= c <= '9'
  }

  /** The value of a string of decimal digits. */
  function DigitsValue(d: string): (n: nat)
    requires forall i :: 0 <= i < |d| ==> IsDigit(d[i])
    decreases |d|
  {
    if d == [] then 0
    else
      var last := d[|d| - 1];
      assert IsDigit(last);
      10 * DigitsValue(d[..|d| - 1]) + (last as int - '0' as int)
  }

  /** The number of decimal digits at the head of `s`. */
  function DigitRun(s: string): (k: nat)
    ensures k <= |s|
    ensures forall i :: 0 <= i < k ==> IsDigit(s[i])
    ensures k < |s| ==> !IsDigit(s[k])
  {
    if s == [] || !IsDigit(s[0]) then 0 else 1 + DigitRun(s[1..])
  }

  /** `parseInt(s)` on text that starts with its digits: `None` is NaN. */
  function LeadingNumber(s: string): (n: Option<nat>)
    ensures n.None? <==> s == [] || !IsDigit(s[0])
  {
    var k := DigitRun(s);
    if k == 0 then None else Some(DigitsValue(s[..k]))
  }

  /** `parseInt(heureSeule.split(":")[0])`. */
  function HourOf(timePart: string): Option<nat> {
    LeadingNumber(Before(timePart, ':'))
  }

  lemma IndexOfFirst(a: string, c: char, b: string)
    requires c !in a
    ensures IndexOf(a + [c] + b, c) == |a|
  {
    var s := a + [c] + b;
    assert s[|a|] == c;
    assert forall i :: 0 <= i < |a| ==> s[i] == a[i];
  }

  lemma IndexOfAbsent(s: string, c: char)
    requires c !in s
    ensures IndexOf(s, c) == |s|
  {
    assert forall i :: 0 <= i < |s| ==> s[i] in s;
  }

  /** The provider's stamps "YYYY-MM-DDTHH:MM" split into their date, their time and their hour. */
  lemma StampParts(date: string, h1: char, h2: char, minutes: string)
    requires 'T' !in date && 'T' !in minutes
    requires IsDigit(h1) && IsDigit(h2)
    ensures DatePart(date + "T" + [h1, h2] + ":" + minutes) == date
    ensures TimePart(date + "T" + [h1, h2] + ":" + minutes) == Some([h1, h2] + ":" + minutes)
    ensures HourOf([h1, h2] + ":" + minutes) == Some(10 * (h1 as int - '0' as int) + (h2 as int - '0' as int))
  {
    var hh := [h1, h2];
    var hm := hh + ":" + minutes;
    var t := date + "T" + hm;
    assert t == date + ['T'] + hm;
    assert date + "T" + [h1, h2] + ":" + minutes == t;
    IndexOfFirst(date, 'T', hm);
    assert t[..|date|] == date;
    assert t[|date| + 1..] == hm;
    forall k | 3 <= k < |hm| ensures hm[k] != 'T' {
      assert hm[k] == minutes[k - 3];
    }
    IndexOfAbsent(hm, 'T');
    assert hm[..|hm|] == hm;
    assert hm == hh + [':'] + minutes;
    IndexOfFirst(hh, ':', minutes);
    assert Before(hm, ':') == hh;
    assert hh[1..] == [h2] && [h2][1..] == [];
    assert DigitRun(hh) == 2;
    assert hh[..2] == hh && hh[..1] == [h1] && [h1][..0] == [];
    assert DigitsValue([h1]) == h1 as int - '0' as int;
    assert DigitsValue(hh) == 10 * DigitsValue([h1]) + (h2 as int - '0' as int);
    assert LeadingNumber(hh) == Some(DigitsValue(hh));
  }

  /******************************************************************************/
  /* The list items                                                             */
  /******************************************************************************/

  datatype ListItem =
    | PositionNotFound          // "Erreur : Position introuvable."
    | OfflineBanner             // "Mode Hors Ligne : Données archivées"
    | NoConnection              // "Pas de connexion et pas de cache disponible."
    | DateHeader(date: string)  // the separator before a new day
    | HourRow(time: string, rain: Option<int>, temperature: Option<int>, icon: string, blueBackground: bool, dimmed: bool)

  predicate IsHourRow(item: ListItem) {
    item.HourRow?
  }

  predicate IsDateHeader(item: ListItem) {
    item.DateHeader?
  }

  /** The icon of an hour, by probability of rain; an undefined probability compares false. */
  function RainIcon(rain: Option<int>): (icon: string)
    ensures rain.Some? && rain.value >= 50 ==> icon == "water_drop"
    ensures rain.Some? && 20 < rain.value < 50 ==> icon == "cloud"
    ensures (rain.None? || rain.value <= 20) ==> icon == "wb_sunny"
  {
    if rain.Some? && rain.value >= 50 then "water_drop"
    else if rain.Some? && rain.value > 20 then "cloud"
    else "wb_sunny"
  }

  /** Only a probability of 50 or more gets the pale blue background. */
  function BlueBackground(rain: Option<int>): (blue: bool)
    ensures blue <==> RainIcon(rain) == "water_drop"
  {
    rain.Some? && rain.value >= 50
  }

  /** A past hour of the first listed day is dimmed; a NaN hour is never below the current one. */
  function Dimmed(date: string, timePart: string, today: string, now: nat): (dim: bool)
    ensures dim <==> date == today && HourOf(timePart).Some? && HourOf(timePart).value < now
  {
    date == today && match HourOf(timePart) { case Some(h) => h < now case None => false }
  }

  /** The row of hour `i`: its time, its probability of rain and temperature, its icon, background and dimming. */
  function RowFor(data: DetailForecast, i: nat, today: string, now: nat): (row: ListItem)
    requires i < |data.time| && TimePart(data.time[i]).Some?
  {
    var t := data.time[i];
    var rain := At(data.rain, i);
    HourRow(TimePart(t).value, rain, At(data.temperature, i), RainIcon(rain), BlueBackground(rain),
            Dimmed(DatePart(t), TimePart(t).value, today, now))
  }

  /** The items appended to the list, and whether `afficherListe` returned (it throws otherwise). */
  datatype Rendering = Rendering(items: seq<ListItem>, completed: bool)

  /** The loop of `afficherListe` from hour `i` on, the previous date being `prev`. */
  function RowsFrom(data: DetailForecast, today: string, now: nat, i: nat, prev: string): Rendering
    requires i <= |data.time|
    decreases |data.time| - i
  {
    if i == |data.time| then Rendering([], true)
    else
      var t := data.time[i];
      match TimePart(t)
      case None => Rendering([], false)
      case Some(_) =>
        var date := DatePart(t);
        var header := if date != prev then [DateHeader(date)] else [];
        var rest := RowsFrom(data, today, now, i + 1, date);
        Rendering(header + [RowFor(data, i, today, now)] + rest.items, rest.completed)
  }

  lemma AppendAssociates<T>(a: seq<T>, b: seq<T>, c: seq<T>, d: seq<T>)
    ensures a + b + c + d == a + (b + c + d)
  {
  }

  /** One turn of the loop of `afficherListe`. */
  lemma RowsFromStep(data: DetailForecast, today: string, now: nat, i: nat, prev: string)
    requires i < |data.time| && TimePart(data.time[i]).Some?
    ensures var date := DatePart(data.time[i]);
      RowsFrom(data, today, now, i, prev).items ==
        (if date != prev then [DateHeader(date)] else []) + [RowFor(data, i, today, now)]
        + RowsFrom(data, today, now, i + 1, date).items
    ensures RowsFrom(data, today, now, i, prev).completed == RowsFrom(data, today, now, i + 1, DatePart(data.time[i])).completed
  {
  }

  /** The loop invariant of `afficherListe` carried over one hour: `before` is the list so far. */
  lemma ListStep(data: DetailForecast, today: string, now: nat, i: nat, prev: string, before: seq<ListItem>, goal: Rendering)
    requires i < |data.time| && TimePart(data.time[i]).Some?
    requires before + RowsFrom(data, today, now, i, prev).items == goal.items
    requires RowsFrom(data, today, now, i, prev).completed == goal.completed
    ensures var date := DatePart(data.time[i]);
      before + (if date != prev then [DateHeader(date)] else []) + [RowFor(data, i, today, now)]
      + RowsFrom(data, today, now, i + 1, date).items == goal.items
    ensures RowsFrom(data, today, now, i + 1, DatePart(data.time[i])).completed == goal.completed
  {
    var date := DatePart(data.time[i]);
    RowsFromStep(data, today, now, i, prev);
    AppendAssociates(before, if date != prev then [DateHeader(date)] else [], [RowFor(data, i, today, now)],
                     RowsFrom(data, today, now, i + 1, date).items);
  }

  /**
   * One turn of the loop of `afficherListe`: a stamp without "T" throws with
   * nothing appended; otherwise the date header when the day changes, then
   * the hour's row.
   */
  method AppendHour(data: DetailForecast, today: string, now: nat, i: nat, prev: string,
                    items: seq<ListItem>, ghost goal: Rendering)
    returns (next: seq<ListItem>, date: string, thrown: bool)
    requires i < |data.time|
    requires items + RowsFrom(data, today, now, i, prev).items == goal.items
    requires RowsFrom(data, today, now, i, prev).completed == goal.completed
    ensures thrown <==> 'T' !in data.time[i]
    ensures thrown ==> next == items && goal == Rendering(items, false)
    ensures !thrown ==> (date == DatePart(data.time[i])
                         && next + RowsFrom(data, today, now, i + 1, date).items == goal.items
                         && RowsFrom(data, today, now, i + 1, date).completed == goal.completed)
  {
    var heureSeule := TimePart(data.time[i]);
    if heureSeule.None? {
      RowsFromAtBadStamp(data, today, now, i, prev);
      return items, prev, true;
    }
    date := DatePart(data.time[i]);
    ListStep(data, today, now, i, prev, items, goal);
    var header := if date != prev then [DateHeader(date)] else [];
    next := items + header + [RowFor(data, i, today, now)];
    thrown := false;
  }

  /** `afficherListe(data)` at the current hour `now`. */
  function Rendered(data: DetailForecast, now: nat): Rendering {
    if data.time == [] then Rendering([], false)
    else RowsFrom(data, DatePart(data.time[0]), now, 0, "")
  }

  /** Every stamp carries a "T": `afficherListe` then runs to its end. */
  predicate Readable(data: DetailForecast) {
    data.time != [] && Stamped(data)
  }

  lemma {:induction false} RowsFromCompleted(data: DetailForecast, today: string, now: nat, i: nat, prev: string)
    requires i <= |data.time|
    ensures RowsFrom(data, today, now, i, prev).completed <==> forall k :: i <= k < |data.time| ==> 'T' in data.time[k]
    decreases |data.time| - i
  {
    if i < |data.time| && 'T' in data.time[i] {
      RowsFromCompleted(data, today, now, i + 1, DatePart(data.time[i]));
    }
  }

  /** `afficherListe` returns exactly when the hours are readable. */
  lemma RenderedCompletes(data: DetailForecast, now: nat)
    ensures Rendered(data, now).completed <==> Readable(data)
  {
    if data.time != [] {
      RowsFromCompleted(data, DatePart(data.time[0]), now, 0, "");
    }
  }

  /** At a stamp without "T" the loop throws before appending anything. */
  lemma RowsFromAtBadStamp(data: DetailForecast, today: string, now: nat, i: nat, prev: string)
    requires i < |data.time| && 'T' !in data.time[i]
    ensures RowsFrom(data, today, now, i, prev) == Rendering([], false)
  {
    assert TimePart(data.time[i]).None?;
  }

  /** A first stamp without "T" makes the first turn of the loop throw, with nothing appended. */
  lemma RenderedBadFirstStamp(data: DetailForecast, now: nat)
    requires data.time != [] && 'T' !in data.time[0]
    ensures Rendered(data, now) == Rendering([], false)
  {
    RowsFromAtBadStamp(data, DatePart(data.time[0]), now, 0, "");
  }

  /******************************************************************************/
  /* The layout of a complete list                                              */
  /******************************************************************************/

  /** The date hour `i` is compared with: that of hour `i - 1`, and "" before the first. */
  function PreviousOf(dates: seq<string>, i: nat): string
    requires i <= |dates|
  {
    if i == 0 then "" else dates[i - 1]
  }

  /** The header before hour `i`: present exactly when a new day starts there. */
  function HeaderAt(dates: seq<string>, i: nat): (h: seq<ListItem>)
    requires i < |dates|
    ensures h != [] <==> dates[i] != PreviousOf(dates, i)
  {
    if dates[i] != PreviousOf(dates, i) then [DateHeader(dates[i])] else []
  }

  /** Hours `i..` laid out: each row after the header of its day, if a new day starts there. */
  function Layout(dates: seq<string>, rows: seq<ListItem>, i: nat): seq<ListItem>
    requires |rows| == |dates| && i <= |dates|
    decreases |dates| - i
  {
    if i == |dates| then [] else HeaderAt(dates, i) + [rows[i]] + Layout(dates, rows, i + 1)
  }

  /** The headers of hours `i..`: one per hour whose date differs from the hour before. */
  function Headers(dates: seq<string>, i: nat): seq<ListItem>
    requires i <= |dates|
    decreases |dates| - i
  {
    if i == |dates| then [] else HeaderAt(dates, i) + Headers(dates, i + 1)
  }

  lemma HeaderFilters(dates: seq<string>, i: nat)
    requires i < |dates|
    ensures Filter(HeaderAt(dates, i), IsHourRow) == []
    ensures Filter(HeaderAt(dates, i), IsDateHeader) == HeaderAt(dates, i)
  {
    if HeaderAt(dates, i) != [] {
      assert HeaderAt(dates, i)[1..] == [];
    }
  }

  lemma {:induction false} LayoutRows(dates: seq<string>, rows: seq<ListItem>, i: nat)
    requires |rows| == |dates| && i <= |dates|
    requires forall k :: 0 <= k < |rows| ==> rows[k].HourRow?
    ensures Filter(Layout(dates, rows, i), IsHourRow) == rows[i..]
    decreases |dates| - i
  {
    if i < |dates| {
      LayoutRows(dates, rows, i + 1);
      HeaderFilters(dates, i);
      assert IsHourRow(rows[i]);
      FilterKeepsMiddle(HeaderAt(dates, i), rows[i], Layout(dates, rows, i + 1), IsHourRow);
      SuffixCons(rows, i);
    }
  }

  lemma {:induction false} LayoutHeaders(dates: seq<string>, rows: seq<ListItem>, i: nat)
    requires |rows| == |dates| && i <= |dates|
    requires forall k :: 0 <= k < |rows| ==> rows[k].HourRow?
    ensures Filter(Layout(dates, rows, i), IsDateHeader) == Headers(dates, i)
    decreases |dates| - i
  {
    if i < |dates| {
      LayoutHeaders(dates, rows, i + 1);
      HeaderFilters(dates, i);
      assert !IsDateHeader(rows[i]);
      FilterDropsMiddle(HeaderAt(dates, i), rows[i], Layout(dates, rows, i + 1), IsDateHeader);
    }
  }

  /** The dates of the stamps. */
  function Dates(data: DetailForecast): (dates: seq<string>)
    ensures |dates| == |data.time|
    ensures forall i :: 0 <= i < |data.time| ==> dates[i] == DatePart(data.time[i])
  {
    seq(|data.time|, i requires 0 <= i < |data.time| => DatePart(data.time[i]))
  }

  /** Every stamp holds a "T". */
  predicate Stamped(data: DetailForecast) {
    forall i :: 0 <= i < |data.time| ==> 'T' in data.time[i]
  }

  /** The rows of the stamps, in their order. */
  function HourRows(data: DetailForecast, today: string, now: nat): (rows: seq<ListItem>)
    requires Stamped(data)
    ensures |rows| == |data.time|
    ensures forall i :: 0 <= i < |data.time| ==> rows[i] == RowFor(data, i, today, now)
  {
    seq(|data.time|, i requires 0 <= i < |data.time| && 'T' in data.time[i] => RowFor(data, i, today, now))
  }

  lemma RowsFromIsLayout(data: DetailForecast, today: string, now: nat, i: nat)
    requires Stamped(data) && i <= |data.time|
    ensures RowsFrom(data, today, now, i, PreviousOf(Dates(data), i)) ==
      Rendering(Layout(Dates(data), HourRows(data, today, now), i), true)
  {
    var dates, rows := Dates(data), HourRows(data, today, now);
    var rs := seq(|dates| + 1, k requires 0 <= k <= |dates| => RowsFrom(data, today, now, k, PreviousOf(dates, k)));
    forall k | i <= k < |dates|
      ensures rs[k] == Rendering(HeaderAt(dates, k) + [rows[k]] + rs[k + 1].items, rs[k + 1].completed)
    {
      RowsFromAt(data, today, now, k);
    }
    LayoutFromSteps(dates, rows, rs, i);
  }

  /** Renderings that grow hour by hour as `RowsFrom` does are the layout. */
  lemma {:induction false} LayoutFromSteps(dates: seq<string>, rows: seq<ListItem>, rs: seq<Rendering>, i: nat)
    requires |rows| == |dates| && |rs| == |dates| + 1 && i <= |dates|
    requires rs[|dates|] == Rendering([], true)
    requires forall k :: i <= k < |dates| ==>
      rs[k] == Rendering(HeaderAt(dates, k) + [rows[k]] + rs[k + 1].items, rs[k + 1].completed)
    ensures rs[i] == Rendering(Layout(dates, rows, i), true)
    decreases |dates| - i
  {
    if i < |dates| {
      LayoutFromSteps(dates, rows, rs, i + 1);
      LayoutAt(dates, rows, i);
    }
  }

  lemma LayoutAt(dates: seq<string>, rows: seq<ListItem>, i: nat)
    requires |rows| == |dates| && i < |dates|
    ensures Layout(dates, rows, i) == HeaderAt(dates, i) + [rows[i]] + Layout(dates, rows, i + 1)
  {
  }

  /** One hour of a stamped series: the header of hour `i`, its row, then the hours after. */
  lemma RowsFromAt(data: DetailForecast, today: string, now: nat, i: nat)
    requires Stamped(data) && i < |data.time|
    ensures RowsFrom(data, today, now, i, PreviousOf(Dates(data), i)) ==
      Rendering(HeaderAt(Dates(data), i) + [HourRows(data, today, now)[i]] + RowsFrom(data, today, now, i + 1, PreviousOf(Dates(data), i + 1)).items,
                RowsFrom(data, today, now, i + 1, PreviousOf(Dates(data), i + 1)).completed)
  {
    var t, dates := data.time[i], Dates(data);
    assert TimePart(t).Some?;
    assert dates[i] == DatePart(t) && PreviousOf(dates, i + 1) == DatePart(t);
  }

  /** A readable answer is listed hour by hour: each date header sits right before the first hour of its day. */
  lemma RenderedIsLayout(data: DetailForecast, now: nat)
    requires Readable(data)
    ensures Rendered(data, now) == Rendering(Layout(Dates(data), HourRows(data, DatePart(data.time[0]), now), 0), true)
  {
    RowsFromIsLayout(data, DatePart(data.time[0]), now, 0);
  }

  /**
   * A readable answer is listed with exactly one row per stamp, in their
   * order, and with one header per hour whose date differs from the hour
   * before, in order: one per run of hours sharing a date.
   */
  lemma ListedHours(data: DetailForecast, now: nat)
    requires Readable(data)
    ensures Filter(Rendered(data, now).items, IsHourRow) == HourRows(data, DatePart(data.time[0]), now)
    ensures Filter(Rendered(data, now).items, IsDateHeader) == Headers(Dates(data), 0)
  {
    var rows := HourRows(data, DatePart(data.time[0]), now);
    RenderedIsLayout(data, now);
    LayoutRows(Dates(data), rows, 0);
    LayoutHeaders(Dates(data), rows, 0);
    assert rows[0..] == rows;
  }

  /******************************************************************************/
  /* Loading the page                                                           */
  /******************************************************************************/

  /** The request `recupererDonneesAPI` sends: three hourly series over three days, in local time. */
  function DetailQuery(at: Coord): ForecastQuery {
    ForecastQuery(at, false, ["temperature_2m", "precipitation_probability", "weathercode"], 3, true)
  }

  /**
   * The page: the list items, the requests sent, and whether a promise chain
   * has ended in an error nothing catches.
   */
  datatype DetailPage = DetailPage(list: seq<ListItem>, requests: seq<ForecastQuery>, uncaught: bool)

  const BLANK := DetailPage([], [], false)

  datatype Screen = Screen(page: DetailPage, store: Storage)

  /**
   * `recupererDonneesAPI(lat, lon)` once its fetch settles: `Success` is the
   * parsed answer, `Failure` a failed request or an answer that is not JSON.
   * A throw of `afficherListe` on the fresh answer lands in the catch, which
   * renders the just-cached answer again and throws in turn.
   */
  function Fetched(s: Screen, at: Coord, reply: Result<DetailForecast>, now: nat): (r: Screen)
    ensures r.page.requests == s.page.requests + [DetailQuery(at)]
    ensures reply.Success? ==> r.store == s.store.(meteoCacheDetail := Some(reply.value))
    ensures reply.Failure? ==> r.store == s.store
  {
    var requests := s.page.requests + [DetailQuery(at)];
    match reply
    case Success(data) =>
      var shown := Rendered(data, now);
      Screen(DetailPage(shown.items, requests, s.page.uncaught || !shown.completed), s.store.(meteoCacheDetail := Some(data)))
    case Failure =>
      match s.store.meteoCacheDetail
      case Some(cached) =>
        var shown := Rendered(cached, now);
        var list := if shown.completed then [OfflineBanner] + shown.items else shown.items;
        Screen(DetailPage(list, requests, s.page.uncaught || !shown.completed), s.store)
      case None => Screen(DetailPage([NoConnection], requests, s.page.uncaught), s.store)
  }

  /** `chargerMeteoDetaillee()`: no position, no request. */
  function Loaded(s: Screen, reply: Result<DetailForecast>, now: nat): (r: Screen)
    ensures s.store.lastKnownLocation.None? ==> r == s.(page := s.page.(list := [PositionNotFound]))
    ensures s.store.lastKnownLocation.Some? ==> r == Fetched(s, s.store.lastKnownLocation.value, reply, now)
  {
    match s.store.lastKnownLocation
    case None => s.(page := s.page.(list := [PositionNotFound]))
    case Some(at) => Fetched(s, at, reply, now)
  }

  /** Without a stored position only the error item is shown and nothing is fetched. */
  lemma NoPositionNoFetch(s: Screen, reply: Result<DetailForecast>, now: nat)
    requires s.store.lastKnownLocation.None?
    ensures Loaded(s, reply, now).page.list == [PositionNotFound]
    ensures Loaded(s, reply, now).page.requests == s.page.requests
    ensures Loaded(s, reply, now).store == s.store
  {
  }

  /** With a stored position the request is for that position. */
  lemma FetchUsesStoredPosition(s: Screen, reply: Result<DetailForecast>, now: nat)
    requires s.store.lastKnownLocation.Some?
    ensures Loaded(s, reply, now).page.requests == s.page.requests + [DetailQuery(s.store.lastKnownLocation.value)]
  {
  }

  /** A readable answer is cached exactly and listed as it is, with no banner and no new error. */
  lemma OnlineShowsAnswer(s: Screen, at: Coord, data: DetailForecast, now: nat)
    requires Readable(data)
    ensures Fetched(s, at, Success(data), now).store.meteoCacheDetail == Some(data)
    ensures Fetched(s, at, Success(data), now).page.list == Rendered(data, now).items
    ensures Fetched(s, at, Success(data), now).page.uncaught == s.page.uncaught
    ensures OfflineBanner !in Fetched(s, at, Success(data), now).page.list
  {
    RenderedCompletes(data, now);
    RenderedHasNoNotice(data, now);
  }

  /**
   * An answer without hours, or with a stamp lacking "T", is still cached; the
   * render throws, the catch renders the same answer again and throws too, so
   * the error escapes and the list keeps what the render appended, with no banner.
   */
  lemma UnreadableAnswerEscapes(s: Screen, at: Coord, data: DetailForecast, now: nat)
    requires !Readable(data)
    ensures Fetched(s, at, Success(data), now).store.meteoCacheDetail == Some(data)
    ensures Fetched(s, at, Success(data), now).page.uncaught
    ensures Fetched(s, at, Success(data), now).page.list == Rendered(data, now).items
    ensures OfflineBanner !in Fetched(s, at, Success(data), now).page.list
  {
    RenderedCompletes(data, now);
    RenderedHasNoNotice(data, now);
  }

  /** Offline with a readable cache: the banner, then the cached list. */
  lemma OfflineShowsCache(s: Screen, at: Coord, now: nat)
    requires s.store.meteoCacheDetail.Some? && Readable(s.store.meteoCacheDetail.value)
    ensures Fetched(s, at, Failure, now).page.list == [OfflineBanner] + Rendered(s.store.meteoCacheDetail.value, now).items
    ensures Fetched(s, at, Failure, now).page.uncaught == s.page.uncaught
  {
    RenderedCompletes(s.store.meteoCacheDetail.value, now);
  }

  /**
   * Offline with a cache that does not render (no hours, or a stamp without
   * "T"): no banner, the rows appended before the throw, and the error escapes.
   */
  lemma OfflineUnreadableCache(s: Screen, at: Coord, now: nat)
    requires s.store.meteoCacheDetail.Some? && !Readable(s.store.meteoCacheDetail.value)
    ensures Fetched(s, at, Failure, now).page.list == Rendered(s.store.meteoCacheDetail.value, now).items
    ensures OfflineBanner !in Fetched(s, at, Failure, now).page.list
    ensures Fetched(s, at, Failure, now).page.uncaught
    ensures Fetched(s, at, Failure, now).store == s.store
  {
    RenderedCompletes(s.store.meteoCacheDetail.value, now);
    RenderedHasNoNotice(s.store.meteoCacheDetail.value, now);
  }

  /** Offline without a cache: exactly the "no connection" item. */
  lemma OfflineWithoutCache(s: Screen, at: Coord, now: nat)
    requires s.store.meteoCacheDetail.None?
    ensures Fetched(s, at, Failure, now).page.list == [NoConnection]
    ensures Fetched(s, at, Failure, now).store == s.store
  {
  }

  lemma {:induction false} RowsFromHasNoNotice(data: DetailForecast, today: string, now: nat, i: nat, prev: string)
    requires i <= |data.time|
    ensures forall x :: x in RowsFrom(data, today, now, i, prev).items ==> x.DateHeader? || x.HourRow?
    decreases |data.time| - i
  {
    if i < |data.time| && 'T' in data.time[i] {
      RowsFromHasNoNotice(data, today, now, i + 1, DatePart(data.time[i]));
    }
  }

  /** `afficherListe` only appends date headers and hour rows. */
  lemma RenderedHasNoNotice(data: DetailForecast, now: nat)
    ensures forall x :: x in Rendered(data, now).items ==> x.DateHeader? || x.HourRow?
  {
    if data.time != [] {
      RowsFromHasNoNotice(data, DatePart(data.time[0]), now, 0, "");
    }
  }

  /******************************************************************************/
  /* The page as mutable state                                                  */
  /******************************************************************************/

  class DetailForecastPage {
    var list: seq<ListItem>            // the items of `liste-heures`
    var requests: seq<ForecastQuery>   // the requests sent to the provider
    var uncaught: bool                 // a promise chain ended in an uncaught error
    const ls: LocalStorage

    function State(): Screen
      reads this, ls
    {
      Screen(DetailPage(list, requests, uncaught), ls.State())
    }

    constructor (storage: LocalStorage)
      ensures ls == storage && State() == Screen(BLANK, storage.State())
    {
      list, requests, uncaught := [], [], false;
      ls := storage;
    }

    /** `afficherListe(data)` at hour `now`; `completed` is false where the source throws. */
    method AfficherListe(data: DetailForecast, now: nat) returns (completed: bool)
      modifies this`list
      ensures Rendering(list, completed) == Rendered(data, now)
    {
      list := [];
      if |data.time| == 0 {
        return false;
      }
      var aujourdhui := DatePart(data.time[0]);
      var datePrecedente := "";
      ghost var goal := Rendered(data, now);
      var items: seq<ListItem> := [];   // what the loop has appended to the list so far
      for i := 0 to |data.time|
        invariant items + RowsFrom(data, aujourdhui, now, i, datePrecedente).items == goal.items
        invariant RowsFrom(data, aujourdhui, now, i, datePrecedente).completed == goal.completed
      {
        var thrown;
        items, datePrecedente, thrown := AppendHour(data, aujourdhui, now, i, datePrecedente, items, goal);
        if thrown {
          list := items;
          return false;
        }
      }
      list := items;
      return true;
    }

    /** `recupererDonneesAPI(lat, lon)` with the settled fetch. */
    method RecupererDonneesAPI(at: Coord, reply: Result<DetailForecast>, now: nat)
      modifies this, ls
      ensures State() == Fetched(old(State()), at, reply, now)
    {
      requests := requests + [DetailQuery(at)];
      match reply
      case Success(data) =>
        ls.meteoCacheDetail := Some(data);
        var ok := AfficherListe(data, now);
        if !ok {
          ok := AfficherListe(ls.meteoCacheDetail.value, now);
          uncaught := true;
        }
      case Failure =>
        var cache := ls.meteoCacheDetail;
        if cache.Some? {
          var ok := AfficherListe(cache.value, now);
          if ok {
            list := [OfflineBanner] + list;
          } else {
            uncaught := true;
          }
        } else {
          list := [NoConnection];
        }
    }

    /** The load handler `chargerMeteoDetaillee()`. */
    method ChargerMeteoDetaillee(reply: Result<DetailForecast>, now: nat)
      modifies this, ls
      ensures State() == Loaded(old(State()), reply, now)
    {
      var position := ls.lastKnownLocation;
      if position.None? {
        list := [PositionNotFound];
        return;
      }
      RecupererDonneesAPI(position.value, reply, now);
    }
  }
}
