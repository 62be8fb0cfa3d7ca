/**
 * The horse page: the profile form, the log of care events kept in
 * `localStorage` under "equitrack_save_events", the history list (newest
 * first, one icon per kind) and the entries handed to the calendar widget.
 *
 * Dates are the "YYYY-MM-DD" strings of a date input; for those, comparing
 * the strings character by character orders them as `new Date(...)` does.
 */
module CareLog {
  import opened Wrappers
  import opened Sequences
  import opened Browser

  /******************************************************************************/
  /* Stored events                                                              */
  /******************************************************************************/

  /** `recupererEvenements()`: the stored list, or an empty one when the key was never written. */
  function StoredEvents(st: Storage): (events: seq<CareEvent>)
    ensures st.saveEvents.None? ==> events == []
  {
    match st.saveEvents
    case None => []
    case Some(events) => events
  }

  /** The add-event click once the date is filled in: the new event is pushed and the list stored. */
  function EventAdded(st: Storage, e: CareEvent): (r: Storage)
    ensures StoredEvents(r) == StoredEvents(st) + [e]
    ensures r.(saveEvents := st.saveEvents) == st
  {
    st.(saveEvents := Some(StoredEvents(st) + [e]))
  }

  /** The whole add-event click: an empty date is refused and nothing is stored. */
  function AddClicked(st: Storage, kind: string, date: string, desc: string, now: int): (r: Storage)
    ensures date == "" ==> r == st
    ensures date != "" ==> StoredEvents(r) == StoredEvents(st) + [CareEvent(now, kind, date, desc)]
    ensures r.(saveEvents := st.saveEvents) == st
  {
    if date == "" then st else EventAdded(st, CareEvent(now, kind, date, desc))
  }

  /** The filter of `supprimerEvent(id)`: keep the events whose id differs. */
  function KeepsOther(id: int): CareEvent -> bool {
    (e: CareEvent) => e.id != id
  }

  function WithoutId(events: seq<CareEvent>, id: int): (r: seq<CareEvent>)
    ensures forall e :: e in r <==> e in events && e.id != id
    ensures forall e :: multiset(r)[e] == if e.id != id then multiset(events)[e] else 0
    ensures IsSubsequence(r, events)
  {
    FilterMembers(events, KeepsOther(id));
    FilterCounts(events, KeepsOther(id));
    FilterIsSubsequence(events, KeepsOther(id));
    Filter(events, KeepsOther(id))
  }

  /** A confirmed `supprimerEvent(id)`: the remaining events are stored. */
  function EventDeleted(st: Storage, id: int): (r: Storage)
    ensures StoredEvents(r) == WithoutId(StoredEvents(st), id)
    ensures r.(saveEvents := st.saveEvents) == st
  {
    st.(saveEvents := Some(WithoutId(StoredEvents(st), id)))
  }

  /** The loop of `supprimerEvent(id)` that builds `reste`. */
  method RemainingEvents(events: seq<CareEvent>, id: int) returns (reste: seq<CareEvent>)
    ensures reste == WithoutId(events, id)
  {
    reste := [];
    for i := 0 to |events|
      invariant reste == WithoutId(events[..i], id)
    {
      FilterAppend(events[..i], [events[i]], KeepsOther(id));
      assert events[..i + 1] == events[..i] + [events[i]];
      assert Filter([events[i]], KeepsOther(id)) == if events[i].id != id then [events[i]] else [] by {
        assert [events[i]][1..] == [];
      }
      if events[i].id != id {
        reste := reste + [events[i]];
      }
    }
    assert events[..|events|] == events;
  }

  /** Deleting an id no event carries leaves the list as it was. */
  lemma DeleteAbsentIdKeepsList(events: seq<CareEvent>, id: int)
    requires forall i :: 0 <= i < |events| ==> events[i].id != id
    ensures WithoutId(events, id) == events
  {
    FilterKeepsAll(events, KeepsOther(id));
  }

  /** Deleting the event just added, under an id no earlier event carries, restores the earlier list. */
  lemma DeleteUndoesAdd(st: Storage, e: CareEvent)
    requires forall i :: 0 <= i < |StoredEvents(st)| ==> StoredEvents(st)[i].id != e.id
    ensures StoredEvents(EventDeleted(EventAdded(st, e), e.id)) == StoredEvents(st)
  {
    var events := StoredEvents(st);
    FilterAppend(events, [e], KeepsOther(e.id));
    FilterKeepsAll(events, KeepsOther(e.id));
    assert Filter([e], KeepsOther(e.id)) == [] by {
      assert [e][1..] == [];
    }
  }

  /******************************************************************************/
  /* Calendar entries                                                           */
  /******************************************************************************/

  const DEFAULT_COLOR := "#3788d8"

  /** The background and border colour of a calendar entry, chosen by kind. */
  function EventColor(kind: string): (color: string)
    ensures kind == "vaccin" ==> color == "#e91e63"
    ensures kind == "marechal" ==> color == "#795548"
    ensures kind == "osteo" ==> color == "#9c27b0"
    ensures kind == "concours" ==> color == "#ff9800"
    ensures kind !in {"vaccin", "marechal", "osteo", "concours"} ==> color == DEFAULT_COLOR
  {
    if kind == "vaccin" then "#e91e63"
    else if kind == "marechal" then "#795548"
    else if kind == "osteo" then "#9c27b0"
    else if kind == "concours" then "#ff9800"
    else DEFAULT_COLOR
  }

  /** `toUpperCase()` on letters a to z; every other character is kept. */
  function UpperAscii(s: string): (r: string)
    ensures |r| == |s|
    ensures forall i :: 0 <= i < |s| ==> ('a' <= s[i] <= 'z' ==> r[i] as int == s[i] as int - 32)
    ensures forall i :: 0 <= i < |s| ==> (!('a' <= s[i] <= 'z') ==> r[i] == s[i])
  {
    if s == [] then []
    else [if 'a' <= s[0] <= 'z' then (s[0] as int - 32) as char else s[0]] + UpperAscii(s[1..])
  }

  /** The title of a calendar entry: the upper-cased kind, then " - " and the description when there is one. */
  function Title(e: CareEvent): (t: string)
    ensures e.desc == "" ==> t == UpperAscii(e.kind)
    ensures e.desc != "" ==> t == UpperAscii(e.kind) + " - " + e.desc
  {
    UpperAscii(e.kind) + (if e.desc != "" then " - " + e.desc else "")
  }

  /** One object of `formattedEvents`. */
  datatype CalendarEntry = CalendarEntry(id: int, title: string, start: string, color: string)

  function EntryFor(e: CareEvent): CalendarEntry {
    CalendarEntry(e.id, Title(e), e.date, EventColor(e.kind))
  }

  /** The loop of `preparerEvenementsPourCalendrier`: one entry per event, in order. */
  method CalendarEntries(events: seq<CareEvent>) returns (entries: seq<CalendarEntry>)
    ensures |entries| == |events|
    ensures forall i :: 0 <= i < |events| ==> entries[i] == EntryFor(events[i])
    ensures forall i :: 0 <= i < |events| ==>
      entries[i].id == events[i].id && entries[i].start == events[i].date && entries[i].color == EventColor(events[i].kind)
  {
    entries := [];
    for i := 0 to |events|
      invariant |entries| == i
      invariant forall k :: 0 <= k < i ==> entries[k] == EntryFor(events[k])
    {
      var entry := EntryFor(events[i]);
      EntriesGrow(entries, events, entry);
      entries := entries + [entry];
    }
  }

  /** One turn of the loop of `preparerEvenementsPourCalendrier`. */
  lemma EntriesGrow(entries: seq<CalendarEntry>, events: seq<CareEvent>, entry: CalendarEntry)
    requires |entries| < |events| && entry == EntryFor(events[|entries|])
    requires forall k :: 0 <= k < |entries| ==> entries[k] == EntryFor(events[k])
    ensures forall k :: 0 <= k < |entries| + 1 ==> (entries + [entry])[k] == EntryFor(events[k])
  {
    forall k | 0 <= k < |entries| + 1 ensures (entries + [entry])[k] == EntryFor(events[k]) {
      if k < |entries| {
        assert (entries + [entry])[k] == entries[k];
      }
    }
  }

  /******************************************************************************/
  /* History                                                                    */
  /******************************************************************************/

  /** `a` is not later than `b`: the strings compared character by character. */
  predicate NotAfter(a: string, b: string)
    decreases |a|
  {
    a == [] || (b != [] && (a[0] < b[0] || (a[0] == b[0] && NotAfter(a[1..], b[1..]))))
  }

  lemma {:induction false} NotAfterTotal(a: string, b: string)
    ensures NotAfter(a, b) || NotAfter(b, a)
    decreases |a|
  {
    if a != [] && b != [] && a[0] == b[0] {
      NotAfterTotal(a[1..], b[1..]);
    }
  }

  lemma {:induction false} NotAfterTransitive(a: string, b: string, c: string)
    requires NotAfter(a, b) && NotAfter(b, c)
    ensures NotAfter(a, c)
    decreases |a|
  {
    if a != [] && a[0] == b[0] && b[0] == c[0] {
      NotAfterTransitive(a[1..], b[1..], c[1..]);
    }
  }

  /** Each event is at least as recent as every event after it. */
  ghost predicate NewestFirstOrder(s: seq<CareEvent>) {
    forall i, j :: 0 <= i < j < |s| ==> NotAfter(s[j].date, s[i].date)
  }

  /** Place `e` before the first event that is not more recent; equal dates keep `e` first. */
  function Insert(e: CareEvent, sorted: seq<CareEvent>): (r: seq<CareEvent>)
    ensures multiset(r) == multiset(sorted) + multiset{e}
    ensures |r| == |sorted| + 1
  {
    if sorted == [] then [e]
    else if NotAfter(sorted[0].date, e.date) then [e] + sorted
    else
      var rest := Insert(e, sorted[1..]);
      assert sorted == [sorted[0]] + sorted[1..];
      [sorted[0]] + rest
  }

  lemma {:induction false} InsertKeepsOrder(e: CareEvent, sorted: seq<CareEvent>)
    requires NewestFirstOrder(sorted)
    ensures NewestFirstOrder(Insert(e, sorted))
    decreases |sorted|
  {
    if sorted == [] {
    } else if NotAfter(sorted[0].date, e.date) {
      forall x | x in sorted ensures NotAfter(x.date, e.date) {
        var k :| 0 <= k < |sorted| && sorted[k] == x;
        if k > 0 {
          NotAfterTransitive(sorted[k].date, sorted[0].date, e.date);
        }
      }
      ConsKeepsOrder(e, sorted);
    } else {
      NotAfterTotal(sorted[0].date, e.date);
      var tail := sorted[1..];
      TailKeepsOrder(sorted);
      InsertKeepsOrder(e, tail);
      var rest := Insert(e, tail);
      forall x | x in rest ensures NotAfter(x.date, sorted[0].date) {
        assert x in multiset(rest);
        if x != e {
          assert x in multiset(tail);
          var k :| 0 <= k < |tail| && tail[k] == x;
          assert x == sorted[k + 1];
        }
      }
      ConsKeepsOrder(sorted[0], rest);
    }
  }

  /** An event no older than any of a newest-first sequence can go in front of it. */
  lemma ConsKeepsOrder(h: CareEvent, s: seq<CareEvent>)
    requires NewestFirstOrder(s)
    requires forall x :: x in s ==> NotAfter(x.date, h.date)
    ensures NewestFirstOrder([h] + s)
  {
    var r := [h] + s;
    forall i, j | 0 <= i < j < |r| ensures NotAfter(r[j].date, r[i].date) {
      if i == 0 {
        assert r[j] == s[j - 1] && r[j] in s;
      } else {
        assert r[i] == s[i - 1] && r[j] == s[j - 1];
      }
    }
  }

  /** Dropping the newest event keeps the order. */
  lemma TailKeepsOrder(s: seq<CareEvent>)
    requires NewestFirstOrder(s) && s != []
    ensures NewestFirstOrder(s[1..])
  {
    var tail := s[1..];
    forall i, j | 0 <= i < j < |tail| ensures NotAfter(tail[j].date, tail[i].date) {
      assert tail[i] == s[i + 1] && tail[j] == s[j + 1];
    }
  }

  /**
   * `events.sort((a, b) => new Date(b.date) - new Date(a.date))`: the same
   * events, newest first (an insertion sort on the date strings).
   */
  function NewestFirst(events: seq<CareEvent>): (r: seq<CareEvent>)
    ensures multiset(r) == multiset(events)
    ensures NewestFirstOrder(r)
    decreases |events|
  {
    if events == [] then []
    else
      var rest := NewestFirst(events[1..]);
      InsertKeepsOrder(events[0], rest);
      assert events == [events[0]] + events[1..];
      Insert(events[0], rest)
  }

  /** The avatar icon of a history line, chosen by kind. */
  function Icon(kind: string): (icon: string)
    ensures kind == "vaccin" ==> icon == "local_hospital"
    ensures kind == "marechal" ==> icon == "build"
    ensures kind == "osteo" ==> icon == "accessibility"
    ensures kind == "cours" || kind == "concours" ==> icon == "emoji_events"
    ensures kind !in {"vaccin", "marechal", "osteo", "cours", "concours"} ==> icon == "event"
  {
    if kind == "vaccin" then "local_hospital"
    else if kind == "marechal" then "build"
    else if kind == "osteo" then "accessibility"
    else if kind == "cours" || kind == "concours" then "emoji_events"
    else "event"
  }

  /** One line of the history list, and the id its delete button passes to `supprimerEvent`. */
  datatype HistoryItem = HistoryItem(icon: string, kind: string, date: string, desc: string, id: int)

  /** The history list: "Aucun historique." or the lines. */
  datatype History = NoHistory | Lines(items: seq<HistoryItem>)

  function ItemFor(e: CareEvent): HistoryItem {
    HistoryItem(Icon(e.kind), UpperAscii(e.kind), e.date, e.desc, e.id)
  }

  /** The loop of `chargerHistorique` over the sorted events. */
  method HistoryLines(sorted: seq<CareEvent>) returns (items: seq<HistoryItem>)
    ensures |items| == |sorted|
    ensures forall i :: 0 <= i < |sorted| ==> items[i] == ItemFor(sorted[i])
  {
    items := [];
    for i := 0 to |sorted|
      invariant |items| == i
      invariant forall k :: 0 <= k < i ==> items[k] == ItemFor(sorted[k])
    {
      var item := ItemFor(sorted[i]);
      ItemsGrow(items, sorted, item);
      items := items + [item];
    }
  }

  /** One turn of the loop of `chargerHistorique`. */
  lemma ItemsGrow(items: seq<HistoryItem>, sorted: seq<CareEvent>, item: HistoryItem)
    requires |items| < |sorted| && item == ItemFor(sorted[|items|])
    requires forall k :: 0 <= k < |items| ==> items[k] == ItemFor(sorted[k])
    ensures forall k :: 0 <= k < |items| + 1 ==> (items + [item])[k] == ItemFor(sorted[k])
  {
    forall k | 0 <= k < |items| + 1 ensures (items + [item])[k] == ItemFor(sorted[k]) {
      if k < |items| {
        assert (items + [item])[k] == items[k];
      }
    }
  }

  /** What `chargerHistorique()` shows for the stored events. */
  ghost predicate ShowsHistory(h: History, events: seq<CareEvent>) {
    if events == [] then h == NoHistory
    else
      var sorted := NewestFirst(events);
      h.Lines? && |h.items| == |sorted| && forall i :: 0 <= i < |sorted| ==> h.items[i] == ItemFor(sorted[i])
  }

  /** The history lines are newest first, one per stored event, and each delete button targets its event. */
  lemma HistoryIsNewestFirst(h: History, events: seq<CareEvent>)
    requires ShowsHistory(h, events) && events != []
    ensures |h.items| == |events|
    ensures forall i, j :: 0 <= i < j < |h.items| ==> NotAfter(h.items[j].date, h.items[i].date)
    ensures forall i :: 0 <= i < |h.items| ==> exists e :: e in events && h.items[i] == ItemFor(e)
    ensures exists sorted: seq<CareEvent> ::
      multiset(sorted) == multiset(events) && |sorted| == |h.items| &&
      forall i :: 0 <= i < |sorted| ==> h.items[i] == ItemFor(sorted[i])
  {
    var sorted := NewestFirst(events);
    assert multiset(sorted) == multiset(events);
    assert |multiset(sorted)| == |multiset(events)|;
    forall i | 0 <= i < |h.items| ensures exists e :: e in events && h.items[i] == ItemFor(e) {
      assert sorted[i] in multiset(events);
    }
  }

  /******************************************************************************/
  /* Profile                                                                    */
  /******************************************************************************/

  /** The save-profile click stores the three inputs under "equitrack_save_info". */
  function ProfileSaved(st: Storage, info: HorseInfo): (r: Storage)
    ensures r.saveInfo == Some(info)
    ensures r.(saveInfo := st.saveInfo) == st
  {
    st.(saveInfo := Some(info))
  }

  /** What the three inputs hold after `chargerInfoCheval()`, given what they showed before. */
  function ProfileLoaded(st: Storage, shown: HorseInfo): (r: HorseInfo)
    ensures st.saveInfo.Some? ==> r == st.saveInfo.value
    ensures st.saveInfo.None? ==> r == shown
  {
    if st.saveInfo.Some? then st.saveInfo.value else shown
  }

  /** Saving the profile and loading it again gives back the same name, breed and age. */
  lemma ProfileRoundTrip(st: Storage, info: HorseInfo, shown: HorseInfo)
    ensures ProfileLoaded(ProfileSaved(st, info), shown) == info
  {
  }

  /******************************************************************************/
  /* The page as mutable state                                                  */
  /******************************************************************************/

  class HorsePage {
    var nom: string           // the three profile inputs
    var race: string
    var age: string
    var descInput: string     // the description input of the event form
    var history: History
    var calendar: Option<seq<CalendarEntry>>   // None while calendarApi is null
    const ls: LocalStorage

    constructor (storage: LocalStorage)
      ensures ls == storage && calendar == None && history == NoHistory
      ensures nom == "" && race == "" && age == "" && descInput == ""
    {
      nom, race, age, descInput := "", "", "", "";
      history, calendar := NoHistory, None;
      ls := storage;
    }

    method RecupererEvenements() returns (events: seq<CareEvent>)
      ensures events == StoredEvents(ls.State())
    {
      events := if ls.saveEvents.Some? then ls.saveEvents.value else [];
    }

    method PreparerEvenementsPourCalendrier() returns (entries: seq<CalendarEntry>)
      ensures |entries| == |StoredEvents(ls.State())|
      ensures forall i :: 0 <= i < |entries| ==> entries[i] == EntryFor(StoredEvents(ls.State())[i])
    {
      var rawEvents := RecupererEvenements();
      entries := CalendarEntries(rawEvents);
    }

    method InitialiserCalendrier()
      modifies this`calendar
      ensures calendar.Some? && |calendar.value| == |StoredEvents(ls.State())|
      ensures forall i :: 0 <= i < |calendar.value| ==> calendar.value[i] == EntryFor(StoredEvents(ls.State())[i])
    {
      var entries := PreparerEvenementsPourCalendrier();
      calendar := Some(entries);
    }

    method UpdateCalendrier()
      modifies this`calendar
      ensures calendar.Some? <==> old(calendar).Some?
      ensures calendar.Some? ==> |calendar.value| == |StoredEvents(ls.State())|
      ensures calendar.Some? ==> forall i :: 0 <= i < |calendar.value| ==> calendar.value[i] == EntryFor(StoredEvents(ls.State())[i])
    {
      if calendar.Some? {
        var entries := PreparerEvenementsPourCalendrier();
        calendar := Some(entries);
      }
    }

    method ChargerHistorique()
      modifies this`history
      ensures ShowsHistory(history, StoredEvents(ls.State()))
    {
      var events := RecupererEvenements();
      if |events| == 0 {
        history := NoHistory;
        return;
      }
      var sorted := NewestFirst(events);
      var items := HistoryLines(sorted);
      history := Lines(items);
    }

    /** The save-profile click: store the three inputs. */
    method SaveProfile()
      modifies ls
      ensures ls.State() == ProfileSaved(old(ls.State()), HorseInfo(nom, race, age))
    {
      ls.saveInfo := Some(HorseInfo(nom, race, age));
    }

    /** `chargerInfoCheval()`: fill the inputs from the stored profile, if any. */
    method ChargerInfoCheval()
      modifies this`nom, this`race, this`age
      ensures HorseInfo(nom, race, age) == ProfileLoaded(ls.State(), old(HorseInfo(nom, race, age)))
    {
      if ls.saveInfo.Some? {
        var info := ls.saveInfo.value;
        nom, race, age := info.nom, info.race, info.age;
      }
    }

    /** `chargerHistorique(); updateCalendrier();`, which both list changes end with. */
    method Refresh()
      modifies this`history, this`calendar
      ensures ShowsHistory(history, StoredEvents(ls.State()))
      ensures calendar.Some? <==> old(calendar).Some?
      ensures calendar.Some? ==> |calendar.value| == |StoredEvents(ls.State())|
      ensures calendar.Some? ==> forall i :: 0 <= i < |calendar.value| ==> calendar.value[i] == EntryFor(StoredEvents(ls.State())[i])
    {
      ChargerHistorique();
      UpdateCalendrier();
    }

    /** The add-event click with the form's kind and date and the clock's `Date.now()`. */
    method AddEvent(kind: string, date: string, now: int)
      modifies this`descInput, this`history, this`calendar, ls
      ensures ls.State() == AddClicked(old(ls.State()), kind, date, old(descInput), now)
      ensures date == "" ==> descInput == old(descInput) && history == old(history) && calendar == old(calendar)
      ensures date != "" ==> descInput == "" && ShowsHistory(history, StoredEvents(ls.State()))
      ensures date != "" ==> (calendar.Some? <==> old(calendar).Some?)
      ensures date != "" && calendar.Some? ==> |calendar.value| == |StoredEvents(ls.State())|
      ensures date != "" && calendar.Some? ==>
        forall i :: 0 <= i < |calendar.value| ==> calendar.value[i] == EntryFor(StoredEvents(ls.State())[i])
    {
      if date == "" {
        return;
      }
      var nouvelEvent := CareEvent(now, kind, date, descInput);
      var events := RecupererEvenements();
      events := events + [nouvelEvent];
      ls.saveEvents := Some(events);
      descInput := "";
      Refresh();
    }

    /** `supprimerEvent(id)` with the user's answer to the confirmation. */
    method SupprimerEvent(id: int, confirmed: bool)
      modifies this`history, this`calendar, ls
      ensures !confirmed ==> ls.State() == old(ls.State()) && history == old(history) && calendar == old(calendar)
      ensures confirmed ==> ls.State() == EventDeleted(old(ls.State()), id)
      ensures confirmed ==> ShowsHistory(history, StoredEvents(ls.State()))
      ensures calendar.Some? <==> old(calendar).Some?
      ensures confirmed && calendar.Some? ==> |calendar.value| == |StoredEvents(ls.State())|
      ensures confirmed && calendar.Some? ==>
        forall i :: 0 <= i < |calendar.value| ==> calendar.value[i] == EntryFor(StoredEvents(ls.State())[i])
    {
      if confirmed {
        var events := RecupererEvenements();
        var reste := RemainingEvents(events, id);
        ls.saveEvents := Some(reste);
        Refresh();
      }
    }

    /** The load handler of the page. */
    method Load()
      modifies this`nom, this`race, this`age, this`history, this`calendar
      ensures ShowsHistory(history, StoredEvents(ls.State()))
      ensures calendar.Some? && |calendar.value| == |StoredEvents(ls.State())|
      ensures forall i :: 0 <= i < |calendar.value| ==> calendar.value[i] == EntryFor(StoredEvents(ls.State())[i])
      ensures HorseInfo(nom, race, age) == ProfileLoaded(ls.State(), old(HorseInfo(nom, race, age)))
    {
      ChargerInfoCheval();
      ChargerHistorique();
      InitialiserCalendrier();
    }
  }
}
