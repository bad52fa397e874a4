/**
 * The performance-entry buffer of the `Performance` interface: the entry list and
 * its filter/sort, clear and last-match queries, the observer registry, "queue a
 * PerformanceEntry" with its pending-notification flag, the resource-timing
 * buffer counters with the secondary buffer and the buffer-full event, and the
 * User Timing operations mark, measure, clearMarks and clearMeasures.
 *
 * Times are integers supplied by the caller (the clock is not modelled). What the
 * code hands to observers, to the task source and to the event target is recorded
 * as `Event`s in the order it happens; the handler of the buffer-full event is a
 * no-op.
 */
module PerformanceTimeline {
  import opened Options

  const RESOURCE: string := "resource"
  const MARK: string := "mark"
  const MEASURE: string := "measure"

  /** The resource timing buffer size limit a new `Performance` starts with. */
  const DEFAULT_RESOURCE_TIMING_BUFFER_SIZE: nat := 250

  /** Bound of the `unsigned long` argument of setResourceTimingBufferSize. */
  const U32_LIMIT: nat := 0x1_0000_0000

  /** Names mark() refuses in a window: the attribute names of PerformanceTiming. */
  const INVALID_ENTRY_NAMES: seq<string> := [
    "navigationStart", "unloadEventStart", "unloadEventEnd", "redirectStart", "redirectEnd",
    "fetchStart", "domainLookupStart", "domainLookupEnd", "connectStart", "connectEnd",
    "secureConnectionStart", "requestStart", "responseStart", "responseEnd", "domLoading",
    "domInteractive", "domContentLoadedEventStart", "domContentLoadedEventEnd", "domComplete",
    "loadEventStart", "loadEventEnd"]

  datatype Entry = Entry(name: string, entryType: string, startTime: int, duration: int)

  datatype DomError = Syntax
  datatype Fallible = Ok | Err(error: DomError)

  // ---------------------------------------------------------------------------
  // Queries on the entry list
  // ---------------------------------------------------------------------------

  /** The filter of get_entries_by_name_and_type: an absent name or type matches everything. */
  predicate Matches(e: Entry, name: Option<string>, entryType: Option<string>) {
    && (name.None? || e.name == name.value)
    && (entryType.None? || e.entryType == entryType.value)
  }

  function Filter(entries: seq<Entry>, name: Option<string>, entryType: Option<string>): (r: seq<Entry>)
    ensures forall e :: e in r <==> e in entries && Matches(e, name, entryType)
    ensures |r| <= |entries|
  {
    if entries == [] then []
    else (if Matches(entries[0], name, entryType) then [entries[0]] else []) + Filter(entries[1..], name, entryType)
  }

  /** The filter keeps each matching entry as many times as the buffer holds it, and no other entry. */
  lemma {:induction false} FilterCounts(entries: seq<Entry>, name: Option<string>, entryType: Option<string>)
    ensures forall e :: multiset(Filter(entries, name, entryType))[e]
                        == if Matches(e, name, entryType) then multiset(entries)[e] else 0
  {
    if entries != [] {
      FilterCounts(entries[1..], name, entryType);
      assert entries == [entries[0]] + entries[1..];
    }
  }

  /** The filter keeps the buffer order: filtering a concatenation concatenates the filtered parts. */
  lemma {:induction false} FilterAppend(a: seq<Entry>, b: seq<Entry>, name: Option<string>, entryType: Option<string>)
    ensures Filter(a + b, name, entryType) == Filter(a, name, entryType) + Filter(b, name, entryType)
  {
    if a == [] {
      assert a + b == b;
    } else {
      var head := if Matches(a[0], name, entryType) then [a[0]] else [];
      assert (a + b)[0] == a[0] && (a + b)[1..] == a[1..] + b;
      calc {
        Filter(a + b, name, entryType);
        head + Filter(a[1..] + b, name, entryType);
        { FilterAppend(a[1..], b, name, entryType); }
        head + (Filter(a[1..], name, entryType) + Filter(b, name, entryType));
        (head + Filter(a[1..], name, entryType)) + Filter(b, name, entryType);
        Filter(a, name, entryType) + Filter(b, name, entryType);
      }
    }
  }

  /** With neither filter every entry is kept, in order. */
  lemma {:induction false} FilterNothing(entries: seq<Entry>)
    ensures Filter(entries, None, None) == entries
  {
    if entries != [] {
      FilterNothing(entries[1..]);
      assert entries == [entries[0]] + entries[1..];
    }
  }

  predicate SortedByStartTime(s: seq<Entry>) {
    forall i, j :: 0 <= i < j < |s| ==> s[i].startTime <= s[j].startTime
  }

  /** The entries of `s` that start at time `t`, in their order in `s`. */
  function AtTime(s: seq<Entry>, t: int): seq<Entry> {
    if s == [] then []
    else (if s[0].startTime == t then [s[0]] else []) + AtTime(s[1..], t)
  }

  /** Puts `x` before the first entry that does not start earlier. */
  function InsertByStartTime(x: Entry, s: seq<Entry>): seq<Entry> {
    if s == [] || x.startTime <= s[0].startTime then [x] + s
    else [s[0]] + InsertByStartTime(x, s[1..])
  }

  /** A stable sort by start time (as Rust's `sort_by`). */
  function SortByStartTime(s: seq<Entry>): seq<Entry> {
    if s == [] then [] else InsertByStartTime(s[0], SortByStartTime(s[1..]))
  }

  lemma {:induction false} InsertByStartTimeMultiset(x: Entry, s: seq<Entry>)
    ensures multiset(InsertByStartTime(x, s)) == multiset(s) + multiset{x}
  {
    if s != [] && x.startTime > s[0].startTime {
      InsertByStartTimeMultiset(x, s[1..]);
      assert s == [s[0]] + s[1..];
    }
  }

  predicate NoneBefore(s: seq<Entry>, time: int) {
    forall i :: 0 <= i < |s| ==> time <= s[i].startTime
  }

  lemma {:induction false} InsertByStartTimeNoneBefore(x: Entry, s: seq<Entry>, time: int)
    requires NoneBefore(s, time) && time <= x.startTime
    ensures NoneBefore(InsertByStartTime(x, s), time)
  {
    if s != [] && x.startTime > s[0].startTime {
      InsertByStartTimeNoneBefore(x, s[1..], time);
      var rest := InsertByStartTime(x, s[1..]);
      assert InsertByStartTime(x, s) == [s[0]] + rest;
    }
  }

  lemma {:induction false} InsertByStartTimeSorted(x: Entry, s: seq<Entry>)
    requires SortedByStartTime(s)
    ensures SortedByStartTime(InsertByStartTime(x, s))
  {
    if s != [] && x.startTime > s[0].startTime {
      var rest := InsertByStartTime(x, s[1..]);
      InsertByStartTimeSorted(x, s[1..]);
      InsertByStartTimeNoneBefore(x, s[1..], s[0].startTime);
      var r := [s[0]] + rest;
      assert InsertByStartTime(x, s) == r;
      forall i, j | 0 <= i < j < |r| ensures r[i].startTime <= r[j].startTime {
        assert r[j] == rest[j - 1];
        if i > 0 {
          assert r[i] == rest[i - 1];
        }
      }
    } else {
      var r := [x] + s;
      forall i, j | 0 <= i < j < |r| ensures r[i].startTime <= r[j].startTime {
        assert r[j] == s[j - 1];
        if i > 0 {
          assert r[i] == s[i - 1];
        }
      }
    }
  }

  lemma AtTimeCons(x: Entry, s: seq<Entry>, t: int)
    ensures AtTime([x] + s, t) == (if x.startTime == t then [x] else []) + AtTime(s, t)
  {
    var r := [x] + s;
    assert r[0] == x && r[1..] == s;
  }

  lemma {:induction false} InsertByStartTimeAtTime(x: Entry, s: seq<Entry>, t: int)
    ensures AtTime(InsertByStartTime(x, s), t) == (if x.startTime == t then [x] else []) + AtTime(s, t)
  {
    if s == [] || x.startTime <= s[0].startTime {
      AtTimeCons(x, s, t);
    } else {
      var rest := InsertByStartTime(x, s[1..]);
      assert InsertByStartTime(x, s) == [s[0]] + rest;
      AtTimeCons(s[0], rest, t);
      InsertByStartTimeAtTime(x, s[1..], t);
      assert s == [s[0]] + s[1..];
      AtTimeCons(s[0], s[1..], t);
      if x.startTime == t {
        assert s[0].startTime != t;
        assert AtTime(InsertByStartTime(x, s), t) == AtTime(rest, t) == [x] + AtTime(s[1..], t);
        assert AtTime(s, t) == AtTime(s[1..], t);
      } else {
        assert AtTime(rest, t) == AtTime(s[1..], t);
      }
    }
  }

  /** Inserting keeps the order by start time, adds exactly `x`, and puts `x` before every entry with its start time (so sorting `x` in front of its sorted tail is stable). */
  lemma InsertByStartTimeCorrect(x: Entry, s: seq<Entry>)
    requires SortedByStartTime(s)
    ensures SortedByStartTime(InsertByStartTime(x, s))
    ensures multiset(InsertByStartTime(x, s)) == multiset(s) + multiset{x}
    ensures forall t :: AtTime(InsertByStartTime(x, s), t) == (if x.startTime == t then [x] else []) + AtTime(s, t)
  {
    InsertByStartTimeSorted(x, s);
    InsertByStartTimeMultiset(x, s);
    forall t ensures AtTime(InsertByStartTime(x, s), t) == (if x.startTime == t then [x] else []) + AtTime(s, t) {
      InsertByStartTimeAtTime(x, s, t);
    }
  }

  lemma {:induction false} SortByStartTimeCorrect(s: seq<Entry>)
    ensures SortedByStartTime(SortByStartTime(s))
    ensures multiset(SortByStartTime(s)) == multiset(s)
    ensures forall t :: AtTime(SortByStartTime(s), t) == AtTime(s, t)
  {
    if s != [] {
      SortByStartTimeCorrect(s[1..]);
      InsertByStartTimeCorrect(s[0], SortByStartTime(s[1..]));
      assert s == [s[0]] + s[1..];
      forall t ensures AtTime(SortByStartTime(s), t) == AtTime(s, t) {
        AtTimeCons(s[0], s[1..], t);
      }
    }
  }

  /**
   * get_entries_by_name_and_type: the matching entries, sorted by start time;
   * entries with equal start times keep their order in the buffer.
   */
  function GetEntriesByNameAndType(entries: seq<Entry>, name: Option<string>, entryType: Option<string>): (r: seq<Entry>)
    ensures SortedByStartTime(r)
    ensures forall e :: e in r <==> e in entries && Matches(e, name, entryType)
    ensures forall t :: AtTime(r, t) == AtTime(Filter(entries, name, entryType), t)
  {
    var matching := Filter(entries, name, entryType);
    SortByStartTimeCorrect(matching);
    var sorted := SortByStartTime(matching);
    assert forall e :: e in sorted <==> e in multiset(sorted);
    assert forall e :: e in matching <==> e in multiset(matching);
    sorted
  }

  /** The result holds each matching entry as many times as the buffer does. */
  lemma GetEntriesIsAPermutationOfTheMatches(entries: seq<Entry>, name: Option<string>, entryType: Option<string>)
    ensures multiset(GetEntriesByNameAndType(entries, name, entryType)) == multiset(Filter(entries, name, entryType))
    ensures forall e :: multiset(GetEntriesByNameAndType(entries, name, entryType))[e]
                        == if Matches(e, name, entryType) then multiset(entries)[e] else 0
  {
    SortByStartTimeCorrect(Filter(entries, name, entryType));
    FilterCounts(entries, name, entryType);
  }

  lemma {:induction false} AtTimeNonEmpty(s: seq<Entry>, k: nat)
    requires k < |s|
    ensures AtTime(s, s[k].startTime) != []
  {
    if k > 0 {
      AtTimeNonEmpty(s[1..], k - 1);
    }
  }

  lemma NothingAtAnyTimeMeansEmpty(s: seq<Entry>)
    ensures (forall t :: AtTime(s, t) == []) ==> s == []
  {
    if s != [] {
      AtTimeNonEmpty(s, 0);
    }
  }

  lemma SameHeads(a: seq<Entry>, b: seq<Entry>)
    requires SortedByStartTime(a) && SortedByStartTime(b) && a != [] && b != []
    requires forall t :: AtTime(a, t) == AtTime(b, t)
    ensures a[0] == b[0]
  {
    var ta, tb := a[0].startTime, b[0].startTime;
    AtTimeNonEmpty(a, 0);
    AtTimeNonEmpty(b, 0);
    if ta < tb {
      AtTimeEarlierThanHead(b, ta);
      assert false;
    } else if tb < ta {
      AtTimeEarlierThanHead(a, tb);
      assert false;
    }
    assert a == [a[0]] + a[1..] && b == [b[0]] + b[1..];
    AtTimeCons(a[0], a[1..], ta);
    AtTimeCons(b[0], b[1..], ta);
    assert AtTime(a, ta)[0] == a[0] && AtTime(b, ta)[0] == b[0];
  }

  lemma SameTimesInTails(a: seq<Entry>, b: seq<Entry>)
    requires a != [] && b != [] && a[0] == b[0]
    requires forall t :: AtTime(a, t) == AtTime(b, t)
    ensures forall t :: AtTime(a[1..], t) == AtTime(b[1..], t)
  {
    assert a == [a[0]] + a[1..] && b == [b[0]] + b[1..];
    forall t ensures AtTime(a[1..], t) == AtTime(b[1..], t) {
      var p: seq<Entry> := if a[0].startTime == t then [a[0]] else [];
      AtTimeCons(a[0], a[1..], t);
      AtTimeCons(b[0], b[1..], t);
      assert AtTime(a[1..], t) == AtTime(a, t)[|p|..];
      assert AtTime(b[1..], t) == AtTime(b, t)[|p|..];
    }
  }

  /** Sorted sequences with the same entries at every start time, in the same order, are equal. */
  lemma {:induction false} SortedWithSameTimesAreEqual(a: seq<Entry>, b: seq<Entry>)
    requires SortedByStartTime(a) && SortedByStartTime(b)
    requires forall t :: AtTime(a, t) == AtTime(b, t)
    ensures a == b
  {
    if a == [] {
      NothingAtAnyTimeMeansEmpty(b);
    } else if b == [] {
      NothingAtAnyTimeMeansEmpty(a);
    } else {
      SameHeads(a, b);
      SameTimesInTails(a, b);
      assert SortedByStartTime(a[1..]) && SortedByStartTime(b[1..]);
      SortedWithSameTimesAreEqual(a[1..], b[1..]);
      assert a == [a[0]] + a[1..] && b == [b[0]] + b[1..];
    }
  }

  lemma {:induction false} AtTimeEarlierThanHead(s: seq<Entry>, t: int)
    requires SortedByStartTime(s) && s != [] && t < s[0].startTime
    ensures AtTime(s, t) == []
  {
    if |s| > 1 {
      assert SortedByStartTime(s[1..]);
      AtTimeEarlierThanHead(s[1..], t);
    }
  }

  /** The result of GetEntriesByNameAndType is the one stable sort of the matching entries. */
  lemma GetEntriesIsTheStableSort(entries: seq<Entry>, name: Option<string>, entryType: Option<string>, r: seq<Entry>)
    requires SortedByStartTime(r)
    requires forall t :: AtTime(r, t) == AtTime(Filter(entries, name, entryType), t)
    ensures r == GetEntriesByNameAndType(entries, name, entryType)
  {
    SortedWithSameTimesAreEqual(r, GetEntriesByNameAndType(entries, name, entryType));
  }

  /** The predicate clear_entries_by_name_and_type retains: neither the given name nor the given type. */
  predicate Kept(e: Entry, name: Option<string>, entryType: Option<string>) {
    && (name.None? || e.name != name.value)
    && (entryType.None? || e.entryType != entryType.value)
  }

  function Retained(entries: seq<Entry>, name: Option<string>, entryType: Option<string>): (r: seq<Entry>)
    ensures |r| <= |entries|
  {
    if entries == [] then []
    else
      var last := entries[|entries| - 1];
      Retained(entries[..|entries| - 1], name, entryType) + (if Kept(last, name, entryType) then [last] else [])
  }

  /** Exactly the entries with neither the name nor the type are retained. */
  lemma {:induction false} RetainedMembers(entries: seq<Entry>, name: Option<string>, entryType: Option<string>)
    ensures forall e :: e in Retained(entries, name, entryType) <==> e in entries && Kept(e, name, entryType)
  {
    if entries != [] {
      var init := entries[..|entries| - 1];
      RetainedMembers(init, name, entryType);
      assert entries == init + [entries[|entries| - 1]];
    }
  }

  /** Each retained entry is kept as many times as the buffer holds it, and no other entry is kept. */
  lemma {:induction false} RetainedCounts(entries: seq<Entry>, name: Option<string>, entryType: Option<string>)
    ensures forall e :: multiset(Retained(entries, name, entryType))[e]
                        == if Kept(e, name, entryType) then multiset(entries)[e] else 0
  {
    if entries != [] {
      var init := entries[..|entries| - 1];
      RetainedCounts(init, name, entryType);
      assert entries == init + [entries[|entries| - 1]];
    }
  }

  /** Retaining keeps the original order: retaining a concatenation concatenates the retained parts. */
  lemma {:induction false} RetainedAppend(a: seq<Entry>, b: seq<Entry>, name: Option<string>, entryType: Option<string>)
    ensures Retained(a + b, name, entryType) == Retained(a, name, entryType) + Retained(b, name, entryType)
  {
    if b == [] {
      assert a + b == a;
    } else {
      var init := b[..|b| - 1];
      var last := b[|b| - 1];
      var tail := if Kept(last, name, entryType) then [last] else [];
      assert (a + b)[..|a + b| - 1] == a + init && (a + b)[|a + b| - 1] == last;
      calc {
        Retained(a + b, name, entryType);
        Retained(a + init, name, entryType) + tail;
        { RetainedAppend(a, init, name, entryType); }
        (Retained(a, name, entryType) + Retained(init, name, entryType)) + tail;
        Retained(a, name, entryType) + (Retained(init, name, entryType) + tail);
        Retained(a, name, entryType) + Retained(b, name, entryType);
      }
    }
  }

  /** The retain predicate drops an entry that has the name even when its type differs, and vice versa. */
  lemma ClearRemovesNameOrType(name: string, entryType: string, other: string)
    requires other != name && other != entryType
    ensures Retained([Entry(name, other, 0, 0), Entry(other, entryType, 0, 0), Entry(other, other, 0, 0)],
                     Some(name), Some(entryType))
            == [Entry(other, other, 0, 0)]
  {
    var first := [Entry(name, other, 0, 0)];
    var firstTwo := first + [Entry(other, entryType, 0, 0)];
    var entries := firstTwo + [Entry(other, other, 0, 0)];
    assert entries == [Entry(name, other, 0, 0), Entry(other, entryType, 0, 0), Entry(other, other, 0, 0)];
    assert entries[..2] == firstTwo && firstTwo[..1] == first && first[..0] == [];
    assert Retained(first, Some(name), Some(entryType)) == [];
    assert Retained(firstTwo, Some(name), Some(entryType)) == [];
  }

  predicate NamedAs(e: Entry, name: string, entryType: string) {
    e.entryType == entryType && e.name == name
  }

  /** The index of the last entry with both the name and the type (a reverse find). */
  function LastMatchIndex(entries: seq<Entry>, name: string, entryType: string): (r: Option<nat>)
    ensures r.Some? ==>
      && r.value < |entries| && NamedAs(entries[r.value], name, entryType)
      && forall j :: r.value < j < |entries| ==> !NamedAs(entries[j], name, entryType)
    ensures r.None? ==> forall j :: 0 <= j < |entries| ==> !NamedAs(entries[j], name, entryType)
  {
    if entries == [] then None
    else if NamedAs(entries[|entries| - 1], name, entryType) then Some(|entries| - 1)
    else LastMatchIndex(entries[..|entries| - 1], name, entryType)
  }

  /** get_last_entry_start_time_with_name_and_type: the start time of the last match, or 0 when none matches. */
  function GetLastEntryStartTimeWithNameAndType(entries: seq<Entry>, name: string, entryType: string): (t: int)
    ensures (forall j :: 0 <= j < |entries| ==> !NamedAs(entries[j], name, entryType)) ==> t == 0
    ensures forall i :: 0 <= i < |entries| && NamedAs(entries[i], name, entryType)
                        && (forall j :: i < j < |entries| ==> !NamedAs(entries[j], name, entryType))
                        ==> t == entries[i].startTime
  {
    match LastMatchIndex(entries, name, entryType)
    case None => 0
    case Some(k) => entries[k].startTime
  }

  /**
   * The time measure() takes from an optional mark: the start time of the last entry
   * named "mark" whose type is the mark's name, or `absent` when no mark is given.
   */
  function MarkTime(entries: seq<Entry>, mark: Option<string>, absent: int): int {
    match mark
    case Some(markName) => GetLastEntryStartTimeWithNameAndType(entries, MARK, markName)
    case None => absent
  }

  /** measure() looks marks up by name "mark" and by type equal to the mark's name, so a mark is not found by its name. */
  lemma MeasureLooksUpMarkWithNameAndTypeSwapped(markName: string, time: int)
    requires markName != MARK
    ensures GetLastEntryStartTimeWithNameAndType([Entry(markName, MARK, time, 0)], MARK, markName) == 0
    ensures GetLastEntryStartTimeWithNameAndType([Entry(markName, MARK, time, 0)], markName, MARK) == time
  {
  }

  // ---------------------------------------------------------------------------
  // Observers and the events the code emits
  // ---------------------------------------------------------------------------

  type ObserverId = nat

  datatype ObserverRecord = ObserverRecord(observer: ObserverId, entryTypes: seq<string>)

  datatype Event =
    | ObserverEntryQueued(observer: ObserverId, entry: Entry)          // observer.queue_entry(entry)
    | ObserverEntriesAppended(observer: ObserverId, entries: seq<Entry>) // observer.set_entries(old + entries)
    | NotificationTaskQueued                                             // a notification task is queued
    | ObserverNotified(observer: ObserverId)                             // observer.notify()
    | ResourceTimingBufferFull                                           // the resourcetimingbufferfull event is fired

  predicate DistinctObservers(obs: seq<ObserverRecord>) {
    forall i, j :: 0 <= i < j < |obs| ==> obs[i].observer != obs[j].observer
  }

  /** The position of the first record of `id` (Rust's `position`). */
  function FindObserver(obs: seq<ObserverRecord>, id: ObserverId): (r: Option<nat>)
    ensures r.Some? ==> r.value < |obs| && obs[r.value].observer == id
                        && forall j :: 0 <= j < r.value ==> obs[j].observer != id
    ensures r.None? ==> forall j :: 0 <= j < |obs| ==> obs[j].observer != id
  {
    if obs == [] then None
    else if obs[0].observer == id then Some(0)
    else match FindObserver(obs[1..], id)
      case None => None
      case Some(k) => Some(k + 1)
  }

  /** The registry after add_multiple_type_observer: the observer's record is replaced, or a new one is appended. */
  function WithEntryTypes(obs: seq<ObserverRecord>, observer: ObserverId, entryTypes: seq<string>): (r: seq<ObserverRecord>)
    ensures |r| == if FindObserver(obs, observer).Some? then |obs| else |obs| + 1
    ensures exists i :: 0 <= i < |r| && r[i] == ObserverRecord(observer, entryTypes)
    ensures forall i :: 0 <= i < |obs| && obs[i].observer != observer ==> r[i] == obs[i]
    ensures DistinctObservers(obs) ==> DistinctObservers(r)
  {
    match FindObserver(obs, observer)
    case Some(p) =>
      var r := obs[p := ObserverRecord(observer, entryTypes)];
      assert r[p] == ObserverRecord(observer, entryTypes);
      r
    case None =>
      var r := obs + [ObserverRecord(observer, entryTypes)];
      assert r[|obs|] == ObserverRecord(observer, entryTypes);
      r
  }

  /**
   * The registry after add_single_type_observer: the type is added to the observer's
   * record when it is not there yet, or a new record with only that type is appended.
   */
  function WithEntryType(obs: seq<ObserverRecord>, observer: ObserverId, entryType: string): (r: seq<ObserverRecord>)
    ensures |r| == if FindObserver(obs, observer).Some? then |obs| else |obs| + 1
    ensures exists i :: 0 <= i < |r| && r[i].observer == observer && entryType in r[i].entryTypes
    ensures forall i :: 0 <= i < |obs| && obs[i].observer != observer ==> r[i] == obs[i]
    ensures FindObserver(obs, observer).Some? ==>
              var p := FindObserver(obs, observer).value;
              && r[p].observer == observer
              && (entryType in obs[p].entryTypes <==> r == obs)
              && obs[p].entryTypes <= r[p].entryTypes && entryType in r[p].entryTypes
              && |r[p].entryTypes| <= |obs[p].entryTypes| + 1
              && forall i :: 0 <= i < |obs| && i != p ==> r[i] == obs[i]
    ensures FindObserver(obs, observer).None? ==> r[|obs|] == ObserverRecord(observer, [entryType])
    ensures DistinctObservers(obs) ==> DistinctObservers(r)
  {
    match FindObserver(obs, observer)
    case Some(p) =>
      var types := obs[p].entryTypes;
      var r := if entryType in types then obs else obs[p := obs[p].(entryTypes := types + [entryType])];
      assert r[p].observer == observer && entryType in r[p].entryTypes;
      r
    case None =>
      var r := obs + [ObserverRecord(observer, [entryType])];
      assert r[|obs|].entryTypes == [entryType];
      r
  }

  /** The registry after remove_observer: the first record of the observer is removed, if any. */
  function WithoutObserver(obs: seq<ObserverRecord>, observer: ObserverId): (r: seq<ObserverRecord>)
    ensures |r| == if FindObserver(obs, observer).Some? then |obs| - 1 else |obs|
    ensures FindObserver(obs, observer).None? ==> r == obs
    ensures FindObserver(obs, observer).Some? ==>
              var p := FindObserver(obs, observer).value;
              forall i :: 0 <= i < |r| ==> r[i] == obs[if i < p then i else i + 1]
    ensures DistinctObservers(obs) ==>
      && DistinctObservers(r)
      && (forall i :: 0 <= i < |r| ==> r[i].observer != observer)
      && (forall o :: o in r <==> o in obs && o.observer != observer)
  {
    match FindObserver(obs, observer)
    case Some(p) =>
      var r := obs[..p] + obs[p + 1..];
      assert forall i :: 0 <= i < |r| ==> r[i] == if i < p then obs[i] else obs[i + 1];
      r
    case None => obs
  }

  /**
   * What a buffered add_single_type_observer emits: the buffered entries of the type,
   * sorted, appended to the observer's list when there are any, then a notification
   * task unless one is pending.
   */
  function BufferedDelivery(entries: seq<Entry>, observer: ObserverId, entryType: string, pending: bool): (r: seq<Event>)
    ensures |r| <= 2
    ensures NotificationTaskQueued in r <==> !pending
    ensures forall ev :: ev in r && ev.ObserverEntriesAppended? ==>
              && ev.observer == observer && ev.entries != []
              && SortedByStartTime(ev.entries)
              && forall e :: e in ev.entries <==> e in entries && e.entryType == entryType
    ensures (exists e :: e in entries && e.entryType == entryType) ==> r != [] && r[0].ObserverEntriesAppended?
  {
    var matching := GetEntriesByNameAndType(entries, None, Some(entryType));
    (if |matching| > 0 then [ObserverEntriesAppended(observer, matching)] else [])
    + (if pending then [] else [NotificationTaskQueued])
  }

  /** What queue_entry hands to the observers: the entry, to each observer of its type, in registry order. */
  function QueuedToObservers(obs: seq<ObserverRecord>, entry: Entry): (r: seq<Event>)
    ensures |r| <= |obs|
  {
    if obs == [] then []
    else
      var last := obs[|obs| - 1];
      QueuedToObservers(obs[..|obs| - 1], entry)
      + (if entry.entryType in last.entryTypes then [ObserverEntryQueued(last.observer, entry)] else [])
  }

  /** Every observer of the entry's type is handed the entry, and nobody else is handed anything. */
  lemma {:induction false} QueuedToObserversMembers(obs: seq<ObserverRecord>, entry: Entry)
    ensures forall i :: 0 <= i < |obs| && entry.entryType in obs[i].entryTypes ==>
              ObserverEntryQueued(obs[i].observer, entry) in QueuedToObservers(obs, entry)
    ensures forall ev :: ev in QueuedToObservers(obs, entry) ==>
              && ev.ObserverEntryQueued? && ev.entry == entry
              && exists i :: 0 <= i < |obs| && obs[i].observer == ev.observer && entry.entryType in obs[i].entryTypes
  {
    if obs != [] {
      var init := obs[..|obs| - 1];
      QueuedToObserversMembers(init, entry);
      assert forall i :: 0 <= i < |init| ==> init[i] == obs[i];
    }
  }

  /** Each record of the registry contributes its own events, in registry order. */
  lemma {:induction false} QueuedToObserversAppend(a: seq<ObserverRecord>, b: seq<ObserverRecord>, entry: Entry)
    ensures QueuedToObservers(a + b, entry) == QueuedToObservers(a, entry) + QueuedToObservers(b, entry)
  {
    if b != [] {
      var init := b[..|b| - 1];
      var last := b[|b| - 1];
      var tail := if entry.entryType in last.entryTypes then [ObserverEntryQueued(last.observer, entry)] else [];
      assert (a + b)[..|a + b| - 1] == a + init && (a + b)[|a + b| - 1] == last;
      calc {
        QueuedToObservers(a + b, entry);
        QueuedToObservers(a + init, entry) + tail;
        { QueuedToObserversAppend(a, init, entry); }
        (QueuedToObservers(a, entry) + QueuedToObservers(init, entry)) + tail;
        QueuedToObservers(a, entry) + (QueuedToObservers(init, entry) + tail);
        QueuedToObservers(a, entry) + QueuedToObservers(b, entry);
      }
    } else {
      assert a + b == a;
    }
  }

  /** A single record gets the entry once when it observes the entry's type, and otherwise nothing. */
  lemma QueuedToOneObserver(o: ObserverRecord, entry: Entry)
    ensures QueuedToObservers([o], entry)
            == if entry.entryType in o.entryTypes then [ObserverEntryQueued(o.observer, entry)] else []
  {
    assert [o][..0] == [];
  }

  /** What notify_observers does: notify every registered observer, in registry order. */
  function Notifications(obs: seq<ObserverRecord>): (r: seq<Event>)
    ensures |r| == |obs|
    ensures forall i :: 0 <= i < |obs| ==> r[i] == ObserverNotified(obs[i].observer)
  {
    if obs == [] then [] else Notifications(obs[..|obs| - 1]) + [ObserverNotified(obs[|obs| - 1].observer)]
  }

  // ---------------------------------------------------------------------------
  // The entry list and the Performance object
  // ---------------------------------------------------------------------------

  class PerformanceEntryList {
    var entries: seq<Entry>

    constructor (entries: seq<Entry>)
      ensures this.entries == entries
    {
      this.entries := entries;
    }

    /** Vec::retain with the predicate Kept. */
    method ClearEntriesByNameAndType(name: Option<string>, entryType: Option<string>)
      modifies this
      ensures entries == Retained(old(entries), name, entryType)
      ensures forall e :: e in entries <==> e in old(entries) && Kept(e, name, entryType)
    {
      RetainedMembers(entries, name, entryType);
      var all := entries;
      var kept: seq<Entry> := [];
      for i := 0 to |all|
        invariant kept == Retained(all[..i], name, entryType)
      {
        assert all[..i + 1][..i] == all[..i];
        if Kept(all[i], name, entryType) {
          kept := kept + [all[i]];
        }
      }
      assert all[..|all|] == all;
      entries := kept;
    }
  }

  class Performance {
    const buffer: PerformanceEntryList
    /** Whether the global object is a Window (mark() refuses the timing attribute names there). */
    const isWindow: bool
    var observers: seq<ObserverRecord>
    var pendingNotificationObserversTask: bool
    var resourceTimingBufferSizeLimit: nat
    var resourceTimingBufferCurrentSize: nat
    var resourceTimingBufferPendingFullEvent: bool
    var resourceTimingSecondaryEntries: seq<Entry>
    var events: seq<Event>

    ghost predicate Valid()
      reads this
    {
      && DistinctObservers(observers)
      && forall e :: e in resourceTimingSecondaryEntries ==> e.entryType == RESOURCE
    }

    constructor (isWindow: bool)
      ensures Valid() && fresh(buffer) && buffer.entries == [] && this.isWindow == isWindow
      ensures observers == [] && !pendingNotificationObserversTask && events == []
      ensures resourceTimingBufferSizeLimit == DEFAULT_RESOURCE_TIMING_BUFFER_SIZE
      ensures resourceTimingBufferCurrentSize == 0 && !resourceTimingBufferPendingFullEvent
      ensures resourceTimingSecondaryEntries == []
    {
      buffer := new PerformanceEntryList([]);
      this.isWindow := isWindow;
      observers := [];
      pendingNotificationObserversTask := false;
      resourceTimingBufferSizeLimit := DEFAULT_RESOURCE_TIMING_BUFFER_SIZE;
      resourceTimingBufferCurrentSize := 0;
      resourceTimingBufferPendingFullEvent := false;
      resourceTimingSecondaryEntries := [];
      events := [];
    }

    /** Empties the buffer and sets the resource timing limit to 0 (when the pipeline exits). */
    method ClearAndDisablePerformanceEntryBuffer()
      modifies buffer, this`resourceTimingBufferSizeLimit
      ensures buffer.entries == [] && resourceTimingBufferSizeLimit == 0
    {
      buffer.entries := [];
      resourceTimingBufferSizeLimit := 0;
    }

    method AddMultipleTypeObserver(observer: ObserverId, entryTypes: seq<string>)
      requires Valid()
      modifies this`observers
      ensures Valid()
      ensures observers == WithEntryTypes(old(observers), observer, entryTypes)
    {
      match FindObserver(observers, observer) {
        case Some(p) =>
          observers := observers[p := ObserverRecord(observer, entryTypes)];
        case None =>
          observers := observers + [ObserverRecord(observer, entryTypes)];
      }
    }

    method AddSingleTypeObserver(observer: ObserverId, entryType: string, buffered: bool)
      requires Valid()
      modifies this`observers, this`pendingNotificationObserversTask, this`events
      ensures Valid()
      ensures buffered ==> events == old(events) + BufferedDelivery(old(buffer.entries), observer, entryType, old(pendingNotificationObserversTask))
      ensures buffered ==> pendingNotificationObserversTask
      ensures !buffered ==> pendingNotificationObserversTask == old(pendingNotificationObserversTask) && events == old(events)
      ensures observers == WithEntryType(old(observers), observer, entryType)
    {
      if buffered {
        DeliverBufferedEntries(observer, entryType);
      }
      match FindObserver(observers, observer) {
        case Some(p) =>
          if entryType !in observers[p].entryTypes {
            observers := observers[p := observers[p].(entryTypes := observers[p].entryTypes + [entryType])];
          }
        case None =>
          observers := observers + [ObserverRecord(observer, [entryType])];
      }
    }

    /** The buffered branch of add_single_type_observer. */
    method DeliverBufferedEntries(observer: ObserverId, entryType: string)
      modifies this`pendingNotificationObserversTask, this`events
      ensures pendingNotificationObserversTask
      ensures events == old(events) + BufferedDelivery(buffer.entries, observer, entryType, old(pendingNotificationObserversTask))
    {
      var newEntries := GetEntriesByNameAndType(buffer.entries, None, Some(entryType));
      if |newEntries| > 0 {
        events := events + [ObserverEntriesAppended(observer, newEntries)];
      }
      if !pendingNotificationObserversTask {
        pendingNotificationObserversTask := true;
        events := events + [NotificationTaskQueued];
      }
    }

    method RemoveObserver(observer: ObserverId)
      requires Valid()
      modifies this`observers
      ensures Valid()
      ensures observers == WithoutObserver(old(observers), observer)
    {
      match FindObserver(observers, observer) {
        case Some(p) =>
          observers := observers[..p] + observers[p + 1..];
        case None =>
      }
    }

    predicate CanAddResourceTimingEntry()
      reads this
    {
      resourceTimingBufferCurrentSize <= resourceTimingBufferSizeLimit
    }

    /**
     * queue_entry: a resource entry refused by ShouldQueueResourceEntry is dropped; any other
     * entry is handed to the observers of its type and appended to the buffer, and a
     * notification task is queued unless one is pending. The result is the index of the
     * new entry when this call queued the notification task.
     */
    method QueueEntry(entry: Entry) returns (r: Option<nat>)
      requires Valid()
      modifies this, buffer
      // QueueEntry (5) -> ShouldQueueResourceEntry (4) -> FireBufferFullEvent (3) -> Copy (2)
      // -> QueueEntry (1): the pending-full flag stays set throughout Copy, so the QueueEntry
      // calls made from Copy take the depth-1 path and never reach FireBufferFullEvent again.
      decreases if entry.entryType == RESOURCE && resourceTimingBufferPendingFullEvent then 1 else 5
      ensures Valid()
      ensures observers == old(observers) && resourceTimingBufferSizeLimit == old(resourceTimingBufferSizeLimit)
      ensures resourceTimingBufferPendingFullEvent == old(resourceTimingBufferPendingFullEvent)
      ensures entry.entryType != RESOURCE ==>
        && resourceTimingBufferCurrentSize == old(resourceTimingBufferCurrentSize)
        && resourceTimingSecondaryEntries == old(resourceTimingSecondaryEntries)
      // an admitted entry is appended and handed to the observers
      ensures old(Admits(entry)) ==>
        && buffer.entries == old(buffer.entries) + [entry]
        && pendingNotificationObserversTask
        && r == (if old(pendingNotificationObserversTask) then None else Some(|old(buffer.entries)|))
        && events == old(events) + QueuedToObservers(observers, entry)
                     + (if old(pendingNotificationObserversTask) then [] else [NotificationTaskQueued])
      ensures old(Admits(entry)) && entry.entryType == RESOURCE ==>
        && resourceTimingBufferCurrentSize == old(resourceTimingBufferCurrentSize) + 1
        && resourceTimingSecondaryEntries == old(resourceTimingSecondaryEntries)
      // a refused resource entry is parked in the secondary buffer
      ensures !old(Admits(entry)) ==>
        && r == None
        && buffer.entries == old(buffer.entries)
        && pendingNotificationObserversTask == old(pendingNotificationObserversTask)
        && resourceTimingBufferCurrentSize == old(resourceTimingBufferCurrentSize)
        && resourceTimingSecondaryEntries
           == (if old(resourceTimingBufferPendingFullEvent) then old(resourceTimingSecondaryEntries) else []) + [entry]
        && events == old(events)
                     + (if !old(resourceTimingBufferPendingFullEvent) && old(resourceTimingSecondaryEntries) != []
                        then [ResourceTimingBufferFull] else [])
    {
      if entry.entryType == RESOURCE {
        var queued := ShouldQueueResourceEntry(entry);
        if !queued {
          return None;
        }
      }
      // Steps 1-3.
      HandToObservers(entry);
      // Step 4.
      buffer.entries := buffer.entries + [entry];
      var entryLastIndex := |buffer.entries| - 1;
      // Step 5.
      if pendingNotificationObserversTask {
        return None;
      }
      // Step 6.
      pendingNotificationObserversTask := true;
      events := events + [NotificationTaskQueued];
      return Some(entryLastIndex);
    }

    /** Whether queue_entry keeps `entry`: every entry that is not a resource entry, and resource entries ShouldQueueResourceEntry counts in. */
    predicate Admits(entry: Entry)
      reads this
    {
      entry.entryType != RESOURCE || (!resourceTimingBufferPendingFullEvent && CanAddResourceTimingEntry())
    }

    /** Steps 1-3 of queue_entry: each observer of the entry's type gets the entry. */
    method HandToObservers(entry: Entry)
      modifies this`events
      ensures events == old(events) + QueuedToObservers(observers, entry)
    {
      var i := 0;
      while i < |observers|
        invariant 0 <= i <= |observers|
        invariant events == old(events) + QueuedToObservers(observers[..i], entry)
      {
        assert observers[..i + 1][..i] == observers[..i];
        if entry.entryType in observers[i].entryTypes {
          events := events + [ObserverEntryQueued(observers[i].observer, entry)];
        }
        i := i + 1;
      }
      assert observers[..|observers|] == observers;
    }

    /** The notification task: clears the pending flag and notifies every registered observer. */
    method NotifyObservers()
      modifies this`pendingNotificationObserversTask, this`events
      ensures !pendingNotificationObserversTask
      ensures events == old(events) + Notifications(observers)
    {
      pendingNotificationObserversTask := false;
      var i := 0;
      while i < |observers|
        invariant 0 <= i <= |observers|
        invariant events == old(events) + Notifications(observers[..i])
        modifies this`events
      {
        assert observers[..i + 1][..i] == observers[..i];
        events := events + [ObserverNotified(observers[i].observer)];
        i := i + 1;
      }
      assert observers[..|observers|] == observers;
    }

    /**
     * copy_secondary_resource_timing_buffer. While the full event is pending,
     * queue_entry of a popped entry pushes it straight back, so the loop only
     * rotates the secondary buffer; it stops when the limit is exceeded or the
     * buffer is empty and would otherwise not stop at all. `fuel` bounds the
     * number of rotations.
     */
    method CopySecondaryResourceTimingBuffer(fuel: nat)
      requires Valid() && resourceTimingBufferPendingFullEvent
      modifies this, buffer
      decreases 2
      ensures Valid() && resourceTimingBufferPendingFullEvent
      ensures observers == old(observers) && pendingNotificationObserversTask == old(pendingNotificationObserversTask)
      ensures resourceTimingBufferSizeLimit == old(resourceTimingBufferSizeLimit)
      ensures resourceTimingBufferCurrentSize == old(resourceTimingBufferCurrentSize)
      ensures buffer.entries == old(buffer.entries) && events == old(events)
      ensures |resourceTimingSecondaryEntries| == |old(resourceTimingSecondaryEntries)|
      ensures multiset(resourceTimingSecondaryEntries) == multiset(old(resourceTimingSecondaryEntries))
      ensures !old(CanAddResourceTimingEntry()) ==> resourceTimingSecondaryEntries == old(resourceTimingSecondaryEntries)
    {
      var steps := 0;
      while steps < fuel && CanAddResourceTimingEntry()
        invariant Valid() && resourceTimingBufferPendingFullEvent
        invariant observers == old(observers) && pendingNotificationObserversTask == old(pendingNotificationObserversTask)
        invariant resourceTimingBufferSizeLimit == old(resourceTimingBufferSizeLimit)
        invariant resourceTimingBufferCurrentSize == old(resourceTimingBufferCurrentSize)
        invariant buffer.entries == old(buffer.entries) && events == old(events)
        invariant |resourceTimingSecondaryEntries| == |old(resourceTimingSecondaryEntries)|
        invariant multiset(resourceTimingSecondaryEntries) == multiset(old(resourceTimingSecondaryEntries))
        invariant !CanAddResourceTimingEntry() ==> resourceTimingSecondaryEntries == old(resourceTimingSecondaryEntries)
        decreases fuel - steps
      {
        if resourceTimingSecondaryEntries == [] {
          break;
        }
        var entry := resourceTimingSecondaryEntries[0];
        assert resourceTimingSecondaryEntries == [entry] + resourceTimingSecondaryEntries[1..];
        resourceTimingSecondaryEntries := resourceTimingSecondaryEntries[1..];
        var queued := QueueEntry(entry);
        steps := steps + 1;
      }
    }

    /**
     * fire_buffer_full_event, called when the limit is exceeded. The source loops while
     * the secondary buffer is non-empty, but CopySecondaryResourceTimingBuffer never
     * shortens it, so the first pass always takes the exit that clears it: the body
     * runs at most once.
     */
    method FireBufferFullEvent()
      requires Valid() && resourceTimingBufferPendingFullEvent && !CanAddResourceTimingEntry()
      modifies this, buffer
      decreases 3
      ensures Valid() && !resourceTimingBufferPendingFullEvent
      ensures resourceTimingSecondaryEntries == []
      ensures events == old(events) + (if old(resourceTimingSecondaryEntries) != [] then [ResourceTimingBufferFull] else [])
      ensures observers == old(observers) && pendingNotificationObserversTask == old(pendingNotificationObserversTask)
      ensures resourceTimingBufferSizeLimit == old(resourceTimingBufferSizeLimit)
      ensures resourceTimingBufferCurrentSize == old(resourceTimingBufferCurrentSize)
      ensures buffer.entries == old(buffer.entries)
    {
      if resourceTimingSecondaryEntries != [] {
        var noOfExcessEntriesBefore := |resourceTimingSecondaryEntries|;
        if !CanAddResourceTimingEntry() {
          // The event handler is a no-op.
          events := events + [ResourceTimingBufferFull];
        }
        CopySecondaryResourceTimingBuffer(|resourceTimingSecondaryEntries|);
        var noOfExcessEntriesAfter := |resourceTimingSecondaryEntries|;
        if noOfExcessEntriesBefore <= noOfExcessEntriesAfter {
          resourceTimingSecondaryEntries := [];
        }
      }
      resourceTimingBufferPendingFullEvent := false;
    }

    /** "Add a PerformanceResourceTiming entry": count it in, or park it in the secondary buffer. */
    method ShouldQueueResourceEntry(entry: Entry) returns (queued: bool)
      requires Valid() && entry.entryType == RESOURCE
      modifies this, buffer
      decreases if resourceTimingBufferPendingFullEvent then 0 else 4
      ensures Valid()
      ensures queued == (!old(resourceTimingBufferPendingFullEvent) && old(CanAddResourceTimingEntry()))
      ensures resourceTimingBufferPendingFullEvent == old(resourceTimingBufferPendingFullEvent)
      ensures observers == old(observers) && pendingNotificationObserversTask == old(pendingNotificationObserversTask)
      ensures resourceTimingBufferSizeLimit == old(resourceTimingBufferSizeLimit)
      ensures buffer.entries == old(buffer.entries)
      ensures queued ==>
        && resourceTimingBufferCurrentSize == old(resourceTimingBufferCurrentSize) + 1
        && resourceTimingSecondaryEntries == old(resourceTimingSecondaryEntries)
        && events == old(events)
      ensures !queued ==>
        && resourceTimingBufferCurrentSize == old(resourceTimingBufferCurrentSize)
        && resourceTimingSecondaryEntries
           == (if old(resourceTimingBufferPendingFullEvent) then old(resourceTimingSecondaryEntries) else []) + [entry]
        && events == old(events)
                     + (if !old(resourceTimingBufferPendingFullEvent) && old(resourceTimingSecondaryEntries) != []
                        then [ResourceTimingBufferFull] else [])
    {
      if !resourceTimingBufferPendingFullEvent {
        // Step 2.
        if CanAddResourceTimingEntry() {
          resourceTimingBufferCurrentSize := resourceTimingBufferCurrentSize + 1;
          return true;
        }
        // Step 3.
        resourceTimingBufferPendingFullEvent := true;
        FireBufferFullEvent();
      }
      // Steps 4 and 5.
      resourceTimingSecondaryEntries := resourceTimingSecondaryEntries + [entry];
      return false;
    }

    /** mark(): refuses the timing attribute names in a window, otherwise queues a mark entry. */
    method Mark(markName: string, now: int) returns (r: Fallible)
      requires Valid()
      modifies this, buffer
      ensures Valid()
      ensures isWindow && markName in INVALID_ENTRY_NAMES ==>
        && r == Err(Syntax)
        && buffer.entries == old(buffer.entries) && events == old(events)
        && pendingNotificationObserversTask == old(pendingNotificationObserversTask)
      ensures !(isWindow && markName in INVALID_ENTRY_NAMES) ==>
        var entry := Entry(markName, MARK, now, 0);
        && r == Ok
        && buffer.entries == old(buffer.entries) + [entry]
        && pendingNotificationObserversTask
        && events == old(events) + QueuedToObservers(observers, entry)
                     + (if old(pendingNotificationObserversTask) then [] else [NotificationTaskQueued])
      ensures observers == old(observers)
      ensures resourceTimingBufferSizeLimit == old(resourceTimingBufferSizeLimit)
      ensures resourceTimingBufferPendingFullEvent == old(resourceTimingBufferPendingFullEvent)
      ensures resourceTimingBufferCurrentSize == old(resourceTimingBufferCurrentSize)
      ensures resourceTimingSecondaryEntries == old(resourceTimingSecondaryEntries)
    {
      if isWindow && markName in INVALID_ENTRY_NAMES {
        return Err(Syntax);
      }
      var entry := Entry(markName, MARK, now, 0);
      assert Admits(entry);
      var index := QueueEntry(entry);
      return Ok;
    }

    /**
     * measure(): the end time is that of the end mark (or now), the start time that of the
     * start mark (or 0); marks are looked up with name "mark" and type the mark's name.
     */
    method Measure(measureName: string, startMark: Option<string>, endMark: Option<string>, now: int)
      returns (r: Fallible)
      requires Valid()
      modifies this, buffer
      ensures Valid()
      ensures r == Ok
      ensures
        var endTime := MarkTime(old(buffer.entries), endMark, now);
        var startTime := MarkTime(old(buffer.entries), startMark, 0);
        var entry := Entry(measureName, MEASURE, startTime, endTime - startTime);
        && buffer.entries == old(buffer.entries) + [entry]
        && pendingNotificationObserversTask
        && events == old(events) + QueuedToObservers(observers, entry)
                     + (if old(pendingNotificationObserversTask) then [] else [NotificationTaskQueued])
      ensures observers == old(observers)
      ensures resourceTimingBufferSizeLimit == old(resourceTimingBufferSizeLimit)
      ensures resourceTimingBufferPendingFullEvent == old(resourceTimingBufferPendingFullEvent)
      ensures resourceTimingBufferCurrentSize == old(resourceTimingBufferCurrentSize)
      ensures resourceTimingSecondaryEntries == old(resourceTimingSecondaryEntries)
    {
      // Steps 1 and 2.
      var endTime := MarkTime(buffer.entries, endMark, now);
      // Step 3.
      var startTime := MarkTime(buffer.entries, startMark, 0);
      // Steps 4 to 10.
      var entry := Entry(measureName, MEASURE, startTime, endTime - startTime);
      assert Admits(entry);
      var index := QueueEntry(entry);
      return Ok;
    }

    /** clearMarks(): removes every mark, and every entry with the given name whatever its type. */
    method ClearMarks(markName: Option<string>)
      modifies buffer
      ensures buffer.entries == Retained(old(buffer.entries), markName, Some(MARK))
      ensures forall e :: e in buffer.entries ==> e.entryType != MARK
    {
      buffer.ClearEntriesByNameAndType(markName, Some(MARK));
    }

    /** clearMeasures(): removes every measure, and every entry with the given name whatever its type. */
    method ClearMeasures(measureName: Option<string>)
      modifies buffer
      ensures buffer.entries == Retained(old(buffer.entries), measureName, Some(MEASURE))
      ensures forall e :: e in buffer.entries ==> e.entryType != MEASURE
    {
      buffer.ClearEntriesByNameAndType(measureName, Some(MEASURE));
    }

    method ClearResourceTimings()
      modifies buffer, this`resourceTimingBufferCurrentSize
      ensures buffer.entries == Retained(old(buffer.entries), None, Some(RESOURCE))
      ensures forall e :: e in buffer.entries ==> e.entryType != RESOURCE
      ensures resourceTimingBufferCurrentSize == 0
    {
      buffer.ClearEntriesByNameAndType(None, Some(RESOURCE));
      resourceTimingBufferCurrentSize := 0;
    }

    /** update_entry: replaces the entry at `index`, when there is one. */
    method UpdateEntry(index: nat, entry: Entry)
      modifies buffer
      ensures buffer.entries == if index < |old(buffer.entries)| then old(buffer.entries)[index := entry] else old(buffer.entries)
    {
      if index < |buffer.entries| {
        buffer.entries := buffer.entries[index := entry];
      }
    }

    function GetEntries(): (r: seq<Entry>)
      reads this, buffer
      ensures SortedByStartTime(r) && multiset(r) == multiset(buffer.entries)
    {
      assert Filter(buffer.entries, None, None) == buffer.entries by { FilterNothing(buffer.entries); }
      GetEntriesIsAPermutationOfTheMatches(buffer.entries, None, None);
      GetEntriesByNameAndType(buffer.entries, None, None)
    }

    function GetEntriesByType(entryType: string): (r: seq<Entry>)
      reads this, buffer
      ensures SortedByStartTime(r)
      ensures forall e :: e in r <==> e in buffer.entries && e.entryType == entryType
    {
      GetEntriesByNameAndType(buffer.entries, None, Some(entryType))
    }

    function GetEntriesByName(name: string, entryType: Option<string>): (r: seq<Entry>)
      reads this, buffer
      ensures SortedByStartTime(r)
      ensures forall e :: e in r <==> e in buffer.entries && e.name == name && (entryType.None? || e.entryType == entryType.value)
    {
      GetEntriesByNameAndType(buffer.entries, Some(name), entryType)
    }

    method SetResourceTimingBufferSize(maxSize: nat)
      requires maxSize < U32_LIMIT
      modifies this`resourceTimingBufferSizeLimit
      ensures resourceTimingBufferSizeLimit == maxSize
    {
      resourceTimingBufferSizeLimit := maxSize;
    }
  }

  // ---------------------------------------------------------------------------
  // A scenario
  // ---------------------------------------------------------------------------

  /**
   * Three resource entries with the limit set to 0. The first is admitted because the
   * limit check is `current <= limit`. The second finds the limit exceeded with nothing
   * parked yet, so no event is fired and it is parked. The third fires the buffer-full
   * event, which drops the parked second entry, and is parked in its place.
   */
  method ScenarioResourceBufferOverflow() returns (entries: seq<Entry>, secondary: seq<Entry>, events: seq<Event>, currentSize: nat)
    ensures entries == [Entry("a", RESOURCE, 1, 0)]
    ensures secondary == [Entry("c", RESOURCE, 3, 0)]
    ensures events == [NotificationTaskQueued, ResourceTimingBufferFull]
    ensures currentSize == 1
  {
    var performance := new Performance(true);
    performance.SetResourceTimingBufferSize(0);
    var first := performance.QueueEntry(Entry("a", RESOURCE, 1, 0));
    assert performance.events == [NotificationTaskQueued];
    var second := performance.QueueEntry(Entry("b", RESOURCE, 2, 0));
    assert performance.resourceTimingSecondaryEntries == [Entry("b", RESOURCE, 2, 0)];
    var third := performance.QueueEntry(Entry("c", RESOURCE, 3, 0));
    entries := performance.buffer.entries;
    secondary := performance.resourceTimingSecondaryEntries;
    events := performance.events;
    currentSize := performance.resourceTimingBufferCurrentSize;
  }
}
