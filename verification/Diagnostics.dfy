/**
 The diagnostics of a runtime entity: a bounded history that refines the unbounded log
 of everything recorded, and readers that resume by sequence number.
 */
module Diagnostics {
  import opened Options

  datatype Level = Debug | Info | Warn | Error

  /** `number` is the sequence number within the entity. */
  datatype Record = Record(level: Level, timestamp: int, message: string, number: nat)

  datatype History = History(
    entries: seq<Record>, errors: seq<Record>, droppedEntries: nat, droppedErrors: nat, next: nat)

  const NOTHING := History([], [], 0, 0, 1)

  /** The last records of a list. */
  function Last(s: seq<Record>, n: nat): seq<Record> {
    if |s| <= n then s else s[|s| - n..]
  }

  function Errors(log: seq<Record>): seq<Record> {
    if log == [] then []
    else if log[|log| - 1].level == Error then Errors(log[..|log| - 1]) + [log[|log| - 1]]
    else Errors(log[..|log| - 1])
  }

  /** The history holds the ends of the log and of its errors, and counts what it has dropped. */
  ghost predicate Represents(h: History, log: seq<Record>, entryCapacity: nat, errorCapacity: nat) {
    && h.entries == Last(log, entryCapacity) && h.droppedEntries + |h.entries| == |log|
    && h.errors == Last(Errors(log), errorCapacity) && h.droppedErrors + |h.errors| == |Errors(log)|
    && h.next == |log| + 1
    && forall i :: 0 <= i < |log| ==> log[i].number == i + 1
  }

  /** Appends a record and shifts out what exceeds the capacity. */
  method Keep(kept: seq<Record>, dropped: nat, record: Record, capacity: nat)
    returns (now: seq<Record>, droppedNow: nat)
    ensures now == Last(kept + [record], capacity) && droppedNow + |now| == dropped + |kept| + 1
  {
    now, droppedNow := kept + [record], dropped;
    while |now| > capacity
      invariant |now| >= capacity || now == kept + [record]
      invariant |now| <= |kept| + 1 && now == (kept + [record])[|kept| + 1 - |now|..]
      invariant droppedNow + |now| == dropped + |kept| + 1
    {
      now, droppedNow := now[1..], droppedNow + 1;
    }
  }

  /** What `record` does to a history. */
  function Recorded(h: History, level: Level, timestamp: int, message: string, entryCapacity: nat, errorCapacity: nat)
    : History
  {
    var record := Record(level, timestamp, message, h.next);
    var entries := Last(h.entries + [record], entryCapacity);
    var errors := if level == Error then Last(h.errors + [record], errorCapacity) else h.errors;
    History(entries, errors,
            h.droppedEntries + |h.entries| + 1 - |entries|,
            if level == Error then h.droppedErrors + |h.errors| + 1 - |errors| else h.droppedErrors,
            h.next + 1)
  }

  /** The pushes and shifts of `record`. */
  method RecordIn(h: History, level: Level, timestamp: int, message: string, entryCapacity: nat, errorCapacity: nat)
    returns (h': History)
    ensures h' == Recorded(h, level, timestamp, message, entryCapacity, errorCapacity)
  {
    var record := Record(level, timestamp, message, h.next);
    var entries, droppedEntries := Keep(h.entries, h.droppedEntries, record, entryCapacity);
    var errors, droppedErrors := h.errors, h.droppedErrors;
    if level == Error {
      errors, droppedErrors := Keep(h.errors, h.droppedErrors, record, errorCapacity);
    }
    h' := History(entries, errors, droppedEntries, droppedErrors, h.next + 1);
  }

  /** A history that represents a log represents, after `record`, the log with the new record at its end. */
  lemma RecordedRepresents(
    h: History, log: seq<Record>, level: Level, timestamp: int, message: string, entryCapacity: nat, errorCapacity: nat)
    requires Represents(h, log, entryCapacity, errorCapacity)
    ensures var more := log + [Record(level, timestamp, message, |log| + 1)];
      var h' := Recorded(h, level, timestamp, message, entryCapacity, errorCapacity);
      Represents(h', more, entryCapacity, errorCapacity)
  {
    var record := Record(level, timestamp, message, |log| + 1);
    hide Errors;
    KeptStaysLast(log, record, entryCapacity);
    KeptStaysLast(Errors(log), record, errorCapacity);
    ErrorsOfMore(log, record);
  }

  /** The end of a longer log is made from the end of the log. */
  lemma KeptStaysLast(log: seq<Record>, record: Record, capacity: nat)
    ensures Last(Last(log, capacity) + [record], capacity) == Last(log + [record], capacity)
  {
  }

  lemma ErrorsOfMore(log: seq<Record>, record: Record)
    ensures Errors(log + [record]) == if record.level == Error then Errors(log) + [record] else Errors(log)
  {
    assert (log + [record])[..|log|] == log;
  }

  /** The kept records carry consecutive numbers, the last one of them the number of records so far. */
  lemma NumbersAreContiguous(h: History, log: seq<Record>, entryCapacity: nat, errorCapacity: nat)
    requires Represents(h, log, entryCapacity, errorCapacity)
    ensures forall i :: 0 <= i < |h.entries| ==> h.entries[i].number == h.droppedEntries + i + 1
    ensures h.droppedEntries + |h.entries| == h.next - 1
  {
  }

  // ---------------------------------------------------------------------------
  // Reading
  // ---------------------------------------------------------------------------

  function Rank(level: Level): nat {
    match level
    case Debug => 10
    case Info => 20
    case Warn => 30
    case Error => 40
  }

  datatype Query = Query(
    limit: Option<real>, errorLimit: Option<real>, level: Option<Level>, since: Option<int>, after: Option<nat>)

  const EVERYTHING := Query(None, None, None, None, None)

  predicate AfterCursor(record: Record, q: Query) {
    && (q.since.Some? ==> record.timestamp >= q.since.value)
    && (q.after.Some? ==> record.number > q.after.value)
  }

  predicate Shown(record: Record, q: Query) {
    AfterCursor(record, q) && (q.level.Some? ==> Rank(record.level) >= Rank(q.level.value))
  }

  /** The records that a query shows, in order. */
  function Filtered(s: seq<Record>, q: Query): seq<Record> {
    if s == [] then []
    else (if Shown(s[0], q) then [s[0]] else []) + Filtered(s[1..], q)
  }

  /** A limit that is not a number is none; any other is rounded down into the range up to the capacity. */
  function NormalizeLimit(value: Option<real>, fallback: nat, max: nat): (n: nat)
    ensures value == None ==> n == fallback
    ensures value.Some? ==> n <= max && (n as real <= value.value || n == 0)
                            && (value.value < n as real + 1.0 || n == max)
  {
    if value == None then fallback
    else
      var whole := value.value.Floor;
      if whole < 0 then 0 else if whole < max then whole else max
  }

  /** The last records that a query shows, up to a limit. */
  function Limited(s: seq<Record>, q: Query, limit: Option<real>, capacity: nat): seq<Record> {
    var shown := Filtered(s, q);
    Last(shown, NormalizeLimit(limit, |shown|, capacity))
  }

  function Entries(h: History, q: Query, entryCapacity: nat): seq<Record> {
    Limited(h.entries, q, q.limit, entryCapacity)
  }

  /** The level does not restrict the errors. */
  function ErrorEntries(h: History, q: Query, errorCapacity: nat): seq<Record> {
    Limited(h.errors, q.(level := None), q.errorLimit, errorCapacity)
  }

  lemma {:induction false} FilteredIsAll(s: seq<Record>, q: Query)
    requires forall record :: record in s ==> Shown(record, q)
    ensures Filtered(s, q) == s
    decreases |s|
  {
    hide Shown;
    if s != [] {
      assert s[0] in s && s == [s[0]] + s[1..];
      FilteredIsAll(s[1..], q);
    }
  }

  lemma {:induction false} FilteredIsNone(s: seq<Record>, q: Query)
    requires forall record :: record in s ==> !Shown(record, q)
    ensures Filtered(s, q) == []
    decreases |s|
  {
    hide Shown;
    if s != [] {
      assert s[0] in s && s == [s[0]] + s[1..];
      FilteredIsNone(s[1..], q);
    }
  }

  lemma {:induction false} FilteredConcat(a: seq<Record>, b: seq<Record>, q: Query)
    ensures Filtered(a + b, q) == Filtered(a, q) + Filtered(b, q)
    decreases |a|
  {
    hide Shown;
    if a == [] {
      assert a + b == b;
    } else {
      assert (a + b)[0] == a[0] && (a + b)[1..] == a[1..] + b;
      FilteredConcat(a[1..], b, q);
    }
  }

  predicate Ascending(s: seq<Record>) {
    forall i, j :: 0 <= i < j < |s| ==> s[i].number < s[j].number
  }

  lemma {:induction false} FilteredHas(s: seq<Record>, q: Query, record: Record)
    ensures record in Filtered(s, q) <==> record in s && Shown(record, q)
    decreases |s|
  {
    hide Shown;
    if s != [] {
      FilteredHas(s[1..], q, record);
      assert s == [s[0]] + s[1..];
    }
  }

  lemma AscendingCons(first: Record, rest: seq<Record>)
    ensures Ascending([first] + rest)
       <==> Ascending(rest) && forall record :: record in rest ==> first.number < record.number
  {
    var all := [first] + rest;
    assert all[1..] == rest;
    if Ascending(all) {
      forall i, j | 0 <= i < j < |rest| ensures rest[i].number < rest[j].number {
        assert all[i + 1].number < all[j + 1].number;
      }
      forall i | 0 <= i < |rest| ensures first.number < rest[i].number {
        assert all[0].number < all[i + 1].number;
      }
    }
  }

  lemma {:induction false} FilteredAscends(s: seq<Record>, q: Query)
    requires Ascending(s)
    ensures Ascending(Filtered(s, q))
    decreases |s|
  {
    hide Shown, Ascending;
    if s == [] {
      assert Ascending(Filtered(s, q)) by { NothingAscends(); }
    } else {
      var rest := Filtered(s[1..], q);
      assert s == [s[0]] + s[1..];
      AscendingCons(s[0], s[1..]);
      FilteredAscends(s[1..], q);
      forall record | record in rest ensures s[0].number < record.number {
        FilteredHas(s[1..], q, record);
      }
      AscendingCons(s[0], rest);
      assert [] + rest == rest;
    }
  }

  lemma NothingAscends()
    ensures Ascending([])
  {
  }

  /** Filtering keeps exactly the records that are shown, in their order. */
  lemma FilteredIs(s: seq<Record>, q: Query)
    ensures forall record :: record in Filtered(s, q) <==> record in s && Shown(record, q)
    ensures Ascending(s) ==> Ascending(Filtered(s, q))
  {
    hide Shown, Filtered, Ascending;
    forall record ensures record in Filtered(s, q) <==> record in s && Shown(record, q) {
      FilteredHas(s, q, record);
    }
    if Ascending(s) {
      FilteredAscends(s, q);
    }
  }

  /** A limited list is in order and shown; without a limit nothing that is shown is missing. */
  lemma LimitedIs(s: seq<Record>, q: Query, limit: Option<real>, capacity: nat)
    requires Ascending(s)
    ensures var got := Limited(s, q, limit, capacity);
      && Ascending(got)
      && (forall record :: record in got ==> record in s && Shown(record, q))
      && (limit == None ==> forall record :: record in got <==> record in s && Shown(record, q))
  {
    hide Filtered, Shown, NormalizeLimit;
    FilteredIs(s, q);
    var shown := Filtered(s, q);
    var n := NormalizeLimit(limit, |shown|, capacity);
    assert forall record :: record in Last(shown, n) ==> record in shown;
    NoLimitIsAll(|shown|, capacity);
  }

  lemma LastIn(s: seq<Record>, n: nat)
    ensures forall record :: record in Last(s, n) ==> record in s
    ensures Ascending(s) ==> Ascending(Last(s, n))
  {
  }

  /** What a query returns is shown, was kept, and is in order; without a limit nothing that is shown is missing. */
  lemma QueryReturns(h: History, log: seq<Record>, entryCapacity: nat, errorCapacity: nat, q: Query)
    requires Represents(h, log, entryCapacity, errorCapacity)
    ensures var got := Entries(h, q, entryCapacity);
      && Ascending(got)
      && (forall record :: record in got ==> record in log && Shown(record, q))
      && (q.limit == None ==>
            forall record :: record in got <==> record in Last(log, entryCapacity) && Shown(record, q))
  {
    hide Errors, Limited, Shown;
    LastIn(log, entryCapacity);
    LimitedIs(h.entries, q, q.limit, entryCapacity);
  }

  lemma NoLimitIsAll(fallback: nat, max: nat)
    ensures NormalizeLimit(None, fallback, max) == fallback
  {
  }

  /** A plain limit returns the end of the whole log, as far as the capacity goes. */
  lemma LimitReturnsEnd(h: History, log: seq<Record>, entryCapacity: nat, errorCapacity: nat, limit: nat)
    requires Represents(h, log, entryCapacity, errorCapacity)
    ensures Entries(h, EVERYTHING.(limit := Some(limit as real)), entryCapacity)
         == Last(log, if limit < entryCapacity then limit else entryCapacity)
  {
    hide Errors, Filtered;
    var q := EVERYTHING.(limit := Some(limit as real));
    FilteredIsAll(h.entries, q);
    assert (limit as real).Floor == limit;
  }

  /** The errors of a log are its records of that level, in order. */
  lemma {:induction false} ErrorsAre(log: seq<Record>)
    ensures forall record :: record in Errors(log) <==> record in log && record.level == Error
    ensures Ascending(log) ==> Ascending(Errors(log))
    decreases |log|
  {
    if log != [] {
      var n := |log| - 1;
      var init := log[..n];
      assert log == init + [log[n]];
      ErrorsAre(init);
      ErrorsOfMore(init, log[n]);
      hide Errors;
      AscendingSnoc(init, log[n]);
      AscendingSnoc(Errors(init), log[n]);
    }
  }

  lemma AscendingSnoc(init: seq<Record>, last: Record)
    ensures Ascending(init + [last])
       <==> Ascending(init) && forall record :: record in init ==> record.number < last.number
  {
    var all := init + [last];
    assert all[..|init|] == init;
    if Ascending(all) {
      forall i, j | 0 <= i < j < |init| ensures init[i].number < init[j].number {
        assert all[i].number < all[j].number;
      }
      forall i | 0 <= i < |init| ensures init[i].number < last.number {
        assert all[i].number < all[|init|].number;
      }
    }
  }

  /**
   The errors that a query returns were recorded as errors, pass its cursor and are in
   order; without a limit no kept one that passes is missing.
   */
  lemma ErrorQueryReturns(h: History, log: seq<Record>, entryCapacity: nat, errorCapacity: nat, q: Query)
    requires Represents(h, log, entryCapacity, errorCapacity)
    ensures var got := ErrorEntries(h, q, errorCapacity);
      && Ascending(got)
      && (forall record :: record in got ==> record in log && record.level == Error && AfterCursor(record, q))
      && (q.errorLimit == None ==>
            forall record :: record in got <==> record in Last(Errors(log), errorCapacity) && AfterCursor(record, q))
  {
    ErrorsAre(log);
    ShownAtAnyLevel(q);
    hide Errors, Limited, Shown, AfterCursor;
    LastIn(Errors(log), errorCapacity);
    LimitedIs(h.errors, q.(level := None), q.errorLimit, errorCapacity);
  }

  lemma ShownAtAnyLevel(q: Query)
    ensures forall record :: Shown(record, q.(level := None)) <==> AfterCursor(record, q)
  {
  }

  /** A plain error limit returns the end of the whole log's errors, as far as the capacity goes, whatever the level. */
  lemma ErrorLimitReturnsEnd(
    h: History, log: seq<Record>, entryCapacity: nat, errorCapacity: nat, limit: nat, level: Option<Level>)
    requires Represents(h, log, entryCapacity, errorCapacity)
    ensures ErrorEntries(h, EVERYTHING.(errorLimit := Some(limit as real), level := level), errorCapacity)
         == Last(Errors(log), if limit < errorCapacity then limit else errorCapacity)
  {
    hide Errors, Filtered;
    var q := EVERYTHING.(errorLimit := Some(limit as real), level := level);
    FilteredIsAll(h.errors, q.(level := None));
    assert (limit as real).Floor == limit;
  }

  /** The levels from debug up to error. */
  predicate AtLeast(level: Level, floor: Level) {
    || floor == Debug
    || (floor == Info && (level == Info || level == Warn || level == Error))
    || (floor == Warn && (level == Warn || level == Error))
    || (floor == Error && level == Error)
  }

  /** Not before the given time, and numbered above the given number. */
  predicate Passes(record: Record, q: Query) {
    && (q.since == None || q.since.value <= record.timestamp)
    && (q.after == None || q.after.value < record.number)
  }

  /**
   Without limits a query returns exactly the kept records of its level or above that
   pass, and the kept errors that pass, each in the order of their numbers.
   */
  lemma QueryIs(h: History, log: seq<Record>, entryCapacity: nat, errorCapacity: nat, q: Query, record: Record)
    requires Represents(h, log, entryCapacity, errorCapacity)
    ensures q.limit == None ==>
      (record in Entries(h, q, entryCapacity) <==>
         && record in log[if |log| <= entryCapacity then 0 else |log| - entryCapacity..]
         && Passes(record, q) && (q.level == None || AtLeast(record.level, q.level.value)))
    ensures q.errorLimit == None ==>
      (record in ErrorEntries(h, q, errorCapacity) <==> record in h.errors && Passes(record, q))
  {
    hide Entries, ErrorEntries, Errors, Ascending;
    QueryReturns(h, log, entryCapacity, errorCapacity, q);
    ErrorQueryReturns(h, log, entryCapacity, errorCapacity, q);
  }

  /** A limit that is a whole number cuts what the query would return without it to its end. */
  lemma LimitCuts(h: History, q: Query, entryCapacity: nat, limit: nat)
    ensures var all := Entries(h, q.(limit := None), entryCapacity);
      var n := if limit < entryCapacity then limit else entryCapacity;
      Entries(h, q.(limit := Some(limit as real)), entryCapacity)
      == all[if |all| <= n then 0 else |all| - n..]
  {
    assert (limit as real).Floor == limit;
    SameShown(h.entries, q.(limit := None), q.(limit := Some(limit as real)));
    hide Filtered;
  }

  lemma {:induction false} SameShown(s: seq<Record>, q: Query, r: Query)
    requires q.level == r.level && q.since == r.since && q.after == r.after
    ensures Filtered(s, q) == Filtered(s, r)
  {
    if s != [] {
      SameShown(s[1..], q, r);
    }
  }

  // ---------------------------------------------------------------------------
  // Resuming
  // ---------------------------------------------------------------------------

  /** What a reader that has seen the first `cursor` records asks for. */
  function Resume(cursor: nat): Query {
    EVERYTHING.(after := Some(cursor))
  }

  /** How many records have been dropped. */
  function Lost(log: seq<Record>, capacity: nat): nat {
    if |log| <= capacity then 0 else |log| - capacity
  }

  /** Where a resuming reader goes on. */
  function First(log: seq<Record>, capacity: nat, cursor: nat): nat {
    if cursor < Lost(log, capacity) then Lost(log, capacity) else cursor
  }

  /**
   Resuming returns exactly the records that the reader has not seen, if none of them
   has been dropped, and otherwise all that is left.
   */
  lemma ResumeReturnsRest(h: History, log: seq<Record>, entryCapacity: nat, errorCapacity: nat, cursor: nat)
    requires Represents(h, log, entryCapacity, errorCapacity) && cursor <= |log|
    ensures h.droppedEntries == Lost(log, entryCapacity)
    ensures Entries(h, Resume(cursor), entryCapacity) == log[First(log, entryCapacity, cursor)..]
  {
    hide Errors, Filtered, NormalizeLimit;
    NumbersAreContiguous(h, log, entryCapacity, errorCapacity);
    FilteredIsRest(h.entries, h.droppedEntries, cursor);
    assert h.entries == log[h.droppedEntries..];
  }

  lemma FilteredIsRest(kept: seq<Record>, missing: nat, cursor: nat)
    requires cursor <= missing + |kept|
    requires forall i :: 0 <= i < |kept| ==> kept[i].number == missing + i + 1
    ensures Filtered(kept, Resume(cursor)) == kept[if cursor < missing then 0 else cursor - missing..]
  {
    var q := Resume(cursor);
    var k := if cursor < missing then 0 else cursor - missing;
    hide Filtered;
    assert kept == kept[..k] + kept[k..];
    FilteredConcat(kept[..k], kept[k..], q);
    FilteredIsNone(kept[..k], q);
    FilteredIsAll(kept[k..], q);
  }

  /** A step of a run: a record, or a reader that asks for what is new. */
  datatype Event = Recording(level: Level, timestamp: int, message: string) | Polling

  /** A history, and what a reader of it has collected; its cursor is the last number it has seen. */
  datatype Reader = Reader(history: History, seen: seq<Record>, cursor: nat)

  const FRESH := Reader(NOTHING, [], 0)

  /** What a poll returns. */
  function News(r: Reader, entryCapacity: nat): seq<Record> {
    Entries(r.history, Resume(r.cursor), entryCapacity)
  }

  function Next(r: Reader, e: Event, entryCapacity: nat, errorCapacity: nat): Reader {
    match e
    case Recording(level, timestamp, message) =>
      r.(history := Recorded(r.history, level, timestamp, message, entryCapacity, errorCapacity))
    case Polling =>
      var news := News(r, entryCapacity);
      if news == [] then r else Reader(r.history, r.seen + news, news[|news| - 1].number)
  }

  function After(r: Reader, events: seq<Event>, entryCapacity: nat, errorCapacity: nat): Reader
    decreases |events|
  {
    if events == [] then r
    else After(Next(r, events[0], entryCapacity, errorCapacity), events[1..], entryCapacity, errorCapacity)
  }

  /** Everything recorded on a run. */
  function Logged(log: seq<Record>, events: seq<Event>): seq<Record>
    decreases |events|
  {
    if events == [] then log else Logged(LoggedOne(log, events[0]), events[1..])
  }

  function LoggedOne(log: seq<Record>, e: Event): seq<Record> {
    match e
    case Recording(level, timestamp, message) => log + [Record(level, timestamp, message, |log| + 1)]
    case Polling => log
  }

  /** Every poll that returns something goes on right after the reader's cursor. */
  predicate NoGap(r: Reader, events: seq<Event>, entryCapacity: nat, errorCapacity: nat)
    decreases |events|
  {
    events == []
    || ((events[0] == Polling && News(r, entryCapacity) != [] ==> News(r, entryCapacity)[0].number == r.cursor + 1)
        && NoGap(Next(r, events[0], entryCapacity, errorCapacity), events[1..], entryCapacity, errorCapacity))
  }

  ghost predicate Coherent(r: Reader, log: seq<Record>, entryCapacity: nat, errorCapacity: nat) {
    Represents(r.history, log, entryCapacity, errorCapacity) && r.cursor <= |log| && |r.seen| <= r.cursor
  }

  lemma NextIs(r: Reader, log: seq<Record>, e: Event, entryCapacity: nat, errorCapacity: nat)
    requires Coherent(r, log, entryCapacity, errorCapacity)
    ensures var next := Next(r, e, entryCapacity, errorCapacity); var more := LoggedOne(log, e);
      && Coherent(next, more, entryCapacity, errorCapacity) && log <= more
      && (e == Polling ==>
            var from := First(log, entryCapacity, r.cursor);
            && News(r, entryCapacity) == log[from..]
            && (from < |log| ==>
                  next.seen == r.seen + log[from..] && next.cursor == |log| && log[from].number == from + 1)
            && (from == |log| ==> next == r))
      && (e != Polling ==> next.seen == r.seen && next.cursor == r.cursor)
  {
    if e == Polling {
      ResumeReturnsRest(r.history, log, entryCapacity, errorCapacity, r.cursor);
    } else {
      RecordedRepresents(r.history, log, e.level, e.timestamp, e.message, entryCapacity, errorCapacity);
    }
  }

  /** A run only ever adds, and what a reader has missed it never gets. */
  lemma {:induction false} RunGrows(
    r: Reader, log: seq<Record>, events: seq<Event>, entryCapacity: nat, errorCapacity: nat)
    requires Coherent(r, log, entryCapacity, errorCapacity)
    ensures var end := After(r, events, entryCapacity, errorCapacity);
      && Coherent(end, Logged(log, events), entryCapacity, errorCapacity)
      && end.cursor - |end.seen| >= r.cursor - |r.seen|
    decreases |events|
  {
    hide Represents, Next, LoggedOne, News;
    if events != [] {
      NextIs(r, log, events[0], entryCapacity, errorCapacity);
      RunGrows(Next(r, events[0], entryCapacity, errorCapacity), LoggedOne(log, events[0]), events[1..],
               entryCapacity, errorCapacity);
    }
  }

  /** A resuming reader has seen every record up to its cursor once, in order, exactly when there was no gap. */
  lemma {:induction false} ReaderSeesAllIff(
    r: Reader, log: seq<Record>, events: seq<Event>, entryCapacity: nat, errorCapacity: nat)
    requires Coherent(r, log, entryCapacity, errorCapacity) && r.seen == log[..r.cursor]
    ensures var end := After(r, events, entryCapacity, errorCapacity); var all := Logged(log, events);
      && Represents(end.history, all, entryCapacity, errorCapacity) && end.cursor <= |all|
      && (end.seen == all[..end.cursor] <==> NoGap(r, events, entryCapacity, errorCapacity))
    decreases |events|
  {
    hide Represents, Next, LoggedOne, News;
    if events != [] {
      var e := events[0];
      var next, more := Next(r, e, entryCapacity, errorCapacity), LoggedOne(log, e);
      NextIs(r, log, e, entryCapacity, errorCapacity);
      RunGrows(next, more, events[1..], entryCapacity, errorCapacity);
      var from := First(log, entryCapacity, r.cursor);
      if e == Polling && from < |log| && from > r.cursor {
        assert |next.seen| < next.cursor;
      } else {
        PollIsDense(r, log, next, more, e, from);
        ReaderSeesAllIff(next, more, events[1..], entryCapacity, errorCapacity);
      }
    }
  }

  lemma PollIsDense(r: Reader, log: seq<Record>, next: Reader, more: seq<Record>, e: Event, from: nat)
    requires r.cursor <= |log| && r.seen == log[..r.cursor] && log <= more && r.cursor <= from <= |log|
    requires e == Polling && from < |log| ==>
               from == r.cursor && next.seen == r.seen + log[from..] && next.cursor == |log|
    requires e != Polling || from == |log| ==> next.seen == r.seen && next.cursor == r.cursor
    ensures next.cursor <= |more| && next.seen == more[..next.cursor]
  {
    if e == Polling && from < |log| {
      assert log[..r.cursor] + log[r.cursor..] == log == more[..|log|];
    } else {
      assert more[..r.cursor] == log[..r.cursor];
    }
  }

  /** From an empty store, on every run: each record once and in order exactly when no poll left a gap. */
  lemma ReaderOnEveryRun(events: seq<Event>, entryCapacity: nat, errorCapacity: nat)
    ensures var end := After(FRESH, events, entryCapacity, errorCapacity); var all := Logged([], events);
      && end.cursor <= |all|
      && (end.seen == all[..end.cursor] <==> NoGap(FRESH, events, entryCapacity, errorCapacity))
  {
    hide After, Logged, NoGap;
    ReaderSeesAllIff(FRESH, [], events, entryCapacity, errorCapacity);
  }
}
