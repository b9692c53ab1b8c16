/**
 The two limiters of restarts: after a crash of the server process, and after a crash
 of a panel's view.  Both keep the times of the last grants and refuse when a minute
 holds too many.
 */
module RestartLimits {

  const WINDOW: int := 60_000
  const MAX_RESTARTS: nat := 5
  const MAX_RELOADS: nat := 3

  /** The times less than a window ago. */
  function Recent(history: seq<int>, now: int): seq<int> {
    if history == [] then []
    else (if now - history[0] < WINDOW then [history[0]] else []) + Recent(history[1..], now)
  }

  /** How many times fall into the window that begins at `start`. */
  function CountIn(times: seq<int>, start: int): nat {
    if times == [] then 0
    else (if start <= times[0] < start + WINDOW then 1 else 0) + CountIn(times[1..], start)
  }

  ghost predicate Sorted(times: seq<int>) {
    forall i, j :: 0 <= i < j < |times| ==> times[i] <= times[j]
  }

  /** Any `max + 1` grants in a row take a window at least. */
  ghost predicate Spaced(times: seq<int>, max: nat) {
    forall i :: 0 <= i && i + max < |times| ==> times[i + max] - times[i] >= WINDOW
  }

  /** The history of a limiter holds the recent ones of all its grants, up to the time of the clock. */
  ghost predicate Tracks(history: seq<int>, grants: seq<int>, clock: int, max: nat) {
    && Sorted(grants) && Spaced(grants, max)
    && (forall t :: t in grants ==> t <= clock)
    && |history| <= |grants| && |history| <= max && history == grants[|grants| - |history|..]
    && (forall i :: 0 <= i < |grants| - |history| ==> clock - grants[i] >= WINDOW)
  }

  lemma {:induction false} RecentConcat(a: seq<int>, b: seq<int>, now: int)
    ensures Recent(a + b, now) == Recent(a, now) + Recent(b, now)
    decreases |a|
  {
    if a == [] {
      assert a + b == b;
    } else {
      assert (a + b)[0] == a[0] && (a + b)[1..] == a[1..] + b;
      RecentConcat(a[1..], b, now);
    }
  }

  /** In a sorted list the recent times are the last ones. */
  lemma {:induction false} RecentIsEnd(times: seq<int>, now: int)
    requires Sorted(times)
    ensures |Recent(times, now)| <= |times| && Recent(times, now) == times[|times| - |Recent(times, now)|..]
    ensures forall i :: 0 <= i < |times| - |Recent(times, now)| ==> now - times[i] >= WINDOW
    ensures forall t :: t in Recent(times, now) ==> now - t < WINDOW
    decreases |times|
  {
    if times != [] {
      if now - times[0] < WINDOW {
        forall t | t in times ensures now - t < WINDOW {}
        AllRecent(times, now);
        hide Recent;
      } else {
        var rest := times[1..];
        RecentIsEnd(rest, now);
        OldFirst(times, now);
        hide Recent;
        assert times == [times[0]] + rest;
        var kept := |Recent(times, now)|;
        assert times[|times| - kept..] == rest[|rest| - kept..];
        forall i | 0 < i < |times| - kept ensures now - times[i] >= WINDOW {
          assert times[i] == rest[i - 1];
        }
      }
    }
  }

  lemma OldFirst(times: seq<int>, now: int)
    requires times != [] && now - times[0] >= WINDOW
    ensures Recent(times, now) == Recent(times[1..], now)
  {
    assert [] + Recent(times[1..], now) == Recent(times[1..], now);
  }

  lemma {:induction false} AllRecent(times: seq<int>, now: int)
    requires forall t :: t in times ==> now - t < WINDOW
    ensures Recent(times, now) == times
    decreases |times|
  {
    if times != [] {
      assert times[0] in times && times == [times[0]] + times[1..];
      assert forall t :: t in times[1..] ==> t in times;
      AllRecent(times[1..], now);
    }
  }

  /** The filter both limiters apply, as a loop. */
  method FilterRecent(history: seq<int>, now: int) returns (recent: seq<int>)
    ensures recent == Recent(history, now)
  {
    recent := [];
    for i := 0 to |history|
      invariant recent == Recent(history[..i], now)
    {
      assert history[..i + 1] == history[..i] + [history[i]];
      RecentConcat(history[..i], [history[i]], now);
      assert [history[i]][1..] == [];
      if now - history[i] < WINDOW {
        recent := recent + [history[i]];
      }
    }
    assert history[..|history|] == history;
  }

  /** Filtering keeps track at a later time. */
  lemma RecentTracks(history: seq<int>, grants: seq<int>, clock: int, now: int, max: nat)
    requires Tracks(history, grants, clock, max) && clock <= now
    ensures Tracks(Recent(history, now), grants, now, max)
    ensures forall t :: t in Recent(history, now) ==> now - t < WINDOW
  {
    RecentIsEnd(history, now);
  }

  /** A grant is possible while there are fewer recent ones than the maximum. */
  lemma GrantTracks(recent: seq<int>, grants: seq<int>, now: int, max: nat)
    requires Tracks(recent, grants, now, max) && |recent| < max
    ensures Tracks(recent + [now], grants + [now], now, max)
  {
    var all := grants + [now];
    forall i, j | 0 <= i < j < |all| ensures all[i] <= all[j] {
      assert all[i] in grants;
    }
    forall i | 0 <= i && i + max < |all| ensures all[i + max] - all[i] >= WINDOW {
      if i + max == |grants| {
        assert i < |grants| - |recent|;
      }
    }
    assert recent + [now] == all[|all| - |recent + [now]|..];
  }

  /** A later clock: the history still tracks. */
  lemma LaterTracks(history: seq<int>, grants: seq<int>, clock: int, now: int, max: nat)
    requires Tracks(history, grants, clock, max) && clock <= now
    ensures Tracks(history, grants, now, max)
  {
  }

  // ---------------------------------------------------------------------------
  // Every window
  // ---------------------------------------------------------------------------

  lemma {:induction false} CountConcat(a: seq<int>, b: seq<int>, start: int)
    ensures CountIn(a + b, start) == CountIn(a, start) + CountIn(b, start)
    decreases |a|
  {
    if a == [] {
      assert a + b == b;
    } else {
      assert (a + b)[0] == a[0] && (a + b)[1..] == a[1..] + b;
      CountConcat(a[1..], b, start);
    }
  }

  /** The window is a minute: the count is the number of places with a time in it. */
  lemma {:induction false} CountInMinute(times: seq<int>, start: int)
    ensures CountIn(times, start) == |set i | 0 <= i < |times| && start <= times[i] < start + 60_000|
    decreases |times|
  {
    var places := set i | 0 <= i < |times| && start <= times[i] < start + 60_000;
    if times == [] {
      assert places == {};
    } else {
      var n := |times| - 1;
      var init := times[..n];
      var earlier := set i | 0 <= i < n && start <= init[i] < start + 60_000;
      CountInMinute(init, start);
      assert times == init + [times[n]] && [times[n]][1..] == [];
      CountConcat(init, [times[n]], start);
      assert places == earlier + if start <= times[n] < start + 60_000 then {n} else {};
    }
  }

  lemma {:induction false} CountBounds(times: seq<int>, start: int)
    ensures CountIn(times, start) <= |times|
    ensures (forall t :: t in times ==> t < start) ==> CountIn(times, start) == 0
    ensures (forall t :: t in times ==> start <= t < start + WINDOW) ==> CountIn(times, start) == |times|
    decreases |times|
  {
    if times != [] {
      CountBounds(times[1..], start);
      assert times == [times[0]] + times[1..];
      assert times[0] in times;
      assert forall t :: t in times[1..] ==> t in times;
    }
  }

  /** A window with the last grant in it holds none from `max` places before. */
  lemma WindowAtEnd(times: seq<int>, max: nat, start: int)
    requires Sorted(times) && Spaced(times, max) && |times| > max
    requires times[|times| - 1] < start + WINDOW
    ensures CountIn(times, start) <= max
  {
    hide CountIn;
    var k := |times| - 1 - max;
    assert times[k + max] - times[k] >= WINDOW;
    var early, late := times[..k + 1], times[k + 1..];
    assert times == early + late;
    CountConcat(early, late, start);
    forall t | t in early ensures t < start {
      assert t <= times[k];
    }
    CountBounds(early, start);
    CountBounds(late, start);
  }

  /** Whatever minute is looked at, it holds at most the maximum of spaced grants. */
  lemma {:induction false} EveryWindowIsBounded(times: seq<int>, max: nat, start: int)
    requires Sorted(times) && Spaced(times, max)
    ensures CountIn(times, start) <= max
    decreases |times|
  {
    if |times| <= max {
      CountBounds(times, start);
    } else if times[|times| - 1] < start + WINDOW {
      WindowAtEnd(times, max, start);
    } else {
      var n := |times| - 1;
      assert times == times[..n] + [times[n]];
      CountConcat(times[..n], [times[n]], start);
      assert [times[n]][1..] == [];
      EveryWindowIsBounded(times[..n], max, start);
    }
  }

  /** A refusal has its reason: the minute up to now is full. */
  lemma RefusalMeansFull(recent: seq<int>, grants: seq<int>, now: int, max: nat)
    requires Tracks(recent, grants, now, max) && |recent| >= max
    requires forall t :: t in recent ==> now - t < WINDOW
    ensures CountIn(grants, now - WINDOW + 1) == max
  {
    hide CountIn, Sorted, Spaced;
    var start := now - WINDOW + 1;
    var early := grants[..|grants| - |recent|];
    assert grants == early + recent;
    CountConcat(early, recent, start);
    forall t | t in early ensures t < start {}
    CountBounds(early, start);
    assert forall t :: t in recent ==> t in grants;
    CountBounds(recent, start);
  }

  // ---------------------------------------------------------------------------
  // Whole runs
  // ---------------------------------------------------------------------------

  /** What a limiter grants of a list of requests. */
  function Granted(times: seq<int>, history: seq<int>, max: nat): seq<int>
    decreases |times|
  {
    if times == [] then []
    else
      var recent := Recent(history, times[0]);
      if |recent| < max then [times[0]] + Granted(times[1..], recent + [times[0]], max)
      else Granted(times[1..], recent, max)
  }

  lemma {:induction false} GrantedIsSpaced(times: seq<int>, history: seq<int>, grants: seq<int>, clock: int, max: nat)
    requires Tracks(history, grants, clock, max) && Sorted(times) && forall t :: t in times ==> clock <= t
    ensures Sorted(grants + Granted(times, history, max)) && Spaced(grants + Granted(times, history, max), max)
    decreases |times|
  {
    if times == [] {
      assert grants + [] == grants;
    } else {
      var now := times[0];
      assert now in times;
      var recent := Recent(history, now);
      RecentTracks(history, grants, clock, now, max);
      forall t | t in times[1..] ensures now <= t {
        assert t in times;
      }
      hide Tracks, Recent;
      if |recent| < max {
        GrantTracks(recent, grants, now, max);
        GrantedIsSpaced(times[1..], recent + [now], grants + [now], now, max);
        var later := Granted(times[1..], recent + [now], max);
        assert (grants + [now]) + later == grants + ([now] + later);
      } else {
        GrantedIsSpaced(times[1..], recent, grants, now, max);
      }
    }
  }

  /** On every run with a clock that does not go back, every minute holds at most the maximum of grants. */
  lemma EveryRunIsBounded(times: seq<int>, max: nat, start: int)
    requires Sorted(times)
    ensures CountIn(Granted(times, [], max), start) <= max
  {
    if times != [] {
      hide Granted, CountIn;
      forall t | t in times ensures times[0] <= t {}
      GrantedIsSpaced(times, [], [], times[0], max);
      assert [] + Granted(times, [], max) == Granted(times, [], max);
      EveryWindowIsBounded(Granted(times, [], max), max, start);
    }
  }

  // ---------------------------------------------------------------------------
  // The server process
  // ---------------------------------------------------------------------------

  datatype Exit = GaveUp | Restarted | RestartFailed

  class ServerProcessManager {
    var restartTimestamps: seq<int>
    var running: bool
    /** All restarts so far, and the latest time seen. */
    ghost var restarts: seq<int>
    ghost var clock: int

    ghost predicate Valid()
      reads this
    {
      Tracks(restartTimestamps, restarts, clock, MAX_RESTARTS)
    }

    constructor (now: int)
      ensures Valid() && restarts == [] && clock == now && running
    {
      restartTimestamps, running, restarts, clock := [], true, [], now;
    }

    /** `startWorks` is whether the new process comes up; the attempt counts either way. */
    method HandleUnexpectedExit(now: int, startWorks: bool) returns (exit: Exit)
      requires Valid() && clock <= now
      modifies this
      ensures Valid() && clock == now
      ensures exit == GaveUp <==> CountIn(old(restarts), now - 60_000 + 1) == 5
      ensures exit == GaveUp ==> restarts == old(restarts) && running == old(running)
      ensures exit != GaveUp ==>
                && restarts == old(restarts) + [now] && running == startWorks
                && exit == (if startWorks then Restarted else RestartFailed)
      ensures forall start :: CountIn(restarts, start) <= 5
    {
      hide Tracks, Recent, CountIn, Sorted, Spaced;
      RecentTracks(restartTimestamps, restarts, clock, now, MAX_RESTARTS);
      restartTimestamps := FilterRecent(restartTimestamps, now);
      clock := now;
      RefusedIff(restartTimestamps, restarts, now, MAX_RESTARTS);
      if |restartTimestamps| >= 5 {
        WindowsAreBounded(restartTimestamps, restarts, clock, MAX_RESTARTS);
        return GaveUp;
      }
      GrantTracks(restartTimestamps, restarts, now, MAX_RESTARTS);
      restartTimestamps, running, restarts := restartTimestamps + [now], startWorks, restarts + [now];
      WindowsAreBounded(restartTimestamps, restarts, clock, MAX_RESTARTS);
      exit := if startWorks then Restarted else RestartFailed;
    }
  }

  /** The filtered history is full exactly when the minute up to now is. */
  lemma RefusedIff(recent: seq<int>, grants: seq<int>, now: int, max: nat)
    requires Tracks(recent, grants, now, max)
    requires forall t :: t in recent ==> now - t < WINDOW
    ensures |recent| >= max <==> CountIn(grants, now - WINDOW + 1) == max
  {
    if |recent| >= max {
      RefusalMeansFull(recent, grants, now, max);
    } else {
      hide CountIn, Sorted, Spaced;
      var early := grants[..|grants| - |recent|];
      assert grants == early + recent;
      CountConcat(early, recent, now - WINDOW + 1);
      forall t | t in early ensures t < now - WINDOW + 1 {}
      CountBounds(early, now - WINDOW + 1);
      CountBounds(recent, now - WINDOW + 1);
    }
  }

  lemma WindowsAreBounded(history: seq<int>, grants: seq<int>, clock: int, max: nat)
    requires Tracks(history, grants, clock, max)
    ensures forall start :: CountIn(grants, start) <= max
  {
    forall start ensures CountIn(grants, start) <= max {
      EveryWindowIsBounded(grants, max, start);
    }
  }

  // ---------------------------------------------------------------------------
  // The views of panels
  // ---------------------------------------------------------------------------

  function HistoryOf(histories: map<string, seq<int>>, view: string): seq<int> {
    if view in histories then histories[view] else []
  }

  ghost predicate AllTrack(histories: map<string, seq<int>>, grants: map<string, seq<int>>, clock: int) {
    forall view :: Tracks(HistoryOf(histories, view), HistoryOf(grants, view), clock, MAX_RELOADS)
  }

  lemma AllTrackLater(histories: map<string, seq<int>>, grants: map<string, seq<int>>, clock: int, now: int)
    requires AllTrack(histories, grants, clock) && clock <= now
    ensures AllTrack(histories, grants, now)
  {
    hide Tracks;
    forall v ensures Tracks(HistoryOf(histories, v), HistoryOf(grants, v), now, MAX_RELOADS) {
      LaterTracks(HistoryOf(histories, v), HistoryOf(grants, v), clock, now, MAX_RELOADS);
    }
  }

  lemma AllTrackGrant(
    histories: map<string, seq<int>>, grants: map<string, seq<int>>, view: string, recent: seq<int>, now: int)
    requires AllTrack(histories, grants, now)
    requires Tracks(recent, HistoryOf(grants, view), now, MAX_RELOADS) && |recent| < MAX_RELOADS
    ensures AllTrack(histories[view := recent + [now]], grants[view := HistoryOf(grants, view) + [now]], now)
  {
    hide Tracks;
    GrantTracks(recent, HistoryOf(grants, view), now, MAX_RELOADS);
    var histories', grants' := histories[view := recent + [now]], grants[view := HistoryOf(grants, view) + [now]];
    forall v ensures Tracks(HistoryOf(histories', v), HistoryOf(grants', v), now, MAX_RELOADS) {
      if v != view {
        assert HistoryOf(histories', v) == HistoryOf(histories, v) && HistoryOf(grants', v) == HistoryOf(grants, v);
      }
    }
  }

  lemma AllTrackForget(histories: map<string, seq<int>>, grants: map<string, seq<int>>, view: string, clock: int)
    requires AllTrack(histories, grants, clock)
    ensures AllTrack(histories - {view}, grants - {view}, clock)
  {
    NothingTracks(clock);
    hide Tracks;
    forall v ensures Tracks(HistoryOf(histories - {view}, v), HistoryOf(grants - {view}, v), clock, MAX_RELOADS) {
      if v != view {
        assert HistoryOf(histories - {view}, v) == HistoryOf(histories, v);
        assert HistoryOf(grants - {view}, v) == HistoryOf(grants, v);
      }
    }
  }

  lemma NothingTracks(clock: int)
    ensures Tracks([], [], clock, MAX_RELOADS)
  {
  }

  lemma OneTracks(histories: map<string, seq<int>>, grants: map<string, seq<int>>, clock: int, view: string)
    requires AllTrack(histories, grants, clock)
    ensures Tracks(HistoryOf(histories, view), HistoryOf(grants, view), clock, MAX_RELOADS)
  {
  }

  lemma AllBounded(histories: map<string, seq<int>>, grants: map<string, seq<int>>, clock: int)
    requires AllTrack(histories, grants, clock)
    ensures forall v, start :: CountIn(HistoryOf(grants, v), start) <= MAX_RELOADS
  {
    hide Tracks, CountIn;
    forall v, start ensures CountIn(HistoryOf(grants, v), start) <= MAX_RELOADS {
      WindowsAreBounded(HistoryOf(histories, v), HistoryOf(grants, v), clock, MAX_RELOADS);
    }
  }

  class PanelView {
    var crashHistory: map<string, seq<int>>
    /** The reloads granted to each view since it was last destroyed. */
    ghost var reloads: map<string, seq<int>>
    ghost var clock: int

    ghost predicate Valid()
      reads this
    {
      AllTrack(crashHistory, reloads, clock)
    }

    constructor (now: int)
      ensures Valid() && reloads == map[] && clock == now
    {
      crashHistory, reloads, clock := map[], map[], now;
    }

    method ShouldAttemptReload(view: string, now: int) returns (granted: bool)
      requires Valid() && clock <= now
      modifies this
      ensures Valid() && clock == now
      ensures granted <==> CountIn(HistoryOf(old(reloads), view), now - 60_000 + 1) != 3
      ensures reloads == if granted then old(reloads)[view := HistoryOf(old(reloads), view) + [now]] else old(reloads)
      ensures forall v, start :: CountIn(HistoryOf(reloads, v), start) <= 3
    {
      hide Tracks, Recent, CountIn, AllTrack;
      ghost var grants := HistoryOf(reloads, view);
      var history := HistoryOf(crashHistory, view);
      AllTrackLater(crashHistory, reloads, clock, now);
      OneTracks(crashHistory, reloads, clock, view);
      RecentTracks(history, grants, clock, now, MAX_RELOADS);
      var recent := FilterRecent(history, now);
      RefusedIff(recent, grants, now, MAX_RELOADS);
      clock := now;
      granted := |recent| < 3;
      if granted {
        AllTrackGrant(crashHistory, reloads, view, recent, now);
        crashHistory, reloads := crashHistory[view := recent + [now]], reloads[view := grants + [now]];
      }
      AllBounded(crashHistory, reloads, clock);
    }

    method DestroyView(view: string)
      requires Valid()
      modifies this`crashHistory, this`reloads
      ensures Valid()
      ensures HistoryOf(reloads, view) == []
      ensures forall v :: v != view ==> HistoryOf(reloads, v) == HistoryOf(old(reloads), v)
    {
      hide AllTrack;
      AllTrackForget(crashHistory, reloads, view, clock);
      crashHistory, reloads := crashHistory - {view}, reloads - {view};
    }
  }
}
