/** The event cache refresh of scripts/refresh_marvelous_events.py
    (`trim_and_filter_events`): the events starting from one day ago up to the
    look-ahead horizon, each cut down to seven fields and ordered by start text. */
module EventCache {
  import opened Wrappers
  import opened Json
  import opened Sorting
  import opened EventMatcher
  import opened Calendar

  /** `MARVELOUS_LOOKAHEAD_DAYS` when the environment does not set it. */
  const DefaultLookaheadDays := 60

  const Day := 86400

  /** The window test: an event whose start parses, and lies no earlier than one
      day before `now` and no later than `lookaheadDays` days after it (both ends
      inclusive). Naive starts count as UTC, as in the matcher. */
  predicate InWindow(ev: Dict, now: int, lookaheadDays: int, parseTime: TimeOracle)
  {
    EventStart(ev, parseTime).Some?
    && now - Day <= EventStart(ev, parseTime).value <= now + lookaheadDays * Day
  }

  /** The seven fields kept of an event; the two flags default to false, the
      others to null. */
  function Project(ev: Dict): (d: Dict)
  {
    map[
      "id" := Get(ev, "id"),
      "event_name" := Get(ev, "event_name"),
      "event_start_datetime" := Get(ev, "event_start_datetime"),
      "event_end_datetime" := Get(ev, "event_end_datetime"),
      "event_type" := Get(ev, "event_type"),
      "is_cancelled" := GetOr(ev, "is_cancelled", JBool(false)),
      "is_www_event" := GetOr(ev, "is_www_event", JBool(false))
    ]
  }

  const ProjectedKeys: set<string> := {"id", "event_name", "event_start_datetime", "event_end_datetime",
                                       "event_type", "is_cancelled", "is_www_event"}

  /** The sort key `e.get("event_start_datetime") or ""`. */
  function StartKey(d: Dict): string
  {
    match Get(d, "event_start_datetime")
    case JStr(s) => s
    case _ => ""
  }

  /** The projected events in the window, in input order (the list before the sort). */
  function Selected(events: seq<Dict>, now: int, lookaheadDays: int, parseTime: TimeOracle): seq<Dict>
  {
    if events == [] then []
    else
      var rest := Selected(events[..|events| - 1], now, lookaheadDays, parseTime);
      var ev := events[|events| - 1];
      if InWindow(ev, now, lookaheadDays, parseTime) then rest + [Project(ev)] else rest
  }

  /** `now_utc + timedelta(days=LOOKAHEAD_DAYS)` raises OverflowError: the day
      count is beyond what a timedelta holds, or the cutoff leaves the datetime
      range. It is computed once, before any event is looked at. */
  predicate CutoffRaises(now: int, lookaheadDays: int)
  {
    !(-MaxTimedeltaDays <= lookaheadDays <= MaxTimedeltaDays)
    || !InDatetimeRange(now + lookaheadDays * Day)
  }

  /** The lower end `now_utc - timedelta(days=1)` is computed afresh for every
      event whose start parses, and raises OverflowError when it leaves the
      datetime range (a clock reading on 0001-01-01). */
  predicate LowerEndRaises(events: seq<Dict>, now: int, parseTime: TimeOracle)
  {
    !InDatetimeRange(now - Day)
    && exists i :: 0 <= i < |events| && EventStart(events[i], parseTime).Some?
  }

  /** The refresh fails, with nothing returned, exactly when one of the two
      window ends cannot be computed. */
  predicate RefreshRaises(events: seq<Dict>, now: int, lookaheadDays: int, parseTime: TimeOracle)
  {
    CutoffRaises(now, lookaheadDays) || LowerEndRaises(events, now, parseTime)
  }

  /** `trim_and_filter_events`; `now` is the clock reading in UTC seconds. An
      OverflowError from either window end is `Err`. */
  method TrimAndFilterEvents(events: seq<Dict>, now: int, lookaheadDays: int, parseTime: TimeOracle)
    returns (r: Result<seq<Dict>, string>)
    ensures r.Err? <==> RefreshRaises(events, now, lookaheadDays, parseTime)
    ensures r.Ok? ==> r.value == SortBy(Selected(events, now, lookaheadDays, parseTime), StartKey)
    ensures r.Ok? ==> SortedBy(r.value, StartKey)
    ensures r.Ok? ==> multiset(r.value) == multiset(Selected(events, now, lookaheadDays, parseTime))
    ensures r.Ok? ==> |r.value| <= |events|
  {
    if !(-MaxTimedeltaDays <= lookaheadDays <= MaxTimedeltaDays) {
      return Err("OverflowError");
    }
    var cutoff := now + lookaheadDays * Day;
    if !InDatetimeRange(cutoff) {
      return Err("OverflowError");
    }
    var out := [];
    for i := 0 to |events|
      invariant out == Selected(events[..i], now, lookaheadDays, parseTime)
      invariant !InDatetimeRange(now - Day) ==> forall j :: 0 <= j < i ==> EventStart(events[j], parseTime).None?
    {
      assert events[..i + 1][..i] == events[..i];
      var ev := events[i];
      var raw := Get(ev, "event_start_datetime");
      if !Truthy(raw) {
        continue;
      }
      if !raw.JStr? {
        // the parser raises on a non-string, and the event is skipped
        continue;
      }
      var parsed := parseTime(raw.s);
      if parsed.None? {
        continue;
      }
      var start := UtcSeconds(parsed.value);
      var lower := now - Day;
      if !InDatetimeRange(lower) {
        assert EventStart(events[i], parseTime).Some?;
        return Err("OverflowError");
      }
      if start < lower {
        continue;
      }
      if start > cutoff {
        continue;
      }
      out := out + [Project(ev)];
    }
    assert events[..|events|] == events;
    SelectedLength(events, now, lookaheadDays, parseTime);
    ghost var selected := out;
    out := SortBy(out, StartKey);
    SortBySorted(selected, StartKey);
    SortByPermutes(selected, StartKey);
    return Ok(out);
  }

  // ---------------------------------------------------------------- properties

  /** The window drops events, never adds them. */
  lemma {:induction false} SelectedLength(events: seq<Dict>, now: int, lookaheadDays: int, parseTime: TimeOracle)
    ensures |Selected(events, now, lookaheadDays, parseTime)| <= |events|
  {
    if events != [] {
      SelectedLength(events[..|events| - 1], now, lookaheadDays, parseTime);
    }
  }

  /** A record is kept exactly when it is the projection of an event in the
      window. */
  lemma {:induction false} SelectedMembers(events: seq<Dict>, now: int, lookaheadDays: int, parseTime: TimeOracle, d: Dict)
    ensures d in Selected(events, now, lookaheadDays, parseTime)
        <==> exists i :: 0 <= i < |events| && InWindow(events[i], now, lookaheadDays, parseTime) && d == Project(events[i])
  {
    if events != [] {
      var n := |events| - 1;
      var init := events[..n];
      SelectedMembers(init, now, lookaheadDays, parseTime, d);
      if d in Selected(events, now, lookaheadDays, parseTime) {
        if d in Selected(init, now, lookaheadDays, parseTime) {
          var i :| 0 <= i < |init| && InWindow(init[i], now, lookaheadDays, parseTime) && d == Project(init[i]);
          assert init[i] == events[i];
        } else {
          assert InWindow(events[n], now, lookaheadDays, parseTime) && d == Project(events[n]);
        }
      } else {
        forall i | 0 <= i < |events| && InWindow(events[i], now, lookaheadDays, parseTime)
          ensures d != Project(events[i])
        {
          if i < n {
            assert init[i] == events[i];
          }
        }
      }
    }
  }

  /** Every kept record has exactly the seven fields. */
  lemma ProjectKeys(ev: Dict)
    ensures Project(ev).Keys == ProjectedKeys
  {
  }

  /** The two flags default to false; the other five fields are copied from the
      event, null when it lacks them. */
  lemma ProjectValues(ev: Dict)
    ensures Project(ev)["is_cancelled"] == (if "is_cancelled" in ev then ev["is_cancelled"] else JBool(false))
    ensures Project(ev)["is_www_event"] == (if "is_www_event" in ev then ev["is_www_event"] else JBool(false))
    ensures Project(ev)["id"] == (if "id" in ev then ev["id"] else JNull)
    ensures Project(ev)["event_name"] == (if "event_name" in ev then ev["event_name"] else JNull)
    ensures Project(ev)["event_start_datetime"] == (if "event_start_datetime" in ev then ev["event_start_datetime"] else JNull)
    ensures Project(ev)["event_end_datetime"] == (if "event_end_datetime" in ev then ev["event_end_datetime"] else JNull)
    ensures Project(ev)["event_type"] == (if "event_type" in ev then ev["event_type"] else JNull)
  {
  }

  /** Every record of the refreshed cache keeps its raw start text, which is
      non-empty, is the sort key, and parses to an instant in the window. */
  lemma CachedStartsInWindow(events: seq<Dict>, now: int, lookaheadDays: int, parseTime: TimeOracle, d: Dict)
    requires d in SortBy(Selected(events, now, lookaheadDays, parseTime), StartKey)
    ensures Get(d, "event_start_datetime") == JStr(StartKey(d)) && StartKey(d) != ""
    ensures parseTime(StartKey(d)).Some?
    ensures now - Day <= UtcSeconds(parseTime(StartKey(d)).value) <= now + lookaheadDays * Day
  {
    var selected := Selected(events, now, lookaheadDays, parseTime);
    SortByPermutes(selected, StartKey);
    assert d in multiset(SortBy(selected, StartKey));
    assert d in selected;
    SelectedMembers(events, now, lookaheadDays, parseTime, d);
    var i :| 0 <= i < |events| && InWindow(events[i], now, lookaheadDays, parseTime) && d == Project(events[i]);
    assert Get(d, "event_start_datetime") == Get(events[i], "event_start_datetime");
  }

  /** With the default look-ahead and a clock reading at least a day after
      `datetime.min` and 60 days before `datetime.max`, the refresh never fails. */
  lemma DefaultLookaheadDoesNotRaise(events: seq<Dict>, now: int, parseTime: TimeOracle)
    requires MinWall + Day <= now <= MaxWall - DefaultLookaheadDays * Day
    ensures !RefreshRaises(events, now, DefaultLookaheadDays, parseTime)
  {
  }

  /** Records sharing a start text keep their input order. */
  lemma CacheStable(events: seq<Dict>, now: int, lookaheadDays: int, parseTime: TimeOracle, k: string)
    ensures var selected := Selected(events, now, lookaheadDays, parseTime);
      WithKey(SortBy(selected, StartKey), StartKey, k) == WithKey(selected, StartKey, k)
  {
    SortByStable(Selected(events, now, lookaheadDays, parseTime), StartKey, k);
  }
}
