/** The match of a class to a Marvelous event (`find_marvelous_event_for_class` in
    scripts/send_class_email_reminders.py): events starting within fifteen minutes of
    the class are candidates, ranked by (exact title match, substring title match,
    time difference), and the join link of the best one is returned. */
module EventMatcher {
  import opened Wrappers
  import opened Text
  import opened Json
  import opened ScheduleParser

  const JoinBaseUrl := "https://" + "studio." + "tiffany" + "woodyoga" + ".com/" + "event/" + "details"

  /** The tolerance window, in seconds. */
  const Tolerance := 15 * 60

  /** What the date parser makes of a start text: the wall-clock seconds it names
      and, for an aware time, its offset from UTC in seconds. */
  datatype ParsedTime = ParsedTime(wall: int, utcOffset: Option<int>)

  /** `date_parser.parse`: None when it raises. */
  type TimeOracle = string -> Option<ParsedTime>

  /** The instant as UTC seconds; a naive time is taken to be UTC already. */
  function UtcSeconds(p: ParsedTime): int
  {
    p.wall - p.utcOffset.GetOr(0)
  }

  function Abs(x: int): nat
  {
    if x < 0 then -x else x
  }

  /** The parsed start of an event. A missing or falsy start is skipped, and a
      truthy start that is not a string makes the parser raise, which is caught:
      only a non-empty string can yield an instant. */
  function EventStart(ev: Dict, parseTime: TimeOracle): Option<int>
  {
    match Get(ev, "event_start_datetime")
    case JStr(s) =>
      if s == "" then None
      else (match parseTime(s)
            case None => None
            case Some(p) => Some(UtcSeconds(p)))
    case _ => None
  }

  /** The candidate test of the first loop. */
  predicate IsCandidate(ev: Dict, target: int, parseTime: TimeOracle)
  {
    EventStart(ev, parseTime).Some? && Abs(EventStart(ev, parseTime).value - target) <= Tolerance
  }

  /** The candidates, in cache order. */
  function Candidates(events: seq<Dict>, target: int, parseTime: TimeOracle): seq<Dict>
  {
    if events == [] then []
    else
      var rest := Candidates(events[..|events| - 1], target, parseTime);
      var ev := events[|events| - 1];
      if IsCandidate(ev, target, parseTime) then rest + [ev] else rest
  }

  // ---------------------------------------------------------------- score

  /** The ranking key; tuples compare lexicographically. */
  datatype Score = Score(exact: int, substr: int, diff: int)

  predicate ScoreLt(a: Score, b: Score)
  {
    a.exact < b.exact
    || (a.exact == b.exact && (a.substr < b.substr || (a.substr == b.substr && a.diff < b.diff)))
  }

  predicate ScoreLe(a: Score, b: Score)
  {
    ScoreLt(a, b) || a == b
  }

  /** `.strip().casefold()`, with the case folding restricted to ASCII. */
  function Folded(s: string): string
  {
    Lower(Strip(s))
  }

  /** `ev.get("event_name") or ""`; None when the name is a truthy non-string,
      on which `.strip()` raises. */
  function NameText(ev: Dict): Option<string>
  {
    var n := Get(ev, "event_name");
    if !Truthy(n) then Some("")
    else match n
      case JStr(s) => Some(s)
      case _ => None
  }

  /** `score(ev)`; None when it raises. The time difference is recomputed from the
      event, falling back to the target itself when the start does not parse. */
  function ScoreOf(ev: Dict, title: string, target: int, parseTime: TimeOracle): Option<Score>
  {
    match NameText(ev)
    case None => None
    case Some(raw) =>
      var name := Folded(raw);
      var t := Folded(title);
      var exact := if name == t && name != "" then 0 else 1;
      var substr := if name != "" && t != "" && (Contains(t, name) || Contains(name, t)) then 0 else 1;
      var diff := match EventStart(ev, parseTime) case Some(s) => Abs(s - target) case None => 0;
      Some(Score(exact, substr, diff))
  }

  /** Every candidate can be scored (sorting raises otherwise). */
  predicate AllScored(cands: seq<Dict>, title: string, target: int, parseTime: TimeOracle)
  {
    forall i :: 0 <= i < |cands| ==> ScoreOf(cands[i], title, target, parseTime).Some?
  }

  /** The index of the first smallest key: the head of a stable sort by key. */
  function FirstMin(keys: seq<Score>): (b: nat)
    requires keys != []
    ensures b < |keys|
    ensures forall k :: 0 <= k < |keys| ==> ScoreLe(keys[b], keys[k])
    ensures forall k :: 0 <= k < b ==> ScoreLt(keys[b], keys[k])
  {
    if |keys| == 1 then 0
    else
      var b := FirstMin(keys[..|keys| - 1]);
      assert forall k :: 0 <= k < |keys| - 1 ==> keys[..|keys| - 1][k] == keys[k];
      if ScoreLt(keys[|keys| - 1], keys[b]) then |keys| - 1 else b
  }

  lemma FirstMinSnoc(keys: seq<Score>, s: Score)
    requires keys != []
    ensures FirstMin(keys + [s]) == if ScoreLt(s, keys[FirstMin(keys)]) then |keys| else FirstMin(keys)
  {
    assert (keys + [s])[..|keys|] == keys;
  }

  /** The keys of all candidates. */
  function Keys(cands: seq<Dict>, title: string, target: int, parseTime: TimeOracle): (keys: seq<Score>)
    requires AllScored(cands, title, target, parseTime)
    ensures |keys| == |cands|
    ensures forall i :: 0 <= i < |cands| ==> ScoreOf(cands[i], title, target, parseTime) == Some(keys[i])
  {
    seq(|cands|, i requires 0 <= i < |cands| => ScoreOf(cands[i], title, target, parseTime).value)
  }

  /** `str(ev_id)` for the JSON scalars; Python's rendering of a list or object is
      not part of this model and is passed in. */
  function IdText(id: Json, containerText: Json -> string): string
  {
    match id
    case JNull => "None"
    case JBool(b) => if b then "True" else "False"
    case JInt(n) => IntToString(n)
    case JStr(s) => s
    case _ => containerText(id)
  }

  /** The link of the chosen event: none when its id is falsy. */
  function LinkFor(ev: Dict, containerText: Json -> string): Option<string>
  {
    var id := Get(ev, "id");
    if !Truthy(id) then None else Some(JoinBaseUrl + "/" + IdText(id, containerText))
  }

  /** What `find_marvelous_event_for_class` returns, with Err when it raises. */
  function MatchedLink(title: string, events: seq<Dict>, target: int, parseTime: TimeOracle,
                       containerText: Json -> string): Result<Option<string>, string>
  {
    var cands := Candidates(events, target, parseTime);
    if events == [] || cands == [] then Ok(None)
    else if !AllScored(cands, title, target, parseTime) then Err("event_name is not a string")
    else Ok(LinkFor(cands[FirstMin(Keys(cands, title, target, parseTime))], containerText))
  }

  // ---------------------------------------------------------------- the matcher

  /** `find_marvelous_event_for_class`. `toUtc` is the zone conversion of the class
      start (`astimezone(timezone.utc)`) to UTC seconds. */
  method FindEventForClass(cls: ClassEntry, events: seq<Dict>, toUtc: int -> int, parseTime: TimeOracle,
                           containerText: Json -> string) returns (r: Result<Option<string>, string>)
    ensures r == MatchedLink(cls.title, events, toUtc(cls.start), parseTime, containerText)
  {
    if |events| == 0 {
      return Ok(None);
    }
    var target := toUtc(cls.start);
    var cands := CollectCandidates(events, target, parseTime);
    if cands == [] {
      return Ok(None);
    }
    var ranked := RankCandidates(cands, cls.title, target, parseTime);
    if ranked.Err? {
      return Err("event_name is not a string");
    }
    var id := Get(cands[ranked.value], "id");
    if !Truthy(id) {
      return Ok(None);
    }
    return Ok(Some(JoinBaseUrl + "/" + IdText(id, containerText)));
  }

  /** The first loop of the matcher: the events starting within the tolerance. */
  method CollectCandidates(events: seq<Dict>, target: int, parseTime: TimeOracle) returns (cands: seq<Dict>)
    ensures cands == Candidates(events, target, parseTime)
  {
    cands := [];
    for i := 0 to |events|
      invariant cands == Candidates(events[..i], target, parseTime)
    {
      assert events[..i + 1][..i] == events[..i];
      var ev := events[i];
      var raw := Get(ev, "event_start_datetime");
      if !Truthy(raw) {
        continue;
      }
      if !raw.JStr? {
        // the parser raises on a non-string, and the event is skipped
        continue;
      }
      var parsed := parseTime(raw.s);
      if parsed.None? {
        continue;
      }
      var diff := Abs(UtcSeconds(parsed.value) - target);
      if diff <= Tolerance {
        cands := cands + [ev];
      }
    }
    assert events[..|events|] == events;
  }

  /** The sort by `score` and the pick of its head: the index of the first
      candidate with the smallest key, or Err when scoring raises. */
  method RankCandidates(cands: seq<Dict>, title: string, target: int, parseTime: TimeOracle)
    returns (r: Result<nat, string>)
    requires cands != []
    ensures r.Err? <==> !AllScored(cands, title, target, parseTime)
    ensures r.Ok? ==> r.value == FirstMin(Keys(cands, title, target, parseTime))
  {
    var keys := ScoreAll(cands, title, target, parseTime);
    if keys.None? {
      return Err("event_name is not a string");
    }
    var best := FirstMinIndex(keys.value);
    return Ok(best);
  }

  /** The keys the sort computes, one per candidate, before it orders them; None
      when `score` raises on one of them. */
  method ScoreAll(cands: seq<Dict>, title: string, target: int, parseTime: TimeOracle)
    returns (r: Option<seq<Score>>)
    ensures r.None? <==> !AllScored(cands, title, target, parseTime)
    ensures r.Some? ==> r.value == Keys(cands, title, target, parseTime)
  {
    var keys: seq<Score> := [];
    for j := 0 to |cands|
      invariant |keys| == j
      invariant forall k :: 0 <= k < j ==> ScoreOf(cands[k], title, target, parseTime) == Some(keys[k])
    {
      var s := ScoreOf(cands[j], title, target, parseTime);
      if s.None? {
        return None;
      }
      keys := keys + [s.value];
    }
    return Some(keys);
  }

  /** The position a stable sort by key moves to the front. */
  method FirstMinIndex(keys: seq<Score>) returns (best: nat)
    requires keys != []
    ensures best == FirstMin(keys)
  {
    best := 0;
    assert keys[..1] == [keys[0]];
    for j := 1 to |keys|
      invariant best < j
      invariant best == FirstMin(keys[..j])
    {
      ghost var prefix := keys[..j];
      assert keys[..j + 1] == prefix + [keys[j]];
      assert prefix[best] == keys[best];
      FirstMinSnoc(prefix, keys[j]);
      if ScoreLt(keys[j], keys[best]) {
        best := j;
      }
    }
    assert keys[..|keys|] == keys;
  }

  // ---------------------------------------------------------------- properties

  /** The candidates are exactly the events within the tolerance, and each
      candidate is an event. */
  lemma {:induction false} CandidatesMembers(events: seq<Dict>, target: int, parseTime: TimeOracle, ev: Dict)
    ensures ev in Candidates(events, target, parseTime) <==> ev in events && IsCandidate(ev, target, parseTime)
  {
    if events != [] {
      var init := events[..|events| - 1];
      CandidatesMembers(init, target, parseTime, ev);
      assert events == init + [events[|events| - 1]];
    }
  }

  /** With no event starting within fifteen minutes of the class (in particular
      with no events at all) there is no link. */
  lemma NoCandidateNoLink(title: string, events: seq<Dict>, target: int, parseTime: TimeOracle,
                          containerText: Json -> string)
    requires forall i :: 0 <= i < |events| ==> !IsCandidate(events[i], target, parseTime)
    ensures MatchedLink(title, events, target, parseTime, containerText) == Ok(None)
  {
    var cands := Candidates(events, target, parseTime);
    if cands != [] {
      CandidatesMembers(events, target, parseTime, cands[0]);
    }
  }

  /** The matcher raises exactly when some candidate's name is a truthy
      non-string. */
  lemma RaisesOnlyOnBadName(title: string, events: seq<Dict>, target: int, parseTime: TimeOracle,
                            containerText: Json -> string)
    ensures MatchedLink(title, events, target, parseTime, containerText).Err?
        <==> exists ev :: ev in events && IsCandidate(ev, target, parseTime) && NameText(ev).None?
  {
    var cands := Candidates(events, target, parseTime);
    forall ev | ev in events && IsCandidate(ev, target, parseTime) && NameText(ev).None?
      ensures !AllScored(cands, title, target, parseTime)
    {
      CandidatesMembers(events, target, parseTime, ev);
      var i :| 0 <= i < |cands| && cands[i] == ev;
    }
    if !AllScored(cands, title, target, parseTime) {
      var i :| 0 <= i < |cands| && ScoreOf(cands[i], title, target, parseTime).None?;
      CandidatesMembers(events, target, parseTime, cands[i]);
    }
  }

  /** A returned link belongs to a candidate event: it starts within fifteen
      minutes of the class, has a truthy id, and ranks first — no candidate has a
      smaller key and every earlier candidate has a strictly larger one. */
  lemma ChosenIsBest(title: string, events: seq<Dict>, target: int, parseTime: TimeOracle,
                     containerText: Json -> string)
    requires MatchedLink(title, events, target, parseTime, containerText).Ok?
    requires MatchedLink(title, events, target, parseTime, containerText).value.Some?
    ensures var cands := Candidates(events, target, parseTime);
      exists b :: 0 <= b < |cands|
        && cands[b] in events
        && IsCandidate(cands[b], target, parseTime)
        && Truthy(Get(cands[b], "id"))
        && MatchedLink(title, events, target, parseTime, containerText).value.value
             == JoinBaseUrl + "/" + IdText(Get(cands[b], "id"), containerText)
        && (forall k :: 0 <= k < |cands| ==>
              ScoreLe(ScoreOf(cands[b], title, target, parseTime).value, ScoreOf(cands[k], title, target, parseTime).value))
        && (forall k :: 0 <= k < b ==>
              ScoreLt(ScoreOf(cands[b], title, target, parseTime).value, ScoreOf(cands[k], title, target, parseTime).value))
  {
    var cands := Candidates(events, target, parseTime);
    var keys := Keys(cands, title, target, parseTime);
    var b := FirstMin(keys);
    CandidatesMembers(events, target, parseTime, cands[b]);
  }

  /** A candidate's key carries the same time difference as the tolerance test, so
      it never exceeds the tolerance. */
  lemma ScoreDiffIsStartDiff(ev: Dict, title: string, target: int, parseTime: TimeOracle)
    requires IsCandidate(ev, target, parseTime) && NameText(ev).Some?
    ensures ScoreOf(ev, title, target, parseTime).Some?
    ensures ScoreOf(ev, title, target, parseTime).value.diff == Abs(EventStart(ev, parseTime).value - target) <= Tolerance
  {
  }

  /** An exact title match is also a substring match. */
  lemma ExactIsSubstring(ev: Dict, title: string, target: int, parseTime: TimeOracle)
    requires ScoreOf(ev, title, target, parseTime).Some?
    requires ScoreOf(ev, title, target, parseTime).value.exact == 0
    ensures ScoreOf(ev, title, target, parseTime).value.substr == 0
  {
    var name := Folded(NameText(ev).value);
    assert OccursAt(name, name, 0);
  }

  /** When some candidate's name equals the title (after stripping and case
      folding), the link returned is that of such a candidate. */
  lemma ExactTitlePreferred(title: string, events: seq<Dict>, target: int, parseTime: TimeOracle,
                            containerText: Json -> string, ev: Dict)
    requires ev in events && IsCandidate(ev, target, parseTime)
    requires NameText(ev).Some? && Folded(NameText(ev).value) == Folded(title) != ""
    requires MatchedLink(title, events, target, parseTime, containerText).Ok?
    ensures var cands := Candidates(events, target, parseTime);
      cands != []
      && var best := cands[FirstMin(Keys(cands, title, target, parseTime))];
      Folded(NameText(best).value) == Folded(title)
      && MatchedLink(title, events, target, parseTime, containerText).value == LinkFor(best, containerText)
  {
    var cands := Candidates(events, target, parseTime);
    CandidatesMembers(events, target, parseTime, ev);
    var i :| 0 <= i < |cands| && cands[i] == ev;
    var keys := Keys(cands, title, target, parseTime);
    var b := FirstMin(keys);
    ExactScore(ev, title, target, parseTime);
    assert ScoreLe(keys[b], keys[i]);
    ExactScore(cands[b], title, target, parseTime);
  }

  /** The first component of the key is 0 exactly for an exact title match. */
  lemma ExactScore(ev: Dict, title: string, target: int, parseTime: TimeOracle)
    requires NameText(ev).Some?
    ensures ScoreOf(ev, title, target, parseTime).Some?
    ensures ScoreOf(ev, title, target, parseTime).value.exact == 0
        <==> Folded(NameText(ev).value) == Folded(title) != ""
  {
  }
}
