/** The reminder half of scripts/send_class_email_reminders.py: the configured
    lead times (`parse_offsets`), the choice of reminders due now
    (`compute_due_reminders`), and the sent-state
    ledger that `main` updates after each send. Instants are whole wall-clock
    seconds in the studio's zone (see `Calendar.WallSeconds`). */
module Reminders {
  import opened Wrappers
  import opened Text
  import opened Calendar
  import opened ScheduleParser

  // ---------------------------------------------------------------- parse_offsets

  const DefaultOffsets: seq<int> := [26, 25, 24]

  /** What one comma-separated part contributes: its integer value, or nothing
      when it is blank or not an integer. */
  function KeptOffset(part: string): seq<int>
  {
    var t := Strip(part);
    if t == "" then []
    else match ParseInt(t)
      case None => []
      case Some(v) => [v]
  }

  /** The offsets kept from `parts`, in order. */
  function KeptOffsets(parts: seq<string>): seq<int>
  {
    ConcatMap(parts, KeptOffset)
  }

  /** `f(xs[0]) + f(xs[1]) + ...` */
  function ConcatMap<A, B>(xs: seq<A>, f: A -> seq<B>): seq<B>
  {
    if xs == [] then [] else ConcatMap(xs[..|xs| - 1], f) + f(xs[|xs| - 1])
  }

  /** The lead times `parse_offsets` returns for the REMINDER_OFFSETS value. */
  function Offsets(envValue: Option<string>): (r: seq<int>)
    ensures r != []
    ensures envValue.None? || envValue.value == "" ==> r == DefaultOffsets
  {
    if envValue.None? || envValue.value == "" then DefaultOffsets
    else
      var kept := KeptOffsets(Split(envValue.value, ','));
      if kept == [] then DefaultOffsets else kept
  }

  /** `parse_offsets` */
  method ParseOffsets(envValue: Option<string>) returns (out: seq<int>)
    ensures out == Offsets(envValue)
  {
    if envValue.None? || envValue.value == "" {
      return DefaultOffsets;
    }
    var parts := Split(envValue.value, ',');
    out := [];
    for i := 0 to |parts|
      invariant out == KeptOffsets(parts[..i])
    {
      KeptOffsetsPrefix(parts, i);
      var part := Strip(parts[i]);
      if part != "" {
        var v := ParseInt(part);
        if v.Some? {
          out := out + [v.value];
        }
      }
    }
    assert parts[..|parts|] == parts;
    if out == [] {
      out := DefaultOffsets;
    }
  }

  lemma KeptOffsetsPrefix(parts: seq<string>, i: nat)
    requires i < |parts|
    ensures KeptOffsets(parts[..i + 1]) == KeptOffsets(parts[..i]) + KeptOffset(parts[i])
  {
    assert parts[..i + 1][..i] == parts[..i];
  }

  /** Parts are kept or dropped one by one, in their order. */
  lemma KeptOffsetsAppend(a: seq<string>, b: seq<string>)
    ensures KeptOffsets(a + b) == KeptOffsets(a) + KeptOffsets(b)
  {
    ConcatMapAppend(a, b, KeptOffset);
  }

  lemma {:induction false} ConcatMapMembers<A, B>(xs: seq<A>, f: A -> seq<B>, y: B)
    ensures y in ConcatMap(xs, f) <==> exists i :: 0 <= i < |xs| && y in f(xs[i])
    decreases |xs|
  {
    if xs != [] {
      var init := xs[..|xs| - 1];
      ConcatMapMembers(init, f, y);
      if y in ConcatMap(init, f) {
        var i :| 0 <= i < |init| && y in f(init[i]);
        assert xs[i] == init[i];
      }
      forall i | 0 <= i < |xs| - 1 && y in f(xs[i])
        ensures y in ConcatMap(init, f)
      {
        assert init[i] == xs[i];
      }
    }
  }

  lemma {:induction false} ConcatMapAppend<A, B>(a: seq<A>, b: seq<A>, f: A -> seq<B>)
    ensures ConcatMap(a + b, f) == ConcatMap(a, f) + ConcatMap(b, f)
    decreases |b|
  {
    if b == [] {
      assert a + b == a;
    } else {
      ConcatMapAppend(a, b[..|b| - 1], f);
      assert (a + b)[..|a + b| - 1] == a + b[..|b| - 1];
      assert (a + b)[|a + b| - 1] == b[|b| - 1];
    }
  }

  /** Every kept offset is the value of a non-blank part. */
  lemma {:induction false} KeptOffsetsFromParts(parts: seq<string>, x: int)
    requires x in KeptOffsets(parts)
    ensures exists p :: p in parts && Strip(p) != "" && ParseInt(Strip(p)) == Some(x)
  {
    var last := parts[|parts| - 1];
    if x in KeptOffsets(parts[..|parts| - 1]) {
      KeptOffsetsFromParts(parts[..|parts| - 1], x);
      var p :| p in parts[..|parts| - 1] && Strip(p) != "" && ParseInt(Strip(p)) == Some(x);
      assert p in parts;
    } else {
      assert x in KeptOffset(last);
      assert last in parts;
    }
  }

  function OffsetStrings(ns: seq<int>): (r: seq<string>)
    ensures |r| == |ns|
    ensures forall i :: 0 <= i < |ns| ==> r[i] == IntToString(ns[i])
  {
    if ns == [] then [] else OffsetStrings(ns[..|ns| - 1]) + [IntToString(ns[|ns| - 1])]
  }

  lemma KeptOffsetStrings(ns: seq<int>)
    requires forall n :: n in ns ==> StrFits(n)
    ensures KeptOffsets(OffsetStrings(ns)) == ns
  {
    var parts := OffsetStrings(ns);
    forall i | 0 <= i < |parts|
      ensures KeptOffset(parts[i]) == [ns[i]]
    {
      KeptOffsetOfString(ns[i]);
    }
    ConcatMapSingletons(parts, KeptOffset, ns);
  }

  lemma {:induction false} ConcatMapSingletons<A, B>(xs: seq<A>, f: A -> seq<B>, ys: seq<B>)
    requires |xs| == |ys|
    requires forall i :: 0 <= i < |xs| ==> f(xs[i]) == [ys[i]]
    ensures ConcatMap(xs, f) == ys
    decreases |xs|
  {
    if xs != [] {
      ConcatMapSingletons(xs[..|xs| - 1], f, ys[..|ys| - 1]);
      assert ys == ys[..|ys| - 1] + [ys[|ys| - 1]];
    }
  }

  /** A part written by `str(n)` is kept as `n`. */
  lemma KeptOffsetOfString(n: int)
    requires StrFits(n)
    ensures KeptOffset(IntToString(n)) == [n]
  {
    IntToStringStripped(n);
    ParseIntRoundTrip(n);
  }

  /** A part with more digits than `int()` accepts is skipped like any other
      part that is not an integer. */
  lemma OverlongOffsetSkipped(part: string)
    requires DigitString(part) && DigitCount(part) > MaxStrDigits
    ensures KeptOffset(part) == []
  {
    SignOrDigitNotSpace(part[0]);
    SignOrDigitNotSpace(part[|part| - 1]);
    StripCharsNoop(part, Whitespace);
  }

  /** Every lead time `parse_offsets` returns can be written back by `str()`:
      `int()` keeps to the same digit limit. */
  lemma OffsetsFit(envValue: Option<string>)
    ensures forall n :: n in Offsets(envValue) ==> StrFits(n)
  {
    forall n | n in Offsets(envValue)
      ensures StrFits(n)
    {
      if envValue.Some? && envValue.value != "" && KeptOffsets(Split(envValue.value, ',')) != [] {
        var parts := Split(envValue.value, ',');
        KeptOffsetsFromParts(parts, n);
        var p :| p in parts && Strip(p) != "" && ParseInt(Strip(p)) == Some(n);
        ParsedIntFits(Strip(p), n);
      } else {
        assert Power10(2) == 100;
        NatToStringLength(n, 2);
      }
    }
  }

  lemma ParsedIntFits(t: string, x: int)
    requires ParseInt(t) == Some(x)
    ensures StrFits(x)
  {
    var u := Strip(t);
    var body := if |u| > 0 && (u[0] == '+' || u[0] == '-') then u[1..] else u;
    assert DigitString(body) && DigitCount(body) <= MaxStrDigits;
    assert DigitsValue(body) == if x < 0 then -x else x;
    DigitsValueBelow(body);
    assert DigitCount(body) == DigitCount(body[..|body| - 1]) + 1;
    NatToStringLength(DigitsValue(body), DigitCount(body));
  }

  /** A number written with `k` digits is below 10^k. */
  lemma {:induction false} DigitsValueBelow(s: string)
    ensures DigitsValue(s) < Power10(DigitCount(s))
  {
    if s != [] {
      DigitsValueBelow(s[..|s| - 1]);
    }
  }

  /** `str(n)` is made of digits and a minus sign only. */
  lemma OffsetStringsNoComma(ns: seq<int>)
    ensures forall p :: p in OffsetStrings(ns) ==> ',' !in p
  {
    var parts := OffsetStrings(ns);
    forall p | p in parts
      ensures ',' !in p
    {
      var i :| 0 <= i < |parts| && parts[i] == p;
      IntToStringChars(ns[i]);
    }
  }

  /** Writing a non-empty list of offsets as "a,b,c" and parsing it gives the list
      back, for every list `str()` can write. */
  lemma OffsetsRoundTrip(ns: seq<int>)
    requires ns != [] && forall n :: n in ns ==> StrFits(n)
    ensures Offsets(Some(Join(OffsetStrings(ns), ","))) == ns
  {
    var parts := OffsetStrings(ns);
    OffsetStringsNoComma(ns);
    SplitJoin(parts, ',');
    KeptOffsetStrings(ns);
    JoinNonEmpty(parts, ",");
  }

  lemma JoinNonEmpty(parts: seq<string>, sep: string)
    requires parts != [] && parts[0] != ""
    ensures Join(parts, sep) != ""
  {
    if |parts| > 1 {
      assert Join(parts, sep) == parts[0] + sep + Join(parts[1..], sep);
    }
  }

  // ---------------------------------------------------------------- compute_due_reminders

  /** The sent-state file: class id -> (str(offset) -> ISO time it was sent). */
  type SentState = map<string, map<string, string>>

  datatype Reminder = Reminder(cls: ClassEntry, offset: int)

  /** `state.get(cls_id, {})` */
  function SentFor(state: SentState, id: string): map<string, string>
  {
    if id in state then state[id] else map[]
  }

  /** Whether the reminder `offset` of class `id` is on record. */
  predicate AlreadySent(state: SentState, id: string, offset: int)
  {
    IntToString(offset) in SentFor(state, id)
  }

  /** `cls.start_dt - timedelta(hours=offset)` */
  function SendAt(start: int, offset: int): int
  {
    start - offset * 3600
  }

  /** `timedelta(hours=offset)` does not raise. */
  predicate HoursInRange(offset: int)
  {
    -MaxTimedeltaDays <= offset / 24 <= MaxTimedeltaDays
  }

  /** `timedelta(minutes=window_minutes)` does not raise. */
  predicate MinutesInRange(windowMinutes: int)
  {
    -MaxTimedeltaDays <= windowMinutes / 1440 <= MaxTimedeltaDays
  }

  /** Whether checking reminder `r` raises: ValueError when `str(offset)` has too
      many digits; otherwise OverflowError for a reminder not on record whose lead
      time is no valid `timedelta`, whose send time leaves the datetime range, or,
      once `send_at <= now` holds, whose window end leaves it. */
  predicate PairRaises(r: Reminder, now: int, state: SentState, windowMinutes: int)
  {
    || !StrFits(r.offset)
    || (&& !AlreadySent(state, r.cls.id, r.offset)
        && (|| !HoursInRange(r.offset)
            || !InDatetimeRange(SendAt(r.cls.start, r.offset))
            || (SendAt(r.cls.start, r.offset) <= now
                && !InDatetimeRange(SendAt(r.cls.start, r.offset) + windowMinutes * 60))))
  }

  /** `any(p(x) for x in xs)` */
  predicate AnyOf<T>(xs: seq<T>, p: T -> bool)
  {
    xs != [] && (AnyOf(xs[..|xs| - 1], p) || p(xs[|xs| - 1]))
  }

  /** Whether checking the offset of one class raises. */
  function RaisesAt(cls: ClassEntry, now: int, state: SentState, windowMinutes: int): int -> bool
  {
    offset => PairRaises(Reminder(cls, offset), now, state, windowMinutes)
  }

  /** Whether checking the offsets of one class raises. */
  function ClassRaisesAt(offsets: seq<int>, now: int, state: SentState, windowMinutes: int): ClassEntry -> bool
  {
    cls => AnyOf(offsets, RaisesAt(cls, now, state, windowMinutes))
  }

  /** Whether `compute_due_reminders` raises: the window is no valid `timedelta`,
      or checking some (class, offset) pair raises. The exception leaves `main`. */
  predicate Raises(classes: seq<ClassEntry>, offsets: seq<int>, now: int, state: SentState, windowMinutes: int)
  {
    !MinutesInRange(windowMinutes) || AnyOf(classes, ClassRaisesAt(offsets, now, state, windowMinutes))
  }

  /** `send_at <= now < send_at + timedelta(minutes=window_minutes)` */
  predicate InWindow(now: int, sendAt: int, windowMinutes: int)
  {
    sendAt <= now < sendAt + windowMinutes * 60
  }

  predicate IsDue(r: Reminder, now: int, state: SentState, windowMinutes: int)
  {
    !AlreadySent(state, r.cls.id, r.offset) && InWindow(now, SendAt(r.cls.start, r.offset), windowMinutes)
  }

  /** The due reminders of one class, in offset order. */
  function DueFor(cls: ClassEntry, offsets: seq<int>, now: int, state: SentState, windowMinutes: int): seq<Reminder>
  {
    if offsets == [] then []
    else
      DueFor(cls, offsets[..|offsets| - 1], now, state, windowMinutes)
        + (var r := Reminder(cls, offsets[|offsets| - 1]);
           if IsDue(r, now, state, windowMinutes) then [r] else [])
  }

  /** The due reminders, class by class. */
  function DuePairs(classes: seq<ClassEntry>, offsets: seq<int>, now: int, state: SentState, windowMinutes: int): seq<Reminder>
  {
    ConcatMap(classes, DueForEach(offsets, now, state, windowMinutes))
  }

  function DueForEach(offsets: seq<int>, now: int, state: SentState, windowMinutes: int): ClassEntry -> seq<Reminder>
  {
    cls => DueFor(cls, offsets, now, state, windowMinutes)
  }

  /** `compute_due_reminders`: the due reminders class by class, or the
      OverflowError raised on the way. */
  method ComputeDueReminders(classes: seq<ClassEntry>, offsets: seq<int>, now: int, state: SentState,
                             windowMinutes: int) returns (r: Result<seq<Reminder>, string>)
    ensures r.Err? <==> Raises(classes, offsets, now, state, windowMinutes)
    ensures r.Ok? ==> r.value == DuePairs(classes, offsets, now, state, windowMinutes)
  {
    if !MinutesInRange(windowMinutes) {
      return Err("OverflowError");
    }
    var due := [];
    for i := 0 to |classes|
      invariant due == DuePairs(classes[..i], offsets, now, state, windowMinutes)
      invariant !AnyOf(classes[..i], ClassRaisesAt(offsets, now, state, windowMinutes))
    {
      var cls := classes[i];
      DuePairsPrefix(classes, i, offsets, now, state, windowMinutes);
      AnyOfSnoc(classes, i, ClassRaisesAt(offsets, now, state, windowMinutes));
      var forClass := DueForClass(cls, offsets, now, state, windowMinutes);
      if forClass.Err? {
        AnyOfExtends(classes, i + 1, ClassRaisesAt(offsets, now, state, windowMinutes));
        return Err(forClass.error);
      }
      due := due + forClass.value;
    }
    assert classes[..|classes|] == classes;
    r := Ok(due);
  }

  /** The inner loop of `compute_due_reminders`, over the offsets of one class. */
  method DueForClass(cls: ClassEntry, offsets: seq<int>, now: int, state: SentState, windowMinutes: int)
    returns (r: Result<seq<Reminder>, string>)
    ensures r.Err? <==> AnyOf(offsets, RaisesAt(cls, now, state, windowMinutes))
    ensures r.Ok? ==> r.value == DueFor(cls, offsets, now, state, windowMinutes)
  {
    var due := [];
    for j := 0 to |offsets|
      invariant due == DueFor(cls, offsets[..j], now, state, windowMinutes)
      invariant !AnyOf(offsets[..j], RaisesAt(cls, now, state, windowMinutes))
    {
      DueForSnoc(cls, offsets, j, now, state, windowMinutes);
      AnyOfSnoc(offsets, j, RaisesAt(cls, now, state, windowMinutes));
      var check := CheckOffset(cls, offsets[j], now, state, windowMinutes);
      if check.Err? {
        AnyOfExtends(offsets, j + 1, RaisesAt(cls, now, state, windowMinutes));
        return Err(check.error);
      }
      if check.value {
        due := due + [Reminder(cls, offsets[j])];
      }
    }
    assert offsets[..|offsets|] == offsets;
    r := Ok(due);
  }

  /** One pass of the inner loop: whether reminder (cls, offset) is due, or the
      OverflowError its date arithmetic raises. */
  method CheckOffset(cls: ClassEntry, offset: int, now: int, state: SentState, windowMinutes: int)
    returns (r: Result<bool, string>)
    ensures r.Err? <==> PairRaises(Reminder(cls, offset), now, state, windowMinutes)
    ensures r.Ok? ==> r.value == IsDue(Reminder(cls, offset), now, state, windowMinutes)
  {
    if !StrFits(offset) {
      return Err("ValueError");
    }
    var key := IntToString(offset);
    var sentForClass := SentFor(state, cls.id);
    if key in sentForClass {
      return Ok(false);
    }
    if !HoursInRange(offset) {
      return Err("OverflowError");
    }
    var sendAt := cls.start - offset * 3600;
    if !InDatetimeRange(sendAt) {
      return Err("OverflowError");
    }
    if sendAt <= now {
      if !InDatetimeRange(sendAt + windowMinutes * 60) {
        return Err("OverflowError");
      }
      return Ok(now < sendAt + windowMinutes * 60);
    }
    return Ok(false);
  }

  lemma AnyOfSnoc<T>(xs: seq<T>, j: nat, p: T -> bool)
    requires j < |xs|
    ensures AnyOf(xs[..j + 1], p) <==> AnyOf(xs[..j], p) || p(xs[j])
  {
    assert xs[..j + 1][..j] == xs[..j];
  }

  /** Once `p` holds of an element of a prefix, it holds of one of the whole. */
  lemma {:induction false} AnyOfExtends<T>(xs: seq<T>, j: nat, p: T -> bool)
    requires j <= |xs| && AnyOf(xs[..j], p)
    ensures AnyOf(xs, p)
    decreases |xs| - j
  {
    if j < |xs| {
      AnyOfSnoc(xs, j, p);
      AnyOfExtends(xs, j + 1, p);
    } else {
      assert xs[..j] == xs;
    }
  }

  lemma {:induction false} AnyOfExists<T>(xs: seq<T>, p: T -> bool)
    ensures AnyOf(xs, p) <==> exists j :: 0 <= j < |xs| && p(xs[j])
    decreases |xs|
  {
    if xs != [] {
      var init := xs[..|xs| - 1];
      AnyOfExists(init, p);
      if AnyOf(init, p) {
        var j :| 0 <= j < |init| && p(init[j]);
        assert xs[j] == init[j];
      }
      if exists j :: 0 <= j < |xs| && p(xs[j]) {
        var j :| 0 <= j < |xs| && p(xs[j]);
        if j < |init| {
          assert init[j] == xs[j];
        }
      }
    }
  }

  /** `compute_due_reminders` raises exactly when the window is no valid
      `timedelta` or some (class, offset) pair raises. */
  lemma RaisesIffPairRaises(classes: seq<ClassEntry>, offsets: seq<int>, now: int, state: SentState, windowMinutes: int)
    ensures Raises(classes, offsets, now, state, windowMinutes)
      <==> || !MinutesInRange(windowMinutes)
           || exists i, j :: 0 <= i < |classes| && 0 <= j < |offsets|
                             && PairRaises(Reminder(classes[i], offsets[j]), now, state, windowMinutes)
  {
    AnyOfExists(classes, ClassRaisesAt(offsets, now, state, windowMinutes));
    forall i | 0 <= i < |classes|
      ensures ClassRaisesAt(offsets, now, state, windowMinutes)(classes[i])
        <==> exists j :: 0 <= j < |offsets| && PairRaises(Reminder(classes[i], offsets[j]), now, state, windowMinutes)
    {
      AnyOfExists(offsets, RaisesAt(classes[i], now, state, windowMinutes));
    }
  }

  lemma DueForSnoc(cls: ClassEntry, offsets: seq<int>, j: nat, now: int, state: SentState, windowMinutes: int)
    requires j < |offsets|
    ensures DueFor(cls, offsets[..j + 1], now, state, windowMinutes)
      == DueFor(cls, offsets[..j], now, state, windowMinutes)
         + (if IsDue(Reminder(cls, offsets[j]), now, state, windowMinutes) then [Reminder(cls, offsets[j])] else [])
  {
    assert offsets[..j + 1][..j] == offsets[..j];
  }

  lemma {:induction false} DueForMembers(cls: ClassEntry, offsets: seq<int>, now: int, state: SentState,
                                         windowMinutes: int, r: Reminder)
    ensures r in DueFor(cls, offsets, now, state, windowMinutes) <==>
      r.cls == cls && r.offset in offsets && IsDue(r, now, state, windowMinutes)
  {
    if offsets != [] {
      var init := offsets[..|offsets| - 1];
      DueForMembers(cls, init, now, state, windowMinutes, r);
      assert offsets == init + [offsets[|offsets| - 1]];
    }
  }

  /** A reminder is selected exactly when its class and offset are configured, it is
      not on record, and `now` lies in `[send_at, send_at + window)`. */
  lemma DuePairsMembers(classes: seq<ClassEntry>, offsets: seq<int>, now: int,
                        state: SentState, windowMinutes: int, r: Reminder)
    ensures r in DuePairs(classes, offsets, now, state, windowMinutes) <==>
      r.cls in classes && r.offset in offsets && IsDue(r, now, state, windowMinutes)
  {
    var f := DueForEach(offsets, now, state, windowMinutes);
    ConcatMapMembers(classes, f, r);
    if r.cls in classes {
      var i :| 0 <= i < |classes| && classes[i] == r.cls;
      DueForMembers(classes[i], offsets, now, state, windowMinutes, r);
    }
    forall i | 0 <= i < |classes| && r in f(classes[i])
      ensures r.cls in classes && r.offset in offsets && IsDue(r, now, state, windowMinutes)
    {
      DueForMembers(classes[i], offsets, now, state, windowMinutes, r);
    }
  }

  /** The selection runs class-major: the reminders of an earlier class come first. */
  lemma DuePairsClassMajor(classes: seq<ClassEntry>, more: seq<ClassEntry>, offsets: seq<int>,
                           now: int, state: SentState, windowMinutes: int)
    ensures DuePairs(classes + more, offsets, now, state, windowMinutes) ==
      DuePairs(classes, offsets, now, state, windowMinutes) + DuePairs(more, offsets, now, state, windowMinutes)
  {
    ConcatMapAppend(classes, more, DueForEach(offsets, now, state, windowMinutes));
  }

  lemma DuePairsPrefix(classes: seq<ClassEntry>, i: nat, offsets: seq<int>, now: int, state: SentState,
                       windowMinutes: int)
    requires i < |classes|
    ensures DuePairs(classes[..i + 1], offsets, now, state, windowMinutes)
      == DuePairs(classes[..i], offsets, now, state, windowMinutes) + DueFor(classes[i], offsets, now, state, windowMinutes)
  {
    assert classes[..i + 1][..i] == classes[..i];
  }

  lemma DuePairsSnoc(classes: seq<ClassEntry>, cls: ClassEntry, offsets: seq<int>, now: int, state: SentState,
                     windowMinutes: int)
    ensures DuePairs(classes + [cls], offsets, now, state, windowMinutes)
      == DuePairs(classes, offsets, now, state, windowMinutes) + DueFor(cls, offsets, now, state, windowMinutes)
  {
    assert (classes + [cls])[..|classes|] == classes;
  }

  /** A configured offset listed twice yields the same reminder twice in one run. */
  lemma DuplicateOffsetDueTwice(cls: ClassEntry, offset: int, now: int, state: SentState)
    requires IsDue(Reminder(cls, offset), now, state, 15)
    ensures DuePairs([cls], [offset, offset], now, state, 15) == [Reminder(cls, offset), Reminder(cls, offset)]
  {
    var r := Reminder(cls, offset);
    assert [cls][..0] == [];
    assert [offset, offset][..1] == [offset];
    assert [offset][..0] == [];
    assert DueFor(cls, [offset], now, state, 15) == [r];
    assert DueFor(cls, [offset, offset], now, state, 15) == [r, r];
    DuePairsSnoc([], cls, [offset, offset], now, state, 15);
    assert [] + [cls] == [cls];
  }

  // ---------------------------------------------------------------- the ledger

  /** Nothing raises while every send time, widened by the largest lead time and
      the window, stays inside the datetime range: the error needs an offset of
      thousands of years or a class at the ends of the calendar. */
  lemma InRangeRunsDoNotRaise(classes: seq<ClassEntry>, offsets: seq<int>, now: int, state: SentState,
                              windowMinutes: nat, margin: nat)
    requires windowMinutes <= 1440
    requires forall o :: o in offsets ==> 0 <= o && o * 3600 + windowMinutes * 60 <= margin
    requires forall c :: c in classes ==> MinWall + margin <= c.start <= MaxWall - margin
    ensures !Raises(classes, offsets, now, state, windowMinutes)
  {
    forall i, j | 0 <= i < |classes| && 0 <= j < |offsets|
      ensures !PairRaises(Reminder(classes[i], offsets[j]), now, state, windowMinutes)
    {
      assert classes[i] in classes && offsets[j] in offsets;
      assert Power10(12) == 1000000000000;
      NatToStringLength(offsets[j], 12);
    }
    RaisesIffPairRaises(classes, offsets, now, state, windowMinutes);
  }

  /** `state.setdefault(cls_id, {})[key] = stamp` */
  function Recorded(state: SentState, id: string, key: string, stamp: string): SentState
  {
    state[id := SentFor(state, id)[key := stamp]]
  }

  /** The ledger after recording `due` in order, all with the same time stamp. */
  function RecordAll(state: SentState, due: seq<Reminder>, stamp: string): SentState
  {
    if due == [] then state
    else
      var last := due[|due| - 1];
      Recorded(RecordAll(state, due[..|due| - 1], stamp), last.cls.id, IntToString(last.offset), stamp)
  }

  /** The in-memory `state` dict of `main`. */
  class Ledger {
    var state: SentState

    constructor(loaded: SentState)
      ensures state == loaded
    {
      state := loaded;
    }

    /** Marks one reminder as sent at `stamp`. */
    method Record(r: Reminder, stamp: string)
      modifies this
      ensures state == Recorded(old(state), r.cls.id, IntToString(r.offset), stamp)
    {
      var sentForClass := if r.cls.id in state then state[r.cls.id] else map[];
      state := state[r.cls.id := sentForClass[IntToString(r.offset) := stamp]];
    }
  }

  /** Recording keeps every entry already on record, except that the same key
      recorded again gets the new stamp. */
  lemma {:induction false} RecordAllKeeps(state: SentState, due: seq<Reminder>, stamp: string, id: string, key: string)
    requires key in SentFor(state, id)
    ensures key in SentFor(RecordAll(state, due, stamp), id)
    ensures (forall r :: r in due ==> r.cls.id != id || IntToString(r.offset) != key) ==>
      SentFor(RecordAll(state, due, stamp), id)[key] == SentFor(state, id)[key]
  {
    if due != [] {
      RecordAllKeeps(state, due[..|due| - 1], stamp, id, key);
      assert forall r :: r in due[..|due| - 1] ==> r in due;
    }
  }

  /** Every recorded reminder is on record afterwards, stamped with the run's time. */
  lemma {:induction false} RecordAllMarks(state: SentState, due: seq<Reminder>, stamp: string, r: Reminder)
    requires r in due
    ensures AlreadySent(RecordAll(state, due, stamp), r.cls.id, r.offset)
    ensures SentFor(RecordAll(state, due, stamp), r.cls.id)[IntToString(r.offset)] == stamp
  {
    var init := due[..|due| - 1];
    if r != due[|due| - 1] {
      assert due == init + [due[|due| - 1]];
      RecordAllMarks(state, init, stamp, r);
    }
  }

  /** Nothing but the recorded reminders is added. */
  lemma {:induction false} RecordAllOnlyDue(state: SentState, due: seq<Reminder>, stamp: string, id: string, key: string)
    requires key in SentFor(RecordAll(state, due, stamp), id)
    ensures key in SentFor(state, id) || exists r :: r in due && r.cls.id == id && IntToString(r.offset) == key
  {
    if due != [] {
      var init := due[..|due| - 1];
      var last := due[|due| - 1];
      if !(last.cls.id == id && IntToString(last.offset) == key) {
        RecordAllOnlyDue(state, init, stamp, id, key);
        if !(key in SentFor(state, id)) {
          var r :| r in init && r.cls.id == id && IntToString(r.offset) == key;
          assert r in due;
        }
      }
    }
  }

  // ---------------------------------------------------------------- main

  /** How many of the due reminders get through before the first failure:
      `delivered(r)` says whether matching, building and sending reminder `r`
      completes without an exception. */
  function DeliveredPrefix(due: seq<Reminder>, delivered: Reminder -> bool): (k: nat)
    ensures k <= |due|
    ensures forall i :: 0 <= i < k ==> delivered(due[i])
    ensures k < |due| ==> !delivered(due[k])
  {
    if due == [] || !delivered(due[0]) then 0 else 1 + DeliveredPrefix(due[1..], delivered)
  }

  /** What `main` writes to the state file: nothing when no class was parsed, when
      `compute_due_reminders` raises or no reminder is due, nothing when a send
      raises, and otherwise the loaded state with every due reminder recorded. */
  function SavedState(loaded: SentState, classes: seq<ClassEntry>, offsets: seq<int>, now: int, stamp: string,
                      delivered: Reminder -> bool): Option<SentState>
  {
    if classes == [] || Raises(classes, offsets, now, loaded, 15) then None
    else
      var due := DuePairs(classes, offsets, now, loaded, 15);
      if due == [] || DeliveredPrefix(due, delivered) < |due| then None
      else Some(RecordAll(loaded, due, stamp))
  }

  /** The part of `main` from `compute_due_reminders` to `save_state`. */
  method RunReminders(ledger: Ledger, classes: seq<ClassEntry>, offsets: seq<int>, now: int, stamp: string,
                      delivered: Reminder -> bool) returns (sent: nat, saved: Option<SentState>)
    modifies ledger
    ensures saved == SavedState(old(ledger.state), classes, offsets, now, stamp, delivered)
    ensures classes == [] || Raises(classes, offsets, now, old(ledger.state), 15) ==>
      sent == 0 && ledger.state == old(ledger.state)
    ensures classes != [] && !Raises(classes, offsets, now, old(ledger.state), 15) ==>
      var due := DuePairs(classes, offsets, now, old(ledger.state), 15);
      && sent == DeliveredPrefix(due, delivered)
      && ledger.state == RecordAll(old(ledger.state), due[..sent], stamp)
  {
    sent := 0;
    saved := None;
    if classes == [] {
      return;
    }
    var computed := ComputeDueReminders(classes, offsets, now, ledger.state, 15);
    if computed.Err? {
      // The OverflowError leaves main before any send.
      return;
    }
    var due := computed.value;
    if due == [] {
      return;
    }
    sent := SendAll(ledger, due, stamp, delivered);
    if sent == |due| {
      assert due[..sent] == due;
      saved := Some(ledger.state);
    }
  }

  /** The send loop of `main`: each reminder is sent first and recorded only after
      its send returned; the first failure ends the run. */
  method SendAll(ledger: Ledger, due: seq<Reminder>, stamp: string, delivered: Reminder -> bool) returns (sent: nat)
    modifies ledger
    ensures sent == DeliveredPrefix(due, delivered)
    ensures ledger.state == RecordAll(old(ledger.state), due[..sent], stamp)
  {
    ghost var loaded := ledger.state;
    sent := 0;
    while sent < |due|
      invariant sent <= |due|
      invariant forall i :: 0 <= i < sent ==> delivered(due[i])
      invariant ledger.state == RecordAll(loaded, due[..sent], stamp)
    {
      if !delivered(due[sent]) {
        // The exception leaves main before save_state.
        DeliveredPrefixAt(due, delivered, sent);
        return;
      }
      assert forall i :: 0 <= i < sent + 1 ==> delivered(due[i]);
      ghost var before := ledger.state;
      ledger.Record(due[sent], stamp);
      RecordAllStep(loaded, due, sent, stamp, before);
      sent := sent + 1;
    }
    DeliveredPrefixAt(due, delivered, sent);
  }

  lemma RecordAllStep(state: SentState, due: seq<Reminder>, k: nat, stamp: string, before: SentState)
    requires k < |due|
    requires before == RecordAll(state, due[..k], stamp)
    ensures RecordAll(state, due[..k + 1], stamp) == Recorded(before, due[k].cls.id, IntToString(due[k].offset), stamp)
  {
    assert due[..k + 1][..k] == due[..k];
  }

  lemma {:induction false} DeliveredPrefixAt(due: seq<Reminder>, delivered: Reminder -> bool, k: nat)
    requires k <= |due|
    requires forall i :: 0 <= i < k ==> delivered(due[i])
    requires k < |due| ==> !delivered(due[k])
    ensures DeliveredPrefix(due, delivered) == k
  {
    if k > 0 {
      DeliveredPrefixAt(due[1..], delivered, k - 1);
    }
  }

  /** Once a run has saved its state, a rerun at the same instant neither raises
      nor finds anything due: no reminder is sent twice. */
  lemma SavedRunIsIdempotent(loaded: SentState, classes: seq<ClassEntry>, offsets: seq<int>, now: int,
                             stamp: string, delivered: Reminder -> bool)
    requires SavedState(loaded, classes, offsets, now, stamp, delivered).Some?
    ensures var s := SavedState(loaded, classes, offsets, now, stamp, delivered).value;
      !Raises(classes, offsets, now, s, 15) && DuePairs(classes, offsets, now, s, 15) == []
  {
    var due := DuePairs(classes, offsets, now, loaded, 15);
    var s := RecordAll(loaded, due, stamp);
    RaisesIffPairRaises(classes, offsets, now, loaded, 15);
    forall i, j | 0 <= i < |classes| && 0 <= j < |offsets|
      ensures !PairRaises(Reminder(classes[i], offsets[j]), now, s, 15)
    {
      var r := Reminder(classes[i], offsets[j]);
      if AlreadySent(loaded, r.cls.id, r.offset) {
        RecordAllKeeps(loaded, due, stamp, r.cls.id, IntToString(r.offset));
      }
    }
    RaisesIffPairRaises(classes, offsets, now, s, 15);
    var again := DuePairs(classes, offsets, now, s, 15);
    if again != [] {
      var r := again[0];
      DuePairsMembers(classes, offsets, now, s, 15, r);
      if AlreadySent(loaded, r.cls.id, r.offset) {
        RecordAllKeeps(loaded, due, stamp, r.cls.id, IntToString(r.offset));
      } else {
        DuePairsMembers(classes, offsets, now, loaded, 15, r);
        RecordAllMarks(loaded, due, stamp, r);
      }
      assert false;
    }
  }

  /** A saved run keeps every earlier entry of the file with its time stamp, and
      adds exactly the due reminders. */
  lemma SavedRunKeepsHistory(loaded: SentState, classes: seq<ClassEntry>, offsets: seq<int>, now: int,
                             stamp: string, delivered: Reminder -> bool, id: string, key: string)
    requires SavedState(loaded, classes, offsets, now, stamp, delivered).Some?
    ensures var s := SavedState(loaded, classes, offsets, now, stamp, delivered).value;
      && (key in SentFor(loaded, id) ==> key in SentFor(s, id) && SentFor(s, id)[key] == SentFor(loaded, id)[key])
      && (key in SentFor(s, id) && key !in SentFor(loaded, id) ==>
            exists r :: r in DuePairs(classes, offsets, now, loaded, 15) && r.cls.id == id && IntToString(r.offset) == key)
  {
    var due := DuePairs(classes, offsets, now, loaded, 15);
    var s := RecordAll(loaded, due, stamp);
    if key in SentFor(loaded, id) {
      forall r | r in due
        ensures r.cls.id != id || IntToString(r.offset) != key
      {
        DuePairsMembers(classes, offsets, now, loaded, 15, r);
      }
      RecordAllKeeps(loaded, due, stamp, id, key);
    }
    if key in SentFor(s, id) {
      RecordAllOnlyDue(loaded, due, stamp, id, key);
    }
  }
}
