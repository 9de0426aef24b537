/** The class-plan parser of scripts/send_class_email_reminders.py: the weekday
    start-time table, the split of the document into heading-led blocks
    (`parse_classes`), and the per-block extraction of date, series, title, id and
    the labelled rich-text fields (`parse_block`). The fuzzy date parser is a
    parameter of the model. */
module ScheduleParser {
  import opened Wrappers
  import opened Text
  import opened Calendar

  /** `dateutil.parser.parse(text, fuzzy=True).date()`, None where it raises. */
  type DateOracle = string -> Option<CivilDate>

  /** One parsed class. `start` is the wall-clock second count (in the studio's
      zone) of `datetime.combine(date, weekday_start_time(date), tzinfo=tz)`. */
  datatype ClassEntry = ClassEntry(
    id: string,
    title: string,
    series: Option<string>,
    date: CivilDate,
    start: int,
    description: Option<string>,
    affirmation: Option<string>,
    keyActions: Option<string>,
    classFocus: Option<string>,
    categories: Option<string>)

  // ---------------------------------------------------------------- start times

  /** `weekday_start_time`: 17:30 on Mondays, 09:00 on Saturdays, 08:00 on every other day. */
  function WeekdayStartTime(d: CivilDate): (t: TimeOfDay)
    ensures Weekday(d) == Monday ==> t == TimeOfDay(17, 30)
    ensures Weekday(d) == Saturday ==> t == TimeOfDay(9, 0)
    ensures Weekday(d) != Monday && Weekday(d) != Saturday ==> t == TimeOfDay(8, 0)
    ensures 0 <= t.hour < 24 && 0 <= t.minute < 60
  {
    var wd := Weekday(d);
    if wd == Monday then TimeOfDay(17, 30)
    else if wd == Tuesday then TimeOfDay(8, 0)
    else if wd == Thursday then TimeOfDay(8, 0)
    else if wd == Saturday then TimeOfDay(9, 0)
    else TimeOfDay(8, 0)
  }

  /** The table against the calendar: 2026-01-12 is a Monday, 2026-01-15 a Thursday,
      2026-01-31 a Saturday. */
  lemma StartTimesOnKnownDates()
    ensures Weekday(Date(2026, 1, 12)) == Monday && WeekdayStartTime(Date(2026, 1, 12)) == TimeOfDay(17, 30)
    ensures Weekday(Date(2026, 1, 15)) == Thursday && WeekdayStartTime(Date(2026, 1, 15)) == TimeOfDay(8, 0)
    ensures Weekday(Date(2026, 1, 31)) == Saturday && WeekdayStartTime(Date(2026, 1, 31)) == TimeOfDay(9, 0)
  {
    assert DaysBeforeYear(2026) == 739616;
    KnownOrdinal(Date(2026, 1, 12), 739628);
    KnownOrdinal(Date(2026, 1, 15), 739631);
    KnownOrdinal(Date(2026, 1, 31), 739647);
  }

  lemma KnownOrdinal(d: CivilDate, o: int)
    requires d.year == 2026 && d.month == 1 && DaysBeforeYear(2026) + d.day == o
    ensures Weekday(d) == WeekdayOfOrdinal(o)
  {
  }

  // ---------------------------------------------------------------- blocks

  /** The lines of the document: `[ln.rstrip() for ln in doc_text.splitlines()]`. */
  function DocumentLines(docText: string): seq<string>
  {
    RStripAll(SplitLines(docText))
  }

  function RStripAll(lines: seq<string>): (r: seq<string>)
    ensures |r| == |lines|
    ensures forall i :: 0 <= i < |lines| ==> r[i] == RStrip(lines[i])
  {
    if lines == [] then [] else [RStrip(lines[0])] + RStripAll(lines[1..])
  }

  /** A line that opens a new class block. */
  predicate IsHeading(line: string)
  {
    var t := Strip(line);
    StartsWith(t, "###") || StartsWith(t, "Thursday") || StartsWith(t, "Monday")
      || StartsWith(t, "Tuesday") || StartsWith(t, "Saturday")
  }

  /** The state of `parse_classes`'s loop: blocks already flushed, and `current_block`.
      The splitting is stated for any heading test `isHead`; the parser uses `IsHeading`. */
  datatype Splitting = Splitting(closed: seq<seq<string>>, current: seq<string>)

  function SplitStep(st: Splitting, line: string, isHead: string -> bool): Splitting
  {
    if isHead(line) then
      Splitting(if st.current == [] then st.closed else st.closed + [st.current], [line])
    else
      Splitting(st.closed, st.current + [line])
  }

  function SplitAll(lines: seq<string>, isHead: string -> bool): Splitting
  {
    if lines == [] then Splitting([], [])
    else SplitStep(SplitAll(lines[..|lines| - 1], isHead), lines[|lines| - 1], isHead)
  }

  /** The blocks `parse_classes` hands to `parse_block`, in document order. */
  function Blocks(lines: seq<string>, isHead: string -> bool): seq<seq<string>>
  {
    var st := SplitAll(lines, isHead);
    if st.current == [] then st.closed else st.closed + [st.current]
  }

  function Flatten(blocks: seq<seq<string>>): seq<string>
  {
    if blocks == [] then [] else Flatten(blocks[..|blocks| - 1]) + blocks[|blocks| - 1]
  }

  /** What the splitting loop keeps true. */
  ghost predicate SplitInvariant(st: Splitting, lines: seq<string>, isHead: string -> bool)
  {
    && Flatten(st.closed) + st.current == lines
    && (forall k :: 0 <= k < |st.closed| ==> st.closed[k] != [])
    && (forall k :: 0 < k < |st.closed| ==> isHead(st.closed[k][0]))
    && (forall k, i :: 0 <= k < |st.closed| && 0 < i < |st.closed[k]| ==> !isHead(st.closed[k][i]))
    && (st.closed != [] ==> st.current != [] && isHead(st.current[0]))
    && (forall i :: 0 < i < |st.current| ==> !isHead(st.current[i]))
  }

  lemma {:induction false} SplitAllInvariant(lines: seq<string>, isHead: string -> bool)
    ensures SplitInvariant(SplitAll(lines, isHead), lines, isHead)
  {
    if lines != [] {
      var prefix := lines[..|lines| - 1];
      var line := lines[|lines| - 1];
      SplitAllInvariant(prefix, isHead);
      assert prefix + [line] == lines;
      var st := SplitAll(prefix, isHead);
      if isHead(line) && st.current != [] {
        FlushKeepsInvariant(st, prefix, line, isHead);
      } else if isHead(line) {
        assert Flatten(st.closed) == [];
      } else {
        AppendKeepsInvariant(st, prefix, line, isHead);
      }
    }
  }

  lemma FlushKeepsInvariant(st: Splitting, prefix: seq<string>, line: string, isHead: string -> bool)
    requires SplitInvariant(st, prefix, isHead) && st.current != [] && isHead(line)
    ensures SplitInvariant(Splitting(st.closed + [st.current], [line]), prefix + [line], isHead)
  {
    var closed := st.closed + [st.current];
    assert closed[..|closed| - 1] == st.closed;
    assert Flatten(closed) == Flatten(st.closed) + st.current;
    forall k | 0 <= k < |closed|
      ensures closed[k] != []
      ensures k > 0 ==> isHead(closed[k][0])
      ensures forall i :: 0 < i < |closed[k]| ==> !isHead(closed[k][i])
    {
      if k == |st.closed| {
        assert closed[k] == st.current;
      } else {
        assert closed[k] == st.closed[k];
      }
    }
  }

  lemma AppendKeepsInvariant(st: Splitting, prefix: seq<string>, line: string, isHead: string -> bool)
    requires SplitInvariant(st, prefix, isHead) && !isHead(line)
    ensures SplitInvariant(Splitting(st.closed, st.current + [line]), prefix + [line], isHead)
  {
    var current := st.current + [line];
    forall i | 0 < i < |current|
      ensures !isHead(current[i])
    {
      if i < |st.current| {
        assert current[i] == st.current[i];
      }
    }
  }

  /** The blocks partition the lines: concatenated they give the document back;
      none is empty; every block but a leading preamble starts with a heading; and
      no heading occurs inside a block. */
  lemma BlocksPartition(lines: seq<string>, isHead: string -> bool)
    ensures var b := Blocks(lines, isHead);
      && Flatten(b) == lines
      && (forall k :: 0 <= k < |b| ==> b[k] != [])
      && (forall k :: 0 < k < |b| ==> isHead(b[k][0]))
      && (forall k, i :: 0 <= k < |b| && 0 < i < |b[k]| ==> !isHead(b[k][i]))
  {
    SplitAllInvariant(lines, isHead);
    var st := SplitAll(lines, isHead);
    if st.current != [] {
      var b := st.closed + [st.current];
      assert b[..|b| - 1] == st.closed;
      forall k | 0 <= k < |b|
        ensures b[k] != []
        ensures k > 0 ==> isHead(b[k][0])
        ensures forall i :: 0 < i < |b[k]| ==> !isHead(b[k][i])
      {
        if k == |st.closed| {
          assert b[k] == st.current;
        } else {
          assert b[k] == st.closed[k];
        }
      }
    }
  }

  // ---------------------------------------------------------------- block fields

  const DateLabel := "Original Class Date:"
  const TitleLabel := "Class Title:"

  /** The first "Original Class Date:" line at or after `from` whose tail the parser accepts. */
  function LabelledDate(block: seq<string>, from: nat, parseDate: DateOracle): (r: Option<CivilDate>)
    requires from <= |block|
    ensures r.Some? <==> exists k :: from <= k < |block| && Contains(block[k], DateLabel)
                                      && parseDate(Strip(TextAfter(block[k], DateLabel))).Some?
    decreases |block| - from
  {
    if from == |block| then None
    else if Contains(block[from], DateLabel) && parseDate(Strip(TextAfter(block[from], DateLabel))).Some? then
      parseDate(Strip(TextAfter(block[from], DateLabel)))
    else LabelledDate(block, from + 1, parseDate)
  }

  /** The class date: a labelled date if any parses, otherwise the heading line parsed fuzzily. */
  function BlockDate(block: seq<string>, parseDate: DateOracle): (r: Option<CivilDate>)
    ensures r.Some? ==> block != []
  {
    var labelled := LabelledDate(block, 0, parseDate);
    if labelled.Some? then labelled
    else if block != [] then parseDate(block[0])
    else None
  }

  /** `block[0].strip().lstrip("# ").strip("*")` */
  function HeadingText(line: string): string
  {
    StripChars(LStripChars(Strip(line), {'#', ' '}), {'*'})
  }

  /** The text after the first em dash of the heading, stripped; None without a dash. */
  function Series(heading: string): Option<string>
  {
    if Contains(heading, "—") then Some(Strip(TextAfter(heading, "—"))) else None
  }

  /** `series or "Class"` */
  function DefaultTitle(series: Option<string>): (r: string)
    ensures r != ""
  {
    if series.Some? && series.value != "" then series.value else "Class"
  }

  /** The title decided by the first "Class Title:" line at or after `from`: its
      stripped tail when that is non-empty, otherwise `fallback`. */
  function ClassTitle(block: seq<string>, from: nat, fallback: string): string
    requires from <= |block|
    decreases |block| - from
  {
    if from == |block| then fallback
    else if Contains(block[from], TitleLabel) then
      var tail := Strip(TextAfter(block[from], TitleLabel));
      if tail != "" then tail else fallback
    else ClassTitle(block, from + 1, fallback)
  }

  /** The first line at or after `from` that carries "Class Title:". */
  function FirstTitleLine(block: seq<string>, from: nat): (r: Option<nat>)
    requires from <= |block|
    ensures r.Some? ==> from <= r.value < |block| && Contains(block[r.value], TitleLabel)
    ensures r.Some? ==> forall k :: from <= k < r.value ==> !Contains(block[k], TitleLabel)
    ensures r.None? ==> forall k :: from <= k < |block| ==> !Contains(block[k], TitleLabel)
    decreases |block| - from
  {
    if from == |block| then None
    else if Contains(block[from], TitleLabel) then Some(from)
    else FirstTitleLine(block, from + 1)
  }

  /** The title is the non-empty tail of the FIRST "Class Title:" line; when that
      line has an empty tail, or there is none, it is the series, or "Class". */
  lemma {:induction false} ClassTitleRule(block: seq<string>, from: nat, fallback: string)
    requires from <= |block|
    ensures ClassTitle(block, from, fallback) ==
      match FirstTitleLine(block, from)
      case None => fallback
      case Some(k) =>
        var tail := Strip(TextAfter(block[k], TitleLabel));
        if tail != "" then tail else fallback
    decreases |block| - from
  {
    if from < |block| && !Contains(block[from], TitleLabel) {
      ClassTitleRule(block, from + 1, fallback);
    }
  }

  // ---------------------------------------------------------------- labelled fields

  datatype Field = Description | Affirmation | KeyActions | ClassFocus | Categories

  datatype Fields = Fields(
    description: Option<string>,
    affirmation: Option<string>,
    keyActions: Option<string>,
    classFocus: Option<string>,
    categories: Option<string>)
  {
    function Get(f: Field): Option<string>
    {
      match f
      case Description => description
      case Affirmation => affirmation
      case KeyActions => keyActions
      case ClassFocus => classFocus
      case Categories => categories
    }

    function Set(f: Field, v: Option<string>): (r: Fields)
      ensures r.Get(f) == v
      ensures forall g :: g != f ==> r.Get(g) == Get(g)
    {
      match f
      case Description => this.(description := v)
      case Affirmation => this.(affirmation := v)
      case KeyActions => this.(keyActions := v)
      case ClassFocus => this.(classFocus := v)
      case Categories => this.(categories := v)
    }
  }

  const NoFields := Fields(None, None, None, None, None)

  /** `norm_label`: `s.strip().strip('*').rstrip(':').lower()` */
  function NormLabel(s: string): string
  {
    Lower(RStripChars(StripChars(Strip(s), {'*'}), {':'}))
  }

  /** `labels.get(norm_label(line))` */
  function LabelOf(line: string): Option<Field>
  {
    var n := NormLabel(line);
    if n == "description" then Some(Description)
    else if n == "affirmation of the class" then Some(Affirmation)
    else if n == "key actions" then Some(KeyActions)
    else if n == "class focus" then Some(ClassFocus)
    else if n == "categories" then Some(Categories)
    else None
  }

  /** `set(line) == {'-'}` */
  predicate AllDashes(s: string)
  {
    s != [] && forall i :: 0 <= i < |s| ==> s[i] == '-'
  }

  /** A line at which a field's value stops: blank, another label, one of the
      section headers that must not be folded in, or a dash rule. */
  predicate EndsField(line: string)
  {
    var t := Strip(line);
    var low := Lower(t);
    || t == ""
    || LabelOf(line).Some?
    || StartsWith(low, "required item(")
    || StartsWith(low, "required item(s):")
    || StartsWith(low, "original class date:")
    || StartsWith(low, "tiff's notes:")
    || AllDashes(t)
  }

  /** The two line tests of the label walk, kept abstract in the lemmas below:
      which field a line labels, and whether a line ends a value. */
  datatype LineTests = LineTests(labelOf: string -> Option<Field>, ends: string -> bool)

  /** A label line always ends the value before it. */
  ghost predicate Coherent(t: LineTests)
  {
    forall s :: t.labelOf(s).Some? ==> t.ends(s)
  }

  /** The tests `parse_block` applies. */
  const BlockTests := LineTests(LabelOf, EndsField)

  lemma BlockTestsCoherent()
    ensures Coherent(BlockTests)
  {
  }

  /** The first index at or after `j` where the value that started there stops. */
  function FieldEnd(block: seq<string>, j: nat, ends: string -> bool): (k: nat)
    requires j <= |block|
    ensures j <= k <= |block|
    decreases |block| - j
  {
    if j == |block| || ends(block[j]) then j else FieldEnd(block, j + 1, ends)
  }

  /** The value stops at the first line that ends it, or at the end of the block. */
  lemma {:induction false} FieldEndStops(block: seq<string>, j: nat, ends: string -> bool)
    requires j <= |block|
    ensures var k := FieldEnd(block, j, ends);
      && (k < |block| ==> ends(block[k]))
      && (forall m :: j <= m < k ==> !ends(block[m]))
    decreases |block| - j
  {
    if j < |block| && !ends(block[j]) {
      FieldEndStops(block, j + 1, ends);
    }
  }

  lemma {:induction false} FieldEndUnique(block: seq<string>, j: nat, k: nat, ends: string -> bool)
    requires j <= k <= |block|
    requires k < |block| ==> ends(block[k])
    requires forall m :: j <= m < k ==> !ends(block[m])
    ensures FieldEnd(block, j, ends) == k
    decreases k - j
  {
    if j < k {
      FieldEndUnique(block, j + 1, k, ends);
    }
  }

  function StripAll(lines: seq<string>): (r: seq<string>)
    ensures |r| == |lines|
    ensures forall i :: 0 <= i < |lines| ==> r[i] == Strip(lines[i])
  {
    if lines == [] then [] else [Strip(lines[0])] + StripAll(lines[1..])
  }

  /** `' '.join(l.strip() for l in collected).strip() or None` */
  function FieldValue(collected: seq<string>): (r: Option<string>)
    ensures r.Some? ==> r.value != [] && r.value[0] !in Whitespace && r.value[|r.value| - 1] !in Whitespace
  {
    var m := RStripChars(Join(StripAll(collected), " "), Whitespace);
    var v := LStripChars(m, Whitespace);
    LStripCharsSuffix(m, Whitespace);
    assert v != [] ==> v[|v| - 1] == m[|m| - 1];
    if v == "" then None else Some(v)
  }

  /** The value of the field whose label is at index `k`. */
  function ValueAt(block: seq<string>, k: nat, ends: string -> bool): Option<string>
    requires k < |block|
  {
    FieldValue(RStripAll(block[k + 1..FieldEnd(block, k + 1, ends)]))
  }

  /** The fields after scanning `block` from index `i` with `acc` already collected. */
  function ScanFields(block: seq<string>, i: nat, acc: Fields, t: LineTests): Fields
    requires i <= |block|
    decreases |block| - i
  {
    if i == |block| then acc
    else match t.labelOf(block[i])
      case None => ScanFields(block, i + 1, acc, t)
      case Some(f) => ScanFields(block, FieldEnd(block, i + 1, t.ends), acc.Set(f, ValueAt(block, i, t.ends)), t)
  }

  /** The last line at or after `from` that labels `f`. */
  function LastLabel(block: seq<string>, f: Field, from: nat, labelOf: string -> Option<Field>): (r: Option<nat>)
    requires from <= |block|
    ensures r.Some? ==> from <= r.value < |block| && labelOf(block[r.value]) == Some(f)
    ensures r.Some? ==> forall k :: r.value < k < |block| ==> labelOf(block[k]) != Some(f)
    ensures r.None? ==> forall k :: from <= k < |block| ==> labelOf(block[k]) != Some(f)
    decreases |block| - from
  {
    if from == |block| then None
    else match LastLabel(block, f, from + 1, labelOf)
      case Some(k) => Some(k)
      case None => if labelOf(block[from]) == Some(f) then Some(from) else None
  }

  lemma {:induction false} LastLabelSkip(block: seq<string>, f: Field, a: nat, b: nat, labelOf: string -> Option<Field>)
    requires a <= b <= |block|
    requires forall m :: a <= m < b ==> labelOf(block[m]).None?
    ensures LastLabel(block, f, a, labelOf) == LastLabel(block, f, b, labelOf)
    decreases b - a
  {
    if a < b {
      LastLabelSkip(block, f, a + 1, b, labelOf);
    }
  }

  lemma {:induction false} ScanFieldsLast(block: seq<string>, i: nat, acc: Fields, f: Field, t: LineTests)
    requires i <= |block| && Coherent(t)
    ensures ScanFields(block, i, acc, t).Get(f) ==
      match LastLabel(block, f, i, t.labelOf)
      case None => acc.Get(f)
      case Some(k) => ValueAt(block, k, t.ends)
    decreases |block| - i, 1
  {
    if i < |block| {
      match t.labelOf(block[i])
      case None =>
        ScanFieldsLast(block, i + 1, acc, f, t);
      case Some(g) =>
        ScanFieldsLastAtLabel(block, i, acc, f, t, g);
    }
  }

  lemma {:induction false} ScanFieldsLastAtLabel(block: seq<string>, i: nat, acc: Fields, f: Field, t: LineTests, g: Field)
    requires i < |block| && Coherent(t) && t.labelOf(block[i]) == Some(g)
    ensures ScanFields(block, i, acc, t).Get(f) ==
      match LastLabel(block, f, i, t.labelOf)
      case None => acc.Get(f)
      case Some(k) => ValueAt(block, k, t.ends)
    decreases |block| - i, 0
  {
    var j := FieldEnd(block, i + 1, t.ends);
    ScanFieldsLast(block, j, acc.Set(g, ValueAt(block, i, t.ends)), f, t);
    NoLabelBeforeFieldEnd(block, i, t, f);
  }

  /** No label occurs strictly inside a value, so the last label from `i` is the
      last one after the value, or `i` itself. */
  lemma NoLabelBeforeFieldEnd(block: seq<string>, i: nat, t: LineTests, f: Field)
    requires i < |block| && Coherent(t)
    ensures LastLabel(block, f, i + 1, t.labelOf) == LastLabel(block, f, FieldEnd(block, i + 1, t.ends), t.labelOf)
  {
    FieldEndStops(block, i + 1, t.ends);
    LastLabelSkip(block, f, i + 1, FieldEnd(block, i + 1, t.ends), t.labelOf);
  }

  /** Each field holds the value collected after the LAST line labelled with it
      (a later label overwrites an earlier one, even with None), and is None when
      no line carries its label. */
  lemma FieldsFromLastLabel(block: seq<string>, f: Field)
    ensures ScanFields(block, 0, NoFields, BlockTests).Get(f) ==
      match LastLabel(block, f, 0, LabelOf)
      case None => None
      case Some(k) => ValueAt(block, k, EndsField)
  {
    BlockTestsCoherent();
    ScanFieldsLast(block, 0, NoFields, f, BlockTests);
  }

  // ---------------------------------------------------------------- parse_block

  /** `f"{cls_date.isoformat()}::{title}"` */
  function EntryId(d: CivilDate, title: string): string
  {
    IsoFormat(d) + "::" + title
  }

  /** Two classes get the same id only when they have the same date and title. */
  lemma EntryIdInjective(d1: CivilDate, t1: string, d2: CivilDate, t2: string)
    requires EntryId(d1, t1) == EntryId(d2, t2)
    ensures d1 == d2 && t1 == t2
  {
    IsoFormatLength(d1);
    IsoFormatLength(d2);
    var s1, s2 := EntryId(d1, t1), EntryId(d2, t2);
    assert s1[..10] == IsoFormat(d1) && s2[..10] == IsoFormat(d2);
    assert s1[12..] == t1 && s2[12..] == t2;
    IsoFormatInjective(d1, d2);
  }

  /** What `parse_block` returns. */
  function BlockEntry(block: seq<string>, parseDate: DateOracle): Option<ClassEntry>
  {
    match BlockDate(block, parseDate)
    case None => None
    case Some(d) =>
      var series := Series(HeadingText(block[0]));
      var title := ClassTitle(block, 0, DefaultTitle(series));
      var f := ScanFields(block, 0, NoFields, BlockTests);
      Some(ClassEntry(EntryId(d, title), title, series, d, WallSeconds(d, WeekdayStartTime(d)),
                      f.description, f.affirmation, f.keyActions, f.classFocus, f.categories))
  }

  /** A block yields an entry exactly when a date can be found for it; the entry's
      id is `isoformat(date) + "::" + title`, its title is never empty, and it
      starts at the weekday's start time on that date. */
  lemma BlockEntryShape(block: seq<string>, parseDate: DateOracle)
    ensures BlockEntry(block, parseDate).Some? <==>
      (exists k :: 0 <= k < |block| && Contains(block[k], DateLabel)
                   && parseDate(Strip(TextAfter(block[k], DateLabel))).Some?)
      || (block != [] && parseDate(block[0]).Some?)
    ensures match BlockEntry(block, parseDate)
      case None => true
      case Some(e) =>
        && e.id == IsoFormat(e.date) + "::" + e.title
        && e.title != ""
        && e.start == WallSeconds(e.date, WeekdayStartTime(e.date))
  {
    match BlockDate(block, parseDate)
    case None =>
    case Some(d) =>
      ClassTitleNonEmpty(block, 0, DefaultTitle(Series(HeadingText(block[0]))));
  }

  lemma {:induction false} ClassTitleNonEmpty(block: seq<string>, from: nat, fallback: string)
    requires from <= |block| && fallback != ""
    ensures ClassTitle(block, from, fallback) != ""
    decreases |block| - from
  {
    if from < |block| && !Contains(block[from], TitleLabel) {
      ClassTitleNonEmpty(block, from + 1, fallback);
    }
  }

  /** `parse_block` */
  method ParseBlock(block: seq<string>, parseDate: DateOracle) returns (entry: Option<ClassEntry>)
    ensures entry == BlockEntry(block, parseDate)
  {
    var date := FindLabelledDate(block, parseDate);
    // Fall back to the heading line.
    if date.None? && |block| > 0 {
      date := parseDate(block[0]);
    }
    if date.None? {
      return None;
    }
    var d := date.value;

    var heading := HeadingText(block[0]);
    var series: Option<string> := None;
    if Contains(heading, "—") {
      series := Some(Strip(TextAfter(heading, "—")));
    }
    var title := FindTitle(block, DefaultTitle(series));

    var start := WallSeconds(d, WeekdayStartTime(d));
    var id := IsoFormat(d) + "::" + title;
    var fields := ParseFields(block, BlockTests);
    entry := Some(ClassEntry(id, title, series, d, start, fields.description, fields.affirmation,
                             fields.keyActions, fields.classFocus, fields.categories));
  }

  /** The date loop of `parse_block`: the first "Original Class Date:" line whose
      tail parses; a tail that does not parse is passed over. */
  method FindLabelledDate(block: seq<string>, parseDate: DateOracle) returns (date: Option<CivilDate>)
    ensures date == LabelledDate(block, 0, parseDate)
  {
    date := None;
    var k := 0;
    while k < |block|
      invariant 0 <= k <= |block|
      invariant LabelledDate(block, k, parseDate) == LabelledDate(block, 0, parseDate)
    {
      if Contains(block[k], DateLabel) {
        var parsed := parseDate(Strip(TextAfter(block[k], DateLabel)));
        if parsed.Some? {
          date := parsed;
          break;
        }
      }
      k := k + 1;
    }
  }

  /** The title loop of `parse_block`: the first "Class Title:" line decides,
      and an empty tail there keeps `fallback`. */
  method FindTitle(block: seq<string>, fallback: string) returns (title: string)
    ensures title == ClassTitle(block, 0, fallback)
  {
    title := fallback;
    var k := 0;
    while k < |block|
      invariant 0 <= k <= |block|
      invariant title == fallback
      invariant ClassTitle(block, k, fallback) == ClassTitle(block, 0, fallback)
    {
      if Contains(block[k], TitleLabel) {
        var tail := Strip(TextAfter(block[k], TitleLabel));
        if tail != "" {
          title := tail;
        }
        break;
      }
      k := k + 1;
    }
  }

  /** The label walk of `parse_block` under the line tests `t` (`BlockTests` in the
      parser): `i` moves to each label, `j` collects the lines after it up to the
      first line that ends the value, and `i` resumes at `j`. */
  method ParseFields(block: seq<string>, t: LineTests) returns (fields: Fields)
    ensures fields == ScanFields(block, 0, NoFields, t)
  {
    var n := |block|;
    var i := 0;
    fields := NoFields;
    while i < n
      invariant 0 <= i <= n
      invariant ScanFields(block, i, fields, t) == ScanFields(block, 0, NoFields, t)
    {
      var field := t.labelOf(block[i]);
      if field.None? {
        i := i + 1;
        continue;
      }
      var j, collected := CollectValue(block, i + 1, t.ends);
      fields := fields.Set(field.value, FieldValue(collected));
      i := j;
    }
  }

  /** The inner loop of the label walk: the lines from `start` up to the first one
      that ends the value, right-stripped. */
  method CollectValue(block: seq<string>, start: nat, ends: string -> bool) returns (j: nat, collected: seq<string>)
    requires start <= |block|
    ensures j == FieldEnd(block, start, ends)
    ensures collected == RStripAll(block[start..j])
  {
    j := start;
    collected := [];
    while j < |block| && !ends(block[j])
      invariant start <= j <= |block|
      invariant forall m :: start <= m < j ==> !ends(block[m])
      invariant |collected| == j - start
      invariant forall m :: start <= m < j ==> collected[m - start] == RStrip(block[m])
    {
      collected := collected + [RStrip(block[j])];
      j := j + 1;
    }
    FieldEndUnique(block, start, j, ends);
    RStripAllPointwise(block[start..j], collected);
  }

  lemma RStripAllPointwise(lines: seq<string>, stripped: seq<string>)
    requires |stripped| == |lines|
    requires forall m :: 0 <= m < |lines| ==> stripped[m] == RStrip(lines[m])
    ensures stripped == RStripAll(lines)
  {
  }

  // ---------------------------------------------------------------- parse_classes

  /** The entries of the blocks that `parse_block` accepts, in block order. */
  function EntriesOf(blocks: seq<seq<string>>, parseDate: DateOracle): seq<ClassEntry>
  {
    if blocks == [] then []
    else EntriesOf(blocks[..|blocks| - 1], parseDate) + EntryOf(blocks[|blocks| - 1], parseDate)
  }

  /** The entry of one block, when it parses. */
  function EntryOf(block: seq<string>, parseDate: DateOracle): seq<ClassEntry>
  {
    match BlockEntry(block, parseDate)
    case None => []
    case Some(e) => [e]
  }

  lemma EntriesOfSnoc(blocks: seq<seq<string>>, block: seq<string>, parseDate: DateOracle)
    ensures EntriesOf(blocks + [block], parseDate) == EntriesOf(blocks, parseDate) + EntryOf(block, parseDate)
  {
    assert (blocks + [block])[..|blocks|] == blocks;
  }

  lemma SplitAllSnoc(lines: seq<string>, i: nat, isHead: string -> bool)
    requires i < |lines|
    ensures SplitAll(lines[..i + 1], isHead) == SplitStep(SplitAll(lines[..i], isHead), lines[i], isHead)
  {
    assert lines[..i + 1][..i] == lines[..i];
  }

  /** `parse_classes`: split the document into blocks at heading lines and keep
      the entry of every block that parses, in document order. */
  method ParseClasses(docText: string, parseDate: DateOracle) returns (entries: seq<ClassEntry>)
    ensures entries == EntriesOf(Blocks(DocumentLines(docText), IsHeading), parseDate)
  {
    var lines := DocumentLines(docText);
    entries := [];
    var current: seq<string> := [];
    for i := 0 to |lines|
      invariant SplitAll(lines[..i], IsHeading).current == current
      invariant entries == EntriesOf(SplitAll(lines[..i], IsHeading).closed, parseDate)
    {
      var ln := lines[i];
      ghost var closed := SplitAll(lines[..i], IsHeading).closed;
      SplitAllSnoc(lines, i, IsHeading);
      if IsHeading(ln) {
        if current != [] {
          var e := ParseBlock(current, parseDate);
          EntriesOfSnoc(closed, current, parseDate);
          if e.Some? {
            entries := entries + [e.value];
          }
        }
        current := [ln];
      } else {
        current := current + [ln];
      }
    }
    assert lines[..|lines|] == lines;
    if current != [] {
      var e := ParseBlock(current, parseDate);
      EntriesOfSnoc(SplitAll(lines, IsHeading).closed, current, parseDate);
      if e.Some? {
        entries := entries + [e.value];
      }
    }
  }
}
