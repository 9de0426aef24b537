/** The e-mail of scripts/send_class_email_reminders.py (`build_email`): the subject,
    the optional sender and recipients, and a body holding a ready-to-paste
    WhatsApp message. */
module ReminderEmail {
  import opened Wrappers
  import opened Text
  import opened ScheduleParser

  datatype Email = Email(subject: string, sender: Option<string>, to: Option<string>, body: string)

  // The fixed text of the message. The longer literals are written as short
  // pieces, which the verifier inspects character by character.

  const FirstLineTail := "h reminder " + "for a Tiffany " + "Wood Yoga " + "WhatsApp post."
  const CopyLine := "Copy the " + "WhatsApp " + "message " + "block below " + "into the " + "group:"
  const MessageMarker := "—— WhatsApp " + "message ———"
  const IntroStart := "✨ Join Tiff " + "for class on "
  const LinkLabel := "*Link to " + "Join:* "
  const CalendarUrl := "https://" + "studio." + "tiffany" + "woodyoga" + ".com/" + "calendar"
  const SignOff := "See you " + "there! 💕"
  const EndMarker := "—— end " + "message ———"
  const AffirmationHeading := "*Affirmation " + "of the Class:*"
  const KeyActionsHeading := "*Key " + "Actions:*"
  const ClassFocusHeading := "*Class " + "Focus:*"
  const CategoriesHeading := "*Categories:*"

  /** `*Link to Join:* <url>`, falling back to the studio calendar. */
  function LinkLine(joinUrl: Option<string>): string
  {
    if joinUrl.Some? && joinUrl.value != "" then LinkLabel + joinUrl.value
    else LinkLabel + CalendarUrl
  }

  /** A labelled section of the WhatsApp block, present only for a non-empty field. */
  function Section(heading: string, value: Option<string>): seq<string>
  {
    if value.Some? && value.value != "" then [heading, value.value, ""] else []
  }

  function DescriptionSection(value: Option<string>): seq<string>
  {
    if value.Some? && value.value != "" then [value.value, ""] else []
  }

  /** The rich fields of the class, each only when present and non-empty. */
  function FieldSections(cls: ClassEntry): seq<string>
  {
    DescriptionSection(cls.description)
      + Section(AffirmationHeading, cls.affirmation)
      + Section(KeyActionsHeading, cls.keyActions)
      + Section(ClassFocusHeading, cls.classFocus)
      + Section(CategoriesHeading, cls.categories)
  }

  const EmailHeader: seq<string> := ["", CopyLine, "", MessageMarker, ""]

  /** The lines of the body; `dateStr` and `timeStr` are the `strftime` renderings
      of the local start. */
  function EmailLines(cls: ClassEntry, offset: int, dateStr: string, timeStr: string, joinUrl: Option<string>): seq<string>
  {
    ["T-" + IntToString(offset) + FirstLineTail] + EmailHeader
      + [IntroStart + dateStr + " at " + timeStr, "", "*\"" + cls.title + "\"*", ""]
      + FieldSections(cls)
      + [LinkLine(joinUrl), "", SignOff]
      + ["", EndMarker]
  }

  /** `build_email` */
  function BuildEmail(cls: ClassEntry, offset: int, dateStr: string, timeStr: string, toAddrs: seq<string>,
                      sender: Option<string>, joinUrl: Option<string>): (e: Email)
    ensures e.subject == "WhatsApp reminder (T-" + IntToString(offset) + "h): " + cls.title + " on " + dateStr
    ensures e.to.Some? <==> toAddrs != []
    ensures e.to.Some? ==> e.to.value == Join(toAddrs, ", ")
    ensures e.sender.Some? <==> sender.Some? && sender.value != ""
    ensures e.sender.Some? ==> e.sender == sender
  {
    Email("WhatsApp reminder (T-" + IntToString(offset) + "h): " + cls.title + " on " + dateStr,
          if sender.Some? && sender.value != "" then sender else None,
          if toAddrs != [] then Some(Join(toAddrs, ", ")) else None,
          Join(EmailLines(cls, offset, dateStr, timeStr, joinUrl), "\n"))
  }

  /** The message opens with the lead time, the copy instructions, the date and
      time of the class and its quoted title. */
  lemma EmailOpening(cls: ClassEntry, offset: int, dateStr: string, timeStr: string, joinUrl: Option<string>)
    ensures var lines := EmailLines(cls, offset, dateStr, timeStr, joinUrl);
      && |lines| >= 15
      && lines[0] == "T-" + IntToString(offset) + FirstLineTail
      && lines[1..6] == EmailHeader
      && lines[6] == IntroStart + dateStr + " at " + timeStr
      && lines[7] == ""
      && lines[8] == "*\"" + cls.title + "\"*"
  {
    var head := ["T-" + IntToString(offset) + FirstLineTail] + EmailHeader
      + [IntroStart + dateStr + " at " + timeStr, "", "*\"" + cls.title + "\"*", ""];
    var tail := FieldSections(cls) + [LinkLine(joinUrl), "", SignOff] + ["", EndMarker];
    assert EmailLines(cls, offset, dateStr, timeStr, joinUrl) == head + tail;
  }

  /** The reminder always ends with the link line, the sign-off and the end marker;
      the link is the matched event when there is one, else the calendar. */
  lemma EmailEnding(cls: ClassEntry, offset: int, dateStr: string, timeStr: string, joinUrl: Option<string>)
    ensures var lines := EmailLines(cls, offset, dateStr, timeStr, joinUrl);
      && |lines| >= 15
      && lines[|lines| - 5..] == [LinkLine(joinUrl), "", SignOff, "", EndMarker]
      && (joinUrl.Some? && joinUrl.value != "" ==> lines[|lines| - 5] == LinkLabel + joinUrl.value)
      && (joinUrl.None? || joinUrl.value == "" ==> lines[|lines| - 5] == LinkLabel + CalendarUrl)
  {
  }

  /** Every rich field that is present and non-empty appears, unchanged, as a line
      of the message, and the body has exactly one line per composed line. */
  lemma EmailShowsFields(cls: ClassEntry, offset: int, dateStr: string, timeStr: string, joinUrl: Option<string>)
    ensures var lines := EmailLines(cls, offset, dateStr, timeStr, joinUrl);
      && |lines| == 15 + |FieldSections(cls)|
      && (cls.description.Some? && cls.description.value != "" ==> cls.description.value in lines)
      && (cls.affirmation.Some? && cls.affirmation.value != "" ==> cls.affirmation.value in lines)
      && (cls.keyActions.Some? && cls.keyActions.value != "" ==> cls.keyActions.value in lines)
      && (cls.classFocus.Some? && cls.classFocus.value != "" ==> cls.classFocus.value in lines)
      && (cls.categories.Some? && cls.categories.value != "" ==> cls.categories.value in lines)
  {
    var lines := EmailLines(cls, offset, dateStr, timeStr, joinUrl);
    var fields := FieldSections(cls);
    assert forall x :: x in fields ==> x in lines;
  }

  predicate FieldNoNewline(v: Option<string>)
  {
    v.Some? ==> NoNewline(v.value)
  }

  predicate LinesNoNewline(lines: seq<string>)
  {
    forall i :: 0 <= i < |lines| ==> NoNewline(lines[i])
  }

  /** None of the fixed text holds a newline. */
  lemma FixedTextNoNewline()
    ensures NoNewline(FirstLineTail) && NoNewline(CopyLine) && NoNewline(MessageMarker)
    ensures NoNewline(IntroStart) && NoNewline(LinkLabel) && NoNewline(CalendarUrl)
    ensures NoNewline(SignOff) && NoNewline(EndMarker)
    ensures NoNewline(AffirmationHeading) && NoNewline(KeyActionsHeading)
    ensures NoNewline(ClassFocusHeading) && NoNewline(CategoriesHeading)
  {
    FirstLineTailNoNewline();
    CopyLineNoNewline();
    CalendarUrlNoNewline();
    MarkersNoNewline();
    HeadingsNoNewline();
  }

  lemma FirstLineTailNoNewline()
    ensures NoNewline(FirstLineTail)
  {
  }

  lemma CopyLineNoNewline()
    ensures NoNewline(CopyLine)
  {
  }

  lemma CalendarUrlNoNewline()
    ensures NoNewline(CalendarUrl)
  {
  }

  lemma MarkersNoNewline()
    ensures NoNewline(MessageMarker) && NoNewline(IntroStart) && NoNewline(SignOff) && NoNewline(EndMarker)
  {
  }

  lemma HeadingsNoNewline()
    ensures NoNewline(LinkLabel) && NoNewline(AffirmationHeading) && NoNewline(KeyActionsHeading)
    ensures NoNewline(ClassFocusHeading) && NoNewline(CategoriesHeading)
  {
  }

  /** No line of the body carries a newline when no field does. */
  lemma EmailLinesNoNewline(cls: ClassEntry, offset: int, dateStr: string, timeStr: string, joinUrl: Option<string>)
    requires NoNewline(cls.title) && NoNewline(dateStr) && NoNewline(timeStr)
    requires FieldNoNewline(cls.description) && FieldNoNewline(cls.affirmation) && FieldNoNewline(cls.keyActions)
    requires FieldNoNewline(cls.classFocus) && FieldNoNewline(cls.categories) && FieldNoNewline(joinUrl)
    ensures LinesNoNewline(EmailLines(cls, offset, dateStr, timeStr, joinUrl))
  {
    FixedTextNoNewline();
    var first := ["T-" + IntToString(offset) + FirstLineTail];
    var intro := [IntroStart + dateStr + " at " + timeStr, "", "*\"" + cls.title + "\"*", ""];
    var fields := FieldSections(cls);
    var ending := [LinkLine(joinUrl), "", SignOff] + ["", EndMarker];
    FirstLineNoNewline(offset);
    IntroNoNewline(cls.title, dateStr, timeStr);
    FieldSectionsNoNewline(cls);
    assert LinesNoNewline(EmailHeader);
    assert LinesNoNewline(ending);
    assert EmailLines(cls, offset, dateStr, timeStr, joinUrl) == first + EmailHeader + intro + fields + ending;
  }

  lemma FirstLineNoNewline(offset: int)
    ensures LinesNoNewline(["T-" + IntToString(offset) + FirstLineTail])
  {
    IntToStringNoNewline(offset);
    FirstLineTailNoNewline();
  }

  lemma IntroNoNewline(title: string, dateStr: string, timeStr: string)
    requires NoNewline(title) && NoNewline(dateStr) && NoNewline(timeStr)
    ensures LinesNoNewline([IntroStart + dateStr + " at " + timeStr, "", "*\"" + title + "\"*", ""])
  {
    MarkersNoNewline();
  }

  lemma FieldSectionsNoNewline(cls: ClassEntry)
    requires FieldNoNewline(cls.description) && FieldNoNewline(cls.affirmation) && FieldNoNewline(cls.keyActions)
    requires FieldNoNewline(cls.classFocus) && FieldNoNewline(cls.categories)
    ensures LinesNoNewline(FieldSections(cls))
  {
    HeadingsNoNewline();
    var d := DescriptionSection(cls.description);
    var a := Section(AffirmationHeading, cls.affirmation);
    var k := Section(KeyActionsHeading, cls.keyActions);
    var f := Section(ClassFocusHeading, cls.classFocus);
    var c := Section(CategoriesHeading, cls.categories);
    assert LinesNoNewline(d) && LinesNoNewline(a) && LinesNoNewline(k);
    assert LinesNoNewline(f) && LinesNoNewline(c);
    LinesNoNewlineAppend(d, a);
    LinesNoNewlineAppend(d + a, k);
    LinesNoNewlineAppend(d + a + k, f);
    LinesNoNewlineAppend(d + a + k + f, c);
  }

  lemma LinesNoNewlineAppend(a: seq<string>, b: seq<string>)
    requires LinesNoNewline(a) && LinesNoNewline(b)
    ensures LinesNoNewline(a + b)
  {
  }

  /** When no field carries a newline, the body splits back
      into exactly the composed lines: no field can add or merge lines. */
  lemma EmailBodyLines(cls: ClassEntry, offset: int, dateStr: string, timeStr: string, toAddrs: seq<string>,
                       sender: Option<string>, joinUrl: Option<string>)
    requires NoNewline(cls.title) && NoNewline(dateStr) && NoNewline(timeStr)
    requires FieldNoNewline(cls.description) && FieldNoNewline(cls.affirmation) && FieldNoNewline(cls.keyActions)
    requires FieldNoNewline(cls.classFocus) && FieldNoNewline(cls.categories) && FieldNoNewline(joinUrl)
    ensures Split(BuildEmail(cls, offset, dateStr, timeStr, toAddrs, sender, joinUrl).body, '\n')
      == EmailLines(cls, offset, dateStr, timeStr, joinUrl)
  {
    var lines := EmailLines(cls, offset, dateStr, timeStr, joinUrl);
    EmailLinesNoNewline(cls, offset, dateStr, timeStr, joinUrl);
    assert forall p :: p in lines ==> '\n' !in p;
    SplitJoin(lines, '\n');
  }
}
