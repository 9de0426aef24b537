# twy-announce, modelled in Dafny

This project models the decision logic of the twy-announce scripts. These scripts
announce Tiffany Wood Yoga classes and report on the studio's subscriptions.

- **The class-reminder pipeline** (`scripts/send_class_email_reminders.py`).
  - It reads the reminder lead times.
  - It splits the class-plan document into blocks and turns each block into a class entry: date, title, id, start time and labelled fields.
  - It picks the (class, lead time) reminders that are due now and not yet on record.
  - It matches each class to a Marvelous event for the join link.
  - It builds the reminder e-mail.
  - It records each sent reminder in the sent-state ledger.
- **The event cache refresh** (`scripts/refresh_marvelous_events.py`). It applies a window filter, projects each event to seven fields, and sorts by start text.
- **The Marvelous client helpers** (`src/marvelous_client.py`).
  - The auth-header guard.
  - The event and coupon payload builders, with defaults that caller kwargs override.
  - The four `_prepare_*_for_update` helpers, which flatten nested objects to their ids in place.
- **The cached JWT check** (`src/refresh_jwt.py`). It counts the segments, pads with base64 `=`, and keeps the token only while its expiry is more than 24 hours away.
- **The daily status report** (`src/daily_status_report.py`). It computes the totals, groups rows by product, orders products and billing cycles, and builds the Slack message lines.

Modules:

| Module | File | Contents |
|---|---|---|
| `Wrappers` | wrappers.dfy | Option and Result |
| `Text` | text.dfy | The Python `str` behaviour the scripts rely on: `strip`, `rstrip`, `split`, `join`, `splitlines`, `partition`, `in`, ASCII `lower`, `str(int)` and `int(str)` |
| `Json` | json.dfy | JSON values and Python truthiness |
| `Sorting` | sorting.dfy | Python's stable `sort`/`sorted` with a string key, written as an insertion sort; proved sorted, a permutation and stable |
| `Calendar` | calendar.dfy | Proleptic Gregorian `date.weekday()` and `date.isoformat()`, and the range of `datetime` and `timedelta` |
| `ScheduleParser` | schedule.dfy | `weekday_start_time`, `parse_classes`, `parse_block` |
| `Reminders` | reminders.dfy | `parse_offsets`, `compute_due_reminders`, the ledger updated by `main` |
| `ReminderEmail` | email.dfy | `build_email` |
| `EventMatcher` | matcher.dfy | `find_marvelous_event_for_class` |
| `EventCache` | events.dfy | `trim_and_filter_events` |
| `MarvelousClient` | client.dfy | The client helpers listed above |
| `JwtCache` | jwt.dfy | `decode_jwt_payload`, `is_cached_token_valid` |
| `StatusReport` | report.dfy | `format_report` |

Conventions:

- **Time.** Instants are integer seconds.
  - The class start, `now` and the send time are compared as wall-clock seconds in the studio's zone. Aware datetimes that share a `tzinfo` compare that way in Python.
  - The matcher and the cache refresh compare in UTC. The conversion from local wall time to UTC is a function parameter (`toUtc`).
- **Oracles.** Whatever the scripts get from a library the model cannot see is a function parameter:
  - `dateutil`'s fuzzy date parser (`DateOracle`) and its event-time parser (`TimeOracle`);
  - base64 plus JSON decoding of a token segment (`SegmentDecoder`);
  - the `strftime` date and time texts;
  - `{:,.0f}` money formatting (`MoneyText`);
  - `str()` of a non-string event id;
  - the EditorJS description builder.
- **Exceptions.** A Python exception becomes an `Err`, a `None`, or `ok == false`, whichever the caller observes.
- **Imperative code.** Where the source loops or mutates, the model is a `method` proved against a specification function. This covers the block splitting, the field scan, the due-reminder loops, the send loop over the `Ledger` class, the in-place `_prepare_*` helpers on the `JsonDict` class, the event window loop and the report's grouping loop. The properties are proved about those specification functions.

## Model

| member | source | states |
|---|---|---|
| Calendar.Weekday | scripts/send_class_email_reminders.py:145 | `date.weekday()` is a number from 0 (Monday) to 6 (Sunday) |
| Calendar.DayAfterOrdinal | scripts/send_class_email_reminders.py:145 | the day after a date (next day of the month, first of the next month, or 1 January of the next year) has the next ordinal, leap years included |
| Calendar.DayAfterWeekday | scripts/send_class_email_reminders.py:145 | the day after a date has the following weekday, Sunday wrapping round to Monday |
| Calendar.FirstDayIsMonday | scripts/send_class_email_reminders.py:145 | 0001-01-01 is a Monday, which with the day-after lemma fixes the weekday of every date |
| Calendar.DatetimeMaxIsLastSecond | scripts/send_class_email_reminders.py:452 | the upper end of the datetime range is the last second of 9999-12-31 |
| Calendar.IsoFormatLength | scripts/send_class_email_reminders.py:250 | `date.isoformat()` of a four-digit-year date is ten characters long |
| Calendar.IsoFormatFields | scripts/send_class_email_reminders.py:250 | the ISO text holds the zero-padded year, month and day at their fixed places |
| Calendar.IsoFormatInjective | scripts/send_class_email_reminders.py:250 | distinct dates have distinct ISO texts |
| Calendar.ZeroPadValue | scripts/send_class_email_reminders.py:250 | zero padding keeps the number's value |
| Calendar.ZeroPadWidth | scripts/send_class_email_reminders.py:250 | a number below 10^width pads to exactly `width` digits |
| ScheduleParser.WeekdayStartTime | scripts/send_class_email_reminders.py:145-155 | the start time is 17:30 on Monday, 09:00 on Saturday and 08:00 on every other day; it is always a valid time of day |
| ScheduleParser.StartTimesOnKnownDates | scripts/send_class_email_reminders.py:137-155 | 12 Jan 2026 is a Monday starting 17:30; 15 Jan 2026 a Thursday starting 08:00; 31 Jan 2026 a Saturday starting 09:00 |
| ScheduleParser.BlocksPartition | scripts/send_class_email_reminders.py:173-194 | the blocks concatenate back to the document's lines; none is empty; every block after the first starts with a heading line; no heading line appears inside a block |
| ScheduleParser.ParseClasses | scripts/send_class_email_reminders.py:173-194 | the entries are those of the blocks that yield one, in document order |
| ScheduleParser.LabelledDate | scripts/send_class_email_reminders.py:206-215 | a date is found exactly when some line holds "Original Class Date:" and its stripped tail parses |
| ScheduleParser.FindLabelledDate | scripts/send_class_email_reminders.py:206-215 | the loop returns the date of the first such line whose tail parses |
| ScheduleParser.DefaultTitle | scripts/send_class_email_reminders.py:231-237 | the fallback title (the series after "—", else "Class") is never empty |
| ScheduleParser.FirstTitleLine | scripts/send_class_email_reminders.py:238-245 | finds the first line that holds "Class Title:", or reports that there is none |
| ScheduleParser.ClassTitleRule | scripts/send_class_email_reminders.py:237-245 | the title is the non-empty stripped tail of the first "Class Title:" line, and otherwise the fallback; later title lines are ignored |
| ScheduleParser.FindTitle | scripts/send_class_email_reminders.py:237-245 | the loop with its `break` computes that title |
| ScheduleParser.EntryIdInjective | scripts/send_class_email_reminders.py:250 | the id `isoformat(date) + "::" + title` determines both the date and the title |
| ScheduleParser.BlockEntryShape | scripts/send_class_email_reminders.py:197-316 | a block yields an entry exactly when a labelled date or the first line parses; the entry's id is `isoformat(date)::title`, its title is non-empty, and its start is the date at the weekday's start time |
| ScheduleParser.ParseBlock | scripts/send_class_email_reminders.py:197-316 | `parse_block` computes that entry |
| ScheduleParser.FieldEndStops | scripts/send_class_email_reminders.py:279-290 | a value collection stops at the first stop line (blank, known label, "required item(", "original class date:", "tiff's notes:", all dashes) and at no line before it |
| ScheduleParser.CollectValue | scripts/send_class_email_reminders.py:277-291 | the inner `while` ends at that stop line and has collected the right-stripped lines before it |
| ScheduleParser.FieldValue | scripts/send_class_email_reminders.py:292 | a collected value is either None or a non-empty text without surrounding whitespace |
| ScheduleParser.FieldsFromLastLabel | scripts/send_class_email_reminders.py:270-303 | each field holds the value collected after its last label line in the block, and is None when it has no label line |
| ScheduleParser.ParseFields | scripts/send_class_email_reminders.py:270-303 | the outer `while`, whose index only moves forward, computes those fields |
| Reminders.Offsets | scripts/send_class_email_reminders.py:566-578 | never empty; [26, 25, 24] for a missing or empty setting |
| Reminders.ParseOffsets | scripts/send_class_email_reminders.py:566-578 | the loop keeps, in order, the parts that are non-blank integers, and falls back to [26, 25, 24] when none is kept |
| Reminders.KeptOffsetsFromParts | scripts/send_class_email_reminders.py:569-577 | every kept offset is the integer value of a non-blank part |
| Reminders.OffsetsRoundTrip | scripts/send_class_email_reminders.py:566-578 | writing a non-empty list of offsets as "a,b,c" and parsing it gives the same list, for every list whose numbers `str()` can write |
| Reminders.OverlongOffsetSkipped | scripts/send_class_email_reminders.py:574-577 | a part with more than 4300 digits makes `int()` raise ValueError and is skipped |
| Reminders.OffsetsFit | scripts/send_class_email_reminders.py:566-578 | every offset returned has at most 4300 digits, so `str(offset)` does not raise |
| Reminders.ComputeDueReminders | scripts/send_class_email_reminders.py:428-456 | returns the due reminders class by class, in offset order; it fails exactly when the window is no valid `timedelta` or some (class, offset) pair raises |
| Reminders.CheckOffset | scripts/send_class_email_reminders.py:446-454 | one pass of the inner loop fails with ValueError when `str(offset)` exceeds 4300 digits. Otherwise a recorded key is never due. Otherwise it fails with OverflowError when `timedelta(hours=offset)`, the subtraction or the window end leaves its range. Otherwise it answers `send_at <= now < send_at + window` |
| Reminders.RaisesIffPairRaises | scripts/send_class_email_reminders.py:442-454 | the run raises exactly when the window is no valid `timedelta` or checking some (class, offset) pair raises |
| Reminders.InRangeRunsDoNotRaise | scripts/send_class_email_reminders.py:442-454 | nothing raises when the window is at most a day, every offset is non-negative, and every class starts at least the largest lead time plus the window inside the datetime range |
| Reminders.DueForClass | scripts/send_class_email_reminders.py:446-454 | the inner loop returns the due reminders of one class, or fails exactly when checking one of its offsets raises |
| Reminders.DueForMembers | scripts/send_class_email_reminders.py:446-454 | a reminder of a class is selected exactly when its offset is configured, it is not on record, and `send_at <= now < send_at + window` |
| Reminders.DuePairsMembers | scripts/send_class_email_reminders.py:428-456 | a (class, offset) pair is selected exactly when the class is listed, the offset is configured, `str(offset)` is absent from the class's record, and `now` lies in `[start - offset h, start - offset h + 15 min)` |
| Reminders.DuePairsClassMajor | scripts/send_class_email_reminders.py:445-446 | the selection is class-major: the reminders of earlier classes come first |
| Reminders.DuplicateOffsetDueTwice | scripts/send_class_email_reminders.py:445-455 | an offset configured twice selects the same reminder twice |
| Reminders.Ledger.Record | scripts/send_class_email_reminders.py:647 | `state.setdefault(id, {})[str(offset)] = now` |
| Reminders.RecordAllKeeps | scripts/send_class_email_reminders.py:642-647 | recording keeps every earlier entry; its stamp changes only when the same key is recorded again |
| Reminders.RecordAllMarks | scripts/send_class_email_reminders.py:642-647 | every recorded reminder is on record afterwards, with the run's stamp |
| Reminders.RecordAllOnlyDue | scripts/send_class_email_reminders.py:642-647 | nothing but the recorded reminders is added |
| Reminders.DeliveredPrefix | scripts/send_class_email_reminders.py:642-647 | the reminders handled before the first raising send all went through, and the next one failed |
| Reminders.SendAll | scripts/send_class_email_reminders.py:642-647 | each reminder is sent and only then recorded; a failing send ends the loop with the earlier reminders recorded |
| Reminders.RunReminders | scripts/send_class_email_reminders.py:630-651 | nothing is sent or saved when there are no classes or computing the due reminders raises. Otherwise the delivered prefix of the due reminders is recorded, and the state is saved only when every send returned |
| Reminders.SavedRunIsIdempotent | scripts/send_class_email_reminders.py:630-651 | after a saved run, a rerun at the same instant on the saved state neither raises nor finds anything due, so no reminder is sent twice |
| Reminders.SavedRunKeepsHistory | scripts/send_class_email_reminders.py:630-651 | a saved state keeps every earlier entry with its stamp, and adds only reminders that were due |
| ReminderEmail.BuildEmail | scripts/send_class_email_reminders.py:459-530 | the subject is `WhatsApp reminder (T-<offset>h): <title> on <date>`. "To" is set exactly when there are recipients, to them joined by ", ". "From" is set exactly when the sender is non-empty, to that sender |
| ReminderEmail.EmailOpening | scripts/send_class_email_reminders.py:467-481 | the body opens with the `T-<offset>h` line, then the copy instructions, then the intro line with the date and time, a blank line and the quoted title |
| ReminderEmail.EmailEnding | scripts/send_class_email_reminders.py:509-519 | the body ends with the join link (the calendar URL when there is none), the sign-off and the end marker |
| ReminderEmail.EmailShowsFields | scripts/send_class_email_reminders.py:479-507 | every non-empty rich field of the class appears as a line of the body; the body has 15 fixed lines plus the field sections |
| ReminderEmail.EmailLinesNoNewline | scripts/send_class_email_reminders.py:467-519 | when the title, date, time, fields and link hold no newline, neither does any body line |
| ReminderEmail.EmailBodyLines | scripts/send_class_email_reminders.py:521-529 | under the same condition, splitting the body at '\n' gives back exactly the composed lines |
| EventMatcher.FindEventForClass | scripts/send_class_email_reminders.py:354-407 | the matcher returns the link of the best-ranked candidate; Err where `score` raises |
| EventMatcher.CollectCandidates | scripts/send_class_email_reminders.py:368-381 | the candidate loop keeps the events with a parseable start within 900 s of the class start, in cache order |
| EventMatcher.CandidatesMembers | scripts/send_class_email_reminders.py:368-381 | an event is a candidate exactly when it is in the cache and passes that test |
| EventMatcher.NoCandidateNoLink | scripts/send_class_email_reminders.py:362-384 | with an empty cache, or no event within the tolerance, the result is no link |
| EventMatcher.ScoreAll | scripts/send_class_email_reminders.py:387-402 | scores every candidate, and fails exactly when some candidate's name is not text |
| EventMatcher.RaisesOnlyOnBadName | scripts/send_class_email_reminders.py:387-402 | the matcher raises exactly when some candidate's `event_name` is truthy but not a string |
| EventMatcher.FirstMin | scripts/send_class_email_reminders.py:402-404 | the first element of the stable sort: a least key, strictly below every earlier key |
| EventMatcher.FirstMinIndex | scripts/send_class_email_reminders.py:402-404 | the scan returns that index |
| EventMatcher.RankCandidates | scripts/send_class_email_reminders.py:386-404 | ranks the candidates by (exact, substring, time difference) and picks the earliest best one |
| EventMatcher.Keys | scripts/send_class_email_reminders.py:387-400 | one key per candidate, each its score |
| EventMatcher.ChosenIsBest | scripts/send_class_email_reminders.py:386-407 | a returned link is `JOIN_BASE_URL/<id>` of a candidate with a truthy id, whose score is no worse than any candidate's and strictly better than every earlier one's |
| EventMatcher.ScoreDiffIsStartDiff | scripts/send_class_email_reminders.py:394-400 | for a candidate, the score's time part is its distance from the class start, at most 900 s |
| EventMatcher.ExactIsSubstring | scripts/send_class_email_reminders.py:390-391 | an exact title match is also a substring match |
| EventMatcher.ExactTitlePreferred | scripts/send_class_email_reminders.py:386-407 | when some candidate's casefolded name equals the title, the chosen event is an exact match |
| EventCache.TrimAndFilterEvents | scripts/refresh_marvelous_events.py:52-89 | fails with OverflowError exactly when `timedelta(days=lookahead)` or the cutoff leaves its range (line 55), or when `now - 1 day` leaves the datetime range and some event's start parses (line 70); otherwise the output is the projected in-window events, stably sorted by start text: sorted, a permutation of the selection, no longer than the input |
| EventCache.DefaultLookaheadDoesNotRaise | scripts/refresh_marvelous_events.py:54-55 | with the default 60-day look-ahead and a clock at least a day after `datetime.min` and 60 days before `datetime.max`, the refresh never fails |
| EventCache.SelectedLength | scripts/refresh_marvelous_events.py:57-86 | the window only drops events |
| EventCache.SelectedMembers | scripts/refresh_marvelous_events.py:57-86 | a record is kept exactly when it is the projection of an event in the window |
| EventCache.ProjectKeys | scripts/refresh_marvelous_events.py:75-85 | every kept record has exactly the seven fields |
| EventCache.ProjectValues | scripts/refresh_marvelous_events.py:75-85 | the two flags default to false; the other five fields are copied, null when missing |
| EventCache.CachedStartsInWindow | scripts/refresh_marvelous_events.py:59-73 | every cached record has a non-empty start text that parses to an instant from one day before now to the look-ahead horizon, both inclusive |
| EventCache.CacheStable | scripts/refresh_marvelous_events.py:88 | records with the same start text keep their input order |
| MarvelousClient.AuthHeaders | src/marvelous_client.py:123-131 | raises exactly for a missing or empty token; otherwise exactly the two headers `Authorization: Token <t>` and `Content-Type: application/json` |
| MarvelousClient.AuthHeadersInjective | src/marvelous_client.py:123-131 | equal headers come from equal tokens |
| MarvelousClient.BuildEventPayload | src/marvelous_client.py:178-254 | the payload's keys are the defaults, the description key when a description is non-empty, and the kwargs; kwargs win; the other defaults are kept |
| MarvelousClient.DescriptionKeyIsNew | src/marvelous_client.py:215-251 | the description key is not among the defaults |
| MarvelousClient.BuildCouponPayload | src/marvelous_client.py:628-682 | products, redeem dates and max redemptions are present only when truthy; kwargs override everything |
| MarvelousClient.OptionalKeysAreNew | src/marvelous_client.py:663-679 | the four optional keys are not among the coupon defaults |
| MarvelousClient.FlattenList | src/marvelous_client.py:330-334 | the comprehension replaces each dict by its `id`, keeps other elements and length, and raises when a dict lacks `id` |
| MarvelousClient.ListOfIdsShape | src/marvelous_client.py:330-346 | flattening one list field raises exactly when a dict element has no `id`; otherwise it keeps every other key, the list's length and its non-dict elements |
| MarvelousClient.ObjectToIdShape | src/marvelous_client.py:1005-1011 | a dict-valued field becomes its `id` (raising when absent); any other value is left as is |
| MarvelousClient.ApplyInPlace | src/marvelous_client.py:330-334 | one in-place assignment of the helper: the dict afterwards is the flattened one, or unchanged when it raises |
| MarvelousClient.PrepareEventForUpdate | src/marvelous_client.py:325-348 | flattens products, instructors and substitute_instructors in place and returns the same dict |
| MarvelousClient.PrepareProductForUpdate | src/marvelous_client.py:545-556 | flattens tags in place and returns the same dict |
| MarvelousClient.PrepareCouponForUpdate | src/marvelous_client.py:753-764 | flattens products in place and returns the same dict |
| MarvelousClient.PrepareMediaForUpdate | src/marvelous_client.py:999-1019 | replaces media and instructor by their ids and flattens options, in place |
| MarvelousClient.StepFlattens | src/marvelous_client.py:330-334 | after a step whose ids are not dicts, the field holds no dict |
| MarvelousClient.FlatStepIsNoop | src/marvelous_client.py:330-334 | a step on a field that holds no dict changes nothing |
| MarvelousClient.ApplyAllFlattens | src/marvelous_client.py:325-348 | after a successful helper, none of its fields holds a dict |
| MarvelousClient.ApplyAllKeeps | src/marvelous_client.py:325-348 | a helper leaves the fields it does not name flat |
| MarvelousClient.FlatRunIsNoop | src/marvelous_client.py:325-348 | a helper run on a dict whose fields hold no dicts changes nothing |
| MarvelousClient.PrepareIdempotent | src/marvelous_client.py:325-348 | applying a helper to its own output, when the ids are not dicts, changes nothing |
| MarvelousClient.HelpersHaveDistinctKeys | src/marvelous_client.py:999-1019 | each helper touches each field at most once |
| JwtCache.Padding | src/refresh_jwt.py:39-41 | at most three '=', making the length a multiple of four; none when it already is |
| JwtCache.PaddedSegment | src/refresh_jwt.py:36-41 | the padded segment starts with the segment, is a multiple of four long, adds at most three '=' and equals the segment when its length is already a multiple of four |
| JwtCache.WrongSegmentCountDecodesToNone | src/refresh_jwt.py:32-34 | a token whose dot count is not two decodes to None |
| JwtCache.ValidIffExpiryBeyondBuffer | src/refresh_jwt.py:50-90 | the cached token is accepted exactly when its expiry can be read and `exp - now > 24 * 3600`; an expiry can be read from a bool or from an integer a float can hold |
| JwtCache.ExpSeconds | src/refresh_jwt.py:74-77 | a bool counts as 0 or 1. An integer is read only when its magnitude is below 2^1024 - 2^970. Any other value, or a larger integer, makes `exp - time.time()` raise |
| JwtCache.HugeExpiryNotValid | src/refresh_jwt.py:74-90 | an integer expiry of 2^1024 - 2^970 or more is never accepted, because its float conversion raises and the handler answers False |
| JwtCache.NoExpiryNotValid | src/refresh_jwt.py:62-72 | a missing or empty token, an undecodable payload, or a payload without `exp` is never accepted |
| JwtCache.ValidEarlier | src/refresh_jwt.py:74-82 | a token accepted now was accepted at every earlier moment |
| StatusReport.GroupByProduct | src/daily_status_report.py:64-69 | the grouping loop lists the products in order of first appearance and maps each to its rows, in input order |
| StatusReport.AppendRowLines | src/daily_status_report.py:88-92 | appends one "✅" line per row, in order |
| StatusReport.FormatReport | src/daily_status_report.py:54-94 | the message is the newline-join of the header and the row lines, products in sorted order and each product's rows in cycle order |
| StatusReport.ReportHeader | src/daily_status_report.py:72-80 | the message starts with the same seven-line header: title, date, blank, subscription total, revenue total, blank, "*By Product:*" |
| StatusReport.HeadlineIsSumOfLines | src/daily_status_report.py:57-58 | the headline totals equal the sums over the rows listed below them |
| StatusReport.OneLinePerRow | src/daily_status_report.py:64-92 | the listed rows are a permutation of the input; line 7+i is the line of the i-th listed row; a line starts with "✅" exactly when it comes after the header |
| StatusReport.MessageLines | src/daily_status_report.py:94 | when no text holds a newline, splitting the message gives back exactly the report lines |
| StatusReport.ProductsAscending | src/daily_status_report.py:83 | products appear in ascending name order |
| StatusReport.MonthlyFirst | src/daily_status_report.py:86 | within a product, rows follow the key (not Monthly, cycle): "Monthly" first, then ascending cycle |
| StatusReport.CycleKeyOrder | src/daily_status_report.py:86 | the string key orders rows exactly as the tuple key does |
| StatusReport.SameCycleInputOrder | src/daily_status_report.py:86 | rows of one product with the same cycle keep their input order |
| Sorting.SortBySorted | src/daily_status_report.py:83 | the stable sort returns its input in ascending key order |
| Sorting.SortByPermutes | scripts/refresh_marvelous_events.py:88 | the sort returns a permutation of its input |
| Sorting.SortByStable | scripts/refresh_marvelous_events.py:88 | elements with equal keys keep their relative order, as the cache sort by start text and the report's sort of billing cycles rely on |

## Left out

- I/O is not modelled. This covers fetching the Google Doc, the Gmail API, SMTP and OAuth, the JSON state and cache files with their tmp-then-replace writes, and all HTTP calls. The ledger is an in-memory map, and the loaded state is a parameter; a corrupt state file loads as an empty map in the source, so any map is allowed.
- A state file that parses as JSON of another shape (a list, or a record whose values are not records) is not modelled. In the source, `key in sent_for_class` then becomes a substring test or raises TypeError.
- The early exits of `main` for a bad TIMEZONE or a missing or empty EMAIL_TO happen before any reminder logic. They are left out; the model starts at the parsed classes.
- `dateutil` parsing, `ZoneInfo` conversion and `strftime` are left out. They are oracles passed as parameters, so DST is not modelled.
- `str.lower()` and `str.casefold()` are modelled on ASCII letters only. `int()` does not accept non-ASCII digits.
- Fractional seconds and float expiry times are not modelled. Instants and `exp` are whole numbers.
- Revenue is an integer, and its `{:,.0f}` rendering is an oracle. Float sums and rounding are left out.
- The report's rows are a record type, so a row missing one of its keys (a `KeyError` in the source) cannot occur.
- The `time.time()`-stamped EditorJS description builder is an oracle. `str()` of a non-string event id is also an oracle.
- Events that are not dicts are left out; the cache and the matcher take dicts only.
- Reading MARVELOUS_LOOKAHEAD_DAYS is left out. The look-ahead is a parameter (60 by default).
- `EmailMessage.set_content`'s transfer encoding and trailing newline are left out. The body is the joined text.
- EventMatcher.FirstMinIndex: it does not model the in-place list sort of the candidates. It models the sort's first element, the earliest least key, which is all the matcher reads.
- Text.IntToString: it does not raise ValueError beyond 4300 digits. The reminder check models that error itself (`CheckOffset`). Elsewhere `str()` is applied only to offsets that check has passed and to counts.
- The digit limit is the interpreter's default of 4300. Changing it with `sys.set_int_max_str_digits` or PYTHONINTMAXSTRDIGITS is not modelled, and neither are Python versions without the limit.
- The playwright login in `src/refresh_jwt.py`, the YouTube, Instagram and Mailchimp collectors, and `examples/marvelous_example.py` are not part of this model.
