/** The behaviour of Python's `str` methods that the scripts use, on `seq<char>`
    (one `char` per Unicode code point): whitespace and character-set stripping,
    prefix and substring tests, `partition`, `split` on one character, `join`,
    `splitlines`, ASCII `lower`, `str(int)` and `int(str)`. */
module Text {
  import opened Wrappers

  /** Exactly the code points for which Python's `str.isspace()` holds; `strip()`,
      `rstrip()` and `int()` without arguments remove these. */
  const Whitespace: set<char> := {
    '\t', '\n', '\U{000B}', '\U{000C}', '\r', '\U{001C}', '\U{001D}', '\U{001E}', '\U{001F}', ' ',
    '\U{0085}', '\U{00A0}', '\U{1680}',
    '\U{2000}', '\U{2001}', '\U{2002}', '\U{2003}', '\U{2004}', '\U{2005}', '\U{2006}',
    '\U{2007}', '\U{2008}', '\U{2009}', '\U{200A}',
    '\U{2028}', '\U{2029}', '\U{202F}', '\U{205F}', '\U{3000}'
  }

  /** The line boundaries recognised by Python's `str.splitlines()` ("\r\n" counts as one). */
  const LineBreaks: set<char> := {
    '\n', '\r', '\U{000B}', '\U{000C}', '\U{001C}', '\U{001D}', '\U{001E}',
    '\U{0085}', '\U{2028}', '\U{2029}'
  }

  // ---------------------------------------------------------------- stripping

  /** `s.lstrip(cs)`: the longest suffix of `s` that does not start with a character of `cs`. */
  function LStripChars(s: string, cs: set<char>): (r: string)
    ensures |r| <= |s|
    ensures r != [] ==> r[0] !in cs
    decreases |s|
  {
    if s != [] && s[0] in cs then LStripChars(s[1..], cs) else s
  }

  /** `s.rstrip(cs)`: the longest prefix of `s` that does not end with a character of `cs`. */
  function RStripChars(s: string, cs: set<char>): (r: string)
    ensures |r| <= |s|
    ensures r != [] ==> r[|r| - 1] !in cs
    decreases |s|
  {
    if s != [] && s[|s| - 1] in cs then RStripChars(s[..|s| - 1], cs) else s
  }

  /** What `lstrip` keeps is a suffix of its input, and what it removes is made of `cs`. */
  lemma {:induction false} LStripCharsSuffix(s: string, cs: set<char>)
    ensures LStripChars(s, cs) == s[|s| - |LStripChars(s, cs)|..]
    ensures forall i :: 0 <= i < |s| - |LStripChars(s, cs)| ==> s[i] in cs
    decreases |s|
  {
    if s != [] && s[0] in cs {
      LStripCharsSuffix(s[1..], cs);
    }
  }

  /** What `rstrip` keeps is a prefix of its input, and what it removes is made of `cs`. */
  lemma {:induction false} RStripCharsPrefix(s: string, cs: set<char>)
    ensures RStripChars(s, cs) == s[..|RStripChars(s, cs)|]
    ensures forall i :: |RStripChars(s, cs)| <= i < |s| ==> s[i] in cs
    decreases |s|
  {
    if s != [] && s[|s| - 1] in cs {
      RStripCharsPrefix(s[..|s| - 1], cs);
    }
  }

  /** `s.strip(cs)`: both ends. */
  function StripChars(s: string, cs: set<char>): string
  {
    LStripChars(RStripChars(s, cs), cs)
  }

  /** `s.strip()` */
  function Strip(s: string): string
  {
    StripChars(s, Whitespace)
  }

  /** `s.rstrip()` */
  function RStrip(s: string): string
  {
    RStripChars(s, Whitespace)
  }

  /** A string that neither starts nor ends with a character of `cs` is left as it is. */
  lemma StripCharsNoop(s: string, cs: set<char>)
    requires s != [] ==> s[0] !in cs && s[|s| - 1] !in cs
    ensures StripChars(s, cs) == s
  {
  }

  // ---------------------------------------------------------------- case

  /** `str.lower()` restricted to ASCII letters; every other code point is kept. */
  function LowerChar(c: char): char
  {
    if 'A' <= c <= 'Z' then (c as int + 32) as char else c
  }

  function Lower(s: string): (r: string)
    ensures |r| == |s|
    ensures forall i :: 0 <= i < |s| ==> r[i] == LowerChar(s[i])
  {
    if s == [] then [] else [LowerChar(s[0])] + Lower(s[1..])
  }

  // ---------------------------------------------------------------- search

  /** `s.startswith(p)` */
  predicate StartsWith(s: string, p: string)
  {
    |p| <= |s| && s[..|p|] == p
  }

  /** `sub` occurs in `s` at index `i`. */
  predicate OccursAt(s: string, sub: string, i: nat)
  {
    i + |sub| <= |s| && s[i..i + |sub|] == sub
  }

  /** The first index at or after `start` where `sub` occurs in `s`. */
  function FindFrom(s: string, sub: string, start: nat): (r: Option<nat>)
    ensures r.Some? ==> start <= r.value && OccursAt(s, sub, r.value)
    ensures r.Some? ==> forall i: nat :: start <= i < r.value ==> !OccursAt(s, sub, i)
    ensures r.None? ==> forall i: nat :: start <= i ==> !OccursAt(s, sub, i)
    decreases |s| - start
  {
    if start + |sub| > |s| then None
    else if OccursAt(s, sub, start) then Some(start)
    else FindFrom(s, sub, start + 1)
  }

  /** `s.find(sub)` without the -1: the first index at which `sub` occurs. */
  function Find(s: string, sub: string): Option<nat>
  {
    FindFrom(s, sub, 0)
  }

  /** `sub in s` */
  predicate Contains(s: string, sub: string)
  {
    Find(s, sub).Some?
  }

  /** `s.partition(sep)[2]`: the text after the first occurrence of `sep`, or "" when there is none. */
  function TextAfter(s: string, sep: string): (r: string)
    ensures Contains(s, sep) ==> s == s[..Find(s, sep).value] + sep + r
    ensures !Contains(s, sep) ==> r == ""
  {
    match Find(s, sep)
    case None => ""
    case Some(k) =>
      assert s == s[..k] + s[k..k + |sep|] + s[k + |sep|..];
      s[k + |sep|..]
  }

  // ---------------------------------------------------------------- split and join

  /** Number of occurrences of `c` in `s`. */
  function Count(s: string, c: char): nat
  {
    if s == [] then 0 else (if s[0] == c then 1 else 0) + Count(s[1..], c)
  }

  /** `s.split(sep)` for a one-character separator: never empty, empty fields kept. */
  function Split(s: string, sep: char): (parts: seq<string>)
    ensures |parts| >= 1
    ensures forall p :: p in parts ==> sep !in p
  {
    if s == [] then [""]
    else
      var rest := Split(s[1..], sep);
      if s[0] == sep then [""] + rest
      else [[s[0]] + rest[0]] + rest[1..]
  }

  /** `sep.join(parts)` */
  function Join(parts: seq<string>, sep: string): string
  {
    if parts == [] then ""
    else if |parts| == 1 then parts[0]
    else parts[0] + sep + Join(parts[1..], sep)
  }

  /** Splitting on `sep` and joining the pieces with `sep` gives back the string. */
  lemma {:induction false} JoinSplit(s: string, sep: char)
    ensures Join(Split(s, sep), [sep]) == s
  {
    if s != [] {
      JoinSplit(s[1..], sep);
      var rest := Split(s[1..], sep);
      if s[0] != sep {
        var parts := Split(s, sep);
        if |rest| == 1 {
          assert parts == [[s[0]] + rest[0]];
        } else {
          assert parts[1..] == rest[1..];
          assert Join(rest, [sep]) == rest[0] + [sep] + Join(rest[1..], [sep]);
        }
      }
    }
  }

  /** `s.split(sep)` has one more field than `s` has separators. */
  lemma {:induction false} SplitCount(s: string, sep: char)
    ensures |Split(s, sep)| == Count(s, sep) + 1
  {
    if s != [] {
      SplitCount(s[1..], sep);
    }
  }

  /** Joining separator-free fields with `sep` and splitting again gives back the fields. */
  lemma {:induction false} SplitJoin(parts: seq<string>, sep: char)
    requires parts != []
    requires forall p :: p in parts ==> sep !in p
    ensures Split(Join(parts, [sep]), sep) == parts
  {
    if |parts| == 1 {
      SplitNoSeparator(parts[0], sep);
    } else {
      SplitJoin(parts[1..], sep);
      SplitPrefixed(parts[0], Join(parts[1..], [sep]), sep);
      assert Join(parts, [sep]) == parts[0] + ([sep] + Join(parts[1..], [sep]));
    }
  }

  lemma {:induction false} SplitNoSeparator(s: string, sep: char)
    requires sep !in s
    ensures Split(s, sep) == [s]
  {
    if s != [] {
      SplitNoSeparator(s[1..], sep);
      assert [s[0]] + s[1..] == s;
    }
  }

  /** Splitting `p + sep + t` where `p` is separator-free yields `p` followed by the fields of `t`. */
  lemma {:induction false} SplitPrefixed(p: string, t: string, sep: char)
    requires sep !in p
    ensures Split(p + [sep] + t, sep) == [p] + Split(t, sep)
  {
    if p == [] {
      assert ([] + [sep] + t)[1..] == t;
    } else {
      SplitPrefixed(p[1..], t, sep);
      assert (p + [sep] + t)[1..] == p[1..] + [sep] + t;
      assert [p[0]] + p[1..] == p;
    }
  }

  // ---------------------------------------------------------------- lines

  /** Index of the first line boundary in `s`, or |s|. */
  function FirstBreak(s: string): (k: nat)
    ensures k <= |s|
    ensures k < |s| ==> s[k] in LineBreaks
    ensures forall i :: 0 <= i < k ==> s[i] !in LineBreaks
  {
    if s == [] || s[0] in LineBreaks then 0 else 1 + FirstBreak(s[1..])
  }

  /** `s.splitlines()`: no trailing empty line, "\r\n" is one boundary. */
  function SplitLines(s: string): (lines: seq<string>)
    ensures forall k, i :: 0 <= k < |lines| && 0 <= i < |lines[k]| ==> lines[k][i] !in LineBreaks
    ensures s == [] <==> lines == []
    decreases |s|
  {
    if s == [] then []
    else
      var k := FirstBreak(s);
      if k == |s| then [s]
      else
        var width := if s[k] == '\r' && k + 1 < |s| && s[k + 1] == '\n' then 2 else 1;
        [s[..k]] + SplitLines(s[k + width..])
  }

  // ---------------------------------------------------------------- integers

  predicate IsDigit(c: char)
  {
    '0' <= c <= '9'
  }

  function DigitValue(c: char): nat
    requires IsDigit(c)
  {
    c as int - '0' as int
  }

  function DigitChar(d: nat): (c: char)
    requires d < 10
    ensures IsDigit(c) && DigitValue(c) == d
  {
    ('0' as int + d) as char
  }

  /** `str(n)` for a natural number. */
  function NatToString(n: nat): (r: string)
    ensures r != []
    ensures forall i :: 0 <= i < |r| ==> IsDigit(r[i])
  {
    if n < 10 then [DigitChar(n)] else NatToString(n / 10) + [DigitChar(n % 10)]
  }

  /** `str(n)` */
  function IntToString(n: int): (r: string)
    ensures r != [] && IsDigit(r[|r| - 1])
    ensures r[0] == '-' || IsDigit(r[0])
  {
    if n < 0 then "-" + NatToString(-n) else NatToString(n)
  }

  /** The body of a base-10 literal accepted by `int()`: digits, with single
      underscores allowed between two digits. */
  predicate DigitString(s: string)
  {
    && s != []
    && IsDigit(s[0])
    && IsDigit(s[|s| - 1])
    && forall i :: 0 <= i < |s| ==>
         IsDigit(s[i]) || (0 < i < |s| - 1 && s[i] == '_' && IsDigit(s[i - 1]) && IsDigit(s[i + 1]))
  }

  /** The value of a digit string, underscores ignored. */
  function DigitsValue(s: string): nat
  {
    if s == [] then 0
    else if IsDigit(s[|s| - 1]) then DigitsValue(s[..|s| - 1]) * 10 + DigitValue(s[|s| - 1])
    else DigitsValue(s[..|s| - 1])
  }

  /** `int(s)` in base 10: surrounding whitespace, an optional sign, then a digit string;
      None where Python raises ValueError. */
  function ParseInt(s: string): Option<int>
  {
    ParseSigned(Strip(s))
  }

  /** The default `sys.get_int_max_str_digits()`: `int()` of a decimal text with
      more digits raises ValueError, and so does `str()` of an integer with more. */
  const MaxStrDigits := 4300

  /** The number of digits in `s`, underscores not counted. */
  function DigitCount(s: string): nat
  {
    if s == [] then 0 else DigitCount(s[..|s| - 1]) + (if IsDigit(s[|s| - 1]) then 1 else 0)
  }

  /** `int` of an already stripped text. */
  function ParseSigned(t: string): Option<int>
  {
    if |t| > 0 && (t[0] == '+' || t[0] == '-') then
      if DigitString(t[1..]) && DigitCount(t[1..]) <= MaxStrDigits then
        var v: int := DigitsValue(t[1..]);
        Some(if t[0] == '-' then -v else v)
      else None
    else if DigitString(t) && DigitCount(t) <= MaxStrDigits then Some(DigitsValue(t))
    else None
  }

  /** `str(n)` does not raise: its digits are within the limit. */
  predicate StrFits(n: int)
  {
    |NatToString(if n < 0 then -n else n)| <= MaxStrDigits
  }

  lemma {:induction false} DigitCountOfDigits(s: string)
    requires forall i :: 0 <= i < |s| ==> IsDigit(s[i])
    ensures DigitCount(s) == |s|
  {
    if s != [] {
      DigitCountOfDigits(s[..|s| - 1]);
    }
  }

  /** `str(n)` is a digit string denoting `n`. */
  lemma {:induction false} NatToStringValue(n: nat)
    ensures DigitString(NatToString(n))
    ensures DigitsValue(NatToString(n)) == n
  {
    var r := NatToString(n);
    if n >= 10 {
      NatToStringValue(n / 10);
      var p := NatToString(n / 10);
      assert r[..|r| - 1] == p;
    }
  }

  /** `str(n)` carries no surrounding whitespace. */
  lemma IntToStringStripped(n: int)
    ensures Strip(IntToString(n)) == IntToString(n)
  {
    var s := IntToString(n);
    IntToStringChars(n);
    SignOrDigitNotSpace(s[0]);
    SignOrDigitNotSpace(s[|s| - 1]);
    StripCharsNoop(s, Whitespace);
  }

  lemma SignOrDigitNotSpace(c: char)
    requires c == '-' || IsDigit(c)
    ensures c !in Whitespace
  {
  }

  /** `int(str(n)) == n` */
  lemma ParseIntRoundTrip(n: int)
    requires StrFits(n)
    ensures ParseInt(IntToString(n)) == Some(n)
  {
    IntToStringStripped(n);
    ParseSignedRoundTrip(n);
  }

  lemma ParseSignedRoundTrip(n: int)
    requires StrFits(n)
    ensures ParseSigned(IntToString(n)) == Some(n)
  {
    if n < 0 {
      assert IntToString(n) == "-" + NatToString(-n);
      ParseSignedNegative(-n);
    } else {
      assert IntToString(n) == NatToString(n);
      ParseSignedDigits(n);
    }
  }

  lemma ParseSignedDigits(n: nat)
    requires |NatToString(n)| <= MaxStrDigits
    ensures ParseSigned(NatToString(n)) == Some(n)
  {
    NatToStringValue(n);
    DigitCountOfDigits(NatToString(n));
    var s := NatToString(n);
    assert s[0] != '+' && s[0] != '-';
  }

  lemma ParseSignedNegative(m: nat)
    requires |NatToString(m)| <= MaxStrDigits
    ensures ParseSigned("-" + NatToString(m)) == Some(-(m as int))
  {
    var d := NatToString(m);
    NatToStringValue(m);
    DigitCountOfDigits(d);
    var s := "-" + d;
    assert s[0] == '-' && s[1..] == d;
  }

  /** `str(n)` is made of digits and a leading minus sign only. */
  lemma IntToStringChars(n: int)
    ensures forall k :: 0 <= k < |IntToString(n)| ==> IntToString(n)[k] == '-' || IsDigit(IntToString(n)[k])
  {
    if n < 0 {
      assert IntToString(n) == "-" + NatToString(-n);
    }
  }

  /** A single line of text: no '\n' inside. */
  predicate NoNewline(s: string)
  {
    '\n' !in s
  }

  lemma IntToStringNoNewline(n: int)
    ensures NoNewline(IntToString(n))
  {
    IntToStringChars(n);
  }
}
