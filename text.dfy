/**
 * String operations with the semantics of the .NET members the cmdlets call:
 * ordinal `Replace`, `Contains`, `StartsWith`, `LastIndexOf`, `Trim`, `Split`,
 * `string.Join`, `string.IsNullOrWhiteSpace`, `int.TryParse` and integer formatting.
 */
module Text {
  import opened Wrappers

  /** A C# string reference; `None` is `null`. */
  type NString = Option<string>

  /** `Environment.NewLine` on Windows, which `StringBuilder.AppendLine` also ends each line with. */
  const NewLine := "\r\n"

  /** `char.IsWhiteSpace`: TAB..CR, the Unicode space separators, NEL, and the line and paragraph separators. */
  predicate IsWhiteSpace(c: char) {
    ('\t' <= c <= '\r') || c == ' ' || c == '\U{85}' || c == '\U{A0}' || c == '\U{1680}'
    || ('\U{2000}' <= c <= '\U{200A}') || c == '\U{2028}' || c == '\U{2029}'
    || c == '\U{202F}' || c == '\U{205F}' || c == '\U{3000}'
  }

  predicate IsBlank(s: string) {
    forall i :: 0 <= i < |s| ==> IsWhiteSpace(s[i])
  }

  /** `string.IsNullOrWhiteSpace`. */
  predicate IsNullOrWhiteSpace(s: NString) {
    s.None? || IsBlank(s.value)
  }

  /** `string.IsNullOrEmpty`. */
  predicate IsNullOrEmpty(s: NString) {
    s.None? || s.value == ""
  }

  /** A string reference inside an interpolation: `null` reads as "". */
  function OrEmpty(s: NString): string {
    if s.Some? then s.value else ""
  }

  function LowerChar(c: char): char {
    if 'A' <= c <= 'Z' then (c as int + 32) as char else c
  }

  /** `ToLower`, on the ASCII letters (culture-specific folding is not modelled). */
  function ToLower(s: string): (r: string)
    ensures |r| == |s|
    ensures forall i :: 0 <= i < |s| ==> r[i] == LowerChar(s[i])
  {
    seq(|s|, i requires 0 <= i < |s| => LowerChar(s[i]))
  }

  /** `ToLower` leaves a string without upper-case ASCII letters unchanged. */
  lemma ToLowerOfLower(s: string)
    requires forall i :: 0 <= i < |s| ==> !('A' <= s[i] <= 'Z')
    ensures ToLower(s) == s
  {
  }

  predicate EqualsIgnoreCase(a: string, b: string) {
    ToLower(a) == ToLower(b)
  }

  /**
   * `PSHelper.IsEqual`, which is not part of this model: taken to be PowerShell's
   * case-insensitive `-eq` on two strings, with `null` equal only to `null`.
   */
  predicate IsEqual(a: NString, b: NString) {
    if a.Some? && b.Some? then EqualsIgnoreCase(a.value, b.value) else a == b
  }

  /** Against an all-lower-case text, `IsEqual` is a comparison of the lower-cased string. */
  lemma IsEqualLowerText(name: string, text: string)
    requires forall i :: 0 <= i < |text| ==> !('A' <= text[i] <= 'Z')
    ensures IsEqual(Some(name), Some(text)) <==> ToLower(name) == text
  {
    ToLowerOfLower(text);
  }

  /** `PSHelper.ConvertTo<bool>` of a string: PowerShell converts a string to `true` iff it is non-empty. */
  predicate Truthy(s: NString) {
    s.Some? && s.value != ""
  }

  predicate StartsWith(s: string, prefix: string) {
    |prefix| <= |s| && s[..|prefix|] == prefix
  }

  predicate EndsWith(s: string, suffix: string) {
    |suffix| <= |s| && s[|s| - |suffix|..] == suffix
  }

  lemma EndsWithConcat(a: string, b: string)
    ensures EndsWith(a + b, b)
  {
    assert (a + b)[|a + b| - |b|..] == b;
  }

  /** Ordinal `Contains`: `part` occurs somewhere in `s`. */
  predicate Contains(s: string, part: string)
    decreases |s|
  {
    StartsWith(s, part) || (s != [] && Contains(s[1..], part))
  }

  lemma {:induction false} ContainsAt(s: string, part: string, i: nat)
    requires i + |part| <= |s| && s[i..i + |part|] == part
    ensures Contains(s, part)
  {
    if i == 0 {
      assert s[..|part|] == s[i..i + |part|];
    } else {
      assert s[1..][i - 1..i - 1 + |part|] == s[i..i + |part|];
      ContainsAt(s[1..], part, i - 1);
    }
  }

  /** Whatever is concatenated around a string, the result contains it. */
  lemma ContainsPart(a: string, b: string, c: string)
    ensures Contains(a + b + c, b)
  {
    assert (a + b + c)[|a|..|a| + |b|] == b;
    ContainsAt(a + b + c, b, |a|);
  }

  /** Strings that become equal by appending the same text were equal. */
  lemma CancelRight(a: string, b: string, c: string)
    ensures a + c == b + c ==> a == b
  {
    if a + c == b + c {
      assert a == (a + c)[..|a|];
    }
  }

  /** Appending in two steps is appending the two parts at once. */
  lemma AppendRegroup<T>(a: seq<T>, b: seq<T>, c: seq<T>)
    ensures (a + b) + c == a + (b + c)
  {
  }

  /** Strings that become equal by prefixing the same text were equal. */
  lemma CancelLeft(p: string, a: string, b: string)
    ensures p + a == p + b ==> a == b
  {
    if p + a == p + b {
      assert a == (p + a)[|p|..];
    }
  }

  /** A string contains what it starts with. */
  lemma ContainsPrefix(a: string, b: string)
    ensures Contains(a + b, a)
  {
    assert (a + b)[..|a|] == a;
  }

  /** A string contains what was appended to it last. */
  lemma ContainsSuffix(a: string, b: string)
    ensures Contains(a + b, b)
  {
    assert (a + b)[|a|..|a| + |b|] == b;
    ContainsAt(a + b, b, |a|);
  }

  /** Appending text keeps every occurrence. */
  lemma {:induction false} ContainsExtend(s: string, part: string, c: string)
    requires Contains(s, part)
    ensures Contains(s + c, part)
    decreases |s|
  {
    if StartsWith(s, part) {
      assert (s + c)[..|part|] == s[..|part|];
    } else {
      ContainsExtend(s[1..], part, c);
      assert (s + c)[1..] == s[1..] + c;
    }
  }

  /** Prepending text keeps every occurrence. */
  lemma {:induction false} ContainsPrepend(h: string, s: string, part: string)
    requires Contains(s, part)
    ensures Contains(h + s, part)
    decreases |h|
  {
    if h == [] {
      assert h + s == s;
    } else {
      ContainsPrepend(h[1..], s, part);
      assert (h + s)[1..] == h[1..] + s;
    }
  }

  /** A character occurs in `s` iff the one-character string does. */
  lemma {:induction false} ContainsChar(s: string, c: char)
    ensures Contains(s, [c]) <==> c in s
  {
    if s != [] {
      ContainsChar(s[1..], c);
      assert s == [s[0]] + s[1..];
    }
  }

  /**
   * Ordinal `Replace(pattern, replacement)`: every non-overlapping occurrence of
   * `pattern`, found scanning from the left, is replaced.
   */
  function ReplaceAll(s: string, pattern: string, replacement: string): string
    requires pattern != []
    decreases |s|
  {
    if |s| < |pattern| then s
    else if s[..|pattern|] == pattern then replacement + ReplaceAll(s[|pattern|..], pattern, replacement)
    else [s[0]] + ReplaceAll(s[1..], pattern, replacement)
  }

  /** Replacing a pattern that does not occur changes nothing. */
  lemma {:induction false} ReplaceAllAbsent(s: string, pattern: string, replacement: string)
    requires pattern != [] && !Contains(s, pattern)
    ensures ReplaceAll(s, pattern, replacement) == s
  {
    if |s| >= |pattern| {
      ReplaceAllAbsent(s[1..], pattern, replacement);
      assert s == [s[0]] + s[1..];
    }
  }

  /** Text before the first character of the pattern is copied as it is. */
  lemma {:induction false} ReplaceAllSkip(a: string, b: string, pattern: string, replacement: string)
    requires pattern != [] && pattern[0] !in a
    ensures ReplaceAll(a + b, pattern, replacement) == a + ReplaceAll(b, pattern, replacement)
    decreases |a|
  {
    if a != [] {
      assert (a + b)[1..] == a[1..] + b;
      ReplaceAllSkip(a[1..], b, pattern, replacement);
      if |a + b| >= |pattern| {
        assert (a + b)[..|pattern|][0] == a[0];
        assert (a + b)[..|pattern|] != pattern;
        assert ReplaceAll(a + b, pattern, replacement) == [a[0]] + ReplaceAll(a[1..] + b, pattern, replacement);
        assert [a[0]] + (a[1..] + ReplaceAll(b, pattern, replacement)) == a + ReplaceAll(b, pattern, replacement);
      } else {
        assert ReplaceAll(b, pattern, replacement) == b;
      }
    } else {
      assert a + b == b;
    }
  }

  /** An occurrence at the start is replaced, and the scan goes on after it. */
  lemma ReplaceAllHead(b: string, pattern: string, replacement: string)
    requires pattern != []
    ensures ReplaceAll(pattern + b, pattern, replacement) == replacement + ReplaceAll(b, pattern, replacement)
  {
    assert (pattern + b)[..|pattern|] == pattern;
    assert (pattern + b)[|pattern|..] == b;
  }

  /**
   * Replacing by a shorter text never lengthens a string, and shortens it
   * whenever the pattern occurs.
   */
  lemma {:induction false} ReplaceAllShortens(s: string, pattern: string, replacement: string)
    requires pattern != [] && |replacement| < |pattern|
    ensures |ReplaceAll(s, pattern, replacement)| <= |s|
    ensures Contains(s, pattern) ==> |ReplaceAll(s, pattern, replacement)| < |s|
    decreases |s|
  {
    if |s| < |pattern| {
      if s != [] {
        ReplaceAllShortens(s[1..], pattern, replacement);
      }
    } else if s[..|pattern|] == pattern {
      ReplaceAllShortens(s[|pattern|..], pattern, replacement);
    } else {
      ReplaceAllShortens(s[1..], pattern, replacement);
    }
  }

  /** Replacing a single character by a text without it leaves no occurrence of that character. */
  lemma {:induction false} ReplaceCharEliminates(s: string, c: char, replacement: string)
    requires c !in replacement
    ensures c !in ReplaceAll(s, [c], replacement)
  {
    if |s| >= 1 {
      if s[..1] == [c] {
        ReplaceCharEliminates(s[1..], c, replacement);
      } else {
        assert s[0] != c by { assert s[..1] == [s[0]]; }
        ReplaceCharEliminates(s[1..], c, replacement);
      }
    }
  }

  /** Replacing one character by another changes exactly the occurrences of the first, in place. */
  lemma {:induction false} ReplaceCharPointwise(s: string, a: char, b: char)
    ensures |ReplaceAll(s, [a], [b])| == |s|
    ensures forall i :: 0 <= i < |s| ==> ReplaceAll(s, [a], [b])[i] == (if s[i] == a then b else s[i])
    decreases |s|
  {
    if s != [] {
      ReplaceCharPointwise(s[1..], a, b);
      var rest := ReplaceAll(s[1..], [a], [b]);
      assert s[..1] == [s[0]];
      assert ReplaceAll(s, [a], [b]) == [if s[0] == a then b else s[0]] + rest;
    }
  }

  /** Characters that are neither the pattern's nor the replacement's survive and nothing new appears. */
  lemma {:induction false} ReplaceAllKeepsOthers(s: string, pattern: string, replacement: string, x: char)
    requires pattern != [] && x !in pattern && x !in replacement
    ensures x in ReplaceAll(s, pattern, replacement) <==> x in s
  {
    if |s| < |pattern| {
    } else if s[..|pattern|] == pattern {
      ReplaceAllKeepsOthers(s[|pattern|..], pattern, replacement, x);
      assert s == s[..|pattern|] + s[|pattern|..];
    } else {
      ReplaceAllKeepsOthers(s[1..], pattern, replacement, x);
      assert s == [s[0]] + s[1..];
    }
  }

  /** Drops the leading characters that satisfy `drop`. */
  function TrimStartWhere(s: string, drop: char -> bool): (r: string)
    ensures EndsWith(s, r)
    ensures r == [] || !drop(r[0])
    ensures forall i :: 0 <= i < |s| - |r| ==> drop(s[i])
    decreases |s|
  {
    if s != [] && drop(s[0]) then TrimStartWhere(s[1..], drop) else s
  }

  /** Drops the trailing characters that satisfy `drop`. */
  function TrimEndWhere(s: string, drop: char -> bool): (r: string)
    ensures StartsWith(s, r)
    ensures r == [] || !drop(r[|r| - 1])
    ensures forall i :: |r| <= i < |s| ==> drop(s[i])
    decreases |s|
  {
    if s != [] && drop(s[|s| - 1]) then TrimEndWhere(s[..|s| - 1], drop) else s
  }

  function TrimWhere(s: string, drop: char -> bool): string {
    TrimEndWhere(TrimStartWhere(s, drop), drop)
  }

  /** `Trim()`: leading and trailing white space removed. */
  function Trim(s: string): string {
    TrimWhere(s, IsWhiteSpace)
  }

  /** A trimmed string neither starts nor ends with a dropped character. */
  lemma TrimWhereEnds(s: string, drop: char -> bool)
    ensures var e := TrimWhere(s, drop); e == [] || (!drop(e[0]) && !drop(e[|e| - 1]))
  {
    var t := TrimStartWhere(s, drop);
    var e := TrimEndWhere(t, drop);
    if e != [] {
      assert e[0] == t[..|e|][0];
    }
  }

  /** Trimming a string that neither starts nor ends with a dropped character changes nothing. */
  lemma TrimWhereIdentity(s: string, drop: char -> bool)
    requires s == [] || (!drop(s[0]) && !drop(s[|s| - 1]))
    ensures TrimWhere(s, drop) == s
  {
  }

  /** `Split(separator)` with no options: the pieces between separators, empty pieces included. */
  function Split(s: string, sep: char): (r: seq<string>)
    ensures |r| >= 1
    ensures forall i :: 0 <= i < |r| ==> sep !in r[i]
    decreases |s|
  {
    if s == [] then [""]
    else
      var rest := Split(s[1..], sep);
      if s[0] == sep then [""] + rest else [[s[0]] + rest[0]] + rest[1..]
  }

  /** The non-empty pieces, in order. */
  function NonEmpty(parts: seq<string>): (r: seq<string>)
    ensures forall i :: 0 <= i < |r| ==> r[i] != ""
    ensures forall i :: 0 <= i < |r| ==> r[i] in parts
  {
    if parts == [] then []
    else if parts[0] == "" then NonEmpty(parts[1..])
    else [parts[0]] + NonEmpty(parts[1..])
  }

  /** `Split(new[] { separator }, StringSplitOptions.RemoveEmptyEntries)`. */
  function SplitRemoveEmpty(s: string, sep: char): (r: seq<string>)
    ensures forall i :: 0 <= i < |r| ==> r[i] != "" && sep !in r[i]
  {
    NonEmpty(Split(s, sep))
  }

  function Concat(parts: seq<string>): string {
    if parts == [] then "" else parts[0] + Concat(parts[1..])
  }

  lemma {:induction false} ConcatNonEmpty(parts: seq<string>)
    ensures Concat(NonEmpty(parts)) == Concat(parts)
  {
    if parts != [] {
      ConcatNonEmpty(parts[1..]);
    }
  }

  lemma {:induction false} ConcatSplit(s: string, sep: char)
    ensures Concat(Split(s, sep)) == ReplaceAll(s, [sep], "")
  {
    if s != [] {
      ConcatSplit(s[1..], sep);
      var rest := Split(s[1..], sep);
      assert s[..1] == [s[0]];
      if s[0] != sep {
        assert Concat([[s[0]] + rest[0]] + rest[1..]) == [s[0]] + Concat(rest);
      }
    }
  }

  /**
   * Splitting with empty entries removed loses exactly the separators: the pieces,
   * put back together, are the input with every separator deleted.
   */
  lemma SplitRemoveEmptyConcat(s: string, sep: char)
    ensures Concat(SplitRemoveEmpty(s, sep)) == ReplaceAll(s, [sep], "")
  {
    ConcatNonEmpty(Split(s, sep));
    ConcatSplit(s, sep);
  }

  /** The texts `f` gives for each element, concatenated in order. */
  function ConcatMap<T>(xs: seq<T>, f: T -> string): string {
    if xs == [] then "" else f(xs[0]) + ConcatMap(xs[1..], f)
  }

  /** The text of element `i` sits between the texts of the elements before and after it. */
  lemma {:induction false} ConcatMapSplit<T>(xs: seq<T>, f: T -> string, i: nat)
    requires i < |xs|
    ensures ConcatMap(xs, f) == ConcatMap(xs[..i], f) + f(xs[i]) + ConcatMap(xs[i + 1..], f)
  {
    if i == 0 {
      assert xs[..0] == [];
      assert xs[1..] == xs[i + 1..];
    } else {
      var tail := xs[1..];
      ConcatMapSplit(tail, f, i - 1);
      assert tail[..i - 1] == xs[..i][1..];
      assert tail[i..] == xs[i + 1..];
      assert tail[i - 1] == xs[i];
      assert xs[..i][0] == xs[0];
    }
  }

  /** Appending one element appends its text. */
  lemma {:induction false} ConcatMapSnoc<T>(xs: seq<T>, f: T -> string, x: T)
    ensures ConcatMap(xs + [x], f) == ConcatMap(xs, f) + f(x)
  {
    if xs != [] {
      assert (xs + [x])[1..] == xs[1..] + [x];
      ConcatMapSnoc(xs[1..], f, x);
    }
  }

  /** `string.Join(separator, parts)`. */
  function Join(sep: string, parts: seq<string>): string {
    if parts == [] then ""
    else if |parts| == 1 then parts[0]
    else parts[0] + sep + Join(sep, parts[1..])
  }

  /** `part` occurs in `s` starting at index `j`. */
  predicate OccursAt(s: string, part: string, j: int) {
    0 <= j && j + |part| <= |s| && s[j..j + |part|] == part
  }

  /** The start of the last occurrence of `part` at or before `from`, or -1. */
  function LastIndexOfFrom(s: string, part: string, from: int): (r: int)
    requires -1 <= from <= |s| - |part|
    ensures -1 <= r <= from
    ensures r >= 0 ==> OccursAt(s, part, r)
    ensures forall j :: r < j <= from ==> !OccursAt(s, part, j)
    decreases from + 1
  {
    if from < 0 then -1
    else if s[from..from + |part|] == part then from
    else LastIndexOfFrom(s, part, from - 1)
  }

  /** `LastIndexOf(part, StringComparison.OrdinalIgnoreCase)`, ASCII case folding. */
  function LastIndexOfIgnoreCase(s: string, part: string): (r: int)
    ensures -1 <= r && (r >= 0 ==> r <= |s| - |part|)
    ensures r >= 0 ==> EqualsIgnoreCase(s[r..r + |part|], part)
  {
    if |part| > |s| then -1
    else
      var r := LastIndexOfFrom(ToLower(s), ToLower(part), |s| - |part|);
      assert r >= 0 ==> ToLower(s[r..r + |part|]) == ToLower(s)[r..r + |part|];
      r
  }

  predicate IsDigit(c: char) {
    '0' <= c <= '9'
  }

  predicate AllDigits(s: string) {
    forall i :: 0 <= i < |s| ==> IsDigit(s[i])
  }

  function DigitChar(d: nat): (c: char)
    requires d < 10
    ensures IsDigit(c)
  {
    ('0' as int + d) as char
  }

  /** The decimal digits of `n`, most significant first, with no leading zero. */
  function NatToString(n: nat): (r: string)
    ensures r != [] && AllDigits(r)
    decreases n
  {
    if n < 10 then [DigitChar(n)] else NatToString(n / 10) + [DigitChar(n % 10)]
  }

  /** `int.ToString()` (invariant culture). */
  function IntToString(i: int): string {
    if i < 0 then "-" + NatToString(-i) else NatToString(i)
  }

  /** The value of a string of decimal digits. */
  function DigitsValue(s: string): nat
    requires AllDigits(s)
  {
    if s == [] then 0 else DigitsValue(s[..|s| - 1]) * 10 + (s[|s| - 1] as int - '0' as int)
  }

  lemma {:induction false} DigitsValueOfNatToString(n: nat)
    ensures DigitsValue(NatToString(n)) == n
    decreases n
  {
    if n >= 10 {
      DigitsValueOfNatToString(n / 10);
      var s := NatToString(n);
      assert s[..|s| - 1] == NatToString(n / 10);
    }
  }

  /** The decimal text of a natural number starts with a digit, never with a sign. */
  lemma LeadingDigit(n: nat)
    ensures IsDigit(NatToString(n)[0])
  {
  }

  /** Different integers are written differently. */
  lemma IntToStringInjective(a: int, b: int)
    requires IntToString(a) == IntToString(b)
    ensures a == b
  {
    var na: nat := if a < 0 then -a else a;
    var nb: nat := if b < 0 then -b else b;
    DigitsValueOfNatToString(na);
    DigitsValueOfNatToString(nb);
    var s := IntToString(a);
    if a < 0 && b < 0 {
      assert s[1..] == NatToString(na);
      assert IntToString(b)[1..] == NatToString(nb);
    } else {
      LeadingDigit(na);
      LeadingDigit(nb);
    }
  }

  const Int32Min: int := -0x8000_0000
  const Int32Max: int := 0x7FFF_FFFF

  /** The white space `int.Parse` skips around a number. */
  predicate IsParseSpace(c: char) {
    ('\t' <= c <= '\r') || c == ' '
  }

  /**
   * `int.TryParse(s, out v)` with the default `NumberStyles.Integer`: optional white
   * space, an optional sign, decimal digits, optional white space, in 32-bit range.
   */
  function ParseInt32(s: NString): (r: Option<int>)
    ensures r.Some? ==> Int32Min <= r.value <= Int32Max
  {
    if s.None? then None
    else
      var t := TrimWhere(s.value, IsParseSpace);
      var negative := t != [] && t[0] == '-';
      var digits := if t != [] && (t[0] == '-' || t[0] == '+') then t[1..] else t;
      if digits == [] || !AllDigits(digits) then None
      else
        var v: int := if negative then -(DigitsValue(digits) as int) else DigitsValue(digits);
        if Int32Min <= v <= Int32Max then Some(v) else None
  }

  /** Formatting a 32-bit integer and parsing it back gives the same integer. */
  lemma ParseInt32OfIntToString(i: int)
    requires Int32Min <= i <= Int32Max
    ensures ParseInt32(Some(IntToString(i))) == Some(i)
  {
    var s := IntToString(i);
    var n: nat := if i < 0 then -i else i;
    DigitsValueOfNatToString(n);
    assert IsDigit(s[|s| - 1]);
    assert !IsParseSpace(s[0]) && !IsParseSpace(s[|s| - 1]);
    TrimWhereIdentity(s, IsParseSpace);
    if i < 0 {
      assert s[1..] == NatToString(n);
    } else {
      assert IsDigit(s[0]);
    }
  }

  /** `p` in front of a formatted text; a format error stays an error. */
  function Prepend(p: string, o: Option<string>): Option<string> {
    if o.None? then None else Some(p + o.value)
  }

  /**
   * `string.Format(template, args)`, where `None` is the `FormatException` it
   * throws: "{{" and "}}" are a brace, "{d}" with a single digit `d` below the
   * number of arguments is that argument (a null argument is passed as ""), and
   * any other '{' or '}' is a format error.
   */
  function Format(t: string, args: seq<string>): Option<string>
    decreases |t|
  {
    if t == [] then Some("")
    else if t[0] == '{' then
      if |t| >= 2 && t[1] == '{' then Prepend("{", Format(t[2..], args))
      else if |t| >= 3 && IsDigit(t[1]) && t[2] == '}' && (t[1] as int - '0' as int) < |args|
      then Prepend(args[t[1] as int - '0' as int], Format(t[3..], args))
      else None
    else if t[0] == '}' then
      if |t| >= 2 && t[1] == '}' then Prepend("}", Format(t[2..], args)) else None
    else Prepend([t[0]], Format(t[1..], args))
  }

  predicate NoBraces(s: string) {
    '{' !in s && '}' !in s
  }

  /** Text without braces is copied as it is. */
  lemma {:induction false} FormatPlainPrefix(s: string, rest: string, args: seq<string>)
    requires NoBraces(s)
    ensures Format(s + rest, args) == Prepend(s, Format(rest, args))
    decreases |s|
  {
    if s != [] {
      var t := s + rest;
      assert t[0] == s[0] && t[1..] == s[1..] + rest;
      assert s[0] in s;
      FormatPlainPrefix(s[1..], rest, args);
      assert Format(t, args) == Prepend([s[0]], Format(s[1..] + rest, args));
      var f := Format(rest, args);
      if f.Some? {
        assert [s[0]] + (s[1..] + f.value) == s + f.value;
      }
    } else {
      assert s + rest == rest;
      if Format(rest, args).Some? {
        assert s + Format(rest, args).value == Format(rest, args).value;
      }
    }
  }

  /** "{d}" is the `d`-th argument. */
  lemma FormatArgumentPrefix(d: nat, rest: string, args: seq<string>)
    requires d < 10 && d < |args|
    ensures Format(['{', DigitChar(d), '}'] + rest, args) == Prepend(args[d], Format(rest, args))
  {
    var t := ['{', DigitChar(d), '}'] + rest;
    assert t[3..] == rest;
  }

  /** "{{" is an opening brace. */
  lemma FormatOpenEscape(rest: string, args: seq<string>)
    ensures Format("{{" + rest, args) == Prepend("{", Format(rest, args))
  {
    assert ("{{" + rest)[2..] == rest;
  }

  /** "}}" is a closing brace. */
  lemma FormatCloseEscape(rest: string, args: seq<string>)
    ensures Format("}}" + rest, args) == Prepend("}", Format(rest, args))
  {
    assert ("}}" + rest)[2..] == rest;
  }

  /** A '{' followed by anything but '{' or a digit is a format error. */
  lemma FormatStrayOpen(c: char, rest: string, args: seq<string>)
    requires c != '{' && !IsDigit(c)
    ensures Format(['{', c] + rest, args) == None
  {
  }

  /** A piece of a format template: plain text, a "{d}" placeholder, or a literal brace. */
  datatype TemplatePart = Plain(text: string) | Placeholder(index: nat) | OpenBrace | CloseBrace

  /** Parts that a template can spell: plain text without braces and single-digit placeholders. */
  predicate SpellablePart(part: TemplatePart) {
    (part.Plain? ==> NoBraces(part.text)) && (part.Placeholder? ==> part.index < 10)
  }

  predicate SpellableParts(parts: seq<TemplatePart>) {
    forall k :: 0 <= k < |parts| ==> SpellablePart(parts[k])
  }

  lemma SpellableConcat(a: seq<TemplatePart>, b: seq<TemplatePart>)
    requires SpellableParts(a) && SpellableParts(b)
    ensures SpellableParts(a + b)
  {
    assert forall k :: 0 <= k < |a + b| ==> (a + b)[k] == if k < |a| then a[k] else b[k - |a|];
  }

  /** The template text of the parts, with `open` and `close` written for the literal braces. */
  function TemplateText(parts: seq<TemplatePart>, open: string, close: string): string {
    if parts == [] then ""
    else
      (match parts[0]
         case Plain(text) => text
         case Placeholder(d) => if d < 10 then ['{', DigitChar(d), '}'] else ""
         case OpenBrace => open
         case CloseBrace => close)
      + TemplateText(parts[1..], open, close)
  }

  /** The text the parts stand for once the placeholders are filled from `args`. */
  function Filled(parts: seq<TemplatePart>, args: seq<string>): string {
    if parts == [] then ""
    else
      (match parts[0]
         case Plain(text) => text
         case Placeholder(d) => if d < |args| then args[d] else ""
         case OpenBrace => "{"
         case CloseBrace => "}")
      + Filled(parts[1..], args)
  }

  /** With its braces doubled, a template formats to the text its parts stand for. */
  lemma {:induction false} FormatEscapedTemplate(parts: seq<TemplatePart>, args: seq<string>)
    requires SpellableParts(parts)
    requires forall k :: 0 <= k < |parts| && parts[k].Placeholder? ==> parts[k].index < |args|
    ensures Format(TemplateText(parts, "{{", "}}"), args) == Some(Filled(parts, args))
  {
    if parts != [] {
      var rest := TemplateText(parts[1..], "{{", "}}");
      FormatEscapedTemplate(parts[1..], args);
      match parts[0]
      case Plain(text) => FormatPlainPrefix(text, rest, args);
      case Placeholder(d) => FormatArgumentPrefix(d, rest, args);
      case OpenBrace => FormatOpenEscape(rest, args);
      case CloseBrace => FormatCloseEscape(rest, args);
    }
  }

  /**
   * With its braces written single, a template whose first literal brace opens
   * before plain text that starts with neither a brace nor a digit is a format
   * error, whatever the arguments.
   */
  lemma {:induction false} FormatUnescapedTemplate(parts: seq<TemplatePart>, args: seq<string>, k: nat)
    requires SpellableParts(parts)
    requires k + 1 < |parts| && parts[k] == OpenBrace && parts[k + 1].Plain?
    requires parts[k + 1].text != [] && !IsDigit(parts[k + 1].text[0])
    requires forall j :: 0 <= j < k ==> parts[j].Plain? || (parts[j].Placeholder? && parts[j].index < |args|)
    ensures Format(TemplateText(parts, "{", "}"), args) == None
    decreases k
  {
    var rest := TemplateText(parts[1..], "{", "}");
    if k == 0 {
      var t := parts[1].text;
      assert t[0] in t;
      assert rest == t + TemplateText(parts[2..], "{", "}");
      FormatStrayOpen(t[0], t[1..] + TemplateText(parts[2..], "{", "}"), args);
      assert ['{', t[0]] + (t[1..] + TemplateText(parts[2..], "{", "}")) == "{" + rest;
    } else {
      FormatUnescapedTemplate(parts[1..], args, k - 1);
      match parts[0]
      case Plain(text) => FormatPlainPrefix(text, rest, args);
      case Placeholder(d) => FormatArgumentPrefix(d, rest, args);
    }
  }
}
