/**
 * String operations of the JavaScript standard library that the application
 * uses: `trim`, `join`, `split`, `toLowerCase` on ASCII text, number-to-string
 * conversion of integers, and `parseInt(s, 10)`.
 */
module Strings {

  // ---------------------------------------------------------------------------
  // Whitespace and trim
  // ---------------------------------------------------------------------------

  /**
   * The characters `String.prototype.trim` removes: ECMAScript WhiteSpace
   * (tab, vertical tab, form feed, space, no-break space, byte order mark and
   * the Unicode space separators) and LineTerminator (LF, CR, LS, PS).
   */
  predicate IsSpace(c: char)
  {
    || c == '\t' || c == '\n' || c == '\U{000B}' || c == '\U{000C}' || c == '\r'
    || c == ' ' || c == '\U{00A0}' || c == '\U{1680}'
    || ('\U{2000}' <= c <= '\U{200A}')
    || c == '\U{2028}' || c == '\U{2029}' || c == '\U{202F}' || c == '\U{205F}'
    || c == '\U{3000}' || c == '\U{FEFF}'
  }

  /** `s.trim() === ''`: every character is whitespace. */
  predicate IsBlank(s: string)
  {
    forall i :: 0 <= i < |s| ==> IsSpace(s[i])
  }

  /** Removes leading whitespace (what `trimStart` does). */
  function TrimStart(s: string): (r: string)
    ensures |r| <= |s| && r == s[|s| - |r|..]
    ensures r == [] || !IsSpace(r[0])
    ensures IsBlank(s[..|s| - |r|])
  {
    if |s| > 0 && IsSpace(s[0]) then
      var r := TrimStart(s[1..]);
      assert s[..|s| - |r|] == [s[0]] + s[1..][..|s[1..]| - |r|];
      r
    else s
  }

  /** Removes trailing whitespace (what `trimEnd` does). */
  function TrimEnd(s: string): (r: string)
    ensures |r| <= |s| && r == s[..|r|]
    ensures r == [] || !IsSpace(r[|r| - 1])
    ensures IsBlank(s[|r|..])
  {
    if |s| > 0 && IsSpace(s[|s| - 1]) then
      var r := TrimEnd(s[..|s| - 1]);
      assert s[|r|..] == s[..|s| - 1][|r|..] + [s[|s| - 1]];
      r
    else s
  }

  /**
   * `s.trim()`: the input is the result surrounded by whitespace only, and
   * the result neither starts nor ends with whitespace.
   */
  function Trim(s: string): (r: string)
    ensures r == [] <==> IsBlank(s)
    ensures r != [] ==> !IsSpace(r[0]) && !IsSpace(r[|r| - 1])
  {
    var r := TrimEnd(TrimStart(s));
    TrimEndOfTrimStart(s);
    r
  }

  lemma TrimEndOfTrimStart(s: string)
    ensures var r := TrimEnd(TrimStart(s));
      && (r == [] <==> IsBlank(s))
      && (r != [] ==> !IsSpace(r[0]) && !IsSpace(r[|r| - 1]))
  {
    var t := TrimStart(s);
    var r := TrimEnd(t);
    if r == [] {
      EmptyTrimMeansBlank(s, t);
    } else {
      assert r[0] == t[0];
    }
    if IsBlank(s) {
      BlankTrimsToEmpty(s);
    }
  }

  lemma EmptyTrimMeansBlank(s: string, t: string)
    requires t == TrimStart(s) && TrimEnd(t) == []
    ensures IsBlank(s)
  {
    var from := |s| - |t|;
    assert t == TrimEnd(t) + t[|TrimEnd(t)|..];
    assert s == s[..from] + t;
    BlankConcat(s[..from], t);
  }

  lemma BlankTrimsToEmpty(s: string)
    requires IsBlank(s)
    ensures TrimStart(s) == []
  {
  }

  lemma BlankConcat(a: string, b: string)
    requires IsBlank(a) && IsBlank(b)
    ensures IsBlank(a + b)
  {
    forall i | 0 <= i < |a + b| ensures IsSpace((a + b)[i]) {
      if i >= |a| { assert (a + b)[i] == b[i - |a|]; }
    }
  }

  lemma {:induction false} TrimStartPadded(w: string, core: string)
    requires IsBlank(w)
    requires core == [] || !IsSpace(core[0])
    ensures TrimStart(w + core) == core
    decreases |w|
  {
    if w != [] {
      assert (w + core)[1..] == w[1..] + core;
      TrimStartPadded(w[1..], core);
    }
  }

  lemma {:induction false} TrimEndPadded(core: string, w: string)
    requires IsBlank(w)
    requires core == [] || !IsSpace(core[|core| - 1])
    ensures TrimEnd(core + w) == core
    decreases |w|
  {
    if w != [] {
      assert (core + w)[..|core + w| - 1] == core + w[..|w| - 1];
      TrimEndPadded(core, w[..|w| - 1]);
    }
  }

  /**
   * The converse of Trim's contract: a text that neither starts nor ends with
   * whitespace comes back unchanged from trimming it with any whitespace around.
   */
  lemma TrimOfPadded(before: string, core: string, after: string)
    requires IsBlank(before) && IsBlank(after)
    requires core != [] && !IsSpace(core[0]) && !IsSpace(core[|core| - 1])
    ensures Trim(before + core + after) == core
  {
    assert before + core + after == before + (core + after);
    TrimStartPadded(before, core + after);
    TrimEndPadded(core, after);
  }

  // ---------------------------------------------------------------------------
  // Substrings, join and split
  // ---------------------------------------------------------------------------

  /** `s.includes(sub)`. */
  ghost predicate Contains(s: string, sub: string)
  {
    exists i :: OccursAt(s, sub, i)
  }

  /** `sub` is found in `s` starting at index `i`. */
  predicate OccursAt(s: string, sub: string, i: int)
  {
    0 <= i <= |s| - |sub| && s[i..i + |sub|] == sub
  }

  lemma ContainsPrefix(a: string, b: string)
    ensures Contains(a + b, a)
  {
    assert OccursAt(a + b, a, 0);
  }

  lemma ContainsSuffix(a: string, b: string)
    ensures Contains(a + b, b)
  {
    assert OccursAt(a + b, b, |a|);
  }

  lemma ContainsGrowRight(s: string, sub: string, t: string)
    requires Contains(s, sub)
    ensures Contains(s + t, sub)
  {
    var i :| OccursAt(s, sub, i);
    assert (s + t)[i..i + |sub|] == s[i..i + |sub|];
    assert OccursAt(s + t, sub, i);
  }

  lemma ContainsGrowLeft(t: string, s: string, sub: string)
    requires Contains(s, sub)
    ensures Contains(t + s, sub)
  {
    var i :| OccursAt(s, sub, i);
    assert (t + s)[|t| + i..|t| + i + |sub|] == s[i..i + |sub|];
    assert OccursAt(t + s, sub, |t| + i);
  }

  lemma ContainsMiddle(a: string, m: string, b: string)
    ensures Contains(a + m + b, m)
  {
    assert (a + m + b)[|a|..|a| + |m|] == m;
    assert OccursAt(a + m + b, m, |a|);
  }

  /** Containment is transitive. */
  lemma ContainsTransitive(s: string, mid: string, sub: string)
    requires Contains(s, mid) && Contains(mid, sub)
    ensures Contains(s, sub)
  {
    var i :| OccursAt(s, mid, i);
    var j :| OccursAt(mid, sub, j);
    assert s[i..i + |mid|] == mid;
    forall k | 0 <= k < |sub| ensures s[i + j..i + j + |sub|][k] == sub[k] {
      assert s[i + j + k] == s[i..i + |mid|][j + k] == mid[j + k] == mid[j..j + |sub|][k];
    }
    assert OccursAt(s, sub, i + j);
  }

  /** `s.startsWith(prefix)`. */
  predicate StartsWith(s: string, prefix: string)
  {
    |prefix| <= |s| && s[..|prefix|] == prefix
  }

  lemma StartsWithGrow(s: string, prefix: string, t: string)
    requires StartsWith(s, prefix)
    ensures StartsWith(s + t, prefix)
  {
    assert (s + t)[..|prefix|] == s[..|prefix|];
  }

  lemma StartsWithConcat(a: string, b: string)
    ensures StartsWith(a + b, a)
  {
    assert (a + b)[..|a|] == a;
  }

  /** The last character of a concatenation with a non-empty right part is that part's last. */
  lemma LastOfConcat(a: string, b: string)
    requires |b| > 0
    ensures (a + b)[|a + b| - 1] == b[|b| - 1]
  {
  }

  /** `parts.join(sep)`. */
  function Join(sep: string, parts: seq<string>): string
  {
    if |parts| == 0 then ""
    else if |parts| == 1 then parts[0]
    else parts[0] + sep + Join(sep, parts[1..])
  }

  /** Joining non-empty parts gives the empty string exactly when there are no parts. */
  lemma JoinEmptyIff(sep: string, parts: seq<string>)
    requires forall i :: 0 <= i < |parts| ==> parts[i] != ""
    ensures Join(sep, parts) == "" <==> parts == []
  {
    if |parts| >= 1 {
      assert |Join(sep, parts)| >= |parts[0]|;
    }
  }

  /** Every part occurs in the joined text. */
  lemma {:induction false} JoinContainsPart(sep: string, parts: seq<string>, k: nat)
    requires k < |parts|
    ensures Contains(Join(sep, parts), parts[k])
    decreases |parts|
  {
    if |parts| == 1 {
      ContainsPrefix(parts[0], "");
      assert parts[0] + "" == parts[0];
    } else if k == 0 {
      ContainsPrefix(parts[0], sep + Join(sep, parts[1..]));
      assert parts[0] + (sep + Join(sep, parts[1..])) == Join(sep, parts);
    } else {
      JoinContainsPart(sep, parts[1..], k - 1);
      ContainsGrowLeft(parts[0] + sep, Join(sep, parts[1..]), parts[k]);
    }
  }

  /** `s.split(c)` for a one-character separator. */
  function Split(s: string, c: char): (r: seq<string>)
    ensures |r| > 0
  {
    if |s| == 0 then [""]
    else
      var rest := Split(s[1..], c);
      if s[0] == c then [""] + rest else [[s[0]] + rest[0]] + rest[1..]
  }

  lemma {:induction false} SplitOfPlainPrefix(p: string, c: char, tail: string)
    requires c !in p
    ensures Split(p + [c] + tail, c) == [p] + Split(tail, c)
    decreases |p|
  {
    if p == [] {
      assert p + [c] + tail == [c] + tail;
      assert ([c] + tail)[1..] == tail;
    } else {
      assert (p + [c] + tail)[1..] == p[1..] + [c] + tail;
      SplitOfPlainPrefix(p[1..], c, tail);
      assert [p[0]] + p[1..] == p;
    }
  }

  lemma {:induction false} SplitOfPlain(p: string, c: char)
    requires c !in p
    ensures Split(p, c) == [p]
    decreases |p|
  {
    if p != [] {
      SplitOfPlain(p[1..], c);
      assert [p[0]] + p[1..] == p;
    }
  }

  /**
   * Splitting a joined text at the one-character separator gives back the
   * parts, provided no part contains that character.
   */
  lemma {:induction false} SplitJoin(parts: seq<string>, c: char)
    requires |parts| > 0
    requires forall i :: 0 <= i < |parts| ==> c !in parts[i]
    ensures Split(Join([c], parts), c) == parts
    decreases |parts|
  {
    if |parts| == 1 {
      SplitOfPlain(parts[0], c);
    } else {
      SplitJoin(parts[1..], c);
      SplitOfPlainPrefix(parts[0], c, Join([c], parts[1..]));
      assert [parts[0]] + parts[1..] == parts;
    }
  }

  // ---------------------------------------------------------------------------
  // Case mapping
  // ---------------------------------------------------------------------------

  function LowerAsciiChar(c: char): char
  {
    if 'A' <= c <= 'Z' then (c as int + 32) as char else c
  }

  /** `s.toLowerCase()` for ASCII text. */
  function LowerAscii(s: string): (r: string)
    ensures |r| == |s|
    ensures forall i :: 0 <= i < |r| ==> !('A' <= r[i] <= 'Z')
    ensures forall i :: 0 <= i < |s| && !('A' <= s[i] <= 'Z') ==> r[i] == s[i]
  {
    seq(|s|, i requires 0 <= i < |s| => LowerAsciiChar(s[i]))
  }

  // ---------------------------------------------------------------------------
  // Integers as decimal text
  // ---------------------------------------------------------------------------

  predicate IsDigit(c: char)
  {
    '0' <= c <= '9'
  }

  predicate AllDigits(s: string)
  {
    forall i :: 0 <= i < |s| ==> IsDigit(s[i])
  }

  function DigitChar(d: nat): (c: char)
    requires d < 10
    ensures IsDigit(c)
  {
    (48 + d) as char
  }

  function DigitValue(c: char): nat
    requires IsDigit(c)
  {
    c as int - 48
  }

  /** The decimal digits of `n`, most significant first, with no leading zero. */
  function NatToString(n: nat): (r: string)
    ensures |r| > 0 && AllDigits(r)
    ensures |r| > 1 ==> r[0] != '0'
    decreases n
  {
    if n < 10 then [DigitChar(n)]
    else NatToString(n / 10) + [DigitChar(n % 10)]
  }

  /** `String(n)` / `${n}` for an integer. */
  function IntToString(n: int): string
  {
    if n < 0 then "-" + NatToString(-n) else NatToString(n)
  }

  /** The number a string of decimal digits denotes. */
  function DigitsValue(s: string): nat
    requires AllDigits(s)
  {
    if s == [] then 0 else DigitsValue(s[..|s| - 1]) * 10 + DigitValue(s[|s| - 1])
  }

  lemma {:induction false} NatToStringValue(n: nat)
    ensures DigitsValue(NatToString(n)) == n
    decreases n
  {
    if n >= 10 {
      NatToStringValue(n / 10);
      var s := NatToString(n / 10) + [DigitChar(n % 10)];
      assert s[..|s| - 1] == NatToString(n / 10);
    }
  }

  /** Length of the longest prefix of `s` made of decimal digits. */
  function LeadingDigits(s: string): (k: nat)
    ensures k <= |s| && AllDigits(s[..k])
    ensures k < |s| ==> !IsDigit(s[k])
  {
    if |s| > 0 && IsDigit(s[0]) then
      var k := 1 + LeadingDigits(s[1..]);
      assert s[..k] == [s[0]] + s[1..][..k - 1];
      k
    else 0
  }

  /**
   * `parseInt(s, 10) || 0`: skip leading whitespace, read an optional sign and
   * the longest run of decimal digits; no digits gives NaN, which (like -0)
   * is falsy and becomes 0.
   */
  function ParseIntOrZero(s: string): int
  {
    var t := TrimStart(s);
    var negative := |t| > 0 && t[0] == '-';
    var body := if |t| > 0 && (t[0] == '-' || t[0] == '+') then t[1..] else t;
    var k := LeadingDigits(body);
    var magnitude: int := if k == 0 then 0 else DigitsValue(body[..k]);
    if negative then -magnitude else magnitude
  }

  lemma AllDigitsLeading(s: string)
    requires AllDigits(s)
    ensures LeadingDigits(s) == |s|
  {
  }

  /**
   * Reading back a printed integer gives the integer, whatever non-digit text
   * follows it (parseInt stops at the first character that is not a digit).
   */
  lemma ParseIntOfIntToString(n: int, rest: string)
    requires rest == [] || !IsDigit(rest[0])
    ensures ParseIntOrZero(IntToString(n) + rest) == n
  {
    var m: nat := if n < 0 then -n else n;
    NatToStringValue(m);
    if n < 0 {
      assert IntToString(n) + rest == "-" + (NatToString(m) + rest);
      ParseSigned('-', NatToString(m), rest);
    } else {
      ParseUnsigned(NatToString(m), rest);
    }
  }

  lemma ParseUnsigned(digits: string, rest: string)
    requires digits != [] && AllDigits(digits)
    requires rest == [] || !IsDigit(rest[0])
    ensures ParseIntOrZero(digits + rest) == DigitsValue(digits)
  {
    var s := digits + rest;
    assert IsDigit(s[0]);
    assert TrimStart(s) == s;
    LeadingDigitsOfDigits(digits, rest);
    assert s[..|digits|] == digits;
  }

  /** A leading `-` negates the digit run's value; a leading `+` keeps it. */
  lemma ParseSigned(sign: char, digits: string, rest: string)
    requires sign == '-' || sign == '+'
    requires digits != [] && AllDigits(digits)
    requires rest == [] || !IsDigit(rest[0])
    ensures ParseIntOrZero([sign] + (digits + rest))
         == if sign == '-' then -(DigitsValue(digits) as int) else DigitsValue(digits) as int
  {
    var s := [sign] + (digits + rest);
    assert TrimStart(s) == s;
    assert s[1..] == digits + rest;
    LeadingDigitsOfDigits(digits, rest);
    assert (digits + rest)[..|digits|] == digits;
  }

  lemma {:induction false} LeadingDigitsOfDigits(digits: string, rest: string)
    requires AllDigits(digits)
    requires rest == [] || !IsDigit(rest[0])
    ensures LeadingDigits(digits + rest) == |digits|
    decreases |digits|
  {
    if digits != [] {
      assert (digits + rest)[1..] == digits[1..] + rest;
      LeadingDigitsOfDigits(digits[1..], rest);
    }
  }

  /** Text with no digit at all parses as NaN, hence 0. */
  lemma ParseIntNoDigits(s: string)
    requires forall i :: 0 <= i < |s| ==> !IsDigit(s[i])
    ensures ParseIntOrZero(s) == 0
  {
    var t := TrimStart(s);
    var body := if |t| > 0 && (t[0] == '-' || t[0] == '+') then t[1..] else t;
    if |body| > 0 {
      assert body[0] in s;
    }
  }
}
