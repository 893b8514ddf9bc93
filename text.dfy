/**
 * The handful of Python `str` operations the server relies on, written out
 * over `seq<char>`: `in` (substring test), `lower()`, `strip()`,
 * `split(sep, 1)`, `split(sep)`, `replace`, `int(str)` and `str(int)`.
 * Only ASCII case mapping and ASCII whitespace are modelled.
 */
module Text {
  import opened Outcomes

  // ---------------------------------------------------------------------------
  // Characters

  /** The ASCII characters Python's `str.isspace` accepts. */
  predicate IsSpace(c: char) {
    c == ' ' || c == '\t' || c == '\n' || c == '\r' || c == '\U{0B}' || c == '\U{0C}'
    || ('\U{1C}' <= c <= '\U{1F}')
  }

  function LowerChar(c: char): char {
    if 'A' <= c <= 'Z' then (c as int + 32) as char else c
  }

  /** `s.lower()` (and `str.casefold`), restricted to ASCII letters. */
  function Lower(s: string): (r: string)
    ensures |r| == |s|
    ensures forall i :: 0 <= i < |s| ==> r[i] == LowerChar(s[i])
  {
    seq(|s|, i requires 0 <= i < |s| => LowerChar(s[i]))
  }

  // ---------------------------------------------------------------------------
  // Substrings

  predicate IsPrefix(p: string, s: string) {
    |p| <= |s| && s[..|p|] == p
  }

  /** Index of the first occurrence of `sub` in `s` (Python's `s.find(sub)`). */
  function IndexOf(s: string, sub: string): (r: Option<nat>)
    ensures r.Some? ==> r.value + |sub| <= |s| && s[r.value..r.value + |sub|] == sub
    ensures r.Some? ==> IsPrefix(sub, s[r.value..])
    ensures r.Some? ==> forall j :: 0 <= j < r.value ==> !IsPrefix(sub, s[j..])
    ensures r.None? ==> forall j :: 0 <= j <= |s| ==> !IsPrefix(sub, s[j..])
    decreases |s|
  {
    if IsPrefix(sub, s) then Some(0)
    else if s == [] then None
    else
      var r := IndexOf(s[1..], sub);
      IndexOfStep(s, sub, r);
      if r.None? then None else Some(r.value + 1)
  }

  /** The search in `s[1..]` answers for `s` once `s` does not start with `sub`, one index on. */
  lemma IndexOfStep(s: string, sub: string, r: Option<nat>)
    requires s != [] && !IsPrefix(sub, s)
    requires r.Some? ==> r.value + |sub| <= |s| - 1 && IsPrefix(sub, s[1..][r.value..])
    requires r.Some? ==> forall j :: 0 <= j < r.value ==> !IsPrefix(sub, s[1..][j..])
    requires r.None? ==> forall j :: 0 <= j <= |s| - 1 ==> !IsPrefix(sub, s[1..][j..])
    ensures r.Some? ==> r.value + 1 + |sub| <= |s| && s[r.value + 1..r.value + 1 + |sub|] == sub
    ensures r.Some? ==> IsPrefix(sub, s[r.value + 1..])
    ensures r.Some? ==> forall j :: 0 <= j < r.value + 1 ==> !IsPrefix(sub, s[j..])
    ensures r.None? ==> forall j :: 0 <= j <= |s| ==> !IsPrefix(sub, s[j..])
  {
    forall j | 1 <= j <= |s|
      ensures s[j..] == s[1..][j - 1..]
    {
    }
    if r.Some? {
      assert s[r.value + 1..] == s[1..][r.value..];
    }
  }

  /** Python's `sub in s`. */
  predicate Contains(s: string, sub: string) {
    IndexOf(s, sub).Some?
  }

  lemma ContainsAt(s: string, sub: string, i: nat)
    requires i + |sub| <= |s| && s[i..i + |sub|] == sub
    ensures Contains(s, sub)
  {
    assert IsPrefix(sub, s[i..]);
  }

  lemma NotContainsShort(s: string, sub: string)
    requires |s| < |sub|
    ensures !Contains(s, sub)
  {
  }

  /** A string lacking the first character of `sub` does not contain `sub`. */
  lemma NotContainsFirst(s: string, sub: string)
    requires sub != [] && sub[0] !in s
    ensures !Contains(s, sub)
  {
    forall j | 0 <= j <= |s|
      ensures !IsPrefix(sub, s[j..])
    {
      if j < |s| {
        assert s[j..][0] == s[j];
      }
    }
  }

  /** `sub in s` for a single character agrees with membership. */
  lemma ContainsChar(s: string, c: char)
    ensures Contains(s, [c]) <==> c in s
  {
    if c in s {
      var i :| 0 <= i < |s| && s[i] == c;
      ContainsAt(s, [c], i);
    }
    if Contains(s, [c]) {
      var i := IndexOf(s, [c]).value;
      assert s[i..i + 1][0] == s[i];
    }
  }

  lemma ContainsRight(a: string, b: string, sub: string)
    requires Contains(b, sub)
    ensures Contains(a + b, sub)
  {
    var i := IndexOf(b, sub).value;
    assert (a + b)[|a| + i..|a| + i + |sub|] == b[i..i + |sub|];
    ContainsAt(a + b, sub, |a| + i);
  }

  lemma ContainsLeft(a: string, b: string, sub: string)
    requires Contains(a, sub)
    ensures Contains(a + b, sub)
  {
    var i := IndexOf(a, sub).value;
    assert (a + b)[i..i + |sub|] == a[i..i + |sub|];
    ContainsAt(a + b, sub, i);
  }

  lemma LowerConcat(a: string, b: string)
    ensures Lower(a + b) == Lower(a) + Lower(b)
  {
  }

  /** Case-insensitive substring test: `sub in s.lower()` for a lower-case `sub`. */
  predicate ContainsLower(s: string, sub: string) {
    Contains(Lower(s), sub)
  }

  // ---------------------------------------------------------------------------
  // Whitespace

  predicate AllSpace(w: string) {
    forall i :: 0 <= i < |w| ==> IsSpace(w[i])
  }

  /** A string `strip()` leaves as it is. */
  predicate Stripped(s: string) {
    s == [] || (!IsSpace(s[0]) && !IsSpace(s[|s| - 1]))
  }

  function TrimLeft(s: string): (r: string)
    ensures |r| <= |s|
    ensures r != [] ==> !IsSpace(r[0])
    ensures AllSpace(s[..|s| - |r|])
    decreases |s|
  {
    if s != [] && IsSpace(s[0]) then
      var r := TrimLeft(s[1..]);
      assert s[..|s| - |r|] == [s[0]] + s[1..][..|s| - 1 - |r|];
      r
    else s
  }

  function TrimRight(s: string): (r: string)
    ensures |r| <= |s|
    ensures r != [] ==> !IsSpace(r[|r| - 1])
    ensures AllSpace(s[|r|..])
    decreases |s|
  {
    if s != [] && IsSpace(s[|s| - 1]) then
      var r := TrimRight(s[..|s| - 1]);
      assert s[|r|..] == s[..|s| - 1][|r|..] + [s[|s| - 1]];
      r
    else s
  }

  /** `lstrip()` leaves a suffix. */
  lemma {:induction false} TrimLeftSuffix(s: string)
    ensures TrimLeft(s) == s[|s| - |TrimLeft(s)|..]
    decreases |s|
  {
    if s != [] && IsSpace(s[0]) {
      TrimLeftSuffix(s[1..]);
    }
  }

  /** `rstrip()` leaves a prefix. */
  lemma {:induction false} TrimRightPrefix(s: string)
    ensures TrimRight(s) == s[..|TrimRight(s)|]
    decreases |s|
  {
    if s != [] && IsSpace(s[|s| - 1]) {
      TrimRightPrefix(s[..|s| - 1]);
    }
  }

  /** Python's `s.strip()`. */
  function Strip(s: string): string {
    TrimRight(TrimLeft(s))
  }

  lemma StrippedStrip(s: string)
    ensures Stripped(Strip(s))
  {
    var l := TrimLeft(s);
    var r := TrimRight(l);
    if r != [] {
      TrimRightPrefix(l);
      assert r[0] == l[0];
    }
  }

  lemma {:induction false} TrimLeftPadded(w: string, a: string)
    requires AllSpace(w) && (a == [] || !IsSpace(a[0]))
    ensures TrimLeft(w + a) == a
    decreases |w|
  {
    if w == [] {
      assert w + a == a;
    } else {
      assert (w + a)[1..] == w[1..] + a;
      TrimLeftPadded(w[1..], a);
    }
  }

  lemma {:induction false} TrimRightPadded(a: string, w: string)
    requires AllSpace(w) && (a == [] || !IsSpace(a[|a| - 1]))
    ensures TrimRight(a + w) == a
    decreases |w|
  {
    if w == [] {
      assert a + w == a;
    } else {
      var s := a + w;
      assert s[..|s| - 1] == a + w[..|w| - 1];
      TrimRightPadded(a, w[..|w| - 1]);
    }
  }

  /** Stripping removes exactly the whitespace padding around a stripped core. */
  lemma StripPadded(w1: string, a: string, w2: string)
    requires AllSpace(w1) && AllSpace(w2) && Stripped(a)
    ensures Strip(w1 + a + w2) == a
  {
    if a == [] {
      assert w1 + a + w2 == w1 + w2;
      assert AllSpace(w1 + w2);
      TrimLeftPadded(w1 + w2, []);
      assert w1 + w2 + [] == w1 + w2;
    } else {
      assert w1 + a + w2 == w1 + (a + w2);
      TrimLeftPadded(w1, a + w2);
      TrimRightPadded(a, w2);
    }
  }

  lemma StripStripped(a: string)
    requires Stripped(a)
    ensures Strip(a) == a
  {
    StripPadded([], a, []);
    assert [] + a + [] == a;
  }

  // ---------------------------------------------------------------------------
  // Splitting

  /**
   * Python's `s.split(sep, 1)`: `None` when `sep` does not occur (one piece).
   * Python rejects an empty separator; every caller passes a literal one.
   */
  function SplitFirst(s: string, sep: string): (r: Option<(string, string)>)
    requires sep != []
    ensures r.None? <==> !Contains(s, sep)
    ensures r.Some? ==> s == r.value.0 + sep + r.value.1 && !Contains(r.value.0, sep)
  {
    match IndexOf(s, sep)
    case None => None
    case Some(i) =>
      var head := s[..i];
      assert s == head + sep + s[i + |sep|..];
      FirstOccurrenceHead(s, sep, i);
      Some((head, s[i + |sep|..]))
  }

  /** Before the first occurrence of `sep` there is no other occurrence. */
  lemma FirstOccurrenceHead(s: string, sep: string, i: nat)
    requires sep != [] && i <= |s|
    requires forall j :: 0 <= j < i ==> !IsPrefix(sep, s[j..])
    ensures !Contains(s[..i], sep)
  {
    var head := s[..i];
    forall j | 0 <= j <= |head|
      ensures !IsPrefix(sep, head[j..])
    {
      if j < i && |sep| <= |head| - j {
        assert head[j..][..|sep|] == s[j..][..|sep|];
      }
    }
  }

  function CharIndex(s: string, c: char): (r: Option<nat>)
    ensures r.None? <==> c !in s
    ensures r.Some? ==> r.value < |s| && s[r.value] == c && c !in s[..r.value]
  {
    if s == [] then None
    else if s[0] == c then Some(0)
    else
      match CharIndex(s[1..], c)
      case None => None
      case Some(i) =>
        assert s[..i + 1] == [s[0]] + s[1..][..i];
        Some(i + 1)
  }

  /** Python's `s.split(c)` for a one-character separator: always at least one piece. */
  function Split(s: string, c: char): (r: seq<string>)
    ensures |r| >= 1
    ensures forall i :: 0 <= i < |r| ==> c !in r[i]
    decreases |s|
  {
    match CharIndex(s, c)
    case None => [s]
    case Some(i) => [s[..i]] + Split(s[i + 1..], c)
  }

  lemma {:induction false} CharIndexAt(s: string, c: char, k: nat)
    requires k < |s| && s[k] == c && c !in s[..k]
    ensures CharIndex(s, c) == Some(k)
  {
    if k > 0 {
      assert s[0] in s[..k];
      assert s[1..][..k - 1] == s[1..k];
      CharIndexAt(s[1..], c, k - 1);
    }
  }

  lemma SplitCons(line: string, c: char, rest: string)
    requires c !in line
    ensures Split(line + [c] + rest, c) == [line] + Split(rest, c)
  {
    var s := line + [c] + rest;
    assert s[..|line|] == line;
    CharIndexAt(s, c, |line|);
    assert s[|line| + 1..] == rest;
  }

  /** Lines each followed by a newline, as successive `print` calls produce them. */
  function Unlines(ls: seq<string>): string {
    if ls == [] then "" else ls[0] + "\n" + Unlines(ls[1..])
  }

  lemma {:induction false} SplitUnlines(ls: seq<string>)
    requires forall i :: 0 <= i < |ls| ==> '\n' !in ls[i]
    ensures Split(Unlines(ls), '\n') == ls + [""]
  {
    if ls == [] {
      assert Split("", '\n') == [""];
    } else {
      SplitCons(ls[0], '\n', Unlines(ls[1..]));
      SplitUnlines(ls[1..]);
      ConsTail(ls);
      ConcatAssoc([ls[0]], ls[1..], [""]);
    }
  }

  // ---------------------------------------------------------------------------
  // Replacing

  /** Python's `s.replace(pat, rep)`: left to right, non-overlapping. */
  function ReplaceAll(s: string, pat: string, rep: string): (r: string)
    requires pat != []
    decreases |s|
  {
    if s == [] then []
    else if IsPrefix(pat, s) then rep + ReplaceAll(s[|pat|..], pat, rep)
    else [s[0]] + ReplaceAll(s[1..], pat, rep)
  }

  /** `s.replace(c, "")` for a single character: every occurrence is removed. */
  lemma {:induction false} ReplaceCharGone(s: string, c: char)
    ensures c !in ReplaceAll(s, [c], "")
    ensures |ReplaceAll(s, [c], "")| <= |s|
    decreases |s|
  {
    if s != [] {
      ReplaceCharGone(s[1..], c);
    }
  }

  // ---------------------------------------------------------------------------
  // Integers

  predicate IsDigit(c: char) { '0' <= c <= '9' }

  predicate AllDigits(s: string) {
    forall i :: 0 <= i < |s| ==> IsDigit(s[i])
  }

  function DigitValue(c: char): nat
    requires IsDigit(c)
  {
    c as int - '0' as int
  }

  function DigitChar(d: nat): (c: char)
    requires d < 10
    ensures IsDigit(c) && DigitValue(c) == d
  {
    ('0' as int + d) as char
  }

  function DigitsValue(s: string): nat
    requires AllDigits(s)
  {
    if s == [] then 0 else DigitsValue(s[..|s| - 1]) * 10 + DigitValue(s[|s| - 1])
  }

  function Pow10(n: nat): nat {
    if n == 0 then 1 else 10 * Pow10(n - 1)
  }

  lemma {:induction false} DigitsValueBound(s: string)
    requires AllDigits(s)
    ensures DigitsValue(s) < Pow10(|s|)
  {
    if s != [] {
      DigitsValueBound(s[..|s| - 1]);
    }
  }

  /** `str(n)` for a natural number: the decimal digits denote `n`. */
  function NatToString(n: nat): (r: string)
    ensures |r| >= 1 && AllDigits(r)
    ensures DigitsValue(r) == n
  {
    if n < 10 then [DigitChar(n)]
    else
      var r := NatToString(n / 10) + [DigitChar(n % 10)];
      assert r[..|r| - 1] == NatToString(n / 10);
      r
  }

  /** Python's `str(i)`. */
  function IntToString(i: int): string {
    if i < 0 then "-" + NatToString(-i) else NatToString(i)
  }

  /**
   * Python's `int(s)` on a string: surrounding whitespace, an optional sign and
   * decimal digits; anything else raises `ValueError` (here: `None`).
   */
  function ParseInt(s: string): Option<int> {
    var t := Strip(s);
    if |t| > 1 && (t[0] == '-' || t[0] == '+') && AllDigits(t[1..]) then
      Some(if t[0] == '-' then -(DigitsValue(t[1..]) as int) else DigitsValue(t[1..]))
    else if |t| > 0 && AllDigits(t) then Some(DigitsValue(t))
    else None
  }

  /** `int(str(i)) == i`. */
  lemma ParseIntToString(i: int)
    ensures ParseInt(IntToString(i)) == Some(i)
  {
    var s := IntToString(i);
    assert Stripped(s);
    StripStripped(s);
    if i < 0 {
      assert s[1..] == NatToString(-i);
    }
  }

  // ---------------------------------------------------------------------------
  // Joining

  /** Python's `sep.join(ls)` for a one-character separator. */
  function Join(ls: seq<string>, c: char): string {
    if ls == [] then ""
    else if |ls| == 1 then ls[0]
    else ls[0] + [c] + Join(ls[1..], c)
  }

  /** Splitting a joined non-empty list gives the list back. */
  lemma {:induction false} SplitJoin(ls: seq<string>, c: char)
    requires ls != []
    requires forall i :: 0 <= i < |ls| ==> c !in ls[i]
    ensures Split(Join(ls, c), c) == ls
  {
    if |ls| == 1 {
      assert CharIndex(ls[0], c).None?;
    } else {
      SplitCons(ls[0], c, Join(ls[1..], c));
      SplitJoin(ls[1..], c);
      assert ls == [ls[0]] + ls[1..];
    }
  }

  // ---------------------------------------------------------------------------
  // Ordering

  /** Python's `a <= b` on strings: lexicographic by code point. */
  predicate LexLe(a: string, b: string) {
    a == [] || (b != [] && (a[0] < b[0] || (a[0] == b[0] && LexLe(a[1..], b[1..]))))
  }

  lemma {:induction false} LexLeTotal(a: string, b: string)
    ensures LexLe(a, b) || LexLe(b, a)
  {
    if a != [] && b != [] && a[0] == b[0] {
      LexLeTotal(a[1..], b[1..]);
    }
  }

  lemma {:induction false} LexLeTrans(a: string, b: string, c: string)
    requires LexLe(a, b) && LexLe(b, c)
    ensures LexLe(a, c)
  {
    if a != [] && a[0] == b[0] && b[0] == c[0] {
      LexLeTrans(a[1..], b[1..], c[1..]);
    }
  }

  /** The order of `sorted(..., key=str.casefold)`, with ASCII case folding. */
  predicate FoldLe(a: string, b: string) {
    LexLe(Lower(a), Lower(b))
  }
}
