/** The few pieces of Python's `str` behaviour the core relies on:
    `lower`, `strip`, `replace`, `split`, `join`, `int(...)` and `str(int)`.
    Lower-casing and digits are modelled over ASCII; whitespace is the exact
    set of characters for which Python's `str.isspace()` holds. */
module PyText {
  import opened Wrappers

  /** `c.isspace()` in Python 3. */
  predicate IsSpace(c: char) {
    c == ' ' || ('\t' <= c <= '\r') || ('\U{1C}' <= c <= '\U{1F}')
    || c == '\U{85}' || c == '\U{A0}' || c == '\U{1680}' || ('\U{2000}' <= c <= '\U{200A}')
    || c == '\U{2028}' || c == '\U{2029}' || c == '\U{202F}' || c == '\U{205F}' || c == '\U{3000}'
  }

  predicate IsAsciiUpper(c: char) { 'A' <= c <= 'Z' }

  function LowerChar(c: char): (r: char)
    ensures !IsAsciiUpper(r)
    ensures IsAsciiUpper(c) ==> r as int == c as int + 32
    ensures !IsAsciiUpper(c) ==> r == c
  {
    if IsAsciiUpper(c) then (c as int + 32) as char else c
  }

  /** `s.lower()`, ASCII letters only. */
  function Lower(s: string): (r: string)
    ensures |r| == |s|
    ensures forall i :: 0 <= i < |s| ==> r[i] == LowerChar(s[i])
  {
    seq(|s|, i requires 0 <= i < |s| => LowerChar(s[i]))
  }

  /** `s.replace(a, b)` for one-character `a` and `b`. */
  function ReplaceChar(s: string, a: char, b: char): (r: string)
    ensures |r| == |s|
    ensures forall i :: 0 <= i < |s| ==> r[i] == (if s[i] == a then b else s[i])
  {
    seq(|s|, i requires 0 <= i < |s| => if s[i] == a then b else s[i])
  }

  /** A lower-cased string has no ASCII capitals, and lower-casing it again changes
      nothing. */
  lemma LowerIdempotent(s: string)
    ensures forall i :: 0 <= i < |Lower(s)| ==> !IsAsciiUpper(Lower(s)[i])
    ensures Lower(Lower(s)) == Lower(s)
  {
  }

  /** Lower-casing works character by character, so it distributes over
      concatenation. */
  lemma LowerAppend(a: string, b: string)
    ensures Lower(a + b) == Lower(a) + Lower(b)
  {
  }

  /** After `s.replace(a, b)` with `a != b` no `a` is left, every `b` of the input
      is kept, and nothing else changes. */
  lemma ReplaceCharRemoves(s: string, a: char, b: char)
    requires a != b
    ensures a !in ReplaceChar(s, a, b)
    ensures forall i :: 0 <= i < |s| && s[i] != a ==> ReplaceChar(s, a, b)[i] == s[i]
    ensures a !in s ==> ReplaceChar(s, a, b) == s
  {
  }

  lemma ReplaceCharAppend(x: string, y: string, a: char, b: char)
    ensures ReplaceChar(x + y, a, b) == ReplaceChar(x, a, b) + ReplaceChar(y, a, b)
  {
  }

  /** Lower-casing and replacing spaces by underscores commute, so
      `t.lower().replace(' ', '_') == t.replace(' ', '_').lower()`. */
  lemma LowerReplaceCommute(s: string)
    ensures ReplaceChar(Lower(s), ' ', '_') == Lower(ReplaceChar(s, ' ', '_'))
  {
    var x, y := ReplaceChar(Lower(s), ' ', '_'), Lower(ReplaceChar(s, ' ', '_'));
    forall i | 0 <= i < |s| ensures x[i] == y[i] {
      assert LowerChar(s[i]) == ' ' <==> s[i] == ' ';
    }
  }

  // ---------------------------------------------------------------- strip

  predicate IsStripped(s: string) {
    s == [] || (!IsSpace(s[0]) && !IsSpace(s[|s| - 1]))
  }

  /** `s.strip()`: whitespace is removed from both ends until none is left there. */
  function Strip(s: string): (r: string)
    ensures IsStripped(r)
    ensures |r| <= |s|
    decreases |s|
  {
    if |s| > 0 && IsSpace(s[0]) then Strip(s[1..])
    else if |s| > 0 && IsSpace(s[|s| - 1]) then Strip(s[..|s| - 1])
    else s
  }

  /** What `strip` removes is exactly a whitespace-only prefix `s[..i]` and a
      whitespace-only suffix `s[j..]`. */
  lemma {:induction false} StripBounds(s: string) returns (i: nat, j: nat)
    ensures i <= j <= |s| && Strip(s) == s[i..j]
    ensures forall k :: 0 <= k < i ==> IsSpace(s[k])
    ensures forall k :: j <= k < |s| ==> IsSpace(s[k])
    decreases |s|
  {
    if |s| > 0 && IsSpace(s[0]) {
      var i', j' := StripBounds(s[1..]);
      TailSlice(s, i', j');
      i, j := i' + 1, j' + 1;
    } else if |s| > 0 && IsSpace(s[|s| - 1]) {
      i, j := StripBounds(s[..|s| - 1]);
      InitSlice(s, i, j);
    } else {
      i, j := 0, |s|;
      assert s[0..|s|] == s;
    }
  }

  lemma TailSlice(s: string, i: nat, j: nat)
    requires i <= j <= |s| - 1
    ensures s[1..][i..j] == s[i + 1..j + 1]
    ensures forall k :: 1 <= k < |s| ==> s[k] == s[1..][k - 1]
  {
  }

  lemma InitSlice(s: string, i: nat, j: nat)
    requires i <= j <= |s| - 1
    ensures s[..|s| - 1][i..j] == s[i..j]
    ensures forall k :: 0 <= k < |s| - 1 ==> s[k] == s[..|s| - 1][k]
  {
  }

  /** A character absent from `s` is absent from `s.strip()`. */
  lemma StripKeepsOut(s: string, c: char)
    requires c !in s
    ensures c !in Strip(s)
  {
    var i, j := StripBounds(s);
  }

  /** Stripping a stripped string changes nothing. */
  lemma StripStripped(s: string)
    requires IsStripped(s)
    ensures Strip(s) == s
  {
  }

  lemma StripIdempotent(s: string)
    ensures Strip(Strip(s)) == Strip(s)
  {
    StripStripped(Strip(s));
  }

  /** The whitespace `int()` skips around its digits. CPython first turns every
      non-ASCII `isspace` character into a space but keeps ASCII characters as they
      are, and then skips only space and `\t\n\v\f\r`: the ASCII separators
      U+001C to U+001F are `isspace`, yet `int()` refuses them. */
  predicate IsIntSpace(c: char) {
    IsSpace(c) && !('\U{1C}' <= c <= '\U{1F}')
  }

  predicate IsIntStripped(s: string) {
    s == [] || (!IsIntSpace(s[0]) && !IsIntSpace(s[|s| - 1]))
  }

  /** The whitespace `int()` removes from both ends before reading digits. */
  function IntStrip(s: string): (r: string)
    ensures IsIntStripped(r)
    ensures |r| <= |s|
    decreases |s|
  {
    if |s| > 0 && IsIntSpace(s[0]) then IntStrip(s[1..])
    else if |s| > 0 && IsIntSpace(s[|s| - 1]) then IntStrip(s[..|s| - 1])
    else s
  }

  lemma IntStripStripped(s: string)
    requires IsIntStripped(s)
    ensures IntStrip(s) == s
  {
  }

  /** A first character `int()` does not skip stays first. */
  lemma {:induction false} IntStripKeepsHead(s: string)
    requires |s| > 0 && !IsIntSpace(s[0])
    ensures |IntStrip(s)| > 0 && IntStrip(s)[0] == s[0]
    decreases |s|
  {
    if IsIntSpace(s[|s| - 1]) {
      assert |s| > 1;
      IntStripKeepsHead(s[..|s| - 1]);
    }
  }

  // ---------------------------------------------------------------- split / join

  function CountChar(s: string, c: char): nat {
    if s == [] then 0 else (if s[0] == c then 1 else 0) + CountChar(s[1..], c)
  }

  /** `s.split(c)` for a one-character separator: never empty. */
  function Split(s: string, c: char): (r: seq<string>)
    ensures |r| >= 1
    decreases |s|
  {
    if s == [] then [""]
    else
      var rest := Split(s[1..], c);
      if s[0] == c then [""] + rest else [[s[0]] + rest[0]] + rest[1..]
  }

  /** `c.join(ps)`. */
  function Join(ps: seq<string>, c: char): string {
    if ps == [] then ""
    else if |ps| == 1 then ps[0]
    else ps[0] + [c] + Join(ps[1..], c)
  }

  /** No piece of a split contains the separator. */
  lemma {:induction false} SplitPiecesClean(s: string, c: char)
    ensures forall k :: 0 <= k < |Split(s, c)| ==> c !in Split(s, c)[k]
  {
    if s != [] {
      SplitPiecesClean(s[1..], c);
      var rest := Split(s[1..], c);
      if s[0] != c {
        assert c !in rest[0];
        assert c !in [s[0]] + rest[0];
      }
    }
  }

  /** A split has one more piece than the string has separators. */
  lemma {:induction false} SplitCount(s: string, c: char)
    ensures |Split(s, c)| == CountChar(s, c) + 1
  {
    if s != [] { SplitCount(s[1..], c); }
  }

  /** Joining the pieces again gives back the string. */
  lemma {:induction false} SplitJoin(s: string, c: char)
    ensures Join(Split(s, c), c) == s
  {
    if s != [] {
      SplitJoin(s[1..], c);
      var rest := Split(s[1..], c);
      if s[0] == c {
        assert Join([""] + rest, c) == "" + [c] + Join(rest, c) by {
          assert ([""] + rest)[1..] == rest;
        }
        assert s == [s[0]] + s[1..];
      } else {
        var r := [[s[0]] + rest[0]] + rest[1..];
        if |rest| == 1 {
          assert Join(rest, c) == rest[0];
        } else {
          assert r[1..] == rest[1..];
          assert Join(rest, c) == rest[0] + [c] + Join(rest[1..], c);
        }
        assert s == [s[0]] + s[1..];
      }
    }
  }

  /** A string without the separator splits into itself. */
  lemma {:induction false} SplitNoSeparator(s: string, c: char)
    requires c !in s
    ensures Split(s, c) == [s]
  {
    if s != [] {
      assert c !in s[1..];
      SplitNoSeparator(s[1..], c);
      assert [s[0]] + s[1..] == s;
    }
  }

  /** Splitting `a + c + b`, where `a` holds no separator, puts `a` first. */
  lemma {:induction false} SplitAfterPiece(a: string, b: string, c: char)
    requires c !in a
    ensures Split(a + [c] + b, c) == [a] + Split(b, c)
    decreases |a|
  {
    var s := a + [c] + b;
    if a == [] {
      assert s[0] == c && s[1..] == b;
    } else {
      assert s[0] == a[0] && s[1..] == a[1..] + [c] + b;
      assert c !in a[1..];
      SplitAfterPiece(a[1..], b, c);
      assert [a[0]] + a[1..] == a;
    }
  }

  /** Splitting a join of separator-free pieces gives back the pieces. */
  lemma {:induction false} JoinSplit(ps: seq<string>, c: char)
    requires |ps| >= 1
    requires forall k :: 0 <= k < |ps| ==> c !in ps[k]
    ensures Split(Join(ps, c), c) == ps
  {
    if |ps| == 1 {
      SplitNoSeparator(ps[0], c);
    } else {
      JoinSplit(ps[1..], c);
      SplitAfterPiece(ps[0], Join(ps[1..], c), c);
      assert [ps[0]] + ps[1..] == ps;
    }
  }

  // ---------------------------------------------------------------- integers

  predicate IsDigit(c: char) { '0' <= c <= '9' }

  function DigitValue(c: char): nat
    requires IsDigit(c)
  {
    c as int - '0' as int
  }

  function DigitChar(d: nat): (c: char)
    requires d < 10
    ensures IsDigit(c) && DigitValue(c) == d
  {
    ('0' as int + d) as char
  }

  /** Value of a string of decimal digits, most significant first. */
  function DigitsValue(ds: string): nat
    requires forall k :: 0 <= k < |ds| ==> IsDigit(ds[k])
  {
    if ds == [] then 0 else DigitsValue(ds[..|ds| - 1]) * 10 + DigitValue(ds[|ds| - 1])
  }

  /** `str(n)` for a natural number. */
  function NatToString(n: nat): (r: string)
    ensures |r| >= 1
    ensures forall k :: 0 <= k < |r| ==> IsDigit(r[k])
  {
    if n < 10 then [DigitChar(n)] else NatToString(n / 10) + [DigitChar(n % 10)]
  }

  /** `str(n)` for an integer. */
  function IntToString(n: int): string {
    if n < 0 then "-" + NatToString(-n) else NatToString(n)
  }

  /** The digit groups Python's `int()` accepts after the sign: ASCII digits,
      with single underscores allowed between two digits. */
  predicate IsDigitGroups(s: string) {
    && |s| > 0 && IsDigit(s[0]) && IsDigit(s[|s| - 1])
    && (forall k :: 0 <= k < |s| ==> IsDigit(s[k]) || s[k] == '_')
    && (forall k :: 0 <= k < |s| - 1 && s[k] == '_' ==> IsDigit(s[k + 1]))
  }

  function DropUnderscores(s: string): (r: string)
    requires forall k :: 0 <= k < |s| ==> IsDigit(s[k]) || s[k] == '_'
    ensures forall k :: 0 <= k < |r| ==> IsDigit(r[k])
  {
    if s == [] then []
    else (if s[0] == '_' then [] else [s[0]]) + DropUnderscores(s[1..])
  }

  function ParseDigits(s: string): Option<nat> {
    if IsDigitGroups(s) then Some(DigitsValue(DropUnderscores(s))) else None
  }

  /** `int(s)` on a string: surrounding whitespace (as `IsIntSpace` says), an optional
      sign, then digit groups; None where Python raises ValueError. */
  function PyInt(s: string): Option<int> {
    var t := IntStrip(s);
    if |t| > 0 && (t[0] == '+' || t[0] == '-') then
      match ParseDigits(t[1..])
      case Some(v) => var x: int := v; Some(if t[0] == '-' then -x else x)
      case None => None
    else
      match ParseDigits(t)
      case Some(v) => Some(v)
      case None => None
  }

  lemma {:induction false} DropUnderscoresOfDigits(s: string)
    requires forall k :: 0 <= k < |s| ==> IsDigit(s[k])
    ensures DropUnderscores(s) == s
  {
    if s != [] {
      DropUnderscoresOfDigits(s[1..]);
      assert [s[0]] + s[1..] == s;
    }
  }

  lemma {:induction false} NatToStringValue(n: nat)
    ensures DigitsValue(NatToString(n)) == n
  {
    if n >= 10 {
      NatToStringValue(n / 10);
      var r := NatToString(n);
      assert r[..|r| - 1] == NatToString(n / 10);
    }
  }

  lemma ParseDigitsOfNat(m: nat)
    ensures ParseDigits(NatToString(m)) == Some(m)
  {
    var ds := NatToString(m);
    DropUnderscoresOfDigits(ds);
    NatToStringValue(m);
  }

  /** `int(str(n)) == n`. */
  lemma PyIntRoundTrip(n: int)
    ensures PyInt(IntToString(n)) == Some(n)
  {
    var s := IntToString(n);
    if n < 0 {
      var ds := NatToString(-n);
      ParseDigitsOfNat(-n);
      assert s[0] == '-' && s[1..] == ds;
      assert IsIntStripped(s) by { assert s[|s| - 1] == ds[|ds| - 1]; }
      IntStripStripped(s);
    } else {
      ParseDigitsOfNat(n);
      assert IsIntStripped(s);
      IntStripStripped(s);
    }
  }

  /** `int()` raises ValueError on a string that starts with one of the ASCII
      separators U+001C to U+001F, although `str.strip()` would remove it. */
  lemma PyIntRefusesSeparator(x: char, s: string)
    requires '\U{1C}' <= x <= '\U{1F}'
    ensures PyInt([x] + s) == None
    ensures IsSpace(x)
  {
    IntStripKeepsHead([x] + s);
  }
}
