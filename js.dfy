/** The JavaScript values the application's handlers work on, and the few
    built-in operations on them that the application relies on: `Math.max(1, n)`
    on a parsed integer, number-to-text conversion of integers, `toFixed(3)`,
    ASCII case mapping, `String.prototype.includes`, `trim` and `split`. */
module Js {

  datatype Option<+T> = None | Some(value: T)

  /** A number produced by `parseInt`: an integer, or NaN when the text does not parse. */
  datatype JsInt = Int(value: int) | IntNaN

  /** A finite JavaScript number, or NaN. */
  datatype JsNumber = Num(value: real) | NaN

  /** `Math.max(1, n)`: at least 1, and NaN stays NaN (every comparison with NaN is false). */
  function AtLeastOne(n: JsInt): (r: JsInt)
    ensures r.IntNaN? <==> n.IntNaN?
    ensures r.Int? ==> r.value >= 1
    ensures n.Int? && n.value >= 1 ==> r == n
    ensures n.Int? && n.value < 1 ==> r == Int(1)
  {
    match n
    case IntNaN => IntNaN
    case Int(v) => Int(if v < 1 then 1 else v)
  }

  // ---------------------------------------------------------------------------
  // Decimal text of numbers

  predicate IsDigit(c: char) { '0' <= c <= '9' }

  predicate AllDigits(s: string) { forall i :: 0 <= i < |s| ==> IsDigit(s[i]) }

  function DigitChar(d: int): (c: char)
    requires 0 <= d < 10
    ensures IsDigit(c)
  {
    ('0' as int + d) as char
  }

  function DigitValue(c: char): (d: nat)
    requires IsDigit(c)
    ensures d < 10 && DigitChar(d) == c
  {
    c as int - '0' as int
  }

  /** The decimal text of a natural number, without leading zeros. */
  function NatText(n: nat): (s: string)
    ensures 1 <= |s| && AllDigits(s)
    ensures |s| > 1 ==> s[0] != '0'
    decreases n
  {
    if n < 10 then [DigitChar(n)] else NatText(n / 10) + [DigitChar(n % 10)]
  }

  /** Reads a string of decimal digits as a natural number; the inverse of NatText. */
  function ParseNat(s: string): nat
    requires AllDigits(s)
    decreases |s|
  {
    if s == [] then 0 else ParseNat(s[..|s| - 1]) * 10 + DigitValue(s[|s| - 1])
  }

  lemma {:induction false} ParseNatText(n: nat)
    ensures ParseNat(NatText(n)) == n
    decreases n
  {
    if n >= 10 {
      var s := NatText(n);
      assert s[..|s| - 1] == NatText(n / 10);
      ParseNatText(n / 10);
    }
  }

  /** Decimal text is injective: two numbers with the same text are equal. */
  lemma NatTextInjective(m: nat, n: nat)
    requires NatText(m) == NatText(n)
    ensures m == n
  {
    ParseNatText(m);
    ParseNatText(n);
  }

  /** `String(i)` for an integer. */
  function IntText(i: int): (s: string)
    ensures i >= 0 ==> s == NatText(i)
    ensures i < 0 ==> s == "-" + NatText(-i)
  {
    if i < 0 then "-" + NatText(-i) else NatText(i)
  }

  /** The text a template literal gives a parsed integer: NaN prints as "NaN". */
  function JsIntText(n: JsInt): string
  {
    match n
    case IntNaN => "NaN"
    case Int(v) => IntText(v)
  }

  /** Integer text is injective. */
  lemma IntTextInjective(i: int, j: int)
    requires IntText(i) == IntText(j)
    ensures i == j
  {
    assert i < 0 ==> IntText(i)[0] == '-' && NatText(-i) == IntText(i)[1..];
    assert i >= 0 ==> IsDigit(IntText(i)[0]);
    assert j < 0 ==> IntText(j)[0] == '-' && NatText(-j) == IntText(j)[1..];
    assert j >= 0 ==> IsDigit(IntText(j)[0]);
    if i < 0 && j < 0 {
      NatTextInjective(-i, -j);
    } else if i >= 0 && j >= 0 {
      NatTextInjective(i, j);
    }
  }

  /** The text of a parsed integer is injective: NaN's text is no integer's text. */
  lemma JsIntTextInjective(m: JsInt, n: JsInt)
    requires JsIntText(m) == JsIntText(n)
    ensures m == n
  {
    assert m.Int? ==> JsIntText(m)[0] != 'N';
    assert n.Int? ==> JsIntText(n)[0] != 'N';
    if m.Int? && n.Int? {
      IntTextInjective(m.value, n.value);
    }
  }

  /** Text between a fixed prefix and a fixed suffix is determined by the whole. */
  lemma CancelAffixes(p: string, x: string, y: string, q: string)
    requires p + x + q == p + y + q
    ensures x == y
  {
    var s := p + x + q;
    assert x == s[|p|..|s| - |q|];
    assert y == (p + y + q)[|p|..|s| - |q|];
  }

  // ---------------------------------------------------------------------------
  // Number.prototype.toFixed(3)

  /** The integer n for which n / 1000 is closest to x; of two equally close,
      the larger (the rule `toFixed` states for a non-negative x). */
  function Thousandths(x: real): (n: int)
    requires x >= 0.0
    ensures n >= 0
    ensures n as real - 0.5 <= x * 1000.0 < n as real + 0.5
  {
    (x * 1000.0 + 0.5).Floor
  }

  /** Three digits, with leading zeros. */
  function Pad3(k: nat): (s: string)
    requires k < 1000
    ensures |s| == 3 && AllDigits(s)
  {
    [DigitChar(k / 100), DigitChar(k / 10 % 10), DigitChar(k % 10)]
  }

  function Fixed3NonNegative(x: real): (s: string)
    requires x >= 0.0
    ensures |s| >= 5 && s[|s| - 4] == '.'
    ensures AllDigits(s[..|s| - 4]) && AllDigits(s[|s| - 3..])
  {
    var n := Thousandths(x);
    var s := NatText(n / 1000) + "." + Pad3(n % 1000);
    assert s[..|s| - 4] == NatText(n / 1000);
    assert s[|s| - 3..] == Pad3(n % 1000);
    s
  }

  /** `x.toFixed(3)`: a negative number gets a leading "-" and is formatted by
      its magnitude, NaN prints as "NaN". */
  function Fixed3(x: JsNumber): string
  {
    match x
    case NaN => "NaN"
    case Num(r) => if r < 0.0 then "-" + Fixed3NonNegative(-r) else Fixed3NonNegative(r)
  }

  /** Reads text of the form `<digits>.<three digits>` as a count of thousandths. */
  function ParseFixed3(s: string): Option<nat>
  {
    if |s| >= 5 && s[|s| - 4] == '.' && AllDigits(s[..|s| - 4]) && AllDigits(s[|s| - 3..])
    then Some(ParseNat(s[..|s| - 4]) * 1000 + ParseNat(s[|s| - 3..]))
    else None
  }

  lemma ParsePad3(k: nat)
    requires k < 1000
    ensures ParseNat(Pad3(k)) == k
  {
    var s := Pad3(k);
    var a, b, c := k / 100, k / 10 % 10, k % 10;
    assert s[..|s| - 1] == [DigitChar(a), DigitChar(b)];
    assert [DigitChar(a), DigitChar(b)][..1] == [DigitChar(a)];
    assert [DigitChar(a)][..0] == [];
    assert ParseNat([DigitChar(a)]) == a;
    assert ParseNat([DigitChar(a), DigitChar(b)]) == a * 10 + b;
    assert ParseNat(s) == (a * 10 + b) * 10 + c;
  }

  /** What toFixed(3) prints for a non-negative number reads back as the
      thousandths nearest to it: the rounding happens only in the text. */
  lemma Fixed3RoundTrip(x: real)
    requires x >= 0.0
    ensures ParseFixed3(Fixed3(Num(x))) == Some(Thousandths(x))
  {
    var n := Thousandths(x);
    var s := Fixed3(Num(x));
    assert s == NatText(n / 1000) + "." + Pad3(n % 1000);
    assert s[..|s| - 4] == NatText(n / 1000);
    assert s[|s| - 3..] == Pad3(n % 1000);
    ParseNatText(n / 1000);
    ParsePad3(n % 1000);
  }

  // ---------------------------------------------------------------------------
  // Text

  /** `toLowerCase` on ASCII letters; other characters are left as they are. */
  function LowerChar(c: char): char
  {
    if 'A' <= c <= 'Z' then (c as int + 32) as char else c
  }

  function UpperChar(c: char): char
  {
    if 'a' <= c <= 'z' then (c as int - 32) as char else c
  }

  function Lower(s: string): (r: string)
    ensures |r| == |s|
    ensures forall i :: 0 <= i < |s| ==> r[i] == LowerChar(s[i])
  {
    seq(|s|, i requires 0 <= i < |s| => LowerChar(s[i]))
  }

  function Upper(s: string): (r: string)
    ensures |r| == |s|
    ensures forall i :: 0 <= i < |s| ==> r[i] == UpperChar(s[i])
  {
    seq(|s|, i requires 0 <= i < |s| => UpperChar(s[i]))
  }

  /** `s.includes(t)`, searching from the left. */
  function Includes(s: string, t: string): bool
    decreases |s|
  {
    t <= s || (s != [] && Includes(s[1..], t))
  }

  /** t occurs in s starting at position i. */
  predicate OccursAt(s: string, t: string, i: int)
  {
    0 <= i <= |s| - |t| && s[i..i + |t|] == t
  }

  /** Includes holds exactly when t occurs in s at some position. */
  lemma {:induction false} IncludesAt(s: string, t: string)
    ensures Includes(s, t) <==> exists i :: OccursAt(s, t, i)
    decreases |s|
  {
    if t <= s {
      assert OccursAt(s, t, 0);
    } else if s == [] {
    } else {
      IncludesAt(s[1..], t);
      if exists i :: OccursAt(s, t, i) {
        var i :| OccursAt(s, t, i);
        assert i != 0;
        OccursShift(s, t, i);
      }
      if Includes(s[1..], t) {
        var j :| OccursAt(s[1..], t, j);
        OccursShift(s, t, j + 1);
      }
    }
  }

  /** An occurrence past the first character is an occurrence in the tail. */
  lemma OccursShift(s: string, t: string, i: int)
    requires s != [] && i >= 1
    ensures OccursAt(s, t, i) <==> OccursAt(s[1..], t, i - 1)
  {
    if 0 <= i - 1 <= |s| - 1 - |t| {
      assert s[1..][i - 1..i - 1 + |t|] == s[i..i + |t|];
    }
  }

  /** The empty string occurs in every string. */
  lemma IncludesEmpty(s: string)
    ensures Includes(s, "")
  {
  }

  /** The characters `String.prototype.trim` removes: white space and line terminators. */
  predicate IsJsSpace(c: char)
  {
    c == ' ' || c == '\t' || c == '\n' || c == '\r' || c == '\U{B}' || c == '\U{C}'
    || c == '\U{A0}' || c == '\U{1680}' || ('\U{2000}' <= c <= '\U{200A}')
    || c == '\U{2028}' || c == '\U{2029}' || c == '\U{202F}' || c == '\U{205F}'
    || c == '\U{3000}' || c == '\U{FEFF}'
  }

  function TrimStart(s: string): (r: string)
    ensures |r| <= |s| && r == s[|s| - |r|..]
    ensures r != [] ==> !IsJsSpace(r[0])
    ensures forall i :: 0 <= i < |s| - |r| ==> IsJsSpace(s[i])
    decreases |s|
  {
    if s != [] && IsJsSpace(s[0]) then TrimStart(s[1..]) else s
  }

  function TrimEnd(s: string): (r: string)
    ensures |r| <= |s| && r == s[..|r|]
    ensures r != [] ==> !IsJsSpace(r[|r| - 1])
    ensures forall i :: |r| <= i < |s| ==> IsJsSpace(s[i])
    decreases |s|
  {
    if s != [] && IsJsSpace(s[|s| - 1]) then TrimEnd(s[..|s| - 1]) else s
  }

  /** r is the slice of s at i, and everything of s outside that slice is white space. */
  predicate SliceWithin(s: string, r: string, i: int)
  {
    && OccursAt(s, r, i)
    && (forall j :: 0 <= j < i ==> IsJsSpace(s[j]))
    && (forall j :: i + |r| <= j < |s| ==> IsJsSpace(s[j]))
  }

  /** `s.trim()`: the longest slice of s that neither starts nor ends with white space. */
  function Trim(s: string): (r: string)
    ensures r != [] ==> !IsJsSpace(r[0]) && !IsJsSpace(r[|r| - 1])
    ensures exists i :: SliceWithin(s, r, i)
  {
    var a := TrimStart(s);
    var r := TrimEnd(a);
    SliceOfSuffix(s, a, r);
    r
  }

  /** A prefix r of a suffix a of s lies within s, with only white space around it,
      when only white space was cut off at each step. */
  lemma SliceOfSuffix(s: string, a: string, r: string)
    requires |a| <= |s| && a == s[|s| - |a|..]
    requires |r| <= |a| && r == a[..|r|]
    requires forall j :: 0 <= j < |s| - |a| ==> IsJsSpace(s[j])
    requires forall j :: |r| <= j < |a| ==> IsJsSpace(a[j])
    ensures SliceWithin(s, r, |s| - |a|)
  {
    var i := |s| - |a|;
    assert s[i..i + |r|] == r;
    forall j | i + |r| <= j < |s|
      ensures IsJsSpace(s[j])
    {
      assert s[j] == a[j - i];
    }
  }

  /** Trimming twice is trimming once. */
  lemma TrimIdempotent(s: string)
    ensures Trim(Trim(s)) == Trim(s)
  {
  }

  /** The number of occurrences of c in s. */
  function CountChar(s: string, c: char): nat
  {
    if s == [] then 0 else (if s[0] == c then 1 else 0) + CountChar(s[1..], c)
  }

  /** `s.split(sep)` for a one-character separator: the pieces between separators,
      empty pieces included; the empty string splits into one empty piece. */
  function Split(s: string, sep: char): (r: seq<string>)
    ensures |r| >= 1
    decreases |s|
  {
    if s == [] then [""]
    else
      var rest := Split(s[1..], sep);
      if s[0] == sep then [""] + rest else [[s[0]] + rest[0]] + rest[1..]
  }

  /** `parts.join(sep)`. */
  function Join(parts: seq<string>, sep: char): string
    requires |parts| >= 1
    decreases |parts|
  {
    if |parts| == 1 then parts[0] else parts[0] + [sep] + Join(parts[1..], sep)
  }

  /** There is one more piece than there are separators. */
  lemma {:induction false} SplitCount(s: string, sep: char)
    ensures |Split(s, sep)| == CountChar(s, sep) + 1
    decreases |s|
  {
    if s != [] {
      SplitCount(s[1..], sep);
    }
  }

  /** No piece contains the separator. */
  lemma {:induction false} SplitPiecesFree(s: string, sep: char)
    ensures forall k :: 0 <= k < |Split(s, sep)| ==> sep !in Split(s, sep)[k]
    decreases |s|
  {
    if s != [] {
      SplitPiecesFree(s[1..], sep);
    }
  }

  /** Joining the pieces with the separator gives back the text. */
  lemma {:induction false} JoinSplit(s: string, sep: char)
    ensures Join(Split(s, sep), sep) == s
    decreases |s|
  {
    if s != [] {
      var rest := Split(s[1..], sep);
      JoinSplit(s[1..], sep);
      if s[0] != sep {
        var r := Split(s, sep);
        if |rest| == 1 {
          assert r == [[s[0]] + rest[0]];
        } else {
          assert r[1..] == rest[1..];
          assert Join(rest, sep) == rest[0] + [sep] + Join(rest[1..], sep);
        }
      }
    }
  }
}
