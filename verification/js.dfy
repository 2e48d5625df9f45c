/**
 * The fragment of JavaScript's built-in semantics that the proxy relies on:
 * its values, Number::toString on integers, String.prototype.split/includes,
 * Array.prototype.join/slice, ToString and the string-to-number coercion.
 */
module Js {

  datatype Option<T> = None | Some(value: T)

  /**
   * A JavaScript value as it travels through the proxy: the fields of backend
   * records, ids and request-body fields. Numbers are integers; objects keep
   * their keys in insertion order.
   */
  datatype Value =
    | Undefined
    | Null
    | Bool(b: bool)
    | Int(i: int)
    | Str(s: string)
    | Arr(items: seq<Value>)
    | Obj(fields: seq<(string, Value)>)

  function Max(a: int, b: int): int { if a < b then b else a }
  function Min(a: int, b: int): int { if a < b then a else b }

  // ---------------------------------------------------------------------------
  // Decimal digits

  predicate IsDigit(c: char) { '0' <= c <= '9' }

  predicate AllDigits(s: string) { forall k :: 0 <= k < |s| ==> IsDigit(s[k]) }

  function DigitChar(d: nat): (c: char)
    requires d < 10
    ensures IsDigit(c)
  {
    ('0' as int + d) as char
  }

  function DigitValue(c: char): (d: nat)
    requires IsDigit(c)
    ensures d < 10 && DigitChar(d) == c
  {
    c as int - '0' as int
  }

  /** The decimal digits of `n`, most significant first, without leading zeros. */
  function NatDigits(n: nat): (r: string)
    ensures |r| > 0 && AllDigits(r)
    ensures r[0] == '0' ==> n == 0
    decreases n
  {
    if n < 10 then [DigitChar(n)] else NatDigits(n / 10) + [DigitChar(n % 10)]
  }

  /** Number::toString for an integral number. */
  function Decimal(n: int): string {
    if n < 0 then "-" + NatDigits(-n) else NatDigits(n)
  }

  /** The value of a string of decimal digits, read most significant first. */
  function DigitsValue(s: string): nat
    requires AllDigits(s)
  {
    if s == [] then 0 else 10 * DigitsValue(s[..|s| - 1]) + DigitValue(s[|s| - 1])
  }

  /** Reading back the digits of a natural number gives the number. */
  lemma {:induction false} DigitsValueOfNatDigits(n: nat)
    ensures DigitsValue(NatDigits(n)) == n
    decreases n
  {
    if n >= 10 {
      var r := NatDigits(n);
      assert r[..|r| - 1] == NatDigits(n / 10);
      DigitsValueOfNatDigits(n / 10);
    }
  }

  /** Distinct naturals have distinct digit strings. */
  lemma NatDigitsInjective(m: nat, n: nat)
    ensures NatDigits(m) == NatDigits(n) ==> m == n
  {
    DigitsValueOfNatDigits(m);
    DigitsValueOfNatDigits(n);
  }

  // ---------------------------------------------------------------------------
  // Strings: join, split, includes

  /** Array.prototype.join(sep) on strings. */
  function Join(parts: seq<string>, sep: char): string {
    if |parts| == 0 then ""
    else if |parts| == 1 then parts[0]
    else parts[0] + [sep] + Join(parts[1..], sep)
  }

  /** String.prototype.split(sep) for a one-character separator. */
  function Split(s: string, sep: char): (parts: seq<string>)
    ensures |parts| >= 1
    ensures forall k :: 0 <= k < |parts| ==> sep !in parts[k]
  {
    if s == [] then [""]
    else if s[0] == sep then [""] + Split(s[1..], sep)
    else
      var rest := Split(s[1..], sep);
      [[s[0]] + rest[0]] + rest[1..]
  }

  /** Joining the pieces of a split gives back the string. */
  lemma {:induction false} JoinSplit(s: string, sep: char)
    ensures Join(Split(s, sep), sep) == s
  {
    if s != [] {
      JoinSplit(s[1..], sep);
      var rest := Split(s[1..], sep);
      if s[0] == sep {
        assert Split(s, sep) == [""] + rest;
        assert ([""] + rest)[1..] == rest;
      } else {
        var parts := [[s[0]] + rest[0]] + rest[1..];
        assert Split(s, sep) == parts;
        if |rest| == 1 {
          assert Join(rest, sep) == rest[0];
        } else {
          assert parts[1..] == rest[1..];
          assert Join(rest, sep) == rest[0] + [sep] + Join(rest[1..], sep);
        }
      }
    }
  }

  /** A separator-free prefix followed by the separator is split off as one piece. */
  lemma {:induction false} SplitAtSeparator(a: string, sep: char, b: string)
    requires sep !in a
    ensures Split(a + [sep] + b, sep) == [a] + Split(b, sep)
  {
    if a != [] {
      SplitAtSeparator(a[1..], sep, b);
      assert (a + [sep] + b)[1..] == a[1..] + [sep] + b;
      assert [a[0]] + a[1..] == a;
    } else {
      assert a + [sep] + b == [sep] + b;
    }
  }

  /** A separator-free string splits into itself alone. */
  lemma {:induction false} SplitWithoutSeparator(a: string, sep: char)
    requires sep !in a
    ensures Split(a, sep) == [a]
  {
    if a != [] {
      SplitWithoutSeparator(a[1..], sep);
      assert [a[0]] + a[1..] == a;
    }
  }

  /** Splitting a join of separator-free pieces gives back the pieces. */
  lemma {:induction false} SplitJoin(parts: seq<string>, sep: char)
    requires |parts| >= 1
    requires forall k :: 0 <= k < |parts| ==> sep !in parts[k]
    ensures Split(Join(parts, sep), sep) == parts
  {
    if |parts| == 1 {
      SplitWithoutSeparator(parts[0], sep);
    } else {
      SplitJoin(parts[1..], sep);
      SplitAtSeparator(parts[0], sep, Join(parts[1..], sep));
      assert [parts[0]] + parts[1..] == parts;
    }
  }

  /** A join of two or more pieces holds the separator right after the first piece. */
  lemma JoinHasSeparator(parts: seq<string>, sep: char)
    requires |parts| >= 2
    ensures |Join(parts, sep)| > |parts[0]| && Join(parts, sep)[|parts[0]|] == sep
  {
  }

  /** `p` occurs in `s` at position `i`. */
  ghost predicate OccursAt(s: string, p: string, i: int) {
    0 <= i && i + |p| <= |s| && s[i..i + |p|] == p
  }

  /** String.prototype.includes. */
  function Includes(s: string, p: string): bool
    decreases |s|
  {
    if |p| > |s| then false
    else if s[..|p|] == p then true
    else Includes(s[1..], p)
  }

  /** `Includes` holds exactly when the pattern occurs at some position. */
  lemma {:induction false} IncludesIff(s: string, p: string)
    ensures Includes(s, p) <==> exists i :: OccursAt(s, p, i)
    decreases |s|
  {
    if |p| > |s| {
    } else if s[..|p|] == p {
      assert OccursAt(s, p, 0);
    } else {
      IncludesIff(s[1..], p);
      if Includes(s[1..], p) {
        var i :| OccursAt(s[1..], p, i);
        assert s[i + 1..i + 1 + |p|] == s[1..][i..i + |p|];
        assert OccursAt(s, p, i + 1);
      }
      if exists i :: OccursAt(s, p, i) {
        var i :| OccursAt(s, p, i);
        assert i != 0;
        assert s[1..][i - 1..i - 1 + |p|] == s[i..i + |p|];
        assert OccursAt(s[1..], p, i - 1);
      }
    }
  }

  /** A concrete occurrence makes `Includes` hold. */
  lemma IncludesAt(s: string, p: string, i: int)
    requires OccursAt(s, p, i)
    ensures Includes(s, p)
  {
    IncludesIff(s, p);
  }

  /** A string includes itself, and what a string includes survives text added on either side. */
  lemma IncludesAppend(s: string, t: string, p: string)
    requires Includes(s, p)
    ensures Includes(s + t, p) && Includes(t + s, p)
  {
    IncludesIff(s, p);
    var i :| OccursAt(s, p, i);
    assert (s + t)[i..i + |p|] == s[i..i + |p|];
    IncludesAt(s + t, p, i);
    assert (t + s)[|t| + i..|t| + i + |p|] == s[i..i + |p|];
    IncludesAt(t + s, p, |t| + i);
  }

  // ---------------------------------------------------------------------------
  // Coercions

  /**
   * ToString, as a template literal applies it. Arrays use
   * Array.prototype.join(','), which writes undefined and null elements as
   * the empty string; every plain object prints as "[object Object]".
   */
  function ToString(v: Value): string {
    match v
    case Undefined => "undefined"
    case Null => "null"
    case Bool(b) => if b then "true" else "false"
    case Int(i) => Decimal(i)
    case Str(s) => s
    case Arr(items) =>
      Join(seq(|items|, k requires 0 <= k < |items| =>
             if items[k].Undefined? || items[k].Null? then "" else ToString(items[k])), ',')
    case Obj(_) => "[object Object]"
  }

  /**
   * StringToNumber, limited to the empty string (zero) and an optionally
   * signed run of decimal digits; every other string reads as NaN (None).
   */
  function StringToNumber(s: string): (r: Option<int>)
    ensures r.Some? ==> forall k :: 0 <= k < |s| ==> IsDigit(s[k]) || (k == 0 && s[k] in "+-")
  {
    if s == [] then Some(0)
    else if s[0] == '-' && |s| > 1 && AllDigits(s[1..]) then Some(0 - DigitsValue(s[1..]) as int)
    else if s[0] == '+' && |s| > 1 && AllDigits(s[1..]) then Some(DigitsValue(s[1..]))
    else if AllDigits(s) then Some(DigitsValue(s))
    else None
  }

  /** Number::toString of an integer reads back as that integer. */
  lemma StringToNumberOfDecimal(n: int)
    ensures StringToNumber(Decimal(n)) == Some(n)
  {
    var m: nat := if n < 0 then -n else n;
    var digits := NatDigits(m);
    DigitsValueOfNatDigits(m);
    if n < 0 {
      assert Decimal(n) == "-" + digits && ("-" + digits)[1..] == digits;
    } else {
      assert !(digits[0] in "+-");
    }
  }

  /** ToIntegerOrInfinity of a number read by `StringToNumber`: NaN becomes 0. */
  function IntegerOrZero(n: Option<int>): int {
    match n
    case None => 0
    case Some(k) => k
  }

  /**
   * Array.prototype.slice(start, end) with integer arguments: negative
   * positions count from the end, and every position is clamped to the array.
   */
  function Slice<T>(s: seq<T>, start: int, end: int): (r: seq<T>)
    ensures |r| <= |s| && multiset(r) <= multiset(s)
  {
    var from := if start < 0 then Max(|s| + start, 0) else Min(start, |s|);
    var to := if end < 0 then Max(|s| + end, 0) else Min(end, |s|);
    if from < to then
      assert s == s[..from] + s[from..to] + s[to..];
      s[from..to]
    else []
  }

  /** From the start, slice keeps a prefix whose length is the clamped end. */
  lemma SliceFromStart<T>(s: seq<T>, end: int)
    ensures 0 <= end ==> Slice(s, 0, end) == s[..Min(end, |s|)]
    ensures end < 0 ==> Slice(s, 0, end) == s[..Max(|s| + end, 0)]
  {
  }
}
