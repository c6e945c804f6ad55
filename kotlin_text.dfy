/**
 * The pieces of the Kotlin standard library that the OBJ loader leans on:
 * `String.split` with a one-character delimiter, `String.toInt()`, and the
 * 32-bit two's-complement arithmetic of Kotlin's `Int`.
 */
module KotlinText {
  import opened Wrappers

  const INT_MIN: int := -0x8000_0000
  const INT_MAX: int := 0x7FFF_FFFF

  predicate IsInt32(n: int) {
    INT_MIN <= n <= INT_MAX
  }

  /** The Kotlin `Int` that an exact result wraps to. */
  function Wrap32(n: int): (r: int)
    ensures IsInt32(r)
    ensures (r - n) % 0x1_0000_0000 == 0
    ensures IsInt32(n) ==> r == n
  {
    (n + 0x8000_0000) % 0x1_0000_0000 - 0x8000_0000
  }

  // ---------------------------------------------------------------------------
  // String.split(d) for a one-character delimiter

  /**
   * Kotlin's `s.split(d)`: the maximal delimiter-free pieces between
   * occurrences of `d`, empty ones included, so there is always one piece
   * more than there are delimiters and `"".split(d) == [""]`.
   */
  function Split(s: string, d: char): (pieces: seq<string>)
    ensures |pieces| >= 1
    decreases |s|
  {
    if s == [] then [""]
    else
      var rest := Split(s[1..], d);
      if s[0] == d then [""] + rest
      else [[s[0]] + rest[0]] + rest[1..]
  }

  /** The pieces glued back together with `d` between neighbours. */
  function Join(pieces: seq<string>, d: char): string
  {
    if pieces == [] then ""
    else if |pieces| == 1 then pieces[0]
    else pieces[0] + [d] + Join(pieces[1..], d)
  }

  predicate NoDelimiter(pieces: seq<string>, d: char) {
    forall i | 0 <= i < |pieces| :: d !in pieces[i]
  }

  /** Splitting loses nothing, and no piece holds the delimiter. */
  lemma {:induction false} JoinSplit(s: string, d: char)
    ensures Join(Split(s, d), d) == s
    ensures NoDelimiter(Split(s, d), d)
    decreases |s|
  {
    if s != [] {
      var rest := Split(s[1..], d);
      JoinSplit(s[1..], d);
      if s[0] == d {
        assert Split(s, d) == [""] + rest;
        assert ([""] + rest)[1..] == rest;
        assert s == [] + [d] + s[1..];
      } else {
        var ps := Split(s, d);
        assert ps == [[s[0]] + rest[0]] + rest[1..];
        if |rest| == 1 {
          assert s == [s[0]] + s[1..];
        } else {
          assert ps[1..] == rest[1..];
          assert Join(rest, d) == rest[0] + [d] + Join(rest[1..], d);
          assert s == [s[0]] + s[1..];
        }
        forall i | 0 <= i < |ps| ensures d !in ps[i] {
          if i > 0 { assert ps[i] == rest[i]; }
        }
      }
    }
  }

  /** Splitting a delimiter-free string gives it back as the only piece. */
  lemma {:induction false} SplitWithoutDelimiter(s: string, d: char)
    requires d !in s
    ensures Split(s, d) == [s]
    decreases |s|
  {
    if s != [] {
      SplitWithoutDelimiter(s[1..], d);
      assert [s[0]] + s[1..] == s;
    }
  }

  /** A delimiter-free head is split off as the first piece. */
  lemma {:induction false} SplitAfterPiece(a: string, d: char, b: string)
    requires d !in a
    ensures Split(a + [d] + b, d) == [a] + Split(b, d)
    decreases |a|
  {
    if a == [] {
      assert [] + [d] + b == [d] + b;
      assert ([d] + b)[1..] == b;
    } else {
      var s := a + [d] + b;
      assert s[1..] == a[1..] + [d] + b;
      SplitAfterPiece(a[1..], d, b);
      assert [a[0]] + a[1..] == a;
    }
  }

  /** Conversely, delimiter-free pieces are recovered by splitting their join. */
  lemma {:induction false} SplitJoin(pieces: seq<string>, d: char)
    requires |pieces| >= 1
    requires NoDelimiter(pieces, d)
    ensures Split(Join(pieces, d), d) == pieces
    decreases |pieces|
  {
    if |pieces| == 1 {
      SplitWithoutDelimiter(pieces[0], d);
    } else {
      SplitJoin(pieces[1..], d);
      SplitAfterPiece(pieces[0], d, Join(pieces[1..], d));
      assert [pieces[0]] + pieces[1..] == pieces;
    }
  }

  // ---------------------------------------------------------------------------
  // String.toInt()

  predicate IsDigit(c: char) {
    '0' <= c <= '9'
  }

  predicate AllDigits(s: string) {
    forall i | 0 <= i < |s| :: IsDigit(s[i])
  }

  /** The value of a run of decimal digits, most significant first. */
  function DigitsValue(s: string): nat
    requires AllDigits(s)
  {
    if s == [] then 0
    else DigitsValue(s[..|s| - 1]) * 10 + (s[|s| - 1] - '0') as int
  }

  /** A digit run, with its sign applied, if the result fits in an `Int`. */
  function SignedValue(digits: string, negative: bool): (r: Option<int>)
    ensures r.Some? <==> AllDigits(digits) && IsInt32(if negative then -(DigitsValue(digits) as int) else DigitsValue(digits))
  {
    if !AllDigits(digits) then None
    else
      var v: int := if negative then -(DigitsValue(digits) as int) else DigitsValue(digits);
      if IsInt32(v) then Some(v) else None
  }

  /**
   * Kotlin's `s.toInt()` in radix 10, `None` standing for the
   * NumberFormatException it throws: a non-empty string, an optional leading
   * `-` or `+` that must be followed by at least one digit, then only decimal
   * digits, whose value must fit in a 32-bit `Int`.
   */
  function ParseInt(s: string): (r: Option<int>)
    ensures r.Some? ==> IsInt32(r.value)
    ensures r.Some? ==> s != [] && (s[0] != '-' ==> r.value >= 0)
    ensures s == [] || (|s| == 1 && !IsDigit(s[0])) ==> r.None?
  {
    if s == [] then None
    else if s[0] < '0' then
      if |s| == 1 then None
      else if s[0] == '-' then SignedValue(s[1..], true)
      else if s[0] == '+' then SignedValue(s[1..], false)
      else None
    else SignedValue(s, false)
  }

  function DigitChar(n: nat): (c: char)
    requires n < 10
    ensures IsDigit(c) && (c - '0') as int == n
  {
    ('0' as int + n) as char
  }

  /** The decimal rendering of a natural number, without leading zeros. */
  function ShowNat(n: nat): (s: string)
    ensures |s| >= 1 && AllDigits(s)
  {
    if n < 10 then [DigitChar(n)]
    else ShowNat(n / 10) + [DigitChar(n % 10)]
  }

  /** `Int.toString()`: a minus sign for negative values, then the digits. */
  function ShowInt(n: int): string
  {
    if n < 0 then "-" + ShowNat(-n) else ShowNat(n)
  }

  lemma {:induction false} DigitsValueShowNat(n: nat)
    ensures DigitsValue(ShowNat(n)) == n
  {
    if n >= 10 {
      var s := ShowNat(n);
      assert s[..|s| - 1] == ShowNat(n / 10);
      DigitsValueShowNat(n / 10);
    }
  }

  /** `toInt()` reads back every `Int` that `toString()` writes. */
  lemma ParseShowInt(n: int)
    requires IsInt32(n)
    ensures ParseInt(ShowInt(n)) == Some(n)
  {
    if n < 0 {
      ParseShowNegative(n);
    } else {
      ParseShowNonNegative(n);
    }
  }

  lemma ParseShowNegative(n: int)
    requires IsInt32(n) && n < 0
    ensures ParseInt(ShowInt(n)) == Some(n)
  {
    ParseMinus(ShowNat(-n));
    SignedShowNat(-n, true);
  }

  /** A `-` followed by a non-empty tail is a negative digit run. */
  lemma ParseMinus(t: string)
    requires t != []
    ensures ParseInt("-" + t) == SignedValue(t, true)
  {
    assert ("-" + t)[1..] == t;
  }

  /** The digits `toString()` writes, with a sign, read back as the signed number. */
  lemma SignedShowNat(m: nat, negative: bool)
    requires IsInt32(if negative then -(m as int) else m)
    ensures SignedValue(ShowNat(m), negative) == Some(if negative then -(m as int) else m)
  {
    DigitsValueShowNat(m);
  }

  lemma ParseShowNonNegative(n: int)
    requires IsInt32(n) && n >= 0
    ensures ParseInt(ShowInt(n)) == Some(n)
  {
    var s := ShowInt(n);
    DigitsValueShowNat(n);
    assert IsDigit(s[0]);
    assert ParseInt(s) == SignedValue(s, false);
  }
}
