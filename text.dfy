/**
 * The pieces of Rust's standard library that the puzzle code leans on:
 * `str::split` on one separator character, `str::parse` for unsigned and
 * signed integers, and `to_string` for integers.  Each is written out so
 * that the loaders built on top of them can be reasoned about.
 */
module Text {
  import opened Wrappers

  /** Largest `usize` on a 64-bit target: `"…".parse::<usize>()` fails above it. */
  const USIZE_MAX: nat := 0xFFFF_FFFF_FFFF_FFFF
  /** Range of `i16`, the coordinate and distance type of the wire puzzle. */
  const I16_MIN: int := -0x8000
  const I16_MAX: int := 0x7FFF

  /** The magnitude of an integer. */
  function Abs(n: int): nat {
    if n < 0 then -n else n
  }

  predicate IsDigit(c: char) {
    '0' <= c <= '9'
  }

  predicate AllDigits(s: string) {
    forall i :: 0 <= i < |s| ==> IsDigit(s[i])
  }

  function DigitValue(c: char): (d: nat)
    requires IsDigit(c)
    ensures d < 10
  {
    (c as int) - ('0' as int)
  }

  function DigitChar(d: nat): (c: char)
    requires d < 10
    ensures IsDigit(c) && DigitValue(c) == d
  {
    ('0' as int + d) as char
  }

  /** The number a string of decimal digits denotes, most significant first. */
  function Value(s: string): nat
    requires AllDigits(s)
  {
    if s == [] then 0 else Value(s[..|s| - 1]) * 10 + DigitValue(s[|s| - 1])
  }

  /** `n.to_string()` for a non-negative integer: no sign, no leading zeros. */
  function NatToString(n: nat): (s: string)
    ensures |s| >= 1 && AllDigits(s)
    ensures s[0] == '0' ==> n == 0
  {
    if n < 10 then [DigitChar(n)] else NatToString(n / 10) + [DigitChar(n % 10)]
  }

  /** `i.to_string()` for any integer: a '-' in front of the magnitude when negative. */
  function IntToString(i: int): (s: string)
    ensures |s| >= 1
    ensures s[0] == '-' <==> i < 0
    ensures forall k :: 0 <= k < |s| ==> IsDigit(s[k]) || (k == 0 && s[k] == '-')
  {
    if i < 0 then "-" + NatToString(-i) else NatToString(i)
  }

  lemma {:induction false} ValueOfNatToString(n: nat)
    ensures Value(NatToString(n)) == n
  {
    if n >= 10 {
      var s := NatToString(n);
      ValueOfNatToString(n / 10);
      assert s[..|s| - 1] == NatToString(n / 10);
    }
  }

  /**
   * `s.parse::<uN>()` for an unsigned type whose largest value is `max`:
   * an optional '+' followed by at least one decimal digit, and a value no
   * larger than `max`.  Anything else (the empty string, a lone sign, a '-',
   * whitespace, an overflowing value) is an error.
   */
  function ParseUnsigned(s: string, max: nat): (r: Option<nat>)
    ensures r.Some? <==>
      && s != []
      && var ds := if s[0] == '+' then s[1..] else s;
      && ds != [] && AllDigits(ds) && Value(ds) <= max
    ensures r.Some? ==> r.value == Value(if s[0] == '+' then s[1..] else s)
    ensures r.Some? ==> r.value <= max
    ensures r.Some? ==> s != [] && (s[0] == '+' || IsDigit(s[0]))
    ensures s != [] && AllDigits(s) && Value(s) <= max ==> r == Some(Value(s))
    ensures s == [] || s == "+" || '-' in s ==> r == None
  {
    if s == [] then None
    else
      var digits := if s[0] == '+' then s[1..] else s;
      if digits != [] && AllDigits(digits) && Value(digits) <= max then Some(Value(digits)) else None
  }

  /**
   * `s.parse::<iN>()` for a signed type with range `[min, max]`: an optional
   * '+' or '-' followed by at least one decimal digit, and a value in range.
   */
  function ParseSigned(s: string, min: int, max: int): (r: Option<int>)
    ensures r.Some? <==>
      && s != []
      && var ds := if s[0] == '+' || s[0] == '-' then s[1..] else s;
      && ds != [] && AllDigits(ds)
      && min <= (if s[0] == '-' then -(Value(ds) as int) else Value(ds)) <= max
    ensures r.Some? ==>
      var ds := if s[0] == '+' || s[0] == '-' then s[1..] else s;
      r.value == if s[0] == '-' then -(Value(ds) as int) else Value(ds)
    ensures r.Some? ==> min <= r.value <= max
    ensures s == [] || s == "+" || s == "-" ==> r == None
  {
    if s == [] then None
    else
      var signed := s[0] == '+' || s[0] == '-';
      var digits := if signed then s[1..] else s;
      if digits == [] || !AllDigits(digits) then None
      else
        var magnitude: int := Value(digits);
        var v := if s[0] == '-' then -magnitude else magnitude;
        if min <= v <= max then Some(v) else None
  }

  /**
   * A trailing newline or a blank makes a token fail, and a leading '+' is
   * accepted, for both kinds of integer.
   */
  lemma ParseExamples()
    ensures ParseUnsigned("99\n", USIZE_MAX) == None
    ensures ParseUnsigned(" 1", USIZE_MAX) == None
    ensures ParseUnsigned("+5", USIZE_MAX) == Some(5)
    ensures ParseUnsigned("007", USIZE_MAX) == Some(7)
    ensures ParseSigned("-5", I16_MIN, I16_MAX) == Some(-5)
    ensures ParseSigned("+5", I16_MIN, I16_MAX) == Some(5)
    ensures ParseSigned("5\n", I16_MIN, I16_MAX) == None
  {
    assert !IsDigit('\n') && !IsDigit(' ');
    assert Value("5") == 5 && Value("7") == 7;
    assert Value("007") == Value("00") * 10 + 7;
  }

  lemma ParseUnsignedOfNatToString(n: nat, max: nat)
    requires n <= max
    ensures ParseUnsigned(NatToString(n), max) == Some(n)
  {
    ValueOfNatToString(n);
  }

  lemma ParseSignedOfIntToString(i: int, min: int, max: int)
    requires min <= i <= max
    ensures ParseSigned(IntToString(i), min, max) == Some(i)
  {
    var s := IntToString(i);
    if i < 0 {
      ValueOfNatToString(-i);
      assert s[1..] == NatToString(-i);
    } else {
      ValueOfNatToString(i);
    }
  }

  /**
   * `s.split(sep)`: the pieces between separators, in order, empty pieces
   * included; the empty string splits into one empty piece.
   */
  function Split(s: string, sep: char): (r: seq<string>)
    ensures |r| >= 1
    ensures forall k :: 0 <= k < |r| ==> sep !in r[k]
    decreases |s|
  {
    if s == [] then [[]]
    else
      var rest := Split(s[1..], sep);
      if s[0] == sep then [[]] + rest else [[s[0]] + rest[0]] + rest[1..]
  }

  /** The pieces again, with `sep` between neighbours: the inverse of `Split`. */
  function Join(pieces: seq<string>, sep: char): string
    requires |pieces| >= 1
  {
    if |pieces| == 1 then pieces[0] else pieces[0] + [sep] + Join(pieces[1..], sep)
  }

  lemma {:induction false} SplitOfPiece(t: string, u: string, sep: char)
    requires sep !in t
    ensures Split(t, sep) == [t]
    ensures Split(t + [sep] + u, sep) == [t] + Split(u, sep)
    decreases |t|
  {
    if t == [] {
      assert t + [sep] + u == [sep] + u;
      assert ([sep] + u)[1..] == u;
    } else {
      SplitOfPiece(t[1..], u, sep);
      assert (t + [sep] + u)[1..] == t[1..] + [sep] + u;
      assert [t[0]] + t[1..] == t;
    }
  }

  lemma {:induction false} SplitJoin(pieces: seq<string>, sep: char)
    requires |pieces| >= 1
    requires forall k :: 0 <= k < |pieces| ==> sep !in pieces[k]
    ensures Split(Join(pieces, sep), sep) == pieces
    decreases |pieces|
  {
    if |pieces| == 1 {
      SplitOfPiece(pieces[0], [], sep);
    } else {
      SplitJoin(pieces[1..], sep);
      SplitOfPiece(pieces[0], Join(pieces[1..], sep), sep);
    }
  }
}
