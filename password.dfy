/**
 * The password rules of src/day04.rs.  A number is taken apart into its
 * decimal digits (`Digits`), and two checks run over neighbouring digits:
 * `NonDecreasing` and `HasDouble`.  A candidate password passes when both
 * hold.
 *
 * As written, `non_decreasing` returns false when a digit is smaller than
 * the one after it, so it accepts the numbers whose digits never RISE.  The
 * model keeps that behaviour in `NonDecreasing` and `IsPossiblePwd`; the
 * check its name and the puzzle call for, digits that never fall, is
 * `NeverDecreases`, proved against the all-pairs definition `Ascending`.
 */
module Password {
  import opened Wrappers
  import Text

  datatype Digit = Zero | One | Two | Three | Four | Five | Six | Seven | Eight | Nine

  /** The discriminant of each variant. */
  function Value(d: Digit): (v: nat)
    ensures v <= 9
  {
    match d
    case Zero => 0 case One => 1 case Two => 2 case Three => 3 case Four => 4
    case Five => 5 case Six => 6 case Seven => 7 case Eight => 8 case Nine => 9
  }

  lemma ValueInjective(a: Digit, b: Digit)
    ensures Value(a) == Value(b) <==> a == b
  {
  }

  /** The derived `<` on `Digit`, declaration order, which is the order of the values. */
  predicate Less(a: Digit, b: Digit): (r: bool)
    ensures r ==> a != b
    ensures a != b ==> (r <==> !(Value(b) < Value(a)))
  {
    ValueInjective(a, b);
    Value(a) < Value(b)
  }

  /** `Digit::from(char)`: '0' to '9' map to their digit; any other character is the panic, here `None`. */
  function DigitFromChar(c: char): (r: Option<Digit>)
    ensures r.Some? <==> Text.IsDigit(c)
    ensures r.Some? ==> Value(r.value) == Text.DigitValue(c)
  {
    match c
    case '0' => Some(Zero) case '1' => Some(One) case '2' => Some(Two) case '3' => Some(Three)
    case '4' => Some(Four) case '5' => Some(Five) case '6' => Some(Six) case '7' => Some(Seven)
    case '8' => Some(Eight) case '9' => Some(Nine)
    case _ => None
  }

  lemma DigitFromCharOfValue(d: Digit)
    ensures DigitFromChar(Text.DigitChar(Value(d))) == Some(d)
  {
  }

  /** `.chars().map(Digit::from).collect()`: every character a digit, or the panic. */
  function DigitsOfText(s: string): (r: Option<seq<Digit>>)
    ensures r.Some? <==> Text.AllDigits(s)
    ensures r.Some? ==> |r.value| == |s| && forall k :: 0 <= k < |s| ==> Value(r.value[k]) == Text.DigitValue(s[k])
  {
    if s == [] then Some([])
    else
      match DigitFromChar(s[0])
      case None => None
      case Some(d) =>
        match DigitsOfText(s[1..])
        case None => None
        case Some(ds) => Some([d] + ds)
  }

  /** The number a sequence of digits denotes, most significant first. */
  function Number(ds: seq<Digit>): nat {
    if ds == [] then 0 else Number(ds[..|ds| - 1]) * 10 + Value(ds[|ds| - 1])
  }

  lemma {:induction false} NumberOfText(ds: seq<Digit>, s: string)
    requires Text.AllDigits(s) && |ds| == |s|
    requires forall k :: 0 <= k < |s| ==> Value(ds[k]) == Text.DigitValue(s[k])
    ensures Number(ds) == Text.Value(s)
    decreases |s|
  {
    if s != [] {
      NumberOfText(ds[..|ds| - 1], s[..|s| - 1]);
    }
  }

  /**
   * `Digits::from(i32)`: the digits of `i.to_string()`.  A negative number
   * starts with '-', which is the panic, here `None`.
   */
  function DigitsOf(i: int): (r: Option<seq<Digit>>)
    ensures r.Some? <==> i >= 0
    ensures r.Some? ==> |r.value| >= 1 && Number(r.value) == i
    ensures r.Some? ==> (r.value[0] == Zero ==> i == 0)
  {
    var s := Text.IntToString(i);
    var r := DigitsOfText(s);
    if i >= 0 then
      Text.ValueOfNatToString(i);
      NumberOfText(r.value, s);
      assert r.value[0] == Zero ==> s[0] == '0';
      r
    else
      assert !Text.IsDigit(s[0]);
      r
  }

  /** The text of a digit sequence: each digit's character. */
  function Chars(ds: seq<Digit>): (s: string)
    ensures |s| == |ds| && Text.AllDigits(s)
    ensures forall k :: 0 <= k < |ds| ==> s[k] == Text.DigitChar(Value(ds[k]))
  {
    if ds == [] then [] else Chars(ds[..|ds| - 1]) + [Text.DigitChar(Value(ds[|ds| - 1]))]
  }

  lemma {:induction false} DigitsOfChars(ds: seq<Digit>)
    ensures DigitsOfText(Chars(ds)) == Some(ds)
    decreases |ds|
  {
    if ds != [] {
      var s := Chars(ds);
      DigitsOfChars(ds[1..]);
      assert s[1..] == Chars(ds[1..]);
      DigitFromCharOfValue(ds[0]);
      assert [ds[0]] + ds[1..] == ds;
    }
  }

  /** A sequence without a leading zero is the only way to write its number. */
  predicate Canonical(ds: seq<Digit>) {
    |ds| >= 1 && (ds[0] == Zero ==> |ds| == 1)
  }

  lemma {:induction false} NumberPositive(ds: seq<Digit>)
    requires |ds| >= 1 && ds[0] != Zero
    ensures Number(ds) >= 1
    decreases |ds|
  {
    if |ds| > 1 {
      NumberPositive(ds[..|ds| - 1]);
    }
  }

  lemma {:induction false} NatToStringOfNumber(ds: seq<Digit>)
    requires Canonical(ds)
    ensures Text.NatToString(Number(ds)) == Chars(ds)
    decreases |ds|
  {
    if |ds| > 1 {
      var prefix := ds[..|ds| - 1];
      NatToStringOfNumber(prefix);
      NumberPositive(prefix);
      var n := Number(ds);
      assert n / 10 == Number(prefix) && n % 10 == Value(ds[|ds| - 1]);
    }
  }

  /** `Digits::from` is the inverse of reading the digits as a number. */
  lemma DigitsOfNumber(ds: seq<Digit>)
    requires Canonical(ds)
    ensures DigitsOf(Number(ds)) == Some(ds)
  {
    NatToStringOfNumber(ds);
    DigitsOfChars(ds);
  }

  /** What `non_decreasing` checks: no digit is smaller than the digit after it. */
  predicate NeverRises(ds: seq<Digit>) {
    forall k :: 0 <= k < |ds| - 1 ==> !Less(ds[k], ds[k + 1])
  }

  /** What `has_double` checks: two neighbouring digits are equal. */
  predicate HasPair(ds: seq<Digit>) {
    exists k :: 0 <= k < |ds| - 1 && ds[k] == ds[k + 1]
  }

  /** Digits that never fall from left to right, over every pair of positions. */
  predicate Ascending(ds: seq<Digit>) {
    forall j, k :: 0 <= j < k < |ds| ==> Value(ds[j]) <= Value(ds[k])
  }

  lemma {:induction false} AscendingFromNeighbours(ds: seq<Digit>)
    requires forall k :: 0 <= k < |ds| - 1 ==> Value(ds[k]) <= Value(ds[k + 1])
    ensures Ascending(ds)
    decreases |ds|
  {
    if |ds| > 1 {
      var tail := ds[1..];
      AscendingFromNeighbours(tail);
      forall j, k | 0 <= j < k < |ds|
        ensures Value(ds[j]) <= Value(ds[k])
      {
        if j > 0 {
          assert ds[j] == tail[j - 1] && ds[k] == tail[k - 1];
        } else if k > 1 {
          assert ds[k] == tail[k - 1] && ds[1] == tail[0];
        }
      }
    }
  }

  /** A number whose digits the source takes apart, with the position `next` has reached. */
  class Digits {
    var digits: seq<Digit>
    var index: nat

    ghost predicate Valid()
      reads this
    {
      index <= |digits|
    }

    /** `Digits::from(i)`, which requires a non-negative `i` (a negative one panics). */
    constructor FromInt(i: int)
      requires i >= 0
      ensures Valid()
      ensures DigitsOf(i) == Some(digits) && index == 0
    {
      digits := DigitsOf(i).value;
      index := 0;
    }

    /** `is_possible_pwd`. */
    method IsPossiblePwd() returns (ok: bool)
      ensures ok <==> NeverRises(digits) && HasPair(digits)
    {
      ok := NonDecreasing();
      if ok {
        ok := HasDouble();
      }
    }

    /** `non_decreasing`, as written: false at the first digit smaller than its successor. */
    method NonDecreasing() returns (ok: bool)
      ensures ok <==> NeverRises(digits)
    {
      var k := 0;
      while k < |digits|
        invariant 0 <= k <= |digits|
        invariant forall j :: 0 <= j < k && j + 1 < |digits| ==> !Less(digits[j], digits[j + 1])
      {
        if k + 1 < |digits| && Less(digits[k], digits[k + 1]) {
          return false;
        }
        k := k + 1;
      }
      return true;
    }

    /** `has_double`: true at the first digit equal to its successor. */
    method HasDouble() returns (found: bool)
      ensures found <==> HasPair(digits)
    {
      var k := 0;
      while k < |digits|
        invariant 0 <= k <= |digits|
        invariant forall j :: 0 <= j < k && j + 1 < |digits| ==> digits[j] != digits[j + 1]
      {
        if k + 1 < |digits| && digits[k] == digits[k + 1] {
          return true;
        }
        k := k + 1;
      }
      return false;
    }

    /** The check `non_decreasing` was meant to be: false at the first digit larger than its successor. */
    method NeverDecreases() returns (ok: bool)
      ensures ok <==> Ascending(digits)
    {
      var k := 0;
      while k < |digits|
        invariant 0 <= k <= |digits|
        invariant forall j :: 0 <= j < k && j + 1 < |digits| ==> Value(digits[j]) <= Value(digits[j + 1])
      {
        if k + 1 < |digits| && Less(digits[k + 1], digits[k]) {
          assert !Ascending(digits) by {
            assert Value(digits[k]) > Value(digits[k + 1]);
          }
          return false;
        }
        k := k + 1;
      }
      AscendingFromNeighbours(digits);
      return true;
    }

    /** The password rule the puzzle states: digits that never fall, and a pair of equal neighbours. */
    method IsValidPassword() returns (ok: bool)
      ensures ok <==> Ascending(digits) && HasPair(digits)
    {
      ok := NeverDecreases();
      if ok {
        ok := HasDouble();
      }
    }

    /** `Iterator::next`: the digits in order, then `None` once every one has been handed out. */
    method Next() returns (d: Option<Digit>)
      requires Valid()
      modifies this`index
      ensures Valid()
      ensures old(index) < |digits| ==> d == Some(digits[old(index)]) && index == old(index) + 1
      ensures old(index) == |digits| ==> d == None && index == old(index)
    {
      if index < |digits| {
        index := index + 1;
        d := Some(digits[index - 1]);
      } else {
        d := None;
      }
    }
  }

  lemma NumberSnoc(ds: seq<Digit>, d: Digit)
    ensures Number(ds + [d]) == Number(ds) * 10 + Value(d)
  {
    assert (ds + [d])[..|ds|] == ds;
  }

  /** The number six digits denote. */
  lemma NumberOfSix(a: Digit, b: Digit, c: Digit, d: Digit, e: Digit, f: Digit)
    ensures Number([a, b, c, d, e, f]) ==
      ((((Value(a) * 10 + Value(b)) * 10 + Value(c)) * 10 + Value(d)) * 10 + Value(e)) * 10 + Value(f)
  {
    assert [] + [a] == [a];
    NumberSnoc([], a);
    NumberSnoc([a], b);
    assert [a] + [b] == [a, b];
    NumberSnoc([a, b], c);
    assert [a, b] + [c] == [a, b, c];
    NumberSnoc([a, b, c], d);
    assert [a, b, c] + [d] == [a, b, c, d];
    NumberSnoc([a, b, c, d], e);
    assert [a, b, c, d] + [e] == [a, b, c, d, e];
    NumberSnoc([a, b, c, d, e], f);
    assert [a, b, c, d, e] + [f] == [a, b, c, d, e, f];
  }

  /** The `has_double` test, first case: 111111 passes. */
  lemma Test111111()
    ensures DigitsOf(111111) == Some([One, One, One, One, One, One])
    ensures NeverRises(DigitsOf(111111).value) && HasPair(DigitsOf(111111).value)
  {
    NumberOfSix(One, One, One, One, One, One);
    DigitsOfNumber([One, One, One, One, One, One]);
    assert DigitsOf(111111).value[0] == DigitsOf(111111).value[1];
  }

  /** Second case: 223450 fails because 2 is followed by 3. */
  lemma Test223450()
    ensures DigitsOf(223450) == Some([Two, Two, Three, Four, Five, Zero])
    ensures !NeverRises(DigitsOf(223450).value)
  {
    NumberOfSix(Two, Two, Three, Four, Five, Zero);
    DigitsOfNumber([Two, Two, Three, Four, Five, Zero]);
    assert Less(DigitsOf(223450).value[1], DigitsOf(223450).value[2]);
  }

  /** Third case: 123789 fails both checks. */
  lemma Test123789()
    ensures DigitsOf(123789) == Some([One, Two, Three, Seven, Eight, Nine])
    ensures !NeverRises(DigitsOf(123789).value) && !HasPair(DigitsOf(123789).value)
  {
    NumberOfSix(One, Two, Three, Seven, Eight, Nine);
    DigitsOfNumber([One, Two, Three, Seven, Eight, Nine]);
    assert Less(DigitsOf(123789).value[0], DigitsOf(123789).value[1]);
  }

  /**
   * `non_decreasing` as written rejects 123345, whose digits never fall and
   * which has the pair 33.
   */
  lemma NonDecreasingRejects123345()
    ensures DigitsOf(123345) == Some([One, Two, Three, Three, Four, Five])
    ensures Ascending(DigitsOf(123345).value) && HasPair(DigitsOf(123345).value)
    ensures !NeverRises(DigitsOf(123345).value)
  {
    var up := [One, Two, Three, Three, Four, Five];
    NumberOfSix(One, Two, Three, Three, Four, Five);
    DigitsOfNumber(up);
    AscendingFromNeighbours(up);
    assert Less(up[0], up[1]) && up[2] == up[3];
  }

  /** ... and accepts 654431, whose digits fall. */
  lemma NonDecreasingAccepts654431()
    ensures DigitsOf(654431) == Some([Six, Five, Four, Four, Three, One])
    ensures NeverRises(DigitsOf(654431).value) && HasPair(DigitsOf(654431).value)
    ensures !Ascending(DigitsOf(654431).value)
  {
    var down := [Six, Five, Four, Four, Three, One];
    NumberOfSix(Six, Five, Four, Four, Three, One);
    DigitsOfNumber(down);
    assert down[2] == down[3] && Value(down[0]) > Value(down[1]);
  }
}
