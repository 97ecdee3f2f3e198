/**
 * Fuel for a module of a given mass (src/day01.rs): a third of the mass,
 * rounded toward zero, less two, when that is positive; and the total once
 * the fuel's own fuel is added, again and again, until nothing more is needed.
 */
module Fuel {
  import opened Wrappers
  import Text

  /** Rust's `/` on signed integers: the quotient truncated toward zero. */
  function TruncDiv(a: int, b: int): (q: int)
    requires b != 0
    // the remainder is smaller than the divisor and has the sign of the dividend
    ensures Text.Abs(a - q * b) < Text.Abs(b)
    ensures a - q * b == 0 || (a - q * b > 0 <==> a > 0)
    ensures a >= 0 && b > 0 ==> q == a / b
  {
    if a >= 0 then a / b
    else if b > 0 then -((-a) / b)
    else (-a) / (-b)
  }

  /** Truncation and Dafny's Euclidean division differ on negative operands. */
  lemma TruncDivExamples()
    ensures TruncDiv(-7, 3) == -2 && -7 / 3 == -3
    ensures TruncDiv(7, -3) == -2 && TruncDiv(-7, -3) == 2
  {
  }

  /** `calc_fuel`: the fuel one mass needs, or `None` when the computation gives nothing positive. */
  function CalcFuel(mass: int): (r: Option<int>)
    ensures r.Some? <==> mass >= 9
    ensures r.Some? ==> r.value == mass / 3 - 2 && 0 < r.value < mass
  {
    var m := TruncDiv(mass, 3) - 2;
    if m <= 0 then None else Some(m)
  }

  /** The total fuel as the puzzle defines it: the fuel, plus the fuel's own total fuel. */
  function TotalFuel(mass: int): (total: nat)
    ensures total >= CalcFuel(mass).GetOr(0)
    ensures mass < 9 ==> total == 0
    ensures mass > 0 ==> total < mass
    decreases if mass < 0 then 0 else mass
  {
    match CalcFuel(mass)
    case None => 0
    case Some(c) => c + TotalFuel(c)
  }

  /** `calc_total_fuel`: the source's loop, which adds up successive fuel amounts. */
  method CalcTotalFuel(mass: int) returns (totalFuel: int)
    ensures totalFuel == TotalFuel(mass)
  {
    totalFuel := CalcFuel(mass).GetOr(0);
    var extraFuel := CalcFuel(totalFuel).GetOr(0);
    totalFuel := totalFuel + extraFuel;
    while CalcFuel(extraFuel).Some?
      invariant extraFuel >= 0
      invariant totalFuel + TotalFuel(extraFuel) == TotalFuel(mass)
      decreases extraFuel
    {
      var fuel := CalcFuel(extraFuel).value;
      totalFuel := totalFuel + fuel;
      extraFuel := fuel;
    }
  }

  /** The `total` test. */
  lemma TotalFor1969()
    ensures TotalFuel(1969) == 966
  {
    assert TotalFuel(5) == 0;
    assert TotalFuel(21) == 5 + TotalFuel(5);
    assert TotalFuel(70) == 21 + TotalFuel(21);
    assert TotalFuel(216) == 70 + TotalFuel(70);
    assert TotalFuel(654) == 216 + TotalFuel(216);
    assert TotalFuel(1969) == 654 + TotalFuel(654);
  }
}
