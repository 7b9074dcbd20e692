/**
 * The tank service's persisted settings: one record per tank, the defaults,
 * the back-filling done when the settings are loaded, and the validation done
 * by the two numeric write callbacks before a value is stored.
 */
module TankSettings {
  import opened Wrappers
  import opened PyText
  import opened PyNumbers

  /** One entry of the settings' `tanks` list. */
  datatype Tank = Tank(capacity: real, fluidType: int, customName: string)

  /** The number of tank channels. */
  const TankCount := 4

  /** The number of names in the fluid-type table ('Fuel' … 'Black Water'). */
  const FluidTypeCount := 6

  const DefaultTanks: seq<Tank> := [
    Tank(100.0, 1, "Fresh Water"),
    Tank(100.0, 0, "Fuel"),
    Tank(100.0, 2, "Waste Water"),
    Tank(100.0, 5, "Black Water")
  ]

  /**
   * `tanks` is what loading makes of the stored list: no stored settings give
   * the defaults; otherwise every stored entry keeps its place and value and
   * the list is padded to four entries with the defaults of those positions.
   */
  predicate IsBackFilled(stored: Option<seq<Tank>>, tanks: seq<Tank>)
  {
    match stored
    case None => tanks == DefaultTanks
    case Some(saved) =>
      |tanks| == (if |saved| < TankCount then TankCount else |saved|) &&
      tanks[..|saved|] == saved &&
      forall k :: |saved| <= k < |tanks| ==> tanks[k] == DefaultTanks[k]
  }

  /** Loading the settings: the stored tank list, back-filled with defaults. */
  method LoadSettings(stored: Option<seq<Tank>>) returns (tanks: seq<Tank>)
    ensures IsBackFilled(stored, tanks)
    ensures |tanks| >= TankCount
  {
    if stored.None? {
      return DefaultTanks;
    }
    tanks := stored.value;
    while |tanks| < TankCount
      invariant |stored.value| <= |tanks| <= (if |stored.value| < TankCount then TankCount else |stored.value|)
      invariant tanks[..|stored.value|] == stored.value
      invariant forall k :: |stored.value| <= k < |tanks| ==> tanks[k] == DefaultTanks[k]
      decreases TankCount - |tanks|
    {
      var idx := |tanks|;
      tanks := tanks + [DefaultTanks[idx]];
    }
  }

  /** Loading is deterministic: the back-filled list is determined by what was stored. */
  lemma BackFillUnique(stored: Option<seq<Tank>>, a: seq<Tank>, b: seq<Tank>)
    requires IsBackFilled(stored, a) && IsBackFilled(stored, b)
    ensures a == b
  {
    if stored.Some? {
      var saved := stored.value;
      forall k | 0 <= k < |a|
        ensures a[k] == b[k]
      {
        if k < |saved| {
          assert a[k] == a[..|saved|][k] && b[k] == b[..|saved|][k];
        }
      }
    }
  }

  /** A stored list that already has four entries is kept exactly as it was. */
  lemma FullListKept(saved: seq<Tank>, tanks: seq<Tank>)
    requires |saved| >= TankCount
    requires IsBackFilled(Some(saved), tanks)
    ensures tanks == saved
  {
    assert tanks == tanks[..|saved|];
  }

  // ---------------------------------------------------------------------------
  // Validation of the fluid-type and capacity writes
  // ---------------------------------------------------------------------------

  /**
   * The fluid type a write stores, if it is accepted: the written text goes
   * through `float()` and then `int()` (truncation toward zero), and the
   * result must name one of the six fluid types.
   */
  function FluidTypeValue(value: string): (r: Option<int>)
    ensures r.Some? ==> 0 <= r.value < FluidTypeCount
    ensures r.Some? <==> exists x :: ParseFloat(value) == Some(Finite(x)) && -1.0 < x < FluidTypeCount as real
    ensures forall x :: ParseFloat(value) == Some(Finite(x)) && r.Some? ==> r.value as real <= x + (if x < 0.0 then 1.0 else 0.0) < r.value as real + 1.0
  {
    match ParseFloat(value)
    case Some(Finite(x)) =>
      var t := Trunc(x);
      if 0 <= t < FluidTypeCount then Some(t) else None
    case _ => None
  }

  /** Writing the decimal spelling of an integer is accepted exactly when it names a fluid type, and stores it. */
  lemma FluidTypeOfDecimal(n: int)
    ensures FluidTypeValue(IntToDecimal(n)) == if 0 <= n < FluidTypeCount then Some(n) else None
  {
    ParseFloatOfDecimal(n);
  }

  /** A value led by a separator such as 0x1F is refused by `float()`, so the write is rejected. */
  lemma SeparatorPaddedFluidTypeRefused()
    ensures FluidTypeValue([31 as char] + "3").None?
  {
    ParseFloatRejectsWord([31 as char] + "3");
  }

  /**
   * The capacity a write stores, if it is accepted: the written text parsed
   * by `float()` must be a finite number greater than zero.  This is the
   * intended check; the one the service performs also lets positive infinity
   * through (see CapacityAcceptedAsWritten).
   */
  function CapacityValue(value: string): (r: Option<real>)
    ensures r.Some? ==> r.value > 0.0 && ParseFloat(value) == Some(Finite(r.value))
  {
    match ParseFloat(value)
    case Some(Finite(x)) => if x > 0.0 then Some(x) else None
    case _ => None
  }

  /** Every finite positive reading is accepted and stored unchanged. */
  lemma CapacityAcceptsPositive(value: string, x: real)
    requires ParseFloat(value) == Some(Finite(x)) && x > 0.0
    ensures CapacityValue(value) == Some(x)
  {
  }

  /** Writing the decimal spelling of an integer is accepted exactly when it is positive. */
  lemma CapacityOfDecimal(n: int)
    ensures CapacityValue(IntToDecimal(n)) == if n > 0 then Some(n as real) else None
  {
    ParseFloatOfDecimal(n);
  }

  /**
   * Whether the service accepts a capacity write, as it is written: it
   * compares the `float()` of the text with zero, and `float('inf') > 0`
   * holds while every comparison with NaN fails.
   */
  function CapacityAcceptedAsWritten(value: string): (accepted: bool)
    ensures accepted ==> ParseFloat(value).Some? && !ParseFloat(value).value.NaN?
  {
    match ParseFloat(value)
    case Some(Finite(x)) => x > 0.0
    case Some(Infinity(negative)) => !negative
    case _ => false
  }

  /** The code as written and the intended check differ exactly on positive infinity. */
  lemma CapacityCheckDiffersOnlyOnInfinity(value: string)
    ensures CapacityValue(value).Some? ==> CapacityAcceptedAsWritten(value)
    ensures CapacityAcceptedAsWritten(value) && CapacityValue(value).None? <==> ParseFloat(value) == Some(Infinity(false))
  {
  }

  /** "inf" is stored as the capacity by the code as written, and refused by the intended check. */
  lemma InfiniteCapacityAcceptedAsWritten()
    ensures CapacityAcceptedAsWritten("inf")
    ensures CapacityValue("inf").None?
  {
    ParseFloatInf();
  }

  /** A fractional fluid type is truncated, not refused: "5.7" stores 5. */
  lemma FractionalFluidTypeTruncated()
    ensures FluidTypeValue("5.7") == Some(5)
  {
    ParseFloatFiveSeven();
  }

  /** A fractional capacity is accepted as it is: "0.5" stores 0.5. */
  lemma FractionalCapacityAccepted()
    ensures CapacityValue("0.5") == Some(0.5)
  {
    ParseFloatOneHalf();
  }
}
