/**
 * The tariff estimator of the quote form: a fixed rate table, the pre-rounding total and the
 * ±5% price band shown to the visitor. Weights and money are exact rationals.
 */
module Tariff {
  import opened Base
  import Numeral

  // The rate table (TARIFF_RATES).
  const BaseCost: real := 800.0
  const PerKg: real := 12.0
  const FrozenMultiplier: real := 1.25
  const FreshMultiplier: real := 1.10
  /** Configured, but the estimator never reads it: dry cargo is simply left unscaled. */
  const DryMultiplier: real := 1.0
  const LastMileCost: real := 450.0
  /** Configured, but nothing in the estimator applies it. */
  const FrequentClientDiscount: real := 0.15

  // The cargo types the form offers, by their option values.
  const Frozen: string := "Congelado"
  const Fresh: string := "Fresco"
  const Dry: string := "Seco"

  /** The estimate shown to the visitor; `min` is also the price a quote is booked at. */
  datatype PriceRange = PriceRange(min: int, max: int)

  /** The two validation messages the estimator can raise instead of an estimate. */
  datatype EstimateError =
    | MissingField   // weight or cargo type left empty
    | InvalidWeight  // the weight does not read as a number greater than 0

  /** `Math.round`: the nearest integer, halves rounded up. */
  function RoundHalfUp(x: real): (r: int)
    ensures r as real - 0.5 <= x < r as real + 0.5
  {
    (x + 0.5).Floor
  }

  /** The weight field as the estimator reads it: the first `,` becomes `.`, then `parseFloat`. */
  function ParseWeight(weight: string): Option<real> {
    Numeral.ParseFloat(Numeral.ReplaceFirst(weight, ',', '.'))
  }

  /** `isNaN(weight) || weight <= 0` is false. */
  predicate IsPositive(w: Option<real>) {
    w.Some? && w.value > 0.0
  }

  /**
   * The pre-rounding total: base cost plus the per-kg rate, scaled by the frozen or the fresh
   * multiplier (two separate tests, at most one of which can match), then the flat last-mile
   * surcharge.
   */
  function Total(cargoType: string, weight: real, lastMile: bool): (total: real)
    ensures weight > 0.0 ==> total > BaseCost
  {
    var base := BaseCost + weight * PerKg;
    var afterFrozen := if cargoType == Frozen then base * FrozenMultiplier else base;
    var afterFresh := if cargoType == Fresh then afterFrozen * FreshMultiplier else afterFrozen;
    if lastMile then afterFresh + LastMileCost else afterFresh
  }

  /** The ±5% band around a total, each bound rounded on its own. */
  function Band(total: real): PriceRange {
    PriceRange(RoundHalfUp(total * 0.95), RoundHalfUp(total * 1.05))
  }

  /**
   * The estimator: validates the weight and cargo-type fields, then prices the shipment.
   * Empty fields and an unreadable or non-positive weight are reported, not priced; an accepted
   * input yields a positive, ordered range whose bounds are the nearest integers to 95% and 105%
   * of the total.
   */
  function Estimate(weight: string, cargoType: string, lastMile: bool): (r: Result<PriceRange, EstimateError>)
    ensures r == Failure(MissingField) <==> weight == "" || cargoType == ""
    ensures r == Failure(InvalidWeight)
        <==> weight != "" && cargoType != "" && !IsPositive(ParseWeight(weight))
    ensures r.Success? ==> IsPositive(ParseWeight(weight))
    ensures r.Success? ==> 0 < r.value.min <= r.value.max
    ensures r.Success? ==>
      var total := Total(cargoType, ParseWeight(weight).value, lastMile);
      && r.value.min as real - 0.5 <= total * 0.95 < r.value.min as real + 0.5
      && r.value.max as real - 0.5 <= total * 1.05 < r.value.max as real + 0.5
  {
    if weight == "" || cargoType == "" then Failure(MissingField)
    else
      var w := ParseWeight(weight);
      if !IsPositive(w) then Failure(InvalidWeight)
      else
        var total := Total(cargoType, w.value, lastMile);
        BandIsOrdered(total);
        Success(Band(total))
  }

  /** For a total above the base cost both bounds are positive and the lower one is not above the upper one. */
  lemma BandIsOrdered(total: real)
    requires total > BaseCost
    ensures 0 < Band(total).min <= Band(total).max
  {
  }

  /** `Math.round` never reverses the order of its arguments. */
  lemma RoundingIsMonotone(x: real, y: real)
    requires x <= y
    ensures RoundHalfUp(x) <= RoundHalfUp(y)
  {
  }

  /** Frozen and fresh scaling never apply together. */
  lemma AtMostOneMultiplier(cargoType: string, weight: real, lastMile: bool)
    ensures cargoType == Frozen ==>
      Total(cargoType, weight, lastMile) == Total(Dry, weight, false) * FrozenMultiplier + (if lastMile then LastMileCost else 0.0)
    ensures cargoType == Fresh ==>
      Total(cargoType, weight, lastMile) == Total(Dry, weight, false) * FreshMultiplier + (if lastMile then LastMileCost else 0.0)
    ensures cargoType != Frozen && cargoType != Fresh ==>
      Total(cargoType, weight, lastMile) == Total(Dry, weight, lastMile)
  {
  }

  /** The last-mile surcharge is flat: added after the multiplier, never scaled by it. */
  lemma LastMileIsFlat(cargoType: string, weight: real)
    ensures Total(cargoType, weight, true) == Total(cargoType, weight, false) + LastMileCost
  {
  }

  /** For any non-negative weight, dry cargo is cheapest and frozen cargo dearest. */
  lemma CargoTypeOrdering(weight: real, lastMile: bool)
    requires weight >= 0.0
    ensures Total(Dry, weight, lastMile) <= Total(Fresh, weight, lastMile) <= Total(Frozen, weight, lastMile)
  {
  }

  /** A heavier shipment of the same kind never gets a lower price band. */
  lemma HeavierCostsMore(cargoType: string, w1: real, w2: real, lastMile: bool)
    requires 0.0 <= w1 <= w2
    ensures Total(cargoType, w1, lastMile) <= Total(cargoType, w2, lastMile)
    ensures Band(Total(cargoType, w1, lastMile)).min <= Band(Total(cargoType, w2, lastMile)).min
    ensures Band(Total(cargoType, w1, lastMile)).max <= Band(Total(cargoType, w2, lastMile)).max
  {
  }

  /** A decimal comma is read exactly as a decimal point. */
  lemma DecimalCommaAccepted(a: string, b: string)
    requires |a| > 0 && Numeral.AllDigits(a) && Numeral.AllDigits(b)
    ensures ParseWeight(a + "," + b) == ParseWeight(a + "." + b)
    ensures ParseWeight(a + "." + b) == Some(Numeral.MantissaValue(Numeral.Mantissa(a, b, [])))
  {
    assert ',' !in a && ',' !in b by {
      assert forall i :: 0 <= i < |a| ==> Numeral.IsDigit(a[i]);
      assert forall i :: 0 <= i < |b| ==> Numeral.IsDigit(b[i]);
    }
    Numeral.ReplaceFirstOccurrence(a, ',', '.', b);
    assert ',' !in a + "." + b;
    Numeral.ReplaceFirstAbsent(a + "." + b, ',', '.');
    Numeral.ParseDecimal(a, b);
  }

  /** A whole-number weight is priced at exactly that many kilograms. */
  lemma EstimateOfWholeWeight(n: nat, text: string, cargoType: string, lastMile: bool)
    requires n > 0 && cargoType != "" && text == Numeral.NatToString(n)
    ensures Estimate(text, cargoType, lastMile) == Success(Band(Total(cargoType, n as real, lastMile)))
  {
    WholeWeight(n, text);
  }

  /** Frozen cargo of 500 kg without last mile: total 8500, band 8075 to 8925. */
  lemma FrozenExample()
    ensures Estimate("500", Frozen, false) == Success(PriceRange(8075, 8925))
  {
    Numeral.ExampleRenderings();
    EstimateOfWholeWeight(500, "500", Frozen, false);
    FrozenBand();
  }

  lemma FrozenBand()
    ensures Band(Total(Frozen, 500.0, false)) == PriceRange(8075, 8925)
  {
  }

  /** Fresh cargo of 200 kg without last mile: total 3520, band 3344 to 3696. */
  lemma FreshExample()
    ensures Estimate("200", Fresh, false) == Success(PriceRange(3344, 3696))
  {
    Numeral.ExampleRenderings();
    EstimateOfWholeWeight(200, "200", Fresh, false);
    FreshBand();
  }

  lemma FreshBand()
    ensures Band(Total(Fresh, 200.0, false)) == PriceRange(3344, 3696)
  {
  }

  /** The digits 150 and 5 either side of the separator denote 150.5. */
  lemma MantissaExample()
    ensures Numeral.MantissaValue(Numeral.Mantissa("150", "5", [])) == 150.5
  {
    assert Numeral.DigitsValue("150") == 150;
    assert Numeral.DigitsValue("5") == 5;
    assert Numeral.Pow10(|"5"|) == 10;
  }

  /** "150,5" and "150.5" are both read as 150.5 kg. */
  lemma CommaWeightExample()
    ensures ParseWeight("150,5") == ParseWeight("150.5") == Some(150.5)
  {
    assert "150,5" == "150" + "," + "5";
    assert "150.5" == "150" + "." + "5";
    DecimalCommaAccepted("150", "5");
    MantissaExample();
  }

  /** A comma-decimal weight prices exactly as its point-decimal spelling. */
  lemma CommaExample(cargoType: string, lastMile: bool)
    ensures Estimate("150,5", cargoType, lastMile) == Estimate("150.5", cargoType, lastMile)
  {
    CommaWeightExample();
  }

  /** A whole-number weight with no comma is read as that number. */
  lemma WholeWeight(n: nat, text: string)
    requires text == Numeral.NatToString(n)
    ensures ParseWeight(text) == Some(n as real)
  {
    assert Numeral.ReplaceFirst(text, ',', '.') == text by {
      forall i | 0 <= i < |text|
        ensures Numeral.ReplaceFirst(text, ',', '.')[i] == text[i]
      {
        assert Numeral.IsDigit(text[i]);
      }
    }
    Numeral.ParseNatPrefix(n, []);
    assert text + [] == text;
  }

  /**
   * A weight that does not start like a number (no digit, sign, point, comma or white space
   * first) and is not the word "Infinity" is unreadable, so the second alert fires.
   */
  lemma NonNumericWeightRejected(weight: string, cargoType: string, lastMile: bool)
    requires weight != [] && cargoType != ""
    requires !Numeral.IsDigit(weight[0]) && weight[0] !in "+-.," && !Numeral.IsJsWhitespace(weight[0])
    requires !(|weight| >= 8 && weight[..8] == "Infinity")
    ensures ParseWeight(weight) == None
    ensures Estimate(weight, cargoType, lastMile) == Failure(InvalidWeight)
  {
    var t := Numeral.ReplaceFirst(weight, ',', '.');
    assert t[0] == weight[0];
    assert Numeral.TrimStart(t) == t;
  }

  /** A negative whole weight is read, but it is not positive: the second alert fires. */
  lemma NegativeWeightRejected(n: nat, t: string, cargoType: string, lastMile: bool)
    requires cargoType != "" && t == "-" + Numeral.NatToString(n)
    ensures ParseWeight(t) == Some(-(n as real))
    ensures Estimate(t, cargoType, lastMile) == Failure(InvalidWeight)
  {
    assert ',' !in t by {
      assert forall i :: 1 <= i < |t| ==> Numeral.IsDigit(t[i]);
    }
    Numeral.ReplaceFirstAbsent(t, ',', '.');
    Numeral.ParseNegativeNat(n);
  }

  /** A zero weight is read as 0, which is not positive: the second alert fires. */
  lemma ZeroWeightRejected(cargoType: string, lastMile: bool)
    requires cargoType != ""
    ensures Estimate("0", cargoType, lastMile) == Failure(InvalidWeight)
  {
    Numeral.ExampleRenderings();
    WholeWeight(0, "0");
  }

  /** The rejected weights in figures: "0", "-5" and "abc" raise the second alert, "" the first. */
  lemma RejectedWeights()
    ensures Estimate("0", Dry, false) == Failure(InvalidWeight)
    ensures Estimate("-5", Dry, false) == Failure(InvalidWeight)
    ensures Estimate("abc", Dry, false) == Failure(InvalidWeight)
    ensures Estimate("", Dry, false) == Failure(MissingField)
  {
    ZeroWeightRejected(Dry, false);
    MinusFiveRejected();
    NonNumericWeightRejected("abc", Dry, false);
  }

  lemma MinusFiveRejected()
    ensures Estimate("-5", Dry, false) == Failure(InvalidWeight)
  {
    Numeral.ExampleRenderings();
    assert "-5" == "-" + "5";
    NegativeWeightRejected(5, "-5", Dry, false);
  }
}
