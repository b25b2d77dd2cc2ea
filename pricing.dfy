/** The pricing computation shared by the product editor pages
    (ManageProduct.tsx and NewProduct.tsx, whose pricing effects are the same
    code): a base price, a profit percentage and a list of named tax
    percentages give a price with profit and a final price. Inputs are the
    results of `parseFloat` on the form text; NaN is `None`. */
module Pricing {
  import opened Wrappers
  import opened Numbers

  /** One tax line: `{ name, percentage: parseFloat(newTaxPercentage) }`. */
  datatype Tax = Tax(name: string, percentage: Option<real>)

  /** `parseFloat(basePrice) || 0`: an unparsable base counts as 0. Negative
      values are kept as they are. */
  function BaseValue(parsedBase: Option<real>): real
  {
    parsedBase.GetOr(0.0)
  }

  /** `basePriceValue + basePriceValue * (parseFloat(profitPercentage) / 100)` */
  function PriceWithProfit(parsedBase: Option<real>, parsedProfit: Option<real>): Option<real>
  {
    var base := Some(BaseValue(parsedBase));
    Add(base, Mul(base, Percent(parsedProfit)))
  }

  /** The term one tax adds: `priceWithProfitValue * (tax.percentage / 100)`. */
  function TaxTerm(priceWithProfit: Option<real>, tax: Tax): Option<real>
  {
    Mul(priceWithProfit, Percent(tax.percentage))
  }

  /** `taxes.reduce((acc, tax) => acc + TaxTerm(tax), 0)`: every tax is taken
      of the same price with profit. */
  function TaxAmount(priceWithProfit: Option<real>, taxes: seq<Tax>): Option<real>
  {
    SumOf(taxes, (t: Tax) => TaxTerm(priceWithProfit, t))
  }

  /** `priceWithProfitValue + taxAmount` */
  function FinalPrice(priceWithProfit: Option<real>, taxes: seq<Tax>): Option<real>
  {
    Add(priceWithProfit, TaxAmount(priceWithProfit, taxes))
  }

  /** Every tax percentage parsed to a number. */
  predicate AllRatesParsed(taxes: seq<Tax>)
  {
    forall i :: 0 <= i < |taxes| ==> taxes[i].percentage.Some?
  }

  /** Reference definition: the plain sum of the tax percentages. */
  ghost function RateTotal(taxes: seq<Tax>): real
    requires AllRatesParsed(taxes)
  {
    if taxes == [] then 0.0 else taxes[0].percentage.value + RateTotal(taxes[1..])
  }

  // ---------------------------------------------------------------------
  // Properties of the computation

  /** The price with profit is base·(1 + profit/100), where the base falls
      back to 0 when it does not parse; an unparsable profit makes it NaN. */
  lemma PriceWithProfitSpec(parsedBase: Option<real>, parsedProfit: Option<real>)
    ensures PriceWithProfit(parsedBase, parsedProfit).Some? <==> parsedProfit.Some?
    ensures parsedProfit.Some? ==>
      PriceWithProfit(parsedBase, parsedProfit).value
        == BaseValue(parsedBase) * (1.0 + parsedProfit.value / 100.0)
    ensures parsedBase.None? && parsedProfit.Some? ==> PriceWithProfit(parsedBase, parsedProfit) == Some(0.0)
  {
  }

  /** With profit 0 the price with profit is the base. */
  lemma ZeroProfitIdentity(parsedBase: Option<real>)
    ensures PriceWithProfit(parsedBase, Some(0.0)) == Some(BaseValue(parsedBase))
  {
  }

  /** Helper: TaxAmount with a front element split off. */
  lemma TaxAmountCons(priceWithProfit: Option<real>, taxes: seq<Tax>)
    requires taxes != []
    ensures TaxAmount(priceWithProfit, taxes)
      == Add(TaxTerm(priceWithProfit, taxes[0]), TaxAmount(priceWithProfit, taxes[1..]))
  {
    SumOfCons(taxes, (t: Tax) => TaxTerm(priceWithProfit, t));
  }

  /** The taxes are not compounded: the tax amount is the price with profit
      times the plain sum of the percentages over 100, and it is NaN as soon
      as the price with profit or one percentage is. */
  lemma {:induction false} TaxAmountSpec(priceWithProfit: Option<real>, taxes: seq<Tax>)
    ensures TaxAmount(priceWithProfit, taxes).Some? <==>
      (priceWithProfit.Some? || taxes == []) && AllRatesParsed(taxes)
    ensures priceWithProfit.Some? && AllRatesParsed(taxes) ==>
      TaxAmount(priceWithProfit, taxes).value == priceWithProfit.value * RateTotal(taxes) / 100.0
  {
    if taxes == [] {
      assert TaxAmount(priceWithProfit, taxes) == Some(0.0);
    } else {
      TaxAmountCons(priceWithProfit, taxes);
      TaxAmountSpec(priceWithProfit, taxes[1..]);
      assert AllRatesParsed(taxes) <==> taxes[0].percentage.Some? && AllRatesParsed(taxes[1..]) by {
        assert forall i :: 0 < i < |taxes| ==> taxes[i] == taxes[1..][i - 1];
      }
      if priceWithProfit.Some? && AllRatesParsed(taxes) {
        var w, p := priceWithProfit.value, taxes[0].percentage.value;
        var q := p / 100.0;
        var rest := RateTotal(taxes[1..]);
        var head, tail := TaxTerm(priceWithProfit, taxes[0]), TaxAmount(priceWithProfit, taxes[1..]);
        assert head.value == w * q;
        assert tail.value == w * rest / 100.0;
        assert RateTotal(taxes) == p + rest;
        assert w * q + w * rest / 100.0 == w * (p + rest) / 100.0;
      }
    }
  }

  /** The final price is the price with profit plus each tax taken of that
      same price: w·(1 + Σ p_i/100). */
  lemma FinalPriceSpec(priceWithProfit: Option<real>, taxes: seq<Tax>)
    ensures FinalPrice(priceWithProfit, taxes).Some? <==> priceWithProfit.Some? && AllRatesParsed(taxes)
    ensures priceWithProfit.Some? && AllRatesParsed(taxes) ==>
      FinalPrice(priceWithProfit, taxes).value
        == priceWithProfit.value + priceWithProfit.value * RateTotal(taxes) / 100.0
  {
    TaxAmountSpec(priceWithProfit, taxes);
  }

  /** With no taxes the final price is the price with profit. */
  lemma NoTaxIdentity(priceWithProfit: Option<real>)
    ensures FinalPrice(priceWithProfit, []) == priceWithProfit
  {
  }

  /** Reordering the tax list never changes the final price. */
  lemma FinalPricePermutation(priceWithProfit: Option<real>, taxes: seq<Tax>, reordered: seq<Tax>)
    requires multiset(taxes) == multiset(reordered)
    ensures FinalPrice(priceWithProfit, taxes) == FinalPrice(priceWithProfit, reordered)
  {
    SumOfPermutation(taxes, reordered, (t: Tax) => TaxTerm(priceWithProfit, t));
  }

  /** Non-negative percentages and a parsed profit. */
  predicate NonNegativeInputs(parsedBase: Option<real>, parsedProfit: Option<real>, taxes: seq<Tax>)
  {
    && BaseValue(parsedBase) >= 0.0
    && parsedProfit.Some? && parsedProfit.value >= 0.0
    && forall i :: 0 <= i < |taxes| ==> taxes[i].percentage.Some? ==> taxes[i].percentage.value >= 0.0
  }

  /** A sum of non-negative percentages is non-negative. */
  lemma {:induction false} RateTotalNonNegative(taxes: seq<Tax>)
    requires AllRatesParsed(taxes)
    requires forall i :: 0 <= i < |taxes| ==> taxes[i].percentage.value >= 0.0
    ensures RateTotal(taxes) >= 0.0
  {
    if taxes != [] {
      assert forall i :: 0 <= i < |taxes| - 1 ==> taxes[1..][i] == taxes[i + 1];
      RateTotalNonNegative(taxes[1..]);
    }
  }

  /** base <= price with profit <= final price, whenever nothing is negative
      (the final price being NaN only if some tax percentage is). */
  lemma PriceOrdering(parsedBase: Option<real>, parsedProfit: Option<real>, taxes: seq<Tax>)
    requires NonNegativeInputs(parsedBase, parsedProfit, taxes)
    ensures PriceWithProfit(parsedBase, parsedProfit).Some?
    ensures BaseValue(parsedBase) <= PriceWithProfit(parsedBase, parsedProfit).value
    ensures FinalPrice(PriceWithProfit(parsedBase, parsedProfit), taxes).Some? <==> AllRatesParsed(taxes)
    ensures AllRatesParsed(taxes) ==>
      PriceWithProfit(parsedBase, parsedProfit).value <= FinalPrice(PriceWithProfit(parsedBase, parsedProfit), taxes).value
  {
    var b, p := BaseValue(parsedBase), parsedProfit.value;
    PriceWithProfitSpec(parsedBase, parsedProfit);
    assert b * (1.0 + p / 100.0) == b + b * (p / 100.0);
    assert b * (p / 100.0) >= 0.0;
    var w := PriceWithProfit(parsedBase, parsedProfit);
    FinalPriceSpec(w, taxes);
    if AllRatesParsed(taxes) {
      RateTotalNonNegative(taxes);
      assert w.value * RateTotal(taxes) >= 0.0;
    }
  }

  /** Adding r % with r >= 0 keeps the order of two amounts. */
  lemma GrowthMonotone(x: real, y: real, r: real)
    requires x <= y && r >= 0.0
    ensures x + x * r / 100.0 <= y + y * r / 100.0
  {
    assert y * r - x * r == (y - x) * r;
    assert (y - x) * r >= 0.0;
  }

  /** A non-negative base grows no less with a larger profit percentage. */
  lemma ProfitStep(b: real, p1: real, p2: real)
    requires b >= 0.0 && p1 <= p2
    ensures b * (1.0 + p1 / 100.0) <= b * (1.0 + p2 / 100.0)
  {
    var d := p2 / 100.0 - p1 / 100.0;
    assert d >= 0.0;
    assert b * (1.0 + p2 / 100.0) - b * (1.0 + p1 / 100.0) == b * d;
    assert b * d >= 0.0;
  }

  /** Raising the profit percentage never lowers the price with profit or
      the final price (for a non-negative base and non-negative taxes). */
  lemma ProfitMonotone(parsedBase: Option<real>, p1: real, p2: real, taxes: seq<Tax>)
    requires BaseValue(parsedBase) >= 0.0 && p1 <= p2
    requires AllRatesParsed(taxes)
    requires forall i :: 0 <= i < |taxes| ==> taxes[i].percentage.value >= 0.0
    ensures PriceWithProfit(parsedBase, Some(p1)).value <= PriceWithProfit(parsedBase, Some(p2)).value
    ensures FinalPrice(PriceWithProfit(parsedBase, Some(p1)), taxes).Some?
    ensures FinalPrice(PriceWithProfit(parsedBase, Some(p2)), taxes).Some?
    ensures FinalPrice(PriceWithProfit(parsedBase, Some(p1)), taxes).value
         <= FinalPrice(PriceWithProfit(parsedBase, Some(p2)), taxes).value
  {
    var w1, w2 := PriceWithProfit(parsedBase, Some(p1)), PriceWithProfit(parsedBase, Some(p2));
    assert w1.value <= w2.value by {
      PriceWithProfitSpec(parsedBase, Some(p1));
      PriceWithProfitSpec(parsedBase, Some(p2));
      ProfitStep(BaseValue(parsedBase), p1, p2);
    }
    RateTotalNonNegative(taxes);
    GrowthMonotone(w1.value, w2.value, RateTotal(taxes));
    FinalPriceSpec(w1, taxes);
    FinalPriceSpec(w2, taxes);
  }

  /** Base 100, profit 20 % and taxes GST 18 % and Cess 2 % give 120 with
      profit and 144 in all (tax amounts 21.60 and 2.40). */
  lemma WorkedExample()
    ensures PriceWithProfit(Some(100.0), Some(20.0)) == Some(120.0)
    ensures FinalPrice(Some(120.0), [Tax("GST", Some(18.0)), Tax("Cess", Some(2.0))]) == Some(144.0)
  {
    var taxes := [Tax("GST", Some(18.0)), Tax("Cess", Some(2.0))];
    FinalPriceSpec(Some(120.0), taxes);
    assert taxes[1..][1..] == [];
    assert RateTotal(taxes) == 20.0;
  }
  /** Appending a tax adds exactly that tax's term to the final price. */
  lemma FinalPriceAddTax(priceWithProfit: Option<real>, taxes: seq<Tax>, t: Tax)
    ensures FinalPrice(priceWithProfit, taxes + [t])
         == Add(FinalPrice(priceWithProfit, taxes), TaxTerm(priceWithProfit, t))
  {
    SumOfSnoc(taxes, t, (x: Tax) => TaxTerm(priceWithProfit, x));
  }

  /** Removing the tax at `index` takes exactly its term off the final price. */
  lemma FinalPriceRemoveTax(priceWithProfit: Option<real>, taxes: seq<Tax>, index: nat)
    requires index < |taxes|
    ensures FinalPrice(priceWithProfit, taxes)
         == Add(FinalPrice(priceWithProfit, taxes[..index] + taxes[index + 1..]), TaxTerm(priceWithProfit, taxes[index]))
  {
    assert taxes == taxes[..index] + [taxes[index]] + taxes[index + 1..];
    SumOfExtract(taxes[..index], taxes[index], taxes[index + 1..], (x: Tax) => TaxTerm(priceWithProfit, x));
  }
}
