/**
 * The electricity price arithmetic of the grid-price monitor
 * (extra_features/grid_price_monitor/core/calculator.py): the gross spot price
 * and the total price from the net spot price, the reverse calculation, the
 * calibration of the three fees from one observed total, the cheapness test
 * and the price trend. Prices are in ct/kWh.
 */
module PriceCalculating {
  import opened Common

  /** `1 + vat_rate / 100`. */
  function VatFactorOf(vatRate: int): (f: real)
    ensures vatRate >= 0 ==> f >= 1.0
    ensures f == 0.0 <==> vatRate == -100
  {
    1.0 + vatRate as real / 100.0
  }

  /** The total price for a VAT rate and a total markup: spot × VAT factor + markup, to two decimals. */
  function PriceOf(spotNet: real, vatRate: int, markup: real): real
  {
    Round(spotNet * VatFactorOf(vatRate) + markup, TwoDecimals)
  }

  /** The fees a calibration proposes. */
  datatype Markup = Markup(gridFee: real, taxesFees: real, providerMarkup: real)

  /** `calculate_trend`'s answer. */
  datatype Trend = Rising | Falling | Stable | Unknown

  /** `is_cheap`: strictly below the threshold. */
  function IsCheap(totalPrice: real, maxPrice: real): (b: bool)
    ensures b <==> totalPrice < maxPrice
    ensures totalPrice == maxPrice ==> !b
  {
    totalPrice < maxPrice
  }

  /** `calculate_trend`: unknown without both prices; otherwise a change of more than 1 ct either way. */
  function CalculateTrend(current: Option<real>, next: Option<real>): (t: Trend)
    ensures current.None? || next.None? <==> t == Unknown
    ensures current.Some? && next.Some? ==>
      && (t == Rising <==> next.value - current.value > 1.0)
      && (t == Falling <==> next.value - current.value < -1.0)
      && (t == Stable <==> -1.0 <= next.value - current.value <= 1.0)
  {
    if current.None? || next.None? then Unknown
    else
      var diff := next.value - current.value;
      if diff > 1.0 then Rising
      else if diff < -1.0 then Falling
      else Stable
  }

  /** Swapping the two prices swaps rising and falling. */
  lemma TrendAntisymmetric(a: real, b: real)
    ensures CalculateTrend(Some(a), Some(b)) == Rising <==> CalculateTrend(Some(b), Some(a)) == Falling
    ensures CalculateTrend(Some(a), Some(b)) == Stable <==> CalculateTrend(Some(b), Some(a)) == Stable
  {
  }

  /**
   * `calculate_markup_from_calibration` on explicit values: the markup is the
   * observed total less the gross spot price; a markup that is not positive
   * gives None, otherwise it is split 60 / 30 / 10 and each part rounded to
   * two decimals.
   */
  function Calibration(totalPrice: real, spotNet: real, vatRate: int): (r: Option<Markup>)
    ensures r.None? <==> totalPrice - spotNet * VatFactorOf(vatRate) <= 0.0
    ensures r.Some? ==> r.value.gridFee >= 0.0 && r.value.taxesFees >= 0.0 && r.value.providerMarkup >= 0.0
  {
    var markup := totalPrice - spotNet * VatFactorOf(vatRate);
    if markup <= 0.0 then None
    else
      RoundNonNegative(markup * 0.6, TwoDecimals);
      RoundNonNegative(markup * 0.3, TwoDecimals);
      RoundNonNegative(markup * 0.1, TwoDecimals);
      Some(Markup(Round(markup * 0.6, TwoDecimals), Round(markup * 0.3, TwoDecimals), Round(markup * 0.1, TwoDecimals)))
  }

  /** Each part is within half a cent of its share, so the parts add up to the markup within 1.5 hundredths. */
  lemma CalibrationSplitsMarkup(totalPrice: real, spotNet: real, vatRate: int)
    requires Calibration(totalPrice, spotNet, vatRate).Some?
    ensures var markup := totalPrice - spotNet * VatFactorOf(vatRate);
      var m := Calibration(totalPrice, spotNet, vatRate).value;
      && markup * 0.6 - 0.005 <= m.gridFee <= markup * 0.6 + 0.005
      && markup * 0.3 - 0.005 <= m.taxesFees <= markup * 0.3 + 0.005
      && markup * 0.1 - 0.005 <= m.providerMarkup <= markup * 0.1 + 0.005
      && markup - 0.015 <= m.gridFee + m.taxesFees + m.providerMarkup <= markup + 0.015
  {
    var markup := totalPrice - spotNet * VatFactorOf(vatRate);
    RoundClose(markup * 0.6, TwoDecimals);
    RoundClose(markup * 0.3, TwoDecimals);
    RoundClose(markup * 0.1, TwoDecimals);
  }

  /**
   * Calibrating on an observed price and then pricing the same spot price
   * with the proposed fees reproduces the observed price within two cents.
   */
  lemma CalibrationReproducesPrice(totalPrice: real, spotNet: real, vatRate: int)
    requires Calibration(totalPrice, spotNet, vatRate).Some?
    ensures var m := Calibration(totalPrice, spotNet, vatRate).value;
      var p := PriceOf(spotNet, vatRate, m.gridFee + m.taxesFees + m.providerMarkup);
      totalPrice - 0.02 <= p <= totalPrice + 0.02
  {
    var m := Calibration(totalPrice, spotNet, vatRate).value;
    CalibrationSplitsMarkup(totalPrice, spotNet, vatRate);
    RoundClose(spotNet * VatFactorOf(vatRate) + (m.gridFee + m.taxesFees + m.providerMarkup), TwoDecimals);
  }

  /**
   * A price within half a cent of spot × factor + markup, with the markup
   * taken off and divided by a factor of at least 1, lies within half a
   * cent of the spot price.
   */
  lemma UndoMarkupAndVat(spotNet: real, f: real, markup: real, t: real)
    requires f >= 1.0
    requires spotNet * f + markup - 0.005 <= t <= spotNet * f + markup + 0.005
    ensures spotNet - 0.005 <= (t - markup) / f <= spotNet + 0.005
  {
    var e := t - (spotNet * f + markup);
    assert (t - markup) / f == spotNet + e / f;
    if e >= 0.0 {
      MulMonotone(1.0, f, e);
      ScaleDown(e, e * f, f);
      assert e * f / f == e;
    } else {
      MulMonotone(1.0, f, -e);
      ScaleDown(e * f, e, f);
      assert e * f / f == e;
    }
  }

  /** A raw price entry: `price` and `hour` may be missing. */
  datatype PriceEntry = PriceEntry(price: Option<real>, hour: Option<int>, timestamp: Option<string>)

  datatype ForecastEntry = ForecastEntry(
    hour: Option<int>,
    timestamp: Option<string>,
    spotPriceNet: real,
    spotPrice: real,
    totalPrice: real,
    isCheap: bool)

  class PriceCalculator {
    var vatRate: int
    var gridFee: real
    var taxesFees: real
    var providerMarkup: real

    /** The defaults are 19 % VAT and no fees. */
    constructor (vatRate: int, gridFee: real, taxesFees: real, providerMarkup: real)
      ensures this.vatRate == vatRate && this.gridFee == gridFee
      ensures this.taxesFees == taxesFees && this.providerMarkup == providerMarkup
    {
      this.vatRate := vatRate;
      this.gridFee := gridFee;
      this.taxesFees := taxesFees;
      this.providerMarkup := providerMarkup;
    }

    /** `vat_factor`. */
    function VatFactor(): real
      reads this
    {
      VatFactorOf(vatRate)
    }

    /** `total_markup`: the grid fee, the taxes and fees, and the provider markup together. */
    function TotalMarkup(): real
      reads this
    {
      gridFee + taxesFees + providerMarkup
    }

    /** `calculate_gross_spot`: the net spot price with VAT, to two decimals. */
    function GrossSpot(spotNet: real): (r: real)
      reads this
      ensures spotNet * VatFactor() - 0.005 <= r <= spotNet * VatFactor() + 0.005
    {
      RoundClose(spotNet * VatFactor(), TwoDecimals);
      Round(spotNet * VatFactor(), TwoDecimals)
    }

    /** `calculate_total_price`: the gross spot price plus the total markup, rounded once at the end. */
    function TotalPrice(spotNet: real): (r: real)
      reads this
      ensures spotNet * VatFactor() + TotalMarkup() - 0.005 <= r <= spotNet * VatFactor() + TotalMarkup() + 0.005
    {
      RoundClose(spotNet * VatFactor() + TotalMarkup(), TwoDecimals);
      PriceOf(spotNet, vatRate, TotalMarkup())
    }

    /**
     * `calculate_spot_from_total`: the markup taken off and the VAT divided
     * out, to two decimals; None where Python raises ZeroDivisionError (a
     * VAT rate of −100 %).
     */
    function SpotFromTotal(totalPrice: real): (r: Option<real>)
      reads this
      ensures r.None? <==> vatRate == -100
    {
      if VatFactor() == 0.0 then None
      else Some(Round((totalPrice - TotalMarkup()) / VatFactor(), TwoDecimals))
    }

    /** With a non-negative VAT rate, the reverse calculation recovers the spot price within a cent. */
    lemma SpotFromTotalInvertsTotal(spotNet: real)
      requires vatRate >= 0
      ensures SpotFromTotal(TotalPrice(spotNet)).Some?
      ensures spotNet - 0.01 <= SpotFromTotal(TotalPrice(spotNet)).value <= spotNet + 0.01
    {
      var t := TotalPrice(spotNet);
      UndoMarkupAndVat(spotNet, VatFactor(), TotalMarkup(), t);
      RoundClose((t - TotalMarkup()) / VatFactor(), TwoDecimals);
    }

    /** `calculate_markup_from_calibration`: the calculator's own VAT rate unless one is given. */
    function MarkupFromCalibration(totalPrice: real, spotNet: real, vatOverride: Option<int>): (r: Option<Markup>)
      reads this
      ensures vatOverride.None? ==> r == Calibration(totalPrice, spotNet, vatRate)
      ensures vatOverride.Some? ==> r == Calibration(totalPrice, spotNet, vatOverride.value)
    {
      Calibration(totalPrice, spotNet, if vatOverride.Some? then vatOverride.value else vatRate)
    }

    /** `build_forecast_entry`: a missing price counts as 0; the entry carries both prices and the cheapness flag. */
    function BuildForecastEntry(entry: PriceEntry, maxPrice: real): (r: ForecastEntry)
      reads this
      ensures r.spotPriceNet == (if entry.price.Some? then entry.price.value else 0.0)
      ensures r.spotPrice == GrossSpot(r.spotPriceNet) && r.totalPrice == TotalPrice(r.spotPriceNet)
      ensures r.isCheap <==> r.totalPrice < maxPrice
      ensures r.hour == entry.hour && r.timestamp == entry.timestamp
    {
      var spotNet := if entry.price.Some? then entry.price.value else 0.0;
      var total := TotalPrice(spotNet);
      ForecastEntry(entry.hour, entry.timestamp, spotNet, GrossSpot(spotNet), total, IsCheap(total, maxPrice))
    }

    /** `update_config`: exactly the settings passed change. */
    method UpdateConfig(newVatRate: Option<int>, newGridFee: Option<real>, newTaxesFees: Option<real>, newProviderMarkup: Option<real>)
      modifies this
      ensures vatRate == if newVatRate.Some? then newVatRate.value else old(vatRate)
      ensures gridFee == if newGridFee.Some? then newGridFee.value else old(gridFee)
      ensures taxesFees == if newTaxesFees.Some? then newTaxesFees.value else old(taxesFees)
      ensures providerMarkup == if newProviderMarkup.Some? then newProviderMarkup.value else old(providerMarkup)
    {
      if newVatRate.Some? {
        vatRate := newVatRate.value;
      }
      if newGridFee.Some? {
        gridFee := newGridFee.value;
      }
      if newTaxesFees.Some? {
        taxesFees := newTaxesFees.value;
      }
      if newProviderMarkup.Some? {
        providerMarkup := newProviderMarkup.value;
      }
    }
  }
}
