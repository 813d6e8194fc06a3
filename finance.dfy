/** The financial formulas of the trade summaries: position size, the two
    liquidation-price formulas (at open, and the buffered live estimate) and
    profit and loss, open and closed. Monetary values are reals; the source's
    `round(..., 2)` for display is not applied. */
module Finance {

  /** Notional size: collateral times leverage. */
  function PositionSize(collateral: real, leverage: real): (r: real)
    ensures collateral > 0.0 && leverage > 0.0 ==> r > 0.0
    ensures collateral >= 0.0 && leverage >= 1.0 ==> r >= collateral
    ensures leverage == 1.0 ==> r == collateral
  {
    collateral * leverage
  }

  /** Liquidation price right after an order is placed: `p * (1 - 1/L)` for a
      long, `p * (1 + 1/L)` for a short. The caller must rule out `L == 0`
      (the source raises a division error there). */
  function LiquidationAtOpen(price: real, leverage: int, isLong: bool): (r: real)
    requires leverage != 0
    ensures leverage > 0 && price > 0.0 ==> (if isLong then r < price else r > price)
    ensures leverage >= 1 && price >= 0.0 && isLong ==> 0.0 <= r
  {
    var inverse := 1.0 / (leverage as real);
    if isLong then price * (1.0 - inverse) else price * (1.0 + inverse)
  }

  /** Live liquidation estimate of an open position: the `0.9 / L` buffer in place
      of `1 / L`, and the entry price itself when the leverage is not positive. */
  function LiquidationEstimate(entry: real, leverage: real, isLong: bool): (r: real)
    ensures leverage <= 0.0 ==> r == entry
    ensures leverage > 0.0 && entry > 0.0 ==> (if isLong then r < entry else r > entry)
  {
    if leverage > 0.0 then
      var buffer := 0.9 / leverage;
      if isLong then entry * (1.0 - buffer) else entry * (1.0 + buffer)
    else
      entry
  }

  /** Unrealised profit of an open position at `exit`: the relative move times the
      size, with the sign flipped for a short. The caller must rule out a zero
      entry price (the source raises a division error there). */
  function PnlOpen(entry: real, exit: real, size: real, isLong: bool): (r: real)
    requires entry != 0.0
    ensures entry > 0.0 && size > 0.0 ==> (r > 0.0 <==> (if isLong then exit > entry else exit < entry))
    ensures exit == entry ==> r == 0.0
  {
    if isLong then (exit - entry) / entry * size else (entry - exit) / entry * size
  }

  /** Profit as a percentage of collateral; 0 when the collateral is not positive. */
  function PnlPercentage(pnl: real, collateral: real): (r: real)
    ensures collateral <= 0.0 ==> r == 0.0
    ensures collateral > 0.0 ==> r * collateral == pnl * 100.0
  {
    if collateral > 0.0 then pnl / collateral * 100.0 else 0.0
  }

  /** Realised profit of a closed trade from the percentage the venue reports. */
  function PnlClosed(percentage: real, collateral: real): (r: real)
    ensures r * 100.0 == percentage * collateral
  {
    percentage / 100.0 * collateral
  }

  /** A long and a short over the same move have opposite profits. */
  lemma PnlLongShortOpposite(entry: real, exit: real, size: real)
    requires entry != 0.0
    ensures PnlOpen(entry, exit, size, true) == -PnlOpen(entry, exit, size, false)
  {
  }

  /** The closed-trade formula undoes the percentage formula, and the other way
      round, whenever the collateral is positive. */
  lemma PercentageRoundTrip(pnl: real, percentage: real, collateral: real)
    requires collateral > 0.0
    ensures PnlClosed(PnlPercentage(pnl, collateral), collateral) == pnl
    ensures PnlPercentage(PnlClosed(percentage, collateral), collateral) == percentage
  {
    var p := PnlPercentage(pnl, collateral);
    assert p * collateral == pnl * 100.0;
    var q := PnlClosed(percentage, collateral);
    assert q * 100.0 == percentage * collateral;
  }

  /** The open-trade percentage does not depend on the collateral: it is the
      relative price move times the leverage, in percent. */
  lemma OpenPercentageIsLeveredMove(entry: real, exit: real, collateral: real, leverage: real, isLong: bool)
    requires entry != 0.0 && collateral > 0.0
    ensures PnlPercentage(PnlOpen(entry, exit, PositionSize(collateral, leverage), isLong), collateral)
            == (if isLong then exit - entry else entry - exit) / entry * leverage * 100.0
  {
    var move := (if isLong then exit - entry else entry - exit) / entry;
    var pnl := PnlOpen(entry, exit, PositionSize(collateral, leverage), isLong);
    assert pnl == move * (collateral * leverage);
    assert pnl / collateral == move * leverage;
  }

  /** The estimate keeps 90% of the at-open distance from the entry price: the
      two formulas differ whenever the price is not zero. */
  lemma EstimateIsBufferedAtOpen(entry: real, leverage: int, isLong: bool)
    requires leverage > 0
    ensures entry - LiquidationEstimate(entry, leverage as real, isLong)
            == 0.9 * (entry - LiquidationAtOpen(entry, leverage, isLong))
    ensures entry != 0.0 ==> LiquidationEstimate(entry, leverage as real, isLong) != LiquidationAtOpen(entry, leverage, isLong)
  {
    var l := leverage as real;
    assert 0.9 / l == 0.9 * (1.0 / l);
  }

  /** The worked example: a 100-unit, 10x long at 1.10 is 1000 in size with
      liquidation at 0.99; at 1.12 it shows 200/11 (about 18.18) profit, and the
      same figure in percent of its 100 collateral. */
  lemma LongExample()
    ensures PositionSize(100.0, 10.0) == 1000.0
    ensures LiquidationAtOpen(1.10, 10, true) == 0.99
    ensures PnlOpen(1.10, 1.12, 1000.0, true) == 200.0 / 11.0
    ensures PnlPercentage(200.0 / 11.0, 100.0) == 200.0 / 11.0
  {
  }
}
