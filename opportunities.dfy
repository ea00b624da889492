/** Derivation of the opportunity table: one display row per raw
    opportunity record, with spread in bps, the conservative executable size,
    the estimated notional and the expected profit. The size, the notional
    and the profit are present only when every input they need is truthy,
    so an absent or zero input never turns into a fabricated zero; the bps
    figure is present for any number, zero included. */
module Opportunities {
  import opened Wrappers
  import opened Json

  // ---------------------------------------------------------------------
  // Rounding
  // ---------------------------------------------------------------------

  /** Python's `round(x)` on the exact value: the nearest integer, ties to
      the even neighbour. */
  function RoundHalfEven(x: real): (n: int)
    ensures -0.5 <= n as real - x <= 0.5
    ensures (n as real - x == 0.5 || x - n as real == 0.5) ==> n % 2 == 0
  {
    var f := x.Floor;
    var d := x - f as real;
    if d < 0.5 then f
    else if d > 0.5 then f + 1
    else if f % 2 == 0 then f
    else f + 1
  }

  /** Python's `round(x, 2)` on the exact value. */
  function Round2(x: real): (r: real)
    ensures -0.005 <= r - x <= 0.005
  {
    RoundHalfEven(x * 100.0) as real / 100.0
  }

  function MinReal(a: real, b: real): (m: real)
    ensures m <= a && m <= b && (m == a || m == b)
  {
    if b < a then b else a
  }

  // ---------------------------------------------------------------------
  // Metrics of one record
  // ---------------------------------------------------------------------

  /** `min(buy_amount, sell_amount) if buy_amount and sell_amount else None`.
      Comparing two truthy values that are not both numbers is a TypeError. */
  function MinAvailable(buyAmount: Json, sellAmount: Json): (r: Result<Option<real>>)
    ensures !(Truthy(buyAmount) && Truthy(sellAmount)) ==> r == Ok(None)
    ensures r.Ok? && r.value.Some? <==>
              Truthy(buyAmount) && Truthy(sellAmount) && Numeric(buyAmount) && Numeric(sellAmount)
    ensures r.Ok? && r.value.Some? ==>
              var m := r.value.value;
              m != 0.0 && m <= Num(buyAmount) && m <= Num(sellAmount) &&
              (m == Num(buyAmount) || m == Num(sellAmount))
    ensures Truthy(buyAmount) && Truthy(sellAmount) && !(Numeric(buyAmount) && Numeric(sellAmount)) ==>
              r == Err(TypeError)
    ensures r.Err? ==> r.error == TypeError
  {
    if Truthy(buyAmount) && Truthy(sellAmount) then
      if Numeric(buyAmount) && Numeric(sellAmount) then Ok(Some(MinReal(Num(buyAmount), Num(sellAmount))))
      else Err(TypeError)
    else Ok(None)
  }

  /** `round(spread_pct * 100, 2) if isinstance(spread_pct, (int, float)) else None`:
      present for any number, zero included, and for nothing else. */
  function SpreadBps(spreadPct: Json): (r: Option<real>)
    ensures r.Some? <==> Numeric(spreadPct)
    ensures r.Some? ==> -0.005 <= r.value - Num(spreadPct) * 100.0 <= 0.005
  {
    if Numeric(spreadPct) then Some(Round2(Num(spreadPct) * 100.0)) else None
  }

  /** `min_amount * min(buy_price, sell_price)` before rounding: the
      notional at one of the two prices, the smaller of the two for a
      positive amount and the larger of the two for a negative one. */
  function SizeBeforeRounding(minAmount: real, buyPrice: real, sellPrice: real): (s: real)
    ensures s == minAmount * buyPrice || s == minAmount * sellPrice
    ensures minAmount > 0.0 ==> s <= minAmount * buyPrice && s <= minAmount * sellPrice
    ensures minAmount < 0.0 ==> s >= minAmount * buyPrice && s >= minAmount * sellPrice
  {
    var p := MinReal(buyPrice, sellPrice);
    MulMonotone(minAmount, p, buyPrice);
    MulMonotone(minAmount, p, sellPrice);
    minAmount * p
  }

  /** Scaling by a positive factor keeps an order, by a negative one flips it. */
  lemma MulMonotone(k: real, a: real, b: real)
    requires a <= b
    ensures k > 0.0 ==> k * a <= k * b
    ensures k < 0.0 ==> k * a >= k * b
  {
    assert k * b - k * a == k * (b - a);
  }

  /** `round(min_amount * min(buy_price, sell_price), 0)` when `min_amount`,
      `buy_price` and `sell_price` are all truthy, then `int(...)`; None
      (rendered "—") otherwise. */
  function EstimatedSize(minAmount: Option<real>, buyPrice: Json, sellPrice: Json): (r: Result<Option<int>>)
    ensures r.Ok? && r.value.Some? <==>
              minAmount.Some? && minAmount.value != 0.0 && Truthy(buyPrice) && Truthy(sellPrice) &&
              Numeric(buyPrice) && Numeric(sellPrice)
    ensures r.Ok? && r.value.Some? ==>
              var s := SizeBeforeRounding(minAmount.value, Num(buyPrice), Num(sellPrice));
              -0.5 <= r.value.value as real - s <= 0.5
    ensures (minAmount.Some? && minAmount.value != 0.0 && Truthy(buyPrice) && Truthy(sellPrice) &&
             !(Numeric(buyPrice) && Numeric(sellPrice))) ==> r == Err(TypeError)
    ensures !(minAmount.Some? && minAmount.value != 0.0 && Truthy(buyPrice) && Truthy(sellPrice)) ==>
              r == Ok(None)
    ensures r.Err? ==> r.error == TypeError
  {
    if minAmount.Some? && minAmount.value != 0.0 && Truthy(buyPrice) && Truthy(sellPrice) then
      if Numeric(buyPrice) && Numeric(sellPrice) then
        Ok(Some(RoundHalfEven(SizeBeforeRounding(minAmount.value, Num(buyPrice), Num(sellPrice)))))
      else Err(TypeError)
    else Ok(None)
  }

  /** `round(spread_jpy * min_amount, 2) if min_amount and spread_jpy else None`. */
  function ExpectedProfit(spreadJpy: Json, minAmount: Option<real>): (r: Result<Option<real>>)
    ensures r.Ok? && r.value.Some? <==>
              minAmount.Some? && minAmount.value != 0.0 && Truthy(spreadJpy) && Numeric(spreadJpy)
    ensures r.Ok? && r.value.Some? ==>
              -0.005 <= r.value.value - Num(spreadJpy) * minAmount.value <= 0.005
    ensures minAmount.Some? && minAmount.value != 0.0 && Truthy(spreadJpy) && !Numeric(spreadJpy) ==>
              r == Err(TypeError)
    ensures !(minAmount.Some? && minAmount.value != 0.0 && Truthy(spreadJpy)) ==> r == Ok(None)
    ensures r.Err? ==> r.error == TypeError
  {
    if minAmount.Some? && minAmount.value != 0.0 && Truthy(spreadJpy) then
      if Numeric(spreadJpy) then Ok(Some(Round2(Num(spreadJpy) * minAmount.value)))
      else Err(TypeError)
    else Ok(None)
  }

  // ---------------------------------------------------------------------
  // Rows
  // ---------------------------------------------------------------------

  /** One display row. `None` in `estimatedSize` and `expectedProfit` is
      rendered "—"; `None` in `spreadBps` is shown as None. The timestamp is
      kept as received (its display formatting is not modelled). `buyPrice`
      and `sellPrice` fill both the visible price columns and the hidden
      `_buy_price` / `_sell_price` ones. */
  datatype OpportunityRow = OpportunityRow(
    timestamp: Json,           // 時刻
    symbol: Json,              // 通貨
    buyExchangeLabel: Json,    // 買い取引所 ("" when absent)
    sellExchangeLabel: Json,   // 売り取引所 ("" when absent)
    buyPrice: Json,            // 買値, _buy_price
    sellPrice: Json,           // 売値, _sell_price
    spreadBps: Option<real>,   // スプレッド(bps)
    spreadJpy: Json,           // スプレッド(円)
    estimatedSize: Option<int>,   // 想定サイズ
    expectedProfit: Option<real>, // 推定利益
    buyExchange: Json,         // _buy_exchange (None when absent)
    sellExchange: Json)        // _sell_exchange (None when absent)

  /** The record's amount, price and spread fields are each falsy (absent,
      None, zero, empty) or a number. */
  predicate NumericFields(f: Fields)
  {
    forall k :: k in ["buy_available_amount", "sell_available_amount", "buy_price", "sell_price", "spread_jpy"] ==>
      !Truthy(Get(f, k)) || Numeric(Get(f, k))
  }

  /** The loop body of `build_opportunity_rows` for one record; what it
      guarantees is stated by `DeriveRowContents`. */
  function DeriveRow(opp: Json): Result<OpportunityRow>
  {
    if !opp.JObj? then Err(AttributeError)
    else
      var f := opp.fields;
      var buyPrice := Get(f, "buy_price");
      var sellPrice := Get(f, "sell_price");
      var spreadJpy := Get(f, "spread_jpy");
      var minAmount := MinAvailable(Get(f, "buy_available_amount"), Get(f, "sell_available_amount"));
      if minAmount.Err? then Err(minAmount.error)
      else
        var size := EstimatedSize(minAmount.value, buyPrice, sellPrice);
        if size.Err? then Err(size.error)
        else
          var profit := ExpectedProfit(spreadJpy, minAmount.value);
          if profit.Err? then Err(profit.error)
          else
            Ok(OpportunityRow(
              GetOr(f, "timestamp", JStr("")),
              GetOr(f, "symbol", JStr("")),
              GetOr(f, "buy_exchange", JStr("")),
              GetOr(f, "sell_exchange", JStr("")),
              buyPrice,
              sellPrice,
              SpreadBps(Get(f, "spread_pct")),
              spreadJpy,
              size.value,
              profit.value,
              Get(f, "buy_exchange"),
              Get(f, "sell_exchange")))
  }

  /** What a derived row holds: every pass-through column equals the
      record's field, the bps column depends on `spread_pct` only, the
      notional and the profit are present exactly when their inputs are all
      truthy, and their values are those of `EstimatedSize` and
      `ExpectedProfit` at the record's `min_amount`. */
  predicate RowOfRecord(f: Fields, row: OpportunityRow)
  {
      && row.timestamp == GetOr(f, "timestamp", JStr(""))
      && row.symbol == GetOr(f, "symbol", JStr(""))
      && row.buyExchangeLabel == GetOr(f, "buy_exchange", JStr(""))
      && row.sellExchangeLabel == GetOr(f, "sell_exchange", JStr(""))
      && row.buyPrice == Get(f, "buy_price")
      && row.sellPrice == Get(f, "sell_price")
      && row.spreadJpy == Get(f, "spread_jpy")
      && row.buyExchange == Get(f, "buy_exchange")
      && row.sellExchange == Get(f, "sell_exchange")
      && row.spreadBps == SpreadBps(Get(f, "spread_pct"))
      && (row.estimatedSize.Some? <==>
            Truthy(Get(f, "buy_available_amount")) && Truthy(Get(f, "sell_available_amount")) &&
            Truthy(Get(f, "buy_price")) && Truthy(Get(f, "sell_price")))
      && (row.expectedProfit.Some? <==>
            Truthy(Get(f, "buy_available_amount")) && Truthy(Get(f, "sell_available_amount")) &&
            Truthy(Get(f, "spread_jpy")))
      && (var minAmount := MinAvailable(Get(f, "buy_available_amount"), Get(f, "sell_available_amount"));
          && minAmount.Ok?
          && EstimatedSize(minAmount.value, Get(f, "buy_price"), Get(f, "sell_price")) == Ok(row.estimatedSize)
          && ExpectedProfit(Get(f, "spread_jpy"), minAmount.value) == Ok(row.expectedProfit))
  }

  /** A record that is not a dict raises AttributeError; a dict whose
      amount, price and spread fields are falsy or numbers never raises;
      and a derived row satisfies `RowOfRecord`. */
  lemma DeriveRowContents(opp: Json)
    ensures !opp.JObj? ==> DeriveRow(opp) == Err(AttributeError)
    ensures opp.JObj? && NumericFields(opp.fields) ==> DeriveRow(opp).Ok?
    ensures DeriveRow(opp).Ok? ==> opp.JObj? && RowOfRecord(opp.fields, DeriveRow(opp).value)
  {
  }

  /** `build_opportunity_rows` as a value: the first record that raises
      aborts the whole call with its exception; otherwise one row per record,
      in input order. */
  function OpportunityRows(opps: seq<Json>): (r: Result<seq<OpportunityRow>>)
    ensures r.Ok? <==> forall i :: 0 <= i < |opps| ==> DeriveRow(opps[i]).Ok?
    ensures r.Ok? ==> |r.value| == |opps| && forall i :: 0 <= i < |opps| ==> r.value[i] == DeriveRow(opps[i]).value
  {
    Collect(Results(opps, DeriveRow))
  }

  /** The loop of `build_opportunity_rows`: appends `derive(x)` for each
      element in turn, and lets the first exception escape. */
  method AppendEach<T>(xs: seq<Json>, derive: Json -> Result<T>) returns (r: Result<seq<T>>)
    ensures r == Collect(Results(xs, derive))
  {
    ghost var rs := Results(xs, derive);
    var rows: seq<T> := [];
    var i := 0;
    while i < |xs|
      invariant 0 <= i <= |xs|
      invariant |rows| == i
      invariant AllOk(rs[..i])
      invariant forall j :: 0 <= j < i ==> rows[j] == rs[j].value
    {
      var row := derive(xs[i]);
      if row.Err? {
        assert row == rs[i];
        CollectFirstError(rs, i);
        return Err(row.error);
      }
      assert rs[..i + 1] == rs[..i] + [rs[i]];
      rows := rows + [row.value];
      i := i + 1;
    }
    assert rs[..i] == rs;
    assert AllOk(rs);
    assert Collect(rs).value == rows;
    r := Ok(rows);
  }

  /** `build_opportunity_rows`. */
  method BuildOpportunityRows(opps: seq<Json>) returns (r: Result<seq<OpportunityRow>>)
    ensures r == OpportunityRows(opps)
  {
    r := AppendEach(opps, DeriveRow);
  }

  // ---------------------------------------------------------------------
  // Properties
  // ---------------------------------------------------------------------

  /** A zero or missing amount on either side leaves the size, the
      estimated notional and the expected profit all unavailable ("—"). */
  lemma MissingAmountLeavesFiguresOut(opp: Json)
    requires DeriveRow(opp).Ok?
    requires !Truthy(Get(opp.fields, "buy_available_amount")) || !Truthy(Get(opp.fields, "sell_available_amount"))
    ensures DeriveRow(opp).value.estimatedSize == None
    ensures DeriveRow(opp).value.expectedProfit == None
  {
  }

  /** The figures of a derived row in terms of the record's own fields: the
      notional is within rounding of the smaller amount at the smaller
      price, and the profit within rounding of `spread_jpy` times the
      smaller amount. */
  lemma DerivedFigures(opp: Json)
    requires DeriveRow(opp).Ok?
    ensures
      var f := opp.fields;
      var row := DeriveRow(opp).value;
      && (row.estimatedSize.Some? ==>
            && Numeric(Get(f, "buy_available_amount")) && Numeric(Get(f, "sell_available_amount"))
            && Numeric(Get(f, "buy_price")) && Numeric(Get(f, "sell_price"))
            && -0.5 <= row.estimatedSize.value as real
                       - MinReal(Num(Get(f, "buy_available_amount")), Num(Get(f, "sell_available_amount")))
                         * MinReal(Num(Get(f, "buy_price")), Num(Get(f, "sell_price"))) <= 0.5)
      && (row.expectedProfit.Some? ==>
            && Numeric(Get(f, "buy_available_amount")) && Numeric(Get(f, "sell_available_amount"))
            && Numeric(Get(f, "spread_jpy"))
            && -0.005 <= row.expectedProfit.value
                         - Num(Get(f, "spread_jpy"))
                           * MinReal(Num(Get(f, "buy_available_amount")), Num(Get(f, "sell_available_amount"))) <= 0.005)
  {
    DeriveRowContents(opp);
    var f := opp.fields;
    var row := DeriveRow(opp).value;
    var buyAmount, sellAmount := Get(f, "buy_available_amount"), Get(f, "sell_available_amount");
    var minAmount := MinAvailable(buyAmount, sellAmount);
    if row.estimatedSize.Some? || row.expectedProfit.Some? {
      assert minAmount.value.Some?;
      var m := minAmount.value.value;
      assert m == MinReal(Num(buyAmount), Num(sellAmount));
      if row.estimatedSize.Some? {
        var bp, sp := Num(Get(f, "buy_price")), Num(Get(f, "sell_price"));
        assert SizeBeforeRounding(m, bp, sp) == m * MinReal(bp, sp);
      }
    }
  }

  /** The spread in bps depends on `spread_pct` alone: records that agree on
      it get the same figure whatever their amounts and prices. */
  lemma SpreadBpsOnlyFromSpreadPct(a: Json, b: Json)
    requires DeriveRow(a).Ok? && DeriveRow(b).Ok?
    requires Get(a.fields, "spread_pct") == Get(b.fields, "spread_pct")
    ensures DeriveRow(a).value.spreadBps == DeriveRow(b).value.spreadBps
  {
  }

  /** With positive amounts the estimated notional, before rounding, never
      exceeds the notional at either leg's price. */
  lemma EstimatedSizeWithinLegs(buyAmount: real, sellAmount: real, buyPrice: real, sellPrice: real)
    requires buyAmount > 0.0 && sellAmount > 0.0 && buyPrice != 0.0 && sellPrice != 0.0
    ensures
      var m := MinAvailable(JNum(buyAmount), JNum(sellAmount));
      var r := EstimatedSize(m.value, JNum(buyPrice), JNum(sellPrice));
      && m == Ok(Some(MinReal(buyAmount, sellAmount)))
      && r.Ok? && r.value.Some?
      && r.value.value as real <= MinReal(buyAmount, sellAmount) * buyPrice + 0.5
      && r.value.value as real <= MinReal(buyAmount, sellAmount) * sellPrice + 0.5
  {
    var m := MinReal(buyAmount, sellAmount);
    var s := SizeBeforeRounding(m, buyPrice, sellPrice);
    assert s <= m * buyPrice && s <= m * sellPrice;
  }

  /** Examples: `min(3, 0)` is unavailable rather than 0, `min(3, 5)` is 3,
      a missing side is unavailable; a 0.0055 fraction is 0.55 in the bps
      column; a size of 2 at prices 100 and 90 is 180. */
  lemma DerivationExamples()
    ensures MinAvailable(JNum(3.0), JNum(0.0)) == Ok(None)
    ensures MinAvailable(JNum(3.0), JNum(5.0)) == Ok(Some(3.0))
    ensures MinAvailable(JNull, JNum(5.0)) == Ok(None)
    ensures SpreadBps(JNum(0.0055)) == Some(0.55)
    ensures EstimatedSize(Some(2.0), JNum(100.0), JNum(90.0)) == Ok(Some(180))
  {
    assert (0.55 * 100.0).Floor == 55;
    assert (180.0).Floor == 180;
  }

  /** An XRP/JPY opportunity bought at 85.0 and sold at 85.5, with a spread
      of 0.5 JPY (0.0059 as a fraction) and 1000 and 1500 available, gets a
      size of 1000, 0.59 in the bps column, a notional of 85000 and a
      profit of 500. */
  lemma ScenarioXrp()
    ensures MinAvailable(JNum(1000.0), JNum(1500.0)) == Ok(Some(1000.0))
    ensures SpreadBps(JNum(0.0059)) == Some(0.59)
    ensures EstimatedSize(Some(1000.0), JNum(85.0), JNum(85.5)) == Ok(Some(85000))
    ensures ExpectedProfit(JNum(0.5), Some(1000.0)) == Ok(Some(500.0))
  {
    assert (0.59 * 100.0).Floor == 59;
    assert (85000.0).Floor == 85000;
    assert (50000.0).Floor == 50000;
  }
}
