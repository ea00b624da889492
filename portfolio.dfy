/** Flattening of the portfolio payload: the nested
    exchange -> currency -> balance mapping becomes one position row per
    (exchange, currency) pair whose entries are both objects. */
module Portfolio {
  import opened Wrappers
  import opened Json

  /** One position row: 取引所, 通貨, 数量, 価格(JPY), 評価額(JPY). */
  datatype Position = Position(exchange: string, currency: string, quantity: Json, priceJpy: Json, valueJpy: Json)

  /** The row for one balance record; `total` defaults to 0.0, the prices to None. */
  function MakePosition(exchange: string, currency: string, balance: Fields): Position
  {
    Position(exchange, currency, GetOr(balance, "total", JNum(0.0)), Get(balance, "price_jpy"), Get(balance, "value_jpy"))
  }

  /** Rows of one exchange's currency entries, skipping the non-objects. */
  function CurrencyPositions(exchange: string, currencies: Fields): seq<Position>
  {
    if currencies == [] then []
    else
      var last := currencies[|currencies| - 1];
      CurrencyPositions(exchange, currencies[..|currencies| - 1]) +
      (if last.1.JObj? then [MakePosition(exchange, last.0, last.1.fields)] else [])
  }

  /** Rows of every exchange entry, skipping the non-objects, in iteration order. */
  function AllPositions(balances: Fields): seq<Position>
  {
    if balances == [] then []
    else
      var last := balances[|balances| - 1];
      AllPositions(balances[..|balances| - 1]) +
      (if last.1.JObj? then CurrencyPositions(last.0, last.1.fields) else [])
  }

  /** `build_portfolio_positions` as a value: a missing `balances` is an
      empty dict, a `balances` that is not a dict has no `.items()`. */
  function PortfolioPositions(portfolio: Fields): Result<seq<Position>>
  {
    var balances := GetOr(portfolio, "balances", JObj([]));
    if balances.JObj? then Ok(AllPositions(balances.fields)) else Err(AttributeError)
  }

  /** `build_portfolio_positions`: two nested loops that append a row for
      each balance object and `continue` past anything else. */
  method BuildPortfolioPositions(portfolio: Fields) returns (r: Result<seq<Position>>)
    ensures r == PortfolioPositions(portfolio)
  {
    var balances := GetOr(portfolio, "balances", JObj([]));
    if !balances.JObj? {
      return Err(AttributeError);
    }
    var exchanges := balances.fields;
    var positions: seq<Position> := [];
    var i := 0;
    while i < |exchanges|
      invariant 0 <= i <= |exchanges|
      invariant positions == AllPositions(exchanges[..i])
    {
      var (ex, exBalances) := exchanges[i];
      assert exchanges[..i + 1][..i] == exchanges[..i];
      if exBalances.JObj? {
        var currencies := exBalances.fields;
        var j := 0;
        while j < |currencies|
          invariant 0 <= j <= |currencies|
          invariant positions == AllPositions(exchanges[..i]) + CurrencyPositions(ex, currencies[..j])
        {
          var (currency, balance) := currencies[j];
          assert currencies[..j + 1][..j] == currencies[..j];
          if balance.JObj? {
            positions := positions + [MakePosition(ex, currency, balance.fields)];
          }
          j := j + 1;
        }
        assert currencies[..j] == currencies;
      }
      assert positions == AllPositions(exchanges[..i + 1]);
      i := i + 1;
    }
    assert exchanges[..i] == exchanges;
    r := Ok(positions);
  }

  // ---------------------------------------------------------------------
  // Properties
  // ---------------------------------------------------------------------

  /** Exchange entry `i` and its currency entry `j` are both objects. */
  predicate IsBalanceAt(balances: Fields, i: int, j: int)
  {
    && 0 <= i < |balances|
    && balances[i].1.JObj?
    && 0 <= j < |balances[i].1.fields|
    && balances[i].1.fields[j].1.JObj?
  }

  /** The row that the balance at (i, j) yields. */
  function PositionAt(balances: Fields, i: int, j: int): Position
    requires IsBalanceAt(balances, i, j)
  {
    var (ex, exBalances) := balances[i];
    var (currency, balance) := exBalances.fields[j];
    MakePosition(ex, currency, balance.fields)
  }

  /** The rows of one exchange are exactly the rows of its object entries. */
  lemma {:induction false} CurrencyPositionsMembers(exchange: string, currencies: Fields, p: Position)
    ensures p in CurrencyPositions(exchange, currencies) <==>
      exists j :: 0 <= j < |currencies| && currencies[j].1.JObj? &&
        p == MakePosition(exchange, currencies[j].0, currencies[j].1.fields)
  {
    if currencies != [] {
      var n := |currencies| - 1;
      var front := currencies[..n];
      CurrencyPositionsMembers(exchange, front, p);
      assert forall j :: 0 <= j < n ==> front[j] == currencies[j];
    }
  }

  /** Every row comes from an (exchange, currency) pair whose entries are
      both objects, and every such pair yields a row. */
  lemma {:induction false} AllPositionsMembers(balances: Fields, p: Position)
    ensures p in AllPositions(balances) <==>
      exists i, j :: IsBalanceAt(balances, i, j) && p == PositionAt(balances, i, j)
  {
    if balances != [] {
      var n := |balances| - 1;
      var front := balances[..n];
      var (ex, exBalances) := balances[n];
      AllPositionsMembers(front, p);
      assert forall i, j :: IsBalanceAt(front, i, j) ==>
        IsBalanceAt(balances, i, j) && PositionAt(front, i, j) == PositionAt(balances, i, j);
      if exBalances.JObj? {
        CurrencyPositionsMembers(ex, exBalances.fields, p);
        if p in CurrencyPositions(ex, exBalances.fields) {
          var j :| 0 <= j < |exBalances.fields| && exBalances.fields[j].1.JObj? &&
                   p == MakePosition(ex, exBalances.fields[j].0, exBalances.fields[j].1.fields);
          assert IsBalanceAt(balances, n, j) && p == PositionAt(balances, n, j);
        }
      }
      if exists i, j :: IsBalanceAt(balances, i, j) && p == PositionAt(balances, i, j) {
        var i, j :| IsBalanceAt(balances, i, j) && p == PositionAt(balances, i, j);
        if i < n {
          assert IsBalanceAt(front, i, j) && p == PositionAt(front, i, j);
        } else {
          assert exBalances.JObj?;
          CurrencyPositionsMembers(ex, exBalances.fields, p);
        }
      }
    }
  }

  /** One row per object entry: the number of rows of an exchange is the
      number of its currency entries that are objects. */
  function CountObjects(entries: Fields): nat
  {
    if entries == [] then 0
    else CountObjects(entries[..|entries| - 1]) + (if entries[|entries| - 1].1.JObj? then 1 else 0)
  }

  lemma {:induction false} CurrencyPositionsCount(exchange: string, currencies: Fields)
    ensures |CurrencyPositions(exchange, currencies)| == CountObjects(currencies)
    ensures |CurrencyPositions(exchange, currencies)| <= |currencies|
  {
    if currencies != [] {
      CurrencyPositionsCount(exchange, currencies[..|currencies| - 1]);
    }
  }

  /** A missing `balances` gives no rows, and a `total`-less balance gets
      quantity 0.0. */
  lemma MissingBalancesIsEmpty(portfolio: Fields)
    requires !HasKey(portfolio, "balances")
    ensures PortfolioPositions(portfolio) == Ok([])
  {
    GetOrFound(portfolio, "balances", JObj([]));
  }

  lemma QuantityDefaultsToZero(exchange: string, currency: string, balance: Fields)
    requires !HasKey(balance, "total")
    ensures MakePosition(exchange, currency, balance).quantity == JNum(0.0)
  {
    GetOrFound(balance, "total", JNum(0.0));
  }

  /** An exchange entry that is not an object contributes nothing: appending
      one leaves the rows unchanged. */
  lemma NonObjectExchangeSkipped(balances: Fields, exchange: string, entry: Json)
    requires !entry.JObj?
    ensures AllPositions(balances + [(exchange, entry)]) == AllPositions(balances)
  {
  }
}
