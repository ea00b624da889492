/** The API contract checker: each endpoint's response is checked for a 200
    status, the expected top-level shape and the required keys; every
    failed check adds one to a failure counter, and the process exit code
    is 1 exactly when some check failed. */
module CheckApi {
  import opened Json
  import opened Fetch

  // ---------------------------------------------------------------------
  // ensure_keys / ensure_list
  // ---------------------------------------------------------------------

  /** `[k for k in keys if k not in obj]`. */
  function EnsureKeys(obj: Fields, keys: seq<string>): (missing: seq<string>)
    ensures |missing| <= |keys|
    ensures forall k :: k in missing <==> k in keys && !HasKey(obj, k)
    ensures missing == [] <==> forall k :: k in keys ==> HasKey(obj, k)
  {
    if keys == [] then []
    else (if HasKey(obj, keys[0]) then [] else [keys[0]]) + EnsureKeys(obj, keys[1..])
  }

  /** The filter runs key by key: the keys missing from a concatenation are
      those missing from each part, in turn, a repeated key as often as it
      is required. */
  lemma {:induction false} EnsureKeysAppend(obj: Fields, a: seq<string>, b: seq<string>)
    ensures EnsureKeys(obj, a + b) == EnsureKeys(obj, a) + EnsureKeys(obj, b)
  {
    if a == [] {
      assert a + b == b;
    } else {
      var head := if HasKey(obj, a[0]) then [] else [a[0]];
      assert (a + b)[0] == a[0] && (a + b)[1..] == a[1..] + b;
      calc {
        EnsureKeys(obj, a + b);
        head + EnsureKeys(obj, a[1..] + b);
        { EnsureKeysAppend(obj, a[1..], b); }
        head + (EnsureKeys(obj, a[1..]) + EnsureKeys(obj, b));
        (head + EnsureKeys(obj, a[1..])) + EnsureKeys(obj, b);
        EnsureKeys(obj, a) + EnsureKeys(obj, b);
      }
    }
  }

  /** `a` is `b` with some elements deleted, the rest kept in order. */
  predicate IsSubsequence(a: seq<string>, b: seq<string>)
  {
    if a == [] then true
    else if b == [] then false
    else (a[0] == b[0] && IsSubsequence(a[1..], b[1..])) || IsSubsequence(a, b[1..])
  }

  /** The missing keys come in the order of the required keys. */
  lemma {:induction false} EnsureKeysSubsequence(obj: Fields, keys: seq<string>)
    ensures IsSubsequence(EnsureKeys(obj, keys), keys)
  {
    if keys != [] {
      EnsureKeysSubsequence(obj, keys[1..]);
      var rest := EnsureKeys(obj, keys[1..]);
      if HasKey(obj, keys[0]) {
        SubsequenceSkip(rest, keys[1..], keys[0]);
        assert [keys[0]] + keys[1..] == keys;
        assert EnsureKeys(obj, keys) == rest;
      } else {
        SubsequenceCons(rest, keys[1..], keys[0]);
        assert [keys[0]] + keys[1..] == keys;
        assert EnsureKeys(obj, keys) == [keys[0]] + rest;
      }
    }
  }

  /** Deleting one more element from the front keeps a subsequence. */
  lemma SubsequenceSkip(a: seq<string>, b: seq<string>, x: string)
    requires IsSubsequence(a, b)
    ensures IsSubsequence(a, [x] + b)
  {
  }

  /** Keeping the same first element on both sides keeps a subsequence. */
  lemma SubsequenceCons(a: seq<string>, b: seq<string>, x: string)
    requires IsSubsequence(a, b)
    ensures IsSubsequence([x] + a, [x] + b)
  {
  }

  /** Against an empty object every required key is missing. */
  lemma {:induction false} EnsureKeysOfEmpty(keys: seq<string>)
    ensures EnsureKeys([], keys) == keys
  {
    if keys != [] {
      EnsureKeysOfEmpty(keys[1..]);
      assert [keys[0]] + keys[1..] == keys;
    }
  }

  /** Adding a key to the object never adds a missing key: the new result
      is a subsequence of the old one. */
  lemma {:induction false} EnsureKeysAntitone(obj: Fields, k: string, v: Json, keys: seq<string>)
    ensures IsSubsequence(EnsureKeys(obj + [(k, v)], keys), EnsureKeys(obj, keys))
  {
    if keys != [] {
      var grown := obj + [(k, v)];
      EnsureKeysAntitone(obj, k, v, keys[1..]);
      var a := EnsureKeys(grown, keys[1..]);
      var b := EnsureKeys(obj, keys[1..]);
      var x := keys[0];
      if HasKey(obj, x) {
        var i :| 0 <= i < |obj| && obj[i].0 == x;
        assert grown[i].0 == x;
        assert EnsureKeys(grown, keys) == a && EnsureKeys(obj, keys) == b;
      } else if HasKey(grown, x) {
        assert EnsureKeys(grown, keys) == a && EnsureKeys(obj, keys) == [x] + b;
        SubsequenceSkip(a, b, x);
      } else {
        assert EnsureKeys(grown, keys) == [x] + a && EnsureKeys(obj, keys) == [x] + b;
        SubsequenceCons(a, b, x);
      }
    }
  }

  /** When exactly the key at index `i` is absent, it alone is reported. */
  lemma {:induction false} EnsureKeysSingleMissing(obj: Fields, keys: seq<string>, i: nat)
    requires i < |keys| && !HasKey(obj, keys[i])
    requires forall j :: 0 <= j < |keys| && j != i ==> HasKey(obj, keys[j])
    ensures EnsureKeys(obj, keys) == [keys[i]]
  {
    if i == 0 {
      assert EnsureKeys(obj, keys[1..]) == [] by {
        forall k | k in keys[1..] ensures HasKey(obj, k) {
          var j :| 0 <= j < |keys[1..]| && keys[1..][j] == k;
          assert keys[j + 1] == k;
        }
      }
    } else {
      EnsureKeysSingleMissing(obj, keys[1..], i - 1);
    }
  }

  /** `ensure_keys({}, ["a", "b"])` and `ensure_keys({"a": 1}, ["a", "b"])`. */
  lemma EnsureKeysExamples()
    ensures EnsureKeys([], ["a", "b"]) == ["a", "b"]
    ensures EnsureKeys([("a", JNum(1.0))], ["a", "b"]) == ["b"]
  {
    EnsureKeysOfEmpty(["a", "b"]);
    assert HasKey([("a", JNum(1.0))], "a") by {
      assert [("a", JNum(1.0))][0].0 == "a";
    }
    EnsureKeysSingleMissing([("a", JNum(1.0))], ["a", "b"], 1);
  }

  /** `ensure_list`: `isinstance(obj, list)`. A body that passes is not a
      dict, and its truthiness (`if data:`) is its non-emptiness. */
  predicate EnsureList(body: Json)
    ensures EnsureList(body) ==> !body.JObj?
    ensures EnsureList(body) ==> (Truthy(body) <==> body != JArr([]))
  {
    body.JArr?
  }

  // ---------------------------------------------------------------------
  // One check
  // ---------------------------------------------------------------------

  /** What one check decided. */
  datatype Verdict =
    | BadResponse(status: int)          // non-200 status or wrong top-level shape
    | KeysChecked(missing: seq<string>) // required keys looked up in one object
    | EmptyList                         // 200 with an empty list: passes
    | HealthChecked(ok: bool)           // the health probe

  predicate Passed(v: Verdict)
  {
    match v
    case BadResponse(_) => false
    case KeysChecked(missing) => missing == []
    case EmptyList => true
    case HealthChecked(ok) => ok
  }

  /** A check of an object endpoint: a bad status or a body that is not a
      dict is one failure with no key check; otherwise the object's
      missing keys decide. */
  function ObjectCheck(o: Outcome, required: seq<string>): (v: Verdict)
    ensures v.BadResponse? <==> o.status != 200 || !o.body.JObj?
    ensures v.KeysChecked? ==> o.body.JObj? && v.missing == EnsureKeys(o.body.fields, required)
    ensures Passed(v) <==>
              o.status == 200 && o.body.JObj? && forall k :: k in required ==> HasKey(o.body.fields, k)
  {
    if o.status != 200 || !o.body.JObj? then BadResponse(o.status)
    else KeysChecked(EnsureKeys(o.body.fields, required))
  }

  /** A check of a list endpoint: a bad status or a body that is not a list
      is one failure; an empty list passes; otherwise only the first element
      is inspected, and a first element that is not a dict misses every
      required key. */
  function ListCheck(o: Outcome, required: seq<string>): (v: Verdict)
    ensures v.BadResponse? <==> o.status != 200 || !EnsureList(o.body)
    ensures v == EmptyList <==> o.status == 200 && o.body == JArr([])
    ensures o.status == 200 && o.body.JArr? && o.body.items != [] && !o.body.items[0].JObj? ==>
              v == KeysChecked(required)
    ensures Passed(v) <==>
              && o.status == 200 && o.body.JArr?
              && (o.body.items == [] ||
                  forall k :: k in required ==> o.body.items[0].JObj? && HasKey(o.body.items[0].fields, k))
  {
    if o.status != 200 || !EnsureList(o.body) then BadResponse(o.status)
    else if o.body.items == [] then EmptyList
    else
      var first := o.body.items[0];
      assert required != [] ==> required[0] in required;
      KeysChecked(if first.JObj? then EnsureKeys(first.fields, required) else required)
  }

  /** Two list responses with the same status and the same first element
      get the same verdict: the rest of the list is never looked at. */
  lemma ListCheckInspectsFirstOnly(o1: Outcome, o2: Outcome, required: seq<string>)
    requires o1.status == o2.status && o1.body.JArr? && o2.body.JArr?
    requires o1.body.items != [] && o2.body.items != [] && o1.body.items[0] == o2.body.items[0]
    ensures ListCheck(o1, required) == ListCheck(o2, required)
  {
  }

  /** The health probe: `status == 200 and isinstance(data, dict) and
      "status" in data`, which is an object check for the single key
      "status". */
  function HealthCheck(o: Outcome): (v: Verdict)
    ensures v.HealthChecked?
    ensures Passed(v) <==> Passed(ObjectCheck(o, ["status"]))
  {
    HealthChecked(o.status == 200 && o.body.JObj? && HasKey(o.body.fields, "status"))
  }

  // ---------------------------------------------------------------------
  // Failure counting
  // ---------------------------------------------------------------------

  /** The number of failed checks among `vs`. */
  function FailureCount(vs: seq<Verdict>): nat
  {
    if vs == [] then 0
    else FailureCount(vs[..|vs| - 1]) + (if Passed(vs[|vs| - 1]) then 0 else 1)
  }

  /** Each check adds 0 or 1: the count is at most the number of checks,
      and it is 0 exactly when every check passed. */
  lemma {:induction false} FailureCountBounds(vs: seq<Verdict>)
    ensures FailureCount(vs) <= |vs|
    ensures FailureCount(vs) == 0 <==> forall i :: 0 <= i < |vs| ==> Passed(vs[i])
  {
    if vs != [] {
      var front := vs[..|vs| - 1];
      FailureCountBounds(front);
      assert forall i :: 0 <= i < |front| ==> front[i] == vs[i];
    }
  }

  /** `failures += 0 if passed else 1` after one more check. */
  lemma FailureCountSnoc(vs: seq<Verdict>, v: Verdict)
    ensures FailureCount(vs + [v]) == FailureCount(vs) + (if Passed(v) then 0 else 1)
  {
  }

  /** One step of a test function: `failures += 1` when the check failed,
      so that the counter stays the failure count of the checks done. */
  method Tally(failures: nat, ghost done: seq<Verdict>, v: Verdict) returns (failures': nat)
    requires failures == FailureCount(done)
    ensures failures' == FailureCount(done + [v])
    ensures failures' == if Passed(v) then failures else failures + 1
  {
    failures' := failures;
    if !Passed(v) {
      failures' := failures' + 1;
    }
    FailureCountSnoc(done, v);
  }

  // ---------------------------------------------------------------------
  // The two profiles
  // ---------------------------------------------------------------------

  const ArbguiOrderbookKeys: seq<string> :=
    ["exchange", "symbol", "timestamp", "bids", "asks", "best_bid", "best_ask", "mid_price", "spread"]
  const ArbguiOpportunityKeys: seq<string> :=
    ["timestamp", "base_symbol", "buy_exchange", "sell_exchange", "buy_price", "sell_price",
     "spread_bps", "estimated_size_jpy", "expected_profit_jpy"]
  const ArbguiPortfolioKeys: seq<string> := ["updated_at", "total_value_jpy", "exchanges"]

  const OrderbookKeys: seq<string> := ["exchange", "symbol", "timestamp", "bids", "asks"]
  const OpportunityKeys: seq<string> :=
    ["symbol", "buy_exchange", "sell_exchange", "buy_price", "sell_price", "spread_jpy", "spread_pct", "timestamp"]
  const PortfolioKeys: seq<string> := ["balances", "total_value_jpy", "last_updated"]
  const ExecutionSummaryKeys: seq<string> :=
    ["active_orders", "recent_executions", "total_trades", "successful_trades", "failed_trades", "total_profit_jpy"]
  const ExecutionHistoryKeys: seq<string> :=
    ["id", "opportunity", "buy_order_id", "sell_order_id", "status", "created_at", "one_sided_risk"]
  const StatsKeys: seq<string> :=
    ["total_orderbooks", "orderbook_history_size", "current_opportunities", "opportunity_history_size",
     "active_orders", "execution_history_size", "total_trades", "successful_trades", "failed_trades",
     "total_profit_jpy"]
  const DataAllKeys: seq<string> := ["orderbooks", "opportunities", "execution_summary", "timestamp"]

  /** The responses of one run, endpoint by endpoint; the variant is the
      `--mode` of the run. */
  datatype Responses =
    | Arbgui(orderbook: Outcome, opportunities: Outcome, portfolio: Outcome)
    | Openapi(health: Outcome, orderbooks: Outcome, orderbookSingle: Outcome, orderbookHistory: Outcome,
              opportunities: Outcome, opportunityHistory: Outcome, portfolio: Outcome,
              executionSummary: Outcome, executionHistory: Outcome, stats: Outcome, dataAll: Outcome)

  /** The verdicts of a run, in the order the checks are made. */
  function Verdicts(rs: Responses): (vs: seq<Verdict>)
    ensures rs.Arbgui? ==> |vs| == 3
    ensures rs.Openapi? ==> |vs| == 11
  {
    match rs
    case Arbgui(ob, opps, pf) =>
      [ObjectCheck(ob, ArbguiOrderbookKeys)] + [ListCheck(opps, ArbguiOpportunityKeys)] +
      [ObjectCheck(pf, ArbguiPortfolioKeys)]
    case Openapi(health, obs, ob, obHist, opps, oppHist, pf, execSummary, execHist, stats, all) =>
      [HealthCheck(health)] + [ListCheck(obs, OrderbookKeys)] + [ObjectCheck(ob, OrderbookKeys)] +
      [ListCheck(obHist, OrderbookKeys)] + [ListCheck(opps, OpportunityKeys)] +
      [ListCheck(oppHist, OpportunityKeys)] + [ObjectCheck(pf, PortfolioKeys)] +
      [ObjectCheck(execSummary, ExecutionSummaryKeys)] + [ListCheck(execHist, ExecutionHistoryKeys)] +
      [ObjectCheck(stats, StatsKeys)] + [ObjectCheck(all, DataAllKeys)]
  }

  /** `test_arbgui`: three independent checks, each adding at most one
      failure. Given a completed response for every endpoint, no check stops
      the ones after it. */
  method TestArbgui(orderbook: Outcome, opportunities: Outcome, portfolio: Outcome) returns (failures: nat)
    ensures failures == FailureCount(Verdicts(Arbgui(orderbook, opportunities, portfolio)))
    ensures failures <= 3
  {
    failures := 0;
    ghost var done: seq<Verdict> := [];

    var v := ObjectCheck(orderbook, ArbguiOrderbookKeys);
    failures := Tally(failures, done, v); done := [v];

    v := ListCheck(opportunities, ArbguiOpportunityKeys);
    failures := Tally(failures, done, v); done := done + [v];

    v := ObjectCheck(portfolio, ArbguiPortfolioKeys);
    failures := Tally(failures, done, v); done := done + [v];

    assert done == Verdicts(Arbgui(orderbook, opportunities, portfolio));
    FailureCountBounds(done);
  }

  /** `test_openapi`: eleven independent checks, each adding at most one
      failure. Given a completed response for every endpoint, no check stops
      the ones after it. */
  method TestOpenapi(health: Outcome, orderbooks: Outcome, orderbookSingle: Outcome, orderbookHistory: Outcome,
                     opportunities: Outcome, opportunityHistory: Outcome, portfolio: Outcome,
                     executionSummary: Outcome, executionHistory: Outcome, stats: Outcome, dataAll: Outcome)
    returns (failures: nat)
    ensures failures == FailureCount(Verdicts(Openapi(health, orderbooks, orderbookSingle, orderbookHistory,
              opportunities, opportunityHistory, portfolio, executionSummary, executionHistory, stats, dataAll)))
    ensures failures <= 11
  {
    failures := 0;
    ghost var done: seq<Verdict> := [];

    var v := HealthCheck(health);
    failures := Tally(failures, done, v); done := [v];

    v := ListCheck(orderbooks, OrderbookKeys);
    failures := Tally(failures, done, v); done := done + [v];

    v := ObjectCheck(orderbookSingle, OrderbookKeys);
    failures := Tally(failures, done, v); done := done + [v];

    v := ListCheck(orderbookHistory, OrderbookKeys);
    failures := Tally(failures, done, v); done := done + [v];

    v := ListCheck(opportunities, OpportunityKeys);
    failures := Tally(failures, done, v); done := done + [v];

    v := ListCheck(opportunityHistory, OpportunityKeys);
    failures := Tally(failures, done, v); done := done + [v];

    v := ObjectCheck(portfolio, PortfolioKeys);
    failures := Tally(failures, done, v); done := done + [v];

    v := ObjectCheck(executionSummary, ExecutionSummaryKeys);
    failures := Tally(failures, done, v); done := done + [v];

    v := ListCheck(executionHistory, ExecutionHistoryKeys);
    failures := Tally(failures, done, v); done := done + [v];

    v := ObjectCheck(stats, StatsKeys);
    failures := Tally(failures, done, v); done := done + [v];

    v := ObjectCheck(dataAll, DataAllKeys);
    failures := Tally(failures, done, v); done := done + [v];

    assert done == Verdicts(Openapi(health, orderbooks, orderbookSingle, orderbookHistory,
      opportunities, opportunityHistory, portfolio, executionSummary, executionHistory, stats, dataAll));
    FailureCountBounds(done);
  }

  /** `main` after argument parsing: the base URL loses its trailing
      slashes, the profile's checks run, and the exit code is 1 exactly
      when some check failed. */
  method RunChecks(baseUrl: string, rs: Responses) returns (checkedUrl: string, exitCode: int)
    ensures checkedUrl == NormalizeBaseUrl(baseUrl) && !EndsWithSlash(checkedUrl)
    ensures exitCode == 1 <==> FailureCount(Verdicts(rs)) > 0
    ensures exitCode == 0 <==> forall i :: 0 <= i < |Verdicts(rs)| ==> Passed(Verdicts(rs)[i])
    ensures exitCode == 0 || exitCode == 1
  {
    checkedUrl := NormalizeBaseUrl(baseUrl);
    var failures;
    if rs.Arbgui? {
      failures := TestArbgui(rs.orderbook, rs.opportunities, rs.portfolio);
    } else {
      failures := TestOpenapi(rs.health, rs.orderbooks, rs.orderbookSingle, rs.orderbookHistory,
        rs.opportunities, rs.opportunityHistory, rs.portfolio, rs.executionSummary, rs.executionHistory,
        rs.stats, rs.dataAll);
    }
    FailureCountBounds(Verdicts(rs));
    if failures > 0 {
      return checkedUrl, 1;
    }
    return checkedUrl, 0;
  }

  // ---------------------------------------------------------------------
  // Scenarios
  // ---------------------------------------------------------------------

  /** An order book that has every legacy key but `mid_price` fails its key
      check with exactly `mid_price` reported. */
  lemma MissingMidPriceReported(book: Fields)
    requires !HasKey(book, "mid_price")
    requires forall k :: k in ArbguiOrderbookKeys && k != "mid_price" ==> HasKey(book, k)
    ensures ObjectCheck(Outcome(200, JObj(book)), ArbguiOrderbookKeys) == KeysChecked(["mid_price"])
  {
    assert ArbguiOrderbookKeys[7] == "mid_price";
    EnsureKeysSingleMissing(book, ArbguiOrderbookKeys, 7);
  }

  /** A list endpoint whose first element is not an object reports every
      required key missing. */
  lemma NonObjectFirstMissesAll(status: int, first: Json, rest: seq<Json>, required: seq<string>)
    requires status == 200 && !first.JObj? && required != []
    ensures ListCheck(Outcome(status, JArr([first] + rest)), required) == KeysChecked(required)
    ensures !Passed(ListCheck(Outcome(status, JArr([first] + rest)), required))
  {
  }
}
