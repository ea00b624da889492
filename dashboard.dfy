/** The per-render logic of the order-book tab: the refresh tick, the
    per-symbol opportunity cache (top five rows of that symbol), and the
    per-(exchange, symbol) order-book cache. */
module Dashboard {
  import opened Wrappers
  import opened Json
  import opened Fetch
  import opened Opportunities
  import opened RefreshCache

  /** The generation of this render: the auto-refresh counter when
      auto-refresh is on, and 0 when it is off, so that with auto-refresh
      off an entry, once stored, stays current across renders
      (`AutoRefreshOffFetchesOnce`). */
  function RefreshTick(autoRefresh: bool, counter: int): (tick: int)
    ensures !autoRefresh ==> tick == 0
    ensures autoRefresh ==> tick == counter
  {
    if autoRefresh then counter else 0
  }

  // ---------------------------------------------------------------------
  // Opportunity cache
  // ---------------------------------------------------------------------

  /** `opp.get("symbol") == sym`. */
  predicate HasSymbol(opp: Json, sym: string)
  {
    opp.JObj? && Get(opp.fields, "symbol") == JStr(sym)
  }

  /** The records of `opps` whose symbol is `sym`, in input order. */
  function Matching(opps: seq<Json>, sym: string): (r: seq<Json>)
    ensures |r| <= |opps|
    ensures forall x :: x in r <==> x in opps && HasSymbol(x, sym)
  {
    if opps == [] then []
    else (if HasSymbol(opps[0], sym) then [opps[0]] else []) + Matching(opps[1..], sym)
  }

  /** The filter keeps the matching records of a concatenation part by part,
      so it keeps their order and their repetitions. */
  lemma {:induction false} MatchingAppend(a: seq<Json>, b: seq<Json>, sym: string)
    ensures Matching(a + b, sym) == Matching(a, sym) + Matching(b, sym)
  {
    if a == [] {
      assert a + b == b;
    } else {
      assert (a + b)[0] == a[0] && (a + b)[1..] == a[1..] + b;
      MatchingAppend(a[1..], b, sym);
    }
  }

  /** A single record is kept exactly when it has the symbol. */
  lemma MatchingSingle(x: Json, sym: string)
    ensures Matching([x], sym) == if HasSymbol(x, sym) then [x] else []
  {
    assert [x][1..] == [];
  }

  /** `[opp for opp in all_opps if opp.get("symbol") == sym]`; any record
      that is not a dict makes `.get` raise. */
  function FilterBySymbol(opps: seq<Json>, sym: string): (r: Result<seq<Json>>)
    ensures r.Ok? <==> forall i :: 0 <= i < |opps| ==> opps[i].JObj?
    ensures r.Err? ==> r.error == AttributeError
    ensures r.Ok? ==> r.value == Matching(opps, sym)
  {
    if forall i :: 0 <= i < |opps| ==> opps[i].JObj? then Ok(Matching(opps, sym)) else Err(AttributeError)
  }

  /** `build_opportunity_rows(filtered)[:5]` for the opportunities of the
      response: at most five rows, all of symbol `sym`, the first five of
      its matching records in order. */
  function TopOpportunities(sym: string, response: Outcome): (r: Result<seq<OpportunityRow>>)
    ensures r.Ok? <==>
              && (forall i :: 0 <= i < |FetchOpportunities(response)| ==> FetchOpportunities(response)[i].JObj?)
              && (var matching := Matching(FetchOpportunities(response), sym);
                  forall i :: 0 <= i < |matching| ==> DeriveRow(matching[i]).Ok?)
    ensures r.Ok? ==> |r.value| <= 5
    ensures r.Ok? ==> forall row :: row in r.value ==> row.symbol == JStr(sym)
    ensures r.Ok? ==>
      var matching := Matching(FetchOpportunities(response), sym);
      && |r.value| == (if |matching| < 5 then |matching| else 5)
      && forall i :: 0 <= i < |r.value| ==> r.value[i] == DeriveRow(matching[i]).value
  {
    match FilterBySymbol(FetchOpportunities(response), sym)
    case Err(e) => Err(e)
    case Ok(filtered) =>
      match OpportunityRows(filtered)
      case Err(e) =>
        assert filtered == Matching(FetchOpportunities(response), sym);
        Err(e)
      case Ok(rows) =>
        var top := if |rows| < 5 then rows else rows[..5];
        assert forall row :: row in top ==> row.symbol == JStr(sym) by {
          forall row | row in top ensures row.symbol == JStr(sym) {
            var i :| 0 <= i < |top| && top[i] == row;
            RowOfMatchingRecordHasSymbol(filtered[i], sym);
          }
        }
        Ok(top)
  }

  /** A row derived from a record of symbol `sym` shows `sym` in its 通貨 column. */
  lemma RowOfMatchingRecordHasSymbol(opp: Json, sym: string)
    requires HasSymbol(opp, sym) && DeriveRow(opp).Ok?
    ensures DeriveRow(opp).value.symbol == JStr(sym)
  {
    DeriveRowContents(opp);
    GetOrFound(opp.fields, "symbol", JNull);
    GetOrPresent(opp.fields, "symbol", JNull, JStr(""));
  }

  /** Every cached entry holds at most five rows, all of its own symbol. */
  ghost predicate OpportunityCacheInv(values: map<string, seq<OpportunityRow>>)
  {
    forall sym :: sym in values ==>
      |values[sym]| <= 5 && forall row :: row in values[sym] ==> row.symbol == JStr(sym)
  }

  /** Lines 515-523 of the order-book tab for symbol `sym`: refetch and
      rebuild the symbol's top rows when its entry is stale, and answer the
      cached rows. An exception while building leaves the cache as it was. */
  method OpportunityCacheStep(cache: Cache<seq<OpportunityRow>>, sym: string, tick: int, response: Outcome)
    returns (r: Result<seq<OpportunityRow>>, fetched: bool)
    requires cache.Valid() && OpportunityCacheInv(cache.values)
    modifies cache
    ensures cache.Valid() && OpportunityCacheInv(cache.values)
    ensures fetched == old(cache.IsStale(sym, tick))
    ensures fetched ==> r == TopOpportunities(sym, response)
    ensures fetched && r.Ok? ==>
              cache.values == old(cache.values)[sym := r.value] &&
              cache.generations == old(cache.generations)[sym := tick]
    ensures !fetched || r.Err? ==>
              cache.values == old(cache.values) && cache.generations == old(cache.generations)
    ensures !fetched ==> r == Ok(old(cache.values)[sym])
    ensures r.Ok? ==> !cache.IsStale(sym, tick) && r.value == cache.values[sym]
  {
    fetched := cache.IsStale(sym, tick);
    if fetched {
      var allOpps := FetchOpportunities(response);
      var filtered := FilterBySymbol(allOpps, sym);
      if filtered.Err? {
        return Err(filtered.error), fetched;
      }
      var rows := BuildOpportunityRows(filtered.value);
      if rows.Err? {
        return Err(rows.error), fetched;
      }
      var top := if |rows.value| < 5 then rows.value else rows.value[..5];
      assert Ok(top) == TopOpportunities(sym, response);
      cache.Store(sym, tick, top);
    }
    r := Ok(cache.Lookup(sym, tick));
  }

  // ---------------------------------------------------------------------
  // Order-book cache
  // ---------------------------------------------------------------------

  /** `f"{ex}:{sym}"`. */
  function OrderbookKey(ex: string, sym: string): string
  {
    ex + ":" + sym
  }

  /** For exchange names without a colon, distinct (exchange, symbol) pairs
      get distinct cache keys. */
  lemma OrderbookKeyInjective(ex1: string, sym1: string, ex2: string, sym2: string)
    requires ':' !in ex1 && ':' !in ex2
    requires OrderbookKey(ex1, sym1) == OrderbookKey(ex2, sym2)
    ensures ex1 == ex2 && sym1 == sym2
  {
    var k := OrderbookKey(ex1, sym1);
    ColonAfterExchange(ex1, sym1);
    ColonAfterExchange(ex2, sym2);
    assert |ex1| == |ex2|;
    assert ex1 == k[..|ex1|] == ex2;
    assert sym1 == k[|ex1| + 1..] == sym2;
  }

  /** In a key, the first colon is the one right after the exchange name. */
  lemma ColonAfterExchange(ex: string, sym: string)
    requires ':' !in ex
    ensures OrderbookKey(ex, sym)[|ex|] == ':'
    ensures forall i :: 0 <= i < |ex| ==> OrderbookKey(ex, sym)[i] != ':'
  {
  }

  /** Lines 543-549 for exchange `ex` and symbol `sym`: refetch the book when
      its entry is stale, and answer the cached book. A failed fetch (None) is
      cached like any other answer, so it is not refetched within the tick. */
  method OrderbookCacheStep(cache: Cache<Option<Fields>>, ex: string, sym: string, tick: int, response: Outcome)
    returns (ob: Option<Fields>, fetched: bool)
    requires cache.Valid()
    modifies cache
    ensures cache.Valid()
    ensures fetched == old(cache.IsStale(OrderbookKey(ex, sym), tick))
    ensures fetched ==> (ob == FetchOrderbook(response) &&
              cache.values == old(cache.values)[OrderbookKey(ex, sym) := ob] &&
              cache.generations == old(cache.generations)[OrderbookKey(ex, sym) := tick])
    ensures !fetched ==> (ob == old(cache.values)[OrderbookKey(ex, sym)] &&
              cache.values == old(cache.values) && cache.generations == old(cache.generations))
    ensures !cache.IsStale(OrderbookKey(ex, sym), tick) && ob == cache.values[OrderbookKey(ex, sym)]
  {
    var key := OrderbookKey(ex, sym);
    fetched := cache.IsStale(key, tick);
    if fetched {
      cache.Store(key, tick, FetchOrderbook(response));
    }
    ob := cache.Lookup(key, tick);
  }

  /** `if ob:` — a book is shown when it was fetched and is a non-empty dict,
      that is, when it is Python-truthy. */
  predicate Shown(ob: Option<Fields>)
    ensures Shown(ob) <==> ob.Some? && Truthy(JObj(ob.value))
  {
    ob.Some? && ob.value != []
  }

  /** A second visit to a book within one tick fetches nothing and answers
      what the first visit left; in particular a fetch that failed (None) is
      not retried for the rest of the tick. */
  method SecondVisitUsesCache(cache: Cache<Option<Fields>>, ex: string, sym: string, tick: int, r1: Outcome, r2: Outcome)
    returns (ob1: Option<Fields>, fetched: bool, ob2: Option<Fields>, fetchedAgain: bool)
    requires cache.Valid()
    modifies cache
    ensures !fetchedAgain && ob2 == ob1
    ensures fetched && r1.status != 200 ==> ob2 == None && !Shown(ob2)
  {
    ob1, fetched := OrderbookCacheStep(cache, ex, sym, tick, r1);
    ob2, fetchedAgain := OrderbookCacheStep(cache, ex, sym, tick, r2);
  }

  /** With auto-refresh off, two renders whatever their counters fetch a book
      at most once: the second render answers the cached book. */
  method AutoRefreshOffFetchesOnce(cache: Cache<Option<Fields>>, ex: string, sym: string,
                                   counter1: int, counter2: int, r1: Outcome, r2: Outcome)
    returns (ob1: Option<Fields>, ob2: Option<Fields>, fetchedAgain: bool)
    requires cache.Valid()
    modifies cache
    ensures !fetchedAgain && ob2 == ob1
  {
    var fetched;
    ob1, fetched := OrderbookCacheStep(cache, ex, sym, RefreshTick(false, counter1), r1);
    ob2, fetchedAgain := OrderbookCacheStep(cache, ex, sym, RefreshTick(false, counter2), r2);
  }
}
