/** Highlighting of a selected opportunity in the order-book view: which
    leg an exchange plays, and which price level of its book lies nearest
    to that leg's price. */
module Highlight {
  import opened Wrappers
  import opened Json
  import opened Opportunities

  datatype Role = Buy | Sell

  /** `{"role": ..., "price": ...}`; the price is whatever the selected row
      holds, None included. */
  datatype Highlight = Highlight(role: Role, price: Json)

  /** The role of exchange `ex` for the selected row (None when nothing is
      selected): the buy leg when it is the buy exchange, else the sell leg
      when it is the sell exchange, else nothing. */
  function HighlightFor(ex: string, selected: Option<OpportunityRow>): (h: Option<Highlight>)
    ensures selected.None? ==> h.None?
    ensures selected.Some? ==>
              var row := selected.value;
              && (h == Some(Highlight(Buy, row.buyPrice)) <==> row.buyExchangeLabel == JStr(ex))
              && (h == Some(Highlight(Sell, row.sellPrice)) <==>
                    row.buyExchangeLabel != JStr(ex) && row.sellExchangeLabel == JStr(ex))
              && (h.None? <==> row.buyExchangeLabel != JStr(ex) && row.sellExchangeLabel != JStr(ex))
  {
    if selected.None? then None
    else if selected.value.buyExchangeLabel == JStr(ex) then Some(Highlight(Buy, selected.value.buyPrice))
    else if selected.value.sellExchangeLabel == JStr(ex) then Some(Highlight(Sell, selected.value.sellPrice))
    else None
  }

  /** Across the exchange columns of one symbol, the buy leg is
      highlighted on at most one exchange and so is the sell leg. */
  lemma OneColumnPerLeg(ex1: string, ex2: string, selected: OpportunityRow, role: Role)
    requires ex1 != ex2
    ensures !(HighlightFor(ex1, Some(selected)).Some? && HighlightFor(ex1, Some(selected)).value.role == role &&
              HighlightFor(ex2, Some(selected)).Some? && HighlightFor(ex2, Some(selected)).value.role == role)
  {
  }

  // ---------------------------------------------------------------------
  // Nearest level
  // ---------------------------------------------------------------------

  function Abs(x: real): real
  {
    if x < 0.0 then -x else x
  }

  /** The price of a level, 0 when it has none; a level whose price is not a
      number counts as 0 here too, though measuring it raises. */
  function LevelPrice(level: Json): real
  {
    if level.JObj? && Numeric(GetOr(level.fields, "price", JNum(0.0)))
    then Num(GetOr(level.fields, "price", JNum(0.0)))
    else 0.0
  }

  /** `abs(level.get("price", 0) - target)`: a level that is not a dict has no
      `.get`; a price or target that is not a number cannot be subtracted. */
  function LevelDistance(level: Json, target: Json): (r: Result<real>)
    ensures !level.JObj? ==> r == Err(AttributeError)
    ensures level.JObj? ==>
              (r.Ok? <==> Numeric(GetOr(level.fields, "price", JNum(0.0))) && Numeric(target))
    ensures r.Err? && level.JObj? ==> r.error == TypeError
    ensures r.Ok? ==> r.value >= 0.0
    ensures r.Ok? ==> r.value == Abs(LevelPrice(level) - Num(target))
    ensures level.JObj? && !HasKey(level.fields, "price") && Numeric(target) ==> r == Ok(Abs(Num(target)))
  {
    if !level.JObj? then Err(AttributeError)
    else
      var price := GetOr(level.fields, "price", JNum(0.0));
      GetOrFound(level.fields, "price", JNum(0.0));
      if Numeric(price) && Numeric(target) then Ok(Abs(Num(price) - Num(target)))
      else Err(TypeError)
  }

  /** `k` is the first index of a minimum of `ds`. */
  predicate IsFirstMinimum(ds: seq<real>, k: int)
  {
    && 0 <= k < |ds|
    && (forall j :: 0 <= j < |ds| ==> ds[k] <= ds[j])
    && (forall j :: 0 <= j < k ==> ds[j] > ds[k])
  }

  /** Python's `min(range(len(ds)), key=...)`: a left-to-right scan that
      replaces its candidate only on a strictly smaller key, so a tie keeps
      the lowest index. */
  function FirstMinimum(ds: seq<real>): (k: nat)
    requires |ds| > 0
    ensures IsFirstMinimum(ds, k)
  {
    if |ds| == 1 then 0
    else
      var k := FirstMinimum(ds[..|ds| - 1]);
      if ds[|ds| - 1] < ds[k] then |ds| - 1 else k
  }

  /** There is only one first minimum. */
  lemma FirstMinimumUnique(ds: seq<real>, k: int)
    requires IsFirstMinimum(ds, k)
    ensures k == FirstMinimum(ds)
  {
  }

  /** The index of the level nearest to `target` (lines of the ask or the bid
      side); the first exception raised while measuring the levels escapes. */
  function NearestLevel(levels: seq<Json>, target: Json): (r: Result<nat>)
    requires |levels| > 0
    ensures r.Ok? <==> forall j :: 0 <= j < |levels| ==> LevelDistance(levels[j], target).Ok?
    ensures r.Ok? ==> (r.value < |levels| &&
      IsFirstMinimum(seq(|levels|, j requires 0 <= j < |levels| => LevelDistance(levels[j], target).value), r.value))
    ensures r.Ok? ==>
              && Numeric(target)
              && (forall j :: 0 <= j < |levels| ==>
                    Abs(LevelPrice(levels[r.value]) - Num(target)) <= Abs(LevelPrice(levels[j]) - Num(target)))
              && (forall j :: 0 <= j < r.value ==>
                    Abs(LevelPrice(levels[j]) - Num(target)) > Abs(LevelPrice(levels[r.value]) - Num(target)))
  {
    var d := Collect(Results(levels, (level: Json) => LevelDistance(level, target)));
    if d.Err? then Err(d.error)
    else
      assert d.value == seq(|levels|, j requires 0 <= j < |levels| => LevelDistance(levels[j], target).value);
      Ok(FirstMinimum(d.value))
  }

  function Reverse<T>(s: seq<T>): (r: seq<T>)
    ensures |r| == |s| && forall i :: 0 <= i < |s| ==> r[i] == s[|s| - 1 - i]
  {
    if s == [] then [] else Reverse(s[1..]) + [s[0]]
  }

  /** Which row of each side of the book is highlighted. */
  datatype Hits = Hits(ask: Option<nat>, bid: Option<nat>)

  /** The hit indices of `render_orderbook_table`: with a highlight price
      that is not None, the buy leg searches the asks as displayed
      (highest first, the book's order reversed) and the sell leg searches
      the bids. */
  function HitIndices(asks: seq<Json>, bids: seq<Json>, h: Option<Highlight>): (r: Result<Hits>)
    ensures (|| h.None? || h.value.price.JNull?
             || (h.value.role == Buy && asks == [])
             || (h.value.role == Sell && bids == [])) ==> r == Ok(Hits(None, None))
    ensures r.Ok? ==> !(r.value.ask.Some? && r.value.bid.Some?)
    ensures r.Ok? && r.value.ask.Some? ==>
              h.Some? && h.value.role == Buy && !h.value.price.JNull? && r.value.ask.value < |asks|
    ensures r.Ok? && r.value.bid.Some? ==>
              h.Some? && h.value.role == Sell && !h.value.price.JNull? && r.value.bid.value < |bids|
    ensures h.Some? && !h.value.price.JNull? && h.value.role == Buy && asks != [] ==>
              r == (match NearestLevel(Reverse(asks), h.value.price)
                    case Ok(k) => Ok(Hits(Some(k), None))
                    case Err(e) => Err(e))
    ensures h.Some? && !h.value.price.JNull? && h.value.role == Sell && bids != [] ==>
              r == (match NearestLevel(bids, h.value.price)
                    case Ok(k) => Ok(Hits(None, Some(k)))
                    case Err(e) => Err(e))
  {
    var displayedAsks := Reverse(asks);
    if h.None? || h.value.price.JNull? then Ok(Hits(None, None))
    else if h.value.role == Buy && displayedAsks != [] then
      match NearestLevel(displayedAsks, h.value.price)
      case Ok(k) => Ok(Hits(Some(k), None))
      case Err(e) => Err(e)
    else if h.value.role == Sell && bids != [] then
      match NearestLevel(bids, h.value.price)
      case Ok(k) => Ok(Hits(None, Some(k)))
      case Err(e) => Err(e)
    else Ok(Hits(None, None))
  }

  function Level(price: real): Json
  {
    JObj([("price", JNum(price))])
  }

  /** Target 106 among levels 100, 105, 110 is level 1; target 105 between
      100 and 110 is a tie, and goes to level 0. */
  lemma NearestLevelExamples()
    ensures NearestLevel([Level(100.0), Level(105.0), Level(110.0)], JNum(106.0)) == Ok(1)
    ensures NearestLevel([Level(100.0), Level(110.0)], JNum(105.0)) == Ok(0)
  {
    var ds := seq(3, j requires 0 <= j < 3 => LevelDistance([Level(100.0), Level(105.0), Level(110.0)][j], JNum(106.0)).value);
    assert ds == [6.0, 1.0, 4.0];
    FirstMinimumUnique(ds, 1);
    var es := seq(2, j requires 0 <= j < 2 => LevelDistance([Level(100.0), Level(110.0)][j], JNum(105.0)).value);
    assert es == [5.0, 5.0];
    FirstMinimumUnique(es, 0);
  }
}
