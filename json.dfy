/** Option and Result, and the exceptions of the Python runtime that the
    dashboard code can raise on a malformed payload. */
module Wrappers {

  datatype Option<+T> = None | Some(value: T)

  /** The Python exceptions the modelled code lets escape. */
  datatype PyError =
    | AttributeError  // `.get` / `.items` called on something that is not a dict
    | TypeError       // arithmetic or ordering between values Python cannot combine

  datatype Result<+T> = Ok(value: T) | Err(error: PyError)

  /** The values of a run of results, or the first error among them: how a
      loop that appends one result per element behaves when an element
      raises. */
  function Collect<T>(rs: seq<Result<T>>): (r: Result<seq<T>>)
    ensures r.Ok? <==> forall i :: 0 <= i < |rs| ==> rs[i].Ok?
    ensures r.Ok? ==> |r.value| == |rs| && forall i :: 0 <= i < |rs| ==> r.value[i] == rs[i].value
    ensures r.Err? ==> exists i :: 0 <= i < |rs| && rs[i] == Err(r.error) && AllOk(rs[..i])
  {
    if rs == [] then Ok([])
    else
      var rest := Collect(rs[1..]);
      if rs[0].Err? then
        assert AllOk(rs[..0]);
        Err(rs[0].error)
      else if rest.Err? then
        var k :| 0 <= k < |rs| - 1 && rs[1..][k] == Err(rest.error) && AllOk(rs[1..][..k]);
        assert rs[..k + 1] == [rs[0]] + rs[1..][..k];
        Err(rest.error)
      else
        Ok([rs[0].value] + rest.value)
  }

  predicate AllOk<T>(rs: seq<Result<T>>)
  {
    forall i :: 0 <= i < |rs| ==> rs[i].Ok?
  }

  /** The error `Collect` reports is that of the first failing element. */
  lemma CollectFirstError<T>(rs: seq<Result<T>>, i: nat)
    requires i < |rs| && rs[i].Err? && AllOk(rs[..i])
    ensures Collect(rs) == Err(rs[i].error)
  {
    var r := Collect(rs);
    var k :| 0 <= k < |rs| && rs[k] == Err(r.error) && AllOk(rs[..k]);
    forall j | 0 <= j < i ensures rs[j].Ok? {
      assert rs[..i][j] == rs[j];
    }
    forall j | 0 <= j < k ensures rs[j].Ok? {
      assert rs[..k][j] == rs[j];
    }
  }

  /** The per-element results of `derive`, in input order. */
  function Results<X, T>(xs: seq<X>, derive: X -> Result<T>): (rs: seq<Result<T>>)
    ensures |rs| == |xs| && forall i :: 0 <= i < |xs| ==> rs[i] == derive(xs[i])
  {
    seq(|xs|, i requires 0 <= i < |xs| => derive(xs[i]))
  }
}

/** A parsed JSON document, as `json.loads` hands it to the dashboard. */
module Json {

  /** An object keeps its items in insertion order, as a Python dict does,
      and lookups take the first binding of a key (a parsed dict has one
      binding per key; the datatype itself does not forbid more). Python's
      int and float are both `JNum`. */
  datatype Json =
    | JNull
    | JBool(b: bool)
    | JNum(n: real)
    | JStr(s: string)
    | JArr(items: seq<Json>)
    | JObj(fields: seq<(string, Json)>)

  type Fields = seq<(string, Json)>

  /** Python truthiness: None, False, 0, "", [] and {} are falsy. A number
      or a bool is truthy exactly when its numeric value is non-zero. */
  predicate Truthy(j: Json)
    ensures j.JNull? ==> !Truthy(j)
    ensures Numeric(j) ==> (Truthy(j) <==> Num(j) != 0.0)
  {
    match j
    case JNull => false
    case JBool(b) => b
    case JNum(n) => n != 0.0
    case JStr(s) => s != ""
    case JArr(items) => items != []
    case JObj(fields) => fields != []
  }

  /** `isinstance(j, (int, float))`; a bool is an int in Python. */
  predicate Numeric(j: Json)
  {
    j.JNum? || j.JBool?
  }

  /** The numeric value of a number or a bool (True is 1, False is 0). */
  function Num(j: Json): real
    requires Numeric(j)
  {
    if j.JNum? then j.n else if j.b then 1.0 else 0.0
  }

  /** `k in obj` for a dict. */
  predicate HasKey(fields: Fields, k: string)
  {
    exists i :: 0 <= i < |fields| && fields[i].0 == k
  }

  /** `obj.get(k, default)`. */
  function GetOr(fields: Fields, k: string, default: Json): Json
  {
    if fields == [] then default
    else if fields[0].0 == k then fields[0].1
    else GetOr(fields[1..], k, default)
  }

  /** `get` answers the default for an absent key, and otherwise a value
      bound to the key (which may itself equal the default). */
  lemma {:induction false} GetOrFound(fields: Fields, k: string, default: Json)
    ensures !HasKey(fields, k) ==> GetOr(fields, k, default) == default
    ensures HasKey(fields, k) ==> (k, GetOr(fields, k, default)) in fields
  {
    if fields != [] && fields[0].0 != k {
      GetOrFound(fields[1..], k, default);
      assert forall i :: 0 <= i < |fields| - 1 ==> fields[1..][i] == fields[i + 1];
      if HasKey(fields, k) {
        var i :| 0 <= i < |fields| && fields[i].0 == k;
        assert fields[1..][i - 1].0 == k;
      }
    }
  }

  /** For a key that is present, the default passed to `get` does not matter. */
  lemma {:induction false} GetOrPresent(fields: Fields, k: string, d1: Json, d2: Json)
    requires HasKey(fields, k)
    ensures GetOr(fields, k, d1) == GetOr(fields, k, d2)
  {
    if fields[0].0 != k {
      var i :| 0 <= i < |fields| && fields[i].0 == k;
      assert fields[1..][i - 1].0 == k;
      GetOrPresent(fields[1..], k, d1, d2);
    }
  }

  /** `obj.get(k)`: None when the key is absent. */
  function Get(fields: Fields, k: string): Json
  {
    GetOr(fields, k, JNull)
  }
}
