/** The refresh-tick cache of the dashboard session: a key -> value map
    and a key -> generation map, kept in step. A key is recomputed only when
    the generation stored for it differs from the current refresh tick. */
module RefreshCache {

  class Cache<V> {
    var values: map<string, V>
    var generations: map<string, int>

    /** A value is stored exactly for the keys that carry a generation. */
    ghost predicate Valid()
      reads this
    {
      values.Keys == generations.Keys
    }

    /** A new session starts with both maps empty. */
    constructor ()
      ensures Valid() && values == map[] && generations == map[]
    {
      values := map[];
      generations := map[];
    }

    /** `cache_ver.get(key) != refresh_tick`: a key never stored is stale,
        and a key that is current has a stored value. */
    predicate IsStale(key: string, tick: int)
      reads this
      ensures key !in generations ==> IsStale(key, tick)
      ensures Valid() && !IsStale(key, tick) ==> key in values && generations[key] == tick
    {
      key !in generations || generations[key] != tick
    }

    /** `cache[key] = value; cache_ver[key] = tick`. */
    method Store(key: string, tick: int, value: V)
      requires Valid()
      modifies this
      ensures Valid()
      ensures values == old(values)[key := value] && generations == old(generations)[key := tick]
      ensures !IsStale(key, tick)
    {
      values := values[key := value];
      generations := generations[key := tick];
    }

    /** `cache[key]` for a key whose generation is current. */
    function Lookup(key: string, tick: int): V
      reads this
      requires Valid() && !IsStale(key, tick)
    {
      values[key]
    }

    /** Recompute `key` with `compute` when it is stale, and answer the
        stored value. `compute` stands for the fetch, which runs at most
        once per call and only on a stale key; no other key is touched. */
    method GetOrCompute(key: string, tick: int, compute: () -> V) returns (v: V, recomputed: bool)
      requires Valid()
      modifies this
      ensures Valid()
      ensures recomputed == old(IsStale(key, tick))
      ensures recomputed ==> (v == compute() &&
                values == old(values)[key := v] && generations == old(generations)[key := tick])
      ensures !recomputed ==> v == old(values)[key] && values == old(values) && generations == old(generations)
      ensures !IsStale(key, tick) && v == values[key]
    {
      recomputed := IsStale(key, tick);
      if recomputed {
        Store(key, tick, compute());
      }
      v := Lookup(key, tick);
    }
  }

  /** Two reads of one key within one tick compute it once: the second read
      answers what the first stored. */
  method ComputeOncePerTick<V>(cache: Cache<V>, key: string, tick: int, first: () -> V, second: () -> V)
    returns (v1: V, v2: V, recomputedAgain: bool)
    requires cache.Valid()
    modifies cache
    ensures !recomputedAgain && v2 == v1
  {
    var r1;
    v1, r1 := cache.GetOrCompute(key, tick, first);
    v2, recomputedAgain := cache.GetOrCompute(key, tick, second);
  }

  /** A read under a new tick recomputes, and leaves every other key alone. */
  method NewTickRecomputes<V>(cache: Cache<V>, key: string, other: string, tick: int, compute: () -> V)
    returns (recomputed: bool)
    requires cache.Valid() && key in cache.generations && cache.generations[key] == tick - 1
    requires other != key
    modifies cache
    ensures recomputed
    ensures other in old(cache.values) ==> other in cache.values && cache.values[other] == old(cache.values)[other]
    ensures cache.IsStale(other, tick) == old(cache.IsStale(other, tick))
  {
    var v;
    v, recomputed := cache.GetOrCompute(key, tick, compute);
  }
}
