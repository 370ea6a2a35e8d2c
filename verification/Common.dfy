/** Time is counted in whole microseconds, the resolution of the program's own datetimes. */
module Clock {
  const SECOND: int := 1_000_000
  const MINUTE: int := 60 * SECOND
  const HOUR: int := 60 * MINUTE
  const DAY: int := 24 * HOUR
}

module Wrappers {
  datatype Option<+T> = None | Some(value: T)
}

/** Redis strings written with an expiry: a key is visible strictly before its expiry instant. */
module Redis {
  datatype Entry<+V> = Entry(value: V, expiry: int)

  predicate Live<K, V>(keys: map<K, Entry<V>>, k: K, now: int) {
    k in keys && now < keys[k].expiry
  }

  /** One `SET k v EX ttl` for each key of `ks`, all issued at `now`. */
  function SetAll<K, V>(keys: map<K, Entry<V>>, ks: set<K>, v: V, now: int, ttl: int): map<K, Entry<V>> {
    map k | k in keys.Keys + ks :: if k in ks then Entry(v, now + ttl) else keys[k]
  }

  /** Writing one more key extends the batch. */
  lemma SetOneMore<K, V>(keys: map<K, Entry<V>>, done: set<K>, k: K, v: V, now: int, ttl: int)
    ensures SetAll(keys, done, v, now, ttl)[k := Entry(v, now + ttl)] == SetAll(keys, done + {k}, v, now, ttl)
  {
  }

  lemma SetNone<K, V>(keys: map<K, Entry<V>>, v: V, now: int, ttl: int)
    ensures SetAll(keys, {}, v, now, ttl) == keys
  {
  }
}
