/** The memoisation pattern shared by the three queries of
    `ConfigurationProvider`: look the key up when caching is on, return a hit
    unchanged, otherwise ask the back end and store a successful answer only
    when caching is on. */
module Memo {
  import opened CameraKeys
  import opened Backends

  /** What one memoised query answers, the cache it leaves behind, and
      whether it had to ask the back end. */
  datatype Lookup<V> = Lookup(answer: Result<V>, cache: map<Key, V>, queried: bool)

  /** One memoised query under `key`; `computed` is what the back end gives,
      and it is only used when `queried` holds. */
  function Memoized<V>(cache: map<Key, V>, useCache: bool, key: Key, computed: Result<V>): (m: Lookup<V>)
    // the back end is asked exactly when caching is off or the key is absent
    ensures m.queried <==> !useCache || key !in cache
    // a hit returns the stored value unchanged
    ensures !m.queried ==> key in cache && m.answer == Success(cache[key])
    // a miss returns what the back end gives, value or exception
    ensures m.queried ==> m.answer == computed
    // no stored entry is removed or replaced
    ensures forall k :: k in cache ==> k in m.cache && m.cache[k] == cache[k]
    // no key other than `key` is added
    ensures forall k :: k in m.cache && k != key ==> k in cache
    // with caching on, the answer of a successful query is stored under `key`
    ensures useCache && m.answer.Success? ==> key in m.cache && m.cache[key] == m.answer.value
    // with caching off, or on an exception, the cache is left as it was
    ensures !useCache || m.answer.Failure? ==> m.cache == cache
  {
    if useCache && key in cache then Lookup(Success(cache[key]), cache, false)
    else if useCache && computed.Success? then Lookup(computed, cache[key := computed.value], true)
    else Lookup(computed, cache, true)
  }

  /** A query leaves every other key's entry, present or absent, as it was. */
  lemma MemoizedKeepsOther<V>(cache: map<Key, V>, useCache: bool, key: Key, computed: Result<V>, k: Key)
    requires k != key
    ensures var m := Memoized(cache, useCache, key, computed);
      (k in m.cache <==> k in cache) && (k in cache ==> m.cache[k] == cache[k])
  {
  }
}
