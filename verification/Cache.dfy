// A cache of the newest entries of a log (blockchain/store.rs).

module Caches {
  const MAX_CACHE_SIZE := 100

  lemma {:induction false} CountBetween(keys: set<nat>, lo: nat, hi: nat)
    requires lo <= hi && forall h | h in keys :: lo <= h < hi
    ensures |keys| <= hi - lo
    decreases hi - lo
  {
    if keys != {} {
      var h :| h in keys;
      var last: nat := hi - 1;
      CountBetween(keys - {last}, lo, last);
    }
  }

  /** A map has no more entries than there are keys it may have. */
  lemma CountKeys<T>(m: map<nat, T>, lo: nat, hi: nat)
    requires lo <= hi && forall h | h in m :: lo <= h < hi
    ensures |m| <= hi - lo
  {
    CountBetween(m.Keys, lo, hi);
    assert |m.Keys| == |m|;
  }

  lemma RemoveKey<T>(m: map<nat, T>, key: nat)
    requires key in m
    ensures |m - {key}| == |m| - 1
  {
    assert m == (m - {key})[key := m[key]];
  }

  /** What is cached is in the log. */
  ghost predicate Cached<T(!new)>(m: map<nat, T>, log: seq<T>) {
    forall h: nat | h in m :: h < |log| && m[h] == log[h]
  }

  /** The newest hundred entries of the log are cached, as far back as `first`, and never more than
      101 entries are. */
  ghost predicate CacheOf<T(!new)>(m: map<nat, T>, log: seq<T>, first: nat) {
    && first <= 1
    && Cached(m, log)
    && (forall h: nat | h in m :: first <= h)
    && (forall h: nat | first <= h < |log| && |log| - MAX_CACHE_SIZE <= h :: h in m)
    && |m| <= MAX_CACHE_SIZE + 1
  }

  lemma CacheIsCached<T(!new)>(m: map<nat, T>, log: seq<T>, first: nat)
    requires CacheOf(m, log, first)
    ensures Cached(m, log)
  {
  }

  /** The cache with one more entry, less the one a hundred below when it is over its size. */
  function CacheAfter<T>(m: map<nat, T>, h: nat, x: T): map<nat, T> {
    var more := m[h := x];
    if |more| <= MAX_CACHE_SIZE || h < MAX_CACHE_SIZE then more else more - {h - MAX_CACHE_SIZE}
  }

  lemma CachedNext<T(!new)>(m: map<nat, T>, log: seq<T>, x: T)
    requires Cached(m, log)
    ensures Cached(m[|log| := x], log + [x])
    ensures Cached(CacheAfter(m, |log|, x), log + [x])
  {
  }

  /** When the cache is over its size the entry to drop is there, and what remains is the cache of
      the longer log. */
  lemma CacheNext<T(!new)>(m: map<nat, T>, log: seq<T>, first: nat, x: T)
    requires log != [] && CacheOf(m, log, first)
    ensures |m[|log| := x]| > MAX_CACHE_SIZE ==> |log| >= MAX_CACHE_SIZE && |log| - MAX_CACHE_SIZE in m
    ensures CacheOf(CacheAfter(m, |log|, x), log + [x], first)
    ensures |log| in CacheAfter(m, |log|, x)
  {
    var more := m[|log| := x];
    CountKeys(more, first, |log| + 1);
    if |more| > MAX_CACHE_SIZE {
      RemoveKey(more, |log| - MAX_CACHE_SIZE);
    }
    CachedNext(m, log, x);
  }

  /** Exactly the keys from `lo` below `hi` are cached. */
  ghost predicate Range<T(!new)>(m: map<nat, T>, lo: nat, hi: nat) {
    forall h: nat :: h in m <==> lo <= h < hi
  }

  lemma RangeEmpty<T(!new)>(lo: nat)
    ensures Range<T>(map[], lo, lo)
  {
  }

  lemma RangeNext<T(!new)>(m: map<nat, T>, lo: nat, hi: nat, x: T)
    requires Range(m, lo, hi) && lo <= hi
    ensures Range(m[hi := x], lo, hi + 1)
  {
  }

  /** The newest entries, loaded at once, are a cache. */
  lemma CacheLoaded<T(!new)>(m: map<nat, T>, log: seq<T>, min: nat)
    requires log != [] && min == (if |log| > MAX_CACHE_SIZE then |log| - 1 - MAX_CACHE_SIZE else 0)
    requires Range(m, min, |log|)
    requires forall h: nat | min <= h < |log| :: m[h] == log[h]
    ensures CacheOf(m, log, 0)
  {
    CountKeys(m, min, |log|);
  }
}
