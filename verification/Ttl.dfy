/** The TTL cache the sidecar deduplicates with: its contract as operations on a map, the log of
    uses that contract is explained by, and the cache object that keeps both in step. */
module Ttl {
  import opened Base

  /** A cached item. It is live up to and including its expiry instant. */
  datatype Entry<+V> = Entry(value: V, expiry: int)

  type Store<K, +V> = map<K, Entry<V>>

  /** One operation that (re)started the life of `key` at clock reading `at`, leaving it with `value`. */
  datatype Use<+K, +V> = Use(key: K, value: V, at: int)

  predicate Live<K, V>(m: Store<K, V>, k: K, now: int) {
    k in m && now <= m[k].expiry
  }

  /** Set: overwrite, with a full lifetime from now. */
  function Put<K, V>(m: Store<K, V>, k: K, v: V, ttl: int, now: int): Store<K, V> {
    m[k := Entry(v, now + ttl)]
  }

  /** The value GetOrSet leaves under `k`. */
  function Settled<K, V>(m: Store<K, V>, k: K, v: V, now: int): V {
    if Live(m, k, now) then m[k].value else v
  }

  /** GetOrSet with touch on hit: a live entry keeps its value and gets a full new lifetime. */
  function GetOrSet<K, V>(m: Store<K, V>, k: K, v: V, ttl: int, now: int): Store<K, V> {
    Put(m, k, Settled(m, k, v, now), ttl, now)
  }

  /** The background loop's removal of one entry; it only ever removes an expired one. */
  function Evict<K, V>(m: Store<K, V>, k: K, now: int): Store<K, V> {
    if Live(m, k, now) then m else m - {k}
  }

  /** The most recent use of `k`. */
  function LastUse<K(==), V>(log: seq<Use<K, V>>, k: K): Option<Use<K, V>> {
    if log == [] then None
    else if log[|log| - 1].key == k then Some(log[|log| - 1])
    else LastUse(log[..|log| - 1], k)
  }

  /** Some use of `k` lies at most `ttl` before `now`. */
  ghost predicate Seen<K, V>(log: seq<Use<K, V>>, k: K, ttl: int, now: int) {
    exists i :: 0 <= i < |log| && log[i].key == k && now - log[i].at <= ttl
  }

  /** Uses are logged in clock order, none later than `now`. */
  ghost predicate Chronological<K, V>(log: seq<Use<K, V>>, now: int) {
    && (forall i, j :: 0 <= i < j < |log| ==> log[i].at <= log[j].at)
    && (forall i :: 0 <= i < |log| ==> log[i].at <= now)
  }

  /** The store holds, for each key, exactly what the last use of it left, except that keys whose
      last use is further back than their TTL may have been removed already. */
  ghost predicate Tracks<K(!new), V>(m: Store<K, V>, log: seq<Use<K, V>>, ttl: K -> int, now: int) {
    && Chronological(log, now)
    && (forall k :: k in m ==>
          LastUse(log, k).Some? && m[k] == Entry(LastUse(log, k).value.value, LastUse(log, k).value.at + ttl(k)))
    && (forall k :: k !in m && LastUse(log, k).Some? ==> LastUse(log, k).value.at + ttl(k) < now)
  }

  /** The lifetime of a cache with one TTL for all keys. */
  function Fixed<K>(ttl: int): K -> int { (k: K) => ttl }

  lemma {:induction false} LastUseIsLast<K, V>(log: seq<Use<K, V>>, k: K)
    ensures LastUse(log, k).None? <==> forall i :: 0 <= i < |log| ==> log[i].key != k
    ensures LastUse(log, k).Some? ==>
      exists i :: 0 <= i < |log| && log[i] == LastUse(log, k).value && log[i].key == k
                  && forall j :: i < j < |log| ==> log[j].key != k
  {
    if log != [] && log[|log| - 1].key != k {
      var rest := log[..|log| - 1];
      LastUseIsLast(rest, k);
      if LastUse(rest, k).Some? {
        var i :| 0 <= i < |rest| && rest[i] == LastUse(rest, k).value && rest[i].key == k
                 && forall j :: i < j < |rest| ==> rest[j].key != k;
        assert log[i] == rest[i];
      } else {
        forall i | 0 <= i < |log| ensures log[i].key != k {
          if i < |rest| { assert rest[i] == log[i]; }
        }
      }
    }
  }

  /** A key is live exactly when the log shows a use of it within its TTL. */
  lemma LiveIffSeen<K(!new), V>(m: Store<K, V>, log: seq<Use<K, V>>, ttl: K -> int, now: int, k: K)
    requires Tracks(m, log, ttl, now)
    ensures Live(m, k, now) <==> Seen(log, k, ttl(k), now)
  {
    LastUseIsLast(log, k);
    if Seen(log, k, ttl(k), now) {
      var i :| 0 <= i < |log| && log[i].key == k && now - log[i].at <= ttl(k);
      var j :| 0 <= j < |log| && log[j] == LastUse(log, k).value && log[j].key == k
               && forall h :: j < h < |log| ==> log[h].key != k;
      assert i <= j;
      assert log[i].at <= log[j].at;
    }
  }

  /** One more logged use is what Set and GetOrSet do to the store. */
  lemma PutTracks<K(!new), V>(m: Store<K, V>, log: seq<Use<K, V>>, ttl: K -> int, now: int, k: K, v: V)
    requires Tracks(m, log, ttl, now)
    ensures Tracks(Put(m, k, v, ttl(k), now), log + [Use(k, v, now)], ttl, now)
  {
  }

  lemma TimePasses<K(!new), V>(m: Store<K, V>, log: seq<Use<K, V>>, ttl: K -> int, now: int, later: int)
    requires Tracks(m, log, ttl, now) && now <= later
    ensures Tracks(m, log, ttl, later)
  {
  }

  /** The passing of time, and the removal of an expired entry, leave the log's account true. */
  lemma EvictTracks<K(!new), V>(m: Store<K, V>, log: seq<Use<K, V>>, ttl: K -> int, now: int, later: int, k: K)
    requires Tracks(m, log, ttl, now) && now <= later
    ensures Tracks(m, log, ttl, later)
    ensures Tracks(Evict(m, k, later), log, ttl, later)
  {
  }

  /** A TTL cache object. `log` is the history of uses its contents are a function of, and `clock`
      the latest reading it has been used with. `tag` tells an owner's caches apart. */
  class TtlCache<V(==)> {
    const ttl: int
    ghost const tag: nat
    var items: Store<string, V>
    ghost var log: seq<Use<string, V>>
    ghost var clock: int

    ghost predicate Valid()
      reads this
    {
      Tracks(items, log, Fixed(ttl), clock)
    }

    constructor (ttl: int, ghost clock: int, ghost tag: nat)
      ensures Valid() && this.ttl == ttl && this.clock == clock && log == [] && this.tag == tag
    {
      this.ttl, this.tag := ttl, tag;
      this.clock := clock;
      items := map[];
      log := [];
    }

    /** Test and record: `retrieved` reports whether the log shows a use of `key` within the TTL,
        and either way this is a new use of it. */
    method GetOrSet(key: string, value: V, now: int) returns (retrieved: bool, item: V)
      requires Valid() && clock <= now
      modifies this
      ensures Valid() && clock == now
      ensures retrieved <==> Seen(old(log), key, ttl, now)
      ensures retrieved ==> LastUse(old(log), key).Some? && item == LastUse(old(log), key).value.value
      ensures !retrieved ==> item == value
      ensures log == old(log) + [Use(key, item, now)]
    {
      ghost var lifetime: string -> int := Fixed(ttl);
      TimePasses(items, log, lifetime, clock, now);
      LiveIffSeen(items, log, lifetime, now, key);
      if key in items && now <= items[key].expiry {
        retrieved, item := true, items[key].value;
      } else {
        retrieved, item := false, value;
      }
      PutTracks(items, log, lifetime, now, key, item);
      items := items[key := Entry(item, now + ttl)];
      log := log + [Use(key, item, now)];
      clock := now;
    }

    method Set(key: string, value: V, now: int)
      requires Valid() && clock <= now
      modifies this
      ensures Valid() && clock == now
      ensures log == old(log) + [Use(key, value, now)]
    {
      ghost var lifetime: string -> int := Fixed(ttl);
      TimePasses(items, log, lifetime, clock, now);
      PutTracks(items, log, lifetime, now, key, value);
      items := items[key := Entry(value, now + ttl)];
      log := log + [Use(key, value, now)];
      clock := now;
    }

    /** Get with touch on hit disabled: reads never extend a life. */
    method Get(key: string, now: int) returns (item: Option<V>)
      requires Valid() && clock <= now
      modifies `clock
      ensures Valid() && clock == now
      ensures item.Some? <==> Seen(log, key, ttl, now)
      ensures item.Some? ==> LastUse(log, key).Some? && item.value == LastUse(log, key).value.value
    {
      ghost var lifetime: string -> int := Fixed(ttl);
      TimePasses(items, log, lifetime, clock, now);
      LiveIffSeen(items, log, lifetime, now, key);
      clock := now;
      if key in items && now <= items[key].expiry {
        return Some(items[key].value);
      }
      return None;
    }

    /** One removal by the background loop. It is invisible: the log, which decides every later
        answer, is unchanged. */
    method EvictExpired(key: string, now: int)
      requires Valid() && clock <= now
      modifies `items, `clock
      ensures Valid() && clock == now
      ensures items == Evict(old(items), key, now)
    {
      EvictTracks(items, log, Fixed(ttl), clock, now, key);
      if key in items && items[key].expiry < now {
        items := items - {key};
      }
      clock := now;
    }
  }
}
