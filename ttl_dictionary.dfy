/** The time-to-live cache `TtlDictionary<TKey, TValue>`: a map from keys to
    (value, expiry) pairs. An entry is live while the clock is strictly before
    its expiry; an expired entry is removed when it is probed. Each operation
    runs atomically (the cache's lock is not modelled); clock readings are
    explicit parameters in ticks. */
module Infrastructure {
  import opened Wrappers

  datatype Entry<V> = Entry(value: V, expiry: int)

  /** What a probe of `key` at time `now` reports. */
  function Lookup<K, V>(m: map<K, Entry<V>>, key: K, now: int): Option<V> {
    if key in m && now < m[key].expiry then Some(m[key].value) else None
  }

  /** The store after probing `key` at `now`: an expired entry of `key` is
      removed, nothing else changes. */
  function Evict<K, V>(m: map<K, Entry<V>>, key: K, now: int): map<K, Entry<V>> {
    if key in m && !(now < m[key].expiry) then m - {key} else m
  }

  /** One call on the cache. `at` is the clock reading taken by the expiry
      check; a `GetOrAdd` reads the clock a second time, `storedAt`, after its
      factory has run. `factory` is what the factory would produce if called. */
  datatype Call<K, V, E> =
    | GetOrAddCall(key: K, factory: Result<V, E>, ttl: int, at: int, storedAt: int)
    | TryGetValueCall(key: K, at: int)

  /** Whether the call runs its factory. */
  predicate Invokes<K, V, E>(m: map<K, Entry<V>>, c: Call<K, V, E>) {
    c.GetOrAddCall? && Lookup(m, c.key, c.at).None?
  }

  /** The store after one call. */
  function Apply<K, V, E>(m: map<K, Entry<V>>, c: Call<K, V, E>): map<K, Entry<V>> {
    match c
    case TryGetValueCall(key, at) => Evict(m, key, at)
    case GetOrAddCall(key, factory, ttl, at, storedAt) =>
      if Lookup(m, key, at).Some? then m
      else match factory
        case Ok(v) => Evict(m, key, at)[key := Entry(v, storedAt + ttl)]
        case Err(_) => Evict(m, key, at)
  }

  /** The store after a sequence of calls, in order. */
  function Replay<K, V, E>(m: map<K, Entry<V>>, calls: seq<Call<K, V, E>>): map<K, Entry<V>>
    decreases |calls|
  {
    if calls == [] then m else Replay(Apply(m, calls[0]), calls[1..])
  }

  /** How many calls of the sequence run their factory for `key`. */
  function FactoryInvocations<K, V, E>(m: map<K, Entry<V>>, calls: seq<Call<K, V, E>>, key: K): nat
    decreases |calls|
  {
    if calls == [] then 0
    else (if calls[0].key == key && Invokes(m, calls[0]) then 1 else 0)
         + FactoryInvocations(Apply(m, calls[0]), calls[1..], key)
  }

  class TtlDictionary<K(==), V> {
    var entries: map<K, Entry<V>>

    constructor ()
      ensures entries == map[]
    {
      entries := map[];
    }

    /** Returns the live value of `key`, or runs the factory and stores its
        value until `later + ttl`. A factory failure escapes before anything
        is stored. */
    method GetOrAdd<E>(key: K, factory: Result<V, E>, ttl: int, now: int, later: int)
      returns (r: Result<V, E>, invoked: bool)
      modifies this
      ensures invoked <==> !(key in old(entries) && now < old(entries)[key].expiry)
      ensures !invoked ==> r == Ok(old(entries)[key].value) && entries == old(entries)
      ensures invoked ==> r == factory
      ensures invoked && factory.Ok? ==>
                entries == (old(entries) - {key})[key := Entry(factory.value, later + ttl)]
      ensures invoked && factory.Err? ==> entries == old(entries) - {key}
      ensures entries == Apply(old(entries), GetOrAddCall(key, factory, ttl, now, later))
    {
      var existing := TryGetValueInternal(key, now);
      if existing.Some? {
        return Ok(existing.value), false;
      }
      invoked := true;
      r := factory;
      if factory.Err? {
        return;
      }
      entries := entries[key := Entry(factory.value, later + ttl)];
    }

    /** Reports the live value of `key`, if any. */
    method TryGetValue(key: K, now: int) returns (r: Option<V>)
      modifies this
      ensures r.Some? <==> key in old(entries) && now < old(entries)[key].expiry
      ensures r.Some? ==> r.value == old(entries)[key].value
      ensures entries == Evict(old(entries), key, now)
    {
      r := TryGetValueInternal(key, now);
    }

    /** The probe shared by both operations: an expired entry of `key` is
        removed; no entry is added or changed. */
    method TryGetValueInternal(key: K, now: int) returns (r: Option<V>)
      modifies this
      ensures r.Some? <==> key in old(entries) && now < old(entries)[key].expiry
      ensures r.Some? ==> r.value == old(entries)[key].value
      ensures entries == Evict(old(entries), key, now)
    {
      if key in entries {
        var entry := entries[key];
        if now < entry.expiry {
          return Some(entry.value);
        }
        entries := entries - {key};
      }
      return None;
    }
  }

  /** Expiry is strict: an entry whose expiry equals the clock is absent, is
      evicted by a probe, and makes `GetOrAdd` run its factory again. */
  lemma ExpiryIsStrict<K, V, E>(m: map<K, Entry<V>>, key: K, f: Result<V, E>, ttl: int, later: int)
    requires key in m
    ensures Lookup(m, key, m[key].expiry) == None
    ensures Evict(m, key, m[key].expiry) == m - {key}
    ensures Invokes(m, GetOrAddCall(key, f, ttl, m[key].expiry, later))
  {
  }

  /** A call on one key leaves every other key's entry as it was. */
  lemma OtherKeyUnchanged<K, V, E>(m: map<K, Entry<V>>, c: Call<K, V, E>, k: K)
    requires k != c.key
    ensures k in Apply(m, c) <==> k in m
    ensures k in m ==> Apply(m, c)[k] == m[k]
  {
  }

  /** A factory that fails leaves its key absent, so the next caller retries. */
  lemma FailedFactoryLeavesKeyAbsent<K, V, E>(m: map<K, Entry<V>>, key: K, e: E, ttl: int, now: int, later: int)
    requires Lookup(m, key, now).None?
    ensures key !in Apply(m, Call<K, V, E>.GetOrAddCall(key, Err(e), ttl, now, later))
  {
  }

  /** Calls on other keys never touch `key` and never run its factory. */
  lemma {:induction false} OtherKeysUntouched<K, V, E>(m: map<K, Entry<V>>, calls: seq<Call<K, V, E>>, key: K)
    requires forall i :: 0 <= i < |calls| ==> calls[i].key != key
    ensures key in Replay(m, calls) <==> key in m
    ensures key in m ==> Replay(m, calls)[key] == m[key]
    ensures FactoryInvocations(m, calls, key) == 0
    decreases |calls|
  {
    if calls != [] {
      OtherKeyUnchanged(m, calls[0], key);
      assert forall i :: 0 <= i < |calls[1..]| ==> calls[1..][i] == calls[i + 1];
      OtherKeysUntouched(Apply(m, calls[0]), calls[1..], key);
    }
  }

  /** A live entry survives every sequence of calls that reaches its key
      only before the entry expires, and no factory runs for that key:
      at most one factory evaluation per key per time-to-live window. */
  lemma {:induction false} LiveEntrySurvives<K, V, E>(m: map<K, Entry<V>>, calls: seq<Call<K, V, E>>, key: K)
    requires key in m
    requires forall i :: 0 <= i < |calls| && calls[i].key == key ==> calls[i].at < m[key].expiry
    ensures key in Replay(m, calls) && Replay(m, calls)[key] == m[key]
    ensures FactoryInvocations(m, calls, key) == 0
    decreases |calls|
  {
    if calls != [] {
      var m1 := Apply(m, calls[0]);
      if calls[0].key == key {
        assert Lookup(m, key, calls[0].at) == Some(m[key].value);
        assert m1 == m;
      } else {
        OtherKeyUnchanged(m, calls[0], key);
      }
      assert forall i :: 0 <= i < |calls[1..]| ==> calls[1..][i] == calls[i + 1];
      LiveEntrySurvives(m1, calls[1..], key);
    }
  }

  /** Round trip on a miss: once `GetOrAdd` has stored the factory's value,
      a probe before `later + ttl` returns it, provided the only calls on the
      key in between also come before that instant; none of them runs the
      factory again. */
  lemma {:induction false} StoredValueReadBack<K, V, E>(
    m: map<K, Entry<V>>, key: K, v: V, ttl: int, now: int, later: int,
    calls: seq<Call<K, V, E>>, t: int)
    requires Lookup(m, key, now).None?
    requires forall i :: 0 <= i < |calls| && calls[i].key == key ==> calls[i].at < later + ttl
    requires t < later + ttl
    ensures Lookup(Replay(Apply(m, Call<K, V, E>.GetOrAddCall(key, Ok(v), ttl, now, later)), calls), key, t) == Some(v)
    ensures FactoryInvocations(Apply(m, Call<K, V, E>.GetOrAddCall(key, Ok(v), ttl, now, later)), calls, key) == 0
  {
    var m1 := Apply(m, Call<K, V, E>.GetOrAddCall(key, Ok(v), ttl, now, later));
    assert m1[key] == Entry(v, later + ttl);
    LiveEntrySurvives(m1, calls, key);
  }

  /** Round trip on a hit: `GetOrAdd` returns the cached value without running
      its factory, and later probes see the same value until the entry's own
      expiry. */
  lemma {:induction false} CachedValueReadBack<K, V, E>(
    m: map<K, Entry<V>>, key: K, f: Result<V, E>, ttl: int, now: int, later: int,
    calls: seq<Call<K, V, E>>, t: int)
    requires Lookup(m, key, now).Some?
    requires forall i :: 0 <= i < |calls| && calls[i].key == key ==> calls[i].at < m[key].expiry
    requires t < m[key].expiry
    ensures !Invokes(m, GetOrAddCall(key, f, ttl, now, later))
    ensures Lookup(Replay(Apply(m, GetOrAddCall(key, f, ttl, now, later)), calls), key, t)
            == Lookup(m, key, now)
  {
    var m1 := Apply(m, GetOrAddCall(key, f, ttl, now, later));
    assert m1 == m;
    LiveEntrySurvives(m1, calls, key);
  }

  /** Two `GetOrAdd` calls on a fresh key, the second before the first
      entry expires: the factory runs once and both return its value. A third
      call at or after the expiry runs the factory again. */
  lemma GetOrAddTwiceWithinTtl<K, V, E>(
    m: map<K, Entry<V>>, key: K, v: V, f2: Result<V, E>, f3: Result<V, E>, ttl: int,
    now1: int, later1: int, now2: int, later2: int, now3: int, later3: int)
    requires key !in m
    requires now2 < later1 + ttl <= now3
    ensures var m1 := Apply(m, Call<K, V, E>.GetOrAddCall(key, Ok(v), ttl, now1, later1));
            && !Invokes(m1, GetOrAddCall(key, f2, ttl, now2, later2))
            && Lookup(m1, key, now2) == Some(v)
            && Apply(m1, GetOrAddCall(key, f2, ttl, now2, later2)) == m1
            && Invokes(m1, GetOrAddCall(key, f3, ttl, now3, later3))
  ensures var c1 := Call<K, V, E>.GetOrAddCall(key, Ok(v), ttl, now1, later1);
          var c2 := Call<K, V, E>.GetOrAddCall(key, f2, ttl, now2, later2);
          && Invokes(m, c1)
          && FactoryInvocations(m, [c1, c2], key) == 1
  {
    var c1 := Call<K, V, E>.GetOrAddCall(key, Ok(v), ttl, now1, later1);
    var c2 := Call<K, V, E>.GetOrAddCall(key, f2, ttl, now2, later2);
    var m1 := Apply(m, c1);
    assert [c1, c2][1..] == [c2];
    var none: seq<Call<K, V, E>> := [];
    assert [c2][1..] == none;
    assert FactoryInvocations(m1, [c2], key) == 0 + FactoryInvocations(Apply(m1, c2), none, key);
  }
}
