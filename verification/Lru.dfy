/** The in-process cache backend: an ordered dictionary with a capacity and expiry times. */
module Lru {
  import opened Wrappers

  /** `expires` is the moment after which a lookup drops the entry. */
  datatype Entry<+V> = Entry(key: string, value: V, expires: Option<real>)

  /** Entries from least to most recently used. */
  type Entries<+V> = seq<Entry<V>>

  ghost function KeysOf<V>(s: Entries<V>): set<string> {
    set e | e in s :: e.key
  }

  ghost predicate Keyed<V>(s: Entries<V>) {
    forall i, j :: 0 <= i < j < |s| ==> s[i].key != s[j].key
  }

  function Find<V>(s: Entries<V>, key: string): (r: Option<Entry<V>>)
    ensures r.Some? ==> r.value in s && r.value.key == key
    ensures r.None? <==> key !in KeysOf(s)
  {
    if s == [] then None else if s[0].key == key then Some(s[0]) else Find(s[1..], key)
  }

  function Without<V>(s: Entries<V>, key: string): Entries<V> {
    if s == [] then [] else if s[0].key == key then Without(s[1..], key) else [s[0]] + Without(s[1..], key)
  }

  function WithoutPrefix<V>(s: Entries<V>, prefix: string): Entries<V> {
    if s == [] then []
    else if prefix <= s[0].key then WithoutPrefix(s[1..], prefix)
    else [s[0]] + WithoutPrefix(s[1..], prefix)
  }

  /** The entries whose keys are not in a set. */
  function Losing<V>(s: Entries<V>, keys: set<string>): Entries<V> {
    if s == [] then []
    else if s[0].key in keys then Losing(s[1..], keys)
    else [s[0]] + Losing(s[1..], keys)
  }

  predicate Expired<V>(e: Entry<V>, now: real) {
    e.expires.Some? && now > e.expires.value
  }

  // ----- what the operations do -----

  function Get<V>(s: Entries<V>, key: string, now: real): (Entries<V>, Option<V>) {
    match Find(s, key)
    case None => (s, None)
    case Some(e) =>
      if Expired(e, now) then (Without(s, key), None) else (Without(s, key) + [e], Some(e.value))
  }

  function Fresh<V>(key: string, value: V, ttl: nat, now: real): Entry<V> {
    Entry(key, value, if ttl == 0 then None else Some(now + ttl as real))
  }

  /** The most recent entries that fit. */
  function Trim<V>(s: Entries<V>, max: nat): Entries<V> {
    if |s| <= max then s else s[|s| - max..]
  }

  function Set<V>(s: Entries<V>, max: nat, key: string, value: V, ttl: nat, now: real): Entries<V> {
    Trim(Without(s, key) + [Fresh(key, value, ttl, now)], max)
  }

  // ----- facts about removal -----

  /** Membership, first entry first. */
  lemma InFrontOrRest<V>(s: Entries<V>, e: Entry<V>)
    requires s != []
    ensures e in s <==> e == s[0] || e in s[1..]
  {
    assert s == [s[0]] + s[1..];
  }

  lemma KeyedFromFront<V>(e: Entry<V>, s: Entries<V>)
    requires Keyed(s) && (forall x :: x in s ==> x.key != e.key)
    ensures Keyed([e] + s)
  {
  }

  lemma KeyedRest<V>(s: Entries<V>)
    requires s != [] && Keyed(s)
    ensures Keyed(s[1..]) && forall x :: x in s[1..] ==> x.key != s[0].key
  {
  }

  lemma {:induction false} WithoutMembers<V>(s: Entries<V>, key: string, e: Entry<V>)
    ensures e in Without(s, key) <==> e in s && e.key != key
  {
    if s != [] {
      InFrontOrRest(s, e);
      WithoutMembers(s[1..], key, e);
    }
  }

  lemma {:induction false} WithoutKeyed<V>(s: Entries<V>, key: string)
    requires Keyed(s)
    ensures Keyed(Without(s, key))
  {
    if s != [] {
      KeyedRest(s);
      WithoutKeyed(s[1..], key);
      if s[0].key != key {
        forall x | x in Without(s[1..], key) ensures x.key != s[0].key { WithoutMembers(s[1..], key, x); }
        KeyedFromFront(s[0], Without(s[1..], key));
      }
    }
  }

  lemma {:induction false} WithoutSize<V>(s: Entries<V>, key: string)
    requires Keyed(s)
    ensures |Without(s, key)| == |s| - (if key in KeysOf(s) then 1 else 0)
  {
    if s != [] {
      KeyedRest(s);
      WithoutSize(s[1..], key);
      if s[0].key == key {
        WithoutMissing(s[1..], key);
      } else {
        assert key in KeysOf(s) <==> key in KeysOf(s[1..]) by {
          if key in KeysOf(s) {
            var e :| e in s && e.key == key;
            InFrontOrRest(s, e);
          }
        }
      }
    }
  }

  lemma {:induction false} WithoutPrefixMembers<V>(s: Entries<V>, prefix: string, e: Entry<V>)
    ensures e in WithoutPrefix(s, prefix) <==> e in s && !(prefix <= e.key)
  {
    if s != [] {
      InFrontOrRest(s, e);
      WithoutPrefixMembers(s[1..], prefix, e);
    }
  }

  lemma {:induction false} WithoutPrefixKeyed<V>(s: Entries<V>, prefix: string)
    requires Keyed(s)
    ensures Keyed(WithoutPrefix(s, prefix)) && |WithoutPrefix(s, prefix)| <= |s|
  {
    if s != [] {
      KeyedRest(s);
      WithoutPrefixKeyed(s[1..], prefix);
      if !(prefix <= s[0].key) {
        forall x | x in WithoutPrefix(s[1..], prefix) ensures x.key != s[0].key {
          WithoutPrefixMembers(s[1..], prefix, x);
        }
        KeyedFromFront(s[0], WithoutPrefix(s[1..], prefix));
      }
    }
  }

  lemma {:induction false} LosingMembers<V>(s: Entries<V>, keys: set<string>, e: Entry<V>)
    ensures e in Losing(s, keys) <==> e in s && e.key !in keys
  {
    if s != [] {
      InFrontOrRest(s, e);
      LosingMembers(s[1..], keys, e);
    }
  }

  lemma {:induction false} LosingOneMore<V>(s: Entries<V>, keys: set<string>, key: string)
    ensures Without(Losing(s, keys), key) == Losing(s, keys + {key})
    ensures Losing(s, {}) == s
  {
    if s != [] {
      LosingOneMore(s[1..], keys, key);
    }
  }

  /** Deleting one by one the keys with a prefix is what `WithoutPrefix` says. */
  lemma {:induction false} LosingPrefixed<V>(s: Entries<V>, keys: set<string>, prefix: string)
    requires forall e :: e in s ==> (e.key in keys <==> prefix <= e.key)
    ensures Losing(s, keys) == WithoutPrefix(s, prefix)
  {
    if s != [] {
      assert s[0] in s;
      LosingPrefixed(s[1..], keys, prefix);
    }
  }

  lemma {:induction false} WithoutPrefixAppend<V>(s: Entries<V>, e: Entry<V>, prefix: string)
    ensures WithoutPrefix(s + [e], prefix) == WithoutPrefix(s, prefix) + if prefix <= e.key then [] else [e]
  {
    if s == [] {
      assert [e][1..] == [] && s + [e] == [e];
    } else {
      WithoutPrefixAppend(s[1..], e, prefix);
      assert (s + [e])[1..] == s[1..] + [e];
    }
  }

  lemma {:induction false} WithoutMissing<V>(s: Entries<V>, key: string)
    requires forall e :: e in s ==> e.key != key
    ensures Without(s, key) == s
  {
    if s != [] {
      WithoutMissing(s[1..], key);
    }
  }

  /** Dropping the oldest entry is removing its key. */
  lemma OldestIsAKey<V>(s: Entries<V>)
    requires s != [] && Keyed(s)
    ensures s[1..] == Without(s, s[0].key)
  {
    WithoutMissing(s[1..], s[0].key);
  }

  lemma {:induction false} FindLast<V>(s: Entries<V>, e: Entry<V>)
    requires forall x :: x in s ==> x.key != e.key
    ensures Find(s + [e], e.key) == Some(e)
  {
    if s == [] {
      assert s + [e] == [e];
    } else {
      assert (s + [e])[1..] == s[1..] + [e];
      assert s[0] in s;
      FindLast(s[1..], e);
    }
  }

  /** A value just set is found until it expires. */
  lemma GetAfterSet<V>(s: Entries<V>, max: nat, key: string, value: V, ttl: nat, now: real, later: real)
    requires max > 0
    ensures Get(Set(s, max, key, value, ttl, now), key, later).1
      == (if ttl == 0 || later <= now + ttl as real then Some(value) else None)
  {
    var e := Fresh(key, value, ttl, now);
    var rest := Without(s, key);
    forall x | x in rest ensures x.key != key { WithoutMembers(s, key, x); }
    var kept := if |rest| < max then rest else rest[|rest| + 1 - max..];
    assert Set(s, max, key, value, ttl, now) == kept + [e];
    FindLast(kept, e);
  }

  // ----- one store inside another -----

  /** The entries with some keys, in order. */
  ghost function Keep<V>(s: Entries<V>, keys: set<string>): Entries<V> {
    if s == [] then []
    else if s[0].key in keys then [s[0]] + Keep(s[1..], keys)
    else Keep(s[1..], keys)
  }

  /** `a` is a sub-map of `b`, with the same values, expiries and recency order. */
  ghost predicate Within<V>(a: Entries<V>, b: Entries<V>) {
    a == Keep(b, KeysOf(a))
  }

  lemma {:induction false} KeepMembers<V>(s: Entries<V>, keys: set<string>, e: Entry<V>)
    ensures e in Keep(s, keys) <==> e in s && e.key in keys
  {
    if s != [] {
      InFrontOrRest(s, e);
      KeepMembers(s[1..], keys, e);
    }
  }

  lemma {:induction false} KeepKeyed<V>(s: Entries<V>, keys: set<string>)
    requires Keyed(s)
    ensures Keyed(Keep(s, keys)) && |Keep(s, keys)| <= |s|
  {
    if s != [] {
      KeyedRest(s);
      KeepKeyed(s[1..], keys);
      if s[0].key in keys {
        forall x | x in Keep(s[1..], keys) ensures x.key != s[0].key { KeepMembers(s[1..], keys, x); }
        KeyedFromFront(s[0], Keep(s[1..], keys));
      }
    }
  }

  lemma {:induction false} KeepWithout<V>(s: Entries<V>, keys: set<string>, key: string)
    ensures Without(Keep(s, keys), key) == Keep(Without(s, key), keys) == Keep(s, keys - {key})
  {
    if s != [] {
      KeepWithout(s[1..], keys, key);
    }
  }

  lemma {:induction false} KeepWithoutPrefix<V>(s: Entries<V>, keys: set<string>, prefix: string)
    ensures WithoutPrefix(Keep(s, keys), prefix) == Keep(WithoutPrefix(s, prefix), keys)
  {
    if s != [] {
      KeepWithoutPrefix(s[1..], keys, prefix);
    }
  }

  lemma {:induction false} KeepAppend<V>(s: Entries<V>, e: Entry<V>, keys: set<string>)
    ensures Keep(s + [e], keys) == Keep(s, keys) + if e.key in keys then [e] else []
  {
    if s == [] {
      assert [e][1..] == [] && s + [e] == [e];
    } else {
      KeepAppend(s[1..], e, keys);
      assert (s + [e])[1..] == s[1..] + [e];
    }
  }

  /** Only the keys that occur matter. */
  lemma {:induction false} KeepOnlyOccurring<V>(s: Entries<V>, keys: set<string>, others: set<string>)
    requires forall e :: e in s ==> (e.key in keys <==> e.key in others)
    ensures Keep(s, keys) == Keep(s, others)
  {
    if s != [] {
      assert s[0] in s;
      KeepOnlyOccurring(s[1..], keys, others);
    }
  }

  /** A store that is the kept part of another for any set of keys lies within it. */
  lemma KeptIsWithin<V>(s: Entries<V>, keys: set<string>)
    ensures Within(Keep(s, keys), s)
  {
    forall e | e in s ensures e.key in keys <==> e.key in KeysOf(Keep(s, keys)) {
      KeepMembers(s, keys, e);
      if e.key in KeysOf(Keep(s, keys)) {
        var x :| x in Keep(s, keys) && x.key == e.key;
        KeepMembers(s, keys, x);
      }
    }
    KeepOnlyOccurring(s, keys, KeysOf(Keep(s, keys)));
  }

  lemma WithinMember<V>(a: Entries<V>, b: Entries<V>, e: Entry<V>)
    requires Within(a, b)
    ensures e in a ==> e in b
    ensures e in b && e.key in KeysOf(a) ==> e in a
  {
    KeepMembers(b, KeysOf(a), e);
  }

  lemma WithinKeys<V>(a: Entries<V>, b: Entries<V>, key: string)
    requires Within(a, b) && key in KeysOf(a)
    ensures key in KeysOf(b)
  {
    var e :| e in a && e.key == key;
    WithinMember(a, b, e);
  }

  lemma {:induction false} FindIsUnique<V>(s: Entries<V>, e: Entry<V>)
    requires Keyed(s) && e in s
    ensures Find(s, e.key) == Some(e)
  {
    if s[0] != e {
      var i :| 0 <= i < |s| && s[i] == e;
      assert s[1..][i - 1] == e;
      FindIsUnique(s[1..], e);
    }
  }

  /** What the smaller store finds, the larger finds. */
  lemma WithinFinds<V>(a: Entries<V>, b: Entries<V>, key: string)
    requires Within(a, b) && Keyed(b) && key in KeysOf(a)
    ensures Find(b, key) == Find(a, key)
  {
    WithinMember(a, b, Find(a, key).value);
    FindIsUnique(b, Find(a, key).value);
  }

  // ----- what every store is -----

  /** One entry per key and no more than fit. */
  ghost predicate InOrder<V>(s: Entries<V>, max: nat) {
    Keyed(s) && |s| <= max
  }

  lemma GetKeepsOrder<V>(s: Entries<V>, max: nat, key: string, now: real)
    requires InOrder(s, max)
    ensures InOrder(Get(s, key, now).0, max)
  {
    WithoutKeyed(s, key);
    WithoutSize(s, key);
    forall x | x in Without(s, key) ensures x.key != key { WithoutMembers(s, key, x); }
  }

  lemma SetKeepsOrder<V>(s: Entries<V>, max: nat, key: string, value: V, ttl: nat, now: real)
    requires InOrder(s, max)
    ensures InOrder(Set(s, max, key, value, ttl, now), max)
  {
    WithoutKeyed(s, key);
    forall x | x in Without(s, key) ensures x.key != key { WithoutMembers(s, key, x); }
  }

  // ----- inclusion over whole runs -----

  datatype LruOp<+V> =
    | DoGet(key: string, now: real)
    | DoSet(key: string, value: V, ttl: nat, now: real)
    | DoDelete(key: string)
    | DoDeletePrefix(prefix: string)

  function Apply<V>(s: Entries<V>, max: nat, op: LruOp<V>): (Entries<V>, Option<V>) {
    match op
    case DoGet(key, now) => Get(s, key, now)
    case DoSet(key, value, ttl, now) => (Set(s, max, key, value, ttl, now), None)
    case DoDelete(key) => (Without(s, key), None)
    case DoDeletePrefix(prefix) => (WithoutPrefix(s, prefix), None)
  }

  function RunAll<V>(s: Entries<V>, max: nat, ops: seq<LruOp<V>>): (Entries<V>, seq<Option<V>>)
    decreases |ops|
  {
    if ops == [] then (s, [])
    else
      var (t, hit) := Apply(s, max, ops[0]);
      var (u, hits) := RunAll(t, max, ops[1..]);
      (u, [hit] + hits)
  }

  /** The smaller of two stores fed the same operations: a sub-map of the larger, each within its
      capacity, and the larger never ahead by more entries than it has extra room for. */
  ghost predicate Included<V>(a: Entries<V>, m: nat, b: Entries<V>, n: nat) {
    Within(a, b) && Keyed(b) && |a| <= m && |b| <= n && |b| - |a| <= n - m
  }

  lemma WithinWithout<V>(a: Entries<V>, b: Entries<V>, key: string)
    requires Within(a, b) && Keyed(b)
    ensures Within(Without(a, key), Without(b, key)) && Keyed(Without(b, key))
  {
    KeepWithout(b, KeysOf(a), key);
    KeptIsWithin(Without(b, key), KeysOf(a));
    WithoutKeyed(b, key);
  }

  lemma WithinAppend<V>(a: Entries<V>, b: Entries<V>, e: Entry<V>)
    requires Within(a, b) && Keyed(b) && (forall x :: x in b ==> x.key != e.key)
    ensures Within(a + [e], b + [e]) && Keyed(b + [e])
  {
    var keys := KeysOf(a) + {e.key};
    KeepAppend(b, e, keys);
    KeepOnlyOccurring(b, keys, KeysOf(a));
    KeptIsWithin(b + [e], keys);
  }

  lemma WithinAppendLarger<V>(a: Entries<V>, b: Entries<V>, e: Entry<V>)
    requires Within(a, b) && Keyed(b) && (forall x :: x in b ==> x.key != e.key) && e.key !in KeysOf(a)
    ensures Within(a, b + [e]) && Keyed(b + [e])
  {
    KeepAppend(b, e, KeysOf(a));
  }

  lemma WithinEvictBoth<V>(a: Entries<V>, b: Entries<V>)
    requires Within(a, b) && Keyed(b) && a != [] && b != []
    ensures Within(a[1..], b[1..]) && Keyed(b[1..])
  {
    var keys := KeysOf(a);
    KeepKeyed(b, keys);
    OldestIsAKey(a);
    KeepWithout(b, keys, a[0].key);
    if b[0].key in keys {
      assert a[1..] == Keep(b[1..], keys);
      KeptIsWithin(b[1..], keys);
    } else {
      KeepWithout(b[1..], keys, a[0].key);
      KeptIsWithin(b[1..], keys - {a[0].key});
    }
  }

  lemma WithinEvictSmaller<V>(a: Entries<V>, b: Entries<V>)
    requires Within(a, b) && Keyed(b) && a != []
    ensures Within(a[1..], b)
  {
    KeepKeyed(b, KeysOf(a));
    OldestIsAKey(a);
    KeepWithout(b, KeysOf(a), a[0].key);
    KeptIsWithin(b, KeysOf(a) - {a[0].key});
  }

  /** Removing a key from both shrinks the larger at least as much. */
  lemma WithoutSizes<V>(a: Entries<V>, b: Entries<V>, key: string)
    requires Within(a, b) && Keyed(b)
    ensures |Without(a, key)| == |a| - (if key in KeysOf(a) then 1 else 0)
    ensures |Without(b, key)| == |b| - (if key in KeysOf(b) then 1 else 0)
    ensures key in KeysOf(a) ==> key in KeysOf(b)
    ensures key !in KeysOf(a) ==> Without(a, key) == a
    ensures forall x :: x in Without(b, key) ==> x.key != key
  {
    KeepKeyed(b, KeysOf(a));
    WithoutSize(a, key);
    WithoutSize(b, key);
    if key in KeysOf(a) {
      WithinKeys(a, b, key);
    } else {
      WithoutMissing(a, key);
    }
    forall x | x in Without(b, key) ensures x.key != key { WithoutMembers(b, key, x); }
  }

  lemma GetKeepsIncluded<V>(a: Entries<V>, m: nat, b: Entries<V>, n: nat, key: string, now: real)
    requires Included(a, m, b, n)
    ensures Included(Get(a, key, now).0, m, Get(b, key, now).0, n)
    ensures Get(a, key, now).1.Some? ==> Get(b, key, now).1 == Get(a, key, now).1
  {
    WithinWithout(a, b, key);
    WithoutSizes(a, b, key);
    hide Within, Keyed, Without, Find;
    if key in KeysOf(a) {
      WithinFinds(a, b, key);
      WithinAppend(Without(a, key), Without(b, key), Find(a, key).value);
    } else if key in KeysOf(b) {
      WithinAppendLarger(a, Without(b, key), Find(b, key).value);
    }
  }

  lemma SetKeepsIncluded<V>(a: Entries<V>, m: nat, b: Entries<V>, n: nat, key: string, value: V, ttl: nat, now: real)
    requires Included(a, m, b, n) && m <= n
    ensures Included(Set(a, m, key, value, ttl, now), m, Set(b, n, key, value, ttl, now), n)
  {
    var e := Fresh(key, value, ttl, now);
    var a', b' := Without(a, key) + [e], Without(b, key) + [e];
    WithinWithout(a, b, key);
    WithoutSizes(a, b, key);
    hide Within, Keyed, Without, KeysOf;
    WithinAppend(Without(a, key), Without(b, key), e);
    if |b'| > n {
      WithinEvictBoth(a', b');
    } else if |a'| > m {
      WithinEvictSmaller(a', b');
    }
  }

  lemma DeleteKeepsIncluded<V>(a: Entries<V>, m: nat, b: Entries<V>, n: nat, key: string)
    requires Included(a, m, b, n)
    ensures Included(Without(a, key), m, Without(b, key), n)
  {
    WithinWithout(a, b, key);
    WithoutSizes(a, b, key);
  }

  lemma {:induction false} PrefixTakesMoreFromLarger<V>(b: Entries<V>, keys: set<string>, prefix: string)
    ensures |WithoutPrefix(b, prefix)| - |WithoutPrefix(Keep(b, keys), prefix)| <= |b| - |Keep(b, keys)|
  {
    if b != [] {
      PrefixTakesMoreFromLarger(b[1..], keys, prefix);
    }
  }

  lemma DeletePrefixKeepsIncluded<V>(a: Entries<V>, m: nat, b: Entries<V>, n: nat, prefix: string)
    requires Included(a, m, b, n)
    ensures Included(WithoutPrefix(a, prefix), m, WithoutPrefix(b, prefix), n)
  {
    KeepWithoutPrefix(b, KeysOf(a), prefix);
    KeptIsWithin(WithoutPrefix(b, prefix), KeysOf(a));
    WithoutPrefixKeyed(b, prefix);
    KeepKeyed(b, KeysOf(a));
    WithoutPrefixKeyed(a, prefix);
    PrefixTakesMoreFromLarger(b, KeysOf(a), prefix);
  }

  lemma ApplyKeepsIncluded<V>(a: Entries<V>, m: nat, b: Entries<V>, n: nat, op: LruOp<V>)
    requires Included(a, m, b, n) && m <= n
    ensures Included(Apply(a, m, op).0, m, Apply(b, n, op).0, n)
    ensures Apply(a, m, op).1.Some? ==> Apply(b, n, op).1 == Apply(a, m, op).1
  {
    hide Included, Set, Get;
    match op
    case DoGet(key, now) => GetKeepsIncluded(a, m, b, n, key, now);
    case DoSet(key, value, ttl, now) => SetKeepsIncluded(a, m, b, n, key, value, ttl, now);
    case DoDelete(key) => DeleteKeepsIncluded(a, m, b, n, key);
    case DoDeletePrefix(prefix) => DeletePrefixKeepsIncluded(a, m, b, n, prefix);
  }

  /** Two backends with capacities m <= n, fed the same operations on the same clock: the smaller
      stays a sub-map of the larger, with equal values and expiries in the same recency order,
      neither outgrows its capacity, and every hit of the smaller is the same hit of the larger. */
  lemma {:induction false} LargerCacheNeverLosesAHit<V>(a: Entries<V>, m: nat, b: Entries<V>, n: nat,
                                                        ops: seq<LruOp<V>>)
    requires Included(a, m, b, n) && m <= n
    ensures var (a', hits) := RunAll(a, m, ops);
      var (b', hits') := RunAll(b, n, ops);
      && Included(a', m, b', n)
      && |hits| == |hits'| == |ops|
      && (forall i :: 0 <= i < |ops| && hits[i].Some? ==> hits'[i] == hits[i])
    decreases |ops|
  {
    hide Included, Apply;
    if ops != [] {
      ApplyKeepsIncluded(a, m, b, n, ops[0]);
      LargerCacheNeverLosesAHit(Apply(a, m, ops[0]).0, m, Apply(b, n, ops[0]).0, n, ops[1..]);
    }
  }

  lemma EmptyIncluded<V>(m: nat, n: nat)
    requires m <= n
    ensures Included<V>([], m, [], n)
  {
  }

  /** So of two backends that start empty, over any run, the larger has every hit of the smaller. */
  lemma EveryHitOfTheSmaller<V>(m: nat, n: nat, ops: seq<LruOp<V>>, i: nat)
    requires m <= n && i < |ops|
    ensures var (hits, hits') := (RunAll([], m, ops).1, RunAll([], n, ops).1);
      && |hits| == |hits'| == |ops|
      && (hits[i].Some? ==> hits'[i] == hits[i])
  {
    EmptyIncluded<V>(m, n);
    LargerCacheNeverLosesAHit([], m, [], n, ops);
    hide Included, RunAll;
  }

  // ----- recency -----

  /** The keys, from least to most recently used. */
  function KeySeq<V>(s: Entries<V>): seq<string> {
    if s == [] then [] else [s[0].key] + KeySeq(s[1..])
  }

  function Drop(keys: seq<string>, key: string): seq<string> {
    if keys == [] then [] else if keys[0] == key then Drop(keys[1..], key) else [keys[0]] + Drop(keys[1..], key)
  }

  /** Each key once, in the order of its last use. */
  function ByLastUse(uses: seq<string>): seq<string> {
    if uses == [] then []
    else Drop(ByLastUse(uses[..|uses| - 1]), uses[|uses| - 1]) + [uses[|uses| - 1]]
  }

  /** The last ones that fit. */
  function Latest(keys: seq<string>, max: nat): seq<string> {
    if |keys| <= max then keys else keys[|keys| - max..]
  }

  /** The keys a run uses: those it writes, and those it finds. */
  function Uses<V>(s: Entries<V>, max: nat, ops: seq<LruOp<V>>): seq<string>
    decreases |ops|
  {
    if ops == [] then []
    else
      var (t, hit) := Apply(s, max, ops[0]);
      (if ops[0].DoSet? || (ops[0].DoGet? && hit.Some?) then [ops[0].key] else []) + Uses(t, max, ops[1..])
  }

  /** Lookups, and writes that never expire. */
  predicate Lasting<V>(ops: seq<LruOp<V>>) {
    forall i | 0 <= i < |ops| :: ops[i].DoGet? || (ops[i].DoSet? && ops[i].ttl == 0)
  }

  ghost predicate Unexpiring<V>(s: Entries<V>) {
    forall e :: e in s ==> e.expires.None?
  }

  ghost predicate Once(keys: seq<string>) {
    forall i, j :: 0 <= i < j < |keys| ==> keys[i] != keys[j]
  }

  lemma {:induction false} DropMembers(keys: seq<string>, key: string, x: string)
    ensures x in Drop(keys, key) <==> x in keys && x != key
  {
    if keys != [] {
      DropMembers(keys[1..], key, x);
      assert keys == [keys[0]] + keys[1..];
    }
  }

  lemma OnceMore(keys: seq<string>, x: string)
    requires Once(keys) && x !in keys
    ensures Once([x] + keys) && Once(keys + [x])
  {
  }

  lemma {:induction false} DropOnce(keys: seq<string>, key: string)
    requires Once(keys)
    ensures Once(Drop(keys, key)) && |Drop(keys, key)| == |keys| - (if key in keys then 1 else 0)
  {
    if keys != [] {
      var rest := keys[1..];
      assert forall i :: 0 <= i < |rest| ==> rest[i] == keys[i + 1];
      DropOnce(rest, key);
      assert keys == [keys[0]] + rest && keys[0] !in rest;
      if keys[0] == key {
        assert key !in rest;
      } else {
        DropMembers(rest, key, keys[0]);
        OnceMore(Drop(rest, key), keys[0]);
      }
    }
  }

  lemma {:induction false} DropConcat(xs: seq<string>, ys: seq<string>, key: string)
    ensures Drop(xs + ys, key) == Drop(xs, key) + Drop(ys, key)
  {
    if xs == [] {
      assert xs + ys == ys;
    } else {
      assert (xs + ys)[1..] == xs[1..] + ys;
      DropConcat(xs[1..], ys, key);
    }
  }

  lemma {:induction false} ByLastUseOnce(uses: seq<string>)
    ensures Once(ByLastUse(uses))
  {
    if uses != [] {
      var before, key := ByLastUse(uses[..|uses| - 1]), uses[|uses| - 1];
      ByLastUseOnce(uses[..|uses| - 1]);
      DropOnce(before, key);
      DropMembers(before, key, key);
      OnceMore(Drop(before, key), key);
    }
  }

  /** Using a key among the latest, or a new one, is using it among all. */
  lemma UseAmongLatest(keys: seq<string>, max: nat, key: string)
    requires Once(keys)
    ensures Latest(Drop(Latest(keys, max), key) + [key], max) == Latest(Drop(keys, key) + [key], max)
  {
    if |keys| > max {
      var n := |keys| - max;
      var early, late := keys[..n], keys[n..];
      assert keys == early + late;
      DropConcat(early, late, key);
      DropOnce(late, key);
      var x, y := Drop(early, key), Drop(late, key) + [key];
      assert Drop(keys, key) + [key] == x + y;
      assert |y| >= max && (x + y)[|x + y| - max..] == y[|y| - max..];
    }
  }

  lemma {:induction false} KeySeqFacts<V>(s: Entries<V>, key: string)
    ensures KeySeq(Without(s, key)) == Drop(KeySeq(s), key) && |KeySeq(s)| == |s|
    ensures key in KeysOf(s) <==> key in KeySeq(s)
  {
    if s != [] {
      KeySeqFacts(s[1..], key);
      assert s == [s[0]] + s[1..];
      assert key in KeysOf(s) <==> key == s[0].key || key in KeysOf(s[1..]);
    }
  }

  lemma {:induction false} KeySeqAppend<V>(s: Entries<V>, e: Entry<V>)
    ensures KeySeq(s + [e]) == KeySeq(s) + [e.key]
  {
    if s == [] {
      assert s + [e] == [e] && KeySeq([e]) == [e.key] + KeySeq([e][1..]);
    } else {
      assert (s + [e])[1..] == s[1..] + [e];
      KeySeqAppend(s[1..], e);
    }
  }

  lemma {:induction false} KeySeqFrom<V>(s: Entries<V>, i: nat)
    requires i <= |s|
    ensures |KeySeq(s)| == |s| && KeySeq(s[i..]) == KeySeq(s)[i..]
  {
    if s != [] {
      KeySeqFrom(s[1..], if i > 0 then i - 1 else 0);
      if i > 0 { assert s[i..] == s[1..][i - 1..]; } else { assert s[i..] == s; }
    }
  }

  lemma UseOne<V>(s: Entries<V>, max: nat, op: LruOp<V>, uses: seq<string>)
    requires KeySeq(s) == Latest(ByLastUse(uses), max) && Unexpiring(s) && Lasting([op])
    ensures var (t, hit) := Apply(s, max, op);
      var now := uses + if op.DoSet? || (op.DoGet? && hit.Some?) then [op.key] else [];
      KeySeq(t) == Latest(ByLastUse(now), max) && Unexpiring(t)
  {
    assert Lasting([op]) ==> [op][0].DoGet? || ([op][0].DoSet? && [op][0].ttl == 0);
    var keys := ByLastUse(uses);
    ByLastUseOnce(uses);
    if op.DoSet? {
      SetUses(s, max, op.key, op.value, op.now, uses);
    } else {
      GetUses(s, max, op.key, op.now, uses);
    }
  }

  lemma NowUsed(uses: seq<string>, key: string)
    ensures ByLastUse(uses + [key]) == Drop(ByLastUse(uses), key) + [key]
  {
    assert (uses + [key])[..|uses|] == uses;
  }

  lemma SetUses<V>(s: Entries<V>, max: nat, key: string, value: V, now: real, uses: seq<string>)
    requires KeySeq(s) == Latest(ByLastUse(uses), max) && Unexpiring(s) && Once(ByLastUse(uses))
    ensures var t := Set(s, max, key, value, 0, now);
      KeySeq(t) == Latest(ByLastUse(uses + [key]), max) && Unexpiring(t)
  {
    var e := Fresh(key, value, 0, now);
    var all := Without(s, key) + [e];
    NowUsed(uses, key);
    UseAmongLatest(ByLastUse(uses), max, key);
    KeySeqFacts(s, key);
    KeySeqAppend(Without(s, key), e);
    if |all| > max { KeySeqFrom(all, |all| - max); } else { KeySeqFrom(all, 0); }
    forall x | x in Trim(all, max) ensures x.expires.None? { WithoutMembers(s, key, x); }
  }

  lemma GetUses<V>(s: Entries<V>, max: nat, key: string, now: real, uses: seq<string>)
    requires KeySeq(s) == Latest(ByLastUse(uses), max) && Unexpiring(s) && Once(ByLastUse(uses))
    ensures var (t, hit) := Get(s, key, now);
      KeySeq(t) == Latest(ByLastUse(uses + if hit.Some? then [key] else []), max) && Unexpiring(t)
  {
    KeySeqFacts(s, key);
    match Find(s, key)
    case None => assert uses + [] == uses;
    case Some(e) =>
      NowUsed(uses, key);
      UseAmongLatest(ByLastUse(uses), max, key);
      KeySeqAppend(Without(s, key), e);
      LatestOnce(ByLastUse(uses), max);
      DropOnce(KeySeq(s), key);
      forall x | x in Without(s, key) + [e] ensures x.expires.None? { WithoutMembers(s, key, x); }
  }

  lemma LatestOnce(keys: seq<string>, max: nat)
    requires Once(keys)
    ensures Once(Latest(keys, max)) && |Latest(keys, max)| <= max
  {
  }

  lemma {:induction false} UsesAreKept<V>(s: Entries<V>, max: nat, ops: seq<LruOp<V>>, before: seq<string>)
    requires KeySeq(s) == Latest(ByLastUse(before), max) && Unexpiring(s) && Lasting(ops)
    ensures KeySeq(RunAll(s, max, ops).0) == Latest(ByLastUse(before + Uses(s, max, ops)), max)
    decreases |ops|
  {
    hide Apply, ByLastUse, Latest, Unexpiring;
    if ops == [] {
      assert before + [] == before;
    } else {
      var (t, hit) := Apply(s, max, ops[0]);
      var used := if ops[0].DoSet? || (ops[0].DoGet? && hit.Some?) then [ops[0].key] else [];
      assert forall i :: 0 <= i < |ops[1..]| ==> ops[1..][i] == ops[i + 1];
      UseOne(s, max, ops[0], before);
      UsesAreKept(t, max, ops[1..], before + used);
      assert (before + used) + Uses(t, max, ops[1..]) == before + (used + Uses(t, max, ops[1..]));
    }
  }

  /** What is left after any run of lookups and writes is the keys used last, in the order of their last
      use, as many as fit: a hit uses its key, a miss does not. */
  lemma LeastRecentlyUsedGoFirst<V>(max: nat, ops: seq<LruOp<V>>)
    requires Lasting(ops)
    ensures KeySeq(RunAll([], max, ops).0) == Latest(ByLastUse(Uses([], max, ops)), max)
  {
    UsesAreKept([], max, ops, []);
    assert [] + Uses([], max, ops) == Uses([], max, ops);
  }
}
