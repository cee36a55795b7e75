/**
 * The query cache (`frontend/src/utils/cache.js`): a key/entry map with
 * absolute expiry times, read lazily (an expired entry is removed by the read
 * that finds it), and the key builder for ledger queries. The clock is the
 * explicit `now` argument of every operation that consults it.
 */
module TtlCache {
  import opened Wrappers
  import Text

  /** The constructor's default time-to-live, in milliseconds. */
  const DefaultTtl: int := 60000

  datatype Entry<V> = Entry(value: V, expiresAt: int)

  datatype Store<V> = Store(entries: map<string, Entry<V>>, defaultTtl: int)

  /** `new Cache(defaultTTL)`: empty, with 60000 ms as the default when no TTL is given. */
  function New<V>(defaultTtl: Option<int>): (c: Store<V>)
    ensures c.entries == map[]
    ensures defaultTtl.None? ==> c.defaultTtl == 60000
    ensures defaultTtl.Some? ==> c.defaultTtl == defaultTtl.value
  {
    Store(map[], defaultTtl.GetOr(DefaultTtl))
  }

  /** An entry is live at `now` up to and including its expiry instant. */
  predicate Live<V>(e: Entry<V>, now: int) {
    now <= e.expiresAt
  }

  /**
   * `get(key)` at time `now`: the value of a live entry with the store
   * unchanged; nothing for an absent key, store unchanged; nothing for an
   * expired entry, which is removed and nothing else is.
   */
  function Get<V>(c: Store<V>, key: string, now: int): (r: (Store<V>, Option<V>))
    ensures r.1.Some? <==> key in c.entries && Live(c.entries[key], now)
    ensures r.1.Some? ==> r.1.value == c.entries[key].value
    ensures key !in c.entries || Live(c.entries[key], now) ==> r.0 == c
    ensures key in c.entries && !Live(c.entries[key], now) ==>
      r.0.entries == c.entries - {key} && r.0.defaultTtl == c.defaultTtl
  {
    if key !in c.entries then (c, None)
    else if now > c.entries[key].expiresAt then (c.(entries := c.entries - {key}), None)
    else (c, Some(c.entries[key].value))
  }

  /** `set(key, value, ttl)` at time `now`; an omitted TTL is the store's default. */
  function Set<V>(c: Store<V>, key: string, value: V, ttl: Option<int>, now: int): (r: Store<V>)
    ensures r.defaultTtl == c.defaultTtl
    ensures r.entries.Keys == c.entries.Keys + {key}
    ensures r.entries[key] == Entry(value, now + ttl.GetOr(c.defaultTtl))
    ensures forall k :: k in c.entries && k != key ==> r.entries[k] == c.entries[k]
  {
    c.(entries := c.entries[key := Entry(value, now + ttl.GetOr(c.defaultTtl))])
  }

  /** `delete(key)`: that key only is gone. */
  function Delete<V>(c: Store<V>, key: string): (r: Store<V>)
    ensures r.defaultTtl == c.defaultTtl
    ensures r.entries.Keys == c.entries.Keys - {key}
    ensures forall k :: k in r.entries ==> r.entries[k] == c.entries[k]
  {
    c.(entries := c.entries - {key})
  }

  /** `clear()`: no entries remain. */
  function Clear<V>(c: Store<V>): (r: Store<V>)
    ensures r.entries == map[] && r.defaultTtl == c.defaultTtl
  {
    c.(entries := map[])
  }

  /** A value set at `t` with TTL `ttl` is read back at any time up to and including `t + ttl`. */
  lemma SetThenGet<V>(c: Store<V>, key: string, value: V, ttl: int, t: int, now: int)
    requires now <= t + ttl
    ensures Get(Set(c, key, value, Some(ttl), t), key, now) == (Set(c, key, value, Some(ttl), t), Some(value))
  {
  }

  /** Without a TTL, a value set at `t` lives exactly the store's default TTL. */
  lemma DefaultTtlApplies<V>(c: Store<V>, key: string, value: V, t: int, now: int)
    ensures Get(Set(c, key, value, None, t), key, now).1 == Some(value) <==> now <= t + c.defaultTtl
  {
  }

  /**
   * Expiry is strict and eviction is real: after `t + ttl` the read gives
   * nothing and drops the entry, so a later read gives nothing even at an
   * earlier clock reading.
   */
  lemma ExpiredIsEvicted<V>(c: Store<V>, key: string, value: V, ttl: int, t: int, now: int, later: int)
    requires now > t + ttl
    ensures var (c1, v1) := Get(Set(c, key, value, Some(ttl), t), key, now);
      v1 == None && key !in c1.entries && Get(c1, key, later).1 == None
  {
  }

  /** Setting a key does not change what any other key reads. */
  lemma SetLeavesOthers<V>(c: Store<V>, key: string, other: string, value: V, ttl: Option<int>, t: int, now: int)
    requires other != key
    ensures Get(Set(c, key, value, ttl, t), other, now).1 == Get(c, other, now).1
  {
  }

  /** After `delete(key)` the key reads nothing; after `clear()` every key reads nothing. */
  lemma DeleteAndClearForget<V>(c: Store<V>, key: string, other: string, now: int)
    ensures Get(Delete(c, key), key, now).1 == None
    ensures other != key ==> Get(Delete(c, key), other, now).1 == Get(c, other, now).1
    ensures Get(Clear(c), other, now).1 == None
  {
  }

  /**
   * `Cache.generateKey(templateIds, query)`: `"query:"`, the ids joined by
   * commas, `":"` and the query's JSON text (`"{}"` when no query is given).
   */
  function GenerateKey(templateIds: seq<string>, queryJson: Option<string>): string {
    "query:" + Text.Join(templateIds, ",") + ":" + queryJson.GetOr("{}")
  }

  /** Template ids that keep the key readable: no commas and no braces. */
  ghost predicate PlainIds(ids: seq<string>) {
    |ids| >= 1 && Text.NoneContains(ids, ',') && Text.NoneContains(ids, '{')
  }

  /** A query serialised as a JSON object starts with a brace. */
  ghost predicate ObjectText(q: string) {
    |q| >= 1 && q[0] == '{'
  }

  lemma KeyShape(ids: seq<string>, q: string)
    requires PlainIds(ids) && ObjectText(q)
    ensures GenerateKey(ids, Some(q)) == ("query:" + Text.Join(ids, ",") + ":") + ['{'] + q[1..]
    ensures '{' !in "query:" + Text.Join(ids, ",") + ":"
  {
    Text.JoinAvoids(ids, ",", '{');
    assert q == ['{'] + q[1..];
  }

  /**
   * The key determines the query: for non-empty lists of comma- and
   * brace-free ids and object-shaped query text, equal keys mean equal ids,
   * in the same order, and equal query text.
   */
  lemma KeyInjective(ids: seq<string>, q: string, ids': seq<string>, q': string)
    requires PlainIds(ids) && ObjectText(q)
    requires PlainIds(ids') && ObjectText(q')
    requires GenerateKey(ids, Some(q)) == GenerateKey(ids', Some(q'))
    ensures ids == ids' && q == q'
  {
    KeyShape(ids, q);
    KeyShape(ids', q');
    var a := "query:" + Text.Join(ids, ",") + ":";
    var a' := "query:" + Text.Join(ids', ",") + ":";
    Text.SeparatorUnique(a, q[1..], a', q'[1..], '{');
    assert Text.Join(ids, ",") == a[6..|a| - 1];
    assert Text.Join(ids', ",") == a'[6..|a'| - 1];
    assert [','] == ",";
    Text.JoinInjective(ids, ids', ',');
    assert q == ['{'] + q[1..] && q' == ['{'] + q'[1..];
  }

  /** Order matters: listing the same two distinct plain ids the other way round gives a different key. */
  lemma ReorderChangesKey(a: string, b: string, q: string)
    requires a != b && PlainIds([a, b]) && ObjectText(q)
    ensures GenerateKey([a, b], Some(q)) != GenerateKey([b, a], Some(q))
  {
    if GenerateKey([a, b], Some(q)) == GenerateKey([b, a], Some(q)) {
      assert PlainIds([b, a]) by {
        assert forall i :: 0 <= i < 2 ==> [b, a][i] == [a, b][1 - i];
      }
      KeyInjective([a, b], q, [b, a], q);
    }
  }

  /** Without the plain-id condition keys collide: one id `"A,B"` and two ids `"A"`, `"B"` share a key. */
  lemma CommaInIdCollides()
    ensures GenerateKey(["A,B"], None) == GenerateKey(["A", "B"], None)
  {
    assert Text.Join(["A", "B"], ",") == "A" + "," + Text.Join(["B"], ",");
  }
}
