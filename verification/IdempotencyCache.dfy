// The bounded idempotency cache: lookup, insertion, expiry, and oldest-expiry-first eviction.
module IdempotencyCache {
  import opened Wrappers

  // A cached answer: one response, or the list of chunks of a stream.
  datatype Response = OneShot(res: string) | Stream(chunks: seq<string>)

  // One dict item; a cache lists its items in insertion order.
  datatype Item = Item(key: string, response: Response, expires: int)

  ghost predicate Distinct(c: seq<Item>) {
    forall i, j :: 0 <= i < j < |c| ==> c[i].key != c[j].key
  }

  function Find(c: seq<Item>, key: string): (r: Option<Item>)
    ensures r.Some? ==> r.value in c && r.value.key == key
    ensures r.None? <==> forall i :: 0 <= i < |c| ==> c[i].key != key
  {
    if c == [] then None else if c[0].key == key then Some(c[0]) else Find(c[1..], key)
  }

  // Dict assignment: an existing key keeps its place, a new one goes last.
  function Put(c: seq<Item>, x: Item): seq<Item> {
    if c == [] then [x] else if c[0].key == x.key then [x] + c[1..] else [c[0]] + Put(c[1..], x)
  }

  function Remove(c: seq<Item>, keys: set<string>): seq<Item> {
    if c == [] then [] else (if c[0].key in keys then [] else [c[0]]) + Remove(c[1..], keys)
  }

  function Live(c: seq<Item>, now: int): seq<Item> {
    if c == [] then [] else (if now >= c[0].expires then [] else [c[0]]) + Live(c[1..], now)
  }

  function KeysOf(c: seq<Item>): set<string> {
    set x | x in c :: x.key
  }

  function InsertByExpiry(x: Item, s: seq<Item>): seq<Item> {
    if s == [] || x.expires <= s[0].expires then [x] + s else [s[0]] + InsertByExpiry(x, s[1..])
  }

  // Stable sort by expiry.
  function ByExpiry(c: seq<Item>): seq<Item> {
    if c == [] then [] else InsertByExpiry(c[0], ByExpiry(c[1..]))
  }

  function Capped(c: seq<Item>, max: nat): seq<Item> {
    if |c| <= max then c
    else
      SortedSize(c);
      Remove(c, KeysOf(ByExpiry(c)[..|c| - max]))
  }

  // One insertion: store, drop the expired, enforce the bound.
  function Inserted(c: seq<Item>, x: Item, now: int, max: nat): seq<Item> {
    Capped(Live(Put(c, x), now), max)
  }

  lemma {:induction false} SortedSize(c: seq<Item>)
    ensures |ByExpiry(c)| == |c|
  {
    if c != [] {
      SortedSize(c[1..]);
      InsertSize(c[0], ByExpiry(c[1..]));
    }
  }

  lemma {:induction false} InsertSize(x: Item, s: seq<Item>)
    ensures |InsertByExpiry(x, s)| == |s| + 1
  {
    if s != [] && x.expires > s[0].expires {
      InsertSize(x, s[1..]);
    }
  }

  ghost predicate Sorted(s: seq<Item>) {
    forall i, j :: 0 <= i < j < |s| ==> s[i].expires <= s[j].expires
  }

  lemma {:induction false} InsertProperties(x: Item, s: seq<Item>)
    requires Sorted(s) && Distinct(s) && x.key !in KeysOf(s)
    ensures var r := InsertByExpiry(x, s);
      Sorted(r) && Distinct(r) && (forall y :: y in r <==> y == x || y in s)
  {
    if s != [] && x.expires > s[0].expires {
      assert s == [s[0]] + s[1..];
      InsertProperties(x, s[1..]);
      var rest := InsertByExpiry(x, s[1..]);
      forall i | 0 <= i < |rest| ensures s[0].expires <= rest[i].expires && s[0].key != rest[i].key {
        assert rest[i] in rest;
      }
    }
  }

  lemma {:induction false} SortProperties(c: seq<Item>)
    requires Distinct(c)
    ensures Sorted(ByExpiry(c)) && Distinct(ByExpiry(c)) && forall y :: y in ByExpiry(c) <==> y in c
  {
    if c != [] {
      SortProperties(c[1..]);
      InsertProperties(c[0], ByExpiry(c[1..]));
      assert c == [c[0]] + c[1..];
    }
  }

  lemma {:induction false} RemoveProperties(c: seq<Item>, keys: set<string>)
    ensures forall y :: y in Remove(c, keys) <==> y in c && y.key !in keys
    ensures Distinct(c) ==> Distinct(Remove(c, keys))
    ensures Distinct(c) && keys <= KeysOf(c) ==> |Remove(c, keys)| == |c| - |keys|
  {
    RemoveMembers(c, keys);
    if Distinct(c) {
      RemoveKeepsDistinct(c, keys);
      if keys <= KeysOf(c) {
        RemoveCount(c, keys);
      }
    }
  }

  lemma {:induction false} RemoveKeepsDistinct(c: seq<Item>, keys: set<string>)
    requires Distinct(c)
    ensures Distinct(Remove(c, keys))
  {
    if c != [] {
      RemoveKeepsDistinct(c[1..], keys);
      RemoveMembers(c[1..], keys);
    }
  }

  lemma {:induction false} RemoveCount(c: seq<Item>, keys: set<string>)
    requires Distinct(c) && keys <= KeysOf(c)
    ensures |Remove(c, keys)| == |c| - |keys|
  {
    if c != [] {
      var k := c[0].key;
      assert c == [c[0]] + c[1..];
      assert KeysOf(c) == {k} + KeysOf(c[1..]);
      RemoveCount(c[1..], keys - {k});
      RemoveOther(c[1..], keys, k);
    }
  }

  lemma {:induction false} RemoveMembers(c: seq<Item>, keys: set<string>)
    ensures forall y :: y in Remove(c, keys) <==> y in c && y.key !in keys
  {
    if c != [] {
      RemoveMembers(c[1..], keys);
    }
  }

  lemma {:induction false} RemoveOther(c: seq<Item>, keys: set<string>, k: string)
    requires forall i :: 0 <= i < |c| ==> c[i].key != k
    ensures Remove(c, keys) == Remove(c, keys - {k})
  {
    if c != [] {
      RemoveOther(c[1..], keys, k);
    }
  }

  lemma {:induction false} DistinctKeyCount(s: seq<Item>)
    requires Distinct(s)
    ensures |KeysOf(s)| == |s|
  {
    if s != [] {
      DistinctKeyCount(s[1..]);
      assert s == [s[0]] + s[1..];
      assert KeysOf(s) == {s[0].key} + KeysOf(s[1..]);
    }
  }

  lemma {:induction false} LiveProperties(c: seq<Item>, now: int)
    ensures forall y :: y in Live(c, now) <==> y in c && now < y.expires
    ensures Distinct(c) ==> Distinct(Live(c, now))
  {
    if c != [] {
      LiveProperties(c[1..], now);
      assert c == [c[0]] + c[1..];
    }
  }

  lemma {:induction false} PutProperties(c: seq<Item>, x: Item)
    requires Distinct(c)
    ensures Distinct(Put(c, x)) && forall y :: y in Put(c, x) <==> y == x || (y in c && y.key != x.key)
  {
    if c != [] {
      assert c == [c[0]] + c[1..];
      if c[0].key != x.key {
        PutProperties(c[1..], x);
        var rest := Put(c[1..], x);
        forall i | 0 <= i < |rest| ensures rest[i].key != c[0].key {
          assert rest[i] in rest;
        }
      }
    }
  }

  // Of two members, the one whose key is among the m earliest expires no later.
  lemma {:induction false} EarliestExpireFirst(c: seq<Item>, m: nat, d: Item, e: Item)
    requires Distinct(c) && m <= |ByExpiry(c)| && d in c && e in c
    requires d.key in KeysOf(ByExpiry(c)[..m]) && e.key !in KeysOf(ByExpiry(c)[..m])
    ensures d.expires <= e.expires
  {
    SortProperties(c);
    var s := ByExpiry(c);
    var i :| 0 <= i < m && s[..m][i].key == d.key;
    var i' :| 0 <= i' < |s| && s[i'] == d;
    var j :| 0 <= j < |s| && s[j] == e;
    assert s[i].key == d.key;
    forall k | 0 <= k < m ensures s[k].key in KeysOf(s[..m]) {
      assert s[..m][k] in s[..m];
    }
  }

  lemma {:induction false} DropSize(c: seq<Item>, m: nat)
    requires Distinct(c) && m <= |ByExpiry(c)|
    ensures |Remove(c, KeysOf(ByExpiry(c)[..m]))| == |c| - m
  {
    SortProperties(c);
    var s := ByExpiry(c);
    var drop := KeysOf(s[..m]);
    forall x | x in s[..m] ensures x.key in KeysOf(c) { assert x in s; }
    DistinctKeyCount(s[..m]);
    RemoveProperties(c, drop);
  }

  lemma {:induction false} CappedProperties(c: seq<Item>, max: nat)
    requires Distinct(c)
    ensures var r := Capped(c, max);
      && Distinct(r) && |r| == (if |c| <= max then |c| else max)
      && (forall y :: y in r ==> y in c)
      && (forall d, e :: d in c && d !in r && e in r ==> d.expires <= e.expires)
  {
    if |c| > max {
      SortedSize(c);
      var m := |c| - max;
      DropSize(c, m);
      RemoveProperties(c, KeysOf(ByExpiry(c)[..m]));
      forall d, e | d in c && d !in Capped(c, max) && e in Capped(c, max) ensures d.expires <= e.expires {
        EarliestExpireFirst(c, m, d, e);
      }
    }
  }

  // After every insertion: within the bound, nothing expired, values untouched, live entries
  // lost only when over the bound, and each live entry lost expires no later than each one kept.
  lemma {:induction false} InsertionEvicts(c: seq<Item>, x: Item, now: int, max: nat)
    requires Distinct(c)
    ensures var r, all := Inserted(c, x, now, max), Put(c, x);
      && Distinct(r) && |r| <= max
      && (forall y :: y in r ==> now < y.expires && (y == x || (y in c && y.key != x.key)))
      && (forall y :: y in all && now < y.expires && y !in r ==>
            |r| == max && |Live(all, now)| > max && forall kept :: kept in r ==> y.expires <= kept.expires)
  {
    PutProperties(c, x);
    LiveProperties(Put(c, x), now);
    CappedProperties(Live(Put(c, x), now), max);
    if |Live(Put(c, x), now)| <= max {
      assert Inserted(c, x, now, max) == Live(Put(c, x), now);
    }
  }

  // ---------- Lookup is by membership ----------

  lemma {:induction false} FindIsMember(c: seq<Item>, x: Item)
    requires Distinct(c)
    ensures Find(c, x.key) == Some(x) <==> x in c
  {
    if x in c {
      var i :| 0 <= i < |c| && c[i] == x;
      var y := Find(c, x.key);
      var j :| 0 <= j < |c| && c[j] == y.value;
    }
  }

  lemma {:induction false} FindInPut(c: seq<Item>, x: Item, key: string)
    ensures Find(Put(c, x), key) == if key == x.key then Some(x) else Find(c, key)
  {
    if c != [] && c[0].key != x.key {
      FindInPut(c[1..], x, key);
    }
  }

  lemma {:induction false} FindInRest(c: seq<Item>, keys: set<string>, key: string)
    ensures Find(Remove(c, keys), key) == if key in keys then None else Find(c, key)
  {
    if c != [] {
      var rest := Remove(c[1..], keys);
      FindInRest(c[1..], keys, key);
      if c[0].key in keys {
        assert Remove(c, keys) == rest;
        assert key !in keys ==> Find(c, key) == Find(c[1..], key);
      } else {
        assert Remove(c, keys) == [c[0]] + rest;
        assert Find([c[0]] + rest, key) == if c[0].key == key then Some(c[0]) else Find(rest, key);
      }
    }
  }

  lemma {:induction false} SizeAfterPut(c: seq<Item>, x: Item, now: int)
    ensures |Put(c, x)| <= |c| + 1 && |Live(c, now)| <= |c|
  {
    if c != [] {
      SizeAfterPut(c[1..], x, now);
    }
  }

  // A new response that has not expired stays if there was room for it.
  lemma {:induction false} RoomFor(c: seq<Item>, x: Item, now: int, max: nat)
    requires Distinct(c) && |c| < max && now < x.expires
    ensures Find(Inserted(c, x, now, max), x.key) == Some(x)
  {
    var put := Put(c, x);
    PutProperties(c, x);
    LiveProperties(put, now);
    SizeAfterPut(c, x, now);
    SizeAfterPut(put, x, now);
    FindIsMember(Live(put, now), x);
  }

  // ---------- The lists of keys an eviction deletes ----------

  function KeyList(c: seq<Item>): (keys: seq<string>)
    ensures |keys| == |c| && forall i :: 0 <= i < |c| ==> keys[i] == c[i].key
  {
    seq(|c|, i requires 0 <= i < |c| => c[i].key)
  }

  function KeySet(keys: seq<string>): set<string> {
    set k | k in keys
  }

  function ExpiredKeys(c: seq<Item>, now: int): seq<string> {
    if c == [] then [] else (if now >= c[0].expires then [c[0].key] else []) + ExpiredKeys(c[1..], now)
  }

  function ExcessKeys(c: seq<Item>, max: nat): seq<string> {
    if |c| <= max then [] else SortedSize(c); KeyList(ByExpiry(c)[..|c| - max])
  }

  lemma {:induction false} ExpiredMeaning(c: seq<Item>, now: int)
    ensures forall k :: k in ExpiredKeys(c, now) <==> exists x :: x in c && x.key == k && now >= x.expires
  {
    if c != [] {
      ExpiredMeaning(c[1..], now);
      assert c == [c[0]] + c[1..];
    }
  }

  lemma {:induction false} ExpiredOnce(c: seq<Item>, now: int)
    requires Distinct(c)
    ensures forall i, j :: 0 <= i < j < |ExpiredKeys(c, now)| ==> ExpiredKeys(c, now)[i] != ExpiredKeys(c, now)[j]
  {
    if c != [] {
      ExpiredOnce(c[1..], now);
      ExpiredMeaning(c[1..], now);
      forall i | 0 <= i < |ExpiredKeys(c[1..], now)| ensures ExpiredKeys(c[1..], now)[i] != c[0].key {
        assert ExpiredKeys(c[1..], now)[i] in ExpiredKeys(c[1..], now);
      }
    }
  }

  lemma {:induction false} RemoveExpired(c: seq<Item>, now: int)
    requires Distinct(c)
    ensures Remove(c, KeySet(ExpiredKeys(c, now))) == Live(c, now)
  {
    if c != [] {
      var k, rest := c[0].key, c[1..];
      RemoveExpired(rest, now);
      ExpiredMeaning(rest, now);
      RemoveOther(rest, KeySet(ExpiredKeys(c, now)), k);
      assert KeySet(ExpiredKeys(c, now)) - {k} == KeySet(ExpiredKeys(rest, now));
    }
  }

  lemma {:induction false} RemoveExcess(c: seq<Item>, max: nat)
    ensures Remove(c, KeySet(ExcessKeys(c, max))) == Capped(c, max)
  {
    if |c| <= max {
      RemoveAbsent(c, KeySet([]));
    } else {
      SortedSize(c);
      var s := ByExpiry(c)[..|c| - max];
      assert KeySet(KeyList(s)) == KeysOf(s) by {
        forall x | x in s ensures x.key in KeyList(s) {
          var i :| 0 <= i < |s| && s[i] == x;
          assert KeyList(s)[i] == x.key;
        }
      }
    }
  }

  lemma {:induction false} ExcessMeaning(c: seq<Item>, max: nat)
    requires Distinct(c)
    ensures forall k :: k in ExcessKeys(c, max) ==> k in KeysOf(c)
    ensures forall i, j :: 0 <= i < j < |ExcessKeys(c, max)| ==> ExcessKeys(c, max)[i] != ExcessKeys(c, max)[j]
  {
    SortedSize(c);
    SortProperties(c);
    if |c| > max {
      var s := ByExpiry(c)[..|c| - max];
      forall k | k in KeyList(s) ensures k in KeysOf(c) {
        var i :| 0 <= i < |s| && KeyList(s)[i] == k;
        assert s[i] in ByExpiry(c);
      }
    }
  }

  // ---------- The cache object ----------

  class Cache {
    var items: seq<Item>
    const max: nat

    ghost predicate Valid()
      reads this
    {
      Distinct(items)
    }

    constructor (max: nat)
      ensures Valid() && items == [] && this.max == max
    {
      items := [];
      this.max := max;
    }

    // A live hit is returned; an expired one is deleted and missed.
    method Lookup(key: string, now: int) returns (hit: Option<Response>)
      requires Valid()
      modifies this`items
      ensures Valid()
      ensures var was := Find(old(items), key);
        if was.Some? && now < was.value.expires then hit == Some(was.value.response) && items == old(items)
        else hit == None && items == Remove(old(items), {key})
    {
      var was := Find(items, key);
      if was.Some? {
        if now < was.value.expires {
          return Some(was.value.response);
        }
        RemoveProperties(items, {key});
        items := Remove(items, {key});
      } else {
        RemoveAbsent(items, {key});
      }
      return None;
    }

    // Delete the listed keys one by one.
    method Delete(keys: seq<string>)
      requires Valid()
      modifies this`items
      ensures Valid() && items == Remove(old(items), KeySet(keys))
    {
      RemoveAbsent(items, KeySet([]));
      for i := 0 to |keys|
        invariant Valid() && items == Remove(old(items), KeySet(keys[..i]))
      {
        RemoveTwice(old(items), KeySet(keys[..i]), {keys[i]});
        assert keys[..i + 1] == keys[..i] + [keys[i]];
        assert KeySet(keys[..i + 1]) == KeySet(keys[..i]) + {keys[i]};
        RemoveProperties(items, {keys[i]});
        items := Remove(items, {keys[i]});
      }
      assert keys[..|keys|] == keys;
    }

    method EvictExpired(now: int)
      requires Valid()
      modifies this`items
      ensures Valid() && items == Live(old(items), now)
    {
      var expired: seq<string> := [];
      for i := 0 to |items|
        invariant ExpiredKeys(items, now) == expired + ExpiredKeys(items[i..], now)
      {
        if now >= items[i].expires {
          expired := expired + [items[i].key];
        }
        assert items[i..][1..] == items[i + 1..];
      }
      assert expired + [] == expired;
      RemoveExpired(items, now);
      Delete(expired);
    }

    method EnforceCap()
      requires Valid()
      modifies this`items
      ensures Valid() && items == Capped(old(items), max)
    {
      if |items| <= max { return; }
      RemoveExcess(items, max);
      Delete(ExcessKeys(items, max));
    }

    method Insert(key: string, response: Response, expires: int, now: int)
      requires Valid()
      modifies this`items
      ensures Valid() && items == Inserted(old(items), Item(key, response, expires), now, max)
    {
      PutProperties(items, Item(key, response, expires));
      items := Put(items, Item(key, response, expires));
      EvictExpired(now);
      EnforceCap();
    }
  }

  lemma {:induction false} RemoveAbsent(c: seq<Item>, keys: set<string>)
    requires forall i :: 0 <= i < |c| ==> c[i].key !in keys
    ensures Remove(c, keys) == c
  {
    if c != [] {
      RemoveAbsent(c[1..], keys);
    }
  }

  lemma {:induction false} RemoveTwice(c: seq<Item>, a: set<string>, b: set<string>)
    ensures Remove(Remove(c, a), b) == Remove(c, a + b)
  {
    if c != [] {
      RemoveTwice(c[1..], a, b);
      if c[0].key !in a {
        assert Remove(c, a)[1..] == Remove(c[1..], a);
      } else {
        assert Remove(c, a) == Remove(c[1..], a);
      }
    }
  }
}
