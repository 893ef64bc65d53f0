// Caveat values and their canonical form.
module CaveatValues {

  // A JSON caveat value: a string, any other scalar by its text, a list, or a dict in insertion order.
  datatype Value = Str(text: string) | Atom(literal: string) | List(items: seq<Value>) | Dict(entries: seq<Entry>)

  datatype Entry = Entry(key: string, value: Value)

  datatype Canon = Leaf(text: string) | Scalar(literal: string) | Tuple(parts: seq<Canon>)

  datatype Pair = Pair(key: string, value: Canon)

  // Python's code-point order on strings.
  predicate StringLe(a: string, b: string) {
    a == [] || (b != [] && (a[0] < b[0] || (a[0] == b[0] && StringLe(a[1..], b[1..]))))
  }

  function InsertPair(p: Pair, ps: seq<Pair>): seq<Pair> {
    if ps == [] || StringLe(p.key, ps[0].key) then [p] + ps else [ps[0]] + InsertPair(p, ps[1..])
  }

  function SortPairs(ps: seq<Pair>): seq<Pair> {
    if ps == [] then [] else InsertPair(ps[0], SortPairs(ps[1..]))
  }

  function Canonical(v: Value): Canon
    decreases v
  {
    match v
    case Str(t) => Leaf(t)
    case Atom(l) => Scalar(l)
    case List(items) => Tuple(seq(|items|, i requires 0 <= i < |items| => Canonical(items[i])))
    case Dict(entries) => AsTuples(SortPairs(CanonicalPairs(entries)))
  }

  function CanonicalPairs(entries: seq<Entry>): seq<Pair>
    decreases entries
  {
    seq(|entries|, i requires 0 <= i < |entries| => Pair(entries[i].key, Canonical(entries[i].value)))
  }

  function AsTuples(ps: seq<Pair>): Canon {
    Tuple(seq(|ps|, i requires 0 <= i < |ps| => Tuple([Leaf(ps[i].key), ps[i].value])))
  }

  predicate DistinctKeys(entries: seq<Entry>) {
    forall i, j :: 0 <= i < j < |entries| ==> entries[i].key != entries[j].key
  }

  // No dict inside the value repeats a key.
  predicate KeysDistinct(v: Value)
    decreases v
  {
    match v
    case List(items) => forall i :: 0 <= i < |items| ==> KeysDistinct(items[i])
    case Dict(entries) => DistinctKeys(entries) && forall i :: 0 <= i < |entries| ==> KeysDistinct(entries[i].value)
    case _ => true
  }

  lemma {:induction false} StringLeTotalOrder(a: string, b: string, c: string)
    ensures StringLe(a, b) || StringLe(b, a)
    ensures StringLe(a, b) && StringLe(b, a) ==> a == b
    ensures StringLe(a, b) && StringLe(b, c) ==> StringLe(a, c)
  {
    if a != [] && b != [] && c != [] {
      StringLeTotalOrder(a[1..], b[1..], c[1..]);
      assert a == [a[0]] + a[1..] && b == [b[0]] + b[1..];
    } else if a != [] && b != [] {
      StringLeTotalOrder(a[1..], b[1..], []);
      assert a == [a[0]] + a[1..] && b == [b[0]] + b[1..];
    }
  }

  lemma {:induction false} InsertCommutes(a: Pair, b: Pair, ps: seq<Pair>)
    requires a.key != b.key
    ensures InsertPair(a, InsertPair(b, ps)) == InsertPair(b, InsertPair(a, ps))
  {
    StringLeTotalOrder(a.key, b.key, []);
    if ps != [] {
      StringLeTotalOrder(a.key, ps[0].key, b.key);
      StringLeTotalOrder(b.key, ps[0].key, a.key);
      InsertCommutes(a, b, ps[1..]);
    }
  }

  function Without<T>(s: seq<T>, k: nat): (r: seq<T>)
    requires k < |s|
    ensures |r| == |s| - 1 && forall i :: 0 <= i < |r| ==> r[i] == s[if i < k then i else i + 1]
  {
    s[..k] + s[k + 1..]
  }

  predicate UniqueKeys(ps: seq<Pair>) {
    forall i, j :: 0 <= i < j < |ps| ==> ps[i].key != ps[j].key
  }

  lemma {:induction false} SortFromAnyItem(ps: seq<Pair>, k: nat)
    requires k < |ps| && UniqueKeys(ps)
    ensures SortPairs(ps) == InsertPair(ps[k], SortPairs(Without(ps, k)))
    decreases k
  {
    if k == 0 {
      assert Without(ps, 0) == ps[1..];
    } else {
      SortFromAnyItem(ps[1..], k - 1);
      assert Without(ps, k)[1..] == Without(ps[1..], k - 1);
      InsertCommutes(ps[0], ps[k], SortPairs(Without(ps[1..], k - 1)));
    }
  }

  lemma {:induction false} InsertKeepsItems(p: Pair, ps: seq<Pair>)
    ensures |InsertPair(p, ps)| == |ps| + 1 && forall q :: q in InsertPair(p, ps) <==> q == p || q in ps
  {
    if ps != [] && !StringLe(p.key, ps[0].key) {
      InsertKeepsItems(p, ps[1..]);
      assert ps == [ps[0]] + ps[1..];
    }
  }

  lemma {:induction false} SortKeepsItems(ps: seq<Pair>)
    ensures |SortPairs(ps)| == |ps| && forall p :: p in SortPairs(ps) <==> p in ps
  {
    if ps != [] {
      SortKeepsItems(ps[1..]);
      InsertKeepsItems(ps[0], SortPairs(ps[1..]));
      assert ps == [ps[0]] + ps[1..];
    }
  }

  predicate KeysAscend(ps: seq<Pair>) {
    forall i, j :: 0 <= i < j < |ps| ==> StringLe(ps[i].key, ps[j].key)
  }

  lemma {:induction false} InsertKeepsAscending(p: Pair, ps: seq<Pair>)
    requires KeysAscend(ps)
    ensures KeysAscend(InsertPair(p, ps))
  {
    if ps != [] {
      StringLeTotalOrder(p.key, ps[0].key, []);
      if StringLe(p.key, ps[0].key) {
        forall j | 0 <= j < |ps| ensures StringLe(p.key, ps[j].key) {
          StringLeTotalOrder(p.key, ps[0].key, ps[j].key);
        }
      } else {
        InsertKeepsAscending(p, ps[1..]);
        InsertKeepsItems(p, ps[1..]);
        var r := InsertPair(p, ps[1..]);
        forall j | 0 <= j < |r| ensures StringLe(ps[0].key, r[j].key) {
          assert r[j] in r;
        }
      }
    }
  }

  lemma {:induction false} SortAscends(ps: seq<Pair>)
    ensures KeysAscend(SortPairs(ps))
  {
    if ps != [] {
      SortAscends(ps[1..]);
      InsertKeepsAscending(ps[0], SortPairs(ps[1..]));
    }
  }

  lemma {:induction false} SortedStays(ps: seq<Pair>)
    requires KeysAscend(ps)
    ensures SortPairs(ps) == ps
  {
    if |ps| > 1 {
      SortedStays(ps[1..]);
      assert StringLe(ps[0].key, ps[1].key);
    }
  }

  predicate Within(ps: seq<Pair>, qs: seq<Pair>) {
    forall i :: 0 <= i < |ps| ==> ps[i] in qs
  }

  lemma {:induction false} RestWithin(ps: seq<Pair>, qs: seq<Pair>, k: nat)
    requires ps != [] && k < |qs| && qs[k] == ps[0] && UniqueKeys(ps) && UniqueKeys(qs) && Within(ps, qs)
    ensures Within(ps[1..], Without(qs, k)) && UniqueKeys(ps[1..]) && UniqueKeys(Without(qs, k))
  {
    forall i | 0 <= i < |ps| - 1 ensures ps[1..][i] in Without(qs, k) {
      var j :| 0 <= j < |qs| && qs[j] == ps[i + 1];
      assert Without(qs, k)[if j < k then j else j - 1] == ps[i + 1];
    }
  }

  // Sorting forgets the order of the pairs and nothing else.
  lemma {:induction false} SortEqualIff(ps: seq<Pair>, qs: seq<Pair>)
    requires UniqueKeys(ps) && UniqueKeys(qs)
    ensures SortPairs(ps) == SortPairs(qs) <==> |ps| == |qs| && Within(ps, qs)
    decreases |ps|
  {
    SortKeepsItems(ps);
    SortKeepsItems(qs);
    if |ps| == |qs| && Within(ps, qs) && ps != [] {
      var k :| 0 <= k < |qs| && qs[k] == ps[0];
      RestWithin(ps, qs, k);
      SortEqualIff(ps[1..], Without(qs, k));
      SortFromAnyItem(qs, k);
    }
  }

  // ---------- When two values have one canonical form ----------

  // A two-item list of a string and a value stands for a pair.
  predicate PairLike(v: Value) {
    v.List? && |v.items| == 2 && v.items[0].Str?
  }

  predicate AscendingPairs(items: seq<Value>) {
    && (forall i :: 0 <= i < |items| ==> PairLike(items[i]))
    && (forall i, j :: 0 <= i < j < |items| ==>
          StringLe(items[i].items[0].text, items[j].items[0].text) && items[i].items[0].text != items[j].items[0].text)
  }

  // Lists item by item, dicts key by key; a list of pairs with ascending keys is a dict.
  ghost predicate Alike(u: Value, v: Value)
    decreases u, v
  {
    match u
    case Str(_) => u == v
    case Atom(_) => u == v
    case List(a) =>
      (match v
       case List(b) => |a| == |b| && forall i :: 0 <= i < |a| ==> Alike(a[i], b[i])
       case Dict(fs) => |a| == |fs| && AscendingPairs(a)
         && forall i :: 0 <= i < |a| ==> exists j :: 0 <= j < |fs| && a[i].items[0].text == fs[j].key && Alike(a[i].items[1], fs[j].value)
       case _ => false)
    case Dict(es) =>
      match v
      case List(b) => |b| == |es| && AscendingPairs(b)
        && forall i :: 0 <= i < |b| ==> exists j :: 0 <= j < |es| && b[i].items[0].text == es[j].key && Alike(es[j].value, b[i].items[1])
      case Dict(fs) => |es| == |fs|
        && forall i :: 0 <= i < |es| ==> exists j :: 0 <= j < |fs| && es[i].key == fs[j].key && Alike(es[i].value, fs[j].value)
      case _ => false
  }

  lemma {:induction false} InsertKeepsUnique(p: Pair, ps: seq<Pair>)
    requires UniqueKeys(ps) && forall q :: q in ps ==> q.key != p.key
    ensures UniqueKeys(InsertPair(p, ps))
  {
    if ps != [] && !StringLe(p.key, ps[0].key) {
      InsertKeepsUnique(p, ps[1..]);
      InsertKeepsItems(p, ps[1..]);
      var r := InsertPair(p, ps[1..]);
      forall j | 0 <= j < |r| ensures r[j].key != ps[0].key {
        assert r[j] in r;
      }
    }
  }

  lemma {:induction false} SortKeepsUnique(ps: seq<Pair>)
    requires UniqueKeys(ps)
    ensures UniqueKeys(SortPairs(ps))
  {
    if ps != [] {
      SortKeepsUnique(ps[1..]);
      SortKeepsItems(ps[1..]);
      InsertKeepsUnique(ps[0], SortPairs(ps[1..]));
    }
  }

  lemma {:induction false} AsTuplesInjective(ps: seq<Pair>, qs: seq<Pair>)
    ensures AsTuples(ps) == AsTuples(qs) <==> ps == qs
  {
    var s, t := AsTuples(ps).parts, AsTuples(qs).parts;
    if s == t {
      forall i | 0 <= i < |ps| ensures ps[i] == qs[i] {
        assert s[i].parts[0] == t[i].parts[0] && s[i].parts[1] == t[i].parts[1];
      }
    }
  }

  lemma {:induction false} PairForm(v: Value, p: Pair)
    ensures Canonical(v) == Tuple([Leaf(p.key), p.value]) <==> PairLike(v) && v.items[0].text == p.key && Canonical(v.items[1]) == p.value
  {
    var c := Canonical(v);
    if c == Tuple([Leaf(p.key), p.value]) {
      assert c.parts[0] == Leaf(p.key) && c.parts[1] == p.value;
      if v.List? {
        assert c.parts[0] == Canonical(v.items[0]);
      }
    }
    if PairLike(v) {
      assert c.parts == [Canonical(v.items[0]), Canonical(v.items[1])];
    }
  }

  // The pair that an item stands for.
  function PairOf(v: Value): Pair
    requires PairLike(v)
  {
    Pair(v.items[0].text, Canonical(v.items[1]))
  }

  ghost predicate Covers(items: seq<Value>, fs: seq<Entry>) {
    && |items| == |fs| && AscendingPairs(items)
    && forall i :: 0 <= i < |items| ==> PairOf(items[i]) in CanonicalPairs(fs)
  }

  // A list has the canonical form of sorted pairs exactly when its items are those pairs.
  lemma {:induction false} ListMeetsPairs(items: seq<Value>, ps: seq<Pair>)
    ensures Canonical(List(items)) == AsTuples(ps) <==>
      |items| == |ps| && forall i :: 0 <= i < |ps| ==> PairLike(items[i]) && PairOf(items[i]) == ps[i]
  {
    var s, t := Canonical(List(items)).parts, AsTuples(ps).parts;
    forall i | 0 <= i < |items| && i < |ps|
      ensures s[i] == t[i] <==> PairLike(items[i]) && PairOf(items[i]) == ps[i]
    {
      PairForm(items[i], ps[i]);
    }
    assert s == t <==> |s| == |t| && forall i :: 0 <= i < |t| ==> s[i] == t[i];
  }

  lemma {:induction false} SortedPairs(qs: seq<Pair>, ps: seq<Pair>)
    requires UniqueKeys(qs)
    ensures ps == SortPairs(qs) <==> |ps| == |qs| && KeysAscend(ps) && UniqueKeys(ps) && Within(ps, qs)
  {
    SortKeepsItems(qs);
    SortAscends(qs);
    SortKeepsUnique(qs);
    if |ps| == |qs| && KeysAscend(ps) && UniqueKeys(ps) && Within(ps, qs) {
      SortedStays(ps);
      SortEqualIff(ps, qs);
    }
  }

  lemma {:induction false} CoveringListSorts(items: seq<Value>, fs: seq<Entry>)
    requires DistinctKeys(fs) && Covers(items, fs)
    ensures Canonical(List(items)) == AsTuples(SortPairs(CanonicalPairs(fs)))
  {
    var qs := CanonicalPairs(fs);
    var ps := seq(|items|, i requires 0 <= i < |items| => PairOf(items[i]));
    SortedPairs(qs, ps);
    ListMeetsPairs(items, ps);
  }

  lemma {:induction false} ListMeetsDict(items: seq<Value>, fs: seq<Entry>)
    requires DistinctKeys(fs)
    ensures Canonical(List(items)) == Canonical(Dict(fs)) <==> Covers(items, fs)
  {
    var sorted := SortPairs(CanonicalPairs(fs));
    if Covers(items, fs) {
      CoveringListSorts(items, fs);
    } else {
      ListMeetsPairs(items, sorted);
      SortedPairs(CanonicalPairs(fs), sorted);
    }
  }

  lemma {:induction false} ListMeetsList(a: seq<Value>, b: seq<Value>)
    ensures Canonical(List(a)) == Canonical(List(b)) <==> |a| == |b| && forall i :: 0 <= i < |a| ==> Canonical(a[i]) == Canonical(b[i])
  {
    var s, t := Canonical(List(a)).parts, Canonical(List(b)).parts;
    assert forall i :: 0 <= i < |a| ==> s[i] == Canonical(a[i]);
    assert forall i :: 0 <= i < |b| ==> t[i] == Canonical(b[i]);
    assert s == t <==> |s| == |t| && forall i :: 0 <= i < |s| ==> s[i] == t[i];
    assert |a| == |b| && (forall i :: 0 <= i < |a| ==> Canonical(a[i]) == Canonical(b[i])) ==> forall i :: 0 <= i < |s| ==> s[i] == t[i];
    assert s == t ==> forall i :: 0 <= i < |a| ==> s[i] == t[i] && s[i] == Canonical(a[i]) && t[i] == Canonical(b[i]);
  }

  lemma {:induction false} DictMeetsDict(es: seq<Entry>, fs: seq<Entry>)
    requires DistinctKeys(es) && DistinctKeys(fs)
    ensures Canonical(Dict(es)) == Canonical(Dict(fs)) <==> |es| == |fs| && Within(CanonicalPairs(es), CanonicalPairs(fs))
  {
    SortEqualIff(CanonicalPairs(es), CanonicalPairs(fs));
    AsTuplesInjective(SortPairs(CanonicalPairs(es)), SortPairs(CanonicalPairs(fs)));
  }

  lemma {:induction false} PairIn(p: Pair, fs: seq<Entry>)
    ensures p in CanonicalPairs(fs) <==> exists j :: 0 <= j < |fs| && p.key == fs[j].key && p.value == Canonical(fs[j].value)
  {
    if j :| 0 <= j < |fs| && p.key == fs[j].key && p.value == Canonical(fs[j].value) {
      assert CanonicalPairs(fs)[j] == p;
    }
  }

  // The chain walk takes two values for the same exactly when they are alike.
  lemma {:induction false} CanonicalEqualIff(u: Value, v: Value)
    requires KeysDistinct(u) && KeysDistinct(v)
    ensures Canonical(u) == Canonical(v) <==> Alike(u, v)
    decreases u, v
  {
    match u
    case Str(_) =>
    case Atom(_) =>
    case List(a) =>
      match v {
        case List(b) =>
          ListMeetsList(a, b);
          forall i | 0 <= i < |a| && i < |b| ensures Canonical(a[i]) == Canonical(b[i]) <==> Alike(a[i], b[i]) {
            CanonicalEqualIff(a[i], b[i]);
          }
        case Dict(fs) =>
          ListMeetsDict(a, fs);
          forall i | 0 <= i < |a| && PairLike(a[i]) ensures PairOf(a[i]) in CanonicalPairs(fs) <==>
            exists j :: 0 <= j < |fs| && a[i].items[0].text == fs[j].key && Alike(a[i].items[1], fs[j].value) {
            PairIn(PairOf(a[i]), fs);
            forall j | 0 <= j < |fs| ensures Canonical(a[i].items[1]) == Canonical(fs[j].value) <==> Alike(a[i].items[1], fs[j].value) {
              CanonicalEqualIff(a[i].items[1], fs[j].value);
            }
          }
        case _ =>
      }
    case Dict(es) =>
      match v {
        case List(b) =>
          ListMeetsDict(b, es);
          forall i | 0 <= i < |b| && PairLike(b[i]) ensures PairOf(b[i]) in CanonicalPairs(es) <==>
            exists j :: 0 <= j < |es| && b[i].items[0].text == es[j].key && Alike(es[j].value, b[i].items[1]) {
            PairIn(PairOf(b[i]), es);
            forall j | 0 <= j < |es| ensures Canonical(es[j].value) == Canonical(b[i].items[1]) <==> Alike(es[j].value, b[i].items[1]) {
              CanonicalEqualIff(es[j].value, b[i].items[1]);
            }
          }
        case Dict(fs) =>
          DictMeetsDict(es, fs);
          forall i | 0 <= i < |es| ensures CanonicalPairs(es)[i] in CanonicalPairs(fs) <==>
            exists j :: 0 <= j < |fs| && es[i].key == fs[j].key && Alike(es[i].value, fs[j].value) {
            PairIn(CanonicalPairs(es)[i], fs);
            forall j | 0 <= j < |fs| ensures Canonical(es[i].value) == Canonical(fs[j].value) <==> Alike(es[i].value, fs[j].value) {
              CanonicalEqualIff(es[i].value, fs[j].value);
            }
          }
        case _ =>
      }
  }

  // Two dicts with the same items compare equal in the chain walk, whatever order they were written in.
  lemma {:induction false} CanonicalIgnoresItemOrder(es: seq<Entry>, fs: seq<Entry>)
    requires multiset(es) == multiset(fs) && DistinctKeys(es) && DistinctKeys(fs)
    ensures Canonical(Dict(es)) == Canonical(Dict(fs))
  {
    assert |es| == |multiset(es)| == |multiset(fs)| == |fs|;
    var ps, qs := CanonicalPairs(es), CanonicalPairs(fs);
    forall i | 0 <= i < |ps| ensures ps[i] in qs {
      assert es[i] in multiset(fs);
      var j :| 0 <= j < |fs| && fs[j] == es[i];
      assert qs[j] == ps[i];
    }
    SortEqualIff(ps, qs);
  }

  // A dict and the list of its one pair, taken for the same.
  lemma {:induction false} DictTakenForList(key: string, v: Value)
    ensures Canonical(Dict([Entry(key, v)])) == Canonical(List([List([Str(key), v])]))
  {
    var items, es := [List([Str(key), v])], [Entry(key, v)];
    assert CanonicalPairs(es)[0] == PairOf(items[0]);
    ListMeetsDict(items, es);
  }
}
