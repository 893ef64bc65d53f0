// One thread storing one response in the idempotency cache, cut between every read and write of the
// shared dict and its file: insert, list the expired, delete them one by one, list the excess, delete
// it, copy the dict, write the copy.
module CacheWriter {
  import opened Wrappers
  import opened IdempotencyCache

  datatype WriterPc =
    | Insert
    | Collect
    | DropExpired(keys: seq<string>)
    | Cap
    | DropExcess(keys: seq<string>)
    | Snapshot
    | Write(snap: seq<Item>)

  // Deleting a key another thread deleted first raises.
  datatype Move = Moved(cache: seq<Item>, pc: WriterPc) | KeyMissing

  function Drop(cache: seq<Item>, keys: seq<string>): Option<seq<Item>>
    requires keys != []
  {
    if Find(cache, keys[0]).None? then None else Some(Remove(cache, {keys[0]}))
  }

  // Everything up to the write of the file.
  function WriterStep(cache: seq<Item>, w: WriterPc, x: Item, now: int, max: nat): Move {
    match w
    case Insert => Moved(Put(cache, x), Collect)
    case Collect => Moved(cache, DropExpired(ExpiredKeys(cache, now)))
    case DropExpired(keys) =>
      if keys == [] then Moved(cache, Cap)
      else if Drop(cache, keys).None? then KeyMissing
      else Moved(Drop(cache, keys).value, DropExpired(keys[1..]))
    case Cap => Moved(cache, DropExcess(ExcessKeys(cache, max)))
    case DropExcess(keys) =>
      if keys == [] then Moved(cache, Snapshot)
      else if Drop(cache, keys).None? then KeyMissing
      else Moved(Drop(cache, keys).value, DropExcess(keys[1..]))
    case Snapshot => Moved(cache, Write(cache))
    case Write(_) => Moved(cache, w)
  }

  // ---------- Well-formed caches and writers ----------

  ghost predicate Sound(c: seq<Item>) {
    Distinct(c) && forall x :: x in c ==> x.key != ""
  }

  ghost predicate SoundWriter(w: WriterPc) {
    && ((w.DropExpired? || w.DropExcess?) ==> "" !in w.keys)
    && (w.Write? ==> Sound(w.snap))
  }

  lemma {:induction false} WriterStaysSound(cache: seq<Item>, w: WriterPc, x: Item, now: int, max: nat)
    requires Sound(cache) && SoundWriter(w) && x.key != ""
    ensures var m := WriterStep(cache, w, x, now, max); m.Moved? ==> Sound(m.cache) && SoundWriter(m.pc)
  {
    PutProperties(cache, x);
    ExpiredMeaning(cache, now);
    ExcessMeaning(cache, max);
    if (w.DropExpired? || w.DropExcess?) && w.keys != [] {
      RemoveProperties(cache, {w.keys[0]});
    }
  }

  // ---------- Serving a promised response ----------

  // The promise: this response under this key at every instant before `expires`.
  predicate Serves(c: seq<Item>, p: Item) {
    var f := Find(c, p.key);
    f.Some? && f.value.response == p.response && f.value.expires >= p.expires
  }

  // This writer is going to delete the promised key, or to write a file that breaks the promise.
  predicate Threatens(w: WriterPc, p: Item) {
    || ((w.DropExpired? || w.DropExcess?) && p.key in w.keys)
    || (w.Write? && !Serves(w.snap, p))
  }

  // A live entry of this key is in the excess just listed.
  predicate Evicts(cache: seq<Item>, w: WriterPc, now: int, max: nat, key: string) {
    w.Cap? && key in ExcessKeys(cache, max) && Find(cache, key).Some? && now < Find(cache, key).value.expires
  }

  lemma {:induction false} LiveNotExpired(cache: seq<Item>, now: int, p: Item)
    requires Distinct(cache) && Serves(cache, p) && now < p.expires
    ensures p.key !in ExpiredKeys(cache, now)
  {
    ExpiredMeaning(cache, now);
    forall y | y in cache && y.key == p.key ensures now < y.expires {
      FindIsMember(cache, y);
    }
  }

  lemma {:induction false} WriterKeepsServing(cache: seq<Item>, w: WriterPc, x: Item, now: int, clock: int, max: nat, p: Item)
    requires Sound(cache) && Serves(cache, p) && now <= clock < p.expires && !Threatens(w, p)
    requires (w.Insert? ==> x.key != p.key) && !Evicts(cache, w, clock, max, p.key)
    ensures var m := WriterStep(cache, w, x, now, max); m.Moved? ==> Serves(m.cache, p) && !Threatens(m.pc, p)
  {
    match w
    case Insert => FindInPut(cache, x, p.key);
    case Collect => LiveNotExpired(cache, now, p);
    case DropExpired(keys) => if keys != [] { FindInRest(cache, {keys[0]}, p.key); }
    case DropExcess(keys) => if keys != [] { FindInRest(cache, {keys[0]}, p.key); }
    case _ =>
  }

  // A writer of another key does not bring a key back.
  lemma {:induction false} WriterLacks(cache: seq<Item>, w: WriterPc, x: Item, now: int, max: nat, key: string)
    requires Find(cache, key).None? && x.key != key
    ensures var m := WriterStep(cache, w, x, now, max); m.Moved? ==> Find(m.cache, key).None?
  {
    FindInPut(cache, x, key);
    if (w.DropExpired? || w.DropExcess?) && w.keys != [] {
      FindInRest(cache, {w.keys[0]}, key);
    }
  }

  // ---------- A writer nobody interrupts ----------

  function Stage(w: WriterPc): nat {
    match w
    case Insert => 6
    case Collect => 5
    case DropExpired(_) => 4
    case Cap => 3
    case DropExcess(_) => 2
    case Snapshot => 1
    case Write(_) => 0
  }

  function Left(w: WriterPc): nat {
    if w.DropExpired? || w.DropExcess? then |w.keys| else 0
  }

  // The dict it leaves and writes to the file, unless a deletion raises.
  ghost function Outcome(cache: seq<Item>, w: WriterPc, x: Item, now: int, max: nat): Option<seq<Item>>
    decreases Stage(w), Left(w)
  {
    if w.Write? then Some(cache)
    else
      var m := WriterStep(cache, w, x, now, max);
      if m.KeyMissing? then None else Outcome(m.cache, m.pc, x, now, max)
  }

  lemma {:induction false} TailPresent(cache: seq<Item>, keys: seq<string>)
    requires keys != [] && KeySet(keys) <= KeysOf(cache) && forall i, j :: 0 <= i < j < |keys| ==> keys[i] != keys[j]
    ensures KeySet(keys[1..]) <= KeysOf(Remove(cache, {keys[0]}))
  {
    RemoveMembers(cache, {keys[0]});
    forall k | k in keys[1..] ensures k in KeysOf(Remove(cache, {keys[0]})) {
      assert k in KeySet(keys) && k != keys[0];
      var y :| y in cache && y.key == k;
      assert y in Remove(cache, {keys[0]});
    }
  }

  lemma {:induction false} DropsAll(cache: seq<Item>, w: WriterPc, x: Item, now: int, max: nat)
    requires (w.DropExpired? || w.DropExcess?) && KeySet(w.keys) <= KeysOf(cache)
    requires forall i, j :: 0 <= i < j < |w.keys| ==> w.keys[i] != w.keys[j]
    ensures Outcome(cache, w, x, now, max) ==
      Outcome(Remove(cache, KeySet(w.keys)), if w.DropExpired? then Cap else Snapshot, x, now, max)
    decreases |w.keys|
  {
    var keys := w.keys;
    if keys == [] {
      RemoveAbsent(cache, KeySet([]));
    } else {
      assert keys[0] in KeySet(keys);
      var c, rest := Remove(cache, {keys[0]}), if w.DropExpired? then DropExpired(keys[1..]) else DropExcess(keys[1..]);
      assert Find(cache, keys[0]).Some?;
      assert WriterStep(cache, w, x, now, max) == Moved(c, rest);
      TailPresent(cache, keys);
      DropsAll(c, rest, x, now, max);
      RemoveTwice(cache, {keys[0]}, KeySet(keys[1..]));
      assert KeySet(keys) == {keys[0]} + KeySet(keys[1..]);
    }
  }

  // Uninterrupted, the steps make exactly one insertion of the specified cache.
  lemma {:induction false} OutcomeIsInserted(cache: seq<Item>, x: Item, now: int, max: nat)
    requires Distinct(cache)
    ensures Outcome(cache, Insert, x, now, max) == Some(Inserted(cache, x, now, max))
  {
    var put := Put(cache, x);
    PutProperties(cache, x);
    ExpiredMeaning(put, now);
    ExpiredOnce(put, now);
    DropsAll(put, DropExpired(ExpiredKeys(put, now)), x, now, max);
    RemoveExpired(put, now);
    var live := Live(put, now);
    LiveProperties(put, now);
    ExcessMeaning(live, max);
    DropsAll(live, DropExcess(ExcessKeys(live, max)), x, now, max);
    RemoveExcess(live, max);
    assert Outcome(cache, Insert, x, now, max) == Outcome(put, Collect, x, now, max);
    assert Outcome(live, Cap, x, now, max) == Outcome(live, DropExcess(ExcessKeys(live, max)), x, now, max);
    var r := Capped(live, max);
    assert Outcome(r, Snapshot, x, now, max) == Outcome(r, Write(r), x, now, max) == Some(r);
  }

  // A key that is gone, or listed for deletion, is not in the outcome.
  lemma {:induction false} OutcomeLacks(cache: seq<Item>, w: WriterPc, x: Item, now: int, max: nat, key: string)
    requires !w.Insert? && Outcome(cache, w, x, now, max).Some?
    requires Find(cache, key).None? || ((w.DropExpired? || w.DropExcess?) && key in w.keys)
    ensures Find(Outcome(cache, w, x, now, max).value, key).None?
    decreases Stage(w), Left(w)
  {
    if !w.Write? {
      var m := WriterStep(cache, w, x, now, max);
      if (w.DropExpired? || w.DropExcess?) && w.keys != [] {
        FindInRest(cache, {w.keys[0]}, key);
      }
      OutcomeLacks(m.cache, m.pc, x, now, max, key);
    }
  }
}
