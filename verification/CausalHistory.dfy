// Walking the stored message graph backwards from one message.
module CausalHistory {

  datatype StoredMessage = StoredMessage(id: string, refs: seq<string>)

  type MessageStore = map<string, StoredMessage>

  // Messages are stored under their own id.
  predicate WellKeyed(store: MessageStore) {
    forall k :: k in store ==> store[k].id == k
  }

  // v is the start, or referenced through at most n stored messages.
  ghost predicate Within(store: MessageStore, start: string, v: string, n: nat)
    decreases n
  {
    if n == 0 then v == start
    else Within(store, start, v, n - 1) || exists u :: u in store && Within(store, start, u, n - 1) && v in store[u].refs
  }

  ghost predicate Reached(store: MessageStore, start: string, v: string) {
    exists n: nat :: Within(store, start, v, n)
  }

  lemma {:induction false} WithinGrows(store: MessageStore, start: string, v: string, m: nat, n: nat)
    requires Within(store, start, v, m) && m <= n
    ensures Within(store, start, v, n)
    decreases n - m
  {
    if m < n {
      WithinGrows(store, start, v, m + 1, n);
    }
  }

  // The search state: the queue with the distance each entry was found at, and the visited ids with theirs.
  ghost predicate Queued(queue: seq<string>, at: seq<nat>, v: string, d: nat) {
    exists i :: 0 <= i < |queue| && i < |at| && queue[i] == v && at[i] <= d
  }

  ghost predicate Covered(queue: seq<string>, at: seq<nat>, level: map<string, nat>, v: string, d: nat) {
    (v in level && level[v] <= d) || Queued(queue, at, v, d)
  }

  ghost predicate Levels(queue: seq<string>, at: seq<nat>, level: map<string, nat>) {
    && |at| == |queue|
    && (forall i, j :: 0 <= i < j < |at| ==> at[i] <= at[j] <= at[i] + 1)
    && (forall v, i :: v in level && 0 <= i < |at| ==> level[v] <= at[i])
  }

  ghost predicate Search(store: MessageStore, start: string, queue: seq<string>, at: seq<nat>, level: map<string, nat>) {
    && Levels(queue, at, level)
    && (forall i :: 0 <= i < |at| ==> Within(store, start, queue[i], at[i]))
    && (forall v :: v in level ==> Within(store, start, v, level[v]))
    && Covered(queue, at, level, start, 0)
    && (forall u, r :: u in level && u in store && r in store[u].refs ==> Covered(queue, at, level, r, level[u] + 1))
  }

  lemma {:induction false} FinishedSearchIsExact(store: MessageStore, start: string, level: map<string, nat>, v: string, n: nat)
    requires Search(store, start, [], [], level) && Within(store, start, v, n)
    ensures v in level && level[v] <= n
    decreases n
  {
    if n > 0 {
      if Within(store, start, v, n - 1) {
        FinishedSearchIsExact(store, start, level, v, n - 1);
      } else {
        var u :| u in store && Within(store, start, u, n - 1) && v in store[u].refs;
        FinishedSearchIsExact(store, start, level, u, n - 1);
        assert Covered([], [], level, v, level[u] + 1);
      }
    }
  }

  // Dropping the head once its id is visited no later than it was queued.
  lemma {:induction false} DropHead(queue: seq<string>, at: seq<nat>, level: map<string, nat>, v: string, d: nat)
    requires queue != [] && |at| == |queue| && Covered(queue, at, level, v, d)
    requires queue[0] in level && level[queue[0]] <= at[0]
    ensures Covered(queue[1..], at[1..], level, v, d)
  {
    if Queued(queue, at, v, d) && !(v in level && level[v] <= d) {
      var i :| 0 <= i < |queue| && i < |at| && queue[i] == v && at[i] <= d;
      assert i > 0;
      assert queue[1..][i - 1] == v && at[1..][i - 1] <= d;
    }
  }

  lemma {:induction false} SkipVisited(store: MessageStore, start: string, queue: seq<string>, at: seq<nat>, level: map<string, nat>)
    requires Search(store, start, queue, at, level) && queue != [] && queue[0] in level
    ensures Search(store, start, queue[1..], at[1..], level)
  {
    DropHead(queue, at, level, start, 0);
    forall u, r | u in level && u in store && r in store[u].refs
      ensures Covered(queue[1..], at[1..], level, r, level[u] + 1)
    {
      DropHead(queue, at, level, r, level[u] + 1);
    }
  }

  lemma {:induction false} Enqueued(queue: seq<string>, at: seq<nat>, level: map<string, nat>, more: seq<string>, later: seq<nat>, v: string, d: nat)
    requires |at| == |queue| && |later| == |more| && Covered(queue, at, level, v, d)
    ensures Covered(queue + more, at + later, level, v, d)
  {
    if Queued(queue, at, v, d) {
      var i :| 0 <= i < |queue| && i < |at| && queue[i] == v && at[i] <= d;
      assert (queue + more)[i] == v && (at + later)[i] <= d;
    }
  }

  function Unvisited(refs: seq<string>, visited: set<string>): seq<string> {
    if refs == [] then [] else (if refs[0] in visited then [] else [refs[0]]) + Unvisited(refs[1..], visited)
  }

  lemma {:induction false} UnvisitedMembers(refs: seq<string>, visited: set<string>)
    ensures forall r :: r in Unvisited(refs, visited) <==> r in refs && r !in visited
  {
    if refs != [] {
      UnvisitedMembers(refs[1..], visited);
      assert refs == [refs[0]] + refs[1..];
    }
  }

  function Later(at: seq<nat>, more: seq<string>): seq<nat>
    requires at != []
  {
    at[1..] + seq(|more|, _ => at[0] + 1)
  }

  lemma {:induction false} VisitKeepsLevels(queue: seq<string>, at: seq<nat>, level: map<string, nat>, more: seq<string>)
    requires Levels(queue, at, level) && queue != []
    ensures Levels(queue[1..] + more, Later(at, more), level[queue[0] := at[0]])
  {
    var a := Later(at, more);
    forall i | 0 <= i < |a| ensures a[i] == if i < |at| - 1 then at[i + 1] else at[0] + 1 {}
    forall i, j | 0 <= i < j < |a| ensures a[i] <= a[j] <= a[i] + 1 {
      assert i < |at| - 1 ==> at[0] <= at[i + 1] <= at[0] + 1;
      assert j < |at| - 1 ==> at[i + 1] <= at[j + 1] <= at[i + 1] + 1;
    }
    forall v, i | v in level && 0 <= i < |a| ensures level[v] <= a[i] {
      assert level[v] <= at[0];
      assert i < |at| - 1 ==> at[0] <= at[i + 1];
    }
  }

  lemma {:induction false} VisitKeepsCover(queue: seq<string>, at: seq<nat>, level: map<string, nat>, more: seq<string>, v: string, e: nat)
    requires Levels(queue, at, level) && queue != [] && queue[0] !in level && Covered(queue, at, level, v, e)
    ensures Covered(queue[1..] + more, Later(at, more), level[queue[0] := at[0]], v, e)
  {
    var level' := level[queue[0] := at[0]];
    assert Covered(queue, at, level', v, e);
    DropHead(queue, at, level', v, e);
    Enqueued(queue[1..], at[1..], level', more, seq(|more|, _ => at[0] + 1), v, e);
  }

  lemma {:induction false} NewRefCovered(queue: seq<string>, at: seq<nat>, level: map<string, nat>, more: seq<string>, r: string)
    requires |queue| == |at| && queue != [] && r in more
    ensures Covered(queue[1..] + more, Later(at, more), level, r, at[0] + 1)
  {
    var i :| 0 <= i < |more| && more[i] == r;
    var k := |queue| - 1 + i;
    assert (queue[1..] + more)[k] == r && Later(at, more)[k] == at[0] + 1;
  }

  lemma {:induction false} VisitKeepsWithin(store: MessageStore, start: string, queue: seq<string>, at: seq<nat>, more: seq<string>, i: nat)
    requires |at| == |queue| && queue != [] && forall k :: 0 <= k < |at| ==> Within(store, start, queue[k], at[k])
    requires forall r :: r in more ==> queue[0] in store && r in store[queue[0]].refs
    requires i < |Later(at, more)|
    ensures Within(store, start, (queue[1..] + more)[i], Later(at, more)[i])
  {
    if i < |queue| - 1 {
      assert (queue[1..] + more)[i] == queue[i + 1] && Later(at, more)[i] == at[i + 1];
    } else {
      var r := more[i - (|queue| - 1)];
      assert (queue[1..] + more)[i] == r && r in more && Later(at, more)[i] == at[0] + 1;
      assert Within(store, start, queue[0], at[0]);
      assert Within(store, start, r, at[0] + 1);
    }
  }

  // Every reference of a visited message is visited or queued, one further than it.
  lemma {:induction false} RefCovered(store: MessageStore, start: string, queue: seq<string>, at: seq<nat>, level: map<string, nat>, more: seq<string>, u: string, r: string)
    requires Search(store, start, queue, at, level) && queue != [] && queue[0] !in level
    requires u in level[queue[0] := at[0]] && u in store && r in store[u].refs
    requires u == queue[0] && r !in level[queue[0] := at[0]] ==> r in more
    ensures Covered(queue[1..] + more, Later(at, more), level[queue[0] := at[0]], r, level[queue[0] := at[0]][u] + 1)
  {
    if u != queue[0] {
      VisitKeepsCover(queue, at, level, more, r, level[u] + 1);
    } else if r in more {
      NewRefCovered(queue, at, level[queue[0] := at[0]], more, r);
    }
  }

  // Visiting the head at its queued distance and queueing its unvisited references one further.
  lemma {:induction false} VisitHead(store: MessageStore, start: string, queue: seq<string>, at: seq<nat>, level: map<string, nat>, refs: seq<string>)
    requires Search(store, start, queue, at, level) && queue != [] && queue[0] !in level
    requires refs == if queue[0] in store then store[queue[0]].refs else []
    ensures var level' := level[queue[0] := at[0]];
      var more := Unvisited(refs, level'.Keys);
      Search(store, start, queue[1..] + more, Later(at, more), level')
  {
    var c := queue[0];
    var level' := level[c := at[0]];
    var more := Unvisited(refs, level'.Keys);
    UnvisitedMembers(refs, level'.Keys);
    VisitKeepsLevels(queue, at, level, more);
    VisitKeepsCover(queue, at, level, more, start, 0);
    forall i | 0 <= i < |Later(at, more)| ensures Within(store, start, (queue[1..] + more)[i], Later(at, more)[i]) {
      VisitKeepsWithin(store, start, queue, at, more, i);
    }
    forall u, r | u in level' && u in store && r in store[u].refs
      ensures Covered(queue[1..] + more, Later(at, more), level', r, level'[u] + 1)
    {
      RefCovered(store, start, queue, at, level, more, u, r);
    }
  }

  method EnqueueUnvisited(queue: seq<string>, refs: seq<string>, visited: set<string>) returns (q: seq<string>)
    ensures q == queue + Unvisited(refs, visited)
  {
    q := queue;
    for k := 0 to |refs|
      invariant q + Unvisited(refs[k..], visited) == queue + Unvisited(refs, visited)
    {
      assert refs[k..][1..] == refs[k + 1..];
      if refs[k] !in visited {
        q := q + [refs[k]];
      }
    }
    assert q + [] == q;
  }

  // The chain so far: the visited stored messages, once each, by level.
  ghost predicate Collected(store: MessageStore, chain: seq<StoredMessage>, level: map<string, nat>) {
    && (forall m :: m in chain <==> m.id in level && m.id in store && store[m.id] == m)
    && (forall i, j :: 0 <= i < j < |chain| ==> chain[i].id != chain[j].id)
    && (forall i, j :: 0 <= i < j < |chain| && chain[i].id in level && chain[j].id in level ==>
          level[chain[i].id] <= level[chain[j].id])
  }

  lemma {:induction false} CollectHead(store: MessageStore, chain: seq<StoredMessage>, level: map<string, nat>, c: string, d: nat)
    requires WellKeyed(store) && Collected(store, chain, level) && c !in level && forall v :: v in level ==> level[v] <= d
    ensures Collected(store, if c in store then chain + [store[c]] else chain, level[c := d])
  {
    var chain' := if c in store then chain + [store[c]] else chain;
    forall i | 0 <= i < |chain| ensures chain[i].id in level && chain[i].id != c {
      assert chain[i] in chain;
    }
    forall m | m in chain' ensures m.id in level[c := d] && m.id in store && store[m.id] == m {
      assert m in chain || m == store[c];
    }
    forall m: StoredMessage | m.id in level[c := d] && m.id in store && store[m.id] == m ensures m in chain' {
      assert m.id in level ==> m in chain;
    }
  }

  lemma {:induction false} CollectedIsAnswer(store: MessageStore, start: string, chain: seq<StoredMessage>, level: map<string, nat>)
    requires Search(store, start, [], [], level) && Collected(store, chain, level)
    ensures forall m :: m in chain <==> m.id in store && store[m.id] == m && Reached(store, start, m.id)
    ensures forall i, j, n: nat :: 0 <= i < j < |chain| && Within(store, start, chain[j].id, n) ==> Within(store, start, chain[i].id, n)
  {
    forall m: StoredMessage | m in chain ensures Reached(store, start, m.id) {
      assert Within(store, start, m.id, level[m.id]);
    }
    forall v, n: nat | Within(store, start, v, n) ensures v in level && level[v] <= n {
      FinishedSearchIsExact(store, start, level, v, n);
    }
    forall m: StoredMessage | m.id in store && store[m.id] == m && Reached(store, start, m.id) ensures m in chain {
      var n: nat :| Within(store, start, m.id, n);
      assert m.id in level;
    }
    forall i, j, n: nat | 0 <= i < j < |chain| && Within(store, start, chain[j].id, n) ensures Within(store, start, chain[i].id, n) {
      assert chain[i] in chain && chain[j] in chain;
      WithinGrows(store, start, chain[i].id, level[chain[i].id], n);
    }
  }

  // One visit: the head is marked, collected if stored, and its references queued.
  method Visit(store: MessageStore, ghost start: string, queue: seq<string>, visited: set<string>, chain: seq<StoredMessage>,
               ghost at: seq<nat>, ghost level: map<string, nat>)
    returns (queue': seq<string>, visited': set<string>, chain': seq<StoredMessage>, ghost at': seq<nat>, ghost level': map<string, nat>)
    requires WellKeyed(store) && queue != [] && queue[0] !in visited && visited == level.Keys
    requires Search(store, start, queue, at, level) && Collected(store, chain, level)
    ensures Search(store, start, queue', at', level') && Collected(store, chain', level') && visited' == level'.Keys
    ensures visited' == visited + {queue[0]}
    ensures queue[0] !in store ==> queue' == queue[1..]
  {
    var current := queue[0];
    ghost var refs := if current in store then store[current].refs else [];
    VisitHead(store, start, queue, at, level, refs);
    CollectHead(store, chain, level, current, at[0]);
    level' := level[current := at[0]];
    visited' := visited + {current};
    assert visited' == level'.Keys;
    at' := Later(at, Unvisited(refs, visited'));
    queue', chain' := queue[1..], chain;
    if current in store {
      chain' := chain' + [store[current]];
      queue' := EnqueueUnvisited(queue', store[current].refs, visited');
    } else {
      assert queue' + [] == queue';
    }
  }

  lemma {:induction false} StartSearch(store: MessageStore, start: string)
    ensures Search(store, start, [start], [0], map[]) && Collected(store, [], map[])
  {
    assert [start][0] == start && [0 as nat][0] == 0;
  }

  method Explore(store: MessageStore, msgId: string) returns (chain: seq<StoredMessage>, ghost level: map<string, nat>)
    requires WellKeyed(store)
    ensures Search(store, msgId, [], [], level) && Collected(store, chain, level)
  {
    chain := [];
    var visited: set<string> := {};
    var queue := [msgId];
    ghost var at: seq<nat> := [0];
    level := map[];
    StartSearch(store, msgId);
    while queue != []
      invariant Search(store, msgId, queue, at, level) && visited == level.Keys && Collected(store, chain, level)
      decreases store.Keys - visited, |queue|
    {
      if queue[0] in visited {
        SkipVisited(store, msgId, queue, at, level);
        queue, at := queue[1..], at[1..];
      } else {
        ghost var before, current := store.Keys - visited, queue[0];
        queue, visited, chain, at, level := Visit(store, msgId, queue, visited, chain, at, level);
        assert store.Keys - visited == before - {current};
      }
    }
    assert at == [];
  }

  // Each stored message the start reaches through stored messages, once, nearest first.
  method GetCausalChain(store: MessageStore, msgId: string) returns (chain: seq<StoredMessage>)
    requires WellKeyed(store)
    ensures forall i, j :: 0 <= i < j < |chain| ==> chain[i].id != chain[j].id
    ensures forall m :: m in chain <==> m.id in store && store[m.id] == m && Reached(store, msgId, m.id)
    ensures forall i, j, n: nat :: 0 <= i < j < |chain| && Within(store, msgId, chain[j].id, n) ==> Within(store, msgId, chain[i].id, n)
  {
    ghost var level;
    chain, level := Explore(store, msgId);
    CollectedIsAnswer(store, msgId, chain, level);
  }
}
