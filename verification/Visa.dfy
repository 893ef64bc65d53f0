// Visa issuance: the per-peer sliding window, the default policy, and the
// interleaving of any number of issuing threads.
module Visa {
  import opened Wrappers
  import opened Crypto
  import opened CaveatValues
  import opened Timestamps
  import opened Capability

  const MAX_PAYLOAD_BYTES := 4096
  const MAX_COMPUTE_MS := 100
  const RATE_LIMIT := 5
  const RATE_WINDOW := 60.0
  const EXPIRY_SECONDS := 30

  // ---------- Grant times ----------

  ghost predicate Ascending(h: seq<real>) {
    forall i, j :: 0 <= i < j < |h| ==> h[i] <= h[j]
  }

  // The grants at or after a cutoff.
  ghost function Since(h: seq<real>, cutoff: real): seq<real> {
    if h == [] then [] else (if h[0] >= cutoff then [h[0]] else []) + Since(h[1..], cutoff)
  }

  // How many grants fall in a closed interval.
  ghost function Within(h: seq<real>, from: real, to: real): nat {
    if h == [] then 0 else (if from <= h[0] <= to then 1 else 0) + Within(h[1..], from, to)
  }

  // Popping from the left while the head is before the cutoff.
  function DropBefore(q: seq<real>, cutoff: real): seq<real> {
    if q != [] && q[0] < cutoff then DropBefore(q[1..], cutoff) else q
  }

  lemma {:induction false} PruneIsFilter(q: seq<real>, cutoff: real)
    requires Ascending(q)
    ensures DropBefore(q, cutoff) == Since(q, cutoff)
  {
    if q != [] {
      PruneIsFilter(q[1..], cutoff);
      if q[0] >= cutoff {
        PruneKeepsAll(q, cutoff);
      }
    }
  }

  lemma {:induction false} PruneKeepsAll(q: seq<real>, cutoff: real)
    requires forall i :: 0 <= i < |q| ==> q[i] >= cutoff
    ensures Since(q, cutoff) == q
  {
    if q != [] {
      PruneKeepsAll(q[1..], cutoff);
    }
  }

  lemma {:induction false} SinceTwice(h: seq<real>, c: real, d: real)
    requires c <= d
    ensures Since(Since(h, c), d) == Since(h, d)
    ensures |Since(h, d)| <= |Since(h, c)|
  {
    if h != [] {
      SinceTwice(h[1..], c, d);
      var tail := Since(h[1..], c);
      if h[0] >= c {
        assert Since(h, c)[1..] == tail;
      } else {
        assert Since(h, c) == tail;
      }
    }
  }

  lemma {:induction false} SinceAscends(h: seq<real>, c: real)
    requires Ascending(h)
    ensures Ascending(Since(h, c)) && forall x :: x in Since(h, c) ==> x in h
  {
    if h != [] {
      SinceAscends(h[1..], c);
      var tail := Since(h[1..], c);
      forall i | 0 <= i < |tail| ensures h[0] <= tail[i] {
        assert tail[i] in tail;
      }
    }
  }

  lemma {:induction false} SinceExtends(h: seq<real>, t: real, c: real)
    ensures Since(h + [t], c) == Since(h, c) + if t >= c then [t] else []
  {
    if h == [] {
      assert h + [t] == [t] && [t][1..] == [];
    } else {
      SinceExtends(h[1..], t, c);
      assert (h + [t])[1..] == h[1..] + [t];
    }
  }

  lemma {:induction false} WithinExtends(h: seq<real>, t: real, from: real, to: real)
    ensures Within(h + [t], from, to) == Within(h, from, to) + if from <= t <= to then 1 else 0
    ensures Within(h, from, to) <= |Since(h, from)|
  {
    if h == [] {
      assert h + [t] == [t] && [t][1..] == [];
    } else {
      WithinExtends(h[1..], t, from, to);
      assert (h + [t])[1..] == h[1..] + [t];
    }
  }

  // ---------- The tracker ----------

  class Lock {
    constructor () {}
  }

  function At(m: map<string, seq<real>>, peer: string): seq<real> {
    if peer in m then m[peer] else []
  }

  class VisaIssuanceTracker {
    var windowSeconds: real
    var perPeerLocks: map<string, Lock>
    var issuanceTimes: map<string, seq<real>>

    ghost predicate Valid()
      reads this
    {
      forall p, q :: p in perPeerLocks && q in perPeerLocks && p != q ==> perPeerLocks[p] != perPeerLocks[q]
    }

    constructor (window: real)
      ensures Valid() && windowSeconds == window && perPeerLocks == map[] && issuanceTimes == map[]
    {
      windowSeconds, perPeerLocks, issuanceTimes := window, map[], map[];
    }

    // One lock per peer for the tracker's lifetime, never shared between peers.
    method LockFor(peer: string) returns (lock: Lock)
      requires Valid()
      modifies this`perPeerLocks
      ensures Valid() && perPeerLocks == old(perPeerLocks)[peer := lock]
      ensures if peer in old(perPeerLocks) then lock == old(perPeerLocks)[peer] else fresh(lock)
    {
      if peer in perPeerLocks {
        lock := perPeerLocks[peer];
      } else {
        lock := new Lock();
        perPeerLocks := perPeerLocks[peer := lock];
      }
    }

    method RecentCount(peer: string, now: real) returns (count: nat)
      modifies this`issuanceTimes
      ensures issuanceTimes == old(issuanceTimes)[peer := DropBefore(At(old(issuanceTimes), peer), now - windowSeconds)]
      ensures count == |issuanceTimes[peer]|
      ensures Ascending(At(old(issuanceTimes), peer)) ==>
        issuanceTimes[peer] == Since(At(old(issuanceTimes), peer), now - windowSeconds)
    {
      var cutoff := now - windowSeconds;
      var q := At(issuanceTimes, peer);
      while q != [] && q[0] < cutoff
        invariant DropBefore(q, cutoff) == DropBefore(At(issuanceTimes, peer), cutoff)
      {
        q := q[1..];
      }
      if Ascending(At(issuanceTimes, peer)) {
        PruneIsFilter(At(issuanceTimes, peer), cutoff);
      }
      issuanceTimes := issuanceTimes[peer := q];
      count := |q|;
    }

    method Record(peer: string, now: real)
      modifies this`issuanceTimes
      ensures issuanceTimes == old(issuanceTimes)[peer := At(old(issuanceTimes), peer) + [now]]
    {
      issuanceTimes := issuanceTimes[peer := At(issuanceTimes, peer) + [now]];
    }
  }

  // ---------- The default policy ----------

  datatype HandlerCost = HandlerCost(payloadBytes: int, computeMs: int, idempotent: bool)

  datatype Registry = Registry(eligible: set<string>, costs: map<string, HandlerCost>)

  datatype VisaContext = VisaContext(action: string, peer: string, recentCount: nat)

  datatype RefuseReason = PeerUnobservable | NotEligible | NonIdempotent | PayloadCeiling | ComputeCeiling | RateCeiling

  datatype VisaDecision = Grant(caveats: seq<Caveat>) | Refuse(reason: RefuseReason)

  function CostOf(reg: Registry, action: string): HandlerCost {
    if action in reg.costs then reg.costs[action] else HandlerCost(MAX_PAYLOAD_BYTES, MAX_COMPUTE_MS, true)
  }

  function Refusal(reg: Registry, ctx: VisaContext): Option<RefuseReason> {
    var cost := CostOf(reg, ctx.action);
    if ctx.peer == "unknown" then Some(PeerUnobservable)
    else if ctx.action !in reg.eligible then Some(NotEligible)
    else if !cost.idempotent then Some(NonIdempotent)
    else if cost.payloadBytes > MAX_PAYLOAD_BYTES then Some(PayloadCeiling)
    else if cost.computeMs > MAX_COMPUTE_MS then Some(ComputeCeiling)
    else if ctx.recentCount >= RATE_LIMIT then Some(RateCeiling)
    else None
  }

  // The UTC wall clock in seconds since 0001-01-01, thirty seconds from its end at the latest.
  type WallClock = n: nat | n + EXPIRY_SECONDS < DAYS * DAY_SECONDS

  // Expiries are printed with a T, no fraction and offset zero.
  function DefaultPolicy(reg: Registry, ctx: VisaContext, now: WallClock): VisaDecision {
    var refusal := Refusal(reg, ctx);
    if refusal.Some? then Refuse(refusal.value)
    else Grant([Caveat(Expires(IsoTime(now + EXPIRY_SECONDS, [], 'T', UTC)), false),
                Caveat(MaxInvocations(1), false),
                Caveat(Other("no_further_delegation", Atom("true")), true)])
  }

  function IssueVisa(key: PrivateKey, issuer: AgentId, holder: AgentId, action: string, caveats: seq<Caveat>,
                     capId: CapId, nonce: string, fingerprint: Option<KeyDigest>): Token
  {
    var t := Token(capId, issuer, holder, action, caveats, None, [], false, true, Some(nonce), fingerprint, Malformed(""));
    t.(signature := Sign(Signable(t), key))
  }

  // ---------- Concurrent issuance ----------

  type Tid = nat

  // Where a thread is in the issuance section. From `Holding` to `Approved` it owns its peer's lock.
  datatype Phase =
    | Idle
    | Waiting(peer: string, action: string)
    | Holding(peer: string, action: string)
    | Counted(peer: string, action: string, count: nat, at: real)
    | Approved(peer: string, at: real)

  ghost predicate Owns(ph: Phase) {
    ph.Holding? || ph.Counted? || ph.Approved?
  }

  // `grants` is every grant this process recorded and `earlier` every one before it; `pruned` is each peer's
  // last pruning cutoff. The tracker is kept in memory only.
  datatype State = State(
    clock: real, threads: map<Tid, Phase>, lockOwner: map<string, Tid>, times: map<string, seq<real>>,
    grants: map<string, seq<real>>, pruned: map<string, real>, earlier: map<string, seq<real>>)

  datatype Step =
    | Tick(elapsed: real)
    | Request(tid: Tid, peer: string, action: string)
    | Acquire(tid: Tid)
    | Count(tid: Tid)
    | Decide(tid: Tid)
    | Record(tid: Tid)
    | Abort(tid: Tid)
    | Restart

  ghost function PhaseOf(s: State, tid: Tid): Phase {
    if tid in s.threads then s.threads[tid] else Idle
  }

  // Every grant ever recorded for a peer.
  ghost function Ever(s: State, p: string): seq<real> {
    At(s.earlier, p) + At(s.grants, p)
  }

  ghost function Release(s: State, tid: Tid, peer: string): State {
    s.(threads := s.threads[tid := Idle], lockOwner := s.lockOwner - {peer})
  }

  // One atomic step of one thread, or the passing of time; a step that is not enabled changes nothing.
  ghost function Next(reg: Registry, s: State, step: Step): State {
    match step
    case Tick(d) => if d > 0.0 then s.(clock := s.clock + d) else s
    case Request(tid, peer, action) =>
      if PhaseOf(s, tid).Idle? then s.(threads := s.threads[tid := Waiting(peer, action)]) else s
    case Acquire(tid) => (
      match PhaseOf(s, tid)
      case Waiting(peer, action) =>
        if peer in s.lockOwner then s
        else s.(threads := s.threads[tid := Holding(peer, action)], lockOwner := s.lockOwner[peer := tid])
      case _ => s)
    case Count(tid) => (
      match PhaseOf(s, tid)
      case Holding(peer, action) =>
        var q := DropBefore(At(s.times, peer), s.clock - RATE_WINDOW);
        s.(threads := s.threads[tid := Counted(peer, action, |q|, s.clock)],
           times := s.times[peer := q], pruned := s.pruned[peer := s.clock - RATE_WINDOW])
      case _ => s)
    case Decide(tid) => (
      match PhaseOf(s, tid)
      case Counted(peer, action, count, at) =>
        if Refusal(reg, VisaContext(action, peer, count)).None?
        then s.(threads := s.threads[tid := Approved(peer, at)])
        else Release(s, tid, peer)
      case _ => s)
    case Record(tid) => (
      match PhaseOf(s, tid)
      case Approved(peer, _) =>
        Release(s, tid, peer).(
          times := s.times[peer := At(s.times, peer) + [s.clock]],
          grants := s.grants[peer := At(s.grants, peer) + [s.clock]])
      case _ => s)
    // The policy or the store raised: the lock is released and nothing recorded.
    case Abort(tid) => if Owns(PhaseOf(s, tid)) then Release(s, tid, PhaseOf(s, tid).peer) else s
    case Restart => State(s.clock, map[], map[], map[], map[], map[], map p | p in s.earlier.Keys + s.grants.Keys :: Ever(s, p))
  }

  ghost function Run(reg: Registry, s: State, steps: seq<Step>): State
    decreases |steps|
  {
    if steps == [] then s else Run(reg, Next(reg, s, steps[0]), steps[1..])
  }

  ghost function Start(clock: real): State {
    State(clock, map[], map[], map[], map[], map[], map[])
  }

  ghost predicate Locked(s: State) {
    forall tid :: tid in s.threads && Owns(s.threads[tid]) ==>
      s.threads[tid].peer in s.lockOwner && s.lockOwner[s.threads[tid].peer] == tid
  }

  ghost predicate Exact(s: State, p: string) {
    && Ascending(At(s.grants, p))
    && (forall i :: 0 <= i < |At(s.grants, p)| ==> At(s.grants, p)[i] <= s.clock)
    && (if p in s.pruned then s.pruned[p] <= s.clock - RATE_WINDOW && At(s.times, p) == Since(At(s.grants, p), s.pruned[p])
        else At(s.times, p) == At(s.grants, p))
  }

  ghost function InWindow(h: seq<real>, from: real): nat {
    Within(h, from, from + RATE_WINDOW)
  }

  ghost predicate Ceiling(h: seq<real>) {
    forall from: real :: InWindow(h, from) <= RATE_LIMIT
  }

  ghost predicate CountedRight(s: State, ph: Phase) {
    && (ph.Counted? ==> ph.at <= s.clock && ph.count == |Since(At(s.grants, ph.peer), ph.at - RATE_WINDOW)|)
    && (ph.Approved? ==> ph.at <= s.clock && |Since(At(s.grants, ph.peer), ph.at - RATE_WINDOW)| < RATE_LIMIT)
  }

  ghost predicate Inv(s: State) {
    && Locked(s)
    && (forall p: string :: Exact(s, p))
    && (forall tid :: tid in s.threads ==> CountedRight(s, s.threads[tid]))
    && (forall p: string :: Ceiling(At(s.grants, p)))
  }

  lemma {:induction false} CountKeepsExact(s: State, s': State, peer: string)
    requires Exact(s, peer) && s'.grants == s.grants && s'.clock == s.clock
    requires s'.times == s.times[peer := DropBefore(At(s.times, peer), s.clock - RATE_WINDOW)]
    requires s'.pruned == s.pruned[peer := s.clock - RATE_WINDOW]
    ensures Exact(s', peer)
  {
    var cutoff := s.clock - RATE_WINDOW;
    var h := At(s.grants, peer);
    SinceTwice(h, if peer in s.pruned then s.pruned[peer] else cutoff, cutoff);
    SinceAscends(h, if peer in s.pruned then s.pruned[peer] else cutoff);
    PruneIsFilter(At(s.times, peer), cutoff);
  }

  lemma {:induction false} CountKeepsInv(reg: Registry, s: State, tid: Tid)
    requires Inv(s) && PhaseOf(s, tid).Holding?
    ensures Inv(Next(reg, s, Count(tid)))
  {
    var peer := PhaseOf(s, tid).peer;
    var s' := Next(reg, s, Count(tid));
    CountKeepsExact(s, s', peer);
    forall p: string ensures Exact(s', p) {
      assert Exact(s, p);
      assert p != peer ==> At(s'.times, p) == At(s.times, p);
    }
    forall t | t in s'.threads ensures CountedRight(s', s'.threads[t]) {
      assert t != tid ==> CountedRight(s, s.threads[t]);
    }
  }

  lemma {:induction false} GrantKeepsCeiling(h: seq<real>, t: real, at: real)
    requires Ceiling(h) && at <= t && |Since(h, at - RATE_WINDOW)| < RATE_LIMIT
    ensures Ceiling(h + [t])
  {
    forall from: real ensures InWindow(h + [t], from) <= RATE_LIMIT {
      WithinExtends(h, t, from, from + RATE_WINDOW);
      assert InWindow(h, from) <= RATE_LIMIT;
      if from <= t <= from + RATE_WINDOW {
        SinceTwice(h, at - RATE_WINDOW, from);
      }
    }
  }

  lemma {:induction false} RecordKeepsExact(s: State, s': State, peer: string)
    requires Exact(s, peer) && s'.pruned == s.pruned && s'.clock == s.clock
    requires s'.grants == s.grants[peer := At(s.grants, peer) + [s.clock]] && s'.times == s.times[peer := At(s.times, peer) + [s.clock]]
    ensures Exact(s', peer)
  {
    if peer in s.pruned {
      SinceExtends(At(s.grants, peer), s.clock, s.pruned[peer]);
    }
  }

  lemma {:induction false} RecordKeepsInv(reg: Registry, s: State, tid: Tid)
    requires Inv(s) && PhaseOf(s, tid).Approved?
    ensures Inv(Next(reg, s, Record(tid)))
  {
    var ph := PhaseOf(s, tid);
    var peer, h := ph.peer, At(s.grants, ph.peer);
    var s' := Next(reg, s, Record(tid));
    assert Exact(s, peer) && CountedRight(s, ph);
    assert At(s'.grants, peer) == h + [s.clock] && At(s'.times, peer) == At(s.times, peer) + [s.clock];
    GrantKeepsCeiling(h, s.clock, ph.at);
    RecordKeepsExact(s, s', peer);
    forall p: string ensures Exact(s', p) && Ceiling(At(s'.grants, p)) {
      assert Exact(s, p) && Ceiling(At(s.grants, p));
      if p != peer {
        assert At(s'.grants, p) == At(s.grants, p) && At(s'.times, p) == At(s.times, p);
      }
    }
    RecordKeepsCounts(reg, s, tid);
  }

  // The lock keeps every other peer's counted threads right, and excludes another thread of this peer.
  lemma {:induction false} RecordKeepsCounts(reg: Registry, s: State, tid: Tid)
    requires Inv(s) && PhaseOf(s, tid).Approved?
    ensures var s' := Next(reg, s, Record(tid)); forall t :: t in s'.threads ==> CountedRight(s', s'.threads[t])
  {
    var peer, s' := PhaseOf(s, tid).peer, Next(reg, s, Record(tid));
    forall t | t in s'.threads ensures CountedRight(s', s'.threads[t]) {
      if t != tid && Owns(s.threads[t]) {
        assert s.threads[t].peer != peer;
        assert CountedRight(s, s.threads[t]);
        assert At(s'.grants, s.threads[t].peer) == At(s.grants, s.threads[t].peer);
      }
    }
  }

  lemma {:induction false} FrameKeepsInv(s: State, s': State)
    requires Inv(s) && Locked(s')
    requires s'.grants == s.grants && s'.times == s.times && s'.pruned == s.pruned && s'.clock >= s.clock
    requires forall t :: t in s'.threads ==> CountedRight(s, s'.threads[t])
    ensures Inv(s')
  {
    forall p: string ensures Exact(s', p) {
      assert Exact(s, p);
    }
    forall t | t in s'.threads ensures CountedRight(s', s'.threads[t]) {
      assert CountedRight(s, s'.threads[t]);
    }
  }

  // One thread moves on without touching the tracker; lock ownership stays consistent.
  lemma {:induction false} MoveKeepsInv(s: State, s': State, tid: Tid, ph: Phase)
    requires Inv(s) && CountedRight(s, ph)
    requires s' == s.(threads := s.threads[tid := ph], lockOwner := s'.lockOwner)
    requires Owns(ph) ==> ph.peer in s'.lockOwner && s'.lockOwner[ph.peer] == tid
    requires forall p :: p in s.lockOwner && s.lockOwner[p] != tid ==> p in s'.lockOwner && s'.lockOwner[p] == s.lockOwner[p]
    ensures Inv(s')
  {
    forall t | t in s'.threads ensures CountedRight(s, s'.threads[t]) {
      assert t != tid ==> t in s.threads && CountedRight(s, s.threads[t]);
    }
    FrameKeepsInv(s, s');
  }

  lemma {:induction false} DecideKeepsInv(reg: Registry, s: State, tid: Tid)
    requires Inv(s) && PhaseOf(s, tid).Counted?
    ensures Inv(Next(reg, s, Decide(tid)))
  {
    var ph := PhaseOf(s, tid);
    var s' := Next(reg, s, Decide(tid));
    assert CountedRight(s, ph);
    MoveKeepsInv(s, s', tid, s'.threads[tid]);
  }

  lemma {:induction false} FreshInv(s: State)
    requires s.threads == map[] && s.lockOwner == map[] && s.times == map[] && s.grants == map[] && s.pruned == map[]
    ensures Inv(s)
  {
    assert forall h: seq<real> :: h == [] ==> Ceiling(h);
  }

  lemma {:induction false} StepKeepsInv(reg: Registry, s: State, step: Step)
    requires Inv(s)
    ensures Inv(Next(reg, s, step))
  {
    var s' := Next(reg, s, step);
    if s' == s {
    } else if step.Count? {
      CountKeepsInv(reg, s, step.tid);
    } else if step.Record? {
      RecordKeepsInv(reg, s, step.tid);
    } else if step.Decide? {
      DecideKeepsInv(reg, s, step.tid);
    } else if step.Tick? {
      FrameKeepsInv(s, s');
    } else if step.Restart? {
      FreshInv(s');
    } else {
      MoveKeepsInv(s, s', step.tid, s'.threads[step.tid]);
    }
  }

  lemma {:induction false} RunKeepsInv(reg: Registry, s: State, steps: seq<Step>)
    requires Inv(s)
    ensures Inv(Run(reg, s, steps))
    decreases |steps|
  {
    if steps != [] {
      StepKeepsInv(reg, s, steps[0]);
      RunKeepsInv(reg, Next(reg, s, steps[0]), steps[1..]);
    }
  }

  // One request served without interruption: the lock taken, `elapsed` seconds between count and record.
  ghost function Issuance(reg: Registry, s: State, tid: Tid, peer: string, action: string, elapsed: real): State {
    FromCount(reg, UpToCount(reg, s, tid, peer, action), tid, elapsed)
  }

  ghost function UpToCount(reg: Registry, s: State, tid: Tid, peer: string, action: string): State {
    Next(reg, Next(reg, Next(reg, s, Request(tid, peer, action)), Acquire(tid)), Count(tid))
  }

  ghost function FromCount(reg: Registry, s: State, tid: Tid, elapsed: real): State {
    var decided := Next(reg, s, Decide(tid));
    if PhaseOf(decided, tid).Approved? then Next(reg, Next(reg, decided, Tick(elapsed)), Record(tid)) else decided
  }

  lemma {:induction false} CountedOutcome(reg: Registry, s: State, tid: Tid, peer: string, action: string)
    requires PhaseOf(s, tid).Idle? && peer !in s.lockOwner
    ensures var q, c := DropBefore(At(s.times, peer), s.clock - RATE_WINDOW), UpToCount(reg, s, tid, peer, action);
      && PhaseOf(c, tid) == Counted(peer, action, |q|, s.clock)
      && c.times == s.times[peer := q] && c.grants == s.grants && c.clock == s.clock
  {
    var held := Next(reg, Next(reg, s, Request(tid, peer, action)), Acquire(tid));
    assert PhaseOf(held, tid) == Holding(peer, action) && held.times == s.times && held.grants == s.grants && held.clock == s.clock;
  }

  lemma {:induction false} DecidedOutcome(reg: Registry, c: State, tid: Tid, elapsed: real)
    requires PhaseOf(c, tid).Counted? && elapsed > 0.0
    ensures var ph, s' := PhaseOf(c, tid), FromCount(reg, c, tid, elapsed);
      if Refusal(reg, VisaContext(ph.action, ph.peer, ph.count)).None?
      then s'.times == c.times[ph.peer := At(c.times, ph.peer) + [c.clock + elapsed]]
        && At(s'.grants, ph.peer) == At(c.grants, ph.peer) + [c.clock + elapsed]
      else s'.times == c.times && s'.grants == c.grants
  {
  }

  // What the issuance section leaves in a peer's deque.
  ghost function ServedTimes(reg: Registry, times: map<string, seq<real>>, peer: string, action: string, now: real, elapsed: real): map<string, seq<real>> {
    var q := DropBefore(At(times, peer), now - RATE_WINDOW);
    times[peer := if Refusal(reg, VisaContext(action, peer, |q|)).None? then q + [now + elapsed] else q]
  }

  // The served request is the machine's uninterrupted issuance.
  lemma {:induction false} IssuanceOutcome(reg: Registry, s: State, tid: Tid, peer: string, action: string, elapsed: real)
    requires elapsed > 0.0 && PhaseOf(s, tid).Idle? && peer !in s.lockOwner
    ensures Issuance(reg, s, tid, peer, action, elapsed).times == ServedTimes(reg, s.times, peer, action, s.clock, elapsed)
  {
    var c := UpToCount(reg, s, tid, peer, action);
    CountedOutcome(reg, s, tid, peer, action);
    DecidedOutcome(reg, c, tid, elapsed);
    var q := c.times[peer];
    assert s.times[peer := q][peer := q + [s.clock + elapsed]] == s.times[peer := q + [s.clock + elapsed]];
  }

  // The issuance section of a visa request: count, decide and record under the peer's lock.
  method HandleVisaRequest(reg: Registry, tracker: VisaIssuanceTracker, peer: string, action: string, now: real, wall: WallClock, elapsed: real)
    returns (decision: VisaDecision)
    requires tracker.Valid() && tracker.windowSeconds == RATE_WINDOW
    modifies tracker
    ensures tracker.Valid() && tracker.windowSeconds == RATE_WINDOW
    ensures tracker.issuanceTimes == ServedTimes(reg, old(tracker.issuanceTimes), peer, action, now, elapsed)
    ensures decision == DefaultPolicy(reg, VisaContext(action, peer, |DropBefore(At(old(tracker.issuanceTimes), peer), now - RATE_WINDOW)|), wall)
  {
    var lock := tracker.LockFor(peer);
    var recentCount := tracker.RecentCount(peer, now);
    decision := DefaultPolicy(reg, VisaContext(action, peer, recentCount), wall);
    if decision.Grant? {
      tracker.Record(peer, now + elapsed);
    }
  }

  // In every interleaving, for every peer and every closed sixty-second interval, each process
  // records at most five default-policy visas; and the pruned deque is the process's whole grant
  // history for the peer filtered at the last pruning cutoff.
  lemma {:induction false} SlidingWindowCeiling(reg: Registry, clock: real, steps: seq<Step>, peer: string, from: real)
    ensures var s := Run(reg, Start(clock), steps);
      && Within(At(s.grants, peer), from, from + 60.0) <= 5
      && At(s.times, peer) == if peer in s.pruned then Since(At(s.grants, peer), s.pruned[peer]) else At(s.grants, peer)
  {
    FreshInv(Start(clock));
    RunKeepsInv(reg, Start(clock), steps);
    var s := Run(reg, Start(clock), steps);
    assert Exact(s, peer) && Ceiling(At(s.grants, peer));
    assert InWindow(At(s.grants, peer), from) <= RATE_LIMIT;
  }

  // ---------- Across restarts ----------

  function Restarts(steps: seq<Step>): nat {
    if steps == [] then 0 else (if steps[0].Restart? then 1 else 0) + Restarts(steps[1..])
  }

  lemma {:induction false} WithinAdds(a: seq<real>, b: seq<real>, from: real, to: real)
    ensures Within(a + b, from, to) == Within(a, from, to) + Within(b, from, to)
  {
    if a == [] {
      assert a + b == b;
    } else {
      WithinAdds(a[1..], b, from, to);
      assert (a + b)[1..] == a[1..] + b;
    }
  }

  ghost predicate EarlierBound(s: State, n: nat) {
    forall p: string, from: real :: InWindow(At(s.earlier, p), from) <= RATE_LIMIT * n
  }

  lemma {:induction false} StepKeepsBound(reg: Registry, s: State, step: Step, n: nat)
    requires Inv(s) && EarlierBound(s, n)
    ensures EarlierBound(Next(reg, s, step), n + if step.Restart? then 1 else 0)
  {
    var s' := Next(reg, s, step);
    if step.Restart? {
      forall p: string, from: real ensures InWindow(At(s'.earlier, p), from) <= RATE_LIMIT * (n + 1) {
        EverBound(s, n, p, from);
        assert p !in s.earlier && p !in s.grants ==> Ever(s, p) == [];
        assert At(s'.earlier, p) == Ever(s, p);
      }
    } else {
      assert s'.earlier == s.earlier;
    }
  }

  lemma {:induction false} EverBound(s: State, n: nat, p: string, from: real)
    requires Inv(s) && EarlierBound(s, n)
    ensures InWindow(Ever(s, p), from) <= RATE_LIMIT * (n + 1)
  {
    WithinAdds(At(s.earlier, p), At(s.grants, p), from, from + RATE_WINDOW);
    assert Ceiling(At(s.grants, p));
    assert InWindow(At(s.grants, p), from) <= RATE_LIMIT && InWindow(At(s.earlier, p), from) <= RATE_LIMIT * n;
  }

  lemma {:induction false} RunKeepsBound(reg: Registry, s: State, steps: seq<Step>, n: nat)
    requires Inv(s) && EarlierBound(s, n)
    ensures EarlierBound(Run(reg, s, steps), n + Restarts(steps))
    decreases |steps|
  {
    if steps != [] {
      StepKeepsInv(reg, s, steps[0]);
      StepKeepsBound(reg, s, steps[0], n);
      RunKeepsBound(reg, Next(reg, s, steps[0]), steps[1..], n + if steps[0].Restart? then 1 else 0);
    }
  }

  // Over a run with n restarts, at most five times n + 1 visas per peer in any closed minute.
  lemma {:induction false} CeilingAcrossRestarts(reg: Registry, clock: real, steps: seq<Step>, peer: string, from: real)
    ensures Within(Ever(Run(reg, Start(clock), steps), peer), from, from + 60.0) <= 5 * (Restarts(steps) + 1)
  {
    FreshInv(Start(clock));
    RunKeepsInv(reg, Start(clock), steps);
    RunKeepsBound(reg, Start(clock), steps, 0);
    EverBound(Run(reg, Start(clock), steps), Restarts(steps), peer, from);
  }

  // ---------- The bound across restarts is reached ----------

  lemma {:induction false} RunOn(reg: Registry, s: State, a: seq<Step>, b: seq<Step>)
    ensures Run(reg, s, a + b) == Run(reg, Run(reg, s, a), b) && Restarts(a + b) == Restarts(a) + Restarts(b)
    decreases |a|
  {
    if a == [] {
      assert a + b == b;
    } else {
      assert (a + b)[0] == a[0] && (a + b)[1..] == a[1..] + b;
      RunOn(reg, Next(reg, s, a[0]), a[1..], b);
    }
  }

  // A process that has granted this peer k visas, all at this instant, and holds no lock.
  ghost predicate GrantedNow(s: State, peer: string, k: nat) {
    && PhaseOf(s, 0).Idle? && peer !in s.lockOwner
    && At(s.times, peer) == At(s.grants, peer) == seq(k, i => s.clock)
  }

  predicate Grantable(reg: Registry, peer: string, action: string) {
    Refusal(reg, VisaContext(action, peer, 0)).None?
  }

  lemma {:induction false} DropNone(q: seq<real>, cutoff: real)
    requires forall i :: 0 <= i < |q| ==> q[i] >= cutoff
    ensures DropBefore(q, cutoff) == q
  {
  }

  lemma {:induction false} GrantOnce(reg: Registry, s: State, peer: string, action: string, k: nat) returns (steps: seq<Step>)
    requires Grantable(reg, peer, action) && GrantedNow(s, peer, k) && k < 5
    ensures var s' := Run(reg, s, steps); GrantedNow(s', peer, k + 1) && s'.clock == s.clock && s'.earlier == s.earlier && Restarts(steps) == 0
  {
    var q := At(s.times, peer);
    DropNone(q, s.clock - RATE_WINDOW);
    CountedOutcome(reg, s, 0, peer, action);
    var c := UpToCount(reg, s, 0, peer, action);
    CountedKeeps(reg, s, peer, action);
    RecordOneMore(reg, c, peer, action, k);
    var up, down := [Request(0, peer, action), Acquire(0), Count(0)], [Decide(0), Record(0)];
    ThreeSteps(reg, s, up[0], up[1], up[2]);
    TwoSteps(reg, c, down[0], down[1]);
    RunOn(reg, s, up, down);
    steps := up + down;
  }

  lemma {:induction false} RecordOneMore(reg: Registry, c: State, peer: string, action: string, k: nat)
    requires Grantable(reg, peer, action) && k < 5 && PhaseOf(c, 0) == Counted(peer, action, k, c.clock)
    requires At(c.times, peer) == At(c.grants, peer) == seq(k, i => c.clock)
    ensures var s' := Next(reg, Next(reg, c, Decide(0)), Record(0));
      GrantedNow(s', peer, k + 1) && s'.clock == c.clock && s'.earlier == c.earlier
  {
    assert Refusal(reg, VisaContext(action, peer, k)).None?;
    assert seq(k, i => c.clock) + [c.clock] == seq(k + 1, i => c.clock);
  }

  lemma {:induction false} CountedKeeps(reg: Registry, s: State, peer: string, action: string)
    requires PhaseOf(s, 0).Idle? && peer !in s.lockOwner
    ensures UpToCount(reg, s, 0, peer, action).earlier == s.earlier
  {
  }

  lemma {:induction false} TwoSteps(reg: Registry, s: State, x: Step, y: Step)
    ensures Run(reg, s, [x, y]) == Next(reg, Next(reg, s, x), y)
    ensures Restarts([x, y]) == (if x.Restart? then 1 else 0) + if y.Restart? then 1 else 0
  {
    assert [x, y][1..] == [y] && [y][1..] == [];
    assert Run(reg, Next(reg, s, x), [y]) == Next(reg, Next(reg, s, x), y);
    assert Restarts([y]) == if y.Restart? then 1 else 0;
  }

  lemma {:induction false} ThreeSteps(reg: Registry, s: State, x: Step, y: Step, z: Step)
    ensures Run(reg, s, [x, y, z]) == Next(reg, Next(reg, Next(reg, s, x), y), z)
    ensures Restarts([x, y, z]) == (if x.Restart? then 1 else 0) + (if y.Restart? then 1 else 0) + if z.Restart? then 1 else 0
  {
    assert [x, y, z][1..] == [y, z];
    TwoSteps(reg, Next(reg, s, x), y, z);
  }

  lemma {:induction false} GrantUpTo(reg: Registry, s: State, peer: string, action: string, k: nat) returns (steps: seq<Step>)
    requires Grantable(reg, peer, action) && GrantedNow(s, peer, k) && k <= 5
    ensures var s' := Run(reg, s, steps); GrantedNow(s', peer, 5) && s'.clock == s.clock && s'.earlier == s.earlier && Restarts(steps) == 0
    decreases 5 - k
  {
    if k == 5 {
      steps := [];
    } else {
      var once := GrantOnce(reg, s, peer, action, k);
      var more := GrantUpTo(reg, Run(reg, s, once), peer, action, k + 1);
      steps := once + more;
      RunOn(reg, s, once, more);
    }
  }

  lemma {:induction false} AllWithin(k: nat, t: real)
    ensures Within(seq(k, i => t), t, t + RATE_WINDOW) == k
  {
    var h := seq(k, i => t);
    if k > 0 {
      assert h[1..] == seq(k - 1, i => t);
      AllWithin(k - 1, t);
    }
  }

  // For every number of restarts some run records five visas a process at one instant, so the bound above is
  // exact and five a minute is the bound for runs without a restart only.
  lemma {:induction false} CeilingReached(reg: Registry, clock: real, peer: string, action: string, n: nat) returns (steps: seq<Step>)
    requires Grantable(reg, peer, action)
    ensures Restarts(steps) == n && Within(Ever(Run(reg, Start(clock), steps), peer), clock, clock + 60.0) == 5 * (n + 1)
    ensures Run(reg, Start(clock), steps).clock == clock && GrantedNow(Run(reg, Start(clock), steps), peer, 5)
    decreases n
  {
    var before: seq<Step> := [];
    if n > 0 {
      before := CeilingReached(reg, clock, peer, action, n - 1);
      RunOn(reg, Start(clock), before, [Restart]);
      assert [Restart][1..] == [];
      before := before + [Restart];
    }
    var s := Run(reg, Start(clock), before);
    assert n > 0 ==> At(s.earlier, peer) == Ever(Run(reg, Start(clock), before[..|before| - 1]), peer);
    var more := GrantUpTo(reg, s, peer, action, 0);
    steps := before + more;
    RunOn(reg, Start(clock), before, more);
    AllWithin(5, clock);
    WithinAdds(At(s.earlier, peer), seq(5, i => clock), clock, clock + RATE_WINDOW);
  }
}
