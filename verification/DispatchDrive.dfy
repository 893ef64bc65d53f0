// Uninterrupted stretches of the dispatcher's runs, and the states its runs reach. A dispatch left alone leads from one
// state to another in some number of its own sub-steps; a run goes from one state to another in some number of steps of
// any kind. The agent object's methods are proved against the first, and what the theorems over runs say of a reachable
// state comes back to the object through the second. The other modules compose such stretches one step at a time.
module DispatchDrive {
  import opened Wrappers
  import opened Crypto
  import opened Capability
  import opened Messages
  import opened PeerCache
  import opened IdempotencyCache
  import opened CacheWriter
  import opened Dispatch
  import opened DispatchSafety

  // ---------- One dispatch as a stretch of a run ----------

  // n sub-steps of the running dispatch.
  ghost function Drive(cfg: Config, s: State, o: HandlerOutcome, n: nat): State
    decreases n
  {
    if n == 0 then s else Drive(cfg, Next(cfg, s, Advance(o)), o, n - 1)
  }

  // Reachability below is stated under a quantifier, so that it is not expanded except where some `Unsealed(k)`
  // is asserted.
  predicate Unsealed(k: nat) {
    true
  }

  // The running dispatch alone leads from one state to the other.
  ghost predicate LeadsTo(cfg: Config, o: HandlerOutcome, s: State, s': State) {
    forall k :: Unsealed(k) ==> exists n: nat :: Drive(cfg, s, o, n) == s'
  }

  lemma {:induction false} DriveOn(cfg: Config, s: State, o: HandlerOutcome, m: nat, n: nat)
    ensures Drive(cfg, Drive(cfg, s, o, m), o, n) == Drive(cfg, s, o, m + n)
    decreases m
  {
    if m > 0 {
      DriveOn(cfg, Next(cfg, s, Advance(o)), o, m - 1, n);
    }
  }

  lemma {:induction false} Then(cfg: Config, o: HandlerOutcome, a: State, b: State, c: State)
    requires LeadsTo(cfg, o, a, b) && (LeadsTo(cfg, o, b, c) || Next(cfg, b, Advance(o)) == c)
    ensures LeadsTo(cfg, o, a, c)
  {
    assert Unsealed(0);
    var m: nat :| Drive(cfg, a, o, m) == b;
    if Next(cfg, b, Advance(o)) == c {
      assert Drive(cfg, c, o, 0) == c;
      assert Drive(cfg, b, o, 1) == c;
    }
    var n: nat :| Drive(cfg, b, o, n) == c;
    DriveOn(cfg, a, o, m, n);
  }

  lemma {:induction false} Here(cfg: Config, o: HandlerOutcome, s: State)
    ensures LeadsTo(cfg, o, s, s)
  {
    assert Drive(cfg, s, o, 0) == s;
  }

  lemma {:induction false} OneStep(cfg: Config, o: HandlerOutcome, s: State, s': State)
    requires Next(cfg, s, Advance(o)) == s'
    ensures LeadsTo(cfg, o, s, s')
  {
    Here(cfg, o, s);
    Then(cfg, o, s, s, s');
  }

  lemma {:induction false} ProofLeads(cfg: Config, o: HandlerOutcome, s: State, r: InFlight, sender: PublicKey, token: Token)
    requires s.running == Some(r) && r.pc == CheckProof(sender, token) && s.mem.Some?
    ensures LeadsTo(cfg, o, s, Judged(s, r, token, JudgeProof(r.msg, s.mem.value.counts, sender, token)))
  {
    OneStep(cfg, o, s, ProofStep(s, r, sender, token));
  }

  lemma {:induction false} IdleStays(cfg: Config, s: State, o: HandlerOutcome, n: nat)
    requires s.running.None?
    ensures Drive(cfg, s, o, n) == s
    decreases n
  {
    if n > 0 {
      IdleStays(cfg, s, o, n - 1);
    }
  }

  // A dispatch comes to rest in one way only.
  lemma {:induction false} RestIsUnique(cfg: Config, o: HandlerOutcome, s: State, a: State, b: State)
    requires LeadsTo(cfg, o, s, a) && LeadsTo(cfg, o, s, b) && a.running.None? && b.running.None?
    ensures a == b
  {
    assert Unsealed(0);
    var m: nat :| Drive(cfg, s, o, m) == a;
    var n: nat :| Drive(cfg, s, o, n) == b;
    if m <= n {
      DriveOn(cfg, s, o, m, n - m);
      IdleStays(cfg, a, o, n - m);
    } else {
      DriveOn(cfg, s, o, n, m - n);
      IdleStays(cfg, b, o, m - n);
    }
  }

  lemma {:induction false} StoredIsNext(cfg: Config, s: State, r: InFlight, res: string, w: WriterPc, o: HandlerOutcome)
    requires s.running == Some(r) && r.pc == CacheResponse(res, w) && s.mem.Some? && CacheKey(r.msg).Some? && !w.Write?
    ensures Next(cfg, s, Advance(o)) ==
      Stored(s, r, res, WriterStep(s.mem.value.cache, w, Entry(r.msg, OneShot(res), r.now), r.now, cfg.cacheMax))
  {
  }

  // Storing a response, uninterrupted: the dict is left as the outcome says, saved as such, and answered.
  lemma {:induction false} WriterLeads(cfg: Config, o: HandlerOutcome, s: State, r: InFlight, res: string, w: WriterPc, c: seq<Item>)
    requires s.running == Some(r) && r.pc == CacheResponse(res, w) && s.mem.Some? && CacheKey(r.msg).Some? && !w.Write?
    requires Outcome(s.mem.value.cache, w, Entry(r.msg, OneShot(res), r.now), r.now, cfg.cacheMax) == Some(c)
    ensures LeadsTo(cfg, o, s, Finish(SaveCache(SetCache(s, c), c), r.msg, Answer(res)))
    decreases Stage(w), Left(w)
  {
    var move := WriterStep(s.mem.value.cache, w, Entry(r.msg, OneShot(res), r.now), r.now, cfg.cacheMax);
    var s' := Stored(s, r, res, move);
    StoredIsNext(cfg, s, r, res, w, o);
    OneStep(cfg, o, s, s');
    if move.pc.Write? {
      Then(cfg, o, s, s', Finish(SaveCache(s', move.pc.snap), r.msg, Answer(res)));
    } else {
      WriterLeads(cfg, o, s', s'.running.value, res, move.pc, c);
      Then(cfg, o, s, s', Finish(SaveCache(SetCache(s', c), c), r.msg, Answer(res)));
    }
  }

  // ---------- Reachable states ----------

  ghost predicate Reached(cfg: Config, s: State) {
    exists clock: int, peers: Peers :: Goes(cfg, Start(clock, peers), s)
  }

  lemma {:induction false} RunOn(cfg: Config, s: State, a: seq<Step>, b: seq<Step>)
    ensures Run(cfg, s, a + b) == Run(cfg, Run(cfg, s, a), b)
    decreases |a|
  {
    if a == [] {
      assert a + b == b;
    } else {
      assert (a + b)[1..] == a[1..] + b;
      RunOn(cfg, Next(cfg, s, a[0]), a[1..], b);
    }
  }

  // Some run leads from one state to the other.
  ghost predicate Goes(cfg: Config, s: State, s': State) {
    forall k :: Unsealed(k) ==> exists steps :: Run(cfg, s, steps) == s'
  }

  lemma {:induction false} GoesOn(cfg: Config, a: State, b: State, c: State)
    requires Goes(cfg, a, b) && Goes(cfg, b, c)
    ensures Goes(cfg, a, c)
  {
    assert Unsealed(0);
    var x :| Run(cfg, a, x) == b;
    var y :| Run(cfg, b, y) == c;
    RunOn(cfg, a, x, y);
  }

  lemma {:induction false} GoesStep(cfg: Config, s: State, step: Step)
    ensures Goes(cfg, s, Next(cfg, s, step))
  {
    assert [step][1..] == [];
    assert Run(cfg, Next(cfg, s, step), []) == Next(cfg, s, step);
    assert Run(cfg, s, [step]) == Next(cfg, s, step);
  }

  lemma {:induction false} DriveGoes(cfg: Config, s: State, o: HandlerOutcome, n: nat)
    ensures Goes(cfg, s, Drive(cfg, s, o, n))
    decreases n
  {
    if n == 0 {
      assert Run(cfg, s, []) == s;
    } else {
      GoesStep(cfg, s, Advance(o));
      DriveGoes(cfg, Next(cfg, s, Advance(o)), o, n - 1);
      GoesOn(cfg, s, Next(cfg, s, Advance(o)), Drive(cfg, s, o, n));
    }
  }

  // A dispatch left alone is a stretch of a run.
  lemma {:induction false} DispatchGoes(cfg: Config, o: HandlerOutcome, s: State, m: Message, s': State)
    requires s.running.None? && LeadsTo(cfg, o, BeginStep(cfg, s, m), s')
    ensures Goes(cfg, s, s')
  {
    assert Unsealed(0);
    var n: nat :| Drive(cfg, BeginStep(cfg, s, m), o, n) == s';
    GoesStep(cfg, s, Begin(m));
    DriveGoes(cfg, BeginStep(cfg, s, m), o, n);
    GoesOn(cfg, s, BeginStep(cfg, s, m), s');
  }

  // A dispatch handled without interruption stays within the machine's runs.
  lemma {:induction false} DispatchReached(cfg: Config, o: HandlerOutcome, s: State, m: Message, s': State)
    requires Reached(cfg, s) && s.running.None? && LeadsTo(cfg, o, BeginStep(cfg, s, m), s')
    ensures Reached(cfg, s')
  {
    var clock, peers :| Goes(cfg, Start(clock, peers), s);
    DispatchGoes(cfg, o, s, m, s');
    GoesOn(cfg, Start(clock, peers), s, s');
  }

  lemma {:induction false} ReachedStep(cfg: Config, s: State, step: Step)
    requires Reached(cfg, s)
    ensures Reached(cfg, Next(cfg, s, step))
  {
    var clock, peers :| Goes(cfg, Start(clock, peers), s);
    GoesStep(cfg, s, step);
    GoesOn(cfg, Start(clock, peers), s, Next(cfg, s, step));
  }

  lemma {:induction false} FreshId(used: set<nat>) returns (n: nat)
    ensures forall i :: i in used ==> i < n
    decreases used
  {
    n := 0;
    if i :| i in used {
      n := FreshId(used - {i});
      n := if i < n then n else i + 1;
      assert used == (used - {i}) + {i};
    }
  }

  // A revocation that nothing interrupts, by any thread not revoking already.
  lemma {:induction false} RevokeReached(cfg: Config, s: State, c: CapId, s': State)
    requires Reached(cfg, s)
    requires forall tid: nat :: tid !in s.revoking ==> s' == RevokeSaveStep(RevokeLoadStep(s, tid, c), tid)
    ensures Reached(cfg, s')
  {
    var tid := FreshId(s.revoking.Keys);
    assert tid !in s.revoking;
    ReachedStep(cfg, s, RevokeLoad(tid, c));
    ReachedStep(cfg, Next(cfg, s, RevokeLoad(tid, c)), RevokeSave(tid));
  }

  // What the theorems over runs give for a reachable state.
  lemma {:induction false} ReachedIsSafe(cfg: Config, s: State, c: CapId, i: int)
    requires Reached(cfg, s)
    ensures Inv(s)
    ensures Limit(s, c).Some? && Count(s.runs, c) > 0 && i in InvocationLimits(CaveatsFromDicts(s.disk.caps[c].signable.caveats)) ==>
      Count(s.runs, c) <= Count(s.disk.counts, c) <= i
  {
    var clock, peers :| Goes(cfg, Start(clock, peers), s);
    assert Unsealed(0);
    var steps :| Run(cfg, Start(clock, peers), steps) == s;
    StartInv(clock, peers);
    RunKeepsInv(cfg, Start(clock, peers), steps);
    InvocationCeiling(cfg, clock, peers, steps, c);
    assert CapOk(s, c);
  }
}
