// When a completed request goes through the pipeline again: exactly at the instants of `GoesOnAgain`, as long as
// nothing else inserts under its key.
module DispatchRerun {
  import opened Wrappers
  import opened Crypto
  import opened Messages
  import opened PeerCache
  import opened IdempotencyCache
  import opened CacheWriter
  import opened Dispatch
  import opened DispatchReplay
  import opened DispatchReplayExact

  // With its own entry in the cache, the message is missed exactly at the instants of `GoesOnAgain`.
  lemma {:induction false} OwnEntryMissedIff(cfg: Config, cache: seq<Item>, m: Message, res: string, h: int, now: int)
    requires CacheKey(m).Some? && InTime(cfg, m, h) && h <= now
    requires Find(cache, CacheKey(m).value) == Some(Entry(m, OneShot(res), h))
    ensures Admit(cfg, cache, m, now).Miss? <==> GoesOnAgain(m, h, now)
  {
  }

  // ---------- No other live entry under a key ----------

  ghost predicate Only(c: seq<Item>, y: Item, now: int) {
    var f := Find(c, y.key);
    f.Some? ==> f.value == y || f.value.expires <= now
  }

  ghost predicate OnlyWriter(w: WriterPc, y: Item, now: int) {
    w.Write? ==> Only(w.snap, y, now)
  }

  // No stream and no running dispatch is going to insert under the key, and none holds a copy with another live entry.
  ghost predicate Unshared(s: State, y: Item) {
    && (forall sid :: sid in s.streams ==>
          !Rival(s.streams[sid], y.key) && (s.streams[sid].Caching? ==> OnlyWriter(s.streams[sid].writer, y, s.clock)))
    && (s.running.Some? ==>
          var r := s.running.value;
          && (CacheKey(r.msg) == Some(y.key) ==> r.pc.Reject? || (r.pc.CacheResponse? && !r.pc.writer.Insert?))
          && (r.pc.CacheResponse? ==> OnlyWriter(r.pc.writer, y, s.clock)))
  }

  ghost predicate Alone(s: State, y: Item) {
    s.mem.Some? && Only(s.mem.value.cache, y, s.clock) && Unshared(s, y)
  }

  ghost predicate Saved(s: State, y: Item) {
    Only(s.disk.cache, y, s.clock) && (s.mem.Some? ==> Only(s.mem.value.cache, y, s.clock)) && Unshared(s, y)
  }

  ghost predicate StaysAlone(s: State, s': State, y: Item) {
    (Alone(s, y) ==> Alone(s', y)) && (Saved(s, y) ==> Saved(s', y))
  }

  // This step lets a request under the key into the pipeline.
  ghost predicate LetsIn(cfg: Config, s: State, step: Step, key: string) {
    step.Begin? && s.running.None? && CacheKey(step.msg) == Some(key) && Admit(cfg, Loaded(s).cache, step.msg, s.clock).Miss?
  }

  ghost predicate NoneLetIn(cfg: Config, s: State, steps: seq<Step>, key: string)
    decreases |steps|
  {
    steps != [] ==> !LetsIn(cfg, s, steps[0], key) && NoneLetIn(cfg, Next(cfg, s, steps[0]), steps[1..], key)
  }

  lemma {:induction false} WriterKeepsOnly(cache: seq<Item>, w: WriterPc, x: Item, at: int, max: nat, y: Item, now: int)
    requires Only(cache, y, now) && OnlyWriter(w, y, now) && (w.Insert? ==> x.key != y.key)
    ensures var m := WriterStep(cache, w, x, at, max); m.Moved? ==> Only(m.cache, y, now) && OnlyWriter(m.pc, y, now)
  {
    FindInPut(cache, x, y.key);
    if (w.DropExpired? || w.DropExcess?) && w.keys != [] {
      FindInRest(cache, {w.keys[0]}, y.key);
    }
  }

  lemma {:induction false} LoadedOnly(cfg: Config, s: State, y: Item)
    requires CacheOk(cfg, s) && (Alone(s, y) || Saved(s, y))
    ensures Only(Loaded(s).cache, y, s.clock)
  {
    FindInLive(s.disk.cache, s.clock, y.key);
  }

  lemma {:induction false} AdmittedAlone(s: State, m: Message, mem: Memory, a: Admission, y: Item)
    requires s.running.None? && (s.mem.Some? ==> mem == s.mem.value)
    requires Alone(s, y) || Saved(s, y) ==> Only(mem.cache, y, s.clock)
    requires a.Miss? ==> CacheKey(m) != Some(y.key) && (Only(mem.cache, y, s.clock) ==> Only(a.cache, y, s.clock))
    ensures StaysAlone(s, Admitted(s, m, mem.counts, mem.cache, a), y)
  {
  }

  lemma {:induction false} BeginAlone(cfg: Config, s: State, m: Message, y: Item)
    requires CacheOk(cfg, s) && s.running.None? && !LetsIn(cfg, s, Begin(m), y.key)
    ensures StaysAlone(s, BeginStep(cfg, s, m), y)
  {
    var mem := Loaded(s);
    var a := Admit(cfg, mem.cache, m, s.clock);
    if Alone(s, y) || Saved(s, y) {
      LoadedOnly(cfg, s, y);
    }
    if a.Miss? && CacheKey(m).Some? {
      FindInRest(mem.cache, {CacheKey(m).value}, y.key);
    }
    AdmittedAlone(s, m, mem, a, y);
  }

  lemma {:induction false} StoredAlone(cfg: Config, s: State, r: InFlight, res: string, w: WriterPc, y: Item)
    requires s.mem.Some? && s.running == Some(r) && r.pc == CacheResponse(res, w) && CacheKey(r.msg).Some? && !w.Write?
    ensures StaysAlone(s, Stored(s, r, res, WriterStep(s.mem.value.cache, w, Entry(r.msg, OneShot(res), r.now), r.now, cfg.cacheMax)), y)
  {
    var x := Entry(r.msg, OneShot(res), r.now);
    if Alone(s, y) || Saved(s, y) {
      WriterKeepsOnly(s.mem.value.cache, w, x, r.now, cfg.cacheMax, y, s.clock);
    }
  }

  lemma {:induction false} CacheStepAlone(cfg: Config, s: State, r: InFlight, y: Item)
    requires s.mem.Some? && s.running == Some(r) && r.pc.CacheResponse?
    ensures var s' := CacheStep(cfg, s, r, r.pc.res, r.pc.writer);
      StaysAlone(s, s', y) && (Alone(s, y) && r.pc.writer.Write? && CacheKey(r.msg).Some? ==> Saved(s', y))
  {
    if CacheKey(r.msg).Some? && !r.pc.writer.Write? {
      StoredAlone(cfg, s, r, r.pc.res, r.pc.writer, y);
    }
  }

  lemma {:induction false} StreamStoredAlone(s: State, sid: nat, m: Message, chunks: seq<string>, move: Move, y: Item)
    requires s.mem.Some? && sid in s.streams && s.streams[sid].Caching? && s.streams[sid].msg == m
    requires move.Moved? ==> !move.pc.Insert?
    requires move.Moved? && (Alone(s, y) || Saved(s, y)) ==> Only(move.cache, y, s.clock) && OnlyWriter(move.pc, y, s.clock)
    ensures StaysAlone(s, StreamStored(s, sid, m, chunks, move), y)
  {
  }

  lemma {:induction false} StreamAdvanceAlone(cfg: Config, s: State, sid: nat, y: Item)
    ensures StaysAlone(s, StreamAdvanceStep(cfg, s, sid), y)
  {
    var s' := StreamAdvanceStep(cfg, s, sid);
    if s' != s {
      var p := s.streams[sid];
      var w := p.writer;
      if Alone(s, y) || Saved(s, y) {
        assert !Rival(p, y.key) && OnlyWriter(w, y, s.clock);
        if !w.Write? {
          var x := Entry(p.msg, Stream(p.chunks), s.clock);
          WriterKeepsOnly(s.mem.value.cache, w, x, s.clock, cfg.cacheMax, y, s.clock);
          StreamStoredAlone(s, sid, p.msg, p.chunks, WriterStep(s.mem.value.cache, w, x, s.clock, cfg.cacheMax), y);
        }
      }
    }
  }

  lemma {:induction false} QuietAlone(cfg: Config, s: State, r: InFlight, s': State, y: Item)
    requires s.running == Some(r) && !r.pc.CacheResponse? && QuietMove(cfg, s, r, s')
    ensures StaysAlone(s, s', y)
  {
  }

  lemma {:induction false} AdvanceAlone(cfg: Config, s: State, r: InFlight, outcome: HandlerOutcome, y: Item)
    requires CacheOk(cfg, s) && s.running == Some(r)
    ensures StaysAlone(s, AdvanceStep(cfg, s, r, outcome), y)
  {
    if r.pc.CacheResponse? {
      AdvanceIsCacheStep(cfg, s, r, outcome);
      CacheStepAlone(cfg, s, r, y);
    } else {
      AdvanceQuiet(cfg, s, r, outcome);
      QuietAlone(cfg, s, r, AdvanceStep(cfg, s, r, outcome), y);
    }
  }

  lemma {:induction false} FrameAlone(s: State, s': State, y: Item)
    requires s'.disk.cache == s.disk.cache && s'.mem == s.mem && s'.running == s.running && s'.clock >= s.clock
    requires forall sid :: sid in s'.streams ==> sid in s.streams && (s'.streams[sid] == s.streams[sid] || Starts(s.streams[sid], s'.streams[sid]))
    ensures StaysAlone(s, s', y)
  {
  }

  lemma {:induction false} OtherStepAlone(cfg: Config, s: State, step: Step, y: Item)
    requires !step.Begin? && !step.Advance? && !step.StreamAdvance?
    ensures Saved(s, y) ==> Saved(Next(cfg, s, step), y)
    ensures !step.Crash? && Alone(s, y) ==> Alone(Next(cfg, s, step), y)
  {
    if !step.Crash? {
      FrameAlone(s, Next(cfg, s, step), y);
    }
  }

  lemma {:induction false} StepAlone(cfg: Config, s: State, step: Step, y: Item)
    requires CacheOk(cfg, s) && !LetsIn(cfg, s, step, y.key)
    ensures Saved(s, y) ==> Saved(Next(cfg, s, step), y)
    ensures !step.Crash? && Alone(s, y) ==> Alone(Next(cfg, s, step), y)
  {
    match step
    case Begin(m) => if s.running.None? { BeginAlone(cfg, s, m, y); }
    case Advance(outcome) => if s.running.Some? { AdvanceAlone(cfg, s, s.running.value, outcome, y); }
    case StreamAdvance(sid) => StreamAdvanceAlone(cfg, s, sid, y);
    case _ => OtherStepAlone(cfg, s, step, y);
  }

  lemma {:induction false} RunSaved(cfg: Config, s: State, steps: seq<Step>, y: Item)
    requires CacheOk(cfg, s) && Saved(s, y) && NoneLetIn(cfg, s, steps, y.key)
    ensures Saved(Run(cfg, s, steps), y)
    decreases |steps|
  {
    if steps != [] {
      StepAlone(cfg, s, steps[0], y);
      StepKeeps(cfg, s, steps[0], y);
      RunSaved(cfg, Next(cfg, s, steps[0]), steps[1..], y);
    }
  }

  lemma {:induction false} StoringStepAlone(cfg: Config, s: State, step: Step, m: Message, res: string, h: int, y: Item)
    requires CacheOk(cfg, s) && Storing(s, m, res, h) && CacheKey(m).Some? && Alone(s, y) && !step.Crash?
    ensures var s' := Next(cfg, s, step);
      || (Storing(s', m, res, h) && s'.replies == s.replies)
      || (|s'.replies| > |s.replies| && (Answered(s, s', m, res) ==> Saved(s', y)))
  {
    if step.Advance? {
      var r := s.running.value;
      AdvanceIsCacheStep(cfg, s, r, step.outcome);
      CacheStepAlone(cfg, s, r, y);
    } else {
      OthersLeaveItRunning(cfg, s, step);
    }
  }

  lemma {:induction false} StoringRunAlone(cfg: Config, s: State, steps: seq<Step>, m: Message, res: string, h: int, y: Item)
    requires CacheOk(cfg, s) && Storing(s, m, res, h) && CacheKey(m).Some? && Alone(s, y)
    requires Crash !in steps && NoneLetIn(cfg, s, steps, y.key)
    ensures Answered(s, Run(cfg, s, steps), m, res) ==> Saved(Run(cfg, s, steps), y)
    decreases |steps|
  {
    if steps != [] {
      var s', rest := Next(cfg, s, steps[0]), steps[1..];
      StepAlone(cfg, s, steps[0], y);
      StepKeeps(cfg, s, steps[0], y);
      StoringStepAlone(cfg, s, steps[0], m, res, h, y);
      RepliesGrow(cfg, s', rest);
      if Storing(s', m, res, h) && s'.replies == s.replies {
        StoringRunAlone(cfg, s', rest, m, res, h, y);
      } else if Answered(s, Run(cfg, s, steps), m, res) {
        RunSaved(cfg, s', rest, y);
      }
    }
  }

  // ---------- Rerun exactly at these instants ----------

  lemma {:induction false} SavedRerunsThere(cfg: Config, s: State, m: Message, res: string, h: int)
    requires CacheOk(cfg, s) && s.running.None? && CacheKey(m).Some? && InTime(cfg, m, h) && h <= s.clock
    requires Saved(s, Entry(m, OneShot(res), h)) && GoesOnAgain(m, h, s.clock)
    ensures EntersPipeline(cfg, s, m)
  {
    LoadedOnly(cfg, s, Entry(m, OneShot(res), h));
    assert Admit(cfg, Loaded(s).cache, m, s.clock).Miss?;
  }

  lemma {:induction false} InsertedIsAlone(cfg: Config, s: State, r: InFlight, res: string)
    requires CacheOk(cfg, s) && AboutToStore(s, r, res) && Unshared(s.(running := None), Entry(r.msg, OneShot(res), r.now))
    ensures var s1 := Next(cfg, s, Advance(Raised("")));
      && CacheOk(cfg, s1) && Storing(s1, r.msg, res, r.now) && Alone(s1, Entry(r.msg, OneShot(res), r.now))
      && s1.clock == s.clock && InTime(cfg, r.msg, r.now) && r.now <= s.clock && s1.replies == s.replies
  {
    var y := Entry(r.msg, OneShot(res), r.now);
    InsertedIsGuarded(cfg, s, r, res);
    FindInPut(s.mem.value.cache, y, y.key);
  }

  // Under no threat, with no other live entry of the key in any stream's copy and no other request under the key let in
  // before: over every continuation in which it is answered, the same message then enters the pipeline again exactly at
  // the instants of `GoesOnAgain`; at all others it gets the identical response, or deadline_exceeded.
  lemma {:induction false} RerunIff(cfg: Config, s: State, r: InFlight, res: string, between: seq<Step>, later: seq<Step>)
    requires CacheOk(cfg, s) && AboutToStore(s, r, res) && Unthreatened(s, Promise(r.msg, res, r.now))
    requires Continuation(cfg, s, r.msg, res, between, later)
    requires Unshared(s.(running := None), Entry(r.msg, OneShot(res), r.now))
    requires var s1 := Next(cfg, s, Advance(Raised("")));
      NoneLetIn(cfg, s1, between, CacheKey(r.msg).value) && NoneLetIn(cfg, Run(cfg, s1, between), later, CacheKey(r.msg).value)
    ensures var e := After(cfg, s, between, later);
      (EntersPipeline(cfg, e, r.msg) <==> GoesOnAgain(r.msg, r.now, e.clock)) && ServedAgain(cfg, e, r.msg, res, r.now)
  {
    var y, s1 := Entry(r.msg, OneShot(res), r.now), Next(cfg, s, Advance(Raised("")));
    ReplayNeverReruns(cfg, s, r, res, between, later);
    InsertedIsAlone(cfg, s, r, res);
    StoringRunAlone(cfg, s1, between, r.msg, res, r.now, y);
    RunKeeps(cfg, s1, between, y);
    var s2 := Run(cfg, s1, between);
    RunSaved(cfg, s2, later, y);
    RunKeeps(cfg, s2, later, y);
    var e := Run(cfg, s2, later);
    if GoesOnAgain(r.msg, r.now, e.clock) {
      SavedRerunsThere(cfg, e, r.msg, res, r.now);
    }
  }
}
