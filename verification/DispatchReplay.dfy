// Replay safety over runs of the dispatcher: what keeps a completed request's response the answer. The response is
// promised until its deadline has passed or its entry has expired; it is guarded while memory serves it and nobody is
// going to break it, and kept once the disk serves it too, when a crash no longer matters. This is the sufficient half;
// DispatchReplayExact has the other.
module DispatchReplay {
  import opened Wrappers
  import opened Crypto
  import opened Capability
  import opened Messages
  import opened IdempotencyCache
  import opened CacheWriter
  import opened Dispatch

  // ---------- Sound states ----------

  ghost predicate InTime(cfg: Config, m: Message, now: int) {
    m.body.deadline.Some? ==> now <= m.body.deadline.value <= now + cfg.maxDeadlineSeconds
  }

  predicate PastResolve(pc: Pc) {
    pc.RunHandler? || pc.WriteReceipt? || pc.CacheResponse?
  }

  ghost predicate RunOk(cfg: Config, s: State, r: InFlight) {
    && s.mem.Some? && r.now <= s.clock && (r.pc.Reject? || InTime(cfg, r.msg, r.now))
    && (r.pc.CacheResponse? ==> SoundWriter(r.pc.writer)) && (PastResolve(r.pc) ==> cfg.handlers != {})
  }

  // Every copy of the cache has distinct, non-empty keys, and a dispatch past admission met its deadline.
  ghost predicate CacheOk(cfg: Config, s: State) {
    && Sound(s.disk.cache) && (s.mem.Some? ==> Sound(s.mem.value.cache))
    && (forall sid :: sid in s.streams && s.streams[sid].Caching? ==> SoundWriter(s.streams[sid].writer) && CacheKey(s.streams[sid].msg).Some?)
    && (s.running.Some? ==> RunOk(cfg, s, s.running.value))
  }

  // ---------- A promised response ----------

  // A message handled at h can be replayed before this instant: later the deadline has passed or the
  // entry has expired.
  function ReplaysUntil(m: Message, h: int): int {
    if m.body.deadline.None? then h + 60
    else if m.body.deadline.value - h >= 10 then m.body.deadline.value
    else m.body.deadline.value + 1
  }

  function Promise(m: Message, res: string, h: int): Item
    requires CacheKey(m).Some?
  {
    Item(CacheKey(m).value, OneShot(res), ReplaysUntil(m, h))
  }

  // A stream under this key that has yet to insert its own entry.
  predicate Rival(p: StreamPc, key: string) {
    CacheKey(p.msg) == Some(key) && (p.Open? || (p.Caching? && p.writer.Insert?))
  }

  // A stream of any key holding a list with the promised key, or a copy of the cache that breaks the promise.
  predicate Stale(p: StreamPc, x: Item) {
    p.Caching? && Threatens(p.writer, x)
  }

  predicate RunThreatens(r: InFlight, x: Item) {
    || (CacheKey(r.msg) == Some(x.key) && !r.pc.Reject? && !(r.pc.CacheResponse? && !r.pc.writer.Insert?))
    || (r.pc.CacheResponse? && Threatens(r.pc.writer, x))
  }

  ghost predicate NoThreat(s: State, x: Item) {
    && (forall sid :: sid in s.streams ==> !Rival(s.streams[sid], x.key) && !Stale(s.streams[sid], x))
    && (s.running.Some? ==> !RunThreatens(s.running.value, x))
  }

  // Memory serves the promise while it lasts, and nobody is going to break it.
  ghost predicate Guarded(s: State, x: Item) {
    s.clock < x.expires ==> s.mem.Some? && Serves(s.mem.value.cache, x) && NoThreat(s, x)
  }

  // Disk serves it too, so a crash does not matter.
  ghost predicate Kept(s: State, x: Item) {
    s.clock < x.expires ==>
      Serves(s.disk.cache, x) && (s.mem.Some? ==> Serves(s.mem.value.cache, x)) && NoThreat(s, x)
  }

  ghost predicate Preserves(s: State, s': State, x: Item) {
    (Guarded(s, x) ==> Guarded(s', x)) && (Kept(s, x) ==> Kept(s', x))
  }

  ghost predicate RunEvicts(cfg: Config, s: State, key: string) {
    s.running.Some? && s.running.value.pc.CacheResponse? && s.mem.Some?
    && Evicts(s.mem.value.cache, s.running.value.pc.writer, s.clock, cfg.cacheMax, key)
  }

  ghost predicate StreamEvicts(cfg: Config, s: State, sid: nat, key: string) {
    sid in s.streams && s.streams[sid].Caching? && s.mem.Some?
    && Evicts(s.mem.value.cache, s.streams[sid].writer, s.clock, cfg.cacheMax, key)
  }

  // This step lists a live entry of the key for deletion because the cache is over its size.
  ghost predicate EvictsForSpace(cfg: Config, s: State, step: Step, key: string) {
    match step
    case Advance(_) => RunEvicts(cfg, s, key)
    case StreamAdvance(sid) => StreamEvicts(cfg, s, sid, key)
    case _ => false
  }

  // ---------- Admission ----------

  lemma {:induction false} FindInLive(c: seq<Item>, now: int, key: string)
    requires Sound(c)
    ensures Find(Live(c, now), key) == var f := Find(c, key); if f.Some? && now < f.value.expires then f else None
  {
    LiveProperties(c, now);
    var f, g := Find(c, key), Find(Live(c, now), key);
    if f.Some? && now < f.value.expires {
      FindIsMember(Live(c, now), f.value);
    } else if g.Some? {
      FindIsMember(c, g.value);
    }
  }

  lemma {:induction false} AdmitKeeps(cfg: Config, cache: seq<Item>, m: Message, now: int, x: Item)
    requires Sound(cache)
    ensures var a := Admit(cfg, cache, m, now);
      && (a.Refuse? || InTime(cfg, m, now))
      && (a.Miss? ==> Sound(a.cache) && (Serves(cache, x) && now < x.expires ==> Serves(a.cache, x) && CacheKey(m) != Some(x.key)))
  {
    if CacheKey(m).Some? {
      RemoveProperties(cache, {CacheKey(m).value});
      FindInRest(cache, {CacheKey(m).value}, x.key);
    }
  }

  lemma {:induction false} AdmittedKeeps(cfg: Config, s: State, m: Message, mem: Memory, x: Item)
    requires CacheOk(cfg, s) && s.running.None? && Sound(mem.cache)
    requires Kept(s, x) && s.clock < x.expires ==> Serves(mem.cache, x)
    requires s.mem.Some? ==> mem == s.mem.value
    ensures var s' := Admitted(s, m, mem.counts, mem.cache, Admit(cfg, mem.cache, m, s.clock));
      CacheOk(cfg, s') && Preserves(s, s', x)
  {
    AdmitKeeps(cfg, mem.cache, m, s.clock, x);
  }

  lemma {:induction false} BeginKeeps(cfg: Config, s: State, m: Message, x: Item)
    requires CacheOk(cfg, s) && s.running.None?
    ensures CacheOk(cfg, BeginStep(cfg, s, m)) && Preserves(s, BeginStep(cfg, s, m), x)
  {
    LiveProperties(s.disk.cache, s.clock);
    FindInLive(s.disk.cache, s.clock, x.key);
    AdmittedKeeps(cfg, s, m, Loaded(s), x);
  }

  // ---------- Steps that store a response ----------

  lemma {:induction false} StoredKeeps(cfg: Config, s: State, r: InFlight, res: string, w: WriterPc, x: Item)
    requires CacheOk(cfg, s) && s.running == Some(r) && r.pc == CacheResponse(res, w) && CacheKey(r.msg).Some? && !w.Write?
    ensures var s' := Stored(s, r, res, WriterStep(s.mem.value.cache, w, Entry(r.msg, OneShot(res), r.now), r.now, cfg.cacheMax));
      && CacheOk(cfg, s') && (!RunEvicts(cfg, s, x.key) ==> Preserves(s, s', x))
  {
    var y := Entry(r.msg, OneShot(res), r.now);
    CacheKeyNotEmpty(r.msg);
    WriterStaysSound(s.mem.value.cache, w, y, r.now, cfg.cacheMax);
    if s.clock < x.expires && Serves(s.mem.value.cache, x) && NoThreat(s, x) && !RunEvicts(cfg, s, x.key) {
      WriterKeepsServing(s.mem.value.cache, w, y, r.now, s.clock, cfg.cacheMax, x);
    }
  }

  lemma {:induction false} CacheKeyNotEmpty(m: Message)
    ensures CacheKey(m) != Some("")
  {
  }

  lemma {:induction false} CacheStepKeeps(cfg: Config, s: State, r: InFlight, x: Item)
    requires CacheOk(cfg, s) && s.running == Some(r) && r.pc.CacheResponse?
    ensures var s' := CacheStep(cfg, s, r, r.pc.res, r.pc.writer);
      && CacheOk(cfg, s') && s'.clock == s.clock
      && (!RunEvicts(cfg, s, x.key) ==> Preserves(s, s', x))
      && (Guarded(s, x) && r.pc.writer.Write? && CacheKey(r.msg).Some? ==> Kept(s', x))
  {
    if CacheKey(r.msg).Some? && !r.pc.writer.Write? {
      StoredKeeps(cfg, s, r, r.pc.res, r.pc.writer, x);
    }
  }

  lemma {:induction false} StreamMoveKeeps(cfg: Config, s: State, sid: nat, m: Message, chunks: seq<string>, move: Move, x: Item)
    requires CacheOk(cfg, s) && sid in s.streams && s.streams[sid].Caching? && s.streams[sid].msg == m && s.mem.Some?
    requires move.Moved? ==> Sound(move.cache) && SoundWriter(move.pc) && !move.pc.Insert?
    requires move.Moved? && s.clock < x.expires && Serves(s.mem.value.cache, x) && NoThreat(s, x) ==> Serves(move.cache, x) && !Threatens(move.pc, x)
    ensures CacheOk(cfg, StreamStored(s, sid, m, chunks, move)) && Preserves(s, StreamStored(s, sid, m, chunks, move), x)
  {
  }

  lemma {:induction false} StreamStoredKeeps(cfg: Config, s: State, sid: nat, m: Message, chunks: seq<string>, w: WriterPc, x: Item)
    requires CacheOk(cfg, s) && sid in s.streams && s.streams[sid] == Caching(m, chunks, w) && CacheKey(m).Some? && !w.Write? && s.mem.Some?
    ensures var s' := StreamStored(s, sid, m, chunks, WriterStep(s.mem.value.cache, w, Entry(m, Stream(chunks), s.clock), s.clock, cfg.cacheMax));
      && CacheOk(cfg, s') && (!StreamEvicts(cfg, s, sid, x.key) ==> Preserves(s, s', x))
  {
    var y := Entry(m, Stream(chunks), s.clock);
    CacheKeyNotEmpty(m);
    WriterStaysSound(s.mem.value.cache, w, y, s.clock, cfg.cacheMax);
    if s.clock < x.expires && Serves(s.mem.value.cache, x) && NoThreat(s, x) && !StreamEvicts(cfg, s, sid, x.key) {
      assert !Rival(s.streams[sid], x.key) && !Stale(s.streams[sid], x);
      WriterKeepsServing(s.mem.value.cache, w, y, s.clock, s.clock, cfg.cacheMax, x);
    }
    if !StreamEvicts(cfg, s, sid, x.key) {
      StreamMoveKeeps(cfg, s, sid, m, chunks, WriterStep(s.mem.value.cache, w, y, s.clock, cfg.cacheMax), x);
    }
  }

  lemma {:induction false} StreamAdvanceKeeps(cfg: Config, s: State, sid: nat, x: Item)
    requires CacheOk(cfg, s)
    ensures var s' := StreamAdvanceStep(cfg, s, sid);
      && CacheOk(cfg, s') && s'.clock == s.clock
      && (!StreamEvicts(cfg, s, sid, x.key) ==> Preserves(s, s', x))
  {
    var s' := StreamAdvanceStep(cfg, s, sid);
    if s' != s {
      var p := s.streams[sid];
      if p.writer.Write? {
        assert SoundWriter(p.writer);
        assert NoThreat(s, x) ==> !Stale(p, x);
      } else {
        StreamStoredKeeps(cfg, s, sid, p.msg, p.chunks, p.writer, x);
      }
    }
  }

  // ---------- Steps that store nothing ----------

  // What every step before the handler leaves alone.
  ghost predicate EarlyMove(s: State, r: InFlight, s': State) {
    && s'.disk.cache == s.disk.cache && s'.disk.receipts == s.disk.receipts && s'.clock == s.clock
    && s.mem.Some? && s'.mem.Some? && s'.mem.value.cache == s.mem.value.cache
    && s'.streams == s.streams && s'.replies == s.replies
    && s'.running.Some? && s'.running.value.msg == r.msg && s'.running.value.now == r.now
    && !s'.running.value.pc.CacheResponse? && !s'.running.value.pc.WriteReceipt?
  }

  predicate Early(pc: Pc) {
    || pc.VerifySender? || pc.AuditReq? || pc.LoadCapability? || pc.CheckCapability? || pc.CheckProof?
    || pc.PersistCounts? || pc.ResolveAction?
  }

  lemma {:induction false} SenderStepIsEarly(s: State, r: InFlight)
    requires s.mem.Some?
    ensures EarlyMove(s, r, SenderStep(s, r)) && !SenderStep(s, r).running.value.pc.RunHandler?
  {
  }

  lemma {:induction false} PcStepIsEarly(cfg: Config, s: State, r: InFlight, sender: PublicKey)
    requires s.mem.Some?
    ensures EarlyMove(s, r, AuditStep(cfg, s, r, sender)) && !AuditStep(cfg, s, r, sender).running.value.pc.RunHandler?
    ensures EarlyMove(s, r, LoadStep(s, r, sender)) && !LoadStep(s, r, sender).running.value.pc.RunHandler?
  {
  }

  lemma {:induction false} CapabilityStepIsEarly(cfg: Config, s: State, r: InFlight)
    requires s.mem.Some? && r.pc.CheckCapability?
    ensures var s' := CapabilityStep(cfg, s, r, r.pc.sender, r.pc.dict, r.pc.inline); EarlyMove(s, r, s') && !s'.running.value.pc.RunHandler?
  {
  }

  lemma {:induction false} JudgedIsEarly(s: State, r: InFlight, token: Token, verdict: ProofVerdict)
    requires s.mem.Some?
    ensures EarlyMove(s, r, Judged(s, r, token, verdict)) && !Judged(s, r, token, verdict).running.value.pc.RunHandler?
  {
  }

  // A dispatch goes on to a handler only for a registered action.
  lemma {:induction false} AdvanceEarly(cfg: Config, s: State, r: InFlight, outcome: HandlerOutcome)
    requires s.mem.Some? && Early(r.pc)
    ensures var s' := AdvanceStep(cfg, s, r, outcome); EarlyMove(s, r, s') && (s'.running.value.pc.RunHandler? ==> cfg.handlers != {})
  {
    match r.pc
    case VerifySender => SenderStepIsEarly(s, r);
    case AuditReq(sender) => PcStepIsEarly(cfg, s, r, sender);
    case LoadCapability(sender) => PcStepIsEarly(cfg, s, r, sender);
    case CheckCapability(_, _, _) => CapabilityStepIsEarly(cfg, s, r);
    case CheckProof(sender, token) => JudgedIsEarly(s, r, token, JudgeProof(r.msg, s.mem.value.counts, sender, token));
    case PersistCounts(_) =>
    case ResolveAction(_) =>
  }

  // The sub-steps that touch no cache and go on with the same message.
  ghost predicate QuietMove(cfg: Config, s: State, r: InFlight, s': State) {
    && s'.disk.cache == s.disk.cache && s'.clock == s.clock && s.mem.Some? && s'.mem.Some? && s'.mem.value.cache == s.mem.value.cache
    && (s'.running.Some? ==>
          var r' := s'.running.value;
          r'.msg == r.msg && r'.now == r.now && !r.pc.Reject? && (r'.pc.CacheResponse? ==> r'.pc.writer.Insert?)
          && (PastResolve(r'.pc) ==> cfg.handlers != {}))
    && (forall sid :: sid in s'.streams ==>
          if sid in s.streams then s'.streams[sid] == s.streams[sid] else s'.streams[sid] == Open(r.msg) && !r.pc.Reject?)
  }

  lemma {:induction false} QuietKeeps(cfg: Config, s: State, r: InFlight, s': State, x: Item)
    requires CacheOk(cfg, s) && s.running == Some(r) && !r.pc.CacheResponse? && QuietMove(cfg, s, r, s')
    ensures CacheOk(cfg, s') && Preserves(s, s', x)
  {
  }

  lemma {:induction false} LateQuiet(cfg: Config, s: State, r: InFlight, outcome: HandlerOutcome)
    requires CacheOk(cfg, s) && s.running == Some(r)
    ensures r.pc.RunHandler? ==> QuietMove(cfg, s, r, HandlerStep(s, r, r.pc.cap, outcome))
    ensures r.pc.Reject? ==> QuietMove(cfg, s, r, RejectStep(s, r, r.pc.code))
    ensures r.pc.WriteReceipt? ==> QuietMove(cfg, s, r, WriteReceiptStep(s, r, r.pc.res))
  {
  }

  lemma {:induction false} AdvanceQuiet(cfg: Config, s: State, r: InFlight, outcome: HandlerOutcome)
    requires CacheOk(cfg, s) && s.running == Some(r) && !r.pc.CacheResponse?
    ensures QuietMove(cfg, s, r, AdvanceStep(cfg, s, r, outcome))
  {
    if Early(r.pc) {
      AdvanceEarly(cfg, s, r, outcome);
    } else {
      LateQuiet(cfg, s, r, outcome);
    }
  }

  lemma {:induction false} AdvanceIsCacheStep(cfg: Config, s: State, r: InFlight, outcome: HandlerOutcome)
    requires s.mem.Some? && r.pc.CacheResponse?
    ensures AdvanceStep(cfg, s, r, outcome) == CacheStep(cfg, s, r, r.pc.res, r.pc.writer)
  {
  }

  lemma {:induction false} AdvanceKeeps(cfg: Config, s: State, r: InFlight, outcome: HandlerOutcome, x: Item)
    requires CacheOk(cfg, s) && s.running == Some(r)
    ensures var s' := AdvanceStep(cfg, s, r, outcome);
      && CacheOk(cfg, s') && s'.clock == s.clock
      && (!RunEvicts(cfg, s, x.key) ==> Preserves(s, s', x))
  {
    if r.pc.CacheResponse? {
      AdvanceIsCacheStep(cfg, s, r, outcome);
      CacheStepKeeps(cfg, s, r, x);
    } else {
      AdvanceQuiet(cfg, s, r, outcome);
      QuietKeeps(cfg, s, r, AdvanceStep(cfg, s, r, outcome), x);
    }
  }

  predicate Starts(p: StreamPc, q: StreamPc) {
    p.Open? && q.Caching? && q.writer.Insert? && q.msg == p.msg && CacheKey(p.msg).Some?
  }

  // Time passes, streams end or start storing; nothing else that matters here changes.
  lemma {:induction false} FrameKeeps(cfg: Config, s: State, s': State, x: Item)
    requires CacheOk(cfg, s) && s'.disk.cache == s.disk.cache && s'.mem == s.mem && s'.running == s.running && s'.clock >= s.clock
    requires forall sid :: sid in s'.streams ==> sid in s.streams && (s'.streams[sid] == s.streams[sid] || Starts(s.streams[sid], s'.streams[sid]))
    ensures CacheOk(cfg, s') && Preserves(s, s', x)
  {
  }

  lemma {:induction false} OtherStepKeeps(cfg: Config, s: State, step: Step, x: Item)
    requires CacheOk(cfg, s) && !step.Begin? && !step.Advance? && !step.StreamAdvance?
    ensures var s' := Next(cfg, s, step);
      && CacheOk(cfg, s') && s'.clock >= s.clock
      && (Kept(s, x) ==> Kept(s', x)) && (!step.Crash? && Guarded(s, x) ==> Guarded(s', x))
  {
    if !step.Crash? {
      FrameKeeps(cfg, s, Next(cfg, s, step), x);
    }
  }

  lemma {:induction false} StepKeeps(cfg: Config, s: State, step: Step, x: Item)
    requires CacheOk(cfg, s)
    ensures var s' := Next(cfg, s, step);
      && CacheOk(cfg, s') && s'.clock >= s.clock
      && (!EvictsForSpace(cfg, s, step, x.key) ==>
            (Kept(s, x) ==> Kept(s', x)) && (!step.Crash? && Guarded(s, x) ==> Guarded(s', x)))
  {
    match step
    case Begin(m) => if s.running.None? { BeginKeeps(cfg, s, m, x); }
    case Advance(outcome) => if s.running.Some? { AdvanceKeeps(cfg, s, s.running.value, outcome, x); }
    case StreamAdvance(sid) => StreamAdvanceKeeps(cfg, s, sid, x);
    case _ => OtherStepKeeps(cfg, s, step, x);
  }

  // No step of the run lists this key's live entry for lack of space.
  ghost predicate NeverEvicted(cfg: Config, s: State, steps: seq<Step>, key: string)
    decreases |steps|
  {
    steps != [] ==> !EvictsForSpace(cfg, s, steps[0], key) && NeverEvicted(cfg, Next(cfg, s, steps[0]), steps[1..], key)
  }

  lemma {:induction false} RunKeeps(cfg: Config, s: State, steps: seq<Step>, x: Item)
    requires CacheOk(cfg, s)
    ensures CacheOk(cfg, Run(cfg, s, steps)) && Run(cfg, s, steps).clock >= s.clock
    ensures Kept(s, x) && NeverEvicted(cfg, s, steps, x.key) ==> Kept(Run(cfg, s, steps), x)
    decreases |steps|
  {
    if steps != [] {
      StepKeeps(cfg, s, steps[0], x);
      RunKeeps(cfg, Next(cfg, s, steps[0]), steps[1..], x);
    }
  }

  // ---------- Replay ----------

  // The only instants outside the deadline's refusal at which a message handled at `h` goes through the
  // pipeline again: the deadline itself, when the entry expires with it, and, for a message without a
  // deadline, any time after the entry expired.
  ghost predicate GoesOnAgain(m: Message, h: int, now: int) {
    if m.body.deadline.Some? then now == m.body.deadline.value && m.body.deadline.value - h >= 10
    else now >= h + 60
  }

  lemma {:induction false} UntilMeaning(m: Message, h: int, now: int)
    requires m.body.deadline.Some? ==> h <= m.body.deadline.value
    ensures now < ReplaysUntil(m, h) <==> !DeadlineExceeded(m, now) && !GoesOnAgain(m, h, now)
    ensures ReplaysUntil(m, h) <= CacheExpiry(m, h)
  {
  }

  // Sent again in this idle state, the message gets the identical response, or deadline_exceeded.
  ghost predicate ServedAgain(cfg: Config, s: State, m: Message, res: string, h: int) {
    !GoesOnAgain(m, h, s.clock) ==>
      var s' := Next(cfg, s, Begin(m));
      if DeadlineExceeded(m, s.clock) then s'.running == Some(InFlight(m, s.clock, Reject(DeadlinePassed)))
      else s'.running.None? && s'.replies == s.replies + [Done(m.body.id, Replay(OneShot(res)))]
  }

  lemma {:induction false} AdmitServed(cfg: Config, cache: seq<Item>, m: Message, res: string, h: int, now: int)
    requires CacheKey(m).Some? && InTime(cfg, m, h) && h <= now
    requires now < ReplaysUntil(m, h) ==> Serves(cache, Promise(m, res, h))
    ensures DeadlineExceeded(m, now) ==> Admit(cfg, cache, m, now) == Refuse(DeadlinePassed)
    ensures !DeadlineExceeded(m, now) && !GoesOnAgain(m, h, now) ==> Admit(cfg, cache, m, now) == Hit(OneShot(res))
  {
    UntilMeaning(m, h, now);
  }

  lemma {:induction false} KeptIsServed(cfg: Config, s: State, m: Message, res: string, h: int)
    requires CacheOk(cfg, s) && s.running.None? && CacheKey(m).Some? && InTime(cfg, m, h) && h <= s.clock
    requires Kept(s, Promise(m, res, h))
    ensures ServedAgain(cfg, s, m, res, h)
  {
    FindInLive(s.disk.cache, s.clock, CacheKey(m).value);
    UntilMeaning(m, h, s.clock);
    AdmitServed(cfg, Loaded(s).cache, m, res, h, s.clock);
  }

  // The dispatch of m has inserted its response and not yet saved it.
  ghost predicate Storing(s: State, m: Message, res: string, h: int) {
    && s.running.Some? && s.running.value.msg == m && s.running.value.now == h
    && s.running.value.pc.CacheResponse? && s.running.value.pc.res == res && !s.running.value.pc.writer.Insert?
  }

  // Since s the dispatch then running has been answered.
  ghost predicate Answered(s: State, s': State, m: Message, res: string) {
    |s'.replies| > |s.replies| && s'.replies[|s.replies|] == Done(m.body.id, Answer(res))
  }

  lemma {:induction false} RepliesGrow(cfg: Config, s: State, steps: seq<Step>)
    ensures s.replies <= Run(cfg, s, steps).replies
    decreases |steps|
  {
    if steps != [] {
      RepliesGrow(cfg, Next(cfg, s, steps[0]), steps[1..]);
      StepReplies(cfg, s, steps[0]);
    }
  }

  lemma {:induction false} StepReplies(cfg: Config, s: State, step: Step)
    ensures s.replies <= Next(cfg, s, step).replies
  {
    if step.Advance? && s.running.Some? && s.mem.Some? && Early(s.running.value.pc) {
      AdvanceEarly(cfg, s, s.running.value, step.outcome);
    }
  }

  lemma {:induction false} OthersLeaveItRunning(cfg: Config, s: State, step: Step)
    requires s.running.Some? && !step.Advance? && !step.Crash?
    ensures Next(cfg, s, step).running == s.running && Next(cfg, s, step).replies == s.replies
  {
  }

  lemma {:induction false} StoringAdvance(cfg: Config, s: State, r: InFlight, m: Message, res: string, h: int, x: Item)
    requires CacheOk(cfg, s) && s.running == Some(r) && Storing(s, m, res, h) && CacheKey(m).Some? && Guarded(s, x)
    ensures var s' := CacheStep(cfg, s, r, res, r.pc.writer);
      || (Storing(s', m, res, h) && s'.replies == s.replies)
      || (|s'.replies| > |s.replies| && (Answered(s, s', m, res) ==> Kept(s', x)))
  {
    CacheStepKeeps(cfg, s, r, x);
  }

  lemma {:induction false} StoringStep(cfg: Config, s: State, step: Step, m: Message, res: string, h: int, x: Item)
    requires CacheOk(cfg, s) && Storing(s, m, res, h) && CacheKey(m).Some? && Guarded(s, x) && !step.Crash?
    ensures var s' := Next(cfg, s, step);
      || (Storing(s', m, res, h) && s'.replies == s.replies)
      || (|s'.replies| > |s.replies| && (Answered(s, s', m, res) ==> Kept(s', x)))
  {
    if step.Advance? {
      StoringAdvance(cfg, s, s.running.value, m, res, h, x);
    } else {
      OthersLeaveItRunning(cfg, s, step);
    }
  }

  // Until it is answered the dispatch goes on storing; from its answer on the response is kept.
  lemma {:induction false} StoringRun(cfg: Config, s: State, steps: seq<Step>, m: Message, res: string, h: int, x: Item)
    requires CacheOk(cfg, s) && Storing(s, m, res, h) && CacheKey(m).Some? && Guarded(s, x)
    requires Crash !in steps && NeverEvicted(cfg, s, steps, x.key)
    ensures Answered(s, Run(cfg, s, steps), m, res) ==> Kept(Run(cfg, s, steps), x)
    decreases |steps|
  {
    if steps != [] {
      var s', rest := Next(cfg, s, steps[0]), steps[1..];
      StepKeeps(cfg, s, steps[0], x);
      StoringStep(cfg, s, steps[0], m, res, h, x);
      RepliesGrow(cfg, s', rest);
      if Storing(s', m, res, h) && s'.replies == s.replies {
        StoringRun(cfg, s', rest, m, res, h, x);
      } else {
        RunKeeps(cfg, s', rest, x);
      }
    }
  }

  // In state s a one-shot dispatch is about to insert its response. It does; `between` it is answered, other
  // work interleaved but no crash; `later` anything happens, restarts included. Throughout, the cache never
  // drops a live entry of the key for lack of space.
  ghost predicate Continuation(cfg: Config, s: State, m: Message, res: string, between: seq<Step>, later: seq<Step>)
    requires CacheKey(m).Some?
  {
    var s1 := Next(cfg, s, Advance(Raised("")));
    var s2 := Run(cfg, s1, between);
    && Crash !in between && NeverEvicted(cfg, s1, between, CacheKey(m).value) && Answered(s1, s2, m, res)
    && NeverEvicted(cfg, s2, later, CacheKey(m).value) && Run(cfg, s2, later).running.None?
  }

  ghost function After(cfg: Config, s: State, between: seq<Step>, later: seq<Step>): State {
    Run(cfg, Run(cfg, Next(cfg, s, Advance(Raised(""))), between), later)
  }

  // No stream of any key breaks the promise: none under the key has yet to insert its own response, and none
  // holds a list with the key or a copy of the cache without the response, taken before this insertion.
  ghost predicate Unthreatened(s: State, x: Item) {
    s.clock < x.expires ==> forall sid :: sid in s.streams ==> !Rival(s.streams[sid], x.key) && !Stale(s.streams[sid], x)
  }

  ghost predicate AboutToStore(s: State, r: InFlight, res: string) {
    s.running == Some(r) && r.pc == CacheResponse(res, WriterPc.Insert) && CacheKey(r.msg).Some?
  }

  lemma {:induction false} InsertStep(cfg: Config, s: State, r: InFlight, res: string)
    requires CacheOk(cfg, s) && AboutToStore(s, r, res)
    ensures Next(cfg, s, Advance(Raised(""))) == Stored(s, r, res, Moved(Put(s.mem.value.cache, Entry(r.msg, OneShot(res), r.now)), Collect))
    ensures Next(cfg, s, Advance(Raised(""))) == CacheStep(cfg, s, r, res, WriterPc.Insert)
  {
  }

  lemma {:induction false} InsertedIsGuarded(cfg: Config, s: State, r: InFlight, res: string)
    requires CacheOk(cfg, s) && AboutToStore(s, r, res)
    ensures var s1 := Next(cfg, s, Advance(Raised("")));
      && s1 == Stored(s, r, res, Moved(Put(s.mem.value.cache, Entry(r.msg, OneShot(res), r.now)), Collect))
      && CacheOk(cfg, s1) && Storing(s1, r.msg, res, r.now) && s1.clock == s.clock && s1.replies == s.replies && s1.streams == s.streams
      && Serves(s1.mem.value.cache, Promise(r.msg, res, r.now))
      && (Unthreatened(s, Promise(r.msg, res, r.now)) ==> Guarded(s1, Promise(r.msg, res, r.now)))
  {
    var x := Promise(r.msg, res, r.now);
    UntilMeaning(r.msg, r.now, s.clock);
    InsertStep(cfg, s, r, res);
    CacheStepKeeps(cfg, s, r, x);
    FindInPut(s.mem.value.cache, Entry(r.msg, OneShot(res), r.now), x.key);
  }

  // Replay safety: unthreatened, the response stays the answer over every continuation.
  lemma {:induction false} ReplayNeverReruns(cfg: Config, s: State, r: InFlight, res: string, between: seq<Step>, later: seq<Step>)
    requires CacheOk(cfg, s) && AboutToStore(s, r, res) && Unthreatened(s, Promise(r.msg, res, r.now))
    requires Continuation(cfg, s, r.msg, res, between, later)
    ensures ServedAgain(cfg, After(cfg, s, between, later), r.msg, res, r.now)
  {
    var x := Promise(r.msg, res, r.now);
    var s1 := Next(cfg, s, Advance(Raised("")));
    InsertedIsGuarded(cfg, s, r, res);
    StoringRun(cfg, s1, between, r.msg, res, r.now, x);
    RunKeeps(cfg, s1, between, x);
    var s2 := Run(cfg, s1, between);
    RunKeeps(cfg, s2, later, x);
    KeptIsServed(cfg, Run(cfg, s2, later), r.msg, res, r.now);
  }
}
