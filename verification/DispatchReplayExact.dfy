// The exact condition for replay safety: whenever an unlocked stream threatens a response about to be
// stored, some continuation answers the same message differently.
module DispatchReplayExact {
  import opened Wrappers
  import opened Crypto
  import opened Messages
  import opened PeerCache
  import opened IdempotencyCache
  import opened CacheWriter
  import opened Dispatch
  import opened DispatchDrive
  import opened DispatchReplay
  import Identity

  // ---------- Ways from state to state ----------

  // Some crash-free run leads from one to the other without dropping the key for lack of space.
  ghost predicate Way(cfg: Config, s: State, s': State, key: string) {
    forall k :: Unsealed(k) ==> exists steps :: Run(cfg, s, steps) == s' && Crash !in steps && NeverEvicted(cfg, s, steps, key)
  }

  lemma {:induction false} NeverEvictedOn(cfg: Config, s: State, a: seq<Step>, b: seq<Step>, key: string)
    ensures NeverEvicted(cfg, s, a + b, key) <==> NeverEvicted(cfg, s, a, key) && NeverEvicted(cfg, Run(cfg, s, a), b, key)
    decreases |a|
  {
    if a == [] {
      assert a + b == b;
    } else {
      assert (a + b)[0] == a[0] && (a + b)[1..] == a[1..] + b;
      NeverEvictedOn(cfg, Next(cfg, s, a[0]), a[1..], b, key);
    }
  }

  lemma {:induction false} WayStays(cfg: Config, s: State, key: string)
    ensures Way(cfg, s, s, key)
  {
    assert Run(cfg, s, []) == s && Crash !in [] && NeverEvicted(cfg, s, [], key);
  }

  lemma {:induction false} WayStep(cfg: Config, s: State, step: Step, s': State, key: string)
    requires Next(cfg, s, step) == s' && !step.Crash? && !EvictsForSpace(cfg, s, step, key)
    ensures Way(cfg, s, s', key)
  {
    var steps := [step];
    assert steps[1..] == [];
    assert NeverEvicted(cfg, s', [], key);
    assert Run(cfg, s, steps) == s' && NeverEvicted(cfg, s, steps, key);
  }

  lemma {:induction false} WayOn(cfg: Config, a: State, b: State, c: State, key: string)
    requires Way(cfg, a, b, key) && Way(cfg, b, c, key)
    ensures Way(cfg, a, c, key)
  {
    assert Unsealed(0);
    var x :| Run(cfg, a, x) == b && Crash !in x && NeverEvicted(cfg, a, x, key);
    var y :| Run(cfg, b, y) == c && Crash !in y && NeverEvicted(cfg, b, y, key);
    RunOn(cfg, a, x, y);
    NeverEvictedOn(cfg, a, x, y, key);
    assert Run(cfg, a, x + y) == c && Crash !in x + y;
  }

  lemma {:induction false} WayThen(cfg: Config, a: State, b: State, step: Step, c: State, key: string)
    requires Way(cfg, a, b, key) && Next(cfg, b, step) == c && !step.Crash? && !EvictsForSpace(cfg, b, step, key)
    ensures Way(cfg, a, c, key)
  {
    WayStep(cfg, b, step, c, key);
    WayOn(cfg, a, b, c, key);
  }

  lemma {:induction false} WayOk(cfg: Config, s: State, s': State, key: string)
    requires Way(cfg, s, s', key) && CacheOk(cfg, s)
    ensures CacheOk(cfg, s')
  {
    assert Unsealed(0);
    var steps :| Run(cfg, s, steps) == s' && Crash !in steps && NeverEvicted(cfg, s, steps, key);
    RunKeeps(cfg, s, steps, Item(key, OneShot(""), 0));
  }

  lemma {:induction false} StepsOf(cfg: Config, s: State, s': State, key: string) returns (steps: seq<Step>)
    requires Way(cfg, s, s', key)
    ensures Run(cfg, s, steps) == s' && Crash !in steps && NeverEvicted(cfg, s, steps, key)
  {
    assert Unsealed(0);
    steps :| Run(cfg, s, steps) == s' && Crash !in steps && NeverEvicted(cfg, s, steps, key);
  }

  // ---------- The dispatch completes ----------

  // Left alone, a dispatch storing its response ends with it in memory and on disk, not dropped on the way.
  lemma {:induction false} Completes(cfg: Config, s: State, r: InFlight, res: string, w: WriterPc, c: seq<Item>)
    requires s.running == Some(r) && r.pc == CacheResponse(res, w) && s.mem.Some? && CacheKey(r.msg).Some? && !w.Write? && !w.Insert?
    requires Outcome(s.mem.value.cache, w, Entry(r.msg, OneShot(res), r.now), r.now, cfg.cacheMax) == Some(c)
    requires Find(c, CacheKey(r.msg).value).Some?
    ensures Way(cfg, s, Finish(SaveCache(SetCache(s, c), c), r.msg, Answer(res)), CacheKey(r.msg).value)
    decreases Stage(w), Left(w)
  {
    var key, x := CacheKey(r.msg).value, Entry(r.msg, OneShot(res), r.now);
    var move := WriterStep(s.mem.value.cache, w, x, r.now, cfg.cacheMax);
    var s' := Stored(s, r, res, move);
    if RunEvicts(cfg, s, key) {
      OutcomeLacks(move.cache, move.pc, x, r.now, cfg.cacheMax, key);
    }
    StoredIsNext(cfg, s, r, res, w, Raised(""));
    WayStep(cfg, s, Advance(Raised("")), s', key);
    if move.pc.Write? {
      WrittenIsNext(cfg, s', s'.running.value, res, move.pc.snap);
      WayThen(cfg, s, s', Advance(Raised("")), Finish(SaveCache(s', move.pc.snap), r.msg, Answer(res)), key);
    } else {
      Completes(cfg, s', s'.running.value, res, move.pc, c);
      WayOn(cfg, s, s', Finish(SaveCache(SetCache(s', c), c), r.msg, Answer(res)), key);
    }
  }

  lemma {:induction false} WrittenIsNext(cfg: Config, s: State, r: InFlight, res: string, snap: seq<Item>)
    requires s.running == Some(r) && r.pc == CacheResponse(res, Write(snap)) && s.mem.Some? && CacheKey(r.msg).Some?
    ensures Next(cfg, s, Advance(Raised(""))) == Finish(SaveCache(s, snap), r.msg, Answer(res))
  {
  }

  // ---------- Another request ----------

  // A request anyone may send: signed by the key known for its sender, or introducing itself.
  function Errand(peers: Peers, key: string, action: string, deadline: Option<int>, until: int): Message {
    var from := Derived(PublicOf(0));
    var known := ResolveKey(peers, from);
    var body := MessageBody("", from, "", None, None, deadline, Some(key), action,
      Some(Identity.Document(from, Some(PublicOf(0)), KeyDigest(PublicOf(0)))), None,
      Some(AuditContext(Some("x"), Some("x"), Some(""), Some(until))));
    Message(body, Signed(if known.Some? then known.value else PublicOf(0), body))
  }

  // Under no capability and with an audit context that is in order now, it gets through once its sender does.
  ghost predicate Welcome(peers: Peers, m: Message, action: string, now: int) {
    && CheckSender(peers, m).sender.Ok? && m.body.capId.None? && m.body.action == action
    && m.body.auditContext.Some? && AuditFault(m.body.auditContext.value, m.body.to, now).None?
  }

  lemma {:induction false} ErrandIsWelcome(peers: Peers, key: string, action: string, deadline: Option<int>, until: int, now: int)
    requires now <= until
    ensures Welcome(peers, Errand(peers, key, action, deadline, until), action, now)
  {
    var m := Errand(peers, key, action, deadline, until);
    if ResolveKey(peers, m.body.from).None? {
      assert Tofu(peers, m.body.from, m.body.identityDoc.value).key == Some(PublicOf(0));
    }
    assert Some("x").value[0] !in " \t\n\r";
    assert !Blank(Some("x"));
  }

  ghost predicate EntersPipeline(cfg: Config, s: State, m: Message) {
    Next(cfg, s, Begin(m)).running == Some(InFlight(m, s.clock, VerifySender))
  }

  // In an idle state it reaches the handler, touching neither the disk's cache nor streams.
  ghost predicate AtHandler(s: State, s': State, m: Message, action: string) {
    && s'.running == Some(InFlight(m, s.clock, RunHandler(action, None))) && s'.mem.Some?
    && s'.streams == s.streams && s'.disk.cache == s.disk.cache && s'.clock == s.clock && s'.replies == s.replies
    && s'.disk.peers == CheckSender(s.disk.peers, m).peers
  }

  lemma {:induction false} FromSender(cfg: Config, s: State, r: InFlight, o: HandlerOutcome, action: string, k: string) returns (s': State)
    requires s.running == Some(r) && r.pc == VerifySender && s.mem.Some? && action in cfg.handlers
    requires Welcome(s.disk.peers, r.msg, action, r.now)
    ensures Way(cfg, s, s', k) && s'.running == Some(r.(pc := RunHandler(action, None))) && s'.mem == s.mem
    ensures s'.streams == s.streams && s'.disk.cache == s.disk.cache && s'.clock == s.clock && s'.replies == s.replies
    ensures s'.disk.peers == CheckSender(s.disk.peers, r.msg).peers
  {
    var sender := CheckSender(s.disk.peers, r.msg).sender.value;
    var a := SenderStep(s, r);
    WayStep(cfg, s, Advance(o), a, k);
    var b := At(a, a.running.value, LoadCapability(sender));
    assert AuditStep(cfg, a, a.running.value, sender) == b;
    WayThen(cfg, s, a, Advance(o), b, k);
    var c := At(b, b.running.value, ResolveAction(None));
    assert LoadStep(b, b.running.value, sender) == c;
    WayThen(cfg, s, b, Advance(o), c, k);
    s' := At(c, c.running.value, RunHandler(action, None));
    assert ResolveStep(cfg, c, c.running.value, None) == s';
    WayThen(cfg, s, c, Advance(o), s', k);
  }

  lemma {:induction false} EnteringLeaves(cfg: Config, s: State, m: Message)
    requires s.running.None? && EntersPipeline(cfg, s, m)
    ensures var a := Next(cfg, s, Begin(m)); a.disk == s.disk && a.streams == s.streams && a.clock == s.clock && a.replies == s.replies && a.mem.Some?
  {
  }

  lemma {:induction false} WelcomeReachesHandler(cfg: Config, s: State, m: Message, action: string, o: HandlerOutcome, k: string)
    returns (s': State)
    requires s.running.None? && action in cfg.handlers && Welcome(s.disk.peers, m, action, s.clock)
    requires EntersPipeline(cfg, s, m)
    ensures Way(cfg, s, s', k) && AtHandler(s, s', m, action) && s'.mem == Next(cfg, s, Begin(m)).mem
  {
    var a := Next(cfg, s, Begin(m));
    EnteringLeaves(cfg, s, m);
    WayStep(cfg, s, Begin(m), a, k);
    s' := FromSender(cfg, a, InFlight(m, s.clock, VerifySender), o, action, k);
    WayOn(cfg, s, a, s', k);
  }

  lemma {:induction false} ReachHandler(cfg: Config, s: State, key: string, action: string, deadline: Option<int>, until: int, o: HandlerOutcome, k: string)
    returns (m: Message, s': State)
    requires s.running.None? && action in cfg.handlers && key != "" && Find(Loaded(s).cache, key).None?
    requires s.clock <= until && (deadline.Some? ==> s.clock <= deadline.value <= s.clock + cfg.maxDeadlineSeconds)
    ensures CacheKey(m) == Some(key) && m == Errand(s.disk.peers, key, action, deadline, until)
    ensures Way(cfg, s, s', k) && AtHandler(s, s', m, action) && s'.mem == Some(Loaded(s)) && Welcome(s.disk.peers, m, action, s.clock)
  {
    m := Errand(s.disk.peers, key, action, deadline, until);
    ErrandIsWelcome(s.disk.peers, key, action, deadline, until, s.clock);
    assert Admit(cfg, Loaded(s).cache, m, s.clock) == Miss(Loaded(s).cache);
    s' := WelcomeReachesHandler(cfg, s, m, action, o, k);
  }

  // A missing key comes back: a request under it whose handler streams, drained and parked after inserting.
  lemma {:induction false} StreamOpens(cfg: Config, s: State, key: string, action: string, sid: nat, k: string) returns (m: Message, s': State)
    requires s.running.None? && action in cfg.handlers && key != "" && Find(Loaded(s).cache, key).None? && sid !in s.streams
    ensures Way(cfg, s, s', k) && CacheKey(m) == Some(key) && s'.running.None? && s'.mem == Some(Loaded(s)) && s'.clock == s.clock
    ensures s'.streams == s.streams[sid := Caching(m, [], WriterPc.Insert)]
  {
    var o := Generator(sid);
    var a: State;
    m, a := ReachHandler(cfg, s, key, action, None, s.clock, o, k);
    var b := HandlerStep(a, a.running.value, None, o);
    WayThen(cfg, s, a, Advance(o), b, k);
    s' := b.(streams := b.streams[sid := Caching(m, [], WriterPc.Insert)]);
    WayThen(cfg, s, b, StreamDrained(sid, []), s', k);
  }

  lemma {:induction false} Refill(cfg: Config, s: State, key: string, k: string) returns (s': State)
    requires s.running.None? && s.mem.Some? && cfg.handlers != {} && key != "" && Find(s.mem.value.cache, key).None?
    ensures Way(cfg, s, s', k) && s'.running.None? && s'.mem.Some? && s'.clock == s.clock
    ensures exists y: Item :: y.key == key && s'.mem.value.cache == Put(s.mem.value.cache, y)
    ensures forall i :: i in s.streams ==> i in s'.streams && s'.streams[i] == s.streams[i]
  {
    var action :| action in cfg.handlers;
    var sid := FreshId(s.streams.Keys);
    var m, c := StreamOpens(cfg, s, key, action, sid, k);
    var y := Entry(m, Stream([]), c.clock);
    s' := StreamStored(c, sid, m, [], Moved(Put(c.mem.value.cache, y), Collect));
    assert StreamAdvanceStep(cfg, c, sid) == s';
    WayThen(cfg, s, c, StreamAdvance(sid), s', k);
  }

  // ---------- A threatening stream acts ----------

  function Dropping(w: WriterPc): seq<string> {
    if w.DropExpired? || w.DropExcess? then w.keys else []
  }

  lemma {:induction false} DropStep(cfg: Config, s: State, sid: nat, k: string) returns (s': State)
    requires CacheOk(cfg, s) && s.mem.Some? && sid in s.streams && s.streams[sid].Caching? && CacheKey(s.streams[sid].msg).Some?
    requires Dropping(s.streams[sid].writer) != [] && Find(s.mem.value.cache, Dropping(s.streams[sid].writer)[0]).Some?
    ensures var keys := Dropping(s.streams[sid].writer);
      && Way(cfg, s, s', k) && s'.running == s.running && s'.mem.Some? && s'.clock == s.clock
      && s'.mem.value.cache == Remove(s.mem.value.cache, {keys[0]})
      && sid in s'.streams && s'.streams[sid].Caching? && s'.streams[sid].msg == s.streams[sid].msg
      && Dropping(s'.streams[sid].writer) == keys[1..]
  {
    var p := s.streams[sid];
    s' := StreamStored(s, sid, p.msg, p.chunks, WriterStep(s.mem.value.cache, p.writer, Entry(p.msg, Stream(p.chunks), s.clock), s.clock, cfg.cacheMax));
    assert StreamAdvanceStep(cfg, s, sid) == s';
    WayStep(cfg, s, StreamAdvance(sid), s', k);
  }

  // A stream with the key on its list gets to delete it: keys before it that are gone can come back.
  lemma {:induction false} ListedGetsDropped(cfg: Config, s: State, sid: nat, key: string) returns (s': State)
    requires CacheOk(cfg, s) && s.running.None? && s.mem.Some? && cfg.handlers != {}
    requires sid in s.streams && s.streams[sid].Caching? && CacheKey(s.streams[sid].msg).Some? && key in Dropping(s.streams[sid].writer)
    ensures Way(cfg, s, s', key) && s'.running.None? && s'.mem.Some? && s'.clock == s.clock && Find(s'.mem.value.cache, key).None?
    decreases |Dropping(s.streams[sid].writer)|
  {
    var first := Dropping(s.streams[sid].writer)[0];
    if Find(s.mem.value.cache, key).None? {
      WayStays(cfg, s, key);
      s' := s;
    } else if Find(s.mem.value.cache, first).None? {
      assert SoundWriter(s.streams[sid].writer);
      var a := Refill(cfg, s, first, key);
      WayOk(cfg, s, a, key);
      var y: Item :| y.key == first && a.mem.value.cache == Put(s.mem.value.cache, y);
      FindInPut(s.mem.value.cache, y, first);
      s' := FirstDropped(cfg, a, sid, key);
      WayOn(cfg, s, a, s', key);
    } else {
      s' := FirstDropped(cfg, s, sid, key);
    }
  }

  lemma {:induction false} FirstDropped(cfg: Config, s: State, sid: nat, key: string) returns (s': State)
    requires CacheOk(cfg, s) && s.running.None? && s.mem.Some? && cfg.handlers != {}
    requires sid in s.streams && s.streams[sid].Caching? && CacheKey(s.streams[sid].msg).Some? && key in Dropping(s.streams[sid].writer)
    requires Find(s.mem.value.cache, Dropping(s.streams[sid].writer)[0]).Some?
    ensures Way(cfg, s, s', key) && s'.running.None? && s'.mem.Some? && s'.clock == s.clock && Find(s'.mem.value.cache, key).None?
    decreases |Dropping(s.streams[sid].writer)|, 0
  {
    var keys := Dropping(s.streams[sid].writer);
    var b := DropStep(cfg, s, sid, key);
    FindInRest(s.mem.value.cache, {keys[0]}, key);
    if keys[0] == key {
      s' := b;
    } else {
      WayOk(cfg, s, b, key);
      s' := ListedGetsDropped(cfg, b, sid, key);
      WayOn(cfg, s, b, s', key);
    }
  }

  // In this idle state the message would not get the promised response.
  ghost predicate Unserved(cfg: Config, s: State, m: Message, res: string, h: int) {
    s.running.None? && !ServedAgain(cfg, s, m, res, h)
  }

  lemma {:induction false} LastDiffers(replies: seq<Done>, a: Done, b: Done)
    requires a != b
    ensures replies + [a] != replies + [b]
  {
    assert (replies + [a])[|replies|] == a;
  }

  lemma {:induction false} LackingIsUnserved(cfg: Config, s: State, m: Message, res: string, h: int)
    requires s.running.None? && CacheKey(m).Some? && InTime(cfg, m, h) && h <= s.clock < ReplaysUntil(m, h)
    requires Find(Loaded(s).cache, CacheKey(m).value).None? || Find(Loaded(s).cache, CacheKey(m).value).value.response != OneShot(res)
    ensures Unserved(cfg, s, m, res, h)
  {
    UntilMeaning(m, h, s.clock);
    var s' := Next(cfg, s, Begin(m));
    var hit := Find(Loaded(s).cache, CacheKey(m).value);
    assert s'.running.None? ==> hit.Some? && s'.replies == s.replies + [Done(m.body.id, Replay(hit.value.response))];
    if hit.Some? {
      LastDiffers(s.replies, Done(m.body.id, Replay(hit.value.response)), Done(m.body.id, Replay(OneShot(res))));
    }
  }

  // A rival of the same key puts its own response in memory.
  lemma {:induction false} RivalOvertakes(cfg: Config, s: State, sid: nat, m: Message, res: string, h: int) returns (s': State)
    requires CacheOk(cfg, s) && s.running.None? && s.mem.Some? && CacheKey(m).Some? && InTime(cfg, m, h) && h <= s.clock < ReplaysUntil(m, h)
    requires sid in s.streams && Rival(s.streams[sid], CacheKey(m).value)
    ensures Way(cfg, s, s', CacheKey(m).value) && Unserved(cfg, s', m, res, h)
  {
    var key, n := CacheKey(m).value, s.streams[sid].msg;
    var chunks := if s.streams[sid].Open? then [] else s.streams[sid].chunks;
    var a := if s.streams[sid].Open? then s.(streams := s.streams[sid := Caching(n, [], WriterPc.Insert)]) else s;
    if s.streams[sid].Open? {
      WayStep(cfg, s, StreamDrained(sid, []), a, key);
    } else {
      WayStays(cfg, s, key);
    }
    var y := Entry(n, Stream(chunks), a.clock);
    s' := StreamStored(a, sid, n, chunks, Moved(Put(a.mem.value.cache, y), Collect));
    assert StreamAdvanceStep(cfg, a, sid) == s';
    WayThen(cfg, s, a, StreamAdvance(sid), s', key);
    FindInPut(a.mem.value.cache, y, key);
    LackingIsUnserved(cfg, s', m, res, h);
  }

  // A copy breaking the promise does so now, or when its own entry expires.
  lemma {:induction false} CopyFails(snap: seq<Item>, p: Item, clock: int) returns (at: int)
    requires Sound(snap) && clock < p.expires && !Serves(snap, p)
    ensures clock <= at < p.expires
    ensures Find(Live(snap, at), p.key).None? || Find(Live(snap, at), p.key).value.response != p.response
  {
    var y := Find(snap, p.key);
    at := if y.Some? && y.value.response == p.response && clock < y.value.expires then y.value.expires else clock;
    FindInLive(snap, at, p.key);
  }

  lemma {:induction false} CopyWritten(cfg: Config, s: State, sid: nat, wait: nat, snap: seq<Item>, key: string)
    requires s.mem.Some? && sid in s.streams && s.streams[sid].Caching? && CacheKey(s.streams[sid].msg).Some?
    requires s.streams[sid].writer == Write(snap)
    ensures var steps := [StreamAdvance(sid), Crash, Tick(wait)];
      && NeverEvicted(cfg, s, steps, key)
      && (var s' := Run(cfg, s, steps); s'.running.None? && s'.mem.None? && s'.disk.cache == snap && s'.clock == s.clock + wait && s'.disk.peers == s.disk.peers)
  {
    ThreeSteps(cfg, s, StreamAdvance(sid), Crash, Tick(wait), key);
    assert StreamAdvanceStep(cfg, s, sid) == SaveCache(s, snap).(streams := s.streams[sid := Persisted(s.streams[sid].msg)]);
  }

  // A copy of the dict taken before overwrites the file, and the process restarts.
  lemma {:induction false} OldCopyWins(cfg: Config, s: State, sid: nat, m: Message, res: string, h: int) returns (steps: seq<Step>)
    requires CacheOk(cfg, s) && s.mem.Some? && CacheKey(m).Some? && InTime(cfg, m, h) && h <= s.clock < ReplaysUntil(m, h)
    requires sid in s.streams && s.streams[sid].Caching? && CacheKey(s.streams[sid].msg).Some?
    requires s.streams[sid].writer.Write? && !Serves(s.streams[sid].writer.snap, Promise(m, res, h))
    ensures NeverEvicted(cfg, s, steps, CacheKey(m).value) && Unserved(cfg, Run(cfg, s, steps), m, res, h)
  {
    var snap := s.streams[sid].writer.snap;
    assert SoundWriter(s.streams[sid].writer);
    var at := CopyFails(snap, Promise(m, res, h), s.clock);
    var wait := at - s.clock;
    steps := [StreamAdvance(sid), Crash, Tick(wait)];
    CopyWritten(cfg, s, sid, wait, snap, CacheKey(m).value);
    LackingIsUnserved(cfg, Run(cfg, s, steps), m, res, h);
  }

  lemma {:induction false} ThreeSteps(cfg: Config, s: State, x: Step, y: Step, z: Step, key: string)
    requires !EvictsForSpace(cfg, s, x, key) && !y.Advance? && !y.StreamAdvance? && !z.Advance? && !z.StreamAdvance?
    ensures Run(cfg, s, [x, y, z]) == Next(cfg, Next(cfg, Next(cfg, s, x), y), z) && NeverEvicted(cfg, s, [x, y, z], key)
  {
    assert [x, y, z][1..] == [y, z] && [y, z][1..] == [z] && [z][1..] == [];
    var a := Next(cfg, s, x);
    assert NeverEvicted(cfg, Next(cfg, Next(cfg, a, y), z), [], key);
    assert NeverEvicted(cfg, Next(cfg, a, y), [z], key);
    assert NeverEvicted(cfg, a, [y, z], key);
    assert Run(cfg, Next(cfg, a, y), [z]) == Next(cfg, Next(cfg, a, y), z);
  }

  // ---------- The exact condition ----------

  // Room for the response: its own insertion does not drop it.
  ghost predicate Fits(cfg: Config, s: State, r: InFlight, res: string)
    requires s.mem.Some? && CacheKey(r.msg).Some?
  {
    Find(Inserted(s.mem.value.cache, Entry(r.msg, OneShot(res), r.now), r.now, cfg.cacheMax), CacheKey(r.msg).value).Some?
  }

  // Nothing but the dispatch moves until it is answered.
  lemma {:induction false} CompletesAlone(cfg: Config, s: State, r: InFlight, res: string) returns (between: seq<Step>, s2: State)
    requires CacheOk(cfg, s) && AboutToStore(s, r, res) && Fits(cfg, s, r, res)
    ensures var s1 := Next(cfg, s, Advance(Raised("")));
      && s2 == Run(cfg, s1, between) && Crash !in between && NeverEvicted(cfg, s1, between, CacheKey(r.msg).value) && Answered(s1, s2, r.msg, res)
    ensures CacheOk(cfg, s2) && s2.running.None? && s2.mem.Some? && s2.streams == s.streams && s2.clock == s.clock
    ensures s2.disk.peers == s.disk.peers && s2.mem.value.cache == Inserted(s.mem.value.cache, Entry(r.msg, OneShot(res), r.now), r.now, cfg.cacheMax)
  {
    var x, key := Entry(r.msg, OneShot(res), r.now), CacheKey(r.msg).value;
    var c := Inserted(s.mem.value.cache, x, r.now, cfg.cacheMax);
    var s1 := Next(cfg, s, Advance(Raised("")));
    InsertedIsGuarded(cfg, s, r, res);
    OutcomeIsInserted(s.mem.value.cache, x, r.now, cfg.cacheMax);
    assert Outcome(s1.mem.value.cache, Collect, x, r.now, cfg.cacheMax) == Some(c);
    Completes(cfg, s1, s1.running.value, res, Collect, c);
    s2 := Finish(SaveCache(SetCache(s1, c), c), r.msg, Answer(res));
    between := StepsOf(cfg, s1, s2, key);
    WayOk(cfg, s1, s2, key);
  }

  // The dispatch completes alone and the threat is carried out: an answered continuation that is not served.
  lemma {:induction false} ThreatCarriedOut(cfg: Config, s: State, r: InFlight, res: string) returns (between: seq<Step>, later: seq<Step>)
    requires CacheOk(cfg, s) && AboutToStore(s, r, res) && Fits(cfg, s, r, res) && !Unthreatened(s, Promise(r.msg, res, r.now))
    ensures Continuation(cfg, s, r.msg, res, between, later) && !ServedAgain(cfg, After(cfg, s, between, later), r.msg, res, r.now)
  {
    var s2: State;
    between, s2 := CompletesAlone(cfg, s, r, res);
    later := CarryOut(cfg, s2, r.msg, res, r.now);
  }

  lemma {:induction false} CarryOut(cfg: Config, s: State, m: Message, res: string, h: int) returns (later: seq<Step>)
    requires CacheOk(cfg, s) && s.running.None? && s.mem.Some? && cfg.handlers != {} && CacheKey(m).Some? && InTime(cfg, m, h) && h <= s.clock
    requires !Unthreatened(s, Promise(m, res, h))
    ensures NeverEvicted(cfg, s, later, CacheKey(m).value) && Unserved(cfg, Run(cfg, s, later), m, res, h)
  {
    var key, x := CacheKey(m).value, Promise(m, res, h);
    var sid :| sid in s.streams && (Rival(s.streams[sid], key) || Stale(s.streams[sid], x));
    if !Rival(s.streams[sid], key) && s.streams[sid].writer.Write? {
      later := OldCopyWins(cfg, s, sid, m, res, h);
    } else {
      var s': State;
      if Rival(s.streams[sid], key) {
        s' := RivalOvertakes(cfg, s, sid, m, res, h);
      } else {
        s' := ListedGetsDropped(cfg, s, sid, key);
        LackingIsUnserved(cfg, s', m, res, h);
      }
      later := StepsOf(cfg, s, s', key);
    }
  }

  // Replay safety, exactly. In a reachable state a one-shot dispatch is about to store its response, which fits
  // the cache. Every continuation in which it is answered serves the same message again with the identical
  // response, or deadline_exceeded, at every instant outside `GoesOnAgain`, if and only if no stream
  // threatens it: none under its key has yet to insert its own response, and no stream of any key holds a
  // list of keys to delete with this one, or a copy of the cache without the response.
  lemma {:induction false} ReplayServedIff(cfg: Config, clock: int, peers: Peers, before: seq<Step>, r: InFlight, res: string)
    requires var s := Run(cfg, Start(clock, peers), before); AboutToStore(s, r, res) && s.mem.Some? && Fits(cfg, s, r, res)
    ensures var s := Run(cfg, Start(clock, peers), before);
      (forall between, later :: Continuation(cfg, s, r.msg, res, between, later) ==> ServedAgain(cfg, After(cfg, s, between, later), r.msg, res, r.now))
      <==> Unthreatened(s, Promise(r.msg, res, r.now))
  {
    var s := Run(cfg, Start(clock, peers), before);
    RunKeeps(cfg, Start(clock, peers), before, Promise(r.msg, res, r.now));
    if Unthreatened(s, Promise(r.msg, res, r.now)) {
      forall between, later | Continuation(cfg, s, r.msg, res, between, later)
        ensures ServedAgain(cfg, After(cfg, s, between, later), r.msg, res, r.now)
      {
        ReplayNeverReruns(cfg, s, r, res, between, later);
      }
    } else {
      var between, later := ThreatCarriedOut(cfg, s, r, res);
    }
  }
}
