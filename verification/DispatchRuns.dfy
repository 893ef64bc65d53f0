// Three runs from the start. In the first, a completed and persisted request reaches its handler again, because a stream
// of another key had copied the dict before its response was inserted. In the second, the same request reaches it again
// at its deadline, because deadline and cached response end at one instant. In the third, a root capability limited to
// one run is revoked, and two children attenuated from it run once each.
module DispatchRuns {
  import opened Wrappers
  import opened Crypto
  import opened Capability
  import opened Messages
  import opened PeerCache
  import opened IdempotencyCache
  import opened CacheWriter
  import opened Dispatch
  import opened DispatchSafety
  import opened DispatchDrive
  import opened DispatchReplay
  import opened DispatchReplayExact
  import opened DispatchRerun
  import opened DispatchFamily
  import Delegation

  // ---------- An old copy wins ----------

  lemma {:induction false} StreamMoves(cfg: Config, s: State, sid: nat, m: Message, chunks: seq<string>, w: WriterPc, k: string)
    requires s.mem.Some? && sid in s.streams && s.streams[sid] == Caching(m, chunks, w) && CacheKey(m).Some? && !w.Write?
    requires Find(s.mem.value.cache, k).None?
    ensures Way(cfg, s, StreamStored(s, sid, m, chunks, WriterStep(s.mem.value.cache, w, Entry(m, Stream(chunks), s.clock), s.clock, cfg.cacheMax)), k)
  {
    WayStep(cfg, s, StreamAdvance(sid), StreamAdvanceStep(cfg, s, sid), k);
  }

  // A stream left alone goes on to hold a copy of the dict.
  lemma {:induction false} StreamCopies(cfg: Config, s: State, sid: nat, m: Message, chunks: seq<string>, w: WriterPc, c: seq<Item>, k: string)
    requires s.mem.Some? && sid in s.streams && s.streams[sid] == Caching(m, chunks, w) && CacheKey(m).Some? && !w.Write?
    requires Outcome(s.mem.value.cache, w, Entry(m, Stream(chunks), s.clock), s.clock, cfg.cacheMax) == Some(c)
    requires CacheKey(m).value != k && Find(s.mem.value.cache, k).None?
    ensures Way(cfg, s, SetCache(s, c).(streams := s.streams[sid := Caching(m, chunks, Write(c))]), k) && Find(c, k).None?
    decreases Stage(w), Left(w)
  {
    var x := Entry(m, Stream(chunks), s.clock);
    var move := WriterStep(s.mem.value.cache, w, x, s.clock, cfg.cacheMax);
    var s' := StreamStored(s, sid, m, chunks, move);
    StreamMoves(cfg, s, sid, m, chunks, w, k);
    WriterLacks(s.mem.value.cache, w, x, s.clock, cfg.cacheMax, k);
    if move.pc.Write? {
      assert s' == SetCache(s, c).(streams := s.streams[sid := Caching(m, chunks, Write(c))]);
    } else {
      var end := Caching(m, chunks, Write(c));
      StreamCopies(cfg, s', sid, m, chunks, move.pc, c, k);
      assert s'.streams[sid := end] == s.streams[sid := end];
      WayOn(cfg, s, s', SetCache(s, c).(streams := s.streams[sid := end]), k);
    }
  }

  // From an empty cache: a stream under "b" holds a copy of the dict with its own entry only.
  lemma {:induction false} HoldsOldCopy(cfg: Config, s: State, action: string) returns (s': State, snap: seq<Item>)
    requires CacheOk(cfg, s) && s.running.None? && Loaded(s).cache == [] && s.streams == map[] && action in cfg.handlers
    ensures Way(cfg, s, s', "a") && s'.running.None? && s'.mem.Some? && s'.mem.value.cache == snap && s'.clock == s.clock
    ensures |snap| <= 1 && Find(snap, "a").None?
    ensures 0 in s'.streams && s'.streams[0].Caching? && s'.streams[0].writer == Write(snap) && CacheKey(s'.streams[0].msg) == Some("b")
    ensures s'.streams.Keys == {0}
  {
    var m, c := StreamOpens(cfg, s, "b", action, 0, "a");
    var x := Entry(m, Stream([]), s.clock);
    OutcomeIsInserted([], x, s.clock, cfg.cacheMax);
    snap := Inserted([], x, s.clock, cfg.cacheMax);
    AtMostOne(x, s.clock, cfg.cacheMax);
    StreamCopies(cfg, c, 0, m, [], WriterPc.Insert, snap, "a");
    s' := SetCache(c, snap).(streams := c.streams[0 := Caching(m, [], Write(snap))]);
    WayOn(cfg, s, c, s', "a");
  }

  lemma {:induction false} AtMostOne(x: Item, now: int, max: nat)
    ensures |Inserted([], x, now, max)| <= 1
  {
    var live := Live([x], now);
    assert Put([], x) == [x];
    SizeAfterPut([x], x, now);
    CappedProperties(live, max);
  }

  lemma {:induction false} WelcomeAgain(peers: Peers, m: Message, action: string, now: int, until: int)
    requires Welcome(peers, m, action, now) && m.body.auditContext.value.expiresAt == Some(until)
    ensures Welcome(CheckSender(peers, m).peers, m, action, until)
  {
    AcceptedAgain(peers, m);
  }

  // A one-shot request under "a" is about to store its response; it would be accepted again until it expires.
  lemma {:induction false} AboutToStoreNext(cfg: Config, s: State, action: string, deadline: Option<int>, until: int) returns (r: InFlight, s': State)
    requires s.running.None? && action in cfg.handlers && Find(Loaded(s).cache, "a").None? && s.clock <= until
    requires deadline.Some? ==> s.clock <= deadline.value <= s.clock + cfg.maxDeadlineSeconds
    ensures Way(cfg, s, s', "a") && AboutToStore(s', r, "") && CacheKey(r.msg) == Some("a") && r.now == s.clock && r.msg.body.deadline == deadline
    ensures s'.mem == Some(Loaded(s)) && s'.streams == s.streams && s'.clock == s.clock
    ensures Welcome(s'.disk.peers, r.msg, action, until)
  {
    var o := Returned("");
    var m, a := ReachHandler(cfg, s, "a", action, deadline, until, o, "a");
    var b := HandlerStep(a, a.running.value, None, o);
    WayThen(cfg, s, a, Advance(o), b, "a");
    s' := WriteReceiptStep(b, b.running.value, "");
    r := s'.running.value;
    WayThen(cfg, s, b, Advance(o), s', "a");
    WelcomeAgain(s.disk.peers, m, action, s.clock, until);
  }

  // With room for two responses and no stream of its own key open, the handler runs twice for a completed and
  // persisted request, well before its response expires: a stream of another key had copied the dict before
  // that response was inserted, wrote the copy after it was saved, and the process restarted.
  lemma {:induction false} OldCopyRerunsHandler(cfg: Config, clock: int, peers: Peers, action: string)
    returns (before: seq<Step>, between: seq<Step>, later: seq<Step>, again: seq<Step>, r: InFlight)
    requires action in cfg.handlers && cfg.cacheMax >= 2
    ensures var s := Run(cfg, Start(clock, peers), before);
      && AboutToStore(s, r, "") && r.now == s.clock && (forall sid :: sid in s.streams ==> CacheKey(s.streams[sid].msg) != CacheKey(r.msg))
      && Continuation(cfg, s, r.msg, "", between, later) && After(cfg, s, between, later).clock < ReplaysUntil(r.msg, r.now)
      && Run(cfg, After(cfg, s, between, later), again).running == Some(InFlight(r.msg, r.now, RunHandler(action, None)))
  {
    var s0 := Start(clock, peers);
    var s, e, snap;
    r, s, snap := OldCopyAndResponse(cfg, s0, action);
    before := StepsOf(cfg, s0, s, "a");
    between, later, e := OldCopyWritten(cfg, s, r, snap);
    var h := WelcomeReachesHandler(cfg, e, r.msg, action, Raised(""), "a");
    again := StepsOf(cfg, e, h, "a");
  }

  // A copy without the key, and a request under the key about to store its response.
  lemma {:induction false} OldCopyAndResponse(cfg: Config, s0: State, action: string) returns (r: InFlight, s: State, snap: seq<Item>)
    requires CacheOk(cfg, s0) && s0.running.None? && Loaded(s0).cache == [] && s0.streams == map[] && action in cfg.handlers
    ensures Way(cfg, s0, s, "a") && CacheOk(cfg, s) && s.clock == s0.clock
    ensures AboutToStore(s, r, "") && CacheKey(r.msg) == Some("a") && r.now == s.clock && r.msg.body.deadline.None?
    ensures s.mem.value.cache == snap && |snap| <= 1 && Find(snap, "a").None? && Welcome(s.disk.peers, r.msg, action, s.clock)
    ensures s.streams.Keys == {0} && s.streams[0].Caching? && s.streams[0].writer == Write(snap) && CacheKey(s.streams[0].msg) == Some("b")
  {
    var s1;
    s1, snap := HoldsOldCopy(cfg, s0, action);
    r, s := AboutToStoreNext(cfg, s1, action, None, s1.clock);
    WayOn(cfg, s0, s1, s, "a");
    WayOk(cfg, s0, s, "a");
  }

  lemma {:induction false} OldCopyWritten(cfg: Config, s: State, r: InFlight, snap: seq<Item>) returns (between: seq<Step>, later: seq<Step>, e: State)
    requires CacheOk(cfg, s) && AboutToStore(s, r, "") && CacheKey(r.msg) == Some("a") && r.now == s.clock && r.msg.body.deadline.None?
    requires cfg.cacheMax >= 2 && s.mem.value.cache == snap && |snap| <= 1 && Find(snap, "a").None?
    requires 0 in s.streams && s.streams[0].Caching? && s.streams[0].writer == Write(snap)
    ensures Continuation(cfg, s, r.msg, "", between, later) && After(cfg, s, between, later) == e && e.clock == s.clock && e.disk.peers == s.disk.peers
    ensures e.running.None? && EntersPipeline(cfg, e, r.msg)
  {
    RoomFor(snap, Entry(r.msg, OneShot(""), r.now), r.now, cfg.cacheMax);
    var s2: State;
    between, s2 := CompletesAlone(cfg, s, r, "");
    later := [StreamAdvance(0), Crash, Tick(0)];
    CopyWritten(cfg, s2, 0, 0, snap, "a");
    e := Run(cfg, s2, later);
    FindInLive(snap, e.clock, "a");
    RerunsWhenLacking(cfg, e, r.msg);
  }

  lemma {:induction false} RerunsWhenLacking(cfg: Config, s: State, m: Message)
    requires s.running.None? && m.body.deadline.None? && CacheKey(m).Some? && Find(Loaded(s).cache, CacheKey(m).value).None?
    ensures EntersPipeline(cfg, s, m)
  {
  }

  // ---------- A run that reaches the deadline ----------

  lemma {:induction false} DeadlineReached(cfg: Config, s: State, r: InFlight) returns (between: seq<Step>, e: State)
    requires CacheOk(cfg, s) && AboutToStore(s, r, "") && cfg.cacheMax >= 1 && s.mem.value.cache == [] && r.now == s.clock
    requires r.msg.body.deadline == Some(s.clock + 10) && InTime(cfg, r.msg, s.clock)
    ensures Continuation(cfg, s, r.msg, "", between, [Tick(10)]) && After(cfg, s, between, [Tick(10)]) == e
    ensures e.clock == s.clock + 10 && e.running.None? && e.disk.peers == s.disk.peers && EntersPipeline(cfg, e, r.msg)
  {
    var x := Entry(r.msg, OneShot(""), r.now);
    RoomFor([], x, r.now, cfg.cacheMax);
    var s2;
    between, s2 := CompletesAlone(cfg, s, r, "");
    var later := [Tick(10)];
    assert later[1..] == [];
    e := s2.(clock := s2.clock + 10);
    assert Run(cfg, e, []) == e && NeverEvicted(cfg, e, [], x.key);
    assert Run(cfg, s2, later) == e && NeverEvicted(cfg, s2, later, x.key);
    OwnEntryMissedIff(cfg, e.mem.value.cache, r.msg, "", r.now, e.clock);
  }

  // From the start: a request answered and persisted, and the handler reached again by the same request at its deadline.
  lemma {:induction false} DeadlineRerunsHandler(cfg: Config, clock: int, peers: Peers, action: string)
    returns (before: seq<Step>, between: seq<Step>, again: seq<Step>, r: InFlight)
    requires action in cfg.handlers && cfg.cacheMax >= 1 && cfg.maxDeadlineSeconds >= 10
    ensures var s := Run(cfg, Start(clock, peers), before);
      && AboutToStore(s, r, "") && r.msg.body.deadline == Some(clock + 10) && Continuation(cfg, s, r.msg, "", between, [Tick(10)])
      && Run(cfg, After(cfg, s, between, [Tick(10)]), again).running == Some(InFlight(r.msg, clock + 10, RunHandler(action, None)))
  {
    var s0, s, e := Start(clock, peers), Start(clock, peers), Start(clock, peers);
    r, s := AboutToStoreNext(cfg, s0, action, Some(clock + 10), clock + 10);
    WayOk(cfg, s0, s, "a");
    before := StepsOf(cfg, s0, s, "a");
    between, e := DeadlineReached(cfg, s, r);
    var h := WelcomeReachesHandler(cfg, e, r.msg, action, Raised(""), "a");
    again := StepsOf(cfg, e, h, "a");
  }

  // ---------- Two children of one run ----------

  function Once(): seq<Caveat> {
    [Caveat(MaxInvocations(1), false)]
  }

  function RootOf(key: PrivateKey, self: AgentId, holder: AgentId, action: string): Token {
    var blank := Token("r", self, holder, action, Once(), None, [], false, false, None, None, Malformed(""));
    blank.(signature := Sign(Signable(blank), key))
  }

  lemma {:induction false} RootIsIssued(key: PrivateKey, self: AgentId, holder: AgentId, action: string)
    ensures IssueCapability(key, self, holder, action, Once(), "r") == Ok(RootOf(key, self, holder, action))
    ensures LimitOf(ToDict(RootOf(key, self, holder, action))) == Some(1)
  {
    CaveatsRoundTrip(Once());
    assert Once()[0] in Once() && InvocationLimits(Once()) == {1};
  }

  // A child attenuated from the root by its holder, to itself, with nothing added.
  lemma {:induction false} ChildIsUsable(cfg: Config, s: State, key: PrivateKey, holder: AgentId, holderKey: PrivateKey, action: string, c: CapId)
    returns (d: TokenDict)
    requires cfg.selfKey == PublicOf(key) && action in cfg.handlers && c != "" && c !in s.disk.caps
    requires holder != cfg.self && ResolveKey(s.disk.peers, holder) == Some(PublicOf(holderKey))
    ensures Usable(cfg, s, d) && LimitOf(d) == Some(1) && d.signable.capId == c && d.signable.parent == Some("r")
  {
    var root := RootOf(key, cfg.self, holder, action);
    RootIsIssued(key, cfg.self, holder, action);
    var hop := Delegation.Hop(holderKey, holder, holder, [], c);
    var t := ChildOf(root, holderKey, holder, holder, [], c);
    assert root.caveats + [] == root.caveats;
    assert Delegation.Delegate(root, [hop]) == Ok(t) by {
      assert [hop][..0] == [];
      assert Delegation.Delegate(root, []) == Ok(root);
    }
    Delegation.HonestChainAccepted(key, cfg.self, holder, action, Once(), "r", [hop], PeerKeys(s.disk.peers), s.clock);
    d := ToDict(t);
    TokenRoundTrip(t);
    CaveatsRoundTrip(t.caveats);
    assert t.caveats == Once();
    assert Once()[0] in Once() && InvocationLimits(Once()) == {1};
  }

  // A root limited to one run and revoked, and two children attenuated from it by its holder: both run. Limits
  // and revocations do not follow the parent.
  lemma {:induction false} ChildrenOutrunRoot(cfg: Config, clock: int, peers: Peers, key: PrivateKey, holder: AgentId, holderKey: PrivateKey, action: string)
    returns (s: State)
    requires cfg.selfKey == PublicOf(key) && action in cfg.handlers && holder != cfg.self && ResolveKey(peers, holder) == Some(PublicOf(holderKey))
    ensures Goes(cfg, Start(clock, peers), s) && IsRevoked(s, "r") && Limit(s, "r") == Some(1)
    ensures forall c :: c in {"c1", "c2"} ==> c in s.disk.caps && s.disk.caps[c].signable.parent == Some("r") && Count(s.runs, c) == 1
  {
    var s0, root := Start(clock, peers), ToDict(RootOf(key, cfg.self, holder, action));
    RootIsIssued(key, cfg.self, holder, action);
    var s1 := RootRevoked(cfg, s0, root);
    var d1 := ChildIsUsable(cfg, s1, key, holder, holderKey, action, "c1");
    var s2 := RunOnce(cfg, s1, d1);
    var d2 := ChildIsUsable(cfg, s2, key, holder, holderKey, action, "c2");
    s := RunOnce(cfg, s2, d2);
    GoesOn(cfg, s0, s1, s2);
    GoesOn(cfg, s0, s2, s);
  }

  lemma {:induction false} RootRevoked(cfg: Config, s: State, root: TokenDict) returns (s': State)
    requires root.signable.capId !in s.seen && s.revoking == map[] && s.running.None?
    ensures Goes(cfg, s, s') && IsRevoked(s', root.signable.capId)
    ensures s' == s.(disk := s.disk.(caps := s.disk.caps[root.signable.capId := Dispatch.Revoked(root)]), seen := s.seen + {root.signable.capId})
  {
    var c := root.signable.capId;
    var a := Next(cfg, s, Grant(root));
    GoesStep(cfg, s, Grant(root));
    var b := Next(cfg, a, RevokeLoad(0, c));
    GoesStep(cfg, a, RevokeLoad(0, c));
    GoesOn(cfg, s, a, b);
    s' := Next(cfg, b, RevokeSave(0));
    GoesStep(cfg, b, RevokeSave(0));
    GoesOn(cfg, s, b, s');
    assert b.revoking == map[0 := root] && b.revoking - {0} == map[];
    assert a.disk.caps[c := Dispatch.Revoked(root)] == s.disk.caps[c := Dispatch.Revoked(root)];
  }
}
