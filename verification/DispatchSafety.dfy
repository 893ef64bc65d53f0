// Safety of every run of the dispatcher: the crash-safe invocation ceiling and permanent revocation.
module DispatchSafety {
  import opened Wrappers
  import opened Crypto
  import opened Capability
  import opened Messages
  import opened PeerCache
  import opened IdempotencyCache
  import opened CacheWriter
  import opened Dispatch

  // ---------- The invariant ----------

  // The effective max_invocations of a stored capability.
  ghost function Limit(s: State, c: CapId): Option<int> {
    if c in s.disk.caps then MaxInvocationsOf(CaveatsFromDicts(s.disk.caps[c].signable.caveats)) else None
  }

  ghost function TokenInUse(pc: Pc): Option<Token> {
    match pc
    case CheckProof(_, t) => Some(t)
    case PersistCounts(t) => Some(t)
    case ResolveAction(t) => t
    case RunHandler(_, t) => t
    case _ => None
  }

  // A run already counted on disk but not yet made.
  ghost function Pending(s: State, c: CapId): nat {
    if s.running.Some? && (s.running.value.pc.ResolveAction? || s.running.value.pc.RunHandler?)
       && TokenInUse(s.running.value.pc).Some? && TokenInUse(s.running.value.pc).value.capId == c then 1 else 0
  }

  // An increment made in memory but not yet on disk.
  ghost function Unsaved(s: State, c: CapId): nat {
    if s.running.Some? && s.running.value.pc.PersistCounts? && s.running.value.pc.token.capId == c then 1 else 0
  }

  ghost predicate CapOk(s: State, c: CapId) {
    var n, runs := Count(s.disk.counts, c), Count(s.runs, c);
    && (c in s.disk.caps ==> s.disk.caps[c].signable.capId == c && c in s.seen)
    && (c !in s.disk.caps ==> runs == 0)
    && (Limit(s, c).Some? ==> runs + Pending(s, c) <= n)
    && (n > 0 ==> Limit(s, c).Some? && n <= Limit(s, c).value)
    && (s.mem.Some? ==> Count(s.mem.value.counts, c) == n + Unsaved(s, c))
    && (Unsaved(s, c) == 1 ==> Limit(s, c).Some? && n + 1 <= Limit(s, c).value)
  }

  ghost predicate SameCaveats(s: State, d: TokenDict) {
    d.signable.capId in s.disk.caps && s.disk.caps[d.signable.capId].signable.caveats == d.signable.caveats
  }

  ghost predicate Holds(s: State, t: Token) {
    t.capId in s.disk.caps && CaveatsFromDicts(s.disk.caps[t.capId].signable.caveats) == t.caveats
  }

  ghost predicate RunningOk(s: State) {
    s.running.Some? ==>
      var r := s.running.value;
      && s.mem.Some?
      && (NonEmpty(r.msg.body.capId) ==> r.msg.body.capId.value in s.seen)
      && (TokenInUse(r.pc).Some? ==> Holds(s, TokenInUse(r.pc).value))
      && (r.pc.CheckCapability? ==>
            if r.pc.inline then r.pc.dict.signable.capId in s.seen && r.pc.dict.signable.capId !in s.disk.caps
            else SameCaveats(s, r.pc.dict))
  }

  ghost predicate Inv(s: State) {
    && (forall c: CapId :: CapOk(s, c))
    && RunningOk(s)
    && (forall tid :: tid in s.revoking ==> SameCaveats(s, s.revoking[tid]))
  }

  // ---------- Steps that leave capabilities, counts and runs alone ----------

  ghost predicate SameCore(s: State, s': State) {
    && s'.disk.caps == s.disk.caps && s'.disk.counts == s.disk.counts && s'.runs == s.runs && s'.seen >= s.seen
    && s'.revoking == s.revoking
  }

  ghost predicate NoToken(s: State) {
    s.running.Some? ==> TokenInUse(s.running.value.pc).None?
  }

  lemma {:induction false} CoreKeepsInv(s: State, s': State)
    requires Inv(s) && SameCore(s, s') && RunningOk(s')
    requires forall c: CapId :: Pending(s', c) <= Pending(s, c) && Unsaved(s', c) == Unsaved(s, c)
    requires s'.mem.Some? ==> s.mem.Some? && s'.mem.value.counts == s.mem.value.counts
    ensures Inv(s')
  {
    forall c: CapId ensures CapOk(s', c) {
      assert CapOk(s, c);
      assert Limit(s', c) == Limit(s, c);
      assert Pending(s', c) <= Pending(s, c) && Unsaved(s', c) == Unsaved(s, c);
    }
  }

  // A step between points where no token is in use.
  lemma {:induction false} TokenlessKeepsInv(s: State, s': State)
    requires Inv(s) && SameCore(s, s') && RunningOk(s') && NoToken(s) && NoToken(s')
    requires s'.mem.Some? ==> s'.mem.value.counts == if s.mem.Some? then s.mem.value.counts else s.disk.counts
    ensures Inv(s')
  {
    forall c: CapId ensures CapOk(s', c) {
      assert CapOk(s, c);
      assert Limit(s', c) == Limit(s, c);
    }
  }

  lemma {:induction false} BeginShape(cfg: Config, s: State, m: Message)
    requires s.running.None?
    ensures var s' := BeginStep(cfg, s, m);
      && SameCore(s, s') && NoToken(s') && s'.mem.Some? && s'.disk == s.disk
      && s'.mem.value.counts == (if s.mem.Some? then s.mem.value.counts else s.disk.counts)
      && (NonEmpty(m.body.capId) ==> m.body.capId.value in s'.seen)
      && (s'.running.Some? ==> s'.running.value.msg == m && (s'.running.value.pc.Reject? || s'.running.value.pc.VerifySender?))
  {
    var mem := Loaded(s);
    AdmittedShape(s, m, mem.counts, mem.cache, Admit(cfg, mem.cache, m, s.clock));
  }

  lemma {:induction false} AdmittedShape(s: State, m: Message, counts: map<CapId, nat>, cache: seq<Item>, a: Admission)
    requires s.running.None?
    ensures var s' := Admitted(s, m, counts, cache, a);
      && SameCore(s, s') && NoToken(s') && s'.mem.Some? && s'.disk == s.disk && s'.mem.value.counts == counts
      && (NonEmpty(m.body.capId) ==> m.body.capId.value in s'.seen)
      && (s'.running.Some? ==> s'.running.value.msg == m && (s'.running.value.pc.Reject? || s'.running.value.pc.VerifySender?))
  {
  }

  lemma {:induction false} BeginKeepsInv(cfg: Config, s: State, m: Message)
    requires Inv(s) && s.running.None?
    ensures Inv(BeginStep(cfg, s, m))
  {
    BeginShape(cfg, s, m);
    TokenlessKeepsInv(s, BeginStep(cfg, s, m));
  }

  // The loaded capability is the stored one, or an envelope under an id named before and not stored.
  lemma {:induction false} AfterLoadMeaning(s: State, m: Message, sender: PublicKey)
    requires Inv(s) && (NonEmpty(m.body.capId) ==> m.body.capId.value in s.seen)
    ensures var pc := AfterLoad(s.disk.caps, m, sender);
      && TokenInUse(pc).None? && (pc.CheckCapability? || pc.Reject? || pc.ResolveAction?)
      && (pc.CheckCapability? ==>
            if pc.inline then pc.dict.signable.capId in s.seen && pc.dict.signable.capId !in s.disk.caps
            else SameCaveats(s, pc.dict) && s.disk.caps[pc.dict.signable.capId] == pc.dict)
  {
    if NonEmpty(m.body.capId) {
      assert CapOk(s, m.body.capId.value);
    }
  }

  lemma {:induction false} LoadKeepsInv(s: State, r: InFlight, sender: PublicKey)
    requires Inv(s) && s.running == Some(r) && r.pc.LoadCapability?
    ensures Inv(LoadStep(s, r, sender))
  {
    AfterLoadMeaning(s, r.msg, sender);
    TokenlessKeepsInv(s, LoadStep(s, r, sender));
  }

  // An envelope stored under an id the store did not have.
  lemma {:induction false} StoreEnvelope(s: State, s': State, r: InFlight, d: TokenDict)
    requires Inv(s) && s.running == Some(r) && r.pc.CheckCapability? && r.pc.inline && r.pc.dict == d
    requires s' == s.(disk := s.disk.(caps := s.disk.caps[d.signable.capId := d]), running := Some(r.(pc := CheckProof(r.pc.sender, FromDict(d)))))
    ensures Inv(s')
  {
    assert CapOk(s, d.signable.capId);
    forall c: CapId ensures CapOk(s', c) {
      assert CapOk(s, c);
      assert c != d.signable.capId ==> Limit(s', c) == Limit(s, c);
    }
  }

  lemma {:induction false} CapabilityKeepsInv(cfg: Config, s: State, r: InFlight)
    requires Inv(s) && s.running == Some(r) && r.pc.CheckCapability?
    ensures Inv(CapabilityStep(cfg, s, r, r.pc.sender, r.pc.dict, r.pc.inline))
  {
    var s' := CapabilityStep(cfg, s, r, r.pc.sender, r.pc.dict, r.pc.inline);
    if s'.running.value.pc.Reject? {
      TokenlessKeepsInv(s, s');
    } else if r.pc.inline {
      StoreEnvelope(s, s', r, r.pc.dict);
    } else {
      CoreKeepsInv(s, s');
    }
  }

  lemma {:induction false} JudgedKeepsInv(s: State, r: InFlight, verdict: ProofVerdict)
    requires Inv(s) && s.running == Some(r) && r.pc.CheckProof?
    requires verdict.Unlimited? ==> Limit(s, r.pc.token.capId).None?
    requires verdict.Counted? ==>
      && verdict.count == Count(s.mem.value.counts, r.pc.token.capId) + 1
      && Limit(s, r.pc.token.capId).Some? && verdict.count <= Limit(s, r.pc.token.capId).value
    ensures Inv(Judged(s, r, r.pc.token, verdict))
  {
    var s' := Judged(s, r, r.pc.token, verdict);
    match verdict
    case Denied(_) => CoreKeepsInv(s, s');
    case Unlimited => NoLimitKeepsInv(s, s', r);
    case Counted(_) => RaiseCount(s, s', r);
  }

  lemma {:induction false} ProofKeepsInv(s: State, r: InFlight)
    requires Inv(s) && s.running == Some(r) && r.pc.CheckProof?
    ensures Inv(ProofStep(s, r, r.pc.sender, r.pc.token))
  {
    HeldLimit(s, r.pc.token);
    JudgedKeepsInv(s, r, JudgeProof(r.msg, s.mem.value.counts, r.pc.sender, r.pc.token));
  }

  lemma {:induction false} HeldLimit(s: State, t: Token)
    requires Holds(s, t)
    ensures Limit(s, t.capId) == MaxInvocationsOf(t.caveats)
  {
  }

  lemma {:induction false} NoLimitKeepsInv(s: State, s': State, r: InFlight)
    requires Inv(s) && s.running == Some(r) && r.pc.CheckProof? && Limit(s, r.pc.token.capId).None?
    requires s' == s.(running := Some(r.(pc := ResolveAction(Some(r.pc.token)))))
    ensures Inv(s')
  {
    forall c: CapId ensures CapOk(s', c) {
      assert CapOk(s, c);
      assert Limit(s', c) == Limit(s, c);
    }
  }

  lemma {:induction false} RaiseCount(s: State, s': State, r: InFlight)
    requires Inv(s) && s.running == Some(r) && r.pc.CheckProof? && Limit(s, r.pc.token.capId).Some?
    requires var c := r.pc.token.capId;
      var n := Count(s.mem.value.counts, c);
      n < Limit(s, c).value && s' == s.(mem := Some(s.mem.value.(counts := s.mem.value.counts[c := n + 1])), running := Some(r.(pc := PersistCounts(r.pc.token))))
    ensures Inv(s')
  {
    forall c: CapId ensures CapOk(s', c) {
      assert CapOk(s, c);
      assert Limit(s', c) == Limit(s, c);
    }
  }

  lemma {:induction false} PersistKeepsInv(s: State, r: InFlight)
    requires Inv(s) && s.running == Some(r) && r.pc.PersistCounts?
    ensures Inv(PersistCountsStep(s, r, r.pc.token))
  {
    var s' := PersistCountsStep(s, r, r.pc.token);
    forall c: CapId ensures CapOk(s', c) {
      assert CapOk(s, c);
      assert Limit(s', c) == Limit(s, c);
    }
  }

  // One handler call, under a capability or none; no token is in use afterwards.
  lemma {:induction false} HandlerCall(s: State, s': State, r: InFlight)
    requires Inv(s) && s.running == Some(r) && r.pc.RunHandler? && s'.mem == s.mem
    requires s'.disk == s.disk && s'.seen == s.seen && s'.revoking == s.revoking && NoToken(s') && RunningOk(s')
    requires s'.runs == if r.pc.cap.None? then s.runs else s.runs[r.pc.cap.value.capId := Count(s.runs, r.pc.cap.value.capId) + 1]
    ensures Inv(s')
  {
    forall c: CapId ensures CapOk(s', c) {
      assert CapOk(s, c);
      assert Limit(s', c) == Limit(s, c);
    }
  }

  lemma {:induction false} HandlerKeepsInv(s: State, r: InFlight, outcome: HandlerOutcome)
    requires Inv(s) && s.running == Some(r) && r.pc.RunHandler?
    ensures Inv(HandlerStep(s, r, r.pc.cap, outcome))
  {
    if !(outcome.Generator? && outcome.sid in s.streams) {
      HandlerCall(s, HandlerStep(s, r, r.pc.cap, outcome), r);
    }
  }

  predicate Plain(pc: Pc) {
    pc.VerifySender? || pc.AuditReq? || pc.Reject? || pc.WriteReceipt? || pc.CacheResponse?
  }

  ghost predicate PlainMove(s: State, r: InFlight, s': State) {
    && SameCore(s, s') && NoToken(s') && s.mem.Some? && s'.mem.Some? && s'.mem.value.counts == s.mem.value.counts
    && (s'.running.Some? ==> s'.running.value.msg == r.msg && !s'.running.value.pc.CheckCapability?)
  }

  lemma {:induction false} SenderShape(s: State, r: InFlight)
    requires s.mem.Some?
    ensures PlainMove(s, r, SenderStep(s, r))
  {
  }

  lemma {:induction false} AuditShape(cfg: Config, s: State, r: InFlight, sender: PublicKey)
    requires s.mem.Some?
    ensures PlainMove(s, r, AuditStep(cfg, s, r, sender))
  {
  }

  lemma {:induction false} EndShape(cfg: Config, s: State, r: InFlight, code: FaultCode, res: string)
    requires s.mem.Some?
    ensures PlainMove(s, r, RejectStep(s, r, code)) && PlainMove(s, r, WriteReceiptStep(s, r, res))
  {
  }

  lemma {:induction false} StoredShape(s: State, r: InFlight, res: string, move: Move)
    requires s.mem.Some?
    ensures PlainMove(s, r, Stored(s, r, res, move))
  {
  }

  lemma {:induction false} CacheShape(cfg: Config, s: State, r: InFlight, res: string, w: WriterPc)
    requires s.mem.Some?
    ensures PlainMove(s, r, CacheStep(cfg, s, r, res, w))
  {
    if CacheKey(r.msg).Some? && !w.Write? {
      StoredShape(s, r, res, WriterStep(s.mem.value.cache, w, Entry(r.msg, OneShot(res), r.now), r.now, cfg.cacheMax));
    }
  }

  lemma {:induction false} PlainShape(cfg: Config, s: State, r: InFlight, outcome: HandlerOutcome)
    requires s.running == Some(r) && s.mem.Some? && Plain(r.pc)
    ensures PlainMove(s, r, AdvanceStep(cfg, s, r, outcome))
  {
    match r.pc
    case VerifySender => SenderShape(s, r);
    case AuditReq(sender) => AuditShape(cfg, s, r, sender);
    case Reject(code) => EndShape(cfg, s, r, code, "");
    case WriteReceipt(res) => EndShape(cfg, s, r, NoHandler, res);
    case CacheResponse(res, w) => CacheShape(cfg, s, r, res, w);
  }

  lemma {:induction false} PlainKeepsInv(cfg: Config, s: State, r: InFlight, outcome: HandlerOutcome)
    requires Inv(s) && s.running == Some(r) && Plain(r.pc)
    ensures Inv(AdvanceStep(cfg, s, r, outcome))
  {
    PlainShape(cfg, s, r, outcome);
    TokenlessKeepsInv(s, AdvanceStep(cfg, s, r, outcome));
  }

  lemma {:induction false} ResolveKeepsInv(cfg: Config, s: State, r: InFlight)
    requires Inv(s) && s.running == Some(r) && r.pc.ResolveAction?
    ensures Inv(ResolveStep(cfg, s, r, r.pc.cap))
  {
    CoreKeepsInv(s, ResolveStep(cfg, s, r, r.pc.cap));
  }

  lemma {:induction false} AdvanceKeepsInv(cfg: Config, s: State, r: InFlight, outcome: HandlerOutcome)
    requires Inv(s) && s.running == Some(r)
    ensures Inv(AdvanceStep(cfg, s, r, outcome))
  {
    if Plain(r.pc) {
      PlainKeepsInv(cfg, s, r, outcome);
    } else {
      match r.pc
      case LoadCapability(sender) => LoadKeepsInv(s, r, sender);
      case CheckCapability(_, _, _) => CapabilityKeepsInv(cfg, s, r);
      case CheckProof(_, _) => ProofKeepsInv(s, r);
      case PersistCounts(_) => PersistKeepsInv(s, r);
      case ResolveAction(_) => ResolveKeepsInv(cfg, s, r);
      case RunHandler(_, _) => HandlerKeepsInv(s, r, outcome);
    }
  }

  lemma {:induction false} GrantKeepsInv(s: State, d: TokenDict)
    requires Inv(s)
    ensures Inv(GrantStep(s, d))
  {
    var s' := GrantStep(s, d);
    assert CapOk(s, d.signable.capId);
    forall c: CapId ensures CapOk(s', c) {
      assert CapOk(s, c);
      assert c != d.signable.capId ==> Limit(s', c) == Limit(s, c);
    }
  }

  lemma {:induction false} RevokeSaveKeepsInv(s: State, tid: nat)
    requires Inv(s)
    ensures Inv(RevokeSaveStep(s, tid))
  {
    var s' := RevokeSaveStep(s, tid);
    forall c: CapId ensures CapOk(s', c) {
      assert CapOk(s, c);
      assert Limit(s', c) == Limit(s, c);
    }
  }

  lemma {:induction false} RevokeLoadKeepsInv(s: State, tid: nat, c: CapId)
    requires Inv(s)
    ensures Inv(RevokeLoadStep(s, tid, c))
  {
    var s' := RevokeLoadStep(s, tid, c);
    assert CapOk(s, c);
    forall x: CapId ensures CapOk(s', x) {
      assert CapOk(s, x);
      assert Limit(s', x) == Limit(s, x);
    }
  }

  lemma {:induction false} CrashKeepsInv(s: State)
    requires Inv(s)
    ensures Inv(CrashStep(s))
  {
    var s' := CrashStep(s);
    forall c: CapId ensures CapOk(s', c) {
      assert CapOk(s, c);
      assert Limit(s', c) == Limit(s, c);
    }
  }

  // A stream storing its chunks touches the cache only.
  lemma {:induction false} StreamAdvanceShape(cfg: Config, s: State, sid: nat)
    ensures var s' := StreamAdvanceStep(cfg, s, sid);
      && SameCore(s, s') && s'.running == s.running && s'.seen == s.seen && (s'.mem.Some? <==> s.mem.Some?)
      && (s.mem.Some? ==> s'.mem.value.counts == s.mem.value.counts)
  {
  }

  lemma {:induction false} StepKeepsInv(cfg: Config, s: State, step: Step)
    requires Inv(s)
    ensures Inv(Next(cfg, s, step))
  {
    match step
    case Begin(m) => if s.running.None? { BeginKeepsInv(cfg, s, m); }
    case Advance(outcome) => if s.running.Some? { AdvanceKeepsInv(cfg, s, s.running.value, outcome); }
    case Grant(d) => GrantKeepsInv(s, d);
    case RevokeLoad(tid, c) => RevokeLoadKeepsInv(s, tid, c);
    case RevokeSave(tid) => RevokeSaveKeepsInv(s, tid);
    case Crash => CrashKeepsInv(s);
    case Tick(_) => CoreKeepsInv(s, Next(cfg, s, step));
    case StreamDrained(_, _) => CoreKeepsInv(s, Next(cfg, s, step));
    case StreamAdvance(sid) =>
      StreamAdvanceShape(cfg, s, sid);
      CoreKeepsInv(s, Next(cfg, s, step));
    case StreamEnd(_, _) => CoreKeepsInv(s, Next(cfg, s, step));
  }

  ghost predicate SameStored(s: State, s': State, c: CapId) {
    c in s.disk.caps ==> c in s'.disk.caps && s'.disk.caps[c].signable.caveats == s.disk.caps[c].signable.caveats
  }

  lemma {:induction false} CapabilityKeepsCaveats(cfg: Config, s: State, r: InFlight, c: CapId)
    requires Inv(s) && s.running == Some(r) && r.pc.CheckCapability?
    ensures SameStored(s, CapabilityStep(cfg, s, r, r.pc.sender, r.pc.dict, r.pc.inline), c)
  {
  }

  lemma {:induction false} LateKeepsCaveats(s: State, r: InFlight, verdict: ProofVerdict, token: Token, c: CapId)
    requires s.mem.Some?
    ensures SameStored(s, Judged(s, r, token, verdict), c) && SameStored(s, PersistCountsStep(s, r, token), c)
  {
  }

  lemma {:induction false} UseKeepsDisk(cfg: Config, s: State, r: InFlight, outcome: HandlerOutcome, sender: PublicKey, cap: Option<Token>)
    ensures LoadStep(s, r, sender).disk == s.disk && ResolveStep(cfg, s, r, cap).disk == s.disk && HandlerStep(s, r, cap, outcome).disk == s.disk
  {
  }

  lemma {:induction false} AdvanceKeepsCaveats(cfg: Config, s: State, r: InFlight, outcome: HandlerOutcome, c: CapId)
    requires Inv(s) && s.running == Some(r)
    ensures SameStored(s, AdvanceStep(cfg, s, r, outcome), c)
  {
    if Plain(r.pc) {
      PlainShape(cfg, s, r, outcome);
    } else {
      match r.pc
      case LoadCapability(sender) => UseKeepsDisk(cfg, s, r, outcome, sender, None);
      case CheckCapability(_, _, _) => CapabilityKeepsCaveats(cfg, s, r, c);
      case CheckProof(sender, token) => LateKeepsCaveats(s, r, JudgeProof(r.msg, s.mem.value.counts, sender, token), token, c);
      case PersistCounts(token) => LateKeepsCaveats(s, r, Unlimited, token, c);
      case ResolveAction(cap) => UseKeepsDisk(cfg, s, r, outcome, PublicOf(0), cap);
      case RunHandler(_, cap) => UseKeepsDisk(cfg, s, r, outcome, PublicOf(0), cap);
    }
  }

  // Stored caveats never change.
  lemma {:induction false} StepKeepsCaveats(cfg: Config, s: State, step: Step, c: CapId)
    requires Inv(s)
    ensures SameStored(s, Next(cfg, s, step), c)
  {
    assert CapOk(s, c);
    match step
    case Begin(m) => if s.running.None? { BeginShape(cfg, s, m); }
    case Advance(outcome) => if s.running.Some? { AdvanceKeepsCaveats(cfg, s, s.running.value, outcome, c); }
    case StreamAdvance(sid) => StreamAdvanceShape(cfg, s, sid);
    case RevokeSave(tid) => if tid in s.revoking { assert SameCaveats(s, s.revoking[tid]); }
    case _ =>
  }

  lemma {:induction false} RunKeepsCaveats(cfg: Config, s: State, steps: seq<Step>, c: CapId)
    requires Inv(s) && c in s.disk.caps
    ensures var s' := Run(cfg, s, steps);
      c in s'.disk.caps && s'.disk.caps[c].signable.caveats == s.disk.caps[c].signable.caveats
    decreases |steps|
  {
    if steps != [] {
      StepKeepsCaveats(cfg, s, steps[0], c);
      StepKeepsInv(cfg, s, steps[0]);
      RunKeepsCaveats(cfg, Next(cfg, s, steps[0]), steps[1..], c);
    }
  }

  lemma {:induction false} StartInv(clock: int, peers: Peers)
    ensures Inv(Start(clock, peers))
  {
    forall c: CapId ensures CapOk(Start(clock, peers), c) {}
  }

  lemma {:induction false} RunKeepsInv(cfg: Config, s: State, steps: seq<Step>)
    requires Inv(s)
    ensures Inv(Run(cfg, s, steps))
    decreases |steps|
  {
    if steps != [] {
      StepKeepsInv(cfg, s, steps[0]);
      RunKeepsInv(cfg, Next(cfg, s, steps[0]), steps[1..]);
    }
  }

  // ---------- Invocation ceiling ----------

  // In every run, crashes between any two steps included, a capability with a limit has had no more
  // handler runs than its count on disk, which once positive is at most the limit.
  lemma {:induction false} InvocationCeiling(cfg: Config, clock: int, peers: Peers, steps: seq<Step>, c: CapId)
    ensures var s := Run(cfg, Start(clock, peers), steps);
      Limit(s, c).Some? ==>
        && Count(s.runs, c) <= Count(s.disk.counts, c)
        && (Count(s.disk.counts, c) > 0 ==> Count(s.disk.counts, c) <= Limit(s, c).value)
        && (forall i :: i in InvocationLimits(CaveatsFromDicts(s.disk.caps[c].signable.caveats)) && Count(s.runs, c) > 0 ==> Count(s.runs, c) <= i)
  {
    StartInv(clock, peers);
    RunKeepsInv(cfg, Start(clock, peers), steps);
    assert CapOk(Run(cfg, Start(clock, peers), steps), c);
  }

  // ---------- Revocation ----------

  ghost predicate IsRevoked(s: State, c: CapId) {
    c in s.disk.caps && s.disk.caps[c].signable.revoked == Some(true)
  }

  // The running dispatch read this capability before it was revoked and may still use it.
  ghost predicate ReadBeforeRevoke(s: State, c: CapId) {
    s.running.Some? &&
      var pc := s.running.value.pc;
      || (pc.CheckCapability? && pc.dict.signable.capId == c && pc.dict.signable.revoked != Some(true))
      || (TokenInUse(pc).Some? && TokenInUse(pc).value.capId == c)
  }

  ghost function RunsAndReads(s: State, c: CapId): nat {
    Count(s.runs, c) + if ReadBeforeRevoke(s, c) then 1 else 0
  }

  ghost predicate RevokedMove(s: State, s': State, c: CapId) {
    IsRevoked(s', c) && RunsAndReads(s', c) <= RunsAndReads(s, c)
  }

  lemma {:induction false} LoadAfterRevoke(s: State, r: InFlight, c: CapId)
    requires Inv(s) && s.running == Some(r) && r.pc.LoadCapability? && IsRevoked(s, c)
    ensures RevokedMove(s, LoadStep(s, r, r.pc.sender), c)
  {
    AfterLoadMeaning(s, r.msg, r.pc.sender);
  }

  lemma {:induction false} CheckAfterRevoke(cfg: Config, s: State, r: InFlight, c: CapId)
    requires Inv(s) && s.running == Some(r) && r.pc.CheckCapability? && IsRevoked(s, c)
    ensures RevokedMove(s, CapabilityStep(cfg, s, r, r.pc.sender, r.pc.dict, r.pc.inline), c)
  {
    var token := FromDict(r.pc.dict);
    if r.pc.dict.signable.capId == c && r.pc.dict.signable.revoked == Some(true) {
      assert token.revoked;
    }
  }

  lemma {:induction false} JudgedAfterRevoke(s: State, r: InFlight, verdict: ProofVerdict, c: CapId)
    requires Inv(s) && s.running == Some(r) && IsRevoked(s, c) && r.pc.CheckProof?
    ensures RevokedMove(s, Judged(s, r, r.pc.token, verdict), c)
  {
  }

  lemma {:induction false} UseAfterRevoke(cfg: Config, s: State, r: InFlight, c: CapId)
    requires Inv(s) && s.running == Some(r) && IsRevoked(s, c)
    ensures r.pc.PersistCounts? ==> RevokedMove(s, PersistCountsStep(s, r, r.pc.token), c)
    ensures r.pc.ResolveAction? ==> RevokedMove(s, ResolveStep(cfg, s, r, r.pc.cap), c)
  {
  }

  lemma {:induction false} HandlerAfterRevoke(s: State, r: InFlight, outcome: HandlerOutcome, c: CapId)
    requires Inv(s) && s.running == Some(r) && IsRevoked(s, c) && r.pc.RunHandler?
    ensures RevokedMove(s, HandlerStep(s, r, r.pc.cap, outcome), c)
  {
  }

  lemma {:induction false} AdvanceAfterRevoke(cfg: Config, s: State, r: InFlight, outcome: HandlerOutcome, c: CapId)
    requires Inv(s) && s.running == Some(r) && IsRevoked(s, c)
    ensures RevokedMove(s, AdvanceStep(cfg, s, r, outcome), c)
  {
    if Plain(r.pc) {
      PlainShape(cfg, s, r, outcome);
    } else {
      match r.pc
      case LoadCapability(_) => LoadAfterRevoke(s, r, c);
      case CheckCapability(_, _, _) => CheckAfterRevoke(cfg, s, r, c);
      case CheckProof(sender, token) => JudgedAfterRevoke(s, r, JudgeProof(r.msg, s.mem.value.counts, sender, token), c);
      case PersistCounts(_) => UseAfterRevoke(cfg, s, r, c);
      case ResolveAction(_) => UseAfterRevoke(cfg, s, r, c);
      case RunHandler(_, _) => HandlerAfterRevoke(s, r, outcome, c);
    }
  }

  // Once revoked, always revoked; and only a dispatch that read it earlier can still run a handler under it.
  lemma {:induction false} StepAfterRevoke(cfg: Config, s: State, step: Step, c: CapId)
    requires Inv(s) && IsRevoked(s, c)
    ensures RevokedMove(s, Next(cfg, s, step), c)
  {
    assert CapOk(s, c);
    match step
    case Begin(m) => if s.running.None? { BeginShape(cfg, s, m); }
    case Advance(outcome) => if s.running.Some? { AdvanceAfterRevoke(cfg, s, s.running.value, outcome, c); }
    case RevokeSave(tid) => if tid in s.revoking { assert SameCaveats(s, s.revoking[tid]); }
    case RevokeLoad(_, _) =>
    case Grant(_) =>
    case Crash =>
    case Tick(_) =>
    case StreamDrained(_, _) =>
    case StreamAdvance(sid) => StreamAdvanceShape(cfg, s, sid);
    case StreamEnd(_, _) =>
  }

  // Permanent revocation: from any reachable state where it is revoked, over every continuation
  // with restarts and inline envelopes, it stays revoked, and the handler runs under it at most
  // once more, and not at all unless a dispatch that read it before is still running.
  lemma {:induction false} RevocationIsPermanent(cfg: Config, s: State, steps: seq<Step>, c: CapId)
    requires Inv(s) && IsRevoked(s, c)
    ensures IsRevoked(Run(cfg, s, steps), c)
    ensures Count(Run(cfg, s, steps).runs, c) <= Count(s.runs, c) + if ReadBeforeRevoke(s, c) then 1 else 0
    decreases |steps|
  {
    if steps != [] {
      StepAfterRevoke(cfg, s, steps[0], c);
      StepKeepsInv(cfg, s, steps[0]);
      RevocationIsPermanent(cfg, Next(cfg, s, steps[0]), steps[1..], c);
    }
  }

  // The write of `revoke` leaves the capability revoked.
  lemma {:induction false} RevokeTakesEffect(cfg: Config, s: State, tid: nat)
    requires Inv(s) && tid in s.revoking
    ensures IsRevoked(Next(cfg, s, RevokeSave(tid)), s.revoking[tid].signable.capId)
  {
  }

  // So once `revoke` has returned true, the capability is revoked for good: at most one more handler run under it,
  // and that only in a dispatch that had read it and is still running.
  lemma {:induction false} RevokeIsPermanent(cfg: Config, s: State, tid: nat, steps: seq<Step>)
    requires Inv(s) && tid in s.revoking
    ensures var c, s1 := s.revoking[tid].signable.capId, Next(cfg, s, RevokeSave(tid));
      && IsRevoked(Run(cfg, s1, steps), c)
      && Count(Run(cfg, s1, steps).runs, c) <= Count(s.runs, c) + (if ReadBeforeRevoke(s1, c) then 1 else 0)
  {
    RevokeTakesEffect(cfg, s, tid);
    StepKeepsInv(cfg, s, RevokeSave(tid));
    RevocationIsPermanent(cfg, Next(cfg, s, RevokeSave(tid)), steps, s.revoking[tid].signable.capId);
  }

  // A dispatch that loads the capability after it was revoked is refused, envelope or not.
  lemma {:induction false} LoadAfterRevokeIsRefused(cfg: Config, s: State, r: InFlight, sender: PublicKey, o: HandlerOutcome)
    requires Inv(s) && s.running == Some(r) && r.pc == LoadCapability(sender)
    requires NonEmpty(r.msg.body.capId) && IsRevoked(s, r.msg.body.capId.value)
    ensures var s2 := Next(cfg, Next(cfg, s, Advance(o)), Advance(o)); s2.running == Some(r.(pc := Reject(CapabilityInvalid)))
  {
  }
}
