// Capabilities are limited one by one: how often the capabilities of a family, a root and what was attenuated
// from it, can run together.
module DispatchFamily {
  import opened Wrappers
  import opened Crypto
  import opened Capability
  import opened Messages
  import opened PeerCache
  import opened SigningPayloads
  import opened Dispatch
  import opened DispatchSafety
  import opened DispatchDrive
  import Delegation

  // ---------- Exercising one capability ----------

  // The holder's request under a capability, envelope included.
  function Exercise(d: TokenDict, key: PublicKey, id: string, to: string, now: int): Message {
    var c := Some(d.signable.capId);
    var body := MessageBody(id, d.signable.holder, to, c, Some(Signed(key, HolderProofPayload(id, c, to))), None, None, "",
      None, Some(d), Some(AuditContext(Some("x"), Some("x"), Some(to), Some(now))));
    Message(body, Signed(key, body))
  }

  // The dispatcher's verdict on it, kept from being expanded until some k is named unsealed.
  ghost predicate Accepted(cfg: Config, s: State, d: TokenDict) {
    forall k :: Unsealed(k) ==>
      VerifyCapability(FromDict(d), d.signable.holder, cfg.selfKey, Delegation.KnownKeys(cfg.self, cfg.selfKey, d, PeerKeys(s.disk.peers)), s.clock) == Valid
  }

  // The dispatcher would accept it from its holder now, and does not store another token under its id.
  ghost predicate Usable(cfg: Config, s: State, d: TokenDict) {
    var t, c := FromDict(d), d.signable.capId;
    && c != "" && !t.visa && t.action in cfg.handlers && t.issuer == cfg.self && ResolveKey(s.disk.peers, t.holder).Some?
    && Accepted(cfg, s, d)
    && (c in s.disk.caps ==> s.disk.caps[c] == d)
  }

  ghost function LimitOf(d: TokenDict): Option<int> {
    MaxInvocationsOf(CaveatsFromDicts(d.signable.caveats))
  }

  // What the pipeline sees of such a request.
  ghost predicate Passes(cfg: Config, s: State, m: Message, d: TokenDict, key: PublicKey) {
    && CheckSender(s.disk.peers, m) == SenderCheck(s.disk.peers, Ok(key))
    && AfterAudit(cfg, m, s.clock, key) == LoadCapability(key)
    && AfterLoad(s.disk.caps, m, key) == CheckCapability(key, d, d.signable.capId !in s.disk.caps)
    && CapabilityHolds(cfg, s.disk.peers, m, d, s.clock)
  }

  ghost predicate WillPass(cfg: Config, s: State, m: Message, d: TokenDict, key: PublicKey) {
    forall k :: Unsealed(k) ==> Passes(cfg, s, m, d, key)
  }

  lemma {:induction false} ExerciseIsAudited(cfg: Config, m: Message, key: PublicKey, now: int)
    requires m.body.auditContext == Some(AuditContext(Some("x"), Some("x"), Some(m.body.to), Some(now)))
    ensures AfterAudit(cfg, m, now, key) == LoadCapability(key)
  {
    assert Some("x").value[0] !in " \t\n\r";
    assert !Blank(Some("x"));
  }

  lemma {:induction false} ExercisePasses(cfg: Config, s: State, d: TokenDict, key: PublicKey, id: string, to: string)
    requires Usable(cfg, s, d) && ResolveKey(s.disk.peers, d.signable.holder) == Some(key)
    ensures WillPass(cfg, s, Exercise(d, key, id, to, s.clock), d, key)
  {
    var m := Exercise(d, key, id, to, s.clock);
    ExerciseIsAudited(cfg, m, key, s.clock);
    assert Unsealed(0);
    assert CheckSender(s.disk.peers, m) == SenderCheck(s.disk.peers, Ok(key));
    assert AfterLoad(s.disk.caps, m, key) == CheckCapability(key, d, d.signable.capId !in s.disk.caps);
    assert CapabilityHolds(cfg, s.disk.peers, m, d, s.clock);
  }

  // One more run of a capability below its limit; nothing else of note changes.
  ghost predicate RanOnce(s: State, s': State, d: TokenDict) {
    var c := d.signable.capId;
    var counts := Loaded(s).counts[c := Count(Loaded(s).counts, c) + 1];
    && s'.running.None? && s'.clock == s.clock && s'.disk.peers == s.disk.peers && s'.disk.caps == s.disk.caps[c := d]
    && s'.mem.Some? && s'.mem.value.counts == counts && s'.runs == s.runs[c := Count(s.runs, c) + 1]
  }

  ghost predicate JudgedAs(m: Message, counts: map<CapId, nat>, key: PublicKey, t: Token, v: ProofVerdict) {
    forall k :: Unsealed(k) ==> JudgeProof(m, counts, key, t) == v
  }

  lemma {:induction false} ProofJudged(cfg: Config, s: State, r: InFlight, t: Token, key: PublicKey, v: ProofVerdict)
    requires s.running == Some(r) && r.pc == CheckProof(key, t) && s.mem.Some? && JudgedAs(r.msg, s.mem.value.counts, key, t, v)
    ensures LeadsTo(cfg, Raised(""), s, Judged(s, r, t, v))
  {
    assert Unsealed(0);
    ProofLeads(cfg, Raised(""), s, r, key, t);
  }

  lemma {:induction false} ExerciseJudged(d: TokenDict, t: Token, key: PublicKey, id: string, to: string, now: int, m: Message,
                                          counts: map<CapId, nat>, max: int)
    requires !t.visa && m == Exercise(d, key, id, to, now)
    requires MaxInvocationsOf(t.caveats) == Some(max) && Count(counts, t.capId) < max
    ensures JudgedAs(m, counts, key, t, Counted(Count(counts, t.capId) + 1))
  {
    JudgeBelow(m, counts, key, t, max);
  }

  // The request is admitted, its sender known and its audit context in order.
  lemma {:induction false} ExerciseReachesLoad(cfg: Config, s: State, d: TokenDict, key: PublicKey, m: Message)
    requires s.running.None? && WillPass(cfg, s, m, d, key) && m.body.deadline.None? && m.body.idempotencyKey.None?
    ensures var a := BeginStep(cfg, s, m);
      && a.running == Some(InFlight(m, s.clock, VerifySender)) && a.mem == Some(Loaded(s)) && a.clock == s.clock && a.disk == s.disk
      && a.runs == s.runs && LeadsTo(cfg, Raised(""), a, At(a, a.running.value, LoadCapability(key)))
  {
    var a, o := BeginStep(cfg, s, m), Raised("");
    assert Unsealed(0);
    assert Admit(cfg, Loaded(s).cache, m, s.clock) == Miss(Loaded(s).cache);
    var start := a.running.value;
    var audit := At(a, start, AuditReq(key));
    assert SenderStep(a, start) == audit;
    OneStep(cfg, o, a, audit);
    var load := At(a, start, LoadCapability(key));
    assert AuditStep(cfg, audit, audit.running.value, key) == load;
    Then(cfg, o, a, audit, load);
  }

  // A verified capability is stored, if it was not, and goes on to its proof.
  lemma {:induction false} HoldingStored(cfg: Config, s: State, r0: InFlight, key: PublicKey, d: TokenDict, inline: bool) returns (r: InFlight, b: State)
    requires s.running == Some(r0) && r0.pc == CheckCapability(key, d, inline) && s.mem.Some?
    requires CapabilityHolds(cfg, s.disk.peers, r0.msg, d, r0.now)
    requires !inline ==> d.signable.capId in s.disk.caps && s.disk.caps[d.signable.capId] == d
    ensures Next(cfg, s, Advance(Raised(""))) == b && b.running == Some(r) && r == r0.(pc := CheckProof(key, FromDict(d)))
    ensures b.mem == s.mem && b.clock == s.clock && b.runs == s.runs && b.disk.peers == s.disk.peers
    ensures b.disk.caps == s.disk.caps[d.signable.capId := d]
  {
    b := CapabilityStep(cfg, s, r0, key, d, inline);
    assert inline || s.disk.caps[d.signable.capId := d] == s.disk.caps;
    r := b.running.value;
  }

  lemma {:induction false} ExerciseReachesProof(cfg: Config, s: State, d: TokenDict, key: PublicKey, m: Message) returns (r: InFlight, b: State)
    requires s.running.None? && WillPass(cfg, s, m, d, key) && m.body.deadline.None? && m.body.idempotencyKey.None?
    requires d.signable.capId in s.disk.caps ==> s.disk.caps[d.signable.capId] == d
    ensures LeadsTo(cfg, Raised(""), BeginStep(cfg, s, m), b)
    ensures b.running == Some(r) && r.msg == m && r.pc == CheckProof(key, FromDict(d)) && r.now == s.clock && b.mem == Some(Loaded(s))
    ensures b.clock == s.clock && b.disk.peers == s.disk.peers && b.disk.caps == s.disk.caps[d.signable.capId := d] && b.runs == s.runs
  {
    var a, o, inline := BeginStep(cfg, s, m), Raised(""), d.signable.capId !in s.disk.caps;
    ExerciseReachesLoad(cfg, s, d, key, m);
    assert Unsealed(0);
    var load := At(a, a.running.value, LoadCapability(key));
    var check := At(a, a.running.value, CheckCapability(key, d, inline));
    assert LoadStep(load, load.running.value, key) == check;
    Then(cfg, o, a, load, check);
    r, b := HoldingStored(cfg, check, check.running.value, key, d, inline);
    Then(cfg, o, a, check, b);
  }

  // A request for which the pipeline gets to count one more run.
  lemma {:induction false} ExerciseRequest(cfg: Config, s: State, d: TokenDict, t: Token, max: int, counts: map<CapId, nat>)
    returns (m: Message, key: PublicKey)
    requires Usable(cfg, s, d) && !t.visa && MaxInvocationsOf(t.caveats) == Some(max) && Count(counts, t.capId) < max
    ensures WillPass(cfg, s, m, d, key) && m.body.deadline.None? && m.body.idempotencyKey.None?
    ensures JudgedAs(m, counts, key, t, Counted(Count(counts, t.capId) + 1))
  {
    key :| ResolveKey(s.disk.peers, d.signable.holder) == Some(key);
    var id, to: string :| true;
    m := Exercise(d, key, id, to, s.clock);
    ExerciseJudged(d, t, key, id, to, s.clock, m, counts, max);
    ExercisePasses(cfg, s, d, key, id, to);
  }

  lemma {:induction false} ExerciseCounted(cfg: Config, s: State, d: TokenDict, max: int) returns (m: Message, r: InFlight, t: Token, b: State)
    requires s.running.None? && Usable(cfg, s, d) && LimitOf(d) == Some(max) && Count(Loaded(s).counts, d.signable.capId) < max
    ensures LeadsTo(cfg, Raised(""), BeginStep(cfg, s, m), b) && b.running == Some(r) && b.mem == Some(Loaded(s))
    ensures LeadsTo(cfg, Raised(""), b, Judged(b, r, t, Counted(Count(Loaded(s).counts, t.capId) + 1)))
    ensures t.capId == d.signable.capId && t.action in cfg.handlers
    ensures b.clock == s.clock && b.disk.peers == s.disk.peers && b.disk.caps == s.disk.caps[d.signable.capId := d] && b.runs == s.runs
  {
    t := FromDict(d);
    var key;
    m, key := ExerciseRequest(cfg, s, d, t, max, Loaded(s).counts);
    r, b := ExerciseReachesProof(cfg, s, d, key, m);
    ProofJudged(cfg, b, r, t, key, Counted(Count(Loaded(s).counts, t.capId) + 1));
  }

  // From the raised count to the handler.
  lemma {:induction false} CountedToHandler(cfg: Config, s: State, r: InFlight, t: Token) returns (s': State)
    requires s.running == Some(r) && r.pc == PersistCounts(t) && s.mem.Some? && t.action in cfg.handlers
    ensures LeadsTo(cfg, Raised(""), s, s') && s'.running == Some(r.(pc := RunHandler(t.action, Some(t))))
    ensures s' == s.(disk := s.disk.(counts := s.mem.value.counts), running := s'.running)
  {
    var saved, o := PersistCountsStep(s, r, t), Raised("");
    OneStep(cfg, o, s, saved);
    s' := At(saved, saved.running.value, RunHandler(t.action, Some(t)));
    assert ResolveStep(cfg, saved, saved.running.value, Some(t)) == s';
    Then(cfg, o, s, saved, s');
  }

  // The handler raises, and the dispatch ends.
  lemma {:induction false} HandlerToRest(cfg: Config, s: State, r: InFlight, t: Token) returns (s': State)
    requires s.running == Some(r) && r.pc == RunHandler(t.action, Some(t)) && s.mem.Some?
    ensures LeadsTo(cfg, Raised(""), s, s') && s'.running.None? && s'.clock == s.clock && s'.mem == s.mem
    ensures s'.disk.peers == s.disk.peers && s'.disk.caps == s.disk.caps && s'.runs == s.runs[t.capId := Count(s.runs, t.capId) + 1]
  {
    var o := Raised("");
    var handled := HandlerStep(s, r, Some(t), o);
    OneStep(cfg, o, s, handled);
    s' := RejectStep(handled, handled.running.value, FromHandler(""));
    Then(cfg, o, s, handled, s');
  }

  lemma {:induction false} CountedThere(cfg: Config, s: State, m: Message, b: State, r: InFlight, t: Token, n: nat) returns (s': State)
    requires s.running.None? && LeadsTo(cfg, Raised(""), BeginStep(cfg, s, m), b) && b.running == Some(r) && b.mem.Some?
    requires LeadsTo(cfg, Raised(""), b, Judged(b, r, t, Counted(n))) && t.action in cfg.handlers
    ensures Goes(cfg, s, s')
    ensures s'.running.None? && s'.clock == b.clock && s'.disk.peers == b.disk.peers && s'.disk.caps == b.disk.caps
    ensures s'.mem.Some? && s'.mem.value.counts == b.mem.value.counts[t.capId := n] && s'.runs == b.runs[t.capId := Count(b.runs, t.capId) + 1]
  {
    var a, o := BeginStep(cfg, s, m), Raised("");
    var counted := Judged(b, r, t, Counted(n));
    Then(cfg, o, a, b, counted);
    var called := CountedToHandler(cfg, counted, counted.running.value, t);
    Then(cfg, o, a, counted, called);
    s' := HandlerToRest(cfg, called, called.running.value, t);
    Then(cfg, o, a, called, s');
    DispatchGoes(cfg, o, s, m, s');
  }

  // A usable capability below its limit can run once more.
  lemma {:induction false} RunOnce(cfg: Config, s: State, d: TokenDict) returns (s': State)
    requires s.running.None? && Usable(cfg, s, d) && LimitOf(d).Some? && Count(Loaded(s).counts, d.signable.capId) < LimitOf(d).value
    ensures Goes(cfg, s, s') && RanOnce(s, s', d)
  {
    var m, r, t, b := ExerciseCounted(cfg, s, d, LimitOf(d).value);
    s' := CountedThere(cfg, s, m, b, r, t, Count(Loaded(s).counts, t.capId) + 1);
  }

  // ---------- A family's runs together ----------

  // The runs its count on disk still leaves a limited capability.
  ghost function RunsLeft(s: State, d: TokenDict): nat {
    var limit, n := LimitOf(d), Count(Loaded(s).counts, d.signable.capId);
    if limit.Some? && limit.value > n then limit.value - n else 0
  }

  ghost function TotalRuns(s: State, ds: seq<TokenDict>): nat {
    if ds == [] then 0 else Count(s.runs, ds[0].signable.capId) + TotalRuns(s, ds[1..])
  }

  ghost function TotalLeft(s: State, ds: seq<TokenDict>): nat {
    if ds == [] then 0 else RunsLeft(s, ds[0]) + TotalLeft(s, ds[1..])
  }

  // Stored, usable and limited.
  ghost predicate Ready(cfg: Config, s: State, d: TokenDict) {
    Usable(cfg, s, d) && LimitOf(d).Some? && d.signable.capId in s.disk.caps
  }

  ghost predicate Family(cfg: Config, s: State, ds: seq<TokenDict>) {
    && s.running.None?
    && (forall i :: 0 <= i < |ds| ==> Ready(cfg, s, ds[i]))
    && (forall i, j :: 0 <= i < j < |ds| ==> ds[i].signable.capId != ds[j].signable.capId)
  }

  // The state goes on with other ids' runs and counts, stored capabilities, peers and clock as they were.
  ghost predicate OnlyRan(s: State, s': State, ids: set<CapId>) {
    && s'.running.None? && s'.clock == s.clock && s'.disk.peers == s.disk.peers && s'.disk.caps == s.disk.caps
    && forall c :: c !in ids ==> Count(Loaded(s').counts, c) == Count(Loaded(s).counts, c) && Count(s'.runs, c) == Count(s.runs, c)
  }

  lemma {:induction false} StaysUsable(cfg: Config, s: State, s': State, d: TokenDict)
    requires Usable(cfg, s, d) && s'.clock == s.clock && s'.disk.peers == s.disk.peers && s'.disk.caps == s.disk.caps
    ensures Usable(cfg, s', d)
  {
    assert Accepted(cfg, s', d) by {
      forall k | Unsealed(k)
        ensures VerifyCapability(FromDict(d), d.signable.holder, cfg.selfKey, Delegation.KnownKeys(cfg.self, cfg.selfKey, d, PeerKeys(s'.disk.peers)), s'.clock) == Valid
      {
      }
    }
  }

  lemma {:induction false} ExhaustOne(cfg: Config, s: State, d: TokenDict) returns (s': State)
    requires s.running.None? && Ready(cfg, s, d)
    ensures Goes(cfg, s, s') && OnlyRan(s, s', {d.signable.capId})
    ensures Count(s'.runs, d.signable.capId) == Count(s.runs, d.signable.capId) + RunsLeft(s, d)
    decreases RunsLeft(s, d)
  {
    if RunsLeft(s, d) == 0 {
      assert Run(cfg, s, []) == s;
      s' := s;
    } else {
      var a := RunOnce(cfg, s, d);
      assert a.disk.caps == s.disk.caps;
      StaysUsable(cfg, s, a, d);
      s' := ExhaustOne(cfg, a, d);
      GoesOn(cfg, s, a, s');
    }
  }

  ghost function IdsOf(ds: seq<TokenDict>): set<CapId> {
    set d | d in ds :: d.signable.capId
  }

  lemma {:induction false} FamilyShrinks(cfg: Config, s: State, s': State, ds: seq<TokenDict>)
    requires Family(cfg, s, ds) && ds != [] && OnlyRan(s, s', {ds[0].signable.capId})
    ensures Family(cfg, s', ds[1..]) && ds[0].signable.capId !in IdsOf(ds[1..])
  {
    forall i | 0 <= i < |ds[1..]| ensures Ready(cfg, s', ds[1..][i]) {
      assert ds[1..][i] == ds[i + 1] && Ready(cfg, s, ds[i + 1]);
      assert ds[i + 1].signable.capId != ds[0].signable.capId;
      StaysUsable(cfg, s, s', ds[i + 1]);
    }
  }

  lemma {:induction false} OthersUnchanged(s: State, s': State, ids: set<CapId>, ds: seq<TokenDict>)
    requires OnlyRan(s, s', ids) && ids !! IdsOf(ds)
    ensures TotalRuns(s', ds) == TotalRuns(s, ds) && TotalLeft(s', ds) == TotalLeft(s, ds)
    decreases |ds|
  {
    if ds != [] {
      assert ds[0] in ds && IdsOf(ds[1..]) <= IdsOf(ds);
      OthersUnchanged(s, s', ids, ds[1..]);
    }
  }

  lemma {:induction false} ExhaustAll(cfg: Config, s: State, ds: seq<TokenDict>) returns (s': State)
    requires Family(cfg, s, ds)
    ensures Goes(cfg, s, s') && OnlyRan(s, s', IdsOf(ds)) && TotalRuns(s', ds) == TotalRuns(s, ds) + TotalLeft(s, ds)
    decreases |ds|
  {
    if ds == [] {
      assert Run(cfg, s, []) == s;
      s' := s;
    } else {
      var a := ExhaustOne(cfg, s, ds[0]);
      FamilyShrinks(cfg, s, a, ds);
      OthersUnchanged(s, a, {ds[0].signable.capId}, ds[1..]);
      s' := ExhaustAll(cfg, a, ds[1..]);
      GoesOn(cfg, s, a, s');
      assert ds[0] in ds && IdsOf(ds[1..]) <= IdsOf(ds);
    }
  }

  // ---------- What a count still leaves ----------

  // Runs made, a run counted or being counted, and what the limit leaves above the count.
  ghost function Budget(s: State, c: CapId, limit: int): nat {
    var counted := Count(s.disk.counts, c) + Unsaved(s, c);
    Count(s.runs, c) + Pending(s, c) + Unsaved(s, c) + if limit > counted then limit - counted else 0
  }

  ghost predicate BudgetMove(s: State, s': State, c: CapId, limit: int) {
    Budget(s', c, limit) <= Budget(s, c, limit)
  }

  lemma {:induction false} LoadBudget(s: State, r: InFlight, c: CapId, limit: int)
    requires Inv(s) && s.running == Some(r) && r.pc.LoadCapability?
    ensures BudgetMove(s, LoadStep(s, r, r.pc.sender), c, limit)
  {
    AfterLoadMeaning(s, r.msg, r.pc.sender);
  }

  lemma {:induction false} CheckBudget(cfg: Config, s: State, r: InFlight, c: CapId, limit: int)
    requires s.running == Some(r) && r.pc.CheckCapability?
    ensures BudgetMove(s, CapabilityStep(cfg, s, r, r.pc.sender, r.pc.dict, r.pc.inline), c, limit)
  {
  }

  lemma {:induction false} JudgedBudget(s: State, r: InFlight, verdict: ProofVerdict, c: CapId, limit: int)
    requires Inv(s) && s.running == Some(r) && r.pc.CheckProof? && Limit(s, c) == Some(limit)
    requires r.pc.token.capId == c ==> !verdict.Unlimited? && (verdict.Counted? ==> Count(s.mem.value.counts, c) < limit)
    ensures BudgetMove(s, Judged(s, r, r.pc.token, verdict), c, limit)
  {
    assert CapOk(s, c);
  }

  lemma {:induction false} PersistBudget(s: State, r: InFlight, c: CapId, limit: int)
    requires Inv(s) && s.running == Some(r) && r.pc.PersistCounts?
    ensures BudgetMove(s, PersistCountsStep(s, r, r.pc.token), c, limit)
  {
    assert CapOk(s, c);
  }

  lemma {:induction false} UseBudget(cfg: Config, s: State, r: InFlight, outcome: HandlerOutcome, c: CapId, limit: int)
    requires s.running == Some(r)
    ensures r.pc.ResolveAction? ==> BudgetMove(s, ResolveStep(cfg, s, r, r.pc.cap), c, limit)
    ensures r.pc.RunHandler? ==> BudgetMove(s, HandlerStep(s, r, r.pc.cap, outcome), c, limit)
  {
  }

  lemma {:induction false} AdvanceBudget(cfg: Config, s: State, r: InFlight, outcome: HandlerOutcome, c: CapId, limit: int)
    requires Inv(s) && s.running == Some(r) && Limit(s, c) == Some(limit)
    ensures BudgetMove(s, AdvanceStep(cfg, s, r, outcome), c, limit)
  {
    if Plain(r.pc) {
      PlainShape(cfg, s, r, outcome);
    } else {
      match r.pc
      case LoadCapability(_) => LoadBudget(s, r, c, limit);
      case CheckCapability(_, _, _) => CheckBudget(cfg, s, r, c, limit);
      case CheckProof(key, token) =>
        var verdict := JudgeProof(r.msg, s.mem.value.counts, key, token);
        JudgeMeaning(r.msg, s.mem.value.counts, key, token);
        HeldLimit(s, token);
        JudgedBudget(s, r, verdict, c, limit);
      case PersistCounts(_) => PersistBudget(s, r, c, limit);
      case ResolveAction(_) => UseBudget(cfg, s, r, outcome, c, limit);
      case RunHandler(_, _) => UseBudget(cfg, s, r, outcome, c, limit);
    }
  }

  lemma {:induction false} CrashBudget(s: State, c: CapId, limit: int)
    requires Inv(s) && Limit(s, c) == Some(limit)
    ensures BudgetMove(s, CrashStep(s), c, limit)
  {
    assert CapOk(s, c);
  }

  lemma {:induction false} OtherBudget(cfg: Config, s: State, step: Step, c: CapId, limit: int)
    requires !step.Begin? && !step.Advance? && !step.StreamAdvance? && !step.Crash?
    ensures BudgetMove(s, Next(cfg, s, step), c, limit)
  {
    var s' := Next(cfg, s, step);
    assert s'.disk.counts == s.disk.counts && s'.runs == s.runs && s'.running == s.running;
  }

  // No step, crash included, raises what a limited capability has run and may still run together.
  lemma {:induction false} StepBudget(cfg: Config, s: State, step: Step, c: CapId, limit: int)
    requires Inv(s) && Limit(s, c) == Some(limit)
    ensures BudgetMove(s, Next(cfg, s, step), c, limit)
  {
    match step
    case Begin(m) => if s.running.None? { BeginShape(cfg, s, m); }
    case Advance(outcome) => if s.running.Some? { AdvanceBudget(cfg, s, s.running.value, outcome, c, limit); }
    case StreamAdvance(sid) => StreamAdvanceShape(cfg, s, sid);
    case Crash => CrashBudget(s, c, limit);
    case _ => OtherBudget(cfg, s, step, c, limit);
  }

  lemma {:induction false} RunBudget(cfg: Config, s: State, steps: seq<Step>, c: CapId, limit: int)
    requires Inv(s) && Limit(s, c) == Some(limit)
    ensures Budget(Run(cfg, s, steps), c, limit) <= Budget(s, c, limit)
    decreases |steps|
  {
    if steps != [] {
      StepBudget(cfg, s, steps[0], c, limit);
      StepKeepsInv(cfg, s, steps[0]);
      StepKeepsCaveats(cfg, s, steps[0], c);
      RunBudget(cfg, Next(cfg, s, steps[0]), steps[1..], c, limit);
    }
  }

  // ---------- The exact bound ----------

  lemma {:induction false} OneWithin(cfg: Config, s: State, steps: seq<Step>, d: TokenDict)
    requires Inv(s) && s.running.None? && Ready(cfg, s, d)
    ensures Count(Run(cfg, s, steps).runs, d.signable.capId) <= Count(s.runs, d.signable.capId) + RunsLeft(s, d)
  {
    assert CapOk(s, d.signable.capId);
    RunBudget(cfg, s, steps, d.signable.capId, LimitOf(d).value);
  }

  lemma {:induction false} AllWithin(cfg: Config, s: State, steps: seq<Step>, ds: seq<TokenDict>)
    requires Inv(s) && Family(cfg, s, ds)
    ensures TotalRuns(Run(cfg, s, steps), ds) <= TotalRuns(s, ds) + TotalLeft(s, ds)
    decreases |ds|
  {
    if ds != [] {
      OneWithin(cfg, s, steps, ds[0]);
      assert Family(cfg, s, ds[1..]) by {
        forall i | 0 <= i < |ds[1..]| ensures Ready(cfg, s, ds[1..][i]) {
          assert ds[1..][i] == ds[i + 1] && Ready(cfg, s, ds[i + 1]);
        }
      }
      AllWithin(cfg, s, steps, ds[1..]);
    }
  }

  // A bound, the root's limit say, holds for all runs of a stored family together, over every continuation,
  // exactly when it is at least the runs they have made and those their counts still leave each of them.
  lemma {:induction false} FamilyBoundIff(cfg: Config, s: State, ds: seq<TokenDict>, bound: int)
    requires Inv(s) && Family(cfg, s, ds)
    ensures (forall steps :: TotalRuns(Run(cfg, s, steps), ds) <= bound) <==> TotalRuns(s, ds) + TotalLeft(s, ds) <= bound
  {
    var s' := ExhaustAll(cfg, s, ds);
    assert Unsealed(0);
    var steps :| Run(cfg, s, steps) == s';
    if TotalRuns(s, ds) + TotalLeft(s, ds) <= bound {
      forall more ensures TotalRuns(Run(cfg, s, more), ds) <= bound {
        AllWithin(cfg, s, more, ds);
      }
    } else {
      assert TotalRuns(Run(cfg, s, steps), ds) > bound;
    }
  }
}
