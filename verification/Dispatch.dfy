// The receiver's task pipeline as a state machine: one dispatch at a time under the task lock, cut
// at every disk write, interleaved with grants, lock-free revocations, ending streams and crashes.
module Dispatch {
  import opened Wrappers
  import opened Crypto
  import opened Capability
  import opened Messages
  import opened PeerCache
  import opened IdempotencyCache
  import opened CacheWriter
  import opened SigningPayloads
  import Delegation

  // ---------- State ----------

  datatype Config = Config(
    self: AgentId, selfKey: PublicKey, handlers: set<string>, maxDeadlineSeconds: int, auditStrict: bool, cacheMax: nat)

  datatype ReceiptNote = ReceiptNote(taskRef: string, completed: bool)

  // What survives a crash.
  datatype Disk = Disk(
    caps: map<CapId, TokenDict>, counts: map<CapId, nat>, cache: seq<Item>, peers: Peers, receipts: seq<ReceiptNote>)

  // What a crash loses; absent until the first dispatch loads it.
  datatype Memory = Memory(counts: map<CapId, nat>, cache: seq<Item>)

  // Where the running dispatch is: the next thing it will do.
  datatype Pc =
    | VerifySender
    | AuditReq(sender: PublicKey)
    | LoadCapability(sender: PublicKey)
    | CheckCapability(sender: PublicKey, dict: TokenDict, inline: bool)
    | CheckProof(sender: PublicKey, token: Token)
    | PersistCounts(token: Token)
    | ResolveAction(cap: Option<Token>)
    | RunHandler(action: string, cap: Option<Token>)
    | Reject(code: FaultCode)
    | WriteReceipt(res: string)
    | CacheResponse(res: string, writer: WriterPc)

  datatype InFlight = InFlight(msg: Message, now: int, pc: Pc)

  // `Aborted`: an eviction raised after the handler had run and its receipt was written.
  datatype Reply =
    | Replay(response: Response) | Answer(res: string) | Fault(code: FaultCode) | StreamStarted(sid: nat) | Aborted

  datatype Done = Done(taskRef: string, reply: Reply)

  // A streaming generator, which holds no lock: nothing cached yet, caching its chunks, cached on disk, or
  // ended without a receipt because an eviction raised.
  datatype StreamPc =
    | Open(msg: Message)
    | Caching(msg: Message, chunks: seq<string>, writer: WriterPc)
    | Persisted(msg: Message)
    | Dead(msg: Message)

  // `runs` counts handler calls under each capability, `seen` every capability id ever named,
  // `replies` every finished dispatch with the id of its request.
  datatype State = State(
    clock: int, disk: Disk, mem: Option<Memory>, running: Option<InFlight>, revoking: map<nat, TokenDict>,
    streams: map<nat, StreamPc>, runs: map<CapId, nat>, seen: set<CapId>, replies: seq<Done>)

  datatype HandlerOutcome = Raised(code: string) | Returned(res: string) | Generator(sid: nat)

  datatype Step =
    | Tick(seconds: nat)
    | Begin(msg: Message)
    | Advance(outcome: HandlerOutcome)
    | Grant(token: TokenDict)
    | RevokeLoad(tid: nat, capId: CapId)
    | RevokeSave(tid: nat)
    | StreamDrained(sid: nat, chunks: seq<string>)
    | StreamAdvance(sid: nat)
    | StreamEnd(sid: nat, completed: bool)
    | Crash

  function Count(counts: map<CapId, nat>, c: CapId): nat {
    if c in counts then counts[c] else 0
  }

  // ---------- The pipeline ----------

  function At(s: State, r: InFlight, pc: Pc): State {
    s.(running := Some(r.(pc := pc)))
  }

  function Finish(s: State, m: Message, reply: Reply): State {
    s.(running := None, replies := s.replies + [Done(m.body.id, reply)])
  }

  // Lifetime of a cached response: to the deadline but at least ten seconds, or a minute without one.
  function CacheExpiry(m: Message, now: int): int {
    if m.body.deadline.None? then now + 60
    else if m.body.deadline.value - now >= 10 then m.body.deadline.value else now + 10
  }

  function Loaded(s: State): Memory {
    if s.mem.Some? then s.mem.value else Memory(s.disk.counts, Live(s.disk.cache, s.clock))
  }

  // What the deadline and the cache say of a message, before anything else is looked at.
  datatype Admission = Refuse(code: FaultCode) | Hit(response: Response) | Miss(cache: seq<Item>)

  function Admit(cfg: Config, cache: seq<Item>, m: Message, now: int): Admission {
    if DeadlineExceeded(m, now) then Refuse(DeadlinePassed)
    else if m.body.deadline.Some? && m.body.deadline.value - now > cfg.maxDeadlineSeconds then Refuse(DeadlineTooFar)
    else if CacheKey(m).None? then Miss(cache)
    else
      var hit := Find(cache, CacheKey(m).value);
      if hit.None? then Miss(cache)
      else if now < hit.value.expires then Hit(hit.value.response)
      else Miss(Remove(cache, {CacheKey(m).value}))
  }

  // Lock taken, state loaded, deadline and cache consulted; nothing here touches the disk.
  function Admitted(s: State, m: Message, counts: map<CapId, nat>, cache: seq<Item>, a: Admission): State {
    var s1 := s.(seen := if NonEmpty(m.body.capId) then s.seen + {m.body.capId.value} else s.seen);
    match a
    case Refuse(code) => s1.(mem := Some(Memory(counts, cache)), running := Some(InFlight(m, s.clock, Reject(code))))
    case Hit(response) => s1.(mem := Some(Memory(counts, cache)), replies := s.replies + [Done(m.body.id, Replay(response))])
    case Miss(left) => s1.(mem := Some(Memory(counts, left)), running := Some(InFlight(m, s.clock, VerifySender)))
  }

  function BeginStep(cfg: Config, s: State, m: Message): State {
    var mem := Loaded(s);
    Admitted(s, m, mem.counts, mem.cache, Admit(cfg, mem.cache, m, s.clock))
  }

  function SenderStep(s: State, r: InFlight): State {
    var check := CheckSender(s.disk.peers, r.msg);
    var s1 := s.(disk := s.disk.(peers := check.peers));
    match check.sender
    case Ok(key) => At(s1, r, AuditReq(key))
    case Err(fault) => At(s1, r, Reject(fault))
  }

  function AfterAudit(cfg: Config, m: Message, now: int, sender: PublicKey): Pc {
    var ctx := m.body.auditContext;
    if ctx.None? then if cfg.auditStrict then Reject(TokenMalformed) else LoadCapability(sender)
    else
      var fault := AuditFault(ctx.value, m.body.to, now);
      if fault.Some? then Reject(fault.value) else LoadCapability(sender)
  }

  function AuditStep(cfg: Config, s: State, r: InFlight, sender: PublicKey): State {
    At(s, r, AfterAudit(cfg, r.msg, r.now, sender))
  }

  function AfterLoad(caps: map<CapId, TokenDict>, m: Message, sender: PublicKey): Pc {
    var id, envelope := m.body.capId, m.body.capEnvelope;
    if !NonEmpty(id) then ResolveAction(None)
    else if id.value in caps then CheckCapability(sender, caps[id.value], false)
    else if envelope.None? then Reject(CapUnknown)
    else if envelope.value.signable.capId != id.value then Reject(CapabilityInvalid)
    else CheckCapability(sender, envelope.value, true)
  }

  function LoadStep(s: State, r: InFlight, sender: PublicKey): State {
    At(s, r, AfterLoad(s.disk.caps, r.msg, sender))
  }

  function PeerKeys(peers: Peers): map<AgentId, PublicKey> {
    map id | id in peers && peers[id].publicKey.Some? :: peers[id].publicKey.value
  }

  predicate CapabilityHolds(cfg: Config, peers: Peers, m: Message, cap: TokenDict, now: int) {
    var keys := Delegation.KnownKeys(cfg.self, cfg.selfKey, cap, PeerKeys(peers));
    FromDict(cap).issuer == cfg.self && VerifyCapability(FromDict(cap), m.body.from, cfg.selfKey, keys, now) == Valid
  }

  // A verified envelope is stored before the pipeline goes on.
  function CapabilityStep(cfg: Config, s: State, r: InFlight, sender: PublicKey, cap: TokenDict, inline: bool): State {
    if !CapabilityHolds(cfg, s.disk.peers, r.msg, cap, r.now) then At(s, r, Reject(CapabilityInvalid))
    else
      var caps := if inline then s.disk.caps[cap.signable.capId := cap] else s.disk.caps;
      At(s.(disk := s.disk.(caps := caps)), r, CheckProof(sender, FromDict(cap)))
  }

  function ProofFault(m: Message, token: Token, sender: PublicKey): Option<FaultCode> {
    if m.body.holderProof.None? then Some(HolderProofRequired)
    else if token.visa then
      if token.nonce.None? || token.nonce.value == "" then Some(VisaInvalid)
      else if VerifyVisaHolderProof(m.body.holderProof, token.nonce.value, sender, true) then None
      else Some(HolderProofInvalid)
    else if VerifyHolderProof(m.body.holderProof, m.body.id, m.body.capId, m.body.to, sender, true) then None
    else Some(HolderProofInvalid)
  }

  // What the holder proof and the invocation count say of a verified token.
  datatype ProofVerdict = Denied(code: FaultCode) | Unlimited | Counted(count: nat)

  function JudgeProof(m: Message, counts: map<CapId, nat>, sender: PublicKey, token: Token): ProofVerdict {
    var fault, max, count := ProofFault(m, token, sender), MaxInvocationsOf(token.caveats), Count(counts, token.capId);
    if fault.Some? then Denied(fault.value)
    else if max.None? then Unlimited
    else if count >= max.value then Denied(RateLimited)
    else Counted(count + 1)
  }

  // A run is granted exactly when the proof holds and the count is below every limit, and the new count
  // then exceeds none; it is unlimited exactly without limits, and rate-limited exactly when one is used up.
  lemma {:induction false} JudgeMeaning(m: Message, counts: map<CapId, nat>, sender: PublicKey, token: Token)
    ensures var v, fault, n := JudgeProof(m, counts, sender, token), ProofFault(m, token, sender), Count(counts, token.capId);
      var limits := InvocationLimits(token.caveats);
      && (v.Counted? <==> fault.None? && limits != {} && forall i :: i in limits ==> n < i)
      && (v.Counted? ==> v.count == n + 1 && forall i :: i in limits ==> v.count <= i)
      && (v.Unlimited? <==> fault.None? && limits == {})
      && (v == Denied(RateLimited) <==> fault.None? && exists i :: i in limits && i <= n)
      && (fault.Some? ==> v == Denied(fault.value))
  {
    if ProofFault(m, token, sender).None? && InvocationLimits(token.caveats) != {} {
      var i :| i in InvocationLimits(token.caveats);
      assert MaxInvocationsOf(token.caveats).Some?;
    }
  }

  lemma {:induction false} JudgeBelow(m: Message, counts: map<CapId, nat>, sender: PublicKey, token: Token, max: int)
    ensures ProofFault(m, token, sender).None? && MaxInvocationsOf(token.caveats) == Some(max) && Count(counts, token.capId) < max
      ==> JudgeProof(m, counts, sender, token) == Counted(Count(counts, token.capId) + 1)
  {
  }

  // The count is raised in memory here and persisted by the next step.
  function Judged(s: State, r: InFlight, token: Token, verdict: ProofVerdict): State
    requires s.mem.Some?
  {
    match verdict
    case Denied(code) => At(s, r, Reject(code))
    case Unlimited => At(s, r, ResolveAction(Some(token)))
    case Counted(n) =>
      var mem := s.mem.value;
      At(s.(mem := Some(mem.(counts := mem.counts[token.capId := n]))), r, PersistCounts(token))
  }

  function ProofStep(s: State, r: InFlight, sender: PublicKey, token: Token): State
    requires s.mem.Some?
  {
    Judged(s, r, token, JudgeProof(r.msg, s.mem.value.counts, sender, token))
  }

  function ResolveStep(cfg: Config, s: State, r: InFlight, cap: Option<Token>): State {
    var action := if cap.Some? then cap.value.action else r.msg.body.action;
    At(s, r, if action in cfg.handlers then RunHandler(action, cap) else Reject(NoHandler))
  }

  function HandlerStep(s: State, r: InFlight, cap: Option<Token>, outcome: HandlerOutcome): State {
    var s1 := if cap.None? then s else s.(runs := s.runs[cap.value.capId := Count(s.runs, cap.value.capId) + 1]);
    match outcome
    case Raised(code) => At(s1, r, Reject(FromHandler(code)))
    case Returned(res) => At(s1, r, WriteReceipt(res))
    case Generator(sid) =>
      if sid in s.streams then s else Finish(s1.(streams := s.streams[sid := Open(r.msg)]), r.msg, StreamStarted(sid))
  }

  function ReceiptStep(s: State, r: InFlight, completed: bool): State {
    s.(disk := s.disk.(receipts := s.disk.receipts + [ReceiptNote(r.msg.body.id, completed)]))
  }

  function Entry(m: Message, response: Response, now: int): Item
    requires CacheKey(m).Some?
  {
    Item(CacheKey(m).value, response, CacheExpiry(m, now))
  }

  function SetCache(s: State, cache: seq<Item>): State
    requires s.mem.Some?
  {
    s.(mem := Some(s.mem.value.(cache := cache)))
  }

  function SaveCache(s: State, cache: seq<Item>): State {
    s.(disk := s.disk.(cache := cache))
  }

  // What one step of storing the response makes of the running dispatch.
  function Stored(s: State, r: InFlight, res: string, move: Move): State
    requires s.mem.Some?
  {
    match move
    case Moved(cache, w) => At(SetCache(s, cache), r, CacheResponse(res, w))
    case KeyMissing => Finish(s, r.msg, Aborted)
  }

  function CacheStep(cfg: Config, s: State, r: InFlight, res: string, w: WriterPc): State
    requires s.mem.Some?
  {
    if CacheKey(r.msg).None? then Finish(s, r.msg, Answer(res))
    else if w.Write? then Finish(SaveCache(s, w.snap), r.msg, Answer(res))
    else Stored(s, r, res, WriterStep(s.mem.value.cache, w, Entry(r.msg, OneShot(res), r.now), r.now, cfg.cacheMax))
  }

  function PersistCountsStep(s: State, r: InFlight, token: Token): State
    requires s.mem.Some?
  {
    At(s.(disk := s.disk.(counts := s.mem.value.counts)), r, ResolveAction(Some(token)))
  }

  function RejectStep(s: State, r: InFlight, code: FaultCode): State {
    Finish(ReceiptStep(s, r, false), r.msg, Fault(code))
  }

  function WriteReceiptStep(s: State, r: InFlight, res: string): State {
    At(ReceiptStep(s, r, true), r, CacheResponse(res, Insert))
  }

  // The next sub-step of the running dispatch; memory is loaded throughout it.
  function AdvanceStep(cfg: Config, s: State, r: InFlight, outcome: HandlerOutcome): State {
    if s.mem.None? then s
    else match r.pc
      case VerifySender => SenderStep(s, r)
      case AuditReq(sender) => AuditStep(cfg, s, r, sender)
      case LoadCapability(sender) => LoadStep(s, r, sender)
      case CheckCapability(sender, cap, inline) => CapabilityStep(cfg, s, r, sender, cap, inline)
      case CheckProof(sender, token) => ProofStep(s, r, sender, token)
      case PersistCounts(token) => PersistCountsStep(s, r, token)
      case ResolveAction(cap) => ResolveStep(cfg, s, r, cap)
      case RunHandler(_, cap) => HandlerStep(s, r, cap, outcome)
      case Reject(code) => RejectStep(s, r, code)
      case WriteReceipt(res) => WriteReceiptStep(s, r, res)
      case CacheResponse(res, w) => CacheStep(cfg, s, r, res, w)
  }

  // ---------- Everything else that can happen ----------

  function Revoked(d: TokenDict): TokenDict {
    d.(signable := d.signable.(revoked := Some(true)))
  }

  // A grant or a visa: a token under a freshly drawn id.
  function GrantStep(s: State, d: TokenDict): State {
    var c := d.signable.capId;
    if c in s.seen then s else s.(disk := s.disk.(caps := s.disk.caps[c := d]), seen := s.seen + {c})
  }

  // `revoke` reads the stored dict, marks it, and writes it back, under no lock.
  function RevokeLoadStep(s: State, tid: nat, c: CapId): State {
    if tid in s.revoking || c !in s.disk.caps then s else s.(revoking := s.revoking[tid := s.disk.caps[c]])
  }

  function RevokeSaveStep(s: State, tid: nat): State {
    if tid !in s.revoking then s
    else
      var d := Revoked(s.revoking[tid]);
      s.(disk := s.disk.(caps := s.disk.caps[d.signable.capId := d]), revoking := s.revoking - {tid})
  }

  // A keyed stream resumed past its clean final chunk starts storing its chunks.
  function StreamDrainedStep(s: State, sid: nat, chunks: seq<string>): State {
    if sid !in s.streams || !s.streams[sid].Open? || CacheKey(s.streams[sid].msg).None? then s
    else s.(streams := s.streams[sid := Caching(s.streams[sid].msg, chunks, Insert)])
  }

  function StreamStored(s: State, sid: nat, m: Message, chunks: seq<string>, move: Move): State
    requires s.mem.Some?
  {
    match move
    case Moved(cache, w) => SetCache(s, cache).(streams := s.streams[sid := Caching(m, chunks, w)])
    case KeyMissing => s.(streams := s.streams[sid := Dead(m)])
  }

  // Its next step, under no lock.
  function StreamAdvanceStep(cfg: Config, s: State, sid: nat): State {
    if sid !in s.streams || s.mem.None? || !s.streams[sid].Caching? || CacheKey(s.streams[sid].msg).None? then s
    else
      var m, chunks, w := s.streams[sid].msg, s.streams[sid].chunks, s.streams[sid].writer;
      if w.Write? then SaveCache(s, w.snap).(streams := s.streams[sid := Persisted(m)])
      else StreamStored(s, sid, m, chunks, WriterStep(s.mem.value.cache, w, Entry(m, Stream(chunks), s.clock), s.clock, cfg.cacheMax))
  }

  // The receipt comes last, on all three exits.
  function StreamEndStep(s: State, sid: nat, completed: bool): State {
    if sid !in s.streams || s.streams[sid].Caching? || s.streams[sid].Dead? then s
    else
      var note := ReceiptNote(s.streams[sid].msg.body.id, s.streams[sid].Persisted? || (completed && CacheKey(s.streams[sid].msg).None?));
      s.(streams := s.streams - {sid}, disk := s.disk.(receipts := s.disk.receipts + [note]))
  }

  function CrashStep(s: State): State {
    s.(mem := None, running := None, revoking := map[], streams := map[])
  }

  // A step that is not enabled changes nothing.
  function Next(cfg: Config, s: State, step: Step): State {
    match step
    case Tick(n) => s.(clock := s.clock + n)
    case Begin(m) => if s.running.Some? then s else BeginStep(cfg, s, m)
    case Advance(outcome) => if s.running.None? then s else AdvanceStep(cfg, s, s.running.value, outcome)
    case Grant(d) => GrantStep(s, d)
    case RevokeLoad(tid, c) => RevokeLoadStep(s, tid, c)
    case RevokeSave(tid) => RevokeSaveStep(s, tid)
    case StreamDrained(sid, chunks) => StreamDrainedStep(s, sid, chunks)
    case StreamAdvance(sid) => StreamAdvanceStep(cfg, s, sid)
    case StreamEnd(sid, completed) => StreamEndStep(s, sid, completed)
    case Crash => CrashStep(s)
  }

  function Run(cfg: Config, s: State, steps: seq<Step>): State
    decreases |steps|
  {
    if steps == [] then s else Run(cfg, Next(cfg, s, steps[0]), steps[1..])
  }

  function Start(clock: int, peers: Peers): State {
    State(clock, Disk(map[], map[], [], peers, []), None, None, map[], map[], map[], {}, [])
  }
}
