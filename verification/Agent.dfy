// The receiving agent as an object: its task pipeline, invocation counting, response caching and
// revocation, each tied to the steps of the Dispatch state machine it performs.
module Agent {
  import opened Wrappers
  import opened Crypto
  import opened Capability
  import opened Messages
  import opened PeerCache
  import opened IdempotencyCache
  import opened CacheWriter
  import opened Dispatch
  import opened DispatchSafety
  import opened DispatchDrive
  import Delegation

  // ---------- Single steps ----------

  lemma {:induction false} CapabilityLeads(cfg: Config, o: HandlerOutcome, s: State, r: InFlight, sender: PublicKey, cap: TokenDict, inline: bool)
    requires s.running == Some(r) && r.pc == CheckCapability(sender, cap, inline) && s.mem.Some?
    ensures LeadsTo(cfg, o, s, CapabilityStep(cfg, s, r, sender, cap, inline))
  {
    OneStep(cfg, o, s, CapabilityStep(cfg, s, r, sender, cap, inline));
  }

  // ---------- The agent ----------

  class PactAgent {
    const cfg: Config
    // On disk.
    var caps: map<CapId, TokenDict>
    var savedCounts: map<CapId, nat>
    var savedCache: seq<Item>
    const directory: PeerDirectory
    var receipts: seq<ReceiptNote>
    // In memory.
    var loaded: bool
    var counts: map<CapId, nat>
    const cache: Cache
    var streams: map<nat, StreamPc>
    // The history the theorems speak of.
    ghost var revoking: map<nat, TokenDict>
    ghost var runs: map<CapId, nat>
    ghost var seen: set<CapId>
    ghost var replies: seq<Done>

    constructor (cfg: Config)
      ensures Valid() && fresh(cache) && fresh(directory) && this.cfg == cfg
      ensures View(0, None) == Start(0, map[])
    {
      this.cfg := cfg;
      caps, savedCounts, savedCache, receipts := map[], map[], [], [];
      loaded, counts, streams := false, map[], map[];
      revoking, runs, seen, replies := map[], map[], {}, [];
      cache := new Cache(cfg.cacheMax);
      directory := new PeerDirectory();
    }

    ghost predicate Valid()
      reads this, cache
    {
      cache.Valid() && Distinct(savedCache) && cache.max == cfg.cacheMax
    }

    // The machine state this agent is in.
    ghost function View(now: int, running: Option<InFlight>): State
      reads this, cache, directory
    {
      State(now, Disk(caps, savedCounts, savedCache, directory.peers, receipts),
            if loaded then Some(Memory(counts, cache.items)) else None, running, revoking, streams, runs, seen, replies)
    }

    ghost function Dispatching(m: Message, now: int, pc: Pc): State
      reads this, cache, directory
    {
      View(now, Some(InFlight(m, now, pc)))
    }

    method EnsureStateLoaded(now: int)
      requires Valid()
      modifies this`loaded, this`counts, cache
      ensures Valid() && loaded
      ensures Memory(counts, cache.items) == Loaded(old(View(now, None)))
    {
      if !loaded {
        cache.items := savedCache;
        cache.EvictExpired(now);
        counts := savedCounts;
        loaded := true;
      }
    }

    // The deadline check and the idempotency lookup.
    method AdmitRequest(m: Message, now: int) returns (a: Admission)
      requires Valid() && loaded
      modifies cache
      ensures Valid() && a == Admit(cfg, old(cache.items), m, now)
      ensures cache.items == if a.Miss? then a.cache else old(cache.items)
    {
      if m.body.deadline.Some? {
        if now > m.body.deadline.value { return Refuse(DeadlinePassed); }
        if m.body.deadline.value - now > cfg.maxDeadlineSeconds { return Refuse(DeadlineTooFar); }
      }
      if CacheKey(m).Some? {
        ghost var was := cache.items;
        var hit := cache.Lookup(CacheKey(m).value, now);
        if hit.Some? { return Hit(hit.value); }
        if Find(was, CacheKey(m).value).None? { RemoveAbsent(was, {CacheKey(m).value}); }
      }
      return Miss(cache.items);
    }

    method VerifySender(m: Message, now: int, ghost o: HandlerOutcome) returns (sender: Result<PublicKey, FaultCode>)
      requires loaded
      modifies directory
      ensures LeadsTo(cfg, o, old(Dispatching(m, now, Dispatch.VerifySender)),
                Dispatching(m, now, if sender.Ok? then AuditReq(sender.value) else Reject(sender.error)))
    {
      sender := directory.VerifySender(m);
      OneStep(cfg, o, old(Dispatching(m, now, Dispatch.VerifySender)),
        Dispatching(m, now, if sender.Ok? then AuditReq(sender.value) else Reject(sender.error)));
    }

    method FindCapability(m: Message, id: CapId) returns (found: Result<(TokenDict, bool), FaultCode>)
      requires m.body.capId == Some(id) && NonEmpty(Some(id))
      ensures forall sender :: AfterLoad(caps, m, sender) == (if found.Ok? then CheckCapability(sender, found.value.0, found.value.1) else Reject(found.error))
    {
      if id in caps { return Ok((caps[id], false)); }
      if m.body.capEnvelope.None? { return Err(CapUnknown); }
      var envelope := m.body.capEnvelope.value;
      if envelope.signable.capId != id { return Err(CapabilityInvalid); }
      return Ok((envelope, true));
    }

    // Verify the chain with the keys gathered from the peer cache; store a verified envelope.
    method VerifyChain(m: Message, now: int, sender: PublicKey, cap: TokenDict, inline: bool, ghost o: HandlerOutcome) returns (ok: bool)
      requires loaded
      modifies this`caps
      ensures LeadsTo(cfg, o, old(Dispatching(m, now, CheckCapability(sender, cap, inline))),
                Dispatching(m, now, if ok then CheckProof(sender, FromDict(cap)) else Reject(CapabilityInvalid)))
    {
      ghost var s := Dispatching(m, now, CheckCapability(sender, cap, inline));
      CapabilityLeads(cfg, o, s, s.running.value, sender, cap, inline);
      var token := FromDict(cap);
      ok := false;
      if token.issuer == cfg.self {
        var keys := Delegation.GatherKnownKeys(cfg.self, cfg.selfKey, cap, PeerKeys(directory.peers));
        var verdict := RunVerifier(token, m.body.from, cfg.selfKey, keys, now);
        ok := verdict == Capability.Valid;
        if ok && inline {
          caps := caps[cap.signable.capId := cap];
        }
      }
    }

    method PersistCountsNow(m: Message, now: int, token: Token, ghost s: State, ghost o: HandlerOutcome)
      requires loaded && LeadsTo(cfg, o, s, Dispatching(m, now, PersistCounts(token)))
      modifies this`savedCounts
      ensures LeadsTo(cfg, o, s, Dispatching(m, now, ResolveAction(Some(token))))
    {
      ghost var s1 := Dispatching(m, now, PersistCounts(token));
      savedCounts := counts;
      Then(cfg, o, s, s1, Dispatching(m, now, ResolveAction(Some(token))));
    }

    // Holder proof, then the rate limit on the count in memory; the new count exceeds no limit.
    method CheckLimit(m: Message, sender: PublicKey, token: Token) returns (verdict: ProofVerdict)
      ensures verdict == JudgeProof(m, counts, sender, token)
      ensures verdict.Counted? ==> InvocationLimits(token.caveats) != {} && forall i :: i in InvocationLimits(token.caveats) ==> verdict.count <= i
      ensures verdict.Unlimited? ==> InvocationLimits(token.caveats) == {}
      ensures verdict == Denied(RateLimited) ==> exists i :: i in InvocationLimits(token.caveats) && i <= Count(counts, token.capId)
    {
      JudgeMeaning(m, counts, sender, token);
      var fault := ProofFault(m, token, sender);
      if fault.Some? { return Denied(fault.value); }
      var max := MaxInvocationsOf(token.caveats);
      if max.None? { return Unlimited; }
      var count := Count(counts, token.capId);
      if count >= max.value { return Denied(RateLimited); }
      return Counted(count + 1);
    }

    // A raised count is on disk before this returns.
    method CountInvocation(m: Message, now: int, sender: PublicKey, token: Token, ghost o: HandlerOutcome) returns (fault: Option<FaultCode>)
      requires loaded
      modifies this`counts, this`savedCounts
      ensures LeadsTo(cfg, o, old(Dispatching(m, now, CheckProof(sender, token))),
                Dispatching(m, now, if fault.Some? then Reject(fault.value) else ResolveAction(Some(token))))
    {
      ghost var s := Dispatching(m, now, CheckProof(sender, token));
      ProofLeads(cfg, o, s, s.running.value, sender, token);
      var verdict := CheckLimit(m, sender, token);
      match verdict
      case Denied(code) => return Some(code);
      case Unlimited => return None;
      case Counted(n) =>
        counts := counts[token.capId := n];
        PersistCountsNow(m, now, token, s, o);
        return None;
    }

    method VerifyCapability(m: Message, now: int, sender: PublicKey, ghost o: HandlerOutcome) returns (r: Result<Option<Token>, FaultCode>)
      requires loaded
      modifies this`caps, this`counts, this`savedCounts
      ensures LeadsTo(cfg, o, old(Dispatching(m, now, LoadCapability(sender))),
                Dispatching(m, now, if r.Ok? then ResolveAction(r.value) else Reject(r.error)))
    {
      ghost var s := Dispatching(m, now, LoadCapability(sender));
      ghost var s1 := Dispatching(m, now, AfterLoad(caps, m, sender));
      OneStep(cfg, o, s, s1);
      if !NonEmpty(m.body.capId) { return Ok(None); }
      var found := FindCapability(m, m.body.capId.value);
      if found.Err? { return Err(found.error); }
      var cap, inline := found.value.0, found.value.1;
      var ok := VerifyChain(m, now, sender, cap, inline, o);
      ghost var s2 := Dispatching(m, now, if ok then CheckProof(sender, FromDict(cap)) else Reject(CapabilityInvalid));
      Then(cfg, o, s, s1, s2);
      if !ok { return Err(CapabilityInvalid); }
      var fault := CountInvocation(m, now, sender, FromDict(cap), o);
      Then(cfg, o, s, s2, Dispatching(m, now, if fault.Some? then Reject(fault.value) else ResolveAction(Some(FromDict(cap)))));
      if fault.Some? { return Err(fault.value); }
      return Ok(Some(FromDict(cap)));
    }

    // A failed receipt and the error reply.
    method DispatchErr(m: Message, now: int, code: FaultCode, ghost o: HandlerOutcome) returns (reply: Reply)
      requires loaded
      modifies this`receipts, this`replies
      ensures reply == Fault(code) && replies == old(replies) + [Done(m.body.id, reply)]
      ensures LeadsTo(cfg, o, old(Dispatching(m, now, Reject(code))), View(now, None))
    {
      receipts := receipts + [ReceiptNote(m.body.id, false)];
      reply := Fault(code);
      replies := replies + [Done(m.body.id, reply)];
      OneStep(cfg, o, old(Dispatching(m, now, Reject(code))), View(now, None));
    }

    method CacheIdempotentResponse(m: Message, response: Response, now: int)
      requires Valid() && loaded
      modifies this`savedCache, cache
      ensures Valid()
      ensures if CacheKey(m).None? then cache.items == old(cache.items) && savedCache == old(savedCache)
        else cache.items == Inserted(old(cache.items), Entry(m, response, now), now, cfg.cacheMax) && savedCache == cache.items
    {
      if CacheKey(m).None? { return; }
      var ttl := 60;
      if m.body.deadline.Some? {
        ttl := if m.body.deadline.value - now >= 10 then m.body.deadline.value - now else 10;
      }
      cache.Insert(CacheKey(m).value, response, now + ttl, now);
      savedCache := cache.items;
    }

    method StoreResponse(m: Message, now: int, res: string, ghost o: HandlerOutcome) returns (reply: Reply)
      requires Valid() && loaded
      modifies this`savedCache, this`replies, cache
      ensures Valid() && reply == Answer(res) && replies == old(replies) + [Done(m.body.id, reply)]
      ensures LeadsTo(cfg, o, old(Dispatching(m, now, CacheResponse(res, WriterPc.Insert))), View(now, None))
    {
      ghost var s := Dispatching(m, now, CacheResponse(res, WriterPc.Insert));
      if CacheKey(m).Some? {
        OutcomeIsInserted(cache.items, Entry(m, OneShot(res), now), now, cfg.cacheMax);
        WriterLeads(cfg, o, s, s.running.value, res, WriterPc.Insert, Inserted(cache.items, Entry(m, OneShot(res), now), now, cfg.cacheMax));
      } else {
        OneStep(cfg, o, s, Finish(s, m, Answer(res)));
      }
      CacheIdempotentResponse(m, OneShot(res), now);
      reply := Answer(res);
      replies := replies + [Done(m.body.id, reply)];
    }

    // The end of a one-shot dispatch: receipt, then cache.
    method CompleteOneShot(m: Message, now: int, res: string, ghost o: HandlerOutcome) returns (reply: Reply)
      requires Valid() && loaded
      modifies this`receipts, this`savedCache, this`replies, cache
      ensures Valid() && reply == Answer(res) && replies == old(replies) + [Done(m.body.id, reply)]
      ensures LeadsTo(cfg, o, old(Dispatching(m, now, WriteReceipt(res))), View(now, None))
    {
      ghost var s := Dispatching(m, now, WriteReceipt(res));
      receipts := receipts + [ReceiptNote(m.body.id, true)];
      ghost var s1 := Dispatching(m, now, CacheResponse(res, WriterPc.Insert));
      OneStep(cfg, o, s, s1);
      reply := StoreResponse(m, now, res, o);
      Then(cfg, o, s, s1, View(now, None));
    }

    method RunHandler(m: Message, now: int, action: string, cap: Option<Token>, o: HandlerOutcome) returns (reply: Reply)
      requires Valid() && loaded && (o.Generator? ==> o.sid !in streams)
      modifies this`receipts, this`savedCache, this`replies, this`runs, this`streams, cache
      ensures Valid() && replies == old(replies) + [Done(m.body.id, reply)]
      ensures LeadsTo(cfg, o, old(Dispatching(m, now, Dispatch.RunHandler(action, cap))), View(now, None))
    {
      ghost var s := Dispatching(m, now, Dispatch.RunHandler(action, cap));
      ghost var s1 := HandlerStep(s, s.running.value, cap, o);
      OneStep(cfg, o, s, s1);
      if cap.Some? {
        runs := runs[cap.value.capId := Count(runs, cap.value.capId) + 1];
      }
      match o
      case Raised(code) =>
        assert s1 == Dispatching(m, now, Reject(FromHandler(code)));
        reply := DispatchErr(m, now, FromHandler(code), o);
        Then(cfg, o, s, s1, View(now, None));
      case Returned(res) =>
        assert s1 == Dispatching(m, now, WriteReceipt(res));
        reply := CompleteOneShot(m, now, res, o);
        Then(cfg, o, s, s1, View(now, None));
      case Generator(sid) =>
        streams := streams[sid := Open(m)];
        reply := StreamStarted(sid);
        replies := replies + [Done(m.body.id, reply)];
        assert s1 == View(now, None);
    }

    // The validators in order; the first fault ends the dispatch.
    method Validate(m: Message, now: int, ghost o: HandlerOutcome) returns (r: Result<Option<Token>, FaultCode>)
      requires loaded
      modifies this`caps, this`counts, this`savedCounts, directory
      ensures LeadsTo(cfg, o, old(Dispatching(m, now, Dispatch.VerifySender)),
                Dispatching(m, now, if r.Ok? then ResolveAction(r.value) else Reject(r.error)))
    {
      ghost var s := Dispatching(m, now, Dispatch.VerifySender);
      var sender := VerifySender(m, now, o);
      if sender.Err? { return Err(sender.error); }
      ghost var s1 := Dispatching(m, now, AuditReq(sender.value));
      if m.body.auditContext.None? {
        if cfg.auditStrict {
          Then(cfg, o, s, s1, Dispatching(m, now, Reject(TokenMalformed)));
          return Err(TokenMalformed);
        }
      } else {
        var fault := AuditFault(m.body.auditContext.value, m.body.to, now);
        if fault.Some? {
          Then(cfg, o, s, s1, Dispatching(m, now, Reject(fault.value)));
          return Err(fault.value);
        }
      }
      ghost var s2 := Dispatching(m, now, LoadCapability(sender.value));
      Then(cfg, o, s, s1, s2);
      r := VerifyCapability(m, now, sender.value, o);
      Then(cfg, o, s, s2, Dispatching(m, now, if r.Ok? then ResolveAction(r.value) else Reject(r.error)));
    }

    // Lock taken: state loaded, request admitted.
    method Begin(m: Message, now: int) returns (a: Admission)
      requires Valid()
      modifies this`loaded, this`counts, this`seen, cache
      ensures Valid() && loaded
      ensures var s := BeginStep(cfg, old(View(now, None)), m);
        match a
        case Refuse(code) => s == Dispatching(m, now, Reject(code))
        case Hit(response) => s == View(now, None).(replies := old(replies) + [Done(m.body.id, Replay(response))])
        case Miss(_) => s == Dispatching(m, now, Dispatch.VerifySender)
    {
      EnsureStateLoaded(now);
      if NonEmpty(m.body.capId) { seen := seen + {m.body.capId.value}; }
      a := AdmitRequest(m, now);
    }

    // One task request from admission to reply: exactly the machine's uninterrupted dispatch.
    method HandleTask(m: Message, now: int, o: HandlerOutcome) returns (reply: Reply)
      requires Valid() && (o.Generator? ==> o.sid !in streams)
      modifies this, cache, directory
      ensures Valid() && replies == old(replies) + [Done(m.body.id, reply)]
      ensures LeadsTo(cfg, o, BeginStep(cfg, old(View(now, None)), m), View(now, None))
      ensures old(Reached(cfg, View(now, None))) ==> Reached(cfg, View(now, None))
    {
      ghost var was := View(now, None);
      reply := Serve(m, now, o);
      if Reached(cfg, was) {
        DispatchReached(cfg, o, was, m, View(now, None));
      }
    }

    method Serve(m: Message, now: int, o: HandlerOutcome) returns (reply: Reply)
      requires Valid() && (o.Generator? ==> o.sid !in streams)
      modifies this, cache, directory
      ensures Valid() && replies == old(replies) + [Done(m.body.id, reply)]
      ensures LeadsTo(cfg, o, BeginStep(cfg, old(View(now, None)), m), View(now, None))
    {
      ghost var s := BeginStep(cfg, View(now, None), m);
      Here(cfg, o, s);
      var a := Begin(m, now);
      if a.Refuse? {
        reply := DispatchErr(m, now, a.code, o);
      } else if a.Hit? {
        reply := Replay(a.response);
        replies := replies + [Done(m.body.id, reply)];
        assert s == View(now, None);
      } else {
        var checked := Validate(m, now, o);
        reply := Resolve(m, now, checked, s, o);
      }
    }

    method Resolve(m: Message, now: int, checked: Result<Option<Token>, FaultCode>, ghost s: State, o: HandlerOutcome) returns (reply: Reply)
      requires Valid() && loaded && (o.Generator? ==> o.sid !in streams)
      requires LeadsTo(cfg, o, s, Dispatching(m, now, if checked.Ok? then ResolveAction(checked.value) else Reject(checked.error)))
      modifies this`receipts, this`savedCache, this`replies, this`runs, this`streams, cache
      ensures Valid() && replies == old(replies) + [Done(m.body.id, reply)]
      ensures LeadsTo(cfg, o, s, View(now, None))
    {
      ghost var s1 := Dispatching(m, now, if checked.Ok? then ResolveAction(checked.value) else Reject(checked.error));
      if checked.Err? {
        reply := DispatchErr(m, now, checked.error, o);
        Then(cfg, o, s, s1, View(now, None));
        return;
      }
      var cap := checked.value;
      var action := if cap.Some? then cap.value.action else m.body.action;
      ghost var s2 := Dispatching(m, now, if action in cfg.handlers then Dispatch.RunHandler(action, cap) else Reject(NoHandler));
      Then(cfg, o, s, s1, s2);
      if action in cfg.handlers {
        reply := RunHandler(m, now, action, cap, o);
      } else {
        reply := DispatchErr(m, now, NoHandler, o);
      }
      Then(cfg, o, s, s2, View(now, None));
    }

    // A token granted under a freshly drawn id.
    method Grant(d: TokenDict)
      requires d.signable.capId !in seen
      modifies this`caps, this`seen
      ensures forall now :: View(now, None) == GrantStep(old(View(now, None)), d)
      ensures forall now :: old(Reached(cfg, View(now, None))) ==> Reached(cfg, View(now, None))
    {
      caps := caps[d.signable.capId := d];
      seen := seen + {d.signable.capId};
      forall now | old(Reached(cfg, View(now, None))) ensures Reached(cfg, View(now, None)) {
        ReachedStep(cfg, old(View(now, None)), Step.Grant(d));
      }
    }

    // Read the stored dict, mark it, write it back.
    method Revoke(c: CapId) returns (ok: bool)
      modifies this`caps
      ensures ok <==> c in old(caps)
      ensures ok && old(caps)[c].signable.capId == c ==> IsRevoked(View(0, None), c)
      ensures forall now, tid :: tid !in revoking ==>
        View(now, None) == RevokeSaveStep(RevokeLoadStep(old(View(now, None)), tid, c), tid)
      ensures forall now :: old(Reached(cfg, View(now, None))) ==> Reached(cfg, View(now, None))
    {
      ok := c in caps;
      if ok {
        var d := Dispatch.Revoked(caps[c]);
        caps := caps[d.signable.capId := d];
        assert forall tid :: tid !in revoking ==> revoking[tid := old(caps)[c]] - {tid} == revoking;
      }
      forall now | old(Reached(cfg, View(now, None))) ensures Reached(cfg, View(now, None)) {
        RevokeReached(cfg, old(View(now, None)), c, View(now, None));
      }
    }
  }
}
