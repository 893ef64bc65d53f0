// Delegation chains of any length: what the verifier accepts, that every honestly
// built chain is accepted, and what an accepted chain guarantees.
module Delegation {
  import opened Wrappers
  import opened Crypto
  import opened CaveatValues
  import opened Timestamps
  import opened Capability

  // ---------- The chain walk, declaratively ----------

  ghost predicate LinkOk(l: Link, parent: CapId, keys: map<AgentId, PublicKey>) {
    l.from in keys && l.sig == Signed(keys[l.from], LinkSigned(l, parent))
  }

  // From link i on: every link is signed by its author's known key, and the content-carrying links
  // repeat one action and never drop a caveat, starting from the running state.
  ghost predicate ChainOk(links: seq<Link>, i: nat, w: Walk, parent: CapId, keys: map<AgentId, PublicKey>) {
    && (forall j :: i <= j < |links| ==> LinkOk(links[j], parent, keys))
    && (forall j :: i <= j < |links| && V13(links[j]) ==>
          (w.action.Some? ==> links[j].actionAtStep == w.action) && w.caveats <= StepSet(links[j]))
    && (forall j, k :: i <= j < k < |links| && V13(links[j]) && V13(links[k]) ==>
          links[j].actionAtStep == links[k].actionAtStep && StepSet(links[j]) <= StepSet(links[k]))
  }

  ghost predicate LastV13(links: seq<Link>, i: nat, l: int) {
    i <= l < |links| && V13(links[l]) && forall j :: l < j < |links| ==> !V13(links[j])
  }

  ghost predicate EndsAs(links: seq<Link>, i: nat, w: Walk, end: Walk) {
    && (end.sawV13 <==> w.sawV13 || exists j :: i <= j < |links| && V13(links[j]))
    && (end.sawV12 <==> w.sawV12 || exists j :: i <= j < |links| && !V13(links[j]) && links[j].parentCapId.Some?)
    && (forall l :: LastV13(links, i, l) ==> end.action == links[l].actionAtStep && end.caveats == StepSet(links[l]))
    && ((forall j :: i <= j < |links| ==> !V13(links[j])) ==> end.action == w.action && end.caveats == w.caveats)
  }

  lemma {:induction false} WalkMeaning(links: seq<Link>, i: nat, w: Walk, parent: CapId, keys: map<AgentId, PublicKey>)
    requires i <= |links|
    ensures WalkChain(links, i, w, parent, keys).Ok? <==> ChainOk(links, i, w, parent, keys)
    ensures WalkChain(links, i, w, parent, keys).Ok? ==> EndsAs(links, i, w, WalkChain(links, i, w, parent, keys).value)
    decreases |links| - i
  {
    if i < |links| {
      var step := StepLink(links[i], w, parent, keys);
      if step.Ok? {
        var w' := step.value;
        WalkMeaning(links, i + 1, w', parent, keys);
        if ChainOk(links, i + 1, w', parent, keys) {
          StepExtends(links, i, w, parent, keys);
          StepEnds(links, i, w, w', WalkChain(links, i + 1, w', parent, keys).value);
        }
      }
    }
  }

  lemma {:induction false} StepExtends(links: seq<Link>, i: nat, w: Walk, parent: CapId, keys: map<AgentId, PublicKey>)
    requires i < |links| && StepLink(links[i], w, parent, keys).Ok?
    requires ChainOk(links, i + 1, StepLink(links[i], w, parent, keys).value, parent, keys)
    ensures ChainOk(links, i, w, parent, keys)
  {
    forall j, k | i <= j < k < |links| && V13(links[j]) && V13(links[k])
      ensures links[j].actionAtStep == links[k].actionAtStep && StepSet(links[j]) <= StepSet(links[k])
    {
    }
  }

  lemma {:induction false} StepEnds(links: seq<Link>, i: nat, w: Walk, w': Walk, end: Walk)
    requires i < |links| && EndsAs(links, i + 1, w', end)
    requires V13(links[i]) ==> w' == Walk(links[i].actionAtStep, StepSet(links[i]), true, w.sawV12)
    requires !V13(links[i]) ==> w' == w.(sawV12 := w.sawV12 || links[i].parentCapId.Some?)
    ensures EndsAs(links, i, w, end)
  {
    forall l | LastV13(links, i, l) ensures end.action == links[l].actionAtStep && end.caveats == StepSet(links[l]) {
      if l > i {
        assert LastV13(links, i + 1, l);
      }
    }
  }

  // ---------- Acceptance, declaratively ----------

  ghost predicate FinalOk(t: Token) {
    (forall j :: 0 <= j < |t.chain| ==> V13(t.chain[j]) || t.chain[j].parentCapId.None?) ==>
      forall l :: LastV13(t.chain, 0, l) ==> t.chain[l].actionAtStep == Some(t.action) && StepSet(t.chain[l]) == CaveatSet(t.caveats)
  }

  ghost predicate SignedByLast(t: Token, issuerKey: PublicKey, keys: map<AgentId, PublicKey>) {
    if t.chain == [] then t.signature == Signed(issuerKey, Signable(t))
    else
      var last := t.chain[|t.chain| - 1].from;
      last in keys && t.signature == Signed(keys[last], Signable(t))
  }

  ghost predicate Accepts(t: Token, holder: AgentId, issuerKey: PublicKey, keys: map<AgentId, PublicKey>, now: int) {
    && !t.revoked && t.holder == holder
    && SignedByLast(t, issuerKey, keys)
    && (t.chain != [] && NonEmpty(t.parent) ==> ChainOk(t.chain, 0, WALK_START, t.parent.value, keys) && FinalOk(t))
    && (forall c :: c in t.caveats && c.what.Expires? ==> MICROS * now <= Instant(c.what.at))
  }

  lemma {:induction false} HasLastV13(links: seq<Link>, j: nat) returns (l: nat)
    requires j < |links| && V13(links[j])
    ensures LastV13(links, 0, l)
    decreases |links| - j
  {
    if k :| j < k < |links| && V13(links[k]) {
      l := HasLastV13(links, k);
    } else {
      l := j;
    }
  }

  // The verifier accepts exactly the tokens the declarative reading accepts.
  lemma {:induction false} AcceptedIff(t: Token, holder: AgentId, issuerKey: PublicKey, keys: map<AgentId, PublicKey>, now: int)
    ensures VerifyCapability(t, holder, issuerKey, keys, now) == Valid <==> Accepts(t, holder, issuerKey, keys, now)
  {
    assert Expired(t.caveats, now) <==> exists c :: c in t.caveats && c.what.Expires? && MICROS * now > Instant(c.what.at) by {
      forall c | c in t.caveats && c.what.Expires? ensures Instant(c.what.at) in ExpiryInstants(t.caveats) {}
    }
    assert CheckSignature(t, issuerKey, keys).None? <==> SignedByLast(t, issuerKey, keys);
    if t.chain != [] && NonEmpty(t.parent) {
      WalkMeaning(t.chain, 0, WALK_START, t.parent.value, keys);
      if ChainOk(t.chain, 0, WALK_START, t.parent.value, keys) {
        FinalMeaning(t, WalkChain(t.chain, 0, WALK_START, t.parent.value, keys).value);
      }
    }
  }

  lemma {:induction false} FinalMeaning(t: Token, end: Walk)
    requires EndsAs(t.chain, 0, WALK_START, end)
    ensures FinalOk(t) <==>
      (end.sawV13 && !end.sawV12 ==>
         (end.action.Some? ==> t.action == end.action.value) && CaveatSet(t.caveats) == end.caveats)
  {
    if j :| 0 <= j < |t.chain| && V13(t.chain[j]) {
      var l := HasLastV13(t.chain, j);
      assert forall k :: LastV13(t.chain, 0, k) ==> k == l;
    }
  }

  // ---------- Completeness ----------

  datatype Hop = Hop(key: PrivateKey, delegator: AgentId, newHolder: AgentId, extra: seq<Caveat>, capId: CapId)

  // One attenuation per hop, in order.
  function Delegate(root: Token, hops: seq<Hop>): Result<Token, AttenuationError> {
    if hops == [] then Ok(root)
    else
      var h := hops[|hops| - 1];
      match Delegate(root, hops[..|hops| - 1])
      case Err(e) => Err(e)
      case Ok(parent) => Attenuate(parent, h.key, h.delegator, h.newHolder, h.extra, h.capId)
  }

  ghost predicate HopsKnown(hops: seq<Hop>, keys: map<AgentId, PublicKey>) {
    forall i :: 0 <= i < |hops| ==> hops[i].delegator in keys && keys[hops[i].delegator] == PublicOf(hops[i].key)
  }

  // What every honestly built token satisfies.
  ghost predicate Honest(t: Token, issuerKey: PublicKey, keys: map<AgentId, PublicKey>) {
    && !t.revoked && t.capId != ""
    && SignedByLast(t, issuerKey, keys)
    && (t.chain == [] <==> t.parent.None?) && (t.parent.Some? ==> NonEmpty(t.parent))
    && (forall p: CapId, j | 0 <= j < |t.chain| :: LinkOk(t.chain[j], p, keys))
    && (forall j :: 0 <= j < |t.chain| ==> V13(t.chain[j]) && t.chain[j].actionAtStep == Some(t.action))
    && (forall j, k :: 0 <= j < k < |t.chain| ==> StepSet(t.chain[j]) <= StepSet(t.chain[k]))
    && (t.chain != [] ==> StepSet(t.chain[|t.chain| - 1]) == CaveatSet(t.caveats))
  }

  lemma {:induction false} CaveatSetGrows(a: seq<Caveat>, b: seq<Caveat>)
    ensures CaveatSet(a) <= CaveatSet(a + b)
  {
    forall c | c in a ensures c in a + b {}
  }

  lemma {:induction false} ChildStaysHonest(p: Token, h: Hop, issuerKey: PublicKey, keys: map<AgentId, PublicKey>)
    requires Honest(p, issuerKey, keys) && HopsKnown([h], keys) && h.capId != ""
    ensures Honest(ChildOf(p, h.key, h.delegator, h.newHolder, h.extra, h.capId), issuerKey, keys)
  {
    var t := ChildOf(p, h.key, h.delegator, h.newHolder, h.extra, h.capId);
    assert [h][0] == h;
    CaveatSetGrows(p.caveats, h.extra);
    var n := |p.chain|;
    assert t.chain[n].caveatsAtStep == Some(p.caveats + h.extra);
    assert forall j :: 0 <= j < n ==> t.chain[j] == p.chain[j];
    var blank := t.(signature := Malformed(""));
    assert Signable(blank) == Signable(t);
    forall j, k | 0 <= j < k < |t.chain| ensures StepSet(t.chain[j]) <= StepSet(t.chain[k]) {
      if k == n {
        assert StepSet(p.chain[j]) <= StepSet(p.chain[n - 1]);
      }
    }
  }

  lemma {:induction false} DelegateStaysHonest(root: Token, hops: seq<Hop>, issuerKey: PublicKey, keys: map<AgentId, PublicKey>)
    requires Honest(root, issuerKey, keys) && HopsKnown(hops, keys)
    requires forall i :: 0 <= i < |hops| ==> hops[i].capId != ""
    requires Delegate(root, hops).Ok?
    ensures Honest(Delegate(root, hops).value, issuerKey, keys)
    decreases |hops|
  {
    if hops != [] {
      var init, h := hops[..|hops| - 1], hops[|hops| - 1];
      DelegateStaysHonest(root, init, issuerKey, keys);
      ChildStaysHonest(Delegate(root, init).value, h, issuerKey, keys);
    }
  }

  // Key table of the dispatcher: its own key, then the cached key of every delegator and of the holder.
  function KnownKeys(self: AgentId, selfKey: PublicKey, cap: TokenDict, peers: map<AgentId, PublicKey>): map<AgentId, PublicKey> {
    KeysOf({self} + Authors(ChainOf(cap)) + {cap.signable.holder}, self, selfKey, peers)
  }

  function Authors(links: seq<LinkDict>): set<AgentId> {
    set l | l in links :: l.from
  }

  function KeysOf(ids: set<AgentId>, self: AgentId, selfKey: PublicKey, peers: map<AgentId, PublicKey>): map<AgentId, PublicKey> {
    map id | id in ids && (id == self || id in peers) :: if id == self then selfKey else peers[id]
  }

  lemma {:induction false} AddKey(ids: set<AgentId>, id: AgentId, self: AgentId, selfKey: PublicKey, peers: map<AgentId, PublicKey>)
    requires self in ids
    ensures var known := KeysOf(ids, self, selfKey, peers);
      KeysOf(ids + {id}, self, selfKey, peers) == if id !in known && id in peers then known[id := peers[id]] else known
  {
  }

  // The table as gathered: one scan of the chain, then the holder.
  method GatherKnownKeys(self: AgentId, selfKey: PublicKey, cap: TokenDict, peers: map<AgentId, PublicKey>)
    returns (known: map<AgentId, PublicKey>)
    ensures known == KnownKeys(self, selfKey, cap, peers)
  {
    known := map[self := selfKey];
    var links := ChainOf(cap);
    for i := 0 to |links|
      invariant known == KeysOf({self} + Authors(links[..i]), self, selfKey, peers)
    {
      var id := links[i].from;
      AddKey({self} + Authors(links[..i]), id, self, selfKey, peers);
      assert links[..i + 1] == links[..i] + [links[i]];
      assert {self} + Authors(links[..i + 1]) == {self} + Authors(links[..i]) + {id};
      if id !in known && id in peers {
        known := known[id := peers[id]];
      }
    }
    assert links[..|links|] == links;
    AddKey({self} + Authors(links), cap.signable.holder, self, selfKey, peers);
    if cap.signable.holder !in known && cap.signable.holder in peers {
      known := known[cap.signable.holder := peers[cap.signable.holder]];
    }
  }

  // Every delegator's key is available: the dispatcher's own, or the one its peer cache holds.
  ghost predicate DelegatorsCached(hops: seq<Hop>, self: AgentId, selfKey: PublicKey, peers: map<AgentId, PublicKey>) {
    forall i :: 0 <= i < |hops| ==>
      if hops[i].delegator == self then selfKey == PublicOf(hops[i].key)
      else hops[i].delegator in peers && peers[hops[i].delegator] == PublicOf(hops[i].key)
  }

  lemma {:induction false} ChainAuthors(root: Token, hops: seq<Hop>)
    requires Delegate(root, hops).Ok? && root.chain == []
    ensures var t := Delegate(root, hops).value;
      |t.chain| == |hops| && forall i :: 0 <= i < |hops| ==> t.chain[i].from == hops[i].delegator
    decreases |hops|
  {
    if hops != [] {
      ChainAuthors(root, hops[..|hops| - 1]);
    }
  }

  // Completeness, any number of hops: issue once, attenuate along the hops, send the dict form.
  // The receiver accepts it for its holder as long as it is unexpired.
  lemma {:induction false} HonestChainAccepted(issuerKey: PrivateKey, issuer: AgentId, first: AgentId, action: string, caveats: seq<Caveat>,
                            rootId: CapId, hops: seq<Hop>, peers: map<AgentId, PublicKey>, now: int)
    requires rootId != "" && forall i :: 0 <= i < |hops| ==> hops[i].capId != ""
    requires IssueCapability(issuerKey, issuer, first, action, caveats, rootId).Ok?
    requires Delegate(IssueCapability(issuerKey, issuer, first, action, caveats, rootId).value, hops).Ok?
    requires DelegatorsCached(hops, issuer, PublicOf(issuerKey), peers)
    ensures var t := Delegate(IssueCapability(issuerKey, issuer, first, action, caveats, rootId).value, hops).value;
      var keys := KnownKeys(issuer, PublicOf(issuerKey), ToDict(t), peers);
      && VerifyCapability(FromDict(ToDict(t)), t.holder, PublicOf(issuerKey), keys, now)
         == (if Expired(t.caveats, now) then Invalid(CapabilityExpired) else Valid)
      && t.action == action && |t.chain| == |hops| && caveats <= t.caveats
  {
    var root := IssueCapability(issuerKey, issuer, first, action, caveats, rootId).value;
    var t := Delegate(root, hops).value;
    var pub := PublicOf(issuerKey);
    var keys := KnownKeys(issuer, pub, ToDict(t), peers);
    ChainAuthors(root, hops);
    forall i | 0 <= i < |hops| ensures hops[i].delegator in keys && keys[hops[i].delegator] == PublicOf(hops[i].key) {
      assert ChainOf(ToDict(t))[i].from == hops[i].delegator;
    }
    assert Signable(root.(signature := Malformed(""))) == Signable(root);
    DelegateStaysHonest(root, hops, pub, keys);
    DelegateKeeps(root, hops);
    TokenRoundTrip(t);
    assert FromDict(ToDict(t)) == t;
    HonestUnlessExpired(t, pub, keys, now);
  }

  lemma {:induction false} HonestUnlessExpired(t: Token, issuerKey: PublicKey, keys: map<AgentId, PublicKey>, now: int)
    requires Honest(t, issuerKey, keys)
    ensures VerifyCapability(t, t.holder, issuerKey, keys, now)
         == if Expired(t.caveats, now) then Invalid(CapabilityExpired) else Valid
  {
    assert CheckSignature(t, issuerKey, keys).None?;
    if t.chain != [] {
      WalkMeaning(t.chain, 0, WALK_START, t.parent.value, keys);
      assert ChainOk(t.chain, 0, WALK_START, t.parent.value, keys);
      assert FinalOk(t);
      FinalMeaning(t, WalkChain(t.chain, 0, WALK_START, t.parent.value, keys).value);
    }
  }

  lemma {:induction false} DelegateKeeps(root: Token, hops: seq<Hop>)
    requires Delegate(root, hops).Ok?
    ensures var t := Delegate(root, hops).value; t.action == root.action && t.issuer == root.issuer && root.caveats <= t.caveats
    decreases |hops|
  {
    if hops != [] {
      DelegateKeeps(root, hops[..|hops| - 1]);
    }
  }

  // A child made by hand, with none of `attenuate`'s checks: the verifier accepts it exactly when its
  // delegator's key is known and nothing has expired, terminal parent or not, holder or not.
  lemma {:induction false} HandMadeChildAcceptedIff(p: Token, h: Hop, issuerKey: PublicKey, keys: map<AgentId, PublicKey>, now: int)
    requires Honest(p, issuerKey, keys) && h.capId != ""
    ensures VerifyCapability(ChildOf(p, h.key, h.delegator, h.newHolder, h.extra, h.capId), h.newHolder, issuerKey, keys, now) == Valid <==>
      h.delegator in keys && keys[h.delegator] == PublicOf(h.key) && !Expired(p.caveats + h.extra, now)
    ensures IsTerminal(p.caveats) ==> Attenuate(p, h.key, h.delegator, h.newHolder, h.extra, h.capId).Err?
  {
    var t := ChildOf(p, h.key, h.delegator, h.newHolder, h.extra, h.capId);
    assert t.chain[|t.chain| - 1].from == h.delegator;
    if h.delegator in keys && keys[h.delegator] == PublicOf(h.key) {
      ChildStaysHonest(p, h, issuerKey, keys);
      HonestUnlessExpired(t, issuerKey, keys, now);
    }
  }

  // ---------- Soundness ----------

  lemma {:induction false} SetMeansLimits(a: seq<Caveat>, b: seq<Caveat>)
    requires CaveatSet(a) <= CaveatSet(b)
    ensures InvocationLimits(a) <= InvocationLimits(b) && ExpiryInstants(a) <= ExpiryInstants(b)
    ensures AtMost(MaxInvocationsOf(b), MaxInvocationsOf(a))
    ensures forall now :: Expired(a, now) ==> Expired(b, now)
  {
    forall c | c in a ensures KeyOf(c) in CaveatSet(b) && exists d :: d in b && KeyOf(d) == KeyOf(c) {
      assert KeyOf(c) in CaveatSet(a);
    }
    forall n | n in InvocationLimits(a) ensures n in InvocationLimits(b) {
      var c :| c in a && c.what == MaxInvocations(n);
      var d :| d in b && KeyOf(d) == KeyOf(c);
    }
    forall x | x in ExpiryInstants(a) ensures x in ExpiryInstants(b) {
      var c :| c in a && c.what.Expires? && Instant(c.what.at) == x;
      var d :| d in b && KeyOf(d) == KeyOf(c);
    }
  }

  // Soundness, any length: an accepted token with a parent, all of whose links carry their content,
  // has one action throughout and nested caveat sets ending in its own, so no earlier link
  // allows fewer invocations or an earlier expiry than the token itself does.
  lemma {:induction false} AcceptedChainOnlyNarrows(t: Token, holder: AgentId, issuerKey: PublicKey, keys: map<AgentId, PublicKey>, now: int)
    requires VerifyCapability(t, holder, issuerKey, keys, now) == Valid
    requires NonEmpty(t.parent) && forall j :: 0 <= j < |t.chain| ==> V13(t.chain[j])
    ensures forall j :: 0 <= j < |t.chain| ==>
      && V13(t.chain[j]) && t.chain[j].from in keys
      && t.chain[j].sig == Signed(keys[t.chain[j].from],
           StepContent(t.chain[j].parentCapId.value, t.action, CaveatsToDicts(t.chain[j].caveatsAtStep.value)))
      && StepSet(t.chain[j]) <= CaveatSet(t.caveats)
      && AtMost(MaxInvocationsOf(t.caveats), MaxInvocationsOf(t.chain[j].caveatsAtStep.value))
      && !Expired(t.chain[j].caveatsAtStep.value, now)
    ensures forall j, k :: 0 <= j < k < |t.chain| ==> StepSet(t.chain[j]) <= StepSet(t.chain[k])
    ensures t.chain != [] ==> StepSet(t.chain[|t.chain| - 1]) == CaveatSet(t.caveats)
  {
    AcceptedIff(t, holder, issuerKey, keys, now);
    if t.chain != [] {
      var l := |t.chain| - 1;
      assert LastV13(t.chain, 0, l);
      forall j | 0 <= j < |t.chain|
        ensures t.chain[j].actionAtStep == Some(t.action) && StepSet(t.chain[j]) <= CaveatSet(t.caveats)
        ensures AtMost(MaxInvocationsOf(t.caveats), MaxInvocationsOf(t.chain[j].caveatsAtStep.value))
        ensures !Expired(t.chain[j].caveatsAtStep.value, now)
      {
        assert LinkOk(t.chain[j], t.parent.value, keys);
        assert j < l ==> t.chain[j].actionAtStep == t.chain[l].actionAtStep && StepSet(t.chain[j]) <= StepSet(t.chain[l]);
        SetMeansLimits(t.chain[j].caveatsAtStep.value, t.caveats);
      }
    }
  }

  // Without a parent id the links are not walked: acceptance is the last delegator's
  // signature, the holder, and the token's own expiry, whatever the links say.
  lemma {:induction false} ParentlessChainIsNotWalked(t: Token, issuerKey: PublicKey, keys: map<AgentId, PublicKey>, now: int)
    requires t.chain != [] && !NonEmpty(t.parent)
    ensures VerifyCapability(t, t.holder, issuerKey, keys, now) == Valid <==>
      !t.revoked && SignedByLast(t, issuerKey, keys) && !Expired(t.caveats, now)
  {
  }

  // At a concrete token: its one link records another action and a limit of one, and it is accepted with neither.
  lemma {:induction false} ParentlessTokenMayDiffer(key: PrivateKey, delegator: AgentId, holder: AgentId, issuer: AgentId,
                                                   issuerKey: PublicKey, keys: map<AgentId, PublicKey>, now: int) returns (t: Token)
    requires delegator in keys && keys[delegator] == PublicOf(key)
    ensures VerifyCapability(t, holder, issuerKey, keys, now) == Valid && t.issuer == issuer && t.parent.None?
    ensures |t.chain| == 1 && V13(t.chain[0]) && LinkOk(t.chain[0], "root", keys)
    ensures t.chain[0].actionAtStep == Some("read") && t.action == "write"
    ensures MaxInvocationsOf(t.chain[0].caveatsAtStep.value) == Some(1) && MaxInvocationsOf(t.caveats).None?
  {
    var once := [Caveat(MaxInvocations(1), false)];
    var link := Link(delegator, Sign(StepContent("root", "read", CaveatsToDicts(once)), key), Some("root"), Some("read"), Some(once));
    var blank := Token("child", issuer, holder, "write", [], None, [link], false, false, None, None, Malformed(""));
    t := blank.(signature := Sign(Signable(blank), key));
    assert Signable(t) == Signable(blank);
    assert once[0] in once && InvocationLimits(once) == {1};
    ParentlessChainIsNotWalked(t, issuerKey, keys, now);
  }

  // ---------- Where authority comes from ----------

  function LastDelegator(t: Token): Option<AgentId> {
    if t.chain == [] then None else Some(t.chain[|t.chain| - 1].from)
  }

  // A token whose one link is its delegator's own, under any issuer's name.
  function OneLinkToken(key: PrivateKey, delegator: AgentId, issuer: AgentId, holder: AgentId, action: string): Token {
    var link := Link(delegator, Sign(StepContent("root", action, []), key), Some("root"), Some(action), Some([]));
    var blank := Token("child", issuer, holder, action, [], Some("root"), [link], false, false, None, None, Malformed(""));
    blank.(signature := Sign(Signable(blank), key))
  }

  // The walk starts at the first link whoever made it: a known delegator's own link is accepted for any
  // action, without a caveat, under any issuer's name.
  lemma {:induction false} OneLinkTokenAccepted(key: PrivateKey, delegator: AgentId, issuer: AgentId, holder: AgentId, action: string,
                                               issuerKey: PublicKey, keys: map<AgentId, PublicKey>, now: int)
    requires delegator in keys && keys[delegator] == PublicOf(key)
    ensures var t := OneLinkToken(key, delegator, issuer, holder, action);
      VerifyCapability(t, holder, issuerKey, keys, now) == Valid && t.signature == Signed(PublicOf(key), Signable(t))
  {
    var t := OneLinkToken(key, delegator, issuer, holder, action);
    assert Signable(t.(signature := Malformed(""))) == Signable(t);
    HonestUnlessExpired(t, issuerKey, keys, now);
  }

  // So the issuer's signature is needed for acceptance exactly when there is no chain, or the last
  // delegator's key is the issuer's own.
  lemma {:induction false} IssuerSignatureNeededIff(last: Option<AgentId>, issuer: AgentId, issuerKey: PublicKey, keys: map<AgentId, PublicKey>)
    requires last.Some? ==> last.value in keys
    ensures (forall t, holder, now :: VerifyCapability(t, holder, issuerKey, keys, now) == Valid && t.issuer == issuer && LastDelegator(t) == last
               ==> t.signature == Signed(issuerKey, Signable(t)))
      <==> (last.None? || keys[last.value] == issuerKey)
  {
    forall t, holder, now | VerifyCapability(t, holder, issuerKey, keys, now) == Valid && LastDelegator(t) == last
      ensures t.signature == Signed(if last.None? then issuerKey else keys[last.value], Signable(t))
    {
      AcceptedIff(t, holder, issuerKey, keys, now);
    }
    if last.Some? {
      var key := keys[last.value].seed;
      var t := OneLinkToken(key, last.value, issuer, issuer, "");
      OneLinkTokenAccepted(key, last.value, issuer, issuer, "", issuerKey, keys, 0);
      assert LastDelegator(t) == last;
    }
  }

  // ---------- Attenuation ----------

  // Attenuation never widens what is enforced, whatever the string comparison lets through.
  lemma {:induction false} AttenuationTightens(p: Token, h: Hop, now: int)
    requires Attenuate(p, h.key, h.delegator, h.newHolder, h.extra, h.capId).Ok?
    ensures var t := Attenuate(p, h.key, h.delegator, h.newHolder, h.extra, h.capId).value;
      && t.action == p.action && t.issuer == p.issuer && t.holder == h.newHolder && t.caveats == p.caveats + h.extra
      && AtMost(MaxInvocationsOf(t.caveats), MaxInvocationsOf(p.caveats))
      && (Expired(p.caveats, now) ==> Expired(t.caveats, now))
      && p.holder == h.delegator && !IsTerminal(p.caveats)
  {
    CaveatSetGrows(p.caveats, h.extra);
    SetMeansLimits(p.caveats, p.caveats + h.extra);
  }

  ghost predicate Widens(parent: seq<Caveat>, c: Caveat) {
    || (c.what.MaxInvocations? && exists d :: d in parent && d.what.MaxInvocations? && c.what.n > d.what.n)
    || (c.what.Expires? && exists d :: d in parent && d.what.Expires? && !TextLe(c.what.at, d.what.at))
  }

  lemma {:induction false} FirstWideningIff(parent: seq<Caveat>, extra: seq<Caveat>)
    ensures FirstWidening(parent, extra).None? <==> forall i :: 0 <= i < |extra| ==> !Widens(parent, extra[i])
  {
    if extra != [] {
      FirstWideningIff(parent, extra[1..]);
      if !Widens(parent, extra[0]) && (forall i :: 0 <= i < |extra| - 1 ==> !Widens(parent, extra[1..][i])) {
        forall i | 0 <= i < |extra| ensures !Widens(parent, extra[i]) {
          if i > 0 { assert extra[i] == extra[1..][i - 1]; }
        }
      }
      assert forall i :: 0 <= i < |extra| - 1 ==> extra[1..][i] == extra[i + 1];
    }
  }

  // Attenuation succeeds exactly under the documented rules, with expiries compared as strings.
  lemma {:induction false} AttenuateIff(p: Token, h: Hop)
    ensures Attenuate(p, h.key, h.delegator, h.newHolder, h.extra, h.capId).Ok? <==>
      && p.holder == h.delegator && !IsTerminal(p.caveats) && ValidValues(h.extra)
      && forall i :: 0 <= i < |h.extra| ==> !Widens(p.caveats, h.extra[i])
  {
    FirstWideningIff(p.caveats, h.extra);
  }

  // A single expiry is added to a token with a single expiry.
  predicate ExpiryChange(p: Token, h: Hop, at: IsoTime, late: IsoTime) {
    p.caveats == [Caveat(Expires(at), false)] && h.extra == [Caveat(Expires(late), false)]
  }

  lemma {:induction false} ExpiryChangeIff(p: Token, h: Hop, at: IsoTime, late: IsoTime)
    requires ExpiryChange(p, h, at, late)
    ensures Attenuate(p, h.key, h.delegator, h.newHolder, h.extra, h.capId).Ok? <==> p.holder == h.delegator && TextLe(late, at)
  {
    var c, d := p.caveats[0], h.extra[0];
    assert !IsTerminal(p.caveats) && ValidValues(h.extra);
    assert Widens(p.caveats, d) <==> !TextLe(late, at) by {
      assert c in p.caveats && forall x :: x in p.caveats ==> x == c;
    }
    AttenuateIff(p, h);
    assert forall i :: 0 <= i < |h.extra| ==> h.extra[i] == d;
  }

  // The string rule is not the instant rule. On any day, three expiries that are let through although later than the
  // parent's: in another offset, with a space for the T, and with a fraction where the parent has a bare Z.
  lemma {:induction false} LaterInstantsLetThrough(p: Token, h: Hop, d: DayNumber, at: IsoTime, late: IsoTime)
    requires ExpiryChange(p, h, at, late) && p.holder == h.delegator
    requires
      || (at == IsoTime(d * DAY_SECONDS + 3600, [], 'T', UTC) && late == IsoTime(d * DAY_SECONDS + 3599, [], 'T', Numeric(true, 60)))
      || (at == IsoTime(d * DAY_SECONDS, [], 'T', UTC) && late == IsoTime(d * DAY_SECONDS + 86399, [], ' ', UTC))
      || (at == IsoTime(d * DAY_SECONDS, [], 'T', Zulu) && late == IsoTime(d * DAY_SECONDS, [5], 'T', Zulu))
    ensures Instant(late) > Instant(at) && Attenuate(p, h.key, h.delegator, h.newHolder, h.extra, h.capId).Ok?
  {
    LaterButNotAfter(d, at, late);
    TextOrderIsFieldOrder(late, at);
    ExpiryChangeIff(p, h, at, late);
  }

  ghost predicate LetsLaterThrough(t: Token, h: Hop, at: IsoTime, late: IsoTime) {
    && ExpiryChange(t, h, at, late) && Instant(late) > Instant(at)
    && Attenuate(t, h.key, h.delegator, h.newHolder, h.extra, h.capId).Ok?
  }

  lemma {:induction false} LaterExpiry(late: IsoTime, at: IsoTime) returns (t: Token, h: Hop)
    requires FieldsLe(late, at) && Instant(late) > Instant(at)
    ensures LetsLaterThrough(t, h, at, late)
  {
    var me := Derived(PublicOf(0));
    t := Token("", me, me, "", [Caveat(Expires(at), false)], None, [], false, false, None, None, Malformed(""));
    h := Hop(0, me, me, [Caveat(Expires(late), false)], "");
    TextOrderIsFieldOrder(late, at);
    ExpiryChangeIff(t, h, at, late);
  }

  // `attenuate` lets no later expiry through, over all expiries of two spellings, exactly for the safe pairs:
  // offsets a day or more apart, or neither separator nor offset below the parent's and no fraction before a Z.
  lemma {:induction false} StringRuleEnforcesExpiryIff(n: Spelling, p: Spelling)
    ensures (forall t, h, at, late :: SpellingOf(late) == n && SpellingOf(at) == p ==> !LetsLaterThrough(t, h, at, late)) <==> OrderSafe(n, p)
  {
    if OrderSafe(n, p) {
      forall t, h, at, late | SpellingOf(late) == n && SpellingOf(at) == p && ExpiryChange(t, h, at, late)
        ensures !LetsLaterThrough(t, h, at, late)
      {
        ExpiryChangeIff(t, h, at, late);
        TextOrderIsFieldOrder(late, at);
        if FieldsLe(late, at) {
          SafeSpellingsAgree(late, at);
        }
      }
    } else {
      var late, at := UnsafeSpellingsDisagree(n, p);
      var t, h := LaterExpiry(late, at);
    }
  }
}
