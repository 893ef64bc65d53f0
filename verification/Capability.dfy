// Capability tokens: issue, attenuate, dict form, and the verifier's chain walk.
module Capability {
  import opened Wrappers
  import opened Crypto
  import opened CaveatValues
  import opened Timestamps

  type CapId = string

  // ---------- Caveats, links, tokens, and their dict forms ----------

  // The two restrictions the protocol interprets are typed; any other keeps its name and JSON value.
  datatype Restriction = MaxInvocations(n: int) | Expires(at: IsoTime) | Other(restrict: string, value: Value)

  datatype Caveat = Caveat(what: Restriction, terminal: bool)

  datatype CaveatDict = CaveatDict(what: Restriction, terminal: Option<bool>)

  datatype LinkPayload = StepContent(parentCapId: CapId, action: string, caveats: seq<CaveatDict>) | BareId(capId: CapId)

  datatype Link = Link(
    from: AgentId, sig: Signature<LinkPayload>,
    parentCapId: Option<CapId>, actionAtStep: Option<string>, caveatsAtStep: Option<seq<Caveat>>)

  datatype LinkDict = LinkDict(
    from: AgentId, sig: Signature<LinkPayload>,
    parentCapId: Option<CapId>, actionAtStep: Option<string>, caveatsAtStep: Option<seq<CaveatDict>>)

  // The token dict without its signature: what gets signed. `None` is an absent key.
  datatype SignableDict = SignableDict(
    capId: CapId, issuer: AgentId, holder: AgentId, action: string, caveats: seq<CaveatDict>,
    parent: Option<CapId>, delegationChain: Option<seq<LinkDict>>, revoked: Option<bool>,
    visa: Option<bool>, nonce: Option<string>, fingerprint: Option<KeyDigest>)

  datatype TokenDict = TokenDict(signable: SignableDict, signature: Signature<SignableDict>)

  datatype Token = Token(
    capId: CapId, issuer: AgentId, holder: AgentId, action: string, caveats: seq<Caveat>,
    parent: Option<CapId>, chain: seq<Link>, revoked: bool,
    visa: bool, nonce: Option<string>, fingerprint: Option<KeyDigest>,
    signature: Signature<SignableDict>)

  function CaveatToDict(c: Caveat): CaveatDict {
    CaveatDict(c.what, if c.terminal then Some(true) else None)
  }

  function CaveatFromDict(d: CaveatDict): Caveat {
    Caveat(d.what, if d.terminal.Some? then d.terminal.value else false)
  }

  function CaveatsToDicts(cs: seq<Caveat>): seq<CaveatDict> {
    seq(|cs|, i requires 0 <= i < |cs| => CaveatToDict(cs[i]))
  }

  function CaveatsFromDicts(ds: seq<CaveatDict>): seq<Caveat> {
    seq(|ds|, i requires 0 <= i < |ds| => CaveatFromDict(ds[i]))
  }

  function LinkToDict(l: Link): LinkDict {
    LinkDict(l.from, l.sig, l.parentCapId, l.actionAtStep,
             if l.caveatsAtStep.Some? then Some(CaveatsToDicts(l.caveatsAtStep.value)) else None)
  }

  function LinkFromDict(d: LinkDict): Link {
    Link(d.from, d.sig, d.parentCapId, d.actionAtStep,
         if d.caveatsAtStep.Some? then Some(CaveatsFromDicts(d.caveatsAtStep.value)) else None)
  }

  predicate NonEmpty(parent: Option<CapId>) {
    parent.Some? && parent.value != ""
  }

  function Signable(t: Token): SignableDict {
    SignableDict(
      t.capId, t.issuer, t.holder, t.action, CaveatsToDicts(t.caveats),
      if NonEmpty(t.parent) then t.parent else None,
      if t.chain == [] then None else Some(seq(|t.chain|, i requires 0 <= i < |t.chain| => LinkToDict(t.chain[i]))),
      if t.revoked then Some(true) else None,
      if t.visa then Some(true) else None, t.nonce, t.fingerprint)
  }

  function ToDict(t: Token): TokenDict {
    TokenDict(Signable(t), t.signature)
  }

  function ChainOf(d: TokenDict): seq<LinkDict> {
    if d.signable.delegationChain.Some? then d.signable.delegationChain.value else []
  }

  function FromDict(d: TokenDict): Token {
    var s, chain := d.signable, ChainOf(d);
    Token(s.capId, s.issuer, s.holder, s.action, CaveatsFromDicts(s.caveats), s.parent,
          seq(|chain|, i requires 0 <= i < |chain| => LinkFromDict(chain[i])),
          s.revoked == Some(true), s.visa == Some(true), s.nonce, s.fingerprint, d.signature)
  }

  lemma {:induction false} CaveatsRoundTrip(cs: seq<Caveat>)
    ensures CaveatsFromDicts(CaveatsToDicts(cs)) == cs
  {
  }

  lemma {:induction false} LinkRoundTrip(l: Link)
    ensures LinkFromDict(LinkToDict(l)) == l
  {
    if l.caveatsAtStep.Some? {
      CaveatsRoundTrip(l.caveatsAtStep.value);
    }
  }

  // Decoding a printed token gives the token back, except that an empty parent id reads as no parent.
  lemma {:induction false} TokenRoundTrip(t: Token)
    ensures FromDict(ToDict(t)) == t.(parent := if NonEmpty(t.parent) then t.parent else None)
    ensures FromDict(ToDict(t)) == t <==> t.parent != Some("")
    ensures ToDict(FromDict(ToDict(t))) == ToDict(t)
  {
    CaveatsRoundTrip(t.caveats);
    forall i | 0 <= i < |t.chain| ensures LinkFromDict(LinkToDict(t.chain[i])) == t.chain[i] {
      LinkRoundTrip(t.chain[i]);
    }
    var u := FromDict(ToDict(t));
    assert u.chain == t.chain;
  }

  // ---------- Effective limits ----------

  function InvocationLimits(cs: seq<Caveat>): set<int> {
    set c | c in cs && c.what.MaxInvocations? :: c.what.n
  }

  function ExpiryInstants(cs: seq<Caveat>): set<int> {
    set c | c in cs && c.what.Expires? :: Instant(c.what.at)
  }

  // Effective max_invocations: the minimum over the caveats, None if there is none.
  function MaxInvocationsOf(cs: seq<Caveat>): (m: Option<int>)
    ensures m.None? <==> InvocationLimits(cs) == {}
    ensures m.Some? ==> m.value in InvocationLimits(cs) && forall x :: x in InvocationLimits(cs) ==> m.value <= x
  {
    if cs == [] then None
    else
      var init, last := cs[..|cs| - 1], cs[|cs| - 1];
      assert cs == init + [last];
      assert InvocationLimits(cs) == InvocationLimits(init) + InvocationLimits([last]);
      var m := MaxInvocationsOf(init);
      if !last.what.MaxInvocations? then assert InvocationLimits([last]) == {}; m
      else
        assert last in [last] && InvocationLimits([last]) == {last.what.n};
        if m.None? || last.what.n < m.value then Some(last.what.n) else m
  }

  // `b` is at least as tight a limit as `a`.
  predicate AtMost(b: Option<int>, a: Option<int>) {
    a.Some? ==> b.Some? && b.value <= a.value
  }

  // `now` is in seconds since 0001-01-01.
  predicate Expired(cs: seq<Caveat>, now: int) {
    exists x :: x in ExpiryInstants(cs) && MICROS * now > x
  }

  // ---------- Issue and attenuate ----------

  datatype AttenuationError = MalformedValue | Terminal | NotHolder | WidensMaxInvocations | ExtendsExpiry

  predicate ValidValues(cs: seq<Caveat>) {
    forall c :: c in cs && c.what.MaxInvocations? ==> c.what.n >= 1
  }

  predicate IsTerminal(cs: seq<Caveat>) {
    exists c :: c in cs && c.what.Other? && c.what.restrict == "no_further_delegation" && c.terminal
  }

  function IssueCapability(key: PrivateKey, issuer: AgentId, holder: AgentId, action: string,
                           caveats: seq<Caveat>, capId: CapId): Result<Token, AttenuationError>
  {
    if !ValidValues(caveats) then Err(MalformedValue)
    else
      var t := Token(capId, issuer, holder, action, caveats, None, [], false, false, None, None, Malformed(""));
      Ok(t.(signature := Sign(Signable(t), key)))
  }

  // A new expiry widens when, as a string, it is after the least parent expiry: after every parent expiry
  // or not, the least one is what it is compared with.
  predicate TextAfterLeast(at: IsoTime, cs: seq<Caveat>) {
    exists c :: c in cs && c.what.Expires? && !TextLe(at, c.what.at)
  }

  predicate AboveLeast(n: int, cs: seq<Caveat>) {
    exists c :: c in cs && c.what.MaxInvocations? && n > c.what.n
  }

  // The first additional caveat that widens a parent limit, if any.
  function FirstWidening(parent: seq<Caveat>, extra: seq<Caveat>): Option<AttenuationError> {
    if extra == [] then None
    else if extra[0].what.MaxInvocations? && AboveLeast(extra[0].what.n, parent) then Some(WidensMaxInvocations)
    else if extra[0].what.Expires? && TextAfterLeast(extra[0].what.at, parent) then Some(ExtendsExpiry)
    else FirstWidening(parent, extra[1..])
  }

  // The child of a token, with one more link, signed by the delegator.
  function ChildOf(parent: Token, key: PrivateKey, delegator: AgentId, newHolder: AgentId, extra: seq<Caveat>, capId: CapId): Token {
    var all := parent.caveats + extra;
    var payload := StepContent(parent.capId, parent.action, CaveatsToDicts(all));
    var link := Link(delegator, Sign(payload, key), Some(parent.capId), Some(parent.action), Some(all));
    var t := Token(capId, parent.issuer, newHolder, parent.action, all, Some(parent.capId),
                   parent.chain + [link], false, false, None, None, Malformed(""));
    t.(signature := Sign(Signable(t), key))
  }

  function Attenuate(parent: Token, key: PrivateKey, delegator: AgentId, newHolder: AgentId,
                     extra: seq<Caveat>, capId: CapId): Result<Token, AttenuationError>
  {
    if !ValidValues(extra) then Err(MalformedValue)
    else if IsTerminal(parent.caveats) then Err(Terminal)
    else if parent.holder != delegator then Err(NotHolder)
    else
      var widening := FirstWidening(parent.caveats, extra);
      if widening.Some? then Err(widening.value) else Ok(ChildOf(parent, key, delegator, newHolder, extra, capId))
  }

  // ---------- Verification ----------

  datatype Reason =
    | Revoked | HolderMismatch | MissingDelegatorKey | BadDelegatorSignature | BadIssuerSignature
    | MissingLinkKey | BadLink | ActionMutated | CaveatsStripped
    | FinalActionMismatch | FinalCaveatMismatch | CapabilityExpired

  datatype Verdict = Valid | Invalid(reason: Reason)

  // What the chain walk compares: (restrict, canonical value), the terminal flag ignored.
  datatype CaveatKey = MaxKey(n: int) | ExpiresKey(at: IsoTime) | OtherKey(restrict: string, value: Canon)

  function KeyOf(c: Caveat): CaveatKey {
    match c.what
    case MaxInvocations(n) => MaxKey(n)
    case Expires(at) => ExpiresKey(at)
    case Other(r, v) => OtherKey(r, Canonical(v))
  }

  function CaveatSet(cs: seq<Caveat>): set<CaveatKey> {
    set c | c in cs :: KeyOf(c)
  }

  predicate V13(l: Link) {
    l.parentCapId.Some? && l.actionAtStep.Some? && l.caveatsAtStep.Some?
  }

  function StepSet(l: Link): set<CaveatKey>
    requires V13(l)
  {
    CaveatSet(l.caveatsAtStep.value)
  }

  // The bytes a link of each generation signs.
  function LinkSigned(l: Link, parent: CapId): LinkPayload {
    if V13(l) then StepContent(l.parentCapId.value, l.actionAtStep.value, CaveatsToDicts(l.caveatsAtStep.value))
    else if l.parentCapId.Some? then BareId(l.parentCapId.value)
    else BareId(parent)
  }

  // The walk's running state.
  datatype Walk = Walk(action: Option<string>, caveats: set<CaveatKey>, sawV13: bool, sawV12: bool)

  function StepLink(l: Link, w: Walk, parent: CapId, keys: map<AgentId, PublicKey>): Result<Walk, Reason> {
    if l.from !in keys then Err(MissingLinkKey)
    else if !Verify(LinkSigned(l, parent), l.sig, keys[l.from]) then Err(BadLink)
    else if V13(l) then
      if w.action.Some? && l.actionAtStep != w.action then Err(ActionMutated)
      else if !(StepSet(l) >= w.caveats) then Err(CaveatsStripped)
      else Ok(Walk(l.actionAtStep, StepSet(l), true, w.sawV12))
    else Ok(w.(sawV12 := w.sawV12 || l.parentCapId.Some?))
  }

  function WalkChain(links: seq<Link>, i: nat, w: Walk, parent: CapId, keys: map<AgentId, PublicKey>): Result<Walk, Reason>
    requires i <= |links|
    decreases |links| - i
  {
    if i == |links| then Ok(w)
    else
      match StepLink(links[i], w, parent, keys)
      case Err(e) => Err(e)
      case Ok(w') => WalkChain(links, i + 1, w', parent, keys)
  }

  const WALK_START := Walk(None, {}, false, false)

  function CheckSignature(t: Token, issuerKey: PublicKey, keys: map<AgentId, PublicKey>): Option<Reason> {
    if t.chain == [] then
      if Verify(Signable(t), t.signature, issuerKey) then None else Some(BadIssuerSignature)
    else
      var last := t.chain[|t.chain| - 1].from;
      if last !in keys then Some(MissingDelegatorKey)
      else if Verify(Signable(t), t.signature, keys[last]) then None
      else Some(BadDelegatorSignature)
  }

  function CheckChain(t: Token, keys: map<AgentId, PublicKey>): Option<Reason> {
    if t.chain == [] || !NonEmpty(t.parent) then None
    else
      match WalkChain(t.chain, 0, WALK_START, t.parent.value, keys)
      case Err(e) => Some(e)
      case Ok(w) =>
        if !w.sawV13 || w.sawV12 then None
        else if w.action.Some? && t.action != w.action.value then Some(FinalActionMismatch)
        else if CaveatSet(t.caveats) != w.caveats then Some(FinalCaveatMismatch)
        else None
  }

  // `keys` empty stands for both an absent and an empty key table.
  function VerifyCapability(t: Token, holder: AgentId, issuerKey: PublicKey,
                            keys: map<AgentId, PublicKey>, now: int): Verdict
  {
    if t.revoked then Invalid(Revoked)
    else if t.holder != holder then Invalid(HolderMismatch)
    else
      var sig, chain := CheckSignature(t, issuerKey, keys), CheckChain(t, keys);
      if sig.Some? then Invalid(sig.value)
      else if chain.Some? then Invalid(chain.value)
      else if Expired(t.caveats, now) then Invalid(CapabilityExpired)
      else Valid
  }

  // The verifier as written: one pass over the links, then one over the caveats.
  method RunVerifier(t: Token, holder: AgentId, issuerKey: PublicKey,
                     keys: map<AgentId, PublicKey>, now: int) returns (verdict: Verdict)
    ensures verdict == VerifyCapability(t, holder, issuerKey, keys, now)
  {
    if t.revoked { return Invalid(Revoked); }
    if t.holder != holder { return Invalid(HolderMismatch); }
    if t.chain != [] {
      var last := t.chain[|t.chain| - 1].from;
      if last !in keys { return Invalid(MissingDelegatorKey); }
      if !Verify(Signable(t), t.signature, keys[last]) { return Invalid(BadDelegatorSignature); }
    } else if !Verify(Signable(t), t.signature, issuerKey) {
      return Invalid(BadIssuerSignature);
    }
    if t.chain != [] && NonEmpty(t.parent) {
      var runningAction: Option<string> := None;
      var runningCaveats: set<CaveatKey> := {};
      var sawV13, sawV12 := false, false;
      for i := 0 to |t.chain|
        invariant WalkChain(t.chain, 0, WALK_START, t.parent.value, keys)
               == WalkChain(t.chain, i, Walk(runningAction, runningCaveats, sawV13, sawV12), t.parent.value, keys)
      {
        var link := t.chain[i];
        if link.from !in keys { return Invalid(MissingLinkKey); }
        var key := keys[link.from];
        if link.parentCapId.Some? && link.actionAtStep.Some? && link.caveatsAtStep.Some? {
          sawV13 := true;
          var payload := StepContent(link.parentCapId.value, link.actionAtStep.value, CaveatsToDicts(link.caveatsAtStep.value));
          if !Verify(payload, link.sig, key) { return Invalid(BadLink); }
          if runningAction.None? {
            runningAction := link.actionAtStep;
          } else if link.actionAtStep != runningAction {
            return Invalid(ActionMutated);
          }
          var current := CaveatSet(link.caveatsAtStep.value);
          if !(current >= runningCaveats) { return Invalid(CaveatsStripped); }
          runningCaveats := current;
        } else if link.parentCapId.Some? {
          sawV12 := true;
          if !Verify(BareId(link.parentCapId.value), link.sig, key) { return Invalid(BadLink); }
        } else if !Verify(BareId(t.parent.value), link.sig, key) {
          return Invalid(BadLink);
        }
      }
      if sawV13 && !sawV12 {
        if runningAction.Some? && t.action != runningAction.value { return Invalid(FinalActionMismatch); }
        if CaveatSet(t.caveats) != runningCaveats { return Invalid(FinalCaveatMismatch); }
      }
    }
    for i := 0 to |t.caveats|
      invariant forall j :: 0 <= j < i ==> t.caveats[j].what.Expires? ==> MICROS * now <= Instant(t.caveats[j].what.at)
    {
      if t.caveats[i].what.Expires? && MICROS * now > Instant(t.caveats[i].what.at) {
        assert Instant(t.caveats[i].what.at) in ExpiryInstants(t.caveats);
        return Invalid(CapabilityExpired);
      }
    }
    return Valid;
  }
}
