// What a visa granted by the default policy is good for.
module VisaLimits {
  import opened Crypto
  import opened Wrappers
  import opened Timestamps
  import opened Capability
  import opened Delegation
  import opened Visa

  lemma {:induction false} DefaultCaveats(cs: seq<Caveat>, last: Caveat, decided: WallClock, now: int)
    requires cs == [Caveat(Expires(IsoTime(decided + EXPIRY_SECONDS, [], 'T', UTC)), false), Caveat(MaxInvocations(1), false), last]
    requires last.what.Other? && last.what.restrict == "no_further_delegation" && last.terminal
    ensures Expired(cs, now) <==> now > decided + 30
    ensures MaxInvocationsOf(cs) == Some(1) && IsTerminal(cs)
  {
    assert cs[0] in cs && cs[1] in cs && cs[2] in cs;
    assert ExpiryInstants(cs) == {MICROS * (decided + 30)} by {
      assert forall c :: c in cs && c.what.Expires? ==> c == cs[0];
      assert Instant(cs[0].what.at) == MICROS * (decided + 30);
    }
    assert InvocationLimits(cs) == {1} by {
      assert forall c :: c in cs && c.what.MaxInvocations? ==> c == cs[1];
    }
  }

  // A default-policy visa verifies for its holder until thirty seconds after the decision and not
  // later, and allows one invocation. `attenuate` refuses to delegate it, but a child made by hand by an
  // agent whose key is known verifies as long as the visa does, and is counted on its own.
  lemma {:induction false} DefaultVisaLimits(
      reg: Registry, ctx: VisaContext, decided: WallClock, key: PrivateKey, issuer: AgentId, holder: AgentId,
      capId: CapId, nonce: string, fp: Option<KeyDigest>, keys: map<AgentId, PublicKey>, now: int, h: Hop)
    requires DefaultPolicy(reg, ctx, decided).Grant?
    ensures var v := IssueVisa(key, issuer, holder, ctx.action, DefaultPolicy(reg, ctx, decided).caveats, capId, nonce, fp);
      && (VerifyCapability(v, holder, PublicOf(key), keys, now) == Valid <==> now <= decided + 30)
      && MaxInvocationsOf(v.caveats) == Some(1)
      && Attenuate(v, h.key, h.delegator, h.newHolder, h.extra, h.capId).Err?
    ensures capId != "" && h.capId != "" && h.extra == [] ==>
      var v := IssueVisa(key, issuer, holder, ctx.action, DefaultPolicy(reg, ctx, decided).caveats, capId, nonce, fp);
      VerifyCapability(ChildOf(v, h.key, h.delegator, h.newHolder, [], h.capId), h.newHolder, PublicOf(key), keys, now) == Valid <==>
      h.delegator in keys && keys[h.delegator] == PublicOf(h.key) && now <= decided + 30
  {
    var v := IssueVisa(key, issuer, holder, ctx.action, DefaultPolicy(reg, ctx, decided).caveats, capId, nonce, fp);
    assert Signable(v.(signature := Malformed(""))) == Signable(v);
    DefaultCaveats(v.caveats, v.caveats[2], decided, now);
    if capId != "" && h.capId != "" && h.extra == [] {
      HandMadeChildAcceptedIff(v, h, PublicOf(key), keys, now);
      assert v.caveats + [] == v.caveats;
    }
  }
}
