// Request messages and their pre-dispatch audit.
module Messages {
  import opened Wrappers
  import opened Crypto
  import opened Capability
  import Identity

  datatype AuditContext = AuditContext(
    purpose: Option<string>, requestId: Option<string>, audienceHint: Option<string>, expiresAt: Option<int>)

  // A task request without its signature. Deadlines are instants; `action` is the payload's action, "" if absent.
  datatype MessageBody = MessageBody(
    id: string, from: AgentId, to: string, capId: Option<CapId>, holderProof: Option<Signature<string>>,
    deadline: Option<int>, idempotencyKey: Option<string>, action: string,
    identityDoc: Option<Identity.Document>, capEnvelope: Option<TokenDict>, auditContext: Option<AuditContext>)

  datatype Message = Message(body: MessageBody, signature: Signature<MessageBody>)

  // The wire codes deadline_exceeded, deadline_too_far, unknown_peer, invalid_signature, pact_token_malformed,
  // pact_audience_mismatch, pact_token_expired, cap_unknown, capability_invalid, holder_proof_required,
  // visa_invalid, holder_proof_invalid, rate_limited and no_handler in turn, then a handler's own.
  datatype FaultCode =
    | DeadlinePassed | DeadlineTooFar | UnknownPeer | InvalidSignature | TokenMalformed
    | AudienceMismatch | TokenExpired | CapUnknown | CapabilityInvalid | HolderProofRequired
    | VisaInvalid | HolderProofInvalid | RateLimited | NoHandler
    | FromHandler(code: string)

  predicate VerifyMessage(m: Message, key: PublicKey) {
    Verify(m.body, m.signature, key)
  }

  predicate DeadlineExceeded(m: Message, now: int) {
    m.body.deadline.Some? && now > m.body.deadline.value
  }

  // The key a response is cached under: absent and empty keys do not cache.
  function CacheKey(m: Message): Option<string> {
    if m.body.idempotencyKey == Some("") then None else m.body.idempotencyKey
  }

  predicate Blank(s: Option<string>) {
    s.Some? && forall i :: 0 <= i < |s.value| ==> s.value[i] in " \t\n\r"
  }

  // The first fault of a present audit context, if any.
  function AuditFault(ctx: AuditContext, to: string, now: int): Option<FaultCode> {
    if ctx.purpose.None? || ctx.requestId.None? || ctx.audienceHint.None? || ctx.expiresAt.None? then Some(TokenMalformed)
    else if Blank(ctx.purpose) || Blank(ctx.requestId) then Some(TokenMalformed)
    else if ctx.audienceHint.value != to then Some(AudienceMismatch)
    else if ctx.expiresAt.value < now then Some(TokenExpired)
    else None
  }
}
