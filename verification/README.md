# A verified model of PACT Passport

PACT Passport lets agents ask each other to act under signed, attenuable capabilities. This project
models its receiving side and its exact algorithms in Dafny and proves what they guarantee. All
modules verify together with `dafny verify dfyconfig.toml`.

## What is modelled

**Receiver dispatch** (`CacheWriter`, `Dispatch`, `DispatchSafety`, `DispatchDrive`, `DispatchReplay`,
`DispatchReplayExact`, `DispatchRerun`, `DispatchReceipts`, `DispatchFamily`, `DispatchRuns`, `Agent`). The task pipeline is
a state machine cut at every disk write. Between any two sub-steps an operator may grant, a lock-free `revoke` may read or
write, a stream, which holds no lock, may take one step of storing its chunks or write its receipt, time may
pass, or the process may crash, keeping its files and losing its memory. Storing a response is itself cut
between every read and write of the shared dict and its file. Over all runs: the crash-safe invocation
ceiling, permanent revocation, the exact condition for replay, the receipt balance, and the bound on a
family of attenuated capabilities. `Agent.PactAgent` is the agent as an object: its methods update its fields
as the source does, over the `Cache` and `PeerDirectory` objects, and each is proved to take the machine's
steps, so the theorems over runs hold of it.

**Capability chains** (`CaveatValues`, `Timestamps`, `Capability`, `Delegation`). Caveat values and timestamps as
written, tokens, links and their dict forms, `issue_capability`, `attenuate`, and `verify_capability` with its running
action and caveat set. For any number of hops: honest chains are accepted, accepted chains only narrow.

**Visa issuance** (`Visa`, `VisaLimits`). Threads interleave at every point of the issuance section, holding per-peer
locks around a pruned deque; grants may abort and the process may restart. At most five default-policy visas
per peer and process in any closed minute.

**Identity and peer cache** (`Identity`, `PeerCache`). The pre-rotated, digest-chained event log, the
identity object over its files, and the receiver's cache that follows a sender's rotations.

**Exact algorithms**: the idempotency cache and its eviction (`IdempotencyCache`), the streaming generator
(`Streaming`), receipts, bilateral audit and acknowledgment (`Receipts`), causal history over a possibly
cyclic store (`CausalHistory`), the texts that holder proofs sign (`SigningPayloads`, after section 7 of
RFC 8259), chunked framing (`Framing`, after section 7.1 of RFC 9112), and the Wilson interval (`Wilson`).

## Conventions

- Signatures are ideal: `Signed(key, payload)` verifies for that key and payload and nothing else; digests
  are injective. A malformed signature never verifies.
- A dispatch takes one clock reading. Clocks are monotone; clock readings are whole seconds, counted from 0001-01-01 where
  they meet an expiry, or reals for the visa window.
- Fresh ids (capability, message, stream) are step parameters; a step with a used id does nothing.
- Every lemma carries `{:induction false}`: inductions are written out, none is left to the tool.
- Handlers are unknown: what one returns, raises or yields is a parameter.

## Where the code and its documentation differ

The model follows the code.

- `attenuate` documents that a new expiry must not be later than the parent's. The code compares the
  strings, and `fromisoformat` accepts many spellings of a time: any separator, a `Z` or an offset, with or without
  a fraction. `Delegation.StringRuleEnforcesExpiryIff` says for which pairs of spellings the string rule is enough, and
  `Delegation.LaterInstantsLetThrough` gives later expiries that pass: in another offset, with a space for the `T` at
  the same offset, and with a fraction against a bare `Z`.
  The verifier compares instants, so what is enforced never widens (`Delegation.AttenuationTightens`).
- `no_further_delegation` is enforced by `attenuate`, not by the verifier: a child made by hand from a terminal token is
  accepted whenever its delegator's key is known and nothing has expired, with an id and a count of its own
  (`Delegation.HandMadeChildAcceptedIff`).
- A dict caveat value and the list of its sorted pairs have one canonical form, so the chain walk takes one for the other
  (`CaveatValues.CanonicalEqualIff`).
- The dispatcher accepts the legacy proof over the bare request id, which names neither capability nor receiver
  (`SigningPayloads.LegacyAddsOnlyTheBareId`).
- The repository's README lists `requested_action` in `audit_context`; the code requires `request_id`.
- A response is replayed from the cache as long as neither its file nor its entry is lost to a stream. Streams store
  their chunks after the task lock is released: one that copied the dict, or listed its expired keys, before a
  response was inserted can overwrite the file or delete the entry after it was saved.
  `DispatchReplayExact.ReplayServedIff` states exactly when replay is safe; `DispatchRuns.OldCopyRerunsHandler` is a run
  in which a completed request reaches its handler twice.
- A keyed request re-sent exactly at its deadline goes through the pipeline again when the cached response was kept to
  the deadline itself: the deadline check is strict and the cache check is too. Without a deadline this happens from
  sixty seconds on (`DispatchRerun.RerunIff`, with a run in `DispatchRuns.DeadlineRerunsHandler`).
- The commitment in an inline identity document is not signed. A message rejected for its signature can move the peer
  cache to the document it shows; when that pairs the right key with a foreign commitment, the cached entry leaves the
  sender's history. `PeerCache.LaterContact` and `PeerCache.FirstContact` say exactly when. A document that `ask` fetches
  on first contact is cached with no check at all (`PeerCache.CacheFollowsRotationIff`).
- A revocation stops every dispatch that loads the capability after it, but not one that has already read it
  (`DispatchSafety.RevocationIsPermanent`); and limits and revocations are per capability id, so those attenuated from a
  capability have their own (`DispatchFamily.FamilyBoundIff`).
- The visa rate ceiling is per process: a restart forgets the recorded grants (`Visa.CeilingReached`).
- The chain walk starts at the first link whoever made it (`Delegation.IssuerSignatureNeededIff`).
- The chain walk needs a non-empty `parent` (`Delegation.ParentlessChainIsNotWalked`).
- `create_receipt` documents `signature` as reserved. The code lets an extra `signature` or acknowledgment into the signed
  content, and such a receipt never passes its own audit (`Receipts.CreatedReceiptAudits` states the exact condition).
- Client lines are stripped, so records round-trip exactly when they have neither newlines nor outer white space (`Framing.FramingRoundTrip`).

## Model

| member | source | states |
|---|---|---|
| DispatchSafety.InvocationCeiling | src/pact_passport/agent.py:863-875 | In every run of dispatches, grants, revocations, streams and crashes, handler runs under a limited capability never exceed its on-disk count, which never exceeds any of its `max_invocations` caveats. |
| DispatchSafety.StepKeepsInv | src/pact_passport/agent.py:310-330 | Every sub-step of the pipeline, and every other event between two sub-steps, keeps the counting invariant: the raised count reaches the disk before the handler runs, and stored caveats never change. |
| DispatchSafety.RevocationIsPermanent | src/pact_passport/agent.py:1313-1320 | Over every continuation, restarts and inline envelopes included, a revoked capability stays revoked and its handler runs at most once more, and not at all unless a dispatch that read it before the revocation is still running. |
| DispatchSafety.RevokeIsPermanent | src/pact_passport/agent.py:1313-1320 | Once `revoke` has returned true all of that holds of its capability. |
| DispatchSafety.LoadAfterRevokeIsRefused | src/pact_passport/agent.py:775-811 | A dispatch whose load follows the revocation is refused with capability_invalid, even with an inline envelope. |
| Agent.PactAgent.HandleTask | src/pact_passport/agent.py:310-330 | One task request served by the agent object: its fields afterwards are exactly where the machine's uninterrupted dispatch comes to rest, and a reachable state stays reachable. |
| Agent.PactAgent.AdmitRequest | src/pact_passport/agent.py:665-700 | Deadline check, horizon check and cache lookup, an expired hit being deleted. |
| Agent.PactAgent.CountInvocation | src/pact_passport/agent.py:863-875 | The raised count is in memory and then on disk before the step returns. |
| Agent.PactAgent.VerifyCapability | src/pact_passport/agent.py:770-877 | The whole capability validator takes the machine from loading to resolution or to the same fault. |
| Agent.PactAgent.RunHandler | src/pact_passport/agent.py:889-923 | Handler outcome to reply: error with failed receipt, stream started, or receipt, cache and answer in that order. |
| Agent.PactAgent.CacheIdempotentResponse | src/pact_passport/agent.py:1018-1037 | Inserts with the deadline-or-ten-seconds-or-a-minute lifetime, evicts, caps and persists; no key, no change. |
| Agent.PactAgent.Revoke | src/pact_passport/agent.py:1313-1320 | True exactly when the capability is stored; the result is the machine's load and save in a row, and a reachable state stays reachable. |
| IdempotencyCache.InsertionEvicts | src/pact_passport/agent.py:1274-1296 | After an insertion: at most the configured size, nothing expired, survivors unchanged, live entries lost only when over the cap, and each lost one expiring no later than each kept one. |
| IdempotencyCache.Cache.Lookup | src/pact_passport/agent.py:690-699 | A live hit is returned, an expired one deleted and missed. |
| IdempotencyCache.Cache.EvictExpired | src/pact_passport/agent.py:1274-1279 | The loop leaves exactly the entries still live. |
| IdempotencyCache.Cache.EnforceCap | src/pact_passport/agent.py:1281-1296 | The loop removes exactly the earliest-expiring excess. |
| IdempotencyCache.Cache.Insert | src/pact_passport/agent.py:1032-1036 | Put, evict, cap: the specified insertion. |
| Capability.MaxInvocationsOf | src/pact_passport/agent.py:1268-1272 | The effective limit is the least `max_invocations` caveat, none if there is none. |
| Capability.RunVerifier | src/pact_passport/capability.py:372-554 | The verifier's loops with running action, running caveat set and generation flags compute the specified verdict. |
| Delegation.AcceptedIff | src/pact_passport/capability.py:372-554 | A token is accepted exactly when unrevoked, presented by its holder, signed by the issuer or last delegator, unexpired, and, if it names a parent, its links are all signed by known keys, repeat one action, never drop a caveat, and end at the token's own action and caveats. |
| Delegation.WalkMeaning | src/pact_passport/capability.py:436-503 | The running walk succeeds exactly on chains whose links are signed, agree on the action and have nested caveat sets, and ends with the last content-carrying link. |
| Delegation.HonestChainAccepted | src/pact_passport/capability.py:215-332 | Completeness for any number of hops: issue, attenuate along the hops, send the dict form; the receiver accepts it for the last holder exactly until it expires. |
| Delegation.GatherKnownKeys | src/pact_passport/agent.py:1082-1107 | The scan gathers the agent's own key and the cached key of every delegator and of the holder. |
| Delegation.AttenuationTightens | src/pact_passport/capability.py:240-332 | A successful attenuation keeps action and issuer, appends caveats, and never raises the effective limit or lifts an expiry. |
| Delegation.AttenuateIff | src/pact_passport/capability.py:261-290 | Attenuation succeeds exactly for the holder of a non-terminal token with valid values, no added limit above a parent limit and no added expiry whose printed text sorts after a parent expiry. |
| Delegation.LaterInstantsLetThrough | src/pact_passport/capability.py:285-287 | On any day, three added expiries that are later instants than the parent's and let through: in another offset, with a space for the T at the same offset, and with a fraction where the parent ends in a bare Z. |
| Delegation.StringRuleEnforcesExpiryIff | src/pact_passport/capability.py:285-287 | Over all tokens and all timestamps of two spellings, `attenuate` lets no later expiry through exactly when the new offset is a day or more above the parent's, or neither the separator nor the offset is below the parent's and not both equal with a longer fraction against a parent in Z of fewer than six digits. |
| Timestamps.TextOrderIsFieldOrder | src/pact_passport/capability.py:285-287 | The code-point order of two printed timestamps, years 1 to 9999, is the order of date, separator, time of day and what follows the seconds. |
| Timestamps.PrintInjective | src/pact_passport/capability.py:174-187 | Two timestamps print alike exactly when they are the same, so comparing expiry caveats by their text compares them. |
| Delegation.HandMadeChildAcceptedIff | src/pact_passport/capability.py:372-554 | No further delegation is a rule of `attenuate` only: a child made by hand from any honestly built token, terminal or not, is accepted exactly when its delegator's key is known and nothing has expired. |
| Timestamps.TextOrderMeetsTimeOrder | src/pact_passport/capability.py:285-287 | Text order implies time order, over all timestamps of two spellings, exactly under that condition. |
| CaveatValues.CanonicalEqualIff | src/pact_passport/capability.py:174-187 | Two caveat values compare equal in the chain walk exactly when they are alike, at every depth: equal scalars, lists item by item, dicts key by key in any order, and a list of pairs with ascending keys for the dict of those pairs. |
| CaveatValues.DictTakenForList | src/pact_passport/capability.py:174-187 | The witness of the last case: a dict and the list of its one pair compare equal. |
| CaveatValues.CanonicalIgnoresItemOrder | src/pact_passport/capability.py:174-187 | Dict caveat values with the same items compare equal whatever their item order. |
| Visa.PruneIsFilter | src/pact_passport/visa.py:169-175 | On an ascending deque, popping from the left is filtering by the cutoff. |
| Visa.VisaIssuanceTracker.LockFor | src/pact_passport/visa.py:161-167 | One lock per peer for the tracker's lifetime, never shared between peers. |
| Visa.VisaIssuanceTracker.RecentCount | src/pact_passport/visa.py:169-175 | The pruning loop leaves the grants inside the window and returns their number. |
| Visa.HandleVisaRequest | src/pact_passport/agent.py:517-557 | Count, decide and record under the lock: the decision follows the pruned count and exactly a grant is recorded. |
| VisaLimits.DefaultVisaLimits | src/pact_passport/visa.py:234-276 | A default-policy visa verifies for its holder until thirty seconds after the decision and not later, and allows one invocation; `attenuate` refuses to delegate it, while a child made by hand by any agent of known key verifies exactly as long. |
| Identity.VerifyEventLog | src/pact_passport/identity.py:190-250 | The error list is the specified one, and empty exactly on valid logs. |
| Identity.TailDeterminesHistory | src/pact_passport/identity.py:190-250 | Two valid logs with the same last event, signatures aside, have the same length and the same events. |
| Identity.SharedEventFixesNextSigner | src/pact_passport/identity.py:225-248 | Valid logs sharing event i have the same key at event i + 1, and it signed that event. |
| Identity.PublishedLogIsValid | src/pact_passport/identity.py:126-188 | Any run of rotations from creation verifies, keeps the id, and event i carries key i and commits to key i + 1. |
| Identity.AgentIdentity.Create | src/pact_passport/identity.py:33-77 | Creation appends the inception event and leaves object and store in step. |
| Identity.AgentIdentity.Load | src/pact_passport/identity.py:79-106 | Loading needs both keys and a log, and on a consistent store gives back a consistent object with the inception id. |
| Identity.AgentIdentity.Rotate | src/pact_passport/identity.py:126-188 | Rotation fails exactly on an empty log or a broken commitment, changing nothing; on a consistent identity it never fails and stays consistent. |
| PeerCache.PeerDirectory.VerifySender | src/pact_passport/agent.py:702-729 | The sender step and the cache it leaves. |
| CausalHistory.GetCausalChain | src/pact_passport/agent.py:1339-1355 | On any finite store, cycles included, the search terminates and returns each stored message reachable through stored messages exactly once, nothing else, in non-decreasing distance. |
| CausalHistory.FinishedSearchIsExact | src/pact_passport/agent.py:1344-1355 | When the queue is empty, visited is reachable and levels are exact distances. |
| SigningPayloads.ObjectRoundTrip | src/pact_passport/_canonical.py:12-19 | Canonical JSON of a flat string object reads back, by the reader of RFC 8259, as exactly its fields. |
| SigningPayloads.CharRoundTrip | src/pact_passport/_canonical.py:12-19 | Every Unicode scalar value survives escaping, surrogate pairs included. |
| SigningPayloads.HolderPayloadInjective | src/pact_passport/message.py:47-67 | Equal holder-proof payloads mean equal request id, capability id (none read as empty) and receiver. |
| SigningPayloads.VisaPayloadInjective | src/pact_passport/message.py:70-85 | Equal visa-use payloads mean equal nonces. |
| SigningPayloads.PayloadsDisjoint | src/pact_passport/message.py:47-85 | No text is both a holder-proof and a visa-use payload. |
| SigningPayloads.AcceptedHolderProofIsForThisRequest | src/pact_passport/message.py:406-457 | With the legacy form off, a proof is accepted exactly for the request, capability and receiver it was made for. |
| SigningPayloads.AcceptedVisaProofIsForThisNonce | src/pact_passport/visa.py:300-348 | With the legacy form off, a visa proof is accepted exactly for its own nonce. |
| SigningPayloads.LegacyAddsOnlyTheBareId | src/pact_passport/message.py:406-457 | With the legacy form on, as the dispatcher has it, the only other proof accepted is over the bare request id, and that for any capability and receiver. |
| SigningPayloads.LegacyKeepsHolderProofsBound | src/pact_passport/message.py:406-457 | With the legacy form on, a structured proof is accepted exactly for its own tuple, or for a request whose id is the proof's whole text, which only an id that is a JSON object can be. |
| SigningPayloads.LegacyKeepsVisaProofsBound | src/pact_passport/visa.py:300-348 | Likewise for a visa-use proof and the nonce. |
| SigningPayloads.LegacyKeepsKindsApart | src/pact_passport/message.py:406-457 | With the legacy form on, neither kind of proof passes for the other where the bare text is no JSON object. |
| Framing.TruncationDetected | src/pact_passport/transport/server.py:190-199 | No proper prefix of an encoded stream decodes. |
| Framing.SendStream | src/pact_passport/transport/server.py:190-199 | The write loop emits the specified encoding. |
| Framing.ReceiveStream | src/pact_passport/transport/client.py:105-110 | The line loop yields the specified records. |
| Wilson.WilsonBounds | tests/stage2/_harness.py:99-119 | For 0 <= v <= n, n > 0 and z >= 0: 0 <= low <= v/n <= high <= 1, neither clamp changes a value, and the interval of n - v is the mirror image. |
| Wilson.TallyTrials | tests/stage2/_harness.py:418-433 | The tally counts violations among countable trials, so violations never exceed the number passed on. |
| Streaming.AllChunks | src/pact_passport/agent.py:925-1016 | The drained stream: numbered 0, 1, 2, ..., only the last final; wrapped payloads in order, one empty chunk if none; a source raising after k values gives max(0, k - 1) payload chunks and an error chunk. |
| Streaming.StreamingGenerator.Next | src/pact_passport/agent.py:966-994 | Resuming gives the next chunk, and after the last one ends completed or failed with its effects. |
| Streaming.StreamingGenerator.Close | src/pact_passport/agent.py:995-1016 | Closing a suspended generator ends it cancelled; one never started runs nothing. |
| Streaming.StreamingGenerator.Finish | src/pact_passport/agent.py:998-1016 | Request and chunks saved, cache written only for a completed keyed stream, then exactly one receipt listing request and chunks. |
| Streaming.Consume | src/pact_passport/agent.py:925-1016 | For every source and every schedule of resumes and closes: the chunks got are a prefix of the drained stream, and the effects and outcome are decided by how far the consumer got. |
| Receipts.BuildReceipt | src/pact_passport/receipt.py:16-56 | The fill loop: extra fields never override reserved ones, and the whole is signed. |
| Receipts.AuditReceipt | src/pact_passport/audit.py:233-318 | The audit's faults, none exactly when both signatures verify. |
| Receipts.CreatedReceiptAudits | src/pact_passport/receipt.py:41-56 | A created receipt passes its own signature audit exactly when `extra` holds neither signature field. |
| Receipts.BilateralReceiptAudits | src/pact_passport/audit.py:334-344 | A created receipt made bilateral passes the audit under the same condition. |
| Receipts.SaveAddsOrReplaces | src/pact_passport/store.py:160-167 | Saving adds one file exactly when the name is new and touches no other name. |
| Receipts.MergeCloses | src/pact_passport/agent.py:398-441 | Saving the merged receipt changes one file in its ack field only, its receiver signature auditing as before. |
| Receipts.ReceiptKeeper.MergeAck | src/pact_passport/agent.py:385-441 | An acknowledgment closes exactly the first receipt of its task, is idempotent on the same ack, and otherwise adds a failed receipt. |
| Receipts.ReceiptKeeper.HandleInitiatorAck | src/pact_passport/agent.py:332-441 | Accepted exactly from a resolvable sender with a valid envelope and an ack signing the stored receipt. |
| DispatchSafety.StepKeepsCaveats | src/pact_passport/store.py:137-147 | No step of the pipeline and nothing beside it ever changes the caveats of a stored capability. |
| Dispatch.JudgeMeaning | src/pact_passport/agent.py:817-875 | A run is granted exactly when the proof holds and the count is below every limit, the new count exceeding none; unlimited exactly without limits; rate-limited exactly when some limit is used up. |
| DispatchFamily.FamilyBoundIff | src/pact_passport/agent.py:863-875 | Limits are per capability id: a bound, the root's limit say, holds for all runs of a stored family together, over every continuation, exactly when it is at least the runs they have made plus what each one's limit leaves above its count. |
| DispatchFamily.StepBudget | src/pact_passport/agent.py:863-875 | No step, crash included, raises a limited capability's runs made, counted and still left together; a counted run lost in a crash is lost for good. |
| DispatchFamily.RunOnce | src/pact_passport/agent.py:770-877 | A capability the verifier accepts, below its limit, can run once more, changing only its own count. |
| DispatchRuns.ChildrenOutrunRoot | src/pact_passport/capability.py:240-332 | A run from the start: a root limited to one is revoked, and two children attenuated from it by its holder run once each. |
| DispatchReplayExact.ReplayServedIff | src/pact_passport/agent.py:925-1037 | In any reachable state about to store a one-shot response that fits the cache: every continuation in which it is answered, restarts included and its key not evicted for space, serves the same message again with the identical response or deadline_exceeded, at every instant outside `GoesOnAgain`, exactly when no unlocked stream threatens it - none under its key has yet to insert its own response, none of any key holds a list of keys to delete with this one, or a copy of the dict without the response. |
| DispatchRuns.OldCopyRerunsHandler | src/pact_passport/agent.py:194-200 | A run from the start with no stream of its own key in which a completed and persisted request reaches the handler a second time, well before its response expires: a stream of another key had copied the dict first and wrote the copy last, before a restart. |
| DispatchReplay.ReplayNeverReruns | src/pact_passport/agent.py:685-700 | The sufficient half, step by step: unthreatened, the response is kept in memory and on disk over every continuation. |
| DispatchRerun.RerunIff | src/pact_passport/agent.py:665-700 | Unthreatened, with no other live entry of the key in a stream's copy and no other request under the key let in before: over every continuation in which it is answered, the same message enters the pipeline again exactly at the instants of `GoesOnAgain` - its deadline, when that came ten seconds or more after the handling, or a minute or more without one - and otherwise gets the identical response or deadline_exceeded. |
| DispatchRerun.OwnEntryMissedIff | src/pact_passport/agent.py:665-700 | Admission misses the message's own cached entry exactly at those instants. |
| DispatchRuns.DeadlineRerunsHandler | src/pact_passport/agent.py:1018-1037 | A run from the start in which a request is answered and persisted, and the same request reaches the handler again at its deadline. |
| CacheWriter.OutcomeIsInserted | src/pact_passport/agent.py:1032-1037 | Insert, list and delete the expired, list and delete the excess, copy: uninterrupted, the steps save exactly one specified insertion. |
| DispatchReceipts.OneReceiptPerDispatch | src/pact_passport/agent.py:889-923 | In every crash-free run, a request with nothing in flight has exactly one receipt note for each of its dispatches that was not a replay: completed for answers, failed for faults. |
| Receipts.OneFileEachIff | src/pact_passport/store.py:160-167 | Receipt files are named by timestamp and eight characters of the task id: saved in turn, each receipt has its own file exactly when the names differ. |
| DispatchDrive.RestIsUnique | src/pact_passport/agent.py:310-330 | A dispatch comes to rest in one state only, so `HandleTask` is determined by its contract. |
| DispatchDrive.ReachedIsSafe | src/pact_passport/agent.py:1268-1272 | The invocation ceiling in every state that the agent object's methods can reach. |
| Capability.TokenRoundTrip | src/pact_passport/capability.py:121-161 | Reading back the dict form of a token gives the token exactly when its parent is not the empty string, which reads as no parent. |
| Delegation.AcceptedChainOnlyNarrows | src/pact_passport/capability.py:426-552 | Soundness for any length: from its first link on, whoever made that, an accepted chain of full links has one action, nested caveat sets ending in the token's, and no earlier link is tighter in invocations or already expired. |
| Delegation.IssuerSignatureNeededIff | src/pact_passport/capability.py:398-419 | The issuer's signature is needed for acceptance exactly when there is no chain or the last delegator's key is the issuer's own. |
| Delegation.OneLinkTokenAccepted | src/pact_passport/capability.py:402-419 | The witness: one link made by any known delegator is accepted for any action, without a caveat, under any issuer's name. |
| Delegation.ParentlessChainIsNotWalked | src/pact_passport/capability.py:426-430 | Without a parent id acceptance depends on revocation, the last delegator's signature and expiry only. |
| Delegation.ParentlessTokenMayDiffer | src/pact_passport/capability.py:426-430 | The witness: an accepted token without a parent whose one link records another action and a limit of one. |
| Visa.SlidingWindowCeiling | src/pact_passport/agent.py:517-557 | In every interleaving of any number of threads, aborted grants and restarts included, each process records at most five default-policy visas per peer in any closed sixty-second interval, and the pruned deque is its grant history filtered at the last cutoff. |
| Visa.CeilingAcrossRestarts | src/pact_passport/visa.py:155-160 | The tracker is in memory only: over a run with n restarts, at most five times n + 1 in any closed minute. |
| Visa.CeilingReached | src/pact_passport/visa.py:155-160 | That bound is reached for every n, so five a minute holds for runs without a restart only. |
| Visa.IssuanceOutcome | src/pact_passport/agent.py:517-557 | The served request leaves what the machine's uninterrupted issuance leaves. |
| Identity.CheckRotation | src/pact_passport/identity.py:214-248 | The errors of one rotation event, none exactly when it carries the chain on: right sequence, predecessor's digest, committed key, that key's signature. |
| PeerCache.FirstContact | src/pact_passport/agent.py:1158-1193 | First contact, any message: accepted exactly when it shows the inception key and is signed by it; the unsigned document is cached either way, and is on the sender's history exactly when it commits to the history's next key. |
| PeerCache.LaterContact | src/pact_passport/agent.py:702-729 | Later contact, any message: accepted exactly under the cached key, or under the committed one when its document is shown; the entry leaves the history exactly when the document shown has the committed key, a foreign commitment, and a message the cached key did not sign. |
| PeerCache.CacheFollowsRotationIff | src/pact_passport/agent.py:1109-1193 | Over any run of contacts with anyone - task requests, acknowledgments, visa requests, and documents `ask` fetched - the cached entry stays on the sender's history throughout exactly when none forges: shows the right key with a foreign commitment, or, fetched on first contact, is none of the history's. |
| PeerCache.CacheFollowsRotation | src/pact_passport/agent.py:1109-1218 | Then the cached index never goes back and grows by at most one a contact. |
| PeerCache.PublishedNeverForges | src/pact_passport/agent.py:1109-1218 | Documents from the sender's published history, sent or fetched, never forge. |
| PeerCache.ForeignCommitmentLeavesHistory | src/pact_passport/agent.py:1135-1156 | The input at which it fails: an unsigned message with the committed key and a foreign commitment, after which a message signed by the foreign key is accepted. |
| Framing.FramingRoundTrip | src/pact_passport/transport/client.py:105-110 | Every encoded stream decodes, and reading lines as the client does gives the records back exactly when each is newline-free, not blank and without outer white space. |

## Left out

- Ed25519, SHA-256 and base64 internals: signatures and digests are ideal, and malformed base64 is "does not verify".
- Sockets, HTTP routing, timeouts, CBOR, mDNS, the CLI and the client's `ask` but for the document it caches: input and output plumbing.
- Ablation flags (all off) and chaos sleeps (no-ops).
- The message store during dispatch: `save_message` calls write files no modelled step reads.
- The visa request's identity, signature and audit checks before the issuance section, and refusals after it: they repeat the task pipeline's. Visas enter the dispatch machine as grants.
- Deprecation warnings; links from before v1.3 stay as branches of the verifier, but soundness is stated for full links.
- Visa fields added to receipts of visa dispatches: `extra` is arbitrary in `Receipts` and absent in `Dispatch`.
- Several clock readings within one dispatch, and non-integer limits: ruled out by the types.
- Timestamps.Print: extended calendar dates with seconds, any separator, any fraction after a point, and `Z` or a whole-minute offset. `fromisoformat` also accepts basic and week dates, truncated times, a comma, offsets with seconds, and times without an offset, which the verifier then cannot compare.
- CaveatValues.CanonicalEqualIff: scalars other than strings are compared by their text; Python also takes `1`, `1.0` and `True` for equal.
- Visa.DefaultPolicy: a clock in the last thirty seconds of the year 9999, where the expiry overflows; its expiry is printed from whole seconds.
- Crashes in the middle of `rotate` or `create`: their writes are not one atomic step, so a rotation is completed or not started.
- Two streams under one idempotency key at once: the code does not promise a single run, and no theorem here promises it.
- The idempotency lookup of a dispatch is one step, as is each reading of the shared dict into a list or a copy: a `RuntimeError` for a dict changed during such a reading, and a `KeyError` in the lookup, are not modelled. A `KeyError` while evicting is.
- Agent.PactAgent.HandleTask: states the uninterrupted dispatch; crashes and lock-free revocations between sub-steps are steps of the machine in `Dispatch`, which works on values for that reason.
- DispatchReceipts.OneReceiptPerDispatch: counts receipts as a log; the files are fewer exactly when names coincide (`Receipts.OneFileEachIff`). A stream whose eviction raised never writes its receipt and stays open in the count.
- Agent.PactAgent.CacheIdempotentResponse: one thread storing a response; several at once are steps of the machine.
- Streaming.Consume: covers schedules that start the generator; `Streaming.StreamingGenerator.Close` says that one closed before its first `next` runs nothing.
- Wilson.WilsonBounds: over the reals, the square root given as a non-negative number with the right square; floating-point rounding is not modelled.
- SigningPayloads.ObjectRoundTrip: flat objects with string values, which is all the two payloads use.
- `verify_receipt` on bilateral receipts: it strips only the receiver signature, so `audit_receipt` is the modelled check.
- White space in audit strings beyond space, tab and line ends; file-name sanitising of agent ids; the constant `alg` field of tokens.
- `policy.py`, fault-code tables, protocol advertisement, `contrib`, the probes and `derive_peer_network_id`: easy, or not part of dispatch.
