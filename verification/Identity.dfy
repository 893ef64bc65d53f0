// Agent identity: the pre-rotated key event log, its verification, and the identity object.
module Identity {
  import opened Wrappers
  import opened Crypto

  datatype EventType = Inception | Rotation | Unknown(text: string)

  // An event without its signature. An absent current key, or an empty one, is `None`.
  datatype EventBody = EventBody(
    agentId: AgentId, eventType: EventType, sequence: int, priorEventDigest: Option<EventDigest>,
    currentKey: Option<PublicKey>, nextKeysDigest: KeyDigest)

  // SHA-256 of an event's canonical form, injective.
  datatype EventDigest = EventDigest(body: EventBody)

  datatype Event = Event(body: EventBody, signature: Signature<EventBody>)

  // The public identity document.
  datatype Document = Document(agentId: AgentId, publicKey: Option<PublicKey>, nextKeyDigest: KeyDigest)

  // ---------- Verification ----------

  datatype LogError =
    | NoEvents | NotInception | InceptionSequence | InceptionSignature
    | NotRotation(i: nat) | SequenceMismatch(i: nat) | PriorMismatch(i: nat) | CommitmentMismatch(i: nat) | BadSignature(i: nat)

  function InceptionErrors(e: Event): seq<LogError> {
    (if e.body.eventType == Inception then [] else [NotInception])
    + (if e.body.sequence == 0 then [] else [InceptionSequence])
    + (if e.body.currentKey.Some? && !Verify(e.body, e.signature, e.body.currentKey.value) then [InceptionSignature] else [])
  }

  function RotationErrors(prev: Event, e: Event, i: nat): seq<LogError> {
    (if e.body.eventType == Rotation then [] else [NotRotation(i)])
    + (if e.body.sequence == i then [] else [SequenceMismatch(i)])
    + (if e.body.priorEventDigest == Some(EventDigest(prev.body)) then [] else [PriorMismatch(i)])
    + (if e.body.currentKey.Some? && KeyDigest(e.body.currentKey.value) != prev.body.nextKeysDigest then [CommitmentMismatch(i)] else [])
    + (if e.body.currentKey.Some? && !Verify(e.body, e.signature, e.body.currentKey.value) then [BadSignature(i)] else [])
  }

  function LogErrors(log: seq<Event>): seq<LogError> {
    if log == [] then [NoEvents]
    else if |log| == 1 then InceptionErrors(log[0])
    else LogErrors(log[..|log| - 1]) + RotationErrors(log[|log| - 2], log[|log| - 1], |log| - 1)
  }

  // The errors in order; none exactly when the event carries the chain on: the right sequence, the digest
  // of its predecessor, and, if it names a key, the committed one and that key's signature.
  method CheckRotation(prev: Event, event: Event, i: nat) returns (errors: seq<LogError>)
    ensures errors == RotationErrors(prev, event, i)
    ensures errors == [] <==> FollowsFrom(prev, event, i)
  {
    errors := [];
    if event.body.eventType != Rotation { errors := errors + [NotRotation(i)]; }
    if event.body.sequence != i { errors := errors + [SequenceMismatch(i)]; }
    if event.body.priorEventDigest != Some(EventDigest(prev.body)) { errors := errors + [PriorMismatch(i)]; }
    if event.body.currentKey.Some? {
      if KeyDigest(event.body.currentKey.value) != prev.body.nextKeysDigest { errors := errors + [CommitmentMismatch(i)]; }
      if !Verify(event.body, event.signature, event.body.currentKey.value) { errors := errors + [BadSignature(i)]; }
    }
  }

  // The errors in log order; none exactly when the log is valid.
  method VerifyEventLog(log: seq<Event>) returns (errors: seq<LogError>)
    ensures errors == LogErrors(log)
    ensures errors == [] <==> ValidLog(log)
  {
    ErrorFreeIff(log);
    errors := [];
    if log == [] {
      return [NoEvents];
    }
    var inception := log[0];
    if inception.body.eventType != Inception { errors := errors + [NotInception]; }
    if inception.body.sequence != 0 { errors := errors + [InceptionSequence]; }
    if inception.body.currentKey.Some? && !Verify(inception.body, inception.signature, inception.body.currentKey.value) {
      errors := errors + [InceptionSignature];
    }
    for i := 1 to |log|
      invariant errors == LogErrors(log[..i])
    {
      var found := CheckRotation(log[i - 1], log[i], i);
      errors := errors + found;
      assert log[..i + 1][..i] == log[..i];
    }
    assert log[..|log|] == log;
  }

  ghost predicate FollowsFrom(prev: Event, e: Event, i: nat) {
    && e.body.eventType == Rotation && e.body.sequence == i
    && e.body.priorEventDigest == Some(EventDigest(prev.body))
    && (e.body.currentKey.Some? ==>
          KeyDigest(e.body.currentKey.value) == prev.body.nextKeysDigest && e.signature == Signed(e.body.currentKey.value, e.body))
  }

  ghost predicate ValidLog(log: seq<Event>) {
    && log != [] && log[0].body.eventType == Inception && log[0].body.sequence == 0
    && (log[0].body.currentKey.Some? ==> log[0].signature == Signed(log[0].body.currentKey.value, log[0].body))
    && forall i :: 1 <= i < |log| ==> FollowsFrom(log[i - 1], log[i], i)
  }

  lemma {:induction false} ErrorFreeIff(log: seq<Event>)
    ensures LogErrors(log) == [] <==> ValidLog(log)
  {
    if |log| > 1 {
      var n := |log| - 1;
      ErrorFreeIff(log[..n]);
      assert RotationErrors(log[n - 1], log[n], n) == [] <==> FollowsFrom(log[n - 1], log[n], n);
      if ValidLog(log[..n]) && FollowsFrom(log[n - 1], log[n], n) {
        forall i | 1 <= i < |log| ensures FollowsFrom(log[i - 1], log[i], i) {
          assert i < n ==> FollowsFrom(log[..n][i - 1], log[..n][i], i);
        }
      }
      if ValidLog(log) {
        forall i | 1 <= i < n ensures FollowsFrom(log[..n][i - 1], log[..n][i], i) {
          assert FollowsFrom(log[i - 1], log[i], i);
        }
      }
    }
  }

  // ---------- What a valid log determines ----------

  lemma {:induction false} SharedTail(a: seq<Event>, b: seq<Event>, i: nat)
    requires ValidLog(a) && ValidLog(b) && i < |a| && i < |b| && a[i].body == b[i].body
    ensures forall j :: 0 <= j <= i ==> a[j].body == b[j].body
  {
    if i > 0 {
      assert FollowsFrom(a[i - 1], a[i], i) && FollowsFrom(b[i - 1], b[i], i);
      SharedTail(a, b, i - 1);
    }
  }

  // The last event, its signature aside, fixes the length and every earlier event up to signatures.
  lemma {:induction false} TailDeterminesHistory(a: seq<Event>, b: seq<Event>)
    requires ValidLog(a) && ValidLog(b) && a[|a| - 1].body == b[|b| - 1].body
    ensures |a| == |b| && forall j :: 0 <= j < |a| ==> a[j].body == b[j].body
  {
    assert |a| > 1 ==> FollowsFrom(a[|a| - 2], a[|a| - 1], |a| - 1);
    assert |b| > 1 ==> FollowsFrom(b[|b| - 2], b[|b| - 1], |b| - 1);
    SharedTail(a, b, |a| - 1);
  }

  // Sharing event i, two valid logs agree on who may sign event i + 1, and that one signed it.
  lemma {:induction false} SharedEventFixesNextSigner(a: seq<Event>, b: seq<Event>, i: nat)
    requires ValidLog(a) && ValidLog(b) && i + 1 < |a| && i + 1 < |b| && a[i].body == b[i].body
    requires a[i + 1].body.currentKey.Some? && b[i + 1].body.currentKey.Some?
    ensures a[i + 1].body.currentKey == b[i + 1].body.currentKey
    ensures a[i + 1].signature == Signed(b[i + 1].body.currentKey.value, a[i + 1].body)
  {
    assert FollowsFrom(a[i], a[i + 1], i + 1) && FollowsFrom(b[i], b[i + 1], i + 1);
  }

  // ---------- Published history ----------

  function InceptionEvent(key: PrivateKey, next: PrivateKey): Event {
    var pub := PublicOf(key);
    var body := EventBody(Derived(pub), Inception, 0, None, Some(pub), KeyDigest(PublicOf(next)));
    Event(body, Sign(body, key))
  }

  function RotationEvent(log: seq<Event>, agentId: AgentId, key: PrivateKey, next: PrivateKey): Event
    requires log != []
  {
    var body := EventBody(agentId, Rotation, |log|, Some(EventDigest(log[|log| - 1].body)),
                          Some(PublicOf(key)), KeyDigest(PublicOf(next)));
    Event(body, Sign(body, key))
  }

  // The log after creating with the first two keys and rotating in each later one.
  ghost function PublishedLog(keys: seq<PrivateKey>): (log: seq<Event>)
    requires |keys| >= 2
    ensures |log| == |keys| - 1
  {
    var n := |keys|;
    if n == 2 then [InceptionEvent(keys[0], keys[1])]
    else
      var log := PublishedLog(keys[..n - 1]);
      log + [RotationEvent(log, Derived(PublicOf(keys[0])), keys[n - 2], keys[n - 1])]
  }

  // The identity document an agent publishes when its i-th key is current.
  function DocAt(keys: seq<PrivateKey>, i: nat): Document
    requires i + 1 < |keys|
  {
    Document(Derived(PublicOf(keys[0])), Some(PublicOf(keys[i])), KeyDigest(PublicOf(keys[i + 1])))
  }

  ghost predicate EventOf(keys: seq<PrivateKey>, i: nat, e: Event)
    requires i + 1 < |keys|
  {
    && e.body.agentId == Derived(PublicOf(keys[0])) && e.body.sequence == i
    && e.body.currentKey == Some(PublicOf(keys[i])) && e.body.nextKeysDigest == KeyDigest(PublicOf(keys[i + 1]))
    && e.signature == Signed(PublicOf(keys[i]), e.body)
  }

  lemma {:induction false} PublishedEvents(keys: seq<PrivateKey>)
    requires |keys| >= 2
    ensures forall i :: 0 <= i < |keys| - 1 ==> EventOf(keys, i, PublishedLog(keys)[i])
  {
    var n := |keys|;
    if n > 2 {
      PublishedEvents(keys[..n - 1]);
      forall i | 0 <= i < n - 1 ensures EventOf(keys, i, PublishedLog(keys)[i]) {
        assert i < n - 2 ==> EventOf(keys[..n - 1], i, PublishedLog(keys[..n - 1])[i]);
      }
    }
  }

  lemma {:induction false} PublishedLogChains(keys: seq<PrivateKey>)
    requires |keys| >= 2
    ensures ValidLog(PublishedLog(keys))
  {
    var n := |keys|;
    if n > 2 {
      var log, before := PublishedLog(keys), PublishedLog(keys[..n - 1]);
      PublishedLogChains(keys[..n - 1]);
      PublishedEvents(keys[..n - 1]);
      assert EventOf(keys[..n - 1], n - 3, before[n - 3]);
      assert FollowsFrom(before[n - 3], log[n - 2], n - 2);
      forall i | 1 <= i < |log| ensures FollowsFrom(log[i - 1], log[i], i) {
        assert i < n - 2 ==> FollowsFrom(before[i - 1], before[i], i);
      }
    }
  }

  // Any run of rotations from creation: the log verifies, the id is the inception key's, and
  // event i carries key i and commits to key i + 1.
  lemma {:induction false} PublishedLogIsValid(keys: seq<PrivateKey>)
    requires |keys| >= 2
    ensures var log := PublishedLog(keys);
      && LogErrors(log) == []
      && (forall i :: 0 <= i < |log| ==>
            && log[i].body.agentId == Derived(PublicOf(keys[0])) && log[i].body.sequence == i
            && log[i].body.currentKey == Some(PublicOf(keys[i]))
            && log[i].body.nextKeysDigest == KeyDigest(PublicOf(keys[i + 1])))
  {
    PublishedLogChains(keys);
    PublishedEvents(keys);
    ErrorFreeIff(PublishedLog(keys));
    var log := PublishedLog(keys);
    forall i | 0 <= i < |log|
      ensures log[i].body.agentId == Derived(PublicOf(keys[0])) && log[i].body.sequence == i
        && log[i].body.currentKey == Some(PublicOf(keys[i])) && log[i].body.nextKeysDigest == KeyDigest(PublicOf(keys[i + 1]))
    {
      assert EventOf(keys, i, log[i]);
    }
  }

  // The last published event commits to the held next key.
  lemma {:induction false} PublishedTip(keys: seq<PrivateKey>)
    requires |keys| >= 2
    ensures PublishedLog(keys)[|keys| - 2].body.nextKeysDigest == KeyDigest(PublicOf(keys[|keys| - 1]))
  {
  }

  // ---------- The identity object ----------

  class KeyStore {
    var current: Option<PrivateKey>
    var next: Option<PrivateKey>
    var log: seq<Event>
    var document: Option<Document>
    ghost var keys: seq<PrivateKey>

    // The disk state left by a completed create and completed rotations.
    ghost predicate Valid()
      reads this
    {
      var n := |keys|;
      n >= 2 && current == Some(keys[n - 2]) && next == Some(keys[n - 1])
      && log == PublishedLog(keys) && document == Some(DocAt(keys, n - 2))
    }

    constructor ()
      ensures current == None && next == None && log == [] && document == None
    {
      current, next, log, document := None, None, [], None;
    }
  }

  datatype RotateError = EmptyLog | CommitmentBroken

  class AgentIdentity {
    var agentId: AgentId
    var privateKey: PrivateKey
    var publicKey: PublicKey
    var nextPrivateKey: PrivateKey
    var nextPublicKey: PublicKey
    const store: KeyStore

    // The object agrees with its store.
    ghost predicate InSync()
      reads this, store
    {
      && store.Valid()
      && agentId == Derived(PublicOf(store.keys[0]))
      && store.current == Some(privateKey) && publicKey == PublicOf(privateKey)
      && store.next == Some(nextPrivateKey) && nextPublicKey == PublicOf(nextPrivateKey)
    }

    constructor Create(store: KeyStore, key: PrivateKey, next: PrivateKey)
      modifies store
      ensures this.store == store && store.log == old(store.log) + [InceptionEvent(key, next)]
      ensures agentId == Derived(PublicOf(key)) && privateKey == key && nextPrivateKey == next
      ensures old(store.log) == [] ==> InSync() && store.keys == [key, next]
    {
      this.store := store;
      agentId := Derived(PublicOf(key));
      privateKey, publicKey, nextPrivateKey, nextPublicKey := key, PublicOf(key), next, PublicOf(next);
      new;
      store.current, store.next := Some(key), Some(next);
      store.log := store.log + [InceptionEvent(key, next)];
      store.document := Some(ToDocument());
      store.keys := [key, next];
    }

    constructor Restore(store: KeyStore, id: AgentId, key: PrivateKey, next: PrivateKey)
      ensures this.store == store && agentId == id
      ensures privateKey == key && publicKey == PublicOf(key) && nextPrivateKey == next && nextPublicKey == PublicOf(next)
    {
      this.store := store;
      agentId, privateKey, publicKey, nextPrivateKey, nextPublicKey := id, key, PublicOf(key), next, PublicOf(next);
    }

    // Loading needs both key files and a non-empty log; the id is the first event's.
    static method Load(store: KeyStore) returns (r: AgentIdentity?)
      ensures r == null <==> store.current.None? || store.next.None? || store.log == []
      ensures r != null ==>
        && fresh(r) && r.store == store && r.agentId == store.log[0].body.agentId
        && Some(r.privateKey) == store.current && Some(r.nextPrivateKey) == store.next
      ensures store.Valid() ==> r != null && r.InSync()
    {
      if store.current.None? || store.next.None? || store.log == [] {
        if store.Valid() { PublishedLogIsValid(store.keys); }
        return null;
      }
      if store.Valid() { PublishedLogIsValid(store.keys); }
      r := new AgentIdentity.Restore(store, store.log[0].body.agentId, store.current.value, store.next.value);
    }

    function ToDocument(): Document
      reads this
    {
      Document(agentId, Some(publicKey), KeyDigest(nextPublicKey))
    }

    // Fails, changing nothing, exactly when the log is empty or the held next key is not the committed
    // one; on an object in sync with its store it never fails and stays in sync.
    method Rotate(freshNext: PrivateKey) returns (r: Result<Event, RotateError>)
      modifies this, store
      ensures r == Err(EmptyLog) <==> old(store.log) == []
      ensures r == Err(CommitmentBroken) <==>
        old(store.log) != [] && old(store.log)[|old(store.log)| - 1].body.nextKeysDigest != KeyDigest(PublicOf(old(nextPrivateKey)))
      ensures r.Err? ==> unchanged(this) && unchanged(store)
      ensures r.Ok? ==>
        && r.value == RotationEvent(old(store.log), agentId, privateKey, freshNext)
        && store.log == old(store.log) + [r.value] && agentId == old(agentId)
        && privateKey == old(nextPrivateKey) && publicKey == PublicOf(privateKey)
        && nextPrivateKey == freshNext && nextPublicKey == PublicOf(freshNext)
        && store.current == Some(privateKey) && store.next == Some(freshNext) && store.document == Some(ToDocument())
      ensures old(InSync()) ==> r.Ok? && InSync() && store.keys == old(store.keys) + [freshNext]
    {
      ghost var synced, keys := InSync(), store.keys;
      if synced {
        PublishedTip(keys);
      }
      var newKey := nextPrivateKey;
      var newPub := PublicOf(newKey);
      var events := store.log;
      if events == [] {
        return Err(EmptyLog);
      }
      var prior := events[|events| - 1];
      if prior.body.nextKeysDigest != KeyDigest(newPub) {
        return Err(CommitmentBroken);
      }
      var rotation := RotationEvent(events, agentId, newKey, freshNext);
      privateKey, publicKey := newKey, newPub;
      nextPrivateKey, nextPublicKey := freshNext, PublicOf(freshNext);
      store.current, store.next := Some(newKey), Some(freshNext);
      store.log := events + [rotation];
      store.document := Some(ToDocument());
      store.keys := keys + [freshNext];
      assert synced ==> (keys + [freshNext])[..|keys|] == keys;
      return Ok(rotation);
    }
  }
}
