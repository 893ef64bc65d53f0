// The receiver's peer cache: trust on first use, and following a sender's key rotations.
module PeerCache {
  import opened Wrappers
  import opened Crypto
  import opened Identity
  import opened Messages

  type Peers = map<AgentId, Document>

  function ResolveKey(peers: Peers, id: AgentId): Option<PublicKey> {
    if id in peers then peers[id].publicKey else None
  }

  datatype Lookup = Lookup(peers: Peers, key: Option<PublicKey>)

  // Cache an inline document whose key derives the claimed id.
  function Tofu(peers: Peers, claimed: AgentId, doc: Document): Lookup {
    if doc.publicKey.None? || Derived(doc.publicKey.value) != claimed || doc.agentId != claimed then Lookup(peers, None)
    else Lookup(peers[claimed := doc], doc.publicKey)
  }

  // Cache an inline document whose key the cached document committed to.
  function Refresh(peers: Peers, m: Message): Lookup {
    var doc := m.body.identityDoc;
    if doc.None? || doc.value.publicKey.None? || doc.value.agentId != m.body.from || m.body.from !in peers
       || KeyDigest(doc.value.publicKey.value) != peers[m.body.from].nextKeyDigest then Lookup(peers, None)
    else Lookup(peers[m.body.from := doc.value], doc.value.publicKey)
  }

  datatype SenderCheck = SenderCheck(peers: Peers, sender: Result<PublicKey, FaultCode>)

  function CheckSender(peers: Peers, m: Message): SenderCheck {
    var known := ResolveKey(peers, m.body.from);
    var first := if known.None? && m.body.identityDoc.Some? then Tofu(peers, m.body.from, m.body.identityDoc.value) else Lookup(peers, known);
    if first.key.None? then SenderCheck(first.peers, Err(UnknownPeer))
    else if VerifyMessage(m, first.key.value) then SenderCheck(first.peers, Ok(first.key.value))
    else
      var refreshed := Refresh(first.peers, m);
      if refreshed.key.Some? && VerifyMessage(m, refreshed.key.value) then SenderCheck(refreshed.peers, Ok(refreshed.key.value))
      else SenderCheck(refreshed.peers, Err(InvalidSignature))
  }

  // An accepted message would be accepted again.
  lemma {:induction false} AcceptedAgain(peers: Peers, m: Message)
    requires CheckSender(peers, m).sender.Ok?
    ensures CheckSender(CheckSender(peers, m).peers, m).sender == CheckSender(peers, m).sender
  {
    var known := ResolveKey(peers, m.body.from);
    if known.Some? && !VerifyMessage(m, known.value) {
      assert Refresh(peers, m).key.Some?;
    }
  }

  class PeerDirectory {
    var peers: Peers

    constructor ()
      ensures peers == map[]
    {
      peers := map[];
    }

    method TofuRegister(claimed: AgentId, doc: Document) returns (key: Option<PublicKey>)
      modifies this
      ensures Lookup(peers, key) == Tofu(old(peers), claimed, doc)
    {
      if doc.publicKey.None? { return None; }
      if Derived(doc.publicKey.value) != claimed { return None; }
      if doc.agentId != claimed { return None; }
      peers := peers[claimed := doc];
      return doc.publicKey;
    }

    method RefreshAfterRotation(m: Message) returns (key: Option<PublicKey>)
      modifies this
      ensures Lookup(peers, key) == Refresh(old(peers), m)
    {
      if m.body.identityDoc.None? { return None; }
      var doc := m.body.identityDoc.value;
      if doc.publicKey.None? { return None; }
      if doc.agentId != m.body.from { return None; }
      if m.body.from !in peers { return None; }
      if KeyDigest(doc.publicKey.value) != peers[m.body.from].nextKeyDigest { return None; }
      peers := peers[m.body.from := doc];
      return doc.publicKey;
    }

    method VerifySender(m: Message) returns (sender: Result<PublicKey, FaultCode>)
      modifies this
      ensures SenderCheck(peers, sender) == CheckSender(old(peers), m)
    {
      var key := ResolveKey(peers, m.body.from);
      if key.None? && m.body.identityDoc.Some? {
        key := TofuRegister(m.body.from, m.body.identityDoc.value);
      }
      if key.None? { return Err(UnknownPeer); }
      if !VerifyMessage(m, key.value) {
        var refreshed := RefreshAfterRotation(m);
        if refreshed.Some? && VerifyMessage(m, refreshed.value) {
          key := refreshed;
        } else {
          return Err(InvalidSignature);
        }
      }
      return Ok(key.value);
    }
  }

  // ---------- Following one sender's published history ----------

  // A sender's successive keys, never repeated, with at least the inception pair.
  ghost predicate History(keys: seq<PrivateKey>) {
    |keys| >= 2 && forall i, j :: 0 <= i < j < |keys| ==> keys[i] != keys[j]
  }

  function SenderId(keys: seq<PrivateKey>): AgentId
    requires keys != []
  {
    Derived(PublicOf(keys[0]))
  }

  ghost predicate CachedAt(peers: Peers, keys: seq<PrivateKey>, i: int)
    requires keys != []
  {
    0 <= i && i + 1 < |keys| && SenderId(keys) in peers && peers[SenderId(keys)] == DocAt(keys, i)
  }

  // The sender is absent, or cached at some index of its history.
  ghost predicate OnHistory(peers: Peers, keys: seq<PrivateKey>)
    requires keys != []
  {
    SenderId(keys) in peers ==> exists i: nat :: CachedAt(peers, keys, i)
  }

  // An inline document in the sender's name that shows its key at index i.
  predicate Shows(m: Message, keys: seq<PrivateKey>, i: nat)
    requires i < |keys|
  {
    m.body.identityDoc.Some? && m.body.identityDoc.value.agentId == m.body.from
    && m.body.identityDoc.value.publicKey == Some(PublicOf(keys[i]))
  }

  // Its commitment is the history's next key. The document is unsigned, so nothing else vouches for it.
  ghost predicate Commits(m: Message, keys: seq<PrivateKey>, i: nat)
    requires m.body.identityDoc.Some?
  {
    i + 1 < |keys| && m.body.identityDoc.value.nextKeyDigest == KeyDigest(PublicOf(keys[i + 1]))
  }

  // First contact, for any message in the sender's name: accepted exactly when it shows the inception key and
  // is signed by it; whatever document shows that key is cached, signed for or not; and the entry is on the
  // sender's history exactly when that document commits to the history's next key.
  lemma {:induction false} FirstContact(peers: Peers, m: Message, keys: seq<PrivateKey>)
    requires History(keys) && m.body.from == SenderId(keys) && SenderId(keys) !in peers
    ensures var r := CheckSender(peers, m);
      && (r.sender.Ok? <==> Shows(m, keys, 0) && VerifyMessage(m, PublicOf(keys[0])))
      && (r.sender.Ok? ==> r.sender.value == PublicOf(keys[0]))
      && (SenderId(keys) in r.peers <==> Shows(m, keys, 0))
      && (OnHistory(r.peers, keys) <==> !(Shows(m, keys, 0) && !Commits(m, keys, 0)))
  {
    var r := CheckSender(peers, m);
    if Shows(m, keys, 0) {
      assert r.peers[SenderId(keys)] == m.body.identityDoc.value;
      if Commits(m, keys, 0) {
        assert CachedAt(r.peers, keys, 0);
      }
    }
  }

  // The document replaces the cached one: it shows the committed key on a message the cached key did not sign.
  ghost predicate Replaces(m: Message, keys: seq<PrivateKey>, i: nat)
    requires i + 1 < |keys|
  {
    Shows(m, keys, i + 1) && !VerifyMessage(m, PublicOf(keys[i]))
  }

  // Later contact, for any message in the sender's name while its document i is cached: accepted exactly
  // under the cached key, or under the committed one when the document is replaced; the entry then changes
  // to the document shown, whether or not the message is accepted; and it leaves the sender's history
  // exactly when a replacing document commits to something else than the history's next key.
  lemma {:induction false} LaterContact(peers: Peers, m: Message, keys: seq<PrivateKey>, i: nat)
    requires History(keys) && m.body.from == SenderId(keys) && CachedAt(peers, keys, i)
    ensures var r := CheckSender(peers, m);
      && (r.sender.Ok? <==> VerifyMessage(m, PublicOf(keys[i])) || (Replaces(m, keys, i) && VerifyMessage(m, PublicOf(keys[i + 1]))))
      && (r.sender.Ok? ==> r.sender.value == PublicOf(keys[if Replaces(m, keys, i) then i + 1 else i]))
      && r.peers == (if Replaces(m, keys, i) then peers[SenderId(keys) := m.body.identityDoc.value] else peers)
      && (OnHistory(r.peers, keys) <==> !(Replaces(m, keys, i) && !Commits(m, keys, i + 1)))
      && (OnHistory(r.peers, keys) ==> CachedAt(r.peers, keys, if Replaces(m, keys, i) then i + 1 else i))
  {
    var r := CheckSender(peers, m);
    if Replaces(m, keys, i) {
      if Commits(m, keys, i + 1) {
        assert CachedAt(r.peers, keys, i + 1);
      } else {
        forall j: nat ensures !CachedAt(r.peers, keys, j) {
          assert j < |keys| && j != i + 1 ==> PublicOf(keys[j]) != PublicOf(keys[i + 1]);
        }
      }
    } else {
      assert CachedAt(r.peers, keys, i);
    }
  }

  // Two messages, the first unsigned, that leave the cached entry off the history and then accept a key the
  // history never held: the first shows the committed key with a foreign commitment, the second that key.
  lemma {:induction false} ForeignCommitmentLeavesHistory(peers: Peers, keys: seq<PrivateKey>, i: nat, foreign: PrivateKey, first: Message, second: Message)
    requires History(keys) && CachedAt(peers, keys, i) && foreign !in keys
    requires first.body.from == SenderId(keys) && second.body.from == SenderId(keys) && first.signature == Malformed("")
    requires first.body.identityDoc == Some(Document(SenderId(keys), Some(PublicOf(keys[i + 1])), KeyDigest(PublicOf(foreign))))
    requires second.body.identityDoc.Some? && second.body.identityDoc.value.agentId == SenderId(keys)
    requires second.body.identityDoc.value.publicKey == Some(PublicOf(foreign)) && second.signature == Signed(PublicOf(foreign), second.body)
    ensures var r := CheckSender(peers, first);
      && r.sender.Err? && !OnHistory(r.peers, keys) && CheckSender(r.peers, second).sender == Ok(PublicOf(foreign))
  {
    LaterContact(peers, first, keys, i);
    assert i + 2 < |keys| ==> keys[i + 2] in keys;
    assert keys[i + 1] in keys;
  }

  lemma {:induction false} OthersLeaveItAlone(peers: Peers, m: Message, id: AgentId)
    requires m.body.from != id
    ensures var r := CheckSender(peers, m); (id in r.peers <==> id in peers) && (id in peers ==> r.peers[id] == peers[id])
  {
  }

  // ---------- Everything that writes the cache ----------

  // A task request; an acknowledgment or a visa request, which only register on first use; or a document that
  // `ask` fetched before its first request to an agent, which it saves as it is.
  datatype Contact = Task(m: Message) | Introduction(m: Message) | Fetched(id: AgentId, doc: Document)

  function AfterContact(peers: Peers, c: Contact): Peers {
    match c
    case Task(m) => CheckSender(peers, m).peers
    case Introduction(m) =>
      if ResolveKey(peers, m.body.from).None? && m.body.identityDoc.Some? then Tofu(peers, m.body.from, m.body.identityDoc.value).peers else peers
    case Fetched(id, doc) => if id in peers then peers else peers[id := doc]
  }

  ghost predicate InHistory(doc: Document, keys: seq<PrivateKey>)
    requires keys != []
  {
    exists i: nat :: i + 1 < |keys| && doc == DocAt(keys, i)
  }

  // This contact puts a document on the cache that is none of the history's: by a message, one that shows the right
  // key and commits to a wrong one; by a fetch, any.
  ghost predicate Forges(peers: Peers, c: Contact, keys: seq<PrivateKey>)
    requires History(keys)
  {
    var absent := SenderId(keys) !in peers;
    match c
    case Task(m) =>
      m.body.from == SenderId(keys)
      && (if absent then Shows(m, keys, 0) && !Commits(m, keys, 0)
          else exists i: nat :: CachedAt(peers, keys, i) && Replaces(m, keys, i) && !Commits(m, keys, i + 1))
    case Introduction(m) => m.body.from == SenderId(keys) && absent && Shows(m, keys, 0) && !Commits(m, keys, 0)
    case Fetched(id, doc) => id == SenderId(keys) && absent && !InHistory(doc, keys)
  }

  lemma {:induction false} OneIndex(peers: Peers, keys: seq<PrivateKey>, i: nat, j: nat)
    requires History(keys) && CachedAt(peers, keys, i) && CachedAt(peers, keys, j)
    ensures i == j
  {
    assert PublicOf(keys[i]) == PublicOf(keys[j]);
  }

  lemma {:induction false} EntryUnmoved(peers: Peers, next: Peers, keys: seq<PrivateKey>)
    requires History(keys) && (SenderId(keys) in next <==> SenderId(keys) in peers)
    requires SenderId(keys) in peers ==> next[SenderId(keys)] == peers[SenderId(keys)]
    ensures OnHistory(next, keys) <==> OnHistory(peers, keys)
    ensures forall i: nat, j: nat :: CachedAt(peers, keys, i) && CachedAt(next, keys, j) ==> i == j
  {
    forall i: nat ensures CachedAt(next, keys, i) <==> CachedAt(peers, keys, i) {}
    forall i: nat, j: nat | CachedAt(peers, keys, i) && CachedAt(next, keys, j) ensures i == j {
      OneIndex(peers, keys, i, j);
    }
  }

  lemma {:induction false} StaysAt(peers: Peers, m: Message, keys: seq<PrivateKey>, i: nat)
    requires History(keys) && m.body.from == SenderId(keys) && CachedAt(peers, keys, i)
    ensures OnHistory(CheckSender(peers, m).peers, keys) <==> !Forges(peers, Task(m), keys)
    ensures forall k: nat, j: nat :: CachedAt(peers, keys, k) && CachedAt(CheckSender(peers, m).peers, keys, j) ==> k <= j <= k + 1
  {
    var next := CheckSender(peers, m).peers;
    LaterContact(peers, m, keys, i);
    forall k: nat | CachedAt(peers, keys, k) ensures k == i {
      OneIndex(peers, keys, k, i);
    }
    forall j: nat | CachedAt(next, keys, j) ensures i <= j <= i + 1 {
      OneIndex(next, keys, j, if Replaces(m, keys, i) then i + 1 else i);
    }
  }

  lemma {:induction false} TaskStaysIff(peers: Peers, m: Message, keys: seq<PrivateKey>)
    requires History(keys) && OnHistory(peers, keys)
    ensures OnHistory(CheckSender(peers, m).peers, keys) <==> !Forges(peers, Task(m), keys)
    ensures forall i: nat, j: nat :: CachedAt(peers, keys, i) && CachedAt(CheckSender(peers, m).peers, keys, j) ==> i <= j <= i + 1
    ensures forall j: nat :: SenderId(keys) !in peers && CachedAt(CheckSender(peers, m).peers, keys, j) ==> j == 0
  {
    var next := CheckSender(peers, m).peers;
    if m.body.from != SenderId(keys) {
      OthersLeaveItAlone(peers, m, SenderId(keys));
      EntryUnmoved(peers, next, keys);
    } else if SenderId(keys) !in peers {
      FirstContact(peers, m, keys);
      forall j: nat | CachedAt(next, keys, j) ensures j == 0 {
        assert PublicOf(keys[j]) == PublicOf(keys[0]);
      }
    } else {
      var i: nat :| CachedAt(peers, keys, i);
      StaysAt(peers, m, keys, i);
    }
  }

  // One contact keeps the entry on the sender's history exactly when it does not forge, moves the index by at
  // most one, and only a fetch starts it anywhere but at the inception.
  lemma {:induction false} StaysIff(peers: Peers, c: Contact, keys: seq<PrivateKey>)
    requires History(keys) && OnHistory(peers, keys)
    ensures OnHistory(AfterContact(peers, c), keys) <==> !Forges(peers, c, keys)
    ensures forall i: nat, j: nat :: CachedAt(peers, keys, i) && CachedAt(AfterContact(peers, c), keys, j) ==> i <= j <= i + 1
    ensures forall j: nat :: SenderId(keys) !in peers && !c.Fetched? && CachedAt(AfterContact(peers, c), keys, j) ==> j == 0
  {
    match c
    case Task(m) => TaskStaysIff(peers, m, keys);
    case Introduction(m) =>
      var next := AfterContact(peers, c);
      if m.body.from == SenderId(keys) && SenderId(keys) !in peers {
        if Shows(m, keys, 0) && Commits(m, keys, 0) {
          assert CachedAt(next, keys, 0);
        }
        forall j: nat | CachedAt(next, keys, j) ensures j == 0 {
          assert PublicOf(keys[j]) == PublicOf(keys[0]);
        }
      } else {
        EntryUnmoved(peers, next, keys);
      }
    case Fetched(id, doc) =>
      var next := AfterContact(peers, c);
      if id == SenderId(keys) && SenderId(keys) !in peers {
        assert InHistory(doc, keys) ==> OnHistory(next, keys) by {
          if i: nat :| i + 1 < |keys| && doc == DocAt(keys, i) {
            assert CachedAt(next, keys, i);
          }
        }
      } else {
        EntryUnmoved(peers, next, keys);
      }
  }

  ghost function PeersAfter(peers: Peers, cs: seq<Contact>): Peers
    decreases |cs|
  {
    if cs == [] then peers else PeersAfter(AfterContact(peers, cs[0]), cs[1..])
  }

  // After every contact of the run the entry is on the history.
  ghost predicate StaysThroughout(peers: Peers, cs: seq<Contact>, keys: seq<PrivateKey>)
    requires keys != []
    decreases |cs|
  {
    OnHistory(peers, keys) && (cs != [] ==> StaysThroughout(AfterContact(peers, cs[0]), cs[1..], keys))
  }

  ghost predicate NeverForged(peers: Peers, cs: seq<Contact>, keys: seq<PrivateKey>)
    requires History(keys)
    decreases |cs|
  {
    cs != [] ==> !Forges(peers, cs[0], keys) && NeverForged(AfterContact(peers, cs[0]), cs[1..], keys)
  }

  // Over any run of contacts, with anyone: the cached entry stays on this sender's history throughout exactly
  // when none forges.
  lemma {:induction false} CacheFollowsRotationIff(peers: Peers, cs: seq<Contact>, keys: seq<PrivateKey>)
    requires History(keys) && OnHistory(peers, keys)
    ensures StaysThroughout(peers, cs, keys) <==> NeverForged(peers, cs, keys)
    decreases |cs|
  {
    if cs != [] {
      var next := AfterContact(peers, cs[0]);
      StaysIff(peers, cs[0], keys);
      if OnHistory(next, keys) {
        CacheFollowsRotationIff(next, cs[1..], keys);
      }
    }
  }

  // No contact removes an entry.
  lemma {:induction false} StillCached(peers: Peers, c: Contact, id: AgentId)
    requires id in peers
    ensures id in AfterContact(peers, c)
  {
  }

  // Then the index never goes back and grows by at most one a contact.
  lemma {:induction false} CacheFollowsRotation(peers: Peers, cs: seq<Contact>, keys: seq<PrivateKey>, i: nat) returns (j: nat)
    requires History(keys) && CachedAt(peers, keys, i) && NeverForged(peers, cs, keys)
    ensures CachedAt(PeersAfter(peers, cs), keys, j) && i <= j <= i + |cs|
    decreases |cs|
  {
    j := i;
    if cs != [] {
      var next := AfterContact(peers, cs[0]);
      StaysIff(peers, cs[0], keys);
      assert SenderId(keys) in next by {
        StillCached(peers, cs[0], SenderId(keys));
      }
      var k: nat :| CachedAt(next, keys, k);
      j := CacheFollowsRotation(next, cs[1..], keys, k);
    }
  }

  // Inline documents sent in this sender's name, and those fetched for it, come from its published history.
  ghost predicate Published(c: Contact, keys: seq<PrivateKey>)
    requires keys != []
  {
    match c
    case Fetched(id, doc) => id == SenderId(keys) ==> InHistory(doc, keys)
    case _ => c.m.body.from == SenderId(keys) && c.m.body.identityDoc.Some? ==> InHistory(c.m.body.identityDoc.value, keys)
  }

  // Published documents never forge.
  lemma {:induction false} PublishedNeverForges(peers: Peers, c: Contact, keys: seq<PrivateKey>)
    requires History(keys) && Published(c, keys)
    ensures !Forges(peers, c, keys)
  {
    if !c.Fetched? && c.m.body.from == SenderId(keys) && c.m.body.identityDoc.Some? {
      var m := c.m;
      var j: nat :| j + 1 < |keys| && m.body.identityDoc.value == DocAt(keys, j);
      forall i: nat | i < |keys| && Shows(m, keys, i) ensures i == j {
        assert PublicOf(keys[i]) == PublicOf(keys[j]);
      }
    }
  }
}
