// Receipts: creation, the receipt directory, bilateral audit, and closing a receipt with
// the initiator's acknowledgment.
module Receipts {
  import opened Wrappers
  import opened Crypto
  import opened CaveatValues
  import Identity
  import PeerCache

  // A receipt is a JSON object; extra audit fields make its key set open.
  datatype Val = Text(text: string) | Refs(ids: seq<string>) | Sig(sig: Signature<Dict>)

  type Dict = map<string, Val>

  const SIGNATURE := "signature"
  const ACK := "initiator_ack_signature"

  const RESERVED: set<string> := {"type", "agent", "task_ref", "refs", "outcome", "timestamp", "alg"}

  function BaseFields(agent: string, taskRef: string, refs: seq<string>, outcome: string, timestamp: string): Dict {
    map["type" := Text("receipt"), "agent" := Text(agent), "task_ref" := Text(taskRef), "refs" := Refs(refs),
        "outcome" := Text(outcome), "timestamp" := Text(timestamp), "alg" := Text("Ed25519")]
  }

  // The signed content: extra fields never override reserved ones.
  function Content(agent: string, taskRef: string, refs: seq<string>, outcome: string, timestamp: string, extra: Dict): Dict {
    extra + BaseFields(agent, taskRef, refs, outcome, timestamp)
  }

  function CreateReceipt(key: PrivateKey, agent: string, taskRef: string, refs: seq<string>, outcome: string,
                         timestamp: string, extra: Dict): Dict
  {
    var content := Content(agent, taskRef, refs, outcome, timestamp, extra);
    content[SIGNATURE := Sig(Sign(content, key))]
  }

  method BuildReceipt(key: PrivateKey, agent: string, taskRef: string, refs: seq<string>, outcome: string,
                      timestamp: string, extra: Dict) returns (receipt: Dict)
    ensures receipt == CreateReceipt(key, agent, taskRef, refs, outcome, timestamp, extra)
  {
    receipt := BaseFields(agent, taskRef, refs, outcome, timestamp);
    ghost var base := receipt;
    var todo := extra.Keys;
    while todo != {}
      invariant todo <= extra.Keys
      invariant receipt == (extra - todo) + base
      decreases todo
    {
      var k :| k in todo;
      todo := todo - {k};
      if k !in receipt {
        receipt := receipt[k := extra[k]];
      }
    }
    assert extra - {} == extra;
    receipt := receipt[SIGNATURE := Sig(Sign(receipt, key))];
  }

  // ---------- Audit ----------

  ghost predicate ReceiverSigned(receipt: Dict, key: PublicKey) {
    SIGNATURE in receipt && receipt[SIGNATURE] == Sig(Signed(key, receipt - {SIGNATURE, ACK}))
  }

  ghost predicate InitiatorSigned(receipt: Dict, key: PublicKey) {
    ACK in receipt && receipt[ACK] == Sig(Signed(key, receipt - {ACK}))
  }

  // The faults in order; none exactly when both signatures verify (the second only when its key is given).
  method AuditReceipt(receipt: Dict, receiverKey: PublicKey, initiatorKey: Option<PublicKey>) returns (errors: seq<string>)
    ensures errors ==
      (if SIGNATURE !in receipt then ["pact_token_missing"] else if ReceiverSigned(receipt, receiverKey) then [] else ["pact_signature_invalid"])
      + (if ACK !in receipt then ["pact_receipt_not_bilateral"]
         else if initiatorKey.None? || InitiatorSigned(receipt, initiatorKey.value) then [] else ["pact_signature_invalid"])
    ensures errors == [] <==>
      && ReceiverSigned(receipt, receiverKey) && ACK in receipt
      && (initiatorKey.Some? ==> InitiatorSigned(receipt, initiatorKey.value))
  {
    errors := [];
    if SIGNATURE !in receipt {
      errors := errors + ["pact_token_missing"];
    } else {
      var signable := receipt - {SIGNATURE, ACK};
      var sig := receipt[SIGNATURE];
      if !(sig.Sig? && Verify(signable, sig.sig, receiverKey)) {
        errors := errors + ["pact_signature_invalid"];
      }
    }
    if ACK !in receipt {
      errors := errors + ["pact_receipt_not_bilateral"];
    } else if initiatorKey.Some? {
      var signable := receipt - {ACK};
      var sig := receipt[ACK];
      if !(sig.Sig? && Verify(signable, sig.sig, initiatorKey.value)) {
        errors := errors + ["pact_signature_invalid"];
      }
    }
  }

  function SignInitiatorAck(receipt: Dict, key: PrivateKey): Signature<Dict> {
    Sign(receipt - {ACK}, key)
  }

  function MakeBilateral(receipt: Dict, key: PrivateKey): Dict {
    receipt[ACK := Sig(SignInitiatorAck(receipt, key))]
  }

  // A created receipt's own signature audits exactly when the extra fields hold neither signature field.
  lemma {:induction false} CreatedReceiptAudits(key: PrivateKey, agent: string, taskRef: string, refs: seq<string>, outcome: string,
                             timestamp: string, extra: Dict)
    ensures ReceiverSigned(CreateReceipt(key, agent, taskRef, refs, outcome, timestamp, extra), PublicOf(key))
      <==> SIGNATURE !in extra && ACK !in extra
  {
    var content := Content(agent, taskRef, refs, outcome, timestamp, extra);
    var r := CreateReceipt(key, agent, taskRef, refs, outcome, timestamp, extra);
    NotReserved();
    if SIGNATURE !in extra && ACK !in extra {
      assert r - {SIGNATURE, ACK} == content;
    } else {
      var k := if SIGNATURE in extra then SIGNATURE else ACK;
      assert k in content && k !in r - {SIGNATURE, ACK};
    }
  }

  lemma {:induction false} NotReserved()
    ensures SIGNATURE !in RESERVED && ACK !in RESERVED && SIGNATURE != ACK
    ensures forall a, t, rs, o, ts :: BaseFields(a, t, rs, o, ts).Keys == RESERVED
  {
    assert |SIGNATURE| == 9 && |ACK| == 23;
    assert |"timestamp"| == 9 && SIGNATURE[0] == 's' && "timestamp"[0] == 't';
  }

  // Adding the acknowledgment never disturbs the receiver's signature.
  lemma {:induction false} AckKeepsReceiverSignature(receipt: Dict, ack: Val, key: PublicKey)
    ensures ReceiverSigned(receipt[ACK := ack], key) <==> ReceiverSigned(receipt, key)
  {
    NotReserved();
    assert receipt[ACK := ack] - {SIGNATURE, ACK} == receipt - {SIGNATURE, ACK};
  }

  // A created receipt made bilateral passes the audit exactly when the extra fields hold neither signature field.
  lemma {:induction false} BilateralReceiptAudits(key: PrivateKey, initiator: PrivateKey, agent: string, taskRef: string, refs: seq<string>,
                               outcome: string, timestamp: string, extra: Dict)
    ensures var r := MakeBilateral(CreateReceipt(key, agent, taskRef, refs, outcome, timestamp, extra), initiator);
      ReceiverSigned(r, PublicOf(key)) && InitiatorSigned(r, PublicOf(initiator)) <==> SIGNATURE !in extra && ACK !in extra
  {
    var created := CreateReceipt(key, agent, taskRef, refs, outcome, timestamp, extra);
    CreatedReceiptAudits(key, agent, taskRef, refs, outcome, timestamp, extra);
    AckKeepsReceiverSignature(created, Sig(SignInitiatorAck(created, initiator)), PublicOf(key));
    assert MakeBilateral(created, initiator) - {ACK} == created - {ACK};
  }

  // ---------- The receipt directory ----------

  datatype File = File(name: string, receipt: Dict)

  function Dashed(s: string): string {
    if s == [] then [] else [if s[0] == ':' then '-' else s[0]] + Dashed(s[1..])
  }

  function TextOf(receipt: Dict, key: string): string {
    if key in receipt && receipt[key].Text? then receipt[key].text else "unknown"
  }

  function NameOf(receipt: Dict): string {
    var ref := TextOf(receipt, "task_ref");
    Dashed(TextOf(receipt, "timestamp")) + "-" + (if |ref| <= 8 then ref else ref[..8])
  }

  // Files in name order; saving replaces the file of the same name or inserts a new one.
  function Save(files: seq<File>, receipt: Dict): seq<File> {
    var name := NameOf(receipt);
    if files == [] || (StringLe(name, files[0].name) && name != files[0].name) then [File(name, receipt)] + files
    else if files[0].name == name then [File(name, receipt)] + files[1..]
    else [files[0]] + Save(files[1..], receipt)
  }

  ghost predicate WellNamed(files: seq<File>) {
    && (forall i :: 0 <= i < |files| ==> files[i].name == NameOf(files[i].receipt))
    && (forall i, j :: 0 <= i < j < |files| ==> StringLe(files[i].name, files[j].name) && files[i].name != files[j].name)
  }

  ghost predicate HasName(files: seq<File>, name: string) {
    exists f :: f in files && f.name == name
  }

  lemma {:induction false} SaveMembers(files: seq<File>, receipt: Dict)
    requires WellNamed(files)
    ensures forall f :: f in Save(files, receipt) <==> f == File(NameOf(receipt), receipt) || (f in files && f.name != NameOf(receipt))
  {
    var name := NameOf(receipt);
    if files != [] {
      assert files == [files[0]] + files[1..];
      StringLeTotalOrder(name, files[0].name, "");
      if StringLe(name, files[0].name) {
        NamedBelow(files, name);
      } else {
        SaveMembers(files[1..], receipt);
      }
    }
  }

  lemma {:induction false} Prepended(h: File, rest: seq<File>)
    requires WellNamed(rest) && h.name == NameOf(h.receipt)
    requires forall f :: f in rest ==> StringLe(h.name, f.name) && h.name != f.name
    ensures WellNamed([h] + rest)
  {
    forall i | 0 <= i < |rest| ensures StringLe(h.name, rest[i].name) && h.name != rest[i].name {
      assert rest[i] in rest;
    }
  }

  lemma {:induction false} SaveKeepsOrder(files: seq<File>, receipt: Dict)
    requires WellNamed(files)
    ensures WellNamed(Save(files, receipt))
  {
    var name := NameOf(receipt);
    if files != [] {
      StringLeTotalOrder(name, files[0].name, "");
      if StringLe(name, files[0].name) {
        NamedBelow(files, name);
        Prepended(File(name, receipt), if name == files[0].name then files[1..] else files);
      } else {
        SaveKeepsOrder(files[1..], receipt);
        SaveMembers(files[1..], receipt);
        Prepended(files[0], Save(files[1..], receipt));
      }
    }
  }

  lemma {:induction false} SaveCount(files: seq<File>, receipt: Dict)
    requires WellNamed(files)
    ensures |Save(files, receipt)| == |files| + if HasName(files, NameOf(receipt)) then 0 else 1
  {
    var name := NameOf(receipt);
    if files != [] {
      assert files == [files[0]] + files[1..];
      StringLeTotalOrder(name, files[0].name, "");
      if StringLe(name, files[0].name) {
        NamedBelow(files, name);
      } else {
        SaveCount(files[1..], receipt);
        assert HasName(files, name) <==> HasName(files[1..], name);
      }
    }
  }

  // Saving adds one file exactly when the name is new; every file of another name is untouched.
  lemma {:induction false} SaveAddsOrReplaces(files: seq<File>, receipt: Dict)
    requires WellNamed(files)
    ensures WellNamed(Save(files, receipt))
    ensures forall f :: f in Save(files, receipt) <==> f == File(NameOf(receipt), receipt) || (f in files && f.name != NameOf(receipt))
    ensures |Save(files, receipt)| == |files| + if HasName(files, NameOf(receipt)) then 0 else 1
  {
    SaveKeepsOrder(files, receipt);
    SaveMembers(files, receipt);
    SaveCount(files, receipt);
  }

  // A name at or before the first file's comes before all the others.
  lemma {:induction false} NamedBelow(files: seq<File>, name: string)
    requires WellNamed(files) && files != [] && StringLe(name, files[0].name)
    ensures forall f :: f in files[1..] ==> StringLe(name, f.name) && name != f.name
  {
    forall f | f in files[1..] ensures StringLe(name, f.name) && name != f.name {
      StringLeTotalOrder(name, files[0].name, f.name);
      StringLeTotalOrder(files[0].name, f.name, "");
    }
  }

  // The directory after saving receipts in turn.
  ghost function SaveAll(receipts: seq<Dict>): seq<File> {
    if receipts == [] then [] else Save(SaveAll(receipts[..|receipts| - 1]), receipts[|receipts| - 1])
  }

  ghost function Names(receipts: seq<Dict>): seq<string> {
    if receipts == [] then [] else Names(receipts[..|receipts| - 1]) + [NameOf(receipts[|receipts| - 1])]
  }

  ghost predicate AllDiffer(names: seq<string>) {
    forall i, j :: 0 <= i < j < |names| ==> names[i] != names[j]
  }

  lemma {:induction false} SavedNames(receipts: seq<Dict>, name: string)
    ensures WellNamed(SaveAll(receipts)) && (HasName(SaveAll(receipts), name) <==> name in Names(receipts))
  {
    if receipts != [] {
      var n := |receipts| - 1;
      SavedNames(receipts[..n], name);
      SaveAddsOrReplaces(SaveAll(receipts[..n]), receipts[n]);
      NamesAfterSave(SaveAll(receipts[..n]), receipts[n], name);
    }
  }

  lemma {:induction false} OneFileMore(receipts: seq<Dict>)
    requires receipts != []
    ensures var init, name := receipts[..|receipts| - 1], NameOf(receipts[|receipts| - 1]);
      |SaveAll(receipts)| == |SaveAll(init)| + if name in Names(init) then 0 else 1
  {
    var n := |receipts| - 1;
    SavedNames(receipts[..n], NameOf(receipts[n]));
    SaveCount(SaveAll(receipts[..n]), receipts[n]);
  }

  // It has a file for each receipt exactly when their names differ: the same timestamp and the same first
  // eight characters of the task id lose one.
  lemma {:induction false} OneFileEachIff(receipts: seq<Dict>)
    ensures |SaveAll(receipts)| <= |receipts| && |Names(receipts)| == |receipts|
    ensures |SaveAll(receipts)| == |receipts| <==> AllDiffer(Names(receipts))
  {
    if receipts != [] {
      var n := |receipts| - 1;
      OneFileEachIff(receipts[..n]);
      OneFileMore(receipts);
      OneMore(Names(receipts[..n]), NameOf(receipts[n]));
    }
  }

  lemma {:induction false} OneMore(names: seq<string>, name: string)
    ensures AllDiffer(names + [name]) <==> AllDiffer(names) && name !in names
  {
    if AllDiffer(names + [name]) {
      forall i, j | 0 <= i < j < |names| ensures names[i] != names[j] {
        assert (names + [name])[i] == names[i] && (names + [name])[j] == names[j];
      }
      forall i | 0 <= i < |names| ensures names[i] != name {
        assert (names + [name])[i] == names[i] && (names + [name])[|names|] == name;
      }
    }
  }

  lemma {:induction false} NamesAfterSave(files: seq<File>, receipt: Dict, name: string)
    requires WellNamed(files)
    ensures HasName(Save(files, receipt), name) <==> HasName(files, name) || name == NameOf(receipt)
  {
    SaveMembers(files, receipt);
    if name == NameOf(receipt) {
      assert File(name, receipt) in Save(files, receipt);
    } else if HasName(files, name) {
      var f :| f in files && f.name == name;
      assert f in Save(files, receipt);
    }
  }

  // ---------- INITIATOR_ACK ----------

  datatype AckBody = AckBody(id: string, from: AgentId, identityDoc: Option<Identity.Document>, taskRef: string, ack: Option<Signature<Dict>>)

  datatype AckMessage = AckMessage(body: AckBody, signature: Signature<AckBody>)

  datatype AckReply = AckFault(code: string) | Bilateral(idempotent: bool)

  ghost predicate FirstWith(files: seq<File>, taskRef: string, i: int) {
    && 0 <= i < |files| && TaskRefIs(files[i].receipt, taskRef)
    && forall j :: 0 <= j < i ==> !TaskRefIs(files[j].receipt, taskRef)
  }

  predicate TaskRefIs(receipt: Dict, taskRef: string) {
    "task_ref" in receipt && receipt["task_ref"] == Text(taskRef)
  }

  function AckSender(peers: PeerCache.Peers, m: AckMessage): PeerCache.Lookup {
    var known := PeerCache.ResolveKey(peers, m.body.from);
    if known.None? && m.body.identityDoc.Some? then PeerCache.Tofu(peers, m.body.from, m.body.identityDoc.value)
    else PeerCache.Lookup(peers, known)
  }

  // The ack names a stored task and either is already on its first receipt or signs that receipt.
  ghost predicate Closes(files: seq<File>, body: AckBody, sender: PublicKey) {
    body.taskRef != "" && body.ack.Some? && exists i ::
      && FirstWith(files, body.taskRef, i)
      && ((ACK in files[i].receipt && files[i].receipt[ACK] == Sig(body.ack.value))
          || body.ack.value == Signed(sender, files[i].receipt - {ACK}))
  }

  // The first receipt of the task carries the ack and differs in that field at most, its
  // receiver signature audits as before, and every other file is as it was.
  ghost predicate ClosedAt(before: seq<File>, after: seq<File>, taskRef: string, ack: Signature<Dict>, i: int) {
    && FirstWith(before, taskRef, i)
    && after == before[i := File(before[i].name, before[i].receipt[ACK := Sig(ack)])]
    && forall k :: ReceiverSigned(after[i].receipt, k) <==> ReceiverSigned(before[i].receipt, k)
  }

  lemma {:induction false} MergeCloses(files: seq<File>, taskRef: string, ack: Signature<Dict>, i: nat)
    requires WellNamed(files) && FirstWith(files, taskRef, i)
    ensures var after := Save(files, files[i].receipt[ACK := Sig(ack)]);
      WellNamed(after) && ClosedAt(files, after, taskRef, ack, i)
  {
    var receipt := files[i].receipt;
    var merged := receipt[ACK := Sig(ack)];
    forall k ensures ReceiverSigned(merged, k) <==> ReceiverSigned(receipt, k) {
      AckKeepsReceiverSignature(receipt, Sig(ack), k);
    }
    MergedKeepsName(receipt, Sig(ack));
    SaveInPlace(files, i, merged);
    SaveAddsOrReplaces(files, merged);
  }

  class ReceiptKeeper {
    const agent: string
    const key: PrivateKey
    var files: seq<File>
    var peers: PeerCache.Peers

    ghost predicate Valid()
      reads this
    {
      WellNamed(files)
    }

    constructor (agent: string, key: PrivateKey)
      ensures Valid() && files == [] && peers == map[] && this.agent == agent && this.key == key
    {
      this.agent, this.key := agent, key;
      files, peers := [], map[];
    }

    method Fault(m: AckMessage, code: string, now: string, resId: string) returns (r: AckReply)
      requires Valid()
      modifies this`files
      ensures Valid() && r == AckFault(code)
      ensures files == Save(old(files), CreateReceipt(key, agent, m.body.id, [m.body.id, resId], "failed", now, map[]))
    {
      var receipt := BuildReceipt(key, agent, m.body.id, [m.body.id, resId], "failed", now, map[]);
      SaveAddsOrReplaces(files, receipt);
      files := Save(files, receipt);
      return AckFault(code);
    }

    method FindReceipt(taskRef: string) returns (i: nat)
      ensures i <= |files| && (i < |files| ==> FirstWith(files, taskRef, i))
      ensures i == |files| ==> forall j :: 0 <= j < |files| ==> !TaskRefIs(files[j].receipt, taskRef)
    {
      i := 0;
      while i < |files| && !TaskRefIs(files[i].receipt, taskRef)
        invariant i <= |files|
        invariant forall j :: 0 <= j < i ==> !TaskRefIs(files[j].receipt, taskRef)
      {
        i := i + 1;
      }
    }

    // The receipt part of the handler, for a sender whose envelope verified.
    method MergeAck(m: AckMessage, sender: PublicKey, now: string, resId: string) returns (r: AckReply)
      requires Valid()
      modifies this`files
      ensures Valid()
      ensures r.AckFault? ==> files == Save(old(files), CreateReceipt(key, agent, m.body.id, [m.body.id, resId], "failed", now, map[]))
      ensures r.Bilateral? <==> Closes(old(files), m.body, sender)
      ensures r.Bilateral? ==> exists i ::
        && ClosedAt(old(files), files, m.body.taskRef, m.body.ack.value, i)
        && (if r.idempotent then files == old(files) else InitiatorSigned(files[i].receipt, sender))
    {
      if m.body.taskRef == "" || m.body.ack.None? {
        r := Fault(m, "pact_token_malformed", now, resId);
        return;
      }
      var i := FindReceipt(m.body.taskRef);
      if i == |files| {
        r := Fault(m, "pact_token_missing", now, resId);
        return;
      }
      r := CloseReceipt(m, sender, i, now, resId);
    }

    // The task's first receipt: already closed by this ack, closed now, or the ack does not sign it.
    method CloseReceipt(m: AckMessage, sender: PublicKey, i: nat, now: string, resId: string) returns (r: AckReply)
      requires Valid() && m.body.taskRef != "" && m.body.ack.Some? && FirstWith(files, m.body.taskRef, i)
      modifies this`files
      ensures Valid()
      ensures r.AckFault? ==> files == Save(old(files), CreateReceipt(key, agent, m.body.id, [m.body.id, resId], "failed", now, map[]))
      ensures r.Bilateral? <==> Closes(old(files), m.body, sender)
      ensures r.Bilateral? ==>
        && ClosedAt(old(files), files, m.body.taskRef, m.body.ack.value, i)
        && (if r.idempotent then files == old(files) else InitiatorSigned(files[i].receipt, sender))
    {
      var receipt, ack := files[i].receipt, m.body.ack.value;
      if ACK in receipt && receipt[ACK] == Sig(ack) {
        assert receipt[ACK := Sig(ack)] == receipt;
        assert ClosedAt(files, files, m.body.taskRef, ack, i);
        return Bilateral(true);
      }
      if !Verify(receipt - {ACK}, ack, sender) {
        r := Fault(m, "pact_signature_invalid", now, resId);
        return;
      }
      var merged := receipt[ACK := Sig(ack)];
      MergeCloses(files, m.body.taskRef, ack, i);
      assert merged - {ACK} == receipt - {ACK};
      files := Save(files, merged);
      assert files[i].receipt == merged;
      return Bilateral(false);
    }

    // A fault adds a failed receipt for the ack message itself; success closes one receipt.
    method HandleInitiatorAck(m: AckMessage, now: string, resId: string) returns (r: AckReply)
      requires Valid()
      modifies this
      ensures Valid()
      ensures r.AckFault? ==> files == Save(old(files), CreateReceipt(key, agent, m.body.id, [m.body.id, resId], "failed", now, map[]))
      ensures peers == AckSender(old(peers), m).peers
      ensures var sender := AckSender(old(peers), m).key;
        r.Bilateral? <==> sender.Some? && Verify(m.body, m.signature, sender.value) && Closes(old(files), m.body, sender.value)
      ensures r.Bilateral? ==> exists i ::
        && ClosedAt(old(files), files, m.body.taskRef, m.body.ack.value, i)
        && (if r.idempotent then files == old(files) else InitiatorSigned(files[i].receipt, AckSender(old(peers), m).key.value))
    {
      var sender := PeerCache.ResolveKey(peers, m.body.from);
      if sender.None? && m.body.identityDoc.Some? {
        var l := PeerCache.Tofu(peers, m.body.from, m.body.identityDoc.value);
        peers, sender := l.peers, l.key;
      }
      if sender.None? {
        r := Fault(m, "pact_identity_unresolvable", now, resId);
        return;
      }
      if !Verify(m.body, m.signature, sender.value) {
        r := Fault(m, "pact_signature_invalid", now, resId);
        return;
      }
      r := MergeAck(m, sender.value, now, resId);
    }
  }

  lemma {:induction false} MergedKeepsName(receipt: Dict, ack: Val)
    ensures NameOf(receipt[ACK := ack]) == NameOf(receipt)
  {
    assert |ACK| == 23 && |"task_ref"| == 8 && |"timestamp"| == 9;
  }

  lemma {:induction false} SaveInPlace(files: seq<File>, i: nat, receipt: Dict)
    requires WellNamed(files) && i < |files| && NameOf(receipt) == files[i].name
    ensures Save(files, receipt) == files[i := File(files[i].name, receipt)]
  {
    var after := files[i := File(files[i].name, receipt)];
    if i == 0 {
      assert after == [after[0]] + files[1..];
    } else {
      StringLeTotalOrder(files[0].name, files[i].name, "");
      SaveInPlace(files[1..], i - 1, receipt);
      assert after == [files[0]] + after[1..];
    }
  }
}
