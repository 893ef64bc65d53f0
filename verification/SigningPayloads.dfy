// The text that holder proofs sign: canonical JSON of flat string objects, strings escaped
// to ASCII as in section 7 of RFC 8259. Strings are sequences of Unicode scalar values.
module SigningPayloads {
  import opened Wrappers
  import opened Crypto
  import opened CaveatValues

  // ---------- Printing ----------

  function HexDigit(n: nat): char
    requires n < 16
  {
    if n < 10 then ('0' as int + n) as char else ('a' as int + n - 10) as char
  }

  function Hex4(n: nat): string
    requires n < 0x10000
  {
    [HexDigit(n / 4096), HexDigit(n / 256 % 16), HexDigit(n / 16 % 16), HexDigit(n % 16)]
  }

  function EscapeChar(c: char): string {
    if c == '"' then "\\\""
    else if c == '\\' then "\\\\"
    else if c == '\n' then "\\n"
    else if c == '\r' then "\\r"
    else if c == '\t' then "\\t"
    else if c == '\U{8}' then "\\b"
    else if c == '\U{C}' then "\\f"
    else if ' ' <= c <= '~' then [c]
    else
      var n := c as int;
      if n < 0x10000 then "\\u" + Hex4(n)
      else "\\u" + Hex4(0xD800 + (n - 0x10000) / 0x400) + "\\u" + Hex4(0xDC00 + (n - 0x10000) % 0x400)
  }

  function Escape(s: string): string {
    if s == [] then [] else EscapeChar(s[0]) + Escape(s[1..])
  }

  datatype Field = Field(key: string, value: string)

  function Quote(s: string): string {
    "\"" + Escape(s) + "\""
  }

  function Members(fs: seq<Field>): string {
    if fs == [] then ""
    else Quote(fs[0].key) + ":" + Quote(fs[0].value) + (if |fs| == 1 then "" else "," + Members(fs[1..]))
  }

  function PrintObject(fs: seq<Field>): string {
    "{" + Members(fs) + "}"
  }

  function InsertField(f: Field, fs: seq<Field>): seq<Field> {
    if fs == [] || StringLe(f.key, fs[0].key) then [f] + fs else [fs[0]] + InsertField(f, fs[1..])
  }

  function SortFields(fs: seq<Field>): seq<Field> {
    if fs == [] then [] else InsertField(fs[0], SortFields(fs[1..]))
  }

  // Canonical JSON of a flat dict given in insertion order: keys sorted, no whitespace, ASCII only.
  function CanonicalJson(fs: seq<Field>): string {
    PrintObject(SortFields(fs))
  }

  // ---------- Reading back ----------

  function HexValue(c: char): Option<nat> {
    if '0' <= c <= '9' then Some(c as int - '0' as int)
    else if 'a' <= c <= 'f' then Some(c as int - 'a' as int + 10)
    else if 'A' <= c <= 'F' then Some(c as int - 'A' as int + 10)
    else None
  }

  function ReadHex4(s: string): (r: Option<nat>)
    ensures r.Some? ==> |s| >= 4 && r.value < 0x10000
  {
    if |s| < 4 then None
    else
      var a, b, c, d := HexValue(s[0]), HexValue(s[1]), HexValue(s[2]), HexValue(s[3]);
      if a.Some? && b.Some? && c.Some? && d.Some? && a.value < 16 && b.value < 16 && c.value < 16 && d.value < 16
      then Some(a.value * 4096 + b.value * 256 + c.value * 16 + d.value) else None
  }

  datatype Read = Read(c: char, used: nat)

  // One character of a JSON string body, with the number of input characters it takes.
  function ReadChar(s: string): (r: Option<Read>)
    ensures r.Some? ==> 1 <= r.value.used <= |s|
  {
    if s == [] || s[0] == '"' || s[0] < ' ' then None
    else if s[0] != '\\' then Some(Read(s[0], 1))
    else if |s| == 1 then None
    else match s[1]
      case '"' => Some(Read('"', 2))
      case '\\' => Some(Read('\\', 2))
      case '/' => Some(Read('/', 2))
      case 'n' => Some(Read('\n', 2))
      case 'r' => Some(Read('\r', 2))
      case 't' => Some(Read('\t', 2))
      case 'b' => Some(Read('\U{8}', 2))
      case 'f' => Some(Read('\U{C}', 2))
      case 'u' => ReadUnicode(s)
      case _ => None
  }

  function ReadUnicode(s: string): (r: Option<Read>)
    requires |s| >= 2
    ensures r.Some? ==> 1 <= r.value.used <= |s|
  {
    var hi := ReadHex4(s[2..]);
    if hi.None? then None
    else if !(0xD800 <= hi.value < 0xE000) then Some(Read(hi.value as char, 6))
    else if hi.value >= 0xDC00 || |s| < 12 || s[6] != '\\' || s[7] != 'u' then None
    else
      var lo := ReadHex4(s[8..]);
      if lo.None? || !(0xDC00 <= lo.value < 0xE000) then None
      else Some(Read((0x10000 + (hi.value - 0xD800) * 0x400 + (lo.value - 0xDC00)) as char, 12))
  }

  datatype Parsed<T> = Parsed(value: T, rest: string)

  // A string body up to and including its closing quote.
  function ReadBody(s: string): (r: Option<Parsed<string>>)
    ensures r.Some? ==> |r.value.rest| < |s|
    decreases |s|
  {
    if s == [] then None
    else if s[0] == '"' then Some(Parsed("", s[1..]))
    else
      var c := ReadChar(s);
      if c.None? then None
      else
        var tail := ReadBody(s[c.value.used..]);
        if tail.None? then None else Some(Parsed([c.value.c] + tail.value.value, tail.value.rest))
  }

  function ReadQuoted(s: string): (r: Option<Parsed<string>>)
    ensures r.Some? ==> |r.value.rest| < |s|
  {
    if s != [] && s[0] == '"' then ReadBody(s[1..]) else None
  }

  function ReadMembers(s: string): Option<Parsed<seq<Field>>>
    decreases |s|
  {
    var k := ReadQuoted(s);
    if k.None? || k.value.rest == [] || k.value.rest[0] != ':' then None
    else
      var v := ReadQuoted(k.value.rest[1..]);
      if v.None? then None
      else
        var f := Field(k.value.value, v.value.value);
        if v.value.rest != [] && v.value.rest[0] == ',' then
          var tail := ReadMembers(v.value.rest[1..]);
          if tail.None? then None else Some(Parsed([f] + tail.value.value, tail.value.rest))
        else Some(Parsed([f], v.value.rest))
  }

  function ReadObject(s: string): Option<seq<Field>> {
    if s == "{}" then Some([])
    else if s == [] || s[0] != '{' then None
    else
      var ms := ReadMembers(s[1..]);
      if ms.Some? && ms.value.rest == "}" then Some(ms.value.value) else None
  }

  // ---------- Round trip ----------

  lemma {:induction false} Hex4Digits(n: nat)
    requires n < 0x10000
    ensures n / 4096 < 16 && n / 4096 * 4096 + n / 256 % 16 * 256 + n / 16 % 16 * 16 + n % 16 == n
  {
    assert n / 256 == n / 4096 * 16 + n / 256 % 16;
    assert n / 16 == n / 256 * 16 + n / 16 % 16;
  }

  lemma {:induction false} DigitRoundTrip(n: nat)
    requires n < 16
    ensures HexValue(HexDigit(n)) == Some(n)
  {
  }

  lemma {:induction false} Hex4RoundTrip(n: nat, r: string)
    requires n < 0x10000
    ensures ReadHex4(Hex4(n) + r) == Some(n)
  {
    var s := Hex4(n) + r;
    var a, b, c, d := n / 4096, n / 256 % 16, n / 16 % 16, n % 16;
    assert s[0] == HexDigit(a) && s[1] == HexDigit(b) && s[2] == HexDigit(c) && s[3] == HexDigit(d);
    DigitRoundTrip(a);
    DigitRoundTrip(b);
    DigitRoundTrip(c);
    DigitRoundTrip(d);
    Hex4Digits(n);
  }

  predicate Short(c: char) {
    ' ' <= c <= '~' || c == '\n' || c == '\r' || c == '\t' || c == '\U{8}' || c == '\U{C}'
  }

  lemma {:induction false} ShortRoundTrip(c: char, r: string)
    requires Short(c)
    ensures ReadChar(EscapeChar(c) + r) == Some(Read(c, |EscapeChar(c)|))
    ensures EscapeChar(c)[0] != '"'
  {
  }

  lemma {:induction false} UnitRoundTrip(n: nat, r: string)
    requires n < 0xD800 || 0xE000 <= n < 0x10000
    ensures ReadChar("\\u" + Hex4(n) + r) == Some(Read(n as char, 6))
  {
    var s := "\\u" + Hex4(n) + r;
    assert s[2..] == Hex4(n) + r;
    Hex4RoundTrip(n, r);
  }

  lemma {:induction false} PairRoundTrip(hi: nat, lo: nat, text: string, r: string)
    requires 0xD800 <= hi < 0xDC00 && 0xDC00 <= lo < 0xE000
    requires text == "\\u" + Hex4(hi) + "\\u" + Hex4(lo)
    ensures ReadChar(text + r) == Some(Read((0x10000 + (hi - 0xD800) * 0x400 + (lo - 0xDC00)) as char, 12))
    ensures |text| == 12 && text[0] != '"'
  {
    var s := text + r;
    assert s[2..] == Hex4(hi) + ("\\u" + Hex4(lo) + r);
    assert s[8..] == Hex4(lo) + r;
    Hex4RoundTrip(hi, "\\u" + Hex4(lo) + r);
    Hex4RoundTrip(lo, r);
    assert s[6] == '\\' && s[7] == 'u' && |s| >= 12;
  }

  lemma {:induction false} Halves(m: nat)
    requires m < 0x100000
    ensures m / 0x400 < 0x400 && m % 0x400 < 0x400 && m / 0x400 * 0x400 + m % 0x400 == m
  {
  }

  lemma {:induction false} LongRoundTrip(c: char, hi: nat, lo: nat, r: string)
    requires c as int >= 0x10000 && 0xD800 <= hi < 0xDC00 && 0xDC00 <= lo < 0xE000
    requires hi == 0xD800 + (c as int - 0x10000) / 0x400 && lo == 0xDC00 + (c as int - 0x10000) % 0x400
    requires 0x10000 + (hi - 0xD800) * 0x400 + (lo - 0xDC00) == c as int
    ensures ReadChar(EscapeChar(c) + r) == Some(Read(c, |EscapeChar(c)|))
    ensures EscapeChar(c)[0] != '"'
  {
    PairRoundTrip(hi, lo, EscapeChar(c), r);
  }

  lemma {:induction false} CharRoundTrip(c: char, r: string)
    ensures ReadChar(EscapeChar(c) + r) == Some(Read(c, |EscapeChar(c)|))
    ensures EscapeChar(c)[0] != '"'
  {
    var n := c as int;
    if Short(c) {
      ShortRoundTrip(c, r);
    } else if n < 0x10000 {
      UnitRoundTrip(n, r);
    } else {
      Halves(n - 0x10000);
      LongRoundTrip(c, 0xD800 + (n - 0x10000) / 0x400, 0xDC00 + (n - 0x10000) % 0x400, r);
    }
  }

  lemma {:induction false} BodyRoundTrip(t: string, r: string)
    ensures ReadBody(Escape(t) + "\"" + r) == Some(Parsed(t, r))
  {
    var s := Escape(t) + "\"" + r;
    if t == [] {
      assert s[1..] == r;
    } else {
      var tail := Escape(t[1..]) + "\"" + r;
      assert s == EscapeChar(t[0]) + tail;
      CharRoundTrip(t[0], tail);
      BodyRoundTrip(t[1..], r);
      assert s[|EscapeChar(t[0])|..] == tail;
      assert [t[0]] + t[1..] == t;
    }
  }

  lemma {:induction false} DropHead(head: string, a: string, b: string, c: string)
    requires |head| == 1
    ensures (head + a + b + c)[0] == head[0] && (head + a + b + c)[1..] == a + b + c
  {
  }

  lemma {:induction false} Regroup(a: string, head: string, b: string, c: string)
    requires |head| == 1
    ensures a + (head + b) + c == a + (head + (b + c))
    ensures (head + (b + c))[0] == head[0] && (head + (b + c))[1..] == b + c
  {
  }

  lemma {:induction false} QuotedRoundTrip(t: string, r: string)
    ensures ReadQuoted(Quote(t) + r) == Some(Parsed(t, r))
  {
    BodyRoundTrip(t, r);
    DropHead("\"", Escape(t), "\"", r);
  }

  lemma {:induction false} MemberRoundTrip(k: string, v: string, after: string)
    ensures var s, mid := Quote(k) + ":" + Quote(v) + after, ":" + (Quote(v) + after);
      ReadQuoted(s) == Some(Parsed(k, mid)) && ReadQuoted(mid[1..]) == Some(Parsed(v, after))
  {
    var mid := ":" + (Quote(v) + after);
    assert Quote(k) + ":" + Quote(v) + after == Quote(k) + mid;
    QuotedRoundTrip(k, mid);
    assert mid[1..] == Quote(v) + after;
    QuotedRoundTrip(v, after);
  }

  function Prepend(f: Field, tail: Option<Parsed<seq<Field>>>): Option<Parsed<seq<Field>>> {
    if tail.None? then None else Some(Parsed([f] + tail.value.value, tail.value.rest))
  }

  lemma {:induction false} ReadOneMember(f: Field, after: string)
    requires after != []
    ensures ReadMembers(Quote(f.key) + ":" + Quote(f.value) + after) ==
      if after[0] != ',' then Some(Parsed([f], after)) else Prepend(f, ReadMembers(after[1..]))
  {
    MemberRoundTrip(f.key, f.value, after);
  }

  lemma {:induction false} LastMember(f: Field)
    ensures ReadMembers(Members([f]) + "}") == Some(Parsed([f], "}"))
  {
    assert Members([f]) == Quote(f.key) + ":" + Quote(f.value);
    ReadOneMember(f, "}");
  }

  lemma {:induction false} MoreMembers(f: Field, fs: seq<Field>, end: string)
    requires fs != []
    ensures ReadMembers(Members([f] + fs) + end) == Prepend(f, ReadMembers(Members(fs) + end))
  {
    Regroup(Quote(f.key) + ":" + Quote(f.value), ",", Members(fs), end);
    ReadOneMember(f, "," + (Members(fs) + end));
    assert ([f] + fs)[1..] == fs;
  }

  lemma {:induction false} MembersRoundTrip(fs: seq<Field>)
    requires fs != []
    ensures ReadMembers(Members(fs) + "}") == Some(Parsed(fs, "}"))
    decreases |fs|
  {
    if |fs| == 1 {
      assert fs == [fs[0]];
      LastMember(fs[0]);
    } else {
      assert [fs[0]] + fs[1..] == fs;
      MembersRoundTrip(fs[1..]);
      MoreMembers(fs[0], fs[1..], "}");
    }
  }

  // Every printed flat object reads back as exactly its fields.
  lemma {:induction false} ObjectRoundTrip(fs: seq<Field>)
    ensures ReadObject(PrintObject(fs)) == Some(fs)
  {
    var s := PrintObject(fs);
    if fs != [] {
      assert s[1..] == Members(fs) + "}";
      assert Members(fs)[0] == '"';
      MembersRoundTrip(fs);
    }
  }

  // ---------- The two signed payloads ----------

  const DOMAIN := "domain"
  const REQ_ID := "req_id"
  const CAP_ID := "cap_id"
  const TO_AGENT := "to_agent"
  const NONCE := "nonce"
  const HOLDER_DOMAIN := "pact/hp/v1"
  const VISA_DOMAIN := "pact/visa/v1"

  function CapText(capId: Option<string>): string {
    if capId.Some? then capId.value else ""
  }

  function HolderProofPayload(reqId: string, capId: Option<string>, toAgent: string): string {
    CanonicalJson([Field(DOMAIN, HOLDER_DOMAIN), Field(REQ_ID, reqId), Field(CAP_ID, CapText(capId)), Field(TO_AGENT, toAgent)])
  }

  function VisaUsePayload(nonce: string): string {
    CanonicalJson([Field(DOMAIN, VISA_DOMAIN), Field(NONCE, nonce)])
  }

  lemma {:induction false} KeyOrder()
    ensures StringLe("cap_id", "to_agent") && !StringLe("req_id", "cap_id") && StringLe("req_id", "to_agent")
    ensures !StringLe("domain", "cap_id") && StringLe("domain", "req_id") && StringLe("domain", "nonce")
  {
    assert "cap_id"[0] == 'c' && "domain"[0] == 'd' && "nonce"[0] == 'n' && "req_id"[0] == 'r' && "to_agent"[0] == 't';
  }

  lemma {:induction false} HolderFieldsSorted(d: Field, q: Field, c: Field, a: Field)
    requires d.key == "domain" && q.key == "req_id" && c.key == "cap_id" && a.key == "to_agent"
    ensures SortFields([d, q, c, a]) == [c, d, q, a]
  {
    KeyOrder();
    assert [d, q, c, a][1..] == [q, c, a] && [q, c, a][1..] == [c, a] && [c, a][1..] == [a] && [a][1..] == [];
    assert SortFields([a]) == [a];
    assert SortFields([c, a]) == [c, a];
    assert InsertField(q, [a]) == [q, a];
    assert SortFields([q, c, a]) == [c] + InsertField(q, [a]);
    assert SortFields([q, c, a]) == [c, q, a];
    assert [c, q, a][1..] == [q, a] && InsertField(d, [q, a]) == [d, q, a];
  }

  lemma {:induction false} HolderFields(reqId: string, capId: Option<string>, toAgent: string)
    ensures ReadObject(HolderProofPayload(reqId, capId, toAgent)) ==
      Some([Field("cap_id", CapText(capId)), Field("domain", "pact/hp/v1"), Field("req_id", reqId), Field("to_agent", toAgent)])
  {
    var d, q, c, a := Field("domain", "pact/hp/v1"), Field("req_id", reqId), Field("cap_id", CapText(capId)), Field("to_agent", toAgent);
    HolderFieldsSorted(d, q, c, a);
    ObjectRoundTrip([c, d, q, a]);
  }

  lemma {:induction false} VisaFields(nonce: string)
    ensures ReadObject(VisaUsePayload(nonce)) == Some([Field("domain", "pact/visa/v1"), Field("nonce", nonce)])
  {
    var d, n := Field("domain", "pact/visa/v1"), Field("nonce", nonce);
    KeyOrder();
    assert [d, n][1..] == [n] && [n][1..] == [];
    assert SortFields([n]) == [n];
    assert SortFields([d, n]) == [d, n];
    ObjectRoundTrip([d, n]);
  }

  // Holder-proof text determines the request, the capability (none read as empty) and the receiver.
  lemma {:induction false} HolderPayloadInjective(r1: string, c1: Option<string>, t1: string, r2: string, c2: Option<string>, t2: string)
    ensures HolderProofPayload(r1, c1, t1) == HolderProofPayload(r2, c2, t2) <==> r1 == r2 && CapText(c1) == CapText(c2) && t1 == t2
  {
    HolderFields(r1, c1, t1);
    HolderFields(r2, c2, t2);
    var f1 := ReadObject(HolderProofPayload(r1, c1, t1)).value;
    var f2 := ReadObject(HolderProofPayload(r2, c2, t2)).value;
    assert f1[0].value == CapText(c1) && f1[2].value == r1 && f1[3].value == t1;
    assert f2[0].value == CapText(c2) && f2[2].value == r2 && f2[3].value == t2;
  }

  // Visa-use text determines the nonce.
  lemma {:induction false} VisaPayloadInjective(n1: string, n2: string)
    ensures VisaUsePayload(n1) == VisaUsePayload(n2) <==> n1 == n2
  {
    VisaFields(n1);
    VisaFields(n2);
    assert ReadObject(VisaUsePayload(n1)).value[1].value == n1;
    assert ReadObject(VisaUsePayload(n2)).value[1].value == n2;
  }

  // No text is both.
  lemma {:induction false} PayloadsDisjoint(r: string, c: Option<string>, t: string, n: string)
    ensures HolderProofPayload(r, c, t) != VisaUsePayload(n)
  {
    HolderFields(r, c, t);
    VisaFields(n);
    assert |ReadObject(HolderProofPayload(r, c, t)).value| == 4 && |ReadObject(VisaUsePayload(n)).value| == 2;
  }

  // ---------- Proof verification ----------

  predicate VerifyHolderProof(proof: Option<Signature<string>>, reqId: string, capId: Option<string>, toAgent: string,
                              key: PublicKey, allowLegacy: bool) {
    proof.Some? && (Verify(HolderProofPayload(reqId, capId, toAgent), proof.value, key)
                    || (allowLegacy && Verify(reqId, proof.value, key)))
  }

  predicate VerifyVisaHolderProof(proof: Option<Signature<string>>, nonce: string, key: PublicKey, allowLegacy: bool) {
    proof.Some? && nonce != "" && (Verify(VisaUsePayload(nonce), proof.value, key) || (allowLegacy && Verify(nonce, proof.value, key)))
  }

  // With the legacy form off, a proof is accepted for a request exactly when its holder made it
  // for that request, capability and receiver; a visa-use proof never is.
  lemma {:induction false} AcceptedHolderProofIsForThisRequest(key: PrivateKey, r: string, c: Option<string>, t: string, n: string,
                                            reqId: string, capId: Option<string>, toAgent: string)
    ensures VerifyHolderProof(Some(Sign(HolderProofPayload(r, c, t), key)), reqId, capId, toAgent, PublicOf(key), false)
      <==> r == reqId && CapText(c) == CapText(capId) && t == toAgent
    ensures !VerifyHolderProof(Some(Sign(VisaUsePayload(n), key)), reqId, capId, toAgent, PublicOf(key), false)
  {
    HolderPayloadInjective(r, c, t, reqId, capId, toAgent);
    PayloadsDisjoint(reqId, capId, toAgent, n);
  }

  // Likewise a visa-use proof is accepted exactly for the nonce it was made for, a holder proof never.
  lemma {:induction false} AcceptedVisaProofIsForThisNonce(key: PrivateKey, n: string, nonce: string, r: string, c: Option<string>, t: string)
    ensures nonce != "" ==>
      (VerifyVisaHolderProof(Some(Sign(VisaUsePayload(n), key)), nonce, PublicOf(key), false) <==> n == nonce)
    ensures !VerifyVisaHolderProof(Some(Sign(HolderProofPayload(r, c, t), key)), nonce, PublicOf(key), false)
  {
    VisaPayloadInjective(n, nonce);
    PayloadsDisjoint(r, c, t, nonce);
  }

  // A request id that is not itself a JSON object is never mistaken for a structured payload.
  lemma {:induction false} BareTextIsNoPayload(text: string, r: string, c: Option<string>, t: string, n: string)
    requires ReadObject(text).None?
    ensures HolderProofPayload(r, c, t) != text && VisaUsePayload(n) != text
  {
    HolderFields(r, c, t);
    VisaFields(n);
  }

  // With the legacy form on, the only other proof accepted is one over the bare request id, for any capability and receiver.
  lemma {:induction false} LegacyAddsOnlyTheBareId(key: PrivateKey, text: string, reqId: string, capId: Option<string>, toAgent: string)
    ensures VerifyHolderProof(Some(Sign(text, key)), reqId, capId, toAgent, PublicOf(key), true)
      <==> text == HolderProofPayload(reqId, capId, toAgent) || text == reqId
  {
  }

  lemma {:induction false} LegacyAddsOnlyTheBareNonce(key: PrivateKey, text: string, nonce: string)
    requires nonce != ""
    ensures VerifyVisaHolderProof(Some(Sign(text, key)), nonce, PublicOf(key), true) <==> text == VisaUsePayload(nonce) || text == nonce
  {
  }

  // With the legacy form on, as the dispatcher has it, a structured proof is accepted for its own request, capability and
  // receiver, and for a request whose id is the proof's whole text, which only an id that is itself a JSON object can be.
  lemma {:induction false} LegacyKeepsHolderProofsBound(key: PrivateKey, r: string, c: Option<string>, t: string,
                                                        reqId: string, capId: Option<string>, toAgent: string)
    ensures VerifyHolderProof(Some(Sign(HolderProofPayload(r, c, t), key)), reqId, capId, toAgent, PublicOf(key), true)
      <==> (r == reqId && CapText(c) == CapText(capId) && t == toAgent) || HolderProofPayload(r, c, t) == reqId
    ensures HolderProofPayload(r, c, t) == reqId ==> ReadObject(reqId).Some?
  {
    LegacyAddsOnlyTheBareId(key, HolderProofPayload(r, c, t), reqId, capId, toAgent);
    HolderPayloadInjective(r, c, t, reqId, capId, toAgent);
    if ReadObject(reqId).None? {
      BareTextIsNoPayload(reqId, r, c, t, "");
    }
  }

  // Likewise for a visa-use proof and the nonce.
  lemma {:induction false} LegacyKeepsVisaProofsBound(key: PrivateKey, n: string, nonce: string)
    requires nonce != ""
    ensures VerifyVisaHolderProof(Some(Sign(VisaUsePayload(n), key)), nonce, PublicOf(key), true) <==> n == nonce || VisaUsePayload(n) == nonce
    ensures VisaUsePayload(n) == nonce ==> ReadObject(nonce).Some?
  {
    LegacyAddsOnlyTheBareNonce(key, VisaUsePayload(n), nonce);
    VisaPayloadInjective(n, nonce);
    if ReadObject(nonce).None? {
      BareTextIsNoPayload(nonce, "", None, "", n);
    }
  }

  // Neither kind of proof passes for the other where the bare text is no JSON object.
  lemma {:induction false} LegacyKeepsKindsApart(key: PrivateKey, r: string, c: Option<string>, t: string, n: string,
                                                 reqId: string, capId: Option<string>, toAgent: string)
    requires ReadObject(reqId).None?
    ensures !VerifyHolderProof(Some(Sign(VisaUsePayload(n), key)), reqId, capId, toAgent, PublicOf(key), true)
    ensures !VerifyVisaHolderProof(Some(Sign(HolderProofPayload(r, c, t), key)), reqId, PublicOf(key), true)
  {
    LegacyAddsOnlyTheBareId(key, VisaUsePayload(n), reqId, capId, toAgent);
    if reqId != "" {
      LegacyAddsOnlyTheBareNonce(key, HolderProofPayload(r, c, t), reqId);
    }
    PayloadsDisjoint(reqId, capId, toAgent, n);
    PayloadsDisjoint(r, c, t, reqId);
    BareTextIsNoPayload(reqId, r, c, t, n);
  }
}
