// Streaming transport: newline-delimited records inside HTTP chunked transfer coding
// (section 7.1 of RFC 9112), as the server writes them and the client reads them.
module Framing {
  import opened Wrappers

  type byte = b: int | 0 <= b < 256

  type Bytes = seq<byte>

  const LF: byte := 10
  const CRLF: Bytes := [13, 10]
  const LAST_CHUNK: Bytes := [48, 13, 10, 13, 10]

  // ---------- Server ----------

  function HexDigit(d: nat): byte
    requires d < 16
  {
    if d < 10 then 48 + d else 65 + d - 10
  }

  function HexUpper(n: nat): Bytes {
    if n < 16 then [HexDigit(n)] else HexUpper(n / 16) + [HexDigit(n % 16)]
  }

  function Frame(line: Bytes): Bytes {
    HexUpper(|line|) + CRLF + line + CRLF
  }

  function Frames(records: seq<Bytes>): Bytes {
    if records == [] then [] else Frame(records[0] + [LF]) + Frames(records[1..])
  }

  function Encode(records: seq<Bytes>): Bytes {
    Frames(records) + LAST_CHUNK
  }

  method SendStream(records: seq<Bytes>) returns (out: Bytes)
    ensures out == Encode(records)
  {
    out := [];
    for i := 0 to |records|
      invariant Frames(records) == out + Frames(records[i..])
    {
      var line := records[i] + [LF];
      ghost var before := out;
      out := out + (HexUpper(|line|) + CRLF);
      out := out + line;
      out := out + CRLF;
      assert records[i..][0] == records[i] && records[i..][1..] == records[i + 1..];
      assert out == before + Frame(line);
    }
    assert Frames(records) == out + [] == out;
    out := out + LAST_CHUNK;
  }

  // ---------- Chunked decoding ----------

  function HexValue(b: byte): Option<nat> {
    if 48 <= b <= 57 then Some(b - 48) else if 65 <= b <= 70 then Some(b - 55) else if 97 <= b <= 102 then Some(b - 87) else None
  }

  datatype Size = Size(n: nat, rest: Bytes)

  // A size line: hexadecimal digits, at least one, then CRLF.
  function ReadSize(s: Bytes, acc: nat, seen: bool): (r: Option<Size>)
    ensures r.Some? ==> |r.value.rest| < |s|
  {
    if s == [] then None
    else if HexValue(s[0]).Some? then ReadSize(s[1..], acc * 16 + HexValue(s[0]).value, true)
    else if seen && CRLF <= s then Some(Size(acc, s[2..]))
    else None
  }

  function DecodeChunked(s: Bytes): Option<Bytes>
    decreases |s|
  {
    var size := ReadSize(s, 0, false);
    if size.None? then None
    else
      var n, rest := size.value.n, size.value.rest;
      if n == 0 then (if rest == CRLF then Some([]) else None)
      else if |rest| < n + 2 || rest[n..n + 2] != CRLF then None
      else
        var tail := DecodeChunked(rest[n + 2..]);
        if tail.None? then None else Some(rest[..n] + tail.value)
  }

  // ---------- Client ----------

  predicate Space(b: byte) {
    b == 32 || 9 <= b <= 13
  }

  function StripLeft(s: Bytes): Bytes {
    if s != [] && Space(s[0]) then StripLeft(s[1..]) else s
  }

  function StripRight(s: Bytes): Bytes {
    if s != [] && Space(s[|s| - 1]) then StripRight(s[..|s| - 1]) else s
  }

  function Strip(s: Bytes): Bytes {
    StripRight(StripLeft(s))
  }

  // Length of the first line, its newline included.
  function LineLength(s: Bytes): (n: nat)
    ensures n <= |s| && (s != [] ==> n > 0)
  {
    if s == [] then 0 else if s[0] == LF then 1 else 1 + LineLength(s[1..])
  }

  function Records(body: Bytes): seq<Bytes>
    decreases |body|
  {
    if body == [] then []
    else
      var n := LineLength(body);
      var line := Strip(body[..n]);
      (if line == [] then [] else [line]) + Records(body[n..])
  }

  lemma {:induction false} RecordsStep(body: Bytes)
    requires body != []
    ensures var n := LineLength(body);
      var line := Strip(body[..n]);
      n > 0 && Records(body) == if line == [] then Records(body[n..]) else [line] + Records(body[n..])
  {
  }

  method ReceiveStream(body: Bytes) returns (records: seq<Bytes>)
    ensures records == Records(body)
  {
    records := [];
    var rest := body;
    while rest != []
      invariant Records(body) == records + Records(rest)
      decreases |rest|
    {
      var n := LineLength(rest);
      var line := Strip(rest[..n]);
      RecordsStep(rest);
      rest := rest[n..];
      if line == [] { continue; }
      records := records + [line];
    }
  }

  // ---------- Round trip ----------

  function Lines(records: seq<Bytes>): Bytes {
    if records == [] then [] else records[0] + [LF] + Lines(records[1..])
  }

  // What the client yields: each record stripped, blank ones skipped.
  function Trimmed(records: seq<Bytes>): seq<Bytes> {
    if records == [] then []
    else (if Strip(records[0]) == [] then [] else [Strip(records[0])]) + Trimmed(records[1..])
  }

  lemma {:induction false} SizeRoundTrip(n: nat, t: Bytes)
    ensures ReadSize(HexUpper(n) + t, 0, false) == ReadSize(t, n, true)
  {
    if n < 16 {
      assert (HexUpper(n) + t)[1..] == t;
    } else {
      var last := [HexDigit(n % 16)] + t;
      assert HexUpper(n) + t == HexUpper(n / 16) + last;
      SizeRoundTrip(n / 16, last);
      assert last[1..] == t;
    }
  }

  lemma {:induction false} DecodeFrame(line: Bytes, tail: Bytes)
    requires line != []
    ensures DecodeChunked(HexUpper(|line|) + (CRLF + (line + CRLF + tail))) ==
      if DecodeChunked(tail).None? then None else Some(line + DecodeChunked(tail).value)
  {
    var n, rest := |line|, line + CRLF + tail;
    SizeRoundTrip(n, CRLF + rest);
    assert (CRLF + rest)[2..] == rest;
    assert rest[..n] == line && rest[n..n + 2] == CRLF && rest[n + 2..] == tail;
  }

  lemma {:induction false} DecodeFrames(records: seq<Bytes>)
    ensures DecodeChunked(Encode(records)) == Some(Lines(records))
  {
    if records == [] {
      assert Encode(records) == HexUpper(0) + (CRLF + CRLF);
      SizeRoundTrip(0, CRLF + CRLF);
      assert (CRLF + CRLF)[2..] == CRLF;
    } else {
      var line, tail := records[0] + [LF], Encode(records[1..]);
      assert Encode(records) == HexUpper(|line|) + (CRLF + (line + CRLF + tail));
      DecodeFrame(line, tail);
      DecodeFrames(records[1..]);
    }
  }

  lemma {:induction false} StripNewline(r: Bytes)
    ensures Strip(r + [LF]) == Strip(r)
  {
    if r == [] {
      assert r + [LF] == [LF] && [LF][1..] == [];
    } else if Space(r[0]) {
      assert (r + [LF])[1..] == r[1..] + [LF];
      StripNewline(r[1..]);
    } else {
      assert (r + [LF])[..|r|] == r;
    }
  }

  lemma {:induction false} FirstLine(r: Bytes, t: Bytes)
    requires LF !in r
    ensures LineLength(r + [LF] + t) == |r| + 1
  {
    if r != [] {
      assert (r + [LF] + t)[1..] == r[1..] + [LF] + t;
      FirstLine(r[1..], t);
    }
  }

  lemma {:induction false} ReadLines(records: seq<Bytes>)
    requires forall i :: 0 <= i < |records| ==> LF !in records[i]
    ensures Records(Lines(records)) == Trimmed(records)
  {
    if records != [] {
      var r, t := records[0], Lines(records[1..]);
      FirstLine(r, t);
      assert (r + [LF] + t)[..|r| + 1] == r + [LF] && (r + [LF] + t)[|r| + 1..] == t;
      StripNewline(r);
      ReadLines(records[1..]);
    }
  }

  ghost predicate Clean(r: Bytes) {
    r != [] && !Space(r[0]) && !Space(r[|r| - 1])
  }

  lemma {:induction false} StripShortens(r: Bytes)
    ensures |StripLeft(r)| <= |r| && (|StripLeft(r)| == |r| ==> StripLeft(r) == r)
    ensures |StripRight(r)| <= |r| && (|StripRight(r)| == |r| ==> StripRight(r) == r)
    ensures StripLeft(r) == r <==> r == [] || !Space(r[0])
    ensures StripRight(r) == r <==> r == [] || !Space(r[|r| - 1])
  {
    if r != [] {
      StripShortens(r[1..]);
      StripShortens(r[..|r| - 1]);
    }
  }

  lemma {:induction false} CleanIff(r: Bytes)
    ensures Strip(r) == r && r != [] <==> Clean(r)
  {
    StripShortens(r);
    StripShortens(StripLeft(r));
  }

  lemma {:induction false} TrimmedIsAll(records: seq<Bytes>)
    ensures |Trimmed(records)| <= |records|
    ensures Trimmed(records) == records <==> forall i :: 0 <= i < |records| ==> Clean(records[i])
  {
    if records != [] {
      var r, tail := records[0], records[1..];
      TrimmedIsAll(tail);
      CleanIff(r);
      assert records == [r] + tail;
      if Strip(r) != [] {
        assert Trimmed(records)[0] == Strip(r) && Trimmed(records)[1..] == Trimmed(tail);
      } else {
        assert |Trimmed(records)| < |records|;
      }
    }
  }

  // A line has its newline last, and stripping removes it.
  lemma {:induction false} NewlineIsLast(s: Bytes, k: nat)
    requires k + 1 < LineLength(s)
    ensures s[k] != LF
  {
    if k > 0 {
      NewlineIsLast(s[1..], k - 1);
    }
  }

  lemma {:induction false} StripLeftShape(s: Bytes) returns (a: nat)
    ensures a <= |s| && StripLeft(s) == s[a..]
  {
    if s != [] && Space(s[0]) {
      a := StripLeftShape(s[1..]);
      a := a + 1;
    } else {
      a := 0;
    }
  }

  lemma {:induction false} StripRightShape(s: Bytes)
    ensures StripRight(s) <= s && (StripRight(s) != [] ==> !Space(StripRight(s)[|StripRight(s)| - 1]))
  {
    if s != [] && Space(s[|s| - 1]) {
      StripRightShape(s[..|s| - 1]);
    }
  }

  lemma {:induction false} LineLacksNewline(s: Bytes)
    ensures LF !in Strip(s[..LineLength(s)])
  {
    var line := s[..LineLength(s)];
    var a := StripLeftShape(line);
    var left, r := StripLeft(line), Strip(line);
    StripRightShape(left);
    forall k | 0 <= k < |r| ensures r[k] != LF {
      assert r[k] == left[k] == line[a + k] == s[a + k];
      if a + k + 1 < LineLength(s) {
        NewlineIsLast(s, a + k);
      } else {
        assert k == |r| - 1;
      }
    }
  }

  lemma {:induction false} RecordsLackNewline(body: Bytes, i: nat)
    requires i < |Records(body)|
    ensures LF !in Records(body)[i]
    decreases |body|
  {
    RecordsStep(body);
    LineLacksNewline(body);
    var n := LineLength(body);
    if Strip(body[..n]) == [] {
      RecordsLackNewline(body[n..], i);
    } else if i > 0 {
      RecordsLackNewline(body[n..], i - 1);
    }
  }

  // Every stream decodes. Newline-free records come back stripped, blank ones dropped; and records come back
  // unchanged exactly when each is newline-free and neither blank nor with white space at either end.
  lemma {:induction false} FramingRoundTrip(records: seq<Bytes>)
    ensures DecodeChunked(Encode(records)).Some?
    ensures var got := Records(DecodeChunked(Encode(records)).value);
      && ((forall i :: 0 <= i < |records| ==> LF !in records[i]) ==> got == Trimmed(records))
      && (got == records <==> forall i :: 0 <= i < |records| ==> LF !in records[i] && Clean(records[i]))
  {
    DecodeFrames(records);
    var got := Records(Lines(records));
    if forall i :: 0 <= i < |records| ==> LF !in records[i] {
      ReadLines(records);
      TrimmedIsAll(records);
    } else {
      var i :| 0 <= i < |records| && LF in records[i];
      if i < |got| {
        RecordsLackNewline(Lines(records), i);
      }
    }
  }

  // ---------- Truncation ----------

  lemma {:induction false} SizeExtends(s: Bytes, x: Bytes, acc: nat, seen: bool)
    requires ReadSize(s, acc, seen).Some?
    ensures var r := ReadSize(s, acc, seen).value; ReadSize(s + x, acc, seen) == Some(Size(r.n, r.rest + x))
  {
    assert (s + x)[0] == s[0] && (s + x)[1..] == s[1..] + x;
    if HexValue(s[0]).Some? {
      SizeExtends(s[1..], x, acc * 16 + HexValue(s[0]).value, true);
    } else {
      assert (s + x)[..2] == s[..2] && (s + x)[2..] == s[2..] + x;
    }
  }

  // A stream cut short anywhere does not decode: no proper prefix of a decodable body is decodable.
  lemma {:induction false} TruncationDetected(s: Bytes, x: Bytes)
    requires DecodeChunked(s).Some? && x != []
    ensures DecodeChunked(s + x).None?
    decreases |s|
  {
    SizeExtends(s, x, 0, false);
    var r := ReadSize(s, 0, false).value;
    if r.n == 0 {
      assert |r.rest + x| > 2;
    } else {
      assert (r.rest + x)[r.n..r.n + 2] == r.rest[r.n..r.n + 2];
      assert (r.rest + x)[r.n + 2..] == r.rest[r.n + 2..] + x;
      TruncationDetected(r.rest[r.n + 2..], x);
    }
  }
}
