// The streaming response generator: a handler's generator wrapped into signed chunks,
// with one receipt on each of its three exit paths.
module Streaming {
  import opened Wrappers
  import opened Crypto

  // What a handler yields: a dict, or any other value, which is wrapped as {"result": value}.
  datatype Yielded = DictValue(text: string) | OtherValue(text: string)

  datatype Payload = AsIs(text: string) | Wrapped(text: string) | Empty

  function Wrap(y: Yielded): Payload {
    match y case DictValue(t) => AsIs(t) case OtherValue(t) => Wrapped(t)
  }

  // A handler's generator: the values it yields, then either a normal end or an exception.
  datatype Source = Source(values: seq<Yielded>, raises: Option<string>)

  datatype ChunkBody = ChunkBody(id: string, req: string, chunkSeq: nat, chunkFinal: bool, payload: Payload, fault: Option<string>)

  datatype Chunk = Chunk(body: ChunkBody, signature: Signature<ChunkBody>)

  datatype Outcome = Completed | Failed | Cancelled

  // What the generator writes when it ends, in order.
  datatype Effect =
    | SaveRequest(req: string)
    | SaveChunk(chunk: Chunk)
    | CacheChunks(key: string, chunks: seq<Chunk>)
    | WriteReceipt(outcome: Outcome, refs: seq<string>)

  // The request being answered, the answering key, and the supply of fresh message ids.
  datatype Context = Context(req: string, key: PrivateKey, idempotencyKey: Option<string>, ids: seq<string>)

  function SignChunk(ctx: Context, i: nat, final: bool, payload: Payload, fault: Option<string>): Chunk
    requires i < |ctx.ids|
  {
    var body := ChunkBody(ctx.ids[i], ctx.req, i, final, payload, fault);
    Chunk(body, Sign(body, ctx.key))
  }

  // How many chunks a source gives when drained.
  function Total(src: Source): nat {
    var k := |src.values|;
    if src.raises.Some? then (if k == 0 then 1 else k) else if k == 0 then 1 else k
  }

  function PayloadAt(src: Source, i: nat): Payload
    requires i < Total(src)
  {
    if i == Total(src) - 1 && (src.raises.Some? || src.values == []) then Empty else Wrap(src.values[i])
  }

  // The drained stream: numbered from zero, the last chunk final; a clean source gives its wrapped
  // values, one empty chunk if none; a source that raises gives all but its last value, then the fault.
  function AllChunks(ctx: Context, src: Source): (cs: seq<Chunk>)
    requires |ctx.ids| >= Total(src)
    ensures |cs| == Total(src)
    ensures forall i :: 0 <= i < |cs| ==>
      && cs[i].body.chunkSeq == i && (cs[i].body.chunkFinal <==> i == |cs| - 1) && cs[i].body.id == ctx.ids[i]
      && cs[i].signature == Signed(PublicOf(ctx.key), cs[i].body) && cs[i].body.req == ctx.req
    ensures src.raises.None? ==>
      && |cs| == (if src.values == [] then 1 else |src.values|)
      && (forall i :: 0 <= i < |src.values| ==> cs[i].body.payload == Wrap(src.values[i]) && cs[i].body.fault.None?)
      && (src.values == [] ==> cs[0].body.payload == Empty && cs[0].body.fault.None?)
    ensures src.raises.Some? ==>
      && |cs| - 1 == (if |src.values| == 0 then 0 else |src.values| - 1)
      && (forall i :: 0 <= i < |cs| - 1 ==> cs[i].body.payload == Wrap(src.values[i]) && cs[i].body.fault.None?)
      && cs[|cs| - 1].body.payload == Empty && cs[|cs| - 1].body.fault == src.raises
  {
    seq(Total(src), i requires 0 <= i < Total(src) =>
      SignChunk(ctx, i, i == Total(src) - 1, PayloadAt(src, i), if i == Total(src) - 1 then src.raises else None))
  }

  function ChunkIds(cs: seq<Chunk>): seq<string> {
    seq(|cs|, i requires 0 <= i < |cs| => cs[i].body.id)
  }

  function Saves(cs: seq<Chunk>): seq<Effect> {
    seq(|cs|, i requires 0 <= i < |cs| => SaveChunk(cs[i]))
  }

  predicate Caches(ctx: Context, outcome: Outcome) {
    ctx.idempotencyKey.Some? && ctx.idempotencyKey.value != "" && outcome == Completed
  }

  // The request and every emitted chunk saved, the cache written only for a completed keyed
  // stream and before the receipt, and exactly one receipt listing the request and all chunks.
  function EndEffects(ctx: Context, cs: seq<Chunk>, outcome: Outcome): seq<Effect> {
    [SaveRequest(ctx.req)] + Saves(cs)
    + (if Caches(ctx, outcome) then [CacheChunks(ctx.idempotencyKey.value, cs)] else [])
    + [WriteReceipt(outcome, [ctx.req] + ChunkIds(cs))]
  }

  // Where the generator is suspended.
  datatype Point = NotStarted | AfterChunk | AfterFinal | AfterError | Ended

  class StreamingGenerator {
    const ctx: Context
    const source: Source
    var point: Point
    var pulled: nat
    var held: Option<Payload>
    var chunkSeq: nat
    var chunks: seq<Chunk>
    var outcome: Outcome
    var effects: seq<Effect>

    ghost predicate Valid()
      reads this
    {
      && |ctx.ids| >= Total(source)
      && |chunks| <= Total(source) && chunks == AllChunks(ctx, source)[..|chunks|]
      && (point != Ended ==> effects == [] && outcome == Cancelled)
      && match point
         case NotStarted => pulled == 0 && held.None? && chunkSeq == 0 && chunks == []
         case AfterChunk =>
           && 2 <= pulled <= |source.values| && chunkSeq == |chunks| == pulled - 1
         case AfterFinal => source.raises.None? && |chunks| == Total(source)
         case AfterError => source.raises.Some? && |chunks| == Total(source)
         case Ended =>
           && (effects == EndEffects(ctx, chunks, outcome) || (effects == [] && chunks == []))
           && (effects != [] && outcome != Cancelled ==> |chunks| == Total(source) && (outcome == Completed <==> source.raises.None?))
    }

    constructor (ctx: Context, source: Source)
      requires |ctx.ids| >= Total(source)
      ensures Valid() && point == NotStarted && this.ctx == ctx && this.source == source
    {
      this.ctx, this.source := ctx, source;
      point, pulled, held, chunkSeq := NotStarted, 0, None, 0;
      chunks, outcome, effects := [], Cancelled, [];
    }

    method BuildAndSign(payload: Payload, final: bool) returns (out: Chunk)
      requires chunkSeq < |ctx.ids|
      modifies this`chunkSeq
      ensures out == SignChunk(ctx, old(chunkSeq), final, payload, None) && chunkSeq == old(chunkSeq) + 1
    {
      out := SignChunk(ctx, chunkSeq, final, payload, None);
      chunkSeq := chunkSeq + 1;
    }

    method Finish()
      modifies this`point, this`effects
      ensures point == Ended && effects == old(effects) + EndEffects(ctx, chunks, outcome)
    {
      effects := effects + [SaveRequest(ctx.req)];
      ghost var base := effects;
      for i := 0 to |chunks|
        invariant effects == base + Saves(chunks[..i])
      {
        effects := effects + [SaveChunk(chunks[i])];
        assert Saves(chunks[..i + 1]) == Saves(chunks[..i]) + [SaveChunk(chunks[i])];
      }
      assert chunks[..|chunks|] == chunks;
      if ctx.idempotencyKey.Some? && ctx.idempotencyKey.value != "" && outcome == Completed {
        effects := effects + [CacheChunks(ctx.idempotencyKey.value, chunks)];
      }
      effects := effects + [WriteReceipt(outcome, [ctx.req] + ChunkIds(chunks))];
      point := Ended;
    }

    // Resume: the next chunk in order, or the end of the stream after the last one was taken.
    method Next() returns (r: Option<Chunk>)
      requires Valid()
      modifies this
      ensures Valid()
      ensures old(point) == Ended ==> r == None && unchanged(this)
      ensures old(point) != Ended && |old(chunks)| < Total(source) ==>
        r == Some(AllChunks(ctx, source)[|old(chunks)|]) && chunks == old(chunks) + [r.value] && point !in {NotStarted, Ended}
      ensures old(point) != Ended && |old(chunks)| == Total(source) ==>
        && r == None && point == Ended && chunks == old(chunks)
        && outcome == (if source.raises.None? then Completed else Failed)
        && effects == EndEffects(ctx, chunks, outcome)
    {
      if point == Ended { return None; }
      if point == AfterFinal {
        outcome := Completed;
        Finish();
        return None;
      }
      if point == AfterError {
        outcome := Failed;
        Finish();
        return None;
      }
      if point == AfterChunk {
        held := Some(Wrap(source.values[pulled - 1]));
      }
      ghost var n := |chunks|;
      while pulled < |source.values|
        invariant n == |chunks| == chunkSeq && chunks == old(chunks) && point == old(point) && effects == [] && outcome == Cancelled
        invariant pulled <= |source.values| && n == if pulled == 0 then 0 else pulled - 1
        invariant held == if pulled == 0 then None else Some(Wrap(source.values[pulled - 1]))
      {
        var value := source.values[pulled];
        pulled := pulled + 1;
        if held.Some? {
          var out := HeldChunk();
          return Some(out);
        }
        held := Some(Wrap(value));
      }
      var last := LastChunk();
      return Some(last);
    }

    // Another value has been pulled: the held one goes out as a non-final chunk.
    method HeldChunk() returns (out: Chunk)
      requires 2 <= pulled <= |source.values| && chunkSeq == |chunks| == pulled - 2
      requires held == Some(Wrap(source.values[pulled - 2]))
      requires |ctx.ids| >= Total(source) && chunks == AllChunks(ctx, source)[..|chunks|] && effects == [] && outcome == Cancelled
      modifies this
      ensures Valid() && chunks == old(chunks) + [out] && point == AfterChunk
      ensures out == AllChunks(ctx, source)[|old(chunks)|]
    {
      out := BuildAndSign(held.value, false);
      chunks := chunks + [out];
      point := AfterChunk;
    }

    // The source is exhausted: its held value goes out as the final chunk, or its fault does.
    method LastChunk() returns (last: Chunk)
      requires pulled == |source.values| && chunkSeq == |chunks| == (if pulled == 0 then 0 else pulled - 1)
      requires held == if pulled == 0 then None else Some(Wrap(source.values[pulled - 1]))
      requires |ctx.ids| >= Total(source) && chunks == AllChunks(ctx, source)[..|chunks|] && effects == [] && outcome == Cancelled
      modifies this
      ensures Valid() && chunks == old(chunks) + [last] && point in {AfterFinal, AfterError}
      ensures last == AllChunks(ctx, source)[|old(chunks)|]
    {
      if source.raises.Some? {
        last := SignChunk(ctx, chunkSeq, true, Empty, source.raises);
        point := AfterError;
      } else {
        if held.None? {
          held := Some(Empty);
        }
        last := BuildAndSign(held.value, true);
        point := AfterFinal;
      }
      chunks := chunks + [last];
    }

    // Consumer disconnect. A generator never started runs nothing; a suspended one ends cancelled,
    // even at its final chunk.
    method Close()
      requires Valid()
      modifies this
      ensures Valid() && point == Ended && chunks == old(chunks)
      ensures old(point) == Ended ==> unchanged(this)
      ensures old(point) == NotStarted ==> effects == []
      ensures old(point) !in {NotStarted, Ended} ==> outcome == Cancelled && effects == EndEffects(ctx, chunks, Cancelled)
    {
      if point == Ended { return; }
      if point == NotStarted {
        point := Ended;
        return;
      }
      Finish();
    }
  }

  // ---------- Any consumer ----------

  datatype Action = DoNext | DoClose

  // How often the consumer resumes the generator before first closing it.
  function Resumes(schedule: seq<Action>): (n: nat)
    ensures n <= |schedule|
  {
    if schedule == [] || schedule[0] == DoClose then 0 else 1 + Resumes(schedule[1..])
  }

  lemma {:induction false} ResumesPrefix(schedule: seq<Action>, i: nat)
    requires i < |schedule|
    ensures Resumes(schedule[..i + 1]) == if Resumes(schedule[..i]) == i && schedule[i] == DoNext then i + 1 else Resumes(schedule[..i])
  {
    if i > 0 {
      assert schedule[..i + 1][1..] == schedule[1..][..i] && schedule[..i][1..] == schedule[1..][..i - 1];
      ResumesPrefix(schedule[1..], i - 1);
    }
  }

  // For every source and every schedule that starts the generator: what the consumer gets, and
  // what is written once it drained or closed it. `Completed` needs a resume past the final chunk.
  method Consume(ctx: Context, source: Source, schedule: seq<Action>) returns (got: seq<Chunk>, effects: seq<Effect>)
    requires |ctx.ids| >= Total(source) && schedule != [] && schedule[0].DoNext?
    ensures var n, all := Resumes(schedule), AllChunks(ctx, source);
      if n > |all| then got == all && effects == EndEffects(ctx, all, if source.raises.None? then Completed else Failed)
      else got == all[..n] && effects == if n < |schedule| then EndEffects(ctx, all[..n], Cancelled) else []
  {
    var g := new StreamingGenerator(ctx, source);
    got := [];
    ghost var all := AllChunks(ctx, source);
    for i := 0 to |schedule|
      invariant g.Valid() && g.ctx == ctx && g.source == source && fresh(g) && got == g.chunks
      invariant var n := Resumes(schedule[..i]);
        && (i == 0 <==> g.point == NotStarted)
        && (i > 0 ==> n > 0)
        && got == (if n > |all| then all else all[..n])
        && (g.point == Ended <==> n > |all| || n < i)
        && (n > |all| ==> g.effects == EndEffects(ctx, all, if source.raises.None? then Completed else Failed))
        && (n <= |all| && n < i ==> g.effects == EndEffects(ctx, all[..n], Cancelled))
    {
      ResumesPrefix(schedule, i);
      match schedule[i]
      case DoNext =>
        var r := g.Next();
        if r.Some? {
          got := got + [r.value];
        }
      case DoClose =>
        g.Close();
    }
    assert schedule[..|schedule|] == schedule;
    effects := g.effects;
  }
}
