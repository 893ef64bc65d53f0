// The receipt log over crash-free runs of the dispatcher: one receipt for each dispatch that was not a replay.
// The books of one request are kept in balance by every step: receipts written, streams that still owe theirs,
// dispatches ended in each way, and the receipt that a dispatch writes before it is answered.
module DispatchReceipts {
  import opened Wrappers
  import opened Messages
  import opened IdempotencyCache
  import opened CacheWriter
  import opened PeerCache
  import opened Dispatch
  import opened DispatchReplay

  datatype Ending = Replayed | Answered | Faulted | Streaming | Broken

  function EndingOf(reply: Reply): Ending {
    match reply
    case Replay(_) => Replayed
    case Answer(_) => Answered
    case Fault(_) => Faulted
    case StreamStarted(_) => Streaming
    case Aborted => Broken
  }

  // How many dispatches of a request ended in one way.
  ghost function CountEndings(replies: seq<Done>, t: string, e: Ending): nat {
    if replies == [] then 0
    else
      var last := replies[|replies| - 1];
      CountEndings(replies[..|replies| - 1], t, e) + if last.taskRef == t && EndingOf(last.reply) == e then 1 else 0
  }

  lemma {:induction false} EndingsExtend(replies: seq<Done>, d: Done, t: string)
    ensures forall e :: CountEndings(replies + [d], t, e) == CountEndings(replies, t, e) + if d.taskRef == t && EndingOf(d.reply) == e then 1 else 0
  {
    assert (replies + [d])[..|replies|] == replies;
  }

  // Streams of this request that still owe their receipt; a dead one owes it for good.
  ghost function OpenStreams(streams: map<nat, StreamPc>, t: string): set<nat> {
    set sid | sid in streams && streams[sid].msg.body.id == t
  }

  lemma {:induction false} OneStream(streams: map<nat, StreamPc>, sid: nat, pc: StreamPc, t: string)
    requires sid !in streams
    ensures |OpenStreams(streams[sid := pc], t)| == |OpenStreams(streams, t)| + if pc.msg.body.id == t then 1 else 0
  {
    assert OpenStreams(streams[sid := pc], t) == OpenStreams(streams, t) + if pc.msg.body.id == t then {sid} else {};
  }

  // The running dispatch of this request has its receipt on disk and its reply still to give.
  ghost function Ahead(s: State, t: string): nat {
    if s.running.Some? && s.running.value.pc.CacheResponse? && s.running.value.msg.body.id == t then 1 else 0
  }

  ghost function Written(s: State, t: string, completed: bool): nat {
    multiset(s.disk.receipts)[ReceiptNote(t, completed)]
  }

  ghost function Ended(s: State, t: string, e: Ending): nat {
    CountEndings(s.replies, t, e)
  }

  // The books of one request: a receipt for every answer, fault, abort and stream but none for a replay;
  // answers and aborts have a completed one and faults a failed one.
  ghost predicate Balanced(s: State, t: string) {
    && Written(s, t, true) + Written(s, t, false) + |OpenStreams(s.streams, t)|
         == Ended(s, t, Answered) + Ended(s, t, Faulted) + Ended(s, t, Streaming) + Ended(s, t, Broken) + Ahead(s, t)
    && Written(s, t, true) >= Ended(s, t, Answered) + Ended(s, t, Broken) + Ahead(s, t)
    && Written(s, t, false) >= Ended(s, t, Faulted)
  }

  ghost predicate SameBooks(s: State, s': State) {
    s'.disk.receipts == s.disk.receipts && s'.replies == s.replies && s'.streams == s.streams
  }

  lemma {:induction false} SameBooksBalance(s: State, s': State, t: string)
    requires Balanced(s, t) && SameBooks(s, s') && Ahead(s', t) == Ahead(s, t)
    ensures Balanced(s', t)
  {
    assert OpenStreams(s'.streams, t) == OpenStreams(s.streams, t);
  }

  // A reply: the books count it exactly when it is not a replay.
  lemma {:induction false} ReplyBalance(s: State, s': State, d: Done, t: string)
    requires Balanced(s, t) && s'.replies == s.replies + [d] && s'.streams == s.streams
    requires Ahead(s', t) == 0
    requires match d.reply
      case Replay(_) => s'.disk.receipts == s.disk.receipts && Ahead(s, t) == 0
      case Answer(_) => s'.disk.receipts == s.disk.receipts && Ahead(s, t) == if d.taskRef == t then 1 else 0
      case Aborted => s'.disk.receipts == s.disk.receipts && Ahead(s, t) == if d.taskRef == t then 1 else 0
      case Fault(_) => s'.disk.receipts == s.disk.receipts + [ReceiptNote(d.taskRef, false)] && Ahead(s, t) == 0
      case StreamStarted(_) => false
    ensures Balanced(s', t)
  {
    EndingsExtend(s.replies, d, t);
    assert OpenStreams(s'.streams, t) == OpenStreams(s.streams, t);
  }

  lemma {:induction false} BeginBalance(cfg: Config, s: State, m: Message, t: string)
    requires Balanced(s, t) && s.running.None?
    ensures Balanced(BeginStep(cfg, s, m), t)
  {
    var s' := BeginStep(cfg, s, m);
    match Admit(cfg, Loaded(s).cache, m, s.clock)
    case Hit(response) => ReplyBalance(s, s', Done(m.body.id, Replay(response)), t);
    case Refuse(_) => SameBooksBalance(s, s', t);
    case Miss(_) => SameBooksBalance(s, s', t);
  }

  // The stream table gains one of this request with its reply.
  lemma {:induction false} StreamStartBalance(s: State, s': State, m: Message, sid: nat, t: string)
    requires Balanced(s, t) && sid !in s.streams && s'.streams == s.streams[sid := Open(m)]
    requires s'.disk.receipts == s.disk.receipts && s'.replies == s.replies + [Done(m.body.id, StreamStarted(sid))]
    requires Ahead(s, t) == 0 && Ahead(s', t) == 0
    ensures Balanced(s', t)
  {
    EndingsExtend(s.replies, Done(m.body.id, StreamStarted(sid)), t);
    OneStream(s.streams, sid, Open(m), t);
  }

  lemma {:induction false} HandlerBalance(s: State, r: InFlight, outcome: HandlerOutcome, t: string)
    requires Balanced(s, t) && s.running == Some(r) && r.pc.RunHandler?
    ensures Balanced(HandlerStep(s, r, r.pc.cap, outcome), t)
  {
    if outcome.Generator? && outcome.sid !in s.streams {
      StreamStartBalance(s, HandlerStep(s, r, r.pc.cap, outcome), r.msg, outcome.sid, t);
    } else {
      SameBooksBalance(s, HandlerStep(s, r, r.pc.cap, outcome), t);
    }
  }

  lemma {:induction false} WriteBalance(s: State, r: InFlight, res: string, t: string)
    requires Balanced(s, t) && s.running == Some(r) && r.pc.WriteReceipt?
    ensures Balanced(WriteReceiptStep(s, r, res), t)
  {
    var s' := WriteReceiptStep(s, r, res);
    assert OpenStreams(s'.streams, t) == OpenStreams(s.streams, t);
    assert s'.disk.receipts == s.disk.receipts + [ReceiptNote(r.msg.body.id, true)];
  }

  lemma {:induction false} StoredBalance(s: State, r: InFlight, res: string, move: Move, t: string)
    requires Balanced(s, t) && s.running == Some(r) && s.mem.Some? && r.pc.CacheResponse?
    ensures Balanced(Stored(s, r, res, move), t)
  {
    if move.KeyMissing? {
      ReplyBalance(s, Stored(s, r, res, move), Done(r.msg.body.id, Aborted), t);
    } else {
      SameBooksBalance(s, Stored(s, r, res, move), t);
    }
  }

  lemma {:induction false} CacheBalance(cfg: Config, s: State, r: InFlight, t: string)
    requires Balanced(s, t) && s.running == Some(r) && s.mem.Some? && r.pc.CacheResponse?
    ensures Balanced(CacheStep(cfg, s, r, r.pc.res, r.pc.writer), t)
  {
    var res, w := r.pc.res, r.pc.writer;
    if CacheKey(r.msg).None? || w.Write? {
      ReplyBalance(s, CacheStep(cfg, s, r, res, w), Done(r.msg.body.id, Answer(res)), t);
    } else {
      StoredBalance(s, r, res, WriterStep(s.mem.value.cache, w, Entry(r.msg, OneShot(res), r.now), r.now, cfg.cacheMax), t);
    }
  }

  lemma {:induction false} RejectBalance(s: State, r: InFlight, code: FaultCode, t: string)
    requires Balanced(s, t) && s.running == Some(r) && r.pc.Reject?
    ensures Balanced(RejectStep(s, r, code), t)
  {
    ReplyBalance(s, RejectStep(s, r, code), Done(r.msg.body.id, Fault(code)), t);
  }

  lemma {:induction false} EarlyBalance(cfg: Config, s: State, r: InFlight, outcome: HandlerOutcome, t: string)
    requires Balanced(s, t) && s.running == Some(r) && s.mem.Some? && Early(r.pc)
    ensures Balanced(AdvanceStep(cfg, s, r, outcome), t)
  {
    AdvanceEarly(cfg, s, r, outcome);
    SameBooksBalance(s, AdvanceStep(cfg, s, r, outcome), t);
  }

  lemma {:induction false} AdvanceBalance(cfg: Config, s: State, r: InFlight, outcome: HandlerOutcome, t: string)
    requires Balanced(s, t) && s.running == Some(r)
    ensures Balanced(AdvanceStep(cfg, s, r, outcome), t)
  {
    if s.mem.Some? {
      if Early(r.pc) {
        EarlyBalance(cfg, s, r, outcome, t);
      } else {
        match r.pc
        case RunHandler(_, _) => HandlerBalance(s, r, outcome, t);
        case Reject(code) => RejectBalance(s, r, code, t);
        case WriteReceipt(res) => WriteBalance(s, r, res, t);
        case CacheResponse(_, _) => CacheBalance(cfg, s, r, t);
      }
    }
  }

  lemma {:induction false} StreamMoveBalance(s: State, s': State, sid: nat, t: string)
    requires Balanced(s, t) && s'.disk.receipts == s.disk.receipts && s'.replies == s.replies && s'.running == s.running
    requires sid in s.streams && s'.streams.Keys == s.streams.Keys
    requires forall i :: i in s.streams ==> s'.streams[i].msg == s.streams[i].msg
    ensures Balanced(s', t)
  {
    assert OpenStreams(s'.streams, t) == OpenStreams(s.streams, t);
  }

  lemma {:induction false} StreamReceiptBalance(s: State, s': State, sid: nat, note: ReceiptNote, t: string)
    requires Balanced(s, t) && sid in s.streams && s'.streams == s.streams - {sid} && s'.running == s.running
    requires note.taskRef == s.streams[sid].msg.body.id
    requires s'.disk.receipts == s.disk.receipts + [note] && s'.replies == s.replies
    ensures Balanced(s', t)
  {
    assert s'.streams[sid := s.streams[sid]] == s.streams;
    OneStream(s'.streams, sid, s.streams[sid], t);
  }

  lemma {:induction false} StreamStepBalance(cfg: Config, s: State, sid: nat, chunks: seq<string>, t: string)
    requires Balanced(s, t)
    ensures Balanced(StreamDrainedStep(s, sid, chunks), t) && Balanced(StreamAdvanceStep(cfg, s, sid), t)
  {
    var a, b := StreamDrainedStep(s, sid, chunks), StreamAdvanceStep(cfg, s, sid);
    if a != s { StreamMoveBalance(s, a, sid, t); }
    if b != s { StreamMoveBalance(s, b, sid, t); }
  }

  lemma {:induction false} StreamEndBalance(s: State, sid: nat, completed: bool, t: string)
    requires Balanced(s, t)
    ensures Balanced(StreamEndStep(s, sid, completed), t)
  {
    var s' := StreamEndStep(s, sid, completed);
    if s' != s { StreamReceiptBalance(s, s', sid, s'.disk.receipts[|s.disk.receipts|], t); }
  }

  // Clock, grants and revocations keep no books.
  lemma {:induction false} QuietBalance(cfg: Config, s: State, step: Step, t: string)
    requires Balanced(s, t) && (step.Tick? || step.Grant? || step.RevokeLoad? || step.RevokeSave?)
    ensures Balanced(Next(cfg, s, step), t)
  {
    var s' := Next(cfg, s, step);
    assert SameBooks(s, s') && s'.running == s.running;
    SameBooksBalance(s, s', t);
  }

  lemma {:induction false} DispatchBalance(cfg: Config, s: State, step: Step, t: string)
    requires Balanced(s, t) && (step.Begin? || step.Advance?)
    ensures Balanced(Next(cfg, s, step), t)
  {
    if step.Begin? {
      if s.running.None? { BeginBalance(cfg, s, step.msg, t); }
    } else {
      if s.running.Some? { AdvanceBalance(cfg, s, s.running.value, step.outcome, t); }
    }
  }

  lemma {:induction false} StepBalance(cfg: Config, s: State, step: Step, t: string)
    requires Balanced(s, t) && !step.Crash?
    ensures Balanced(Next(cfg, s, step), t)
  {
    match step
    case Begin(_) => DispatchBalance(cfg, s, step, t);
    case Advance(_) => DispatchBalance(cfg, s, step, t);
    case StreamDrained(sid, chunks) => StreamStepBalance(cfg, s, sid, chunks, t);
    case StreamAdvance(sid) => StreamStepBalance(cfg, s, sid, [], t);
    case StreamEnd(sid, completed) => StreamEndBalance(s, sid, completed, t);
    case _ => QuietBalance(cfg, s, step, t);
  }

  lemma {:induction false} RunBalance(cfg: Config, s: State, steps: seq<Step>, t: string)
    requires Balanced(s, t) && Crash !in steps
    ensures Balanced(Run(cfg, s, steps), t)
    decreases |steps|
  {
    if steps != [] {
      StepBalance(cfg, s, steps[0], t);
      RunBalance(cfg, Next(cfg, s, steps[0]), steps[1..], t);
    }
  }

  // Over every crash-free run that ends idle with no stream of the request open, the request has
  // exactly as many receipts as dispatches that were not replays.
  lemma {:induction false} OneReceiptPerDispatch(cfg: Config, clock: int, peers: Peers, steps: seq<Step>, t: string)
    requires Crash !in steps
    requires var s := Run(cfg, Start(clock, peers), steps); s.running.None? && OpenStreams(s.streams, t) == {}
    ensures var s := Run(cfg, Start(clock, peers), steps);
      Written(s, t, true) + Written(s, t, false)
      == Ended(s, t, Answered) + Ended(s, t, Faulted) + Ended(s, t, Streaming) + Ended(s, t, Broken)
    ensures var s := Run(cfg, Start(clock, peers), steps);
      Written(s, t, true) >= Ended(s, t, Answered) + Ended(s, t, Broken) && Written(s, t, false) >= Ended(s, t, Faulted)
  {
    assert OpenStreams(Start(clock, peers).streams, t) == {};
    RunBalance(cfg, Start(clock, peers), steps, t);
  }
}
