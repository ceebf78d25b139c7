/**
  The client end of a task channel: a reader that resumes at the number of messages it has
  forwarded, against a coordinator that keeps running. Streams may break at any point with
  messages in flight lost, so a reconnect is possible at any moment.
*/
module TaskReader {
  import opened ClusterTypes
  import opened TaskBooks
  import opened BookInvariants
  import opened TaskChannels
  import opened CoordinatorRuns

  datatype Ending = Reading | SawEnd | GaveUp

  /** `pos` counts what was read from the current receiver, `got` what was forwarded in all. */
  datatype Reader = Reader(task: TaskId, rx: RxId, pos: nat, got: seq<Payload>, ending: Ending)

  datatype Session = Session(c: Cluster, reader: Reader)

  datatype Move = Serve(call: Call) | Next | Reconnect(rx: RxId) | Stop

  predicate CanMove(s: Session, m: Move) {
    match m
    case Serve(call) => Legal(s.c, call)
    case Next =>
      s.reader.ending.Reading? && s.reader.rx in s.c.streams.rxs && s.reader.pos < |s.c.streams.rxs[s.reader.rx].log|
    case Reconnect(r) => s.reader.ending.Reading? && r !in s.c.streams.rxs
    case Stop => s.reader.ending.Reading?
  }

  ghost function Moved(s: Session, m: Move): Session
    requires CanMove(s, m)
  {
    var rd := s.reader;
    match m
    case Serve(call) => s.(c := Step(s.c, call))
    case Next =>
      (match s.c.streams.rxs[rd.rx].log[rd.pos]
       case Data(p) => s.(reader := rd.(got := rd.got + [p], pos := rd.pos + 1))
       case EndOfStream => s.(reader := rd.(ending := SawEnd)))
    case Reconnect(r) => Session(Step(s.c, SubscribeChannel(rd.task, |rd.got|, r)), rd.(rx := r, pos := 0))
    case Stop => s.(reader := rd.(ending := GaveUp))
  }

  ghost function Connect(c: Cluster, t: TaskId, r: RxId): Session
    requires r !in c.streams.rxs
  {
    Session(Step(c, SubscribeChannel(t, 0, r)), Reader(t, r, 0, [], Reading))
  }

  /** The channel entry has not been swept. */
  predicate Present(st: Streams, t: TaskId, e: nat) {
    t in st.chans && st.chans[t].entry == e
  }

  /** Every reconnect of the run comes while entry `e` still exists. */
  ghost predicate LegalMoves(s: Session, e: nat, moves: seq<Move>)
    decreases |moves|
  {
    moves == [] ||
    (&& CanMove(s, moves[0])
     && (moves[0].Reconnect? ==> Present(s.c.streams, s.reader.task, e))
     && LegalMoves(Moved(s, moves[0]), e, moves[1..]))
  }

  ghost function Moves(s: Session, e: nat, moves: seq<Move>): Session
    requires LegalMoves(s, e, moves)
    decreases |moves|
  {
    if moves == [] then s else Moves(Moved(s, moves[0]), e, moves[1..])
  }

  // ---- how long an entry lasts -----------------------------------------------------------

  /** Since when the entry has been closed, or the present if it is open. */
  function ClosedSince(c: Cluster, t: TaskId): nat
    requires t in c.streams.chans
  {
    if c.streams.chans[t].closed then c.streams.chans[t].closedAt else c.now
  }

  /** An entry lasts through any call, and through a sweep unless closed for more than 60 seconds. */
  ghost predicate Lasts(c: Cluster, after: Cluster, t: TaskId, e: nat)
    requires Present(c.streams, t, e)
  {
    && c.now <= after.now
    && (|| (Present(after.streams, t, e) && ClosedSince(after, t) >= ClosedSince(c, t))
        || after.now > ClosedSince(c, t) + 60)
  }

  lemma CloseLasts(c: Cluster, after: Cluster, ts: set<TaskId>, t: TaskId, e: nat)
    requires Present(c.streams, t, e) && after.streams == CloseAll(c.streams, ts, c.now) && after.now == c.now
    ensures Lasts(c, after, t, e)
  {}

  lemma FailLasts(c: Cluster, w: WorkerId, k: Key, retryable: bool, t: TaskId, e: nat)
    requires Present(c.streams, t, e)
    ensures Lasts(c, FailCall(c, w, k, retryable), t, e)
  {
    hide Fail, Deliver, Announce;
  }

  lemma StepLasts(c: Cluster, call: Call, t: TaskId, e: nat)
    requires Legal(c, call) && Present(c.streams, t, e)
    ensures Lasts(c, Step(c, call), t, e)
  {
    hide Complete, Fail, DropProof, Announce, Deliver, LiveTask, Weigh;
    match call
    case CompleteTask(w, k, gpuMs) =>
    case FailTask(w, k, retryable) => FailLasts(c, w, k, retryable, t, e);
    case FailProofCall(p, _) =>
      if p in c.books.proofs {
        var ts := c.books.proofs[p].tasks.Keys;
        CloseLasts(c, c.(streams := CloseAll(c.streams, ts, c.now)), ts, t, e);
      }
    case _ =>
  }

  /** Over every run a channel entry is there until 60 seconds after it was closed, at the least. */
  lemma {:induction false} EntryLasts(c: Cluster, calls: seq<Call>, t: TaskId, e: nat)
    requires LegalRun(c, calls) && Present(c.streams, t, e)
    ensures c.now <= Run(c, calls).now
    ensures Present(Run(c, calls).streams, t, e) || Run(c, calls).now > ClosedSince(c, t) + 60
    decreases |calls|
  {
    hide Step, Legal;
    if calls != [] {
      var next := Step(c, calls[0]);
      StepLasts(c, calls[0], t, e);
      if Present(next.streams, t, e) && ClosedSince(next, t) >= ClosedSince(c, t) {
        EntryLasts(next, calls[1..], t, e);
      } else {
        TimeGoesOn(next, calls[1..]);
      }
    }
  }

  lemma TimeStep(c: Cluster, call: Call)
    requires Legal(c, call)
    ensures c.now <= Step(c, call).now
  {
    hide Complete, Fail, DropProof, Announce, Close, CloseAll, Send, Listen;
  }

  lemma {:induction false} TimeGoesOn(c: Cluster, calls: seq<Call>)
    requires LegalRun(c, calls)
    ensures c.now <= Run(c, calls).now
    decreases |calls|
  {
    hide Step, Legal;
    if calls != [] {
      TimeStep(c, calls[0]);
      TimeGoesOn(Step(c, calls[0]), calls[1..]);
    }
  }

  // ---- receivers and tapes only ever grow ------------------------------------------------

  ghost predicate RxGrows(a: Receiver, b: Receiver) {
    a.task == b.task && a.entry == b.entry && a.start == b.start && a.log <= b.log
  }

  ghost predicate Grows(a: Streams, b: Streams) {
    && (forall r :: r in a.rxs ==> r in b.rxs && RxGrows(a.rxs[r], b.rxs[r]))
    && (forall e :: e in a.tapes ==> e in b.tapes && a.tapes[e].payloads <= b.tapes[e].payloads)
  }

  lemma PushGrows(st: Streams, t: TaskId, p: Payload)
    requires StreamsSound(st) && t in st.chans
    ensures Grows(st, Push(st, t, p))
  {
    hide ReceiverSound;
  }

  lemma OpenGrows(st: Streams, t: TaskId)
    requires StreamsSound(st)
    ensures Grows(st, Open(st, t))
  {
    hide ReceiverSound;
  }

  lemma GrowsOn(a: Streams, b: Streams, c: Streams)
    requires Grows(a, b) && Grows(b, c)
    ensures Grows(a, c)
  {}

  lemma StreamsGrow(c: Cluster, call: Call)
    requires Good(c) && Legal(c, call)
    ensures Grows(c.streams, Step(c, call).streams)
  {
    hide Weigh, BooksAgree, Owed, OpenOnlyLive, Truthful, Complete, Fail, DropProof, ReceiverSound, LiveTask,
         Push, Open, Attach;
    hide Grows;
    SelfGrows(c.streams);
    match call
    case SendTaskMessage(t, p) => SendGrows(c.streams, t, p, LiveTask(c.books, t));
    case SubscribeChannel(t, start, r) => ListenGrows(c.streams, t, start, r, LiveTask(c.books, t));
    case CompleteTask(w, k, gpuMs) => CloseGrows(c.streams, {k.task}, c.now); CloseIsCloseAll(c.streams, k.task, c.now);
    case FailTask(w, k, retryable) => FailGrows(c, w, k, retryable);
    case FailProofCall(p, _) =>
      if p in c.books.proofs { CloseGrows(c.streams, c.books.proofs[p].tasks.Keys, c.now); }
    case _ => PlainGrows(c, call);
  }

  lemma SendGrows(st: Streams, t: TaskId, p: Payload, live: bool)
    requires StreamsSound(st)
    ensures Grows(st, Send(st, t, p, live))
  {
    hide Grows, StreamsSound, Push;
    SelfGrows(st);
    if t in st.chans {
      PushGrows(st, t, p);
    } else if live {
      OpenGrows(st, t);
      OpenKeeps(st, t);
      PushGrows(Open(st, t), t, p);
      GrowsOn(st, Open(st, t), Push(Open(st, t), t, p));
    }
  }

  lemma AttachGrows(st: Streams, t: TaskId, start: nat, r: RxId)
    requires t in st.chans && r !in st.rxs
    ensures Grows(st, Attach(st, t, start, r))
  {}

  lemma ListenGrows(st: Streams, t: TaskId, start: nat, r: RxId, live: bool)
    requires StreamsSound(st) && r !in st.rxs
    ensures Grows(st, Listen(st, t, start, r, live))
  {
    hide StreamsSound, Attach;
    if t in st.chans {
      AttachGrows(st, t, start, r);
    } else if live {
      OpenGrows(st, t);
      AttachGrows(Open(st, t), t, start, r);
      GrowsOn(st, Open(st, t), Attach(Open(st, t), t, start, r));
    }
  }

  lemma CloseGrows(st: Streams, ts: set<TaskId>, now: nat)
    ensures Grows(st, CloseAll(st, ts, now))
  {}

  lemma SelfGrows(st: Streams)
    ensures Grows(st, st)
  {}

  lemma FailGrows(c: Cluster, w: WorkerId, k: Key, retryable: bool)
    ensures Grows(c.streams, FailCall(c, w, k, retryable).streams)
  {
    hide Fail, Grows, Close, CloseAll, Announce;
    SelfGrows(c.streams);
    CloseIsCloseAll(c.streams, k.task, c.now);
    CloseGrows(c.streams, {k.task}, c.now);
    var closed := Close(c.streams, k.task, c.now);
    if FailReply(c.books, w, k).Done? {
      CloseGrows(closed, c.books.proofs[k.proof].tasks.Keys, c.now);
      GrowsOn(c.streams, closed, CloseAll(closed, c.books.proofs[k.proof].tasks.Keys, c.now));
    }
  }

  lemma PlainGrows(c: Cluster, call: Call)
    requires Legal(c, call)
    requires !call.SendTaskMessage? && !call.SubscribeChannel?
    requires !call.CompleteTask? && !call.FailTask? && !call.FailProofCall?
    ensures Grows(c.streams, Step(c, call).streams)
  {}

  // ---- exactly once across reconnects ----------------------------------------------------

  /**
    The reader follows entry `e`: it had forwarded `kept` before, and has since forwarded the
    entry's tape from `from` up to where its current receiver stands.
  */
  ghost predicate Following(s: Session, e: nat, kept: seq<Payload>, from: nat) {
    var rd := s.reader;
    && Good(s.c)
    && rd.rx in s.c.streams.rxs
    && var rx := s.c.streams.rxs[rd.rx];
       && rx.task == rd.task && rx.entry == Some(e) && rd.pos <= |rx.log|
       && from <= rx.start + rd.pos && |rd.got| - |kept| == rx.start + rd.pos - from
       && e in s.c.streams.tapes && rx.start + rd.pos <= |s.c.streams.tapes[e].payloads|
       && rd.got == kept + s.c.streams.tapes[e].payloads[from..rx.start + rd.pos]
       && (rd.ending.SawEnd? ==> rd.pos < |rx.log| && rx.log[rd.pos].EndOfStream?)
  }

  /** The reader has followed entry `e` from the start. */
  ghost predicate OnEntry(s: Session, e: nat) {
    Following(s, e, [], 0)
  }

  /** At an EndOfStream the reader has the rest of the tape. */
  lemma EndIsWhole(s: Session, e: nat, kept: seq<Payload>, from: nat)
    requires Following(s, e, kept, from) && s.reader.ending.SawEnd?
    ensures from <= |s.c.streams.tapes[e].payloads|
    ensures s.reader.got == kept + s.c.streams.tapes[e].payloads[from..]
  {
    hide BooksAgree, Owed, OpenOnlyLive, Truthful, LiveTask;
    assert ReceiverSound(s.c.streams, s.reader.rx);
  }

  lemma GrownFollowing(s: Session, e: nat, kept: seq<Payload>, from: nat, c: Cluster)
    requires Following(s, e, kept, from) && Good(c) && Grows(s.c.streams, c.streams)
    ensures Following(s.(c := c), e, kept, from)
  {
    hide Good;
    var rx, grown := s.c.streams.rxs[s.reader.rx], c.streams.rxs[s.reader.rx];
    assert RxGrows(rx, grown);
  }

  lemma NextFollowing(s: Session, e: nat, kept: seq<Payload>, from: nat)
    requires Following(s, e, kept, from) && CanMove(s, Next)
    ensures Following(Moved(s, Next), e, kept, from)
  {
    hide BooksAgree, Owed, OpenOnlyLive, Truthful, LiveTask;
    assert ReceiverSound(s.c.streams, s.reader.rx);
    var rx, tape := s.c.streams.rxs[s.reader.rx], s.c.streams.tapes[e].payloads;
    var here := rx.start + s.reader.pos;
    if rx.log[s.reader.pos].Data? {
      assert rx.log[s.reader.pos] == Data(tape[rx.start..][s.reader.pos]);
      assert tape[from..here + 1] == tape[from..here] + [tape[here]];
    }
  }

  /** Where a subscription to the channel starts: at the offset asked for, or at the buffer's end. */
  function ReplayFrom(st: Streams, t: TaskId, start: nat): nat
    requires t in st.chans
  {
    if start <= |st.chans[t].buffer| then start else |st.chans[t].buffer|
  }

  lemma AttachAt(st: Streams, t: TaskId, start: nat, r: RxId)
    requires t in st.chans
    ensures var after := Attach(st, t, start, r);
      && after.tapes == st.tapes && r in after.rxs
      && after.rxs[r].task == t && after.rxs[r].entry == Some(st.chans[t].entry)
      && after.rxs[r].start == ReplayFrom(st, t, start)
  {}

  lemma ReconnectFollowing(s: Session, e: nat, kept: seq<Payload>, r: RxId)
    requires Following(s, e, kept, |kept|) && CanMove(s, Reconnect(r)) && Present(s.c.streams, s.reader.task, e)
    ensures Following(Moved(s, Reconnect(r)), e, kept, |kept|)
  {
    hide BooksAgree, Owed, OpenOnlyLive, Truthful, LiveTask, ReceiverSound, Attach;
    StepKeeps(s.c, SubscribeChannel(s.reader.task, |s.reader.got|, r));
    AttachAt(s.c.streams, s.reader.task, |s.reader.got|, r);
  }

  /** A reader past where the entry's buffer then ended cannot resume by its count. */
  ghost predicate Resumes(m: Move, s: Session, e: nat, kept: seq<Payload>, from: nat) {
    m.Reconnect? ==> Present(s.c.streams, s.reader.task, e) && from == |kept|
  }

  lemma MoveFollowing(s: Session, e: nat, kept: seq<Payload>, from: nat, m: Move)
    requires Following(s, e, kept, from) && CanMove(s, m) && Resumes(m, s, e, kept, from)
    ensures Following(Moved(s, m), e, kept, from)
  {
    hide Following, Good, Step, Grows;
    match m
    case Serve(call) =>
      FollowingGood(s, e, kept, from);
      StepKeeps(s.c, call);
      StreamsGrow(s.c, call);
      GrownFollowing(s, e, kept, from, Step(s.c, call));
    case Next => NextFollowing(s, e, kept, from);
    case Reconnect(r) => ReconnectFollowing(s, e, kept, r);
    case Stop => StopFollowing(s, e, kept, from);
  }

  lemma FollowingGood(s: Session, e: nat, kept: seq<Payload>, from: nat)
    requires Following(s, e, kept, from)
    ensures Good(s.c)
  {}

  lemma StopFollowing(s: Session, e: nat, kept: seq<Payload>, from: nat)
    requires Following(s, e, kept, from) && CanMove(s, Stop)
    ensures Following(Moved(s, Stop), e, kept, from)
  {
    hide Good;
  }

  predicate NoReconnect(moves: seq<Move>) {
    forall i :: 0 <= i < |moves| ==> !moves[i].Reconnect?
  }

  lemma {:induction false} MovesFollowing(s: Session, e: nat, kept: seq<Payload>, from: nat, moves: seq<Move>)
    requires Following(s, e, kept, from) && LegalMoves(s, e, moves)
    requires from == |kept| || NoReconnect(moves)
    ensures Following(Moves(s, e, moves), e, kept, from)
    decreases |moves|
  {
    hide Following, Moved, CanMove, Present;
    if moves != [] {
      MoveFollowing(s, e, kept, from, moves[0]);
      MovesFollowing(Moved(s, moves[0]), e, kept, from, moves[1..]);
    }
  }

  lemma ConnectOnEntry(c: Cluster, t: TaskId, r: RxId, e: nat)
    requires Good(c) && r !in c.streams.rxs && Present(Connect(c, t, r).c.streams, t, e)
    ensures OnEntry(Connect(c, t, r), e)
  {
    hide Good, LiveTask, Listen;
    StepKeeps(c, SubscribeChannel(t, 0, r));
    ListenAt(c.streams, t, 0, r, LiveTask(c.books, t), e);
    StartsOnTape(Connect(c, t, r).c, r);
  }

  /**
    Exactly once: whatever breaks and reconnects happen while the entry exists, and whatever the
    coordinator does meanwhile, what was forwarded is always a prefix of what was sent, and all
    of it when the reader stops on an EndOfStream.
  */
  lemma ForwardedExactlyOnce(c: Cluster, t: TaskId, r: RxId, e: nat, moves: seq<Move>)
    requires Good(c) && r !in c.streams.rxs && Present(Connect(c, t, r).c.streams, t, e)
    requires LegalMoves(Connect(c, t, r), e, moves)
    ensures var s := Moves(Connect(c, t, r), e, moves);
      && e in s.c.streams.tapes
      && s.reader.got <= s.c.streams.tapes[e].payloads
      && (s.reader.ending.SawEnd? ==> s.reader.got == s.c.streams.tapes[e].payloads)
  {
    hide Moves, LegalMoves, Moved, Connect, Good, Present;
    ConnectOnEntry(c, t, r, e);
    MovesFollowing(Connect(c, t, r), e, [], 0, moves);
    var s := Moves(Connect(c, t, r), e, moves);
    if s.reader.ending.SawEnd? {
      EndIsWhole(s, e, [], 0);
    }
  }

  // ---- after the sweep -------------------------------------------------------------------

  /** A joined sequence is a prefix of a tape exactly when both parts lie there in place. */
  lemma SplicePrefix(kept: seq<Payload>, more: seq<Payload>, tape: seq<Payload>)
    ensures kept + more <= tape <==>
      kept <= tape && |kept| + |more| <= |tape| && tape[|kept|..|kept| + |more|] == more
  {
    if kept + more <= tape {
      assert (kept + more)[..|kept|] == kept && (kept + more)[|kept|..] == more;
      assert tape[..|kept| + |more|][|kept|..] == more;
    }
    if kept <= tape && |kept| + |more| <= |tape| && tape[|kept|..|kept| + |more|] == more {
      assert tape[..|kept| + |more|] == kept + more;
    }
  }

  lemma ReopenedFollowing(s: Session, r: RxId, f: nat)
    requires Good(s.c) && CanMove(s, Reconnect(r)) && Present(Moved(s, Reconnect(r)).c.streams, s.reader.task, f)
    ensures var after := Moved(s, Reconnect(r));
      Following(after, f, s.reader.got, ReplayFrom(after.c.streams, s.reader.task, |s.reader.got|))
  {
    hide Good, LiveTask, Listen, OnTape;
    StepKeeps(s.c, SubscribeChannel(s.reader.task, |s.reader.got|, r));
    var after := Moved(s, Reconnect(r));
    ListenAt(s.c.streams, s.reader.task, |s.reader.got|, r, LiveTask(s.c.books, s.reader.task), f);
    StartsOnTape(after.c, r);
  }

  lemma ListenAt(st: Streams, t: TaskId, start: nat, r: RxId, live: bool, f: nat)
    requires r !in st.rxs && Present(Listen(st, t, start, r, live), t, f)
    ensures var after := Listen(st, t, start, r, live);
      && r in after.rxs && after.rxs[r].task == t && after.rxs[r].entry == Some(f)
      && after.rxs[r].start == ReplayFrom(after, t, start)
  {}

  lemma StartsOnTape(c: Cluster, r: RxId)
    requires Good(c) && r in c.streams.rxs && c.streams.rxs[r].entry.Some?
    ensures var rx := c.streams.rxs[r];
      rx.entry.value in c.streams.tapes && rx.start <= |c.streams.tapes[rx.entry.value].payloads|
  {
    hide BooksAgree, Owed, OpenOnlyLive, Truthful, LiveTask;
    assert ReceiverSound(c.streams, r);
  }

  /**
    A reader that comes back to a channel opened anew, say because a swept task was retried,
    forwards on from its count, or from the buffer's end if that is shorter: it ends up with its
    old messages followed by the new tape from there. That is the new tape's beginning exactly
    when the old messages are and the new ones lie in place after them, and with a buffer long
    enough exactly when the old messages are.
  */
  lemma ReopenedReader(s: Session, r: RxId, f: nat, moves: seq<Move>)
    requires Good(s.c) && CanMove(s, Reconnect(r)) && Present(Moved(s, Reconnect(r)).c.streams, s.reader.task, f)
    requires LegalMoves(Moved(s, Reconnect(r)), f, moves)
    requires
      || ReplayFrom(Moved(s, Reconnect(r)).c.streams, s.reader.task, |s.reader.got|) == |s.reader.got|
      || NoReconnect(moves)
    ensures var from := ReplayFrom(Moved(s, Reconnect(r)).c.streams, s.reader.task, |s.reader.got|);
      var end := Moves(Moved(s, Reconnect(r)), f, moves);
      var kept, got, tape := s.reader.got, end.reader.got,
        if f in end.c.streams.tapes then end.c.streams.tapes[f].payloads else [];
      && |kept| <= |got| && from + |got| - |kept| <= |tape|
      && got == kept + tape[from..from + |got| - |kept|]
      && (end.reader.ending.SawEnd? ==> got == kept + tape[from..])
      && (got <= tape <==> kept <= tape && |got| <= |tape| && tape[|kept|..|got|] == tape[from..from + |got| - |kept|])
      && (from == |kept| ==> (got <= tape <==> kept <= tape))
  {
    hide Moves, LegalMoves, Moved, Good, ReplayFrom;
    var after := Moved(s, Reconnect(r));
    var from := ReplayFrom(after.c.streams, s.reader.task, |s.reader.got|);
    ReopenedFollowing(s, r, f);
    MovesFollowing(after, f, s.reader.got, from, moves);
    var end := Moves(after, f, moves);
    var tape := end.c.streams.tapes[f].payloads;
    SplicePrefix(s.reader.got, tape[from..from + |end.reader.got| - |s.reader.got|], tape);
    if end.reader.ending.SawEnd? {
      EndIsWhole(end, f, s.reader.got, from);
    }
  }

  /**
    After the sweep the promise ends: a reader that reconnects to a finished task is told the
    stream has ended with what it happens to have, so it is complete exactly if it already was.
  */
  lemma SweptReaderEnds(s: Session, e: nat, r: RxId)
    requires OnEntry(s, e) && CanMove(s, Reconnect(r))
    requires s.reader.task !in s.c.streams.chans && !LiveTask(s.c.books, s.reader.task)
    ensures CanMove(Moved(s, Reconnect(r)), Next)
    ensures var after := Moved(Moved(s, Reconnect(r)), Next);
      && after.reader.ending.SawEnd?
      && after.reader.got == s.reader.got
      && after.c.streams.tapes == s.c.streams.tapes
      && (after.reader.got == after.c.streams.tapes[e].payloads <==> s.reader.got == s.c.streams.tapes[e].payloads)
  {
    hide Good, LiveTask;
  }

  ghost predicate EndsShort(s: Session, e: nat) {
    s.reader.ending.SawEnd? && e in s.c.streams.tapes && s.reader.got < s.c.streams.tapes[e].payloads
  }

  /**
    So every reader of a finished task that is not yet at the end can be cut short: from any such
    session the sweep and one reconnect lead to an EndOfStream with messages missing.
  */
  lemma SweptReaderEndsShort(s: Session, e: nat, r: RxId)
    requires OnEntry(s, e) && s.reader.ending.Reading? && r !in s.c.streams.rxs
    requires Present(s.c.streams, s.reader.task, e) && s.c.streams.chans[s.reader.task].closed
    requires !LiveTask(s.c.books, s.reader.task) && s.reader.got != s.c.streams.tapes[e].payloads
    ensures var late := s.c.streams.chans[s.reader.task].closedAt + STALE_THRESHOLD + 1;
      && CanMove(s, Serve(Wait(late))) && var waited := Moved(s, Serve(Wait(late)));
      && CanMove(waited, Serve(SweepChannels)) && var swept := Moved(waited, Serve(SweepChannels));
      && CanMove(swept, Reconnect(r)) && var back := Moved(swept, Reconnect(r));
      && CanMove(back, Next) && var end := Moved(back, Next);
      && EndsShort(end, e) && end.reader.got == s.reader.got
  {
    hide Good, LiveTask, Following;
    var late := s.c.streams.chans[s.reader.task].closedAt + STALE_THRESHOLD + 1;
    var waited := Moved(s, Serve(Wait(late)));
    MoveFollowing(s, e, [], 0, Serve(Wait(late)));
    MoveFollowing(waited, e, [], 0, Serve(SweepChannels));
    var swept := Moved(waited, Serve(SweepChannels));
    OnEntryTape(s, e);
    SweptReaderEnds(swept, e, r);
  }

  lemma OnEntryTape(s: Session, e: nat)
    requires OnEntry(s, e)
    ensures e in s.c.streams.tapes && s.reader.got <= s.c.streams.tapes[e].payloads
  {
    hide Good;
  }
}
