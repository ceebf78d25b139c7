/**
  Per-task message channels: a buffer that late listeners replay, closed once, and swept
  60 seconds after closing. `rxs` records what each receiver was ever sent.
*/
module TaskChannels {
  import opened ClusterTypes

  datatype Message = Data(payload: Payload) | EndOfStream

  /** `entry` tells apart successive channel entries under one task id. */
  datatype Channel = Channel(entry: nat, buffer: seq<Payload>, closed: bool, closedAt: nat, listeners: set<RxId>)

  /** `entry` is None for a receiver that was only told the stream has ended. */
  datatype Receiver = Receiver(task: TaskId, entry: Option<nat>, start: nat, log: seq<Message>, dropped: bool)

  /** Everything ever buffered under one channel entry; it outlives the entry. */
  datatype Tape = Tape(task: TaskId, payloads: seq<Payload>)

  /** `tapes` is a history; no step branches on it. */
  datatype Streams = Streams(chans: map<TaskId, Channel>, rxs: map<RxId, Receiver>, entries: nat, tapes: map<nat, Tape>)

  const NO_STREAMS := Streams(map[], map[], 0, map[])
  const STALE_THRESHOLD: nat := 60

  function Messages(payloads: seq<Payload>): (r: seq<Message>)
    ensures |r| == |payloads| && forall i :: 0 <= i < |r| ==> r[i] == Data(payloads[i])
  {
    seq(|payloads|, i requires 0 <= i < |payloads| => Data(payloads[i]))
  }

  predicate Ended(log: seq<Message>) {
    |log| > 0 && log[|log| - 1].EndOfStream?
  }

  /** Sends one message to every listener whose receiver still exists. */
  function Deliver(rxs: map<RxId, Receiver>, to: set<RxId>, m: Message): map<RxId, Receiver> {
    map r | r in rxs :: if r in to && !rxs[r].dropped then rxs[r].(log := rxs[r].log + [m]) else rxs[r]
  }

  /** Buffers a payload, sends it on and prunes dead listeners; a closed channel drops it. */
  function Push(st: Streams, t: TaskId, p: Payload): Streams
    requires t in st.chans
  {
    var chan := st.chans[t];
    if chan.closed then st
    else
      st.(chans := st.chans[t := chan.(
            buffer := chan.buffer + [p],
            listeners := set r | r in chan.listeners && r in st.rxs && !st.rxs[r].dropped)],
          rxs := Deliver(st.rxs, chan.listeners, Data(p)),
          tapes := st.tapes[chan.entry := Tape(t, chan.buffer + [p])])
  }

  /** Replays the buffer from `start`; a closed channel ends the stream at once. */
  function Attach(st: Streams, t: TaskId, start: nat, r: RxId): Streams
    requires t in st.chans
  {
    var chan := st.chans[t];
    var first := if start <= |chan.buffer| then start else |chan.buffer|;
    var replay := Messages(chan.buffer[first..]);
    if chan.closed then
      st.(rxs := st.rxs[r := Receiver(t, Some(chan.entry), first, replay + [EndOfStream], false)])
    else
      st.(rxs := st.rxs[r := Receiver(t, Some(chan.entry), first, replay, false)],
          chans := st.chans[t := chan.(listeners := chan.listeners + {r})])
  }

  function Open(st: Streams, t: TaskId): Streams {
    if t in st.chans then st
    else
      st.(chans := st.chans[t := Channel(st.entries, [], false, 0, {})],
          tapes := st.tapes[st.entries := Tape(t, [])],
          entries := st.entries + 1)
  }

  /** `live` tells whether the task exists and is not final. */
  function Send(st: Streams, t: TaskId, p: Payload, live: bool): Streams {
    if t in st.chans then Push(st, t, p)
    else if live then Push(Open(st, t), t, p)
    else st
  }

  function Listen(st: Streams, t: TaskId, start: nat, r: RxId, live: bool): Streams {
    if t in st.chans then Attach(st, t, start, r)
    else if live then Attach(Open(st, t), t, start, r)
    else st.(rxs := st.rxs[r := Receiver(t, None, 0, [EndOfStream], false)])
  }

  function Close(st: Streams, t: TaskId, now: nat): Streams {
    if t !in st.chans || st.chans[t].closed then st
    else
      st.(chans := st.chans[t := st.chans[t].(closed := true, closedAt := now, listeners := {})],
          rxs := Deliver(st.rxs, st.chans[t].listeners, EndOfStream))
  }

  /** Closes the channels of several tasks; the order does not matter. */
  function CloseAll(st: Streams, ts: set<TaskId>, now: nat): Streams {
    var closing := set t | t in ts && t in st.chans && !st.chans[t].closed;
    st.(chans := map t | t in st.chans ::
          if t in closing then st.chans[t].(closed := true, closedAt := now, listeners := {}) else st.chans[t],
        rxs := Deliver(st.rxs, set t, r | t in closing && r in st.chans[t].listeners :: r, EndOfStream))
  }

  function Sweep(st: Streams, now: nat): Streams {
    st.(chans := map t | t in st.chans && !(st.chans[t].closed && now > st.chans[t].closedAt + STALE_THRESHOLD)
          :: st.chans[t])
  }

  function DropReceiver(st: Streams, r: RxId): Streams {
    if r in st.rxs then st.(rxs := st.rxs[r := st.rxs[r].(dropped := true)]) else st
  }

  // ---- what every step keeps -----------------------------------------------------------

  /** What a receiver attached at `start` has been sent agrees with the entry's buffer. */
  ghost predicate InStep(chan: Channel, rx: Receiver) {
    && rx.start <= |chan.buffer|
    && var all := Messages(chan.buffer[rx.start..]);
       || (rx.log <= all && (!rx.dropped ==> !chan.closed && rx.log == all))
       || (chan.closed && rx.log == all + [EndOfStream])
  }

  /** At most one EndOfStream, and nothing after it. */
  ghost predicate EndsOnce(log: seq<Message>) {
    forall i :: 0 <= i < |log| - 1 ==> log[i].Data?
  }

  /** What a receiver was sent is a piece of its entry's tape; after EndOfStream, the rest of it. */
  ghost predicate OnTape(tape: Tape, rx: Receiver) {
    && rx.start <= |tape.payloads|
    && var all := Messages(tape.payloads[rx.start..]);
       rx.log <= all || rx.log == all + [EndOfStream]
  }

  ghost predicate ReceiverSound(st: Streams, r: RxId)
    requires r in st.rxs
  {
    var rx := st.rxs[r];
    && EndsOnce(rx.log)
    && (rx.entry.Some? ==>
      && rx.entry.value in st.tapes && st.tapes[rx.entry.value].task == rx.task
      && OnTape(st.tapes[rx.entry.value], rx))
    && (rx.entry.Some? && rx.task in st.chans && st.chans[rx.task].entry == rx.entry.value ==> InStep(st.chans[rx.task], rx))
    && (!rx.dropped && !Ended(rx.log) ==>
          rx.entry.Some? && rx.task in st.chans && !st.chans[rx.task].closed && r in st.chans[rx.task].listeners)
  }

  predicate ListenerSound(st: Streams, t: TaskId, r: RxId)
    requires t in st.chans
  {
    && !st.chans[t].closed
    && r in st.rxs
    && st.rxs[r].task == t
    && st.rxs[r].entry == Some(st.chans[t].entry)
  }

  ghost predicate StreamsSound(st: Streams) {
    && (forall e :: e in st.tapes ==> e < st.entries)
    && (forall t :: t in st.chans ==>
          st.chans[t].entry in st.tapes && st.tapes[st.chans[t].entry] == Tape(t, st.chans[t].buffer))
    && (forall t, r :: t in st.chans && r in st.chans[t].listeners ==> ListenerSound(st, t, r))
    && (forall r :: r in st.rxs ==> ReceiverSound(st, r))
  }

  lemma PushKeeps(st: Streams, t: TaskId, p: Payload)
    requires StreamsSound(st) && t in st.chans
    ensures StreamsSound(Push(st, t, p))
  {
    var after := Push(st, t, p);
    var chan := st.chans[t];
    if !chan.closed {
      forall u, q | u in after.chans && q in after.chans[u].listeners
        ensures ListenerSound(after, u, q)
      {
        assert ListenerSound(st, u, q);
      }
      forall r | r in st.rxs
        ensures ReceiverSound(after, r)
      {
        assert ReceiverSound(st, r);
        var rx := st.rxs[r];
        if rx.entry == Some(chan.entry) && rx.task == t {
          assert Messages(after.chans[t].buffer[rx.start..]) == Messages(chan.buffer[rx.start..]) + [Data(p)];
          assert r in chan.listeners || rx.dropped;
        }
      }
    }
  }

  lemma AttachKeeps(st: Streams, t: TaskId, start: nat, r: RxId)
    requires StreamsSound(st) && t in st.chans && r !in st.rxs
    ensures StreamsSound(Attach(st, t, start, r))
  {
    var after := Attach(st, t, start, r);
    forall q | q in after.rxs
      ensures ReceiverSound(after, q)
    {
      assert q != r ==> ReceiverSound(st, q);
    }
  }

  lemma OpenKeeps(st: Streams, t: TaskId)
    requires StreamsSound(st)
    ensures StreamsSound(Open(st, t))
  {
    var after := Open(st, t);
    forall r | r in after.rxs
      ensures ReceiverSound(after, r)
    {
      assert ReceiverSound(st, r);
    }
  }

  lemma SendKeeps(st: Streams, t: TaskId, p: Payload, live: bool)
    requires StreamsSound(st)
    ensures StreamsSound(Send(st, t, p, live))
  {
    hide StreamsSound;
    OpenKeeps(st, t);
    if t in st.chans { PushKeeps(st, t, p); } else { PushKeeps(Open(st, t), t, p); }
  }

  lemma ListenKeeps(st: Streams, t: TaskId, start: nat, r: RxId, live: bool)
    requires StreamsSound(st) && r !in st.rxs
    ensures StreamsSound(Listen(st, t, start, r, live))
  {
    if t in st.chans {
      AttachKeeps(st, t, start, r);
    } else if live {
      OpenKeeps(st, t);
      AttachKeeps(Open(st, t), t, start, r);
    } else {
      var after := Listen(st, t, start, r, live);
      forall u, q | u in after.chans && q in after.chans[u].listeners
        ensures ListenerSound(after, u, q)
      {
        assert ListenerSound(st, u, q);
      }
      forall q | q in after.rxs
        ensures ReceiverSound(after, q)
      {
        assert q != r ==> ReceiverSound(st, q);
      }
    }
  }

  /** Closing channels adds one EndOfStream to whoever was still listening. */
  lemma CloseAllReceiver(st: Streams, ts: set<TaskId>, now: nat, r: RxId)
    requires StreamsSound(st) && r in st.rxs
    ensures ReceiverSound(CloseAll(st, ts, now), r)
  {
    assert ReceiverSound(st, r);
    var rx := st.rxs[r];
    var after := CloseAll(st, ts, now);
    if after.rxs[r] != rx {
      var t :| t in ts && t in st.chans && !st.chans[t].closed && r in st.chans[t].listeners;
      assert ListenerSound(st, t, r);
    } else if rx.task in ts && rx.task in st.chans && !st.chans[rx.task].closed {
      assert r in st.chans[rx.task].listeners ==> rx.dropped;
    }
  }

  lemma CloseAllKeeps(st: Streams, ts: set<TaskId>, now: nat)
    requires StreamsSound(st)
    ensures StreamsSound(CloseAll(st, ts, now))
  {
    hide ReceiverSound;
    var after := CloseAll(st, ts, now);
    forall u, q | u in after.chans && q in after.chans[u].listeners
      ensures ListenerSound(after, u, q)
    {
      assert ListenerSound(st, u, q);
    }
    forall r | r in after.rxs
      ensures ReceiverSound(after, r)
    {
      CloseAllReceiver(st, ts, now, r);
    }
  }

  lemma CloseIsCloseAll(st: Streams, t: TaskId, now: nat)
    ensures Close(st, t, now) == CloseAll(st, {t}, now)
  {
    var a, b := Close(st, t, now), CloseAll(st, {t}, now);
    assert a.chans == b.chans;
    assert a.rxs == b.rxs;
  }

  lemma SweepKeeps(st: Streams, now: nat)
    requires StreamsSound(st)
    ensures StreamsSound(Sweep(st, now))
  {
    var after := Sweep(st, now);
    forall r | r in after.rxs
      ensures ReceiverSound(after, r)
    {
      assert ReceiverSound(st, r);
    }
  }

  lemma DropReceiverKeeps(st: Streams, r: RxId)
    requires StreamsSound(st)
    ensures StreamsSound(DropReceiver(st, r))
  {
    var after := DropReceiver(st, r);
    forall q | q in after.rxs
      ensures ReceiverSound(after, q)
    {
      assert ReceiverSound(st, q);
    }
  }
}
