/** The reader's loop over one stream after another, resuming at the number forwarded. */
module MessageStream {
  import opened ClusterTypes
  import opened TaskChannels

  /** What a stream yields: a payload, an end marker, a response with no message, or an error. */
  datatype Item = Payload(data: Payload) | End | Blank | Error

  /** The payloads before the first other item. */
  function Lead(wire: seq<Item>): (r: seq<Payload>)
    ensures |r| <= |wire|
    ensures forall i :: 0 <= i < |r| ==> wire[i] == Item.Payload(r[i])
    ensures |r| < |wire| ==> !wire[|r|].Payload?
  {
    if wire == [] || !wire[0].Payload? then [] else [wire[0].data] + Lead(wire[1..])
  }

  /** A stream of `tape` from an offset: its next payloads, cut anywhere, ended only at the very end. */
  ghost predicate Serves(wire: seq<Item>, tape: seq<Payload>, from: nat) {
    && from <= |tape|
    && Lead(wire) <= tape[from..]
    && (|Lead(wire)| < |wire| && !wire[|Lead(wire)|].Error? ==> from + |Lead(wire)| == |tape|)
  }

  datatype Outcome = Ended | ConsumerGone | NoReconnect

  /**
    `drive_message_stream`. `reconnects[i]` is what the i-th reconnect attempt returns for an
    offset; a missing attempt is one that fails. `room` is how many payloads the consumer takes.
  */
  method DriveMessageStream(first: seq<Item>,
                            reconnects: seq<nat -> Option<seq<Item>>>, room: nat, ghost tape: seq<Payload>)
    returns (got: seq<Payload>, outcome: Outcome)
    requires Serves(first, tape, 0)
    requires forall i, from :: 0 <= i < |reconnects| && 0 <= from <= |tape| && reconnects[i](from).Some? ==>
      Serves(reconnects[i](from).value, tape, from)
    ensures got <= tape && |got| <= room
    ensures outcome.Ended? ==> got == tape
    ensures outcome.ConsumerGone? ==> |got| == room < |tape|
  {
    hide Lead, Serves;
    got := [];
    var inbound: seq<Item>, attempt: nat := first, 0;
    ghost var from: nat := 0;
    var i: nat := 0;
    while true
      invariant i <= |inbound| && attempt <= |reconnects|
      invariant Serves(inbound, tape, from)
      invariant got <= tape && |got| == from + i <= room && i <= |Lead(inbound)|
      decreases |reconnects| - attempt, |inbound| - i
    {
      if i < |inbound| && inbound[i].Payload? {
        ReadNext(inbound, tape, from, i);
        if |got| == room {
          return got, ConsumerGone;
        }
        got := got + [inbound[i].data];
        i := i + 1;
        continue;
      }
      if i < |inbound| && !inbound[i].Error? {
        StopHere(inbound, tape, from, i);
        return got, Ended;
      }
      if attempt == |reconnects| {
        return got, NoReconnect;
      }
      var stream := reconnects[attempt](|got|);
      if stream.None? {
        return got, NoReconnect;
      }
      attempt := attempt + 1;
      inbound, i := stream.value, 0;
      from := |got|;
    }
  }

  lemma ReadNext(wire: seq<Item>, tape: seq<Payload>, from: nat, i: nat)
    requires Serves(wire, tape, from) && i < |wire| && i <= |Lead(wire)| && wire[i].Payload?
    ensures i < |Lead(wire)| && from + i < |tape| && wire[i].data == tape[from + i]
  {
    assert Lead(wire)[i] == tape[from..][i];
  }

  lemma StopHere(wire: seq<Item>, tape: seq<Payload>, from: nat, i: nat)
    requires Serves(wire, tape, from) && i < |wire| && i <= |Lead(wire)| && !wire[i].Payload? && !wire[i].Error?
    ensures from + i == |tape|
  {}

  // ---- the coordinator's receivers are such streams -----------------------------------------

  function Wire(log: seq<Message>): seq<Item> {
    seq(|log|, i requires 0 <= i < |log| =>
      match log[i] case Data(p) => Item.Payload(p) case EndOfStream => Item.End)
  }

  lemma {:induction false} LeadOfData(payloads: seq<Payload>, rest: seq<Item>)
    requires rest == [] || !rest[0].Payload?
    ensures Lead(Wire(Messages(payloads)) + rest) == payloads
    decreases |payloads|
  {
    var wire := Wire(Messages(payloads)) + rest;
    if payloads == [] {
      assert wire == rest;
    } else {
      assert wire[1..] == Wire(Messages(payloads[1..])) + rest;
      LeadOfData(payloads[1..], rest);
    }
  }

  /** Whatever part of a receiver's log arrives before the connection breaks serves its entry's tape. */
  lemma ReceiverServes(tape: Tape, rx: Receiver, n: nat, broken: bool)
    requires OnTape(tape, rx) && n <= |rx.log|
    ensures Serves(Wire(rx.log[..n]) + (if broken then [Item.Error] else []), tape.payloads, rx.start)
  {
    var tail := if broken then [Item.Error] else [];
    var left := tape.payloads[rx.start..];
    if n <= |left| {
      assert rx.log[..n] == Messages(left[..n]);
      LeadOfData(left[..n], tail);
    } else {
      assert rx.log[..n] == Messages(left) + [EndOfStream];
      assert Wire(rx.log[..n]) + tail == Wire(Messages(left)) + ([Item.End] + tail);
      LeadOfData(left, [Item.End] + tail);
    }
  }
}
