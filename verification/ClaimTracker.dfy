/** The coordinator's side of the status protocol as it is written: maps and sets updated in loops. */
module ClaimTracker {
  import opened ClusterTypes
  import opened ProofRows
  import opened StatusProtocol

  lemma {:induction false} ActsSnoc(s: Sys, acts: seq<Act>, act: Act)
    requires LegalActs(s, acts) && CanAct(After(s, acts), act)
    ensures LegalActs(s, acts + [act]) && After(s, acts + [act]) == Acted(After(s, acts), act)
    decreases |acts|
  {
    hide CanAct, Acted;
    if acts == [] {
      assert [act][1..] == [];
    } else {
      ActsSnoc(Acted(s, acts[0]), acts[1..], act);
      assert (acts + [act])[1..] == acts[1..] + [act];
    }
  }

  /** What a direct read of a row came back with. */
  datatype ReadReply = NoReply | Reply(row: Option<Row>)

  /** The reply the API gives now, if it gives one. */
  predicate Honest(rows: map<RowId, Row>, id: RowId, reply: ReadReply) {
    reply.Reply? ==> reply.row == if id in rows then Some(rows[id]) else None
  }

  predicate Absent(reply: ReadReply, since: nat) {
    reply.Reply? && (reply.row.None? || !StillPending(reply.row.value, since))
  }

  /** A listed row; `created` tells whether the coordinator would create its proof. */
  datatype ListedRow = ListedRow(id: RowId, usable: bool, created: bool)

  function Ids(found: seq<ListedRow>): set<RowId> {
    set i | 0 <= i < |found| :: found[i].id
  }

  predicate Claimable(found: seq<ListedRow>, id: RowId) {
    exists i :: 0 <= i < |found| && found[i].id == id && found[i].usable && found[i].created
  }

  lemma NoneClaimable()
    ensures forall id :: !Claimable([], id)
  {}

  lemma ClaimableMore(found: seq<ListedRow>, i: nat)
    requires i < |found|
    ensures forall id :: Claimable(found[i..], id) <==>
      Claimable(found[i + 1..], id) || (id == found[i].id && found[i].usable && found[i].created)
  {
    assert found[i..] == [found[i]] + found[i + 1..];
    forall id | Claimable(found[i + 1..], id)
      ensures Claimable(found[i..], id)
    {
      var j :| 0 <= j < |found[i + 1..]| && found[i + 1..][j].id == id
          && found[i + 1..][j].usable && found[i + 1..][j].created;
      assert found[i..][j + 1] == found[i + 1..][j];
    }
    assert found[i..][0] == found[i];
  }

  lemma ClaimableIs(found: seq<ListedRow>)
    ensures forall i :: 0 <= i < |found| && found[i].usable && found[i].created ==> Claimable(found, found[i].id)
    ensures forall id :: Claimable(found, id) ==>
      exists i :: 0 <= i < |found| && found[i].id == id && found[i].usable && found[i].created
  {}

  class Tracker {
    var tracked: map<RowId, Entry>
    var inflight: set<RowId>
    var listed: set<RowId>
    ghost var rows: map<RowId, Row>
    ghost var posts: seq<Post>
    ghost var poll: Poll
    ghost var time: nat
    ghost var torn: set<RowId>

    ghost function State(): Sys
      reads this
    {
      Sys(rows, tracked, posts, inflight, poll.(listed := listed), time, torn)
    }

    /** The status writer takes one result: recorded before the write is attempted, or dropped. */
    method TakeResult(id: RowId, success: bool, metadata: string, extra: Option<string>) returns (write: Option<Update>)
      modifies this`tracked, this`posts
      ensures State() == Acted(old(State()), Result(id, success, metadata, extra))
      ensures write == if id in old(tracked) then Some(Completion(id, success, metadata, extra)) else None
      ensures write.Some? ==>
        && (write.value.status == Some(RowCompleted) <==> success) && (write.value.status == Some(RowFailed) <==> !success)
        && write.value.id == id && write.value.metadata == Some(metadata) && write.value.extra == extra
        && id in tracked && tracked[id] == Finished(write.value)
    {
      if id !in tracked {
        return None;
      }
      var status := if success then RowCompleted else RowFailed;
      var update := Update(id, Some(status), None, None, None, Some(metadata), extra);
      tracked := tracked[id := Finished(update)];
      posts := posts + [Post(update, false, false, true)];
      write := Some(update);
    }

    /** The writer's or a re-issue's call is over; only an acknowledged one stops the tracking. */
    method CallOver(ghost i: nat, id: RowId, reissue: bool, ok: bool)
      requires CanAct(State(), Return(i, ok)) && posts[i].update.id == id && posts[i].reissue == reissue
      modifies this`tracked, this`inflight, this`posts
      ensures State() == Acted(old(State()), Return(i, ok))
      ensures id in tracked <==> id in old(tracked) && !(ok && old(tracked)[id].Finished?)
      ensures tracked - {id} == old(tracked) - {id} && (id in tracked ==> tracked[id] == old(tracked)[id])
      ensures reissue ==> id !in inflight
    {
      if ok && id in tracked && tracked[id].Finished? {
        tracked := tracked - {id};
      }
      if reissue {
        inflight := inflight - {id};
      }
      posts := posts[i := posts[i].(open := false)];
    }

    /** `reissue_lost_status_write`: one at a time per proof. */
    method ReissueOne(update: Update) returns (sent: bool)
      requires CanAct(State(), Reissue(update))
      modifies this`inflight, this`posts
      ensures State() == Acted(old(State()), Reissue(update))
      ensures sent == (update.id !in old(inflight)) && inflight == old(inflight) + {update.id}
    {
      sent := update.id !in inflight;
      if sent {
        inflight := inflight + {update.id};
        posts := posts + [Post(update, true, false, true)];
      }
    }

    /** One listed row: skipped if tracked or unusable, otherwise claimed if the coordinator creates its proof. */
    method ClaimOne(row: ListedRow, ghost s: Sys, ghost acts: seq<Act>) returns (ghost more: seq<Act>)
      requires LegalActs(s, acts) && State() == After(s, acts)
      requires row.id in listed && poll.checking.None?
      modifies this`tracked, this`poll
      ensures LegalActs(s, more) && State() == After(s, more) && poll.checking.None?
      ensures tracked == if row.id !in old(tracked) && row.usable && row.created
                         then old(tracked)[row.id := Claimed] else old(tracked)
    {
      hide LegalActs, After;
      if row.id in tracked || !row.usable {
        return acts;
      }
      ActsSnoc(s, acts, Check(row.id));
      more := acts + [Check(row.id)];
      poll := poll.(checking := Some(row.id));
      ActsSnoc(s, more, Claim(row.created));
      more := more + [Claim(row.created)];
      if row.created {
        tracked := tracked[row.id := Claimed];
      }
      poll := poll.(checking := None);
    }

    /** The claimer's loop over a listing: tracked proofs keep their state, new ones become Claimed. */
    method ClaimListed(found: seq<ListedRow>) returns (ghost acts: seq<Act>)
      requires poll.checking.None?
      requires forall i :: 0 <= i < |found| ==> found[i].id in rows && StillPending(rows[found[i].id], 0)
      modifies this`tracked, this`listed, this`poll
      ensures LegalActs(old(State()), acts) && State() == After(old(State()), acts)
      ensures listed == Ids(found)
      ensures forall id :: id in old(tracked) ==> id in tracked && tracked[id] == old(tracked)[id]
      ensures forall id :: id in tracked && id !in old(tracked) ==> tracked[id].Claimed? && Claimable(found, id)
      ensures forall id :: Claimable(found, id) ==> id in tracked
      ensures forall i :: 0 <= i < |found| && found[i].usable && found[i].created ==> found[i].id in tracked
      ensures forall id :: id in tracked && id !in old(tracked) ==>
        exists i :: 0 <= i < |found| && found[i].id == id && found[i].usable && found[i].created
    {
      hide LegalActs, After, Claimable;
      ghost var s := State();
      OneAct(s, StartPoll);
      acts := [StartPoll];
      listed := Ids(found);
      ActsSnoc(s, acts, ReadPage(Ids(found)));
      acts := acts + [ReadPage(Ids(found))];
      assert {} + Ids(found) == Ids(found);
      NoneClaimable();
      assert found[|found|..] == [];
      var i := |found|;
      while i > 0
        invariant 0 <= i <= |found| && listed == Ids(found) && poll.checking.None?
        invariant LegalActs(s, acts) && State() == After(s, acts)
        invariant forall id :: id in old(tracked) ==> id in tracked && tracked[id] == old(tracked)[id]
        invariant forall id :: id in tracked && id !in old(tracked) ==> tracked[id].Claimed? && Claimable(found[i..], id)
        invariant forall id :: Claimable(found[i..], id) ==> id in tracked
      {
        i := i - 1;
        ClaimableMore(found, i);
        acts := ClaimOne(found[i], s, acts);
      }
      assert found[0..] == found;
      ClaimableIs(found);
    }

    /** The sweep of all unconfirmed writes leaves every recorded completion with a re-issue running. */
    method SweepUnconfirmed() returns (ghost acts: seq<Act>)
      requires Sound(State())
      modifies this`inflight, this`posts, this`poll
      ensures LegalActs(old(State()), acts) && State() == After(old(State()), acts)
      ensures forall id :: Recorded(State(), id) ==> id in inflight
    {
      hide Sound, LegalActs, After;
      ghost var s := State();
      OneAct(s, Snapshot);
      acts := [Snapshot];
      var todo := set id | id in tracked && tracked[id].Finished? :: tracked[id].update;
      RecordedUpdates(s);
      poll := poll.(listed := listed, unconfirmed := todo);
      ghost var all := todo;
      while todo != {}
        invariant todo <= all == poll.unconfirmed
        invariant LegalActs(s, acts) && State() == After(s, acts)
        invariant forall u :: u in all - todo ==> u.id in inflight
        decreases todo
      {
        var u :| u in todo;
        ActsSnoc(s, acts, Reissue(u));
        var _ := ReissueOne(u);
        acts := acts + [Reissue(u)];
        todo := todo - {u};
      }
      forall id | Recorded(State(), id)
        ensures id in inflight
      {
        assert tracked[id].update in all && tracked[id].update.id == id;
      }
    }

    /** `fail_missing_proofs` on one tracked proof that was not listed. */
    method ConfirmOne(id: RowId, reply: ReadReply, since: nat, ghost s: Sys, ghost acts: seq<Act>)
      returns (gone: bool, ghost more: seq<Act>)
      requires LegalActs(s, acts) && State() == After(s, acts) && Honest(rows, id, reply)
      requires id in poll.missing && poll.since == since && poll.listed == listed
      modifies this`tracked, this`poll, this`torn
      ensures LegalActs(s, more) && State() == After(s, more)
      ensures poll.missing.Keys == old(poll.missing.Keys) && poll.since == since && poll.listed == listed
      ensures gone <==> Absent(reply, since) && id in old(tracked) && old(tracked)[id].Claimed?
      ensures tracked == if gone then old(tracked) - {id} else old(tracked)
      ensures torn == if gone then old(torn) + {id} else old(torn)
    {
      hide LegalActs, After;
      if reply.NoReply? {
        return false, acts;
      }
      ActsSnoc(s, acts, ReadRow(id));
      more := acts + [ReadRow(id)];
      if reply.row.Some? && StillPending(reply.row.value, since) {
        poll := poll.(missing := poll.missing[id := Live]);
        return false, more;
      }
      poll := poll.(missing := poll.missing[id := Gone]);
      ActsSnoc(s, more, Teardown(id));
      more := more + [Teardown(id)];
      gone := id in tracked && tracked[id].Claimed?;
      if gone {
        tracked := tracked - {id};
        torn := torn + {id};
      }
    }

    /** Other clients of the API, and the API's execution of calls already sent, change the table. */
    ghost method Meanwhile(more: seq<Act>, s: Sys, acts: seq<Act>)
      requires LegalActs(s, acts) && State() == After(s, acts)
      requires AllApi(more) && LegalActs(State(), more)
      modifies this`rows, this`posts, this`time
      ensures LegalActs(s, acts + more) && State() == After(s, acts + more)
      ensures SameTable(State(), After(old(State()), more))
    {
      hide CanAct, Acted;
      ApiOnly(State(), more);
      ActsAppend(s, acts, more);
      var t := After(State(), more);
      rows, posts, time := t.rows, t.posts, t.time;
    }

    /**
      `fail_missing_proofs`, its reads answered one after another while the table changes: exactly
      the claimed proofs that were not listed and whose own row was then read as gone or out of the
      filter are torn down; a reply that does not come spares its proof.
    */
    method FailMissing(order: seq<RowId>, replies: seq<ReadReply>, since: nat, ghost changes: seq<seq<Act>>)
      returns (failed: set<RowId>, ghost acts: seq<Act>)
      requires since == time && |replies| == |changes| == |order|
      requires forall id :: id in order <==> id in tracked && tracked[id].Claimed? && id !in listed
      requires forall i, j :: 0 <= i < j < |order| ==> order[i] != order[j]
      requires Answered(State(), order, replies, changes)
      modifies this`tracked, this`poll, this`torn, this`rows, this`posts, this`time
      ensures LegalActs(old(State()), acts) && State() == After(old(State()), acts)
      ensures failed == TornDown(order, replies, since, |order|)
      ensures forall i :: 0 <= i < |order| ==> (order[i] in failed <==>
        && replies[i].Reply?
        && (replies[i].row == None || var row := replies[i].row.value;
              row.status != RowPending || row.handled || row.deadline < since))
      ensures tracked == old(tracked) - failed
    {
      hide LegalActs, After, Absent, Honest, Acted, CanAct, Answered, TornDown;
      ghost var s := State();
      SweepStarts(s);
      acts := [StartSweep];
      poll := poll.(listed := listed, missing := MissingNow(s), since := since);
      failed := {};
      ghost var table := s;
      assert order[0..] == order && replies[0..] == replies && changes[0..] == changes;
      TornDownNone(order, replies, since);
      for i := 0 to |order|
        invariant poll.missing.Keys == (set id | id in order) && poll.since == since && poll.listed == listed
        invariant LegalActs(s, acts) && State() == After(s, acts)
        invariant SameTable(State(), table) && Answered(table, order[i..], replies[i..], changes[i..])
        invariant failed == TornDown(order, replies, since, i) && tracked == old(tracked) - failed
      {
        AnsweredNext(table, order[i..], replies[i..], changes[i..]);
        assert order[i..][1..] == order[i + 1..] && replies[i..][1..] == replies[i + 1..];
        assert changes[i..][1..] == changes[i + 1..];
        assert order[i] in order;
        var gone;
        gone, acts := ConfirmNext(order[i], replies[i], since, changes[i], table, s, acts);
        table := After(table, changes[i]);
        TornDownMore(order, replies, since, i);
        if gone {
          failed := failed + {order[i]};
        }
      }
      TornDownExactly(order, replies, since);
    }

    /** The table changes, then one read is answered. */
    method ConfirmNext(id: RowId, reply: ReadReply, since: nat, ghost change: seq<Act>, ghost table: Sys,
                       ghost s: Sys, ghost acts: seq<Act>)
      returns (gone: bool, ghost more: seq<Act>)
      requires LegalActs(s, acts) && State() == After(s, acts)
      requires SameTable(State(), table) && AllApi(change) && LegalActs(table, change)
      requires Honest(After(table, change).rows, id, reply)
      requires id in poll.missing && poll.since == since && poll.listed == listed
      modifies this`tracked, this`poll, this`torn, this`rows, this`posts, this`time
      ensures LegalActs(s, more) && State() == After(s, more) && SameTable(State(), After(table, change))
      ensures poll.missing.Keys == old(poll.missing.Keys) && poll.since == since && poll.listed == listed
      ensures gone <==> Absent(reply, since) && id in old(tracked) && old(tracked)[id].Claimed?
      ensures tracked == if gone then old(tracked) - {id} else old(tracked)
    {
      hide LegalActs, After, Absent, Acted, CanAct;
      SameApi(State(), table, change);
      Meanwhile(change, s, acts);
      gone, more := ConfirmOne(id, reply, since, s, acts + change);
    }
  }

  function TornDown(order: seq<RowId>, replies: seq<ReadReply>, since: nat, n: nat): set<RowId>
    requires n <= |order| == |replies|
  {
    set i | 0 <= i < n && Absent(replies[i], since) :: order[i]
  }

  /** Torn down is what had its read answered by no row, or one not Pending, handled or past its deadline. */
  lemma TornDownExactly(order: seq<RowId>, replies: seq<ReadReply>, since: nat)
    requires |order| == |replies| && forall i, j :: 0 <= i < j < |order| ==> order[i] != order[j]
    ensures forall i :: 0 <= i < |order| ==> (order[i] in TornDown(order, replies, since, |order|) <==>
      && replies[i].Reply?
      && (replies[i].row == None || var row := replies[i].row.value;
            row.status != RowPending || row.handled || row.deadline < since))
  {}

  lemma TornDownNone(order: seq<RowId>, replies: seq<ReadReply>, since: nat)
    requires |order| == |replies|
    ensures TornDown(order, replies, since, 0) == {}
  {}

  lemma TornDownMore(order: seq<RowId>, replies: seq<ReadReply>, since: nat, n: nat)
    requires n < |order| == |replies|
    requires forall i, j :: 0 <= i < j < |order| ==> order[i] != order[j]
    ensures order[n] !in TornDown(order, replies, since, n)
    ensures TornDown(order, replies, since, n + 1) ==
      TornDown(order, replies, since, n) + if Absent(replies[n], since) then {order[n]} else {}
  {
    hide Absent;
  }

  lemma SweepStarts(s: Sys)
    ensures LegalActs(s, [StartSweep])
    ensures After(s, [StartSweep]) == s.(poll := s.poll.(missing := MissingNow(s), since := s.time))
  {
    OneAct(s, StartSweep);
  }

  // ---- the table while it is being read --------------------------------------------------------

  /** What happens at the API alone: requests of others, and calls already sent being executed. */
  predicate ApiAct(act: Act) {
    act.CreateRow? || act.CancelRow? || act.TouchRow? || act.Tick? || act.Execute?
  }

  predicate AllApi(acts: seq<Act>) {
    forall i :: 0 <= i < |acts| ==> ApiAct(acts[i])
  }

  predicate SameTable(s: Sys, t: Sys) {
    s.rows == t.rows && s.posts == t.posts && s.time == t.time
  }

  /** Each reply is the API's answer at its own moment, with the table changed in between. */
  ghost predicate Answered(s: Sys, order: seq<RowId>, replies: seq<ReadReply>, changes: seq<seq<Act>>)
    requires |replies| == |changes| == |order|
    decreases |order|
  {
    order == [] ||
    (&& AllApi(changes[0]) && LegalActs(s, changes[0])
     && Honest(After(s, changes[0]).rows, order[0], replies[0])
     && Answered(After(s, changes[0]), order[1..], replies[1..], changes[1..]))
  }

  lemma AnsweredNext(s: Sys, order: seq<RowId>, replies: seq<ReadReply>, changes: seq<seq<Act>>)
    requires |replies| == |changes| == |order| > 0 && Answered(s, order, replies, changes)
    ensures AllApi(changes[0]) && LegalActs(s, changes[0])
    ensures Honest(After(s, changes[0]).rows, order[0], replies[0])
    ensures Answered(After(s, changes[0]), order[1..], replies[1..], changes[1..])
  {}

  /** What happens at the API depends on the API's state alone, and changes nothing else. */
  lemma {:induction false} SameApi(s: Sys, t: Sys, acts: seq<Act>)
    requires SameTable(s, t) && AllApi(acts) && LegalActs(t, acts)
    ensures LegalActs(s, acts) && SameTable(After(s, acts), After(t, acts))
    decreases |acts|
  {
    if acts != [] {
      assert ApiAct(acts[0]) && AllApi(acts[1..]);
      SameApi(Acted(s, acts[0]), Acted(t, acts[0]), acts[1..]);
    }
  }

  lemma {:induction false} ApiOnly(s: Sys, acts: seq<Act>)
    requires AllApi(acts) && LegalActs(s, acts)
    ensures var t := After(s, acts); t == s.(rows := t.rows, posts := t.posts, time := t.time)
    decreases |acts|
  {
    if acts != [] {
      assert ApiAct(acts[0]) && AllApi(acts[1..]);
      ApiOnly(Acted(s, acts[0]), acts[1..]);
    }
  }

  lemma {:induction false} ActsAppend(s: Sys, acts: seq<Act>, more: seq<Act>)
    requires LegalActs(s, acts) && LegalActs(After(s, acts), more)
    ensures LegalActs(s, acts + more) && After(s, acts + more) == After(After(s, acts), more)
    decreases |acts|
  {
    hide CanAct, Acted;
    if acts == [] {
      assert [] + more == more;
    } else {
      ActsAppend(Acted(s, acts[0]), acts[1..], more);
      assert (acts + more)[1..] == acts[1..] + more;
    }
  }

  lemma OneAct(s: Sys, act: Act)
    requires CanAct(s, act)
    ensures LegalActs(s, [act]) && After(s, [act]) == Acted(s, act)
  {
    hide CanAct, Acted;
    assert [act][1..] == [];
  }

  lemma RecordedUpdates(s: Sys)
    requires Sound(s)
    ensures forall id :: Recorded(s, id) ==> s.tracked[id].update.id == id && s.tracked[id].update in Unconfirmed(s)
  {
    hide Rooted, AcksFinal, OutcomeSound, Posted;
  }
}
