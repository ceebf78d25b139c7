/**
  Getting a proof's final status into its row: the coordinator's claimer, status writer and
  re-issues against the API, in any interleaving. A call may be retried, delayed, executed more
  than once or lose its reply; an execution may come after the caller has given up.
*/
module StatusProtocol {
  import opened ClusterTypes
  import opened ProofRows

  /** What the coordinator knows about a proof it owns. */
  datatype Entry = Claimed | Finished(update: Update)

  /** One completion call: `acked` once some attempt was executed, `open` until it returns. */
  datatype Post = Post(update: Update, reissue: bool, acked: bool, open: bool)

  datatype Verdict = Unread | Live | Gone

  /** The claimer's poll: rows listed, the claim under way, missing proofs, and the sweep's snapshot. */
  datatype Poll = Poll(
    listed: set<RowId>,
    checking: Option<RowId>,
    missing: map<RowId, Verdict>,
    since: nat,
    unconfirmed: set<Update>)

  datatype Sys = Sys(
    rows: map<RowId, Row>,
    tracked: map<RowId, Entry>,
    posts: seq<Post>,
    inflight: set<RowId>,
    poll: Poll,
    time: nat,
    torn: set<RowId>)

  const INIT := Sys(map[], map[], [], {}, Poll({}, None, map[], 0, {}), 0, {})

  datatype Act =
    | CreateRow(id: RowId, request: Request, until: nat)
    | CancelRow(id: RowId)
    | TouchRow(id: RowId, handled: Option<bool>, extended: Option<nat>, execution: Option<Execution>)
    | Tick(seconds: nat)
    | Result(id: RowId, success: bool, metadata: string, extra: Option<string>)
    | Execute(post: nat)
    | Return(post: nat, ok: bool)
    | StartPoll
    | ReadPage(ids: set<RowId>)
    | Check(id: RowId)
    | Claim(created: bool)
    | StartSweep
    | ReadRow(id: RowId)
    | Teardown(id: RowId)
    | Snapshot
    | Reissue(update: Update)

  /** The writer's completion update. */
  function Completion(id: RowId, success: bool, metadata: string, extra: Option<string>): Update {
    Update(id, Some(if success then RowCompleted else RowFailed), None, None, None, Some(metadata), extra)
  }

  predicate CanAct(s: Sys, act: Act) {
    match act
    case Execute(i) => i < |s.posts|
    case Return(i, ok) => i < |s.posts| && s.posts[i].open && (ok ==> s.posts[i].acked)
    case ReadPage(ids) => forall id :: id in ids ==> id in s.rows && StillPending(s.rows[id], 0)
    case Check(id) => id in s.poll.listed && s.poll.checking.None?
    case Claim(_) => s.poll.checking.Some?
    case ReadRow(id) => id in s.poll.missing
    case Teardown(id) => id in s.poll.missing && s.poll.missing[id].Gone?
    case Reissue(u) => u in s.poll.unconfirmed
    case _ => true
  }

  function Untrack(tracked: map<RowId, Entry>, id: RowId): map<RowId, Entry> {
    if id in tracked && tracked[id].Finished? then tracked - {id} else tracked
  }

  function MissingNow(s: Sys): map<RowId, Verdict> {
    map id | id in s.tracked && s.tracked[id].Claimed? && id !in s.poll.listed :: Unread
  }

  function Unconfirmed(s: Sys): set<Update> {
    set id | id in s.tracked && s.tracked[id].Finished? :: s.tracked[id].update
  }

  function Acted(s: Sys, act: Act): Sys
    requires CanAct(s, act)
  {
    match act
    case CreateRow(id, request, deadline) => s.(rows := Created(s.rows, id, request, deadline, s.time))
    case CancelRow(id) => s.(rows := Cancelled(s.rows, id))
    case TouchRow(id, handled, deadline, execution) =>
      s.(rows := Updated(s.rows, Update(id, None, handled, deadline, execution, None, None)))
    case Tick(n) => s.(time := s.time + n)
    case Result(id, success, metadata, extra) =>
      if id !in s.tracked then s
      else
        var u := Completion(id, success, metadata, extra);
        s.(tracked := s.tracked[id := Finished(u)], posts := s.posts + [Post(u, false, false, true)])
    case Execute(i) =>
      s.(rows := Updated(s.rows, s.posts[i].update), posts := s.posts[i := s.posts[i].(acked := true)])
    case Return(i, ok) =>
      var id := s.posts[i].update.id;
      s.(tracked := if ok then Untrack(s.tracked, id) else s.tracked,
         inflight := if s.posts[i].reissue then s.inflight - {id} else s.inflight,
         posts := s.posts[i := s.posts[i].(open := false)])
    case StartPoll => s.(poll := s.poll.(listed := {}))
    case ReadPage(ids) => s.(poll := s.poll.(listed := s.poll.listed + ids))
    case Check(id) => if id in s.tracked then s else s.(poll := s.poll.(checking := Some(id)))
    case Claim(created) =>
      s.(tracked := if created then s.tracked[s.poll.checking.value := Claimed] else s.tracked,
         poll := s.poll.(checking := None))
    case StartSweep => s.(poll := s.poll.(missing := MissingNow(s), since := s.time))
    case ReadRow(id) =>
      var live := id in s.rows && StillPending(s.rows[id], s.poll.since);
      s.(poll := s.poll.(missing := s.poll.missing[id := if live then Live else Gone]))
    case Teardown(id) =>
      if id in s.tracked && s.tracked[id].Claimed?
      then s.(tracked := s.tracked - {id}, torn := s.torn + {id}) else s
    case Snapshot => s.(poll := s.poll.(unconfirmed := Unconfirmed(s)))
    case Reissue(u) =>
      if u.id in s.inflight then s
      else s.(inflight := s.inflight + {u.id}, posts := s.posts + [Post(u, true, false, true)])
  }

  predicate LegalActs(s: Sys, acts: seq<Act>)
    decreases |acts|
  {
    acts == [] || (CanAct(s, acts[0]) && LegalActs(Acted(s, acts[0]), acts[1..]))
  }

  function After(s: Sys, acts: seq<Act>): Sys
    requires LegalActs(s, acts)
    decreases |acts|
  {
    if acts == [] then s else After(Acted(s, acts[0]), acts[1..])
  }

  // ---- invariants ------------------------------------------------------------------------

  /** An update only the status writer makes: final status with its metadata. */
  predicate IsCompletion(u: Update) {
    && (u.status == Some(RowCompleted) || u.status == Some(RowFailed))
    && u.metadata.Some? && u.handled.None? && u.deadline.None?
  }

  predicate Posted(s: Sys, u: Update) {
    exists i :: 0 <= i < |s.posts| && s.posts[i].update == u
  }

  /** Everything the coordinator refers to has a row. */
  ghost predicate Rooted(s: Sys) {
    && s.tracked.Keys <= s.rows.Keys
    && s.poll.listed <= s.rows.Keys
    && (s.poll.checking.Some? ==> s.poll.checking.value in s.rows)
    && (forall i :: 0 <= i < |s.posts| ==> s.posts[i].update.id in s.rows)
  }

  ghost predicate PostsSound(s: Sys) {
    && (forall i :: 0 <= i < |s.posts| ==> IsCompletion(s.posts[i].update))
    && (forall id :: id in s.tracked && s.tracked[id].Finished? ==>
          s.tracked[id].update.id == id && Posted(s, s.tracked[id].update))
    && (forall u :: u in s.poll.unconfirmed ==> Posted(s, u))
  }

  /** An executed completion has left its row in a final status. */
  ghost predicate AcksFinal(s: Sys) {
    forall i :: 0 <= i < |s.posts| && s.posts[i].acked && s.posts[i].update.id in s.rows ==>
      !s.rows[s.posts[i].update.id].status.RowPending?
  }

  predicate FromOneUpdate(row: Row, u: Update) {
    u.status == Some(row.status) && u.metadata == Some(row.metadata) && u.extra == row.extra
  }

  /** A row's outcome is untouched, a bare cancel, or all of one completion. */
  ghost predicate OutcomeSound(s: Sys, id: RowId)
    requires id in s.rows
  {
    var row := s.rows[id];
    match row.status
    case RowPending => row.metadata == "null" && row.extra.None?
    case RowCancelled => row.metadata == "null" && row.extra.None?
    case _ => exists i :: 0 <= i < |s.posts| && s.posts[i].update.id == id && FromOneUpdate(row, s.posts[i].update)
  }

  ghost predicate Sound(s: Sys) {
    && Rooted(s) && PostsSound(s) && AcksFinal(s)
    && (forall id :: id in s.rows ==> OutcomeSound(s, id))
    && (s.poll.checking.Some? ==> s.poll.checking.value !in s.tracked)
    && s.poll.since <= s.time
  }

  /** Rows are never removed, keep what was requested, and past Pending keep their outcome. */
  ghost predicate RowsKept(s: Sys, t: Sys) {
    forall id :: id in s.rows ==>
      && id in t.rows
      && t.rows[id].request == s.rows[id].request && t.rows[id].createdAt == s.rows[id].createdAt
      && (!s.rows[id].status.RowPending? ==> SameOutcome(s.rows[id], t.rows[id]))
  }

  lemma RowsAdvance(s: Sys, act: Act)
    requires PostsSound(s) && CanAct(s, act)
    ensures RowsKept(s, Acted(s, act))
  {}

  lemma RootedKeeps(s: Sys, act: Act)
    requires Rooted(s) && PostsSound(s) && CanAct(s, act)
    ensures Rooted(Acted(s, act))
  {
    RowsAdvance(s, act);
    match act
    case Reissue(u) => assert Posted(s, u);
    case _ =>
  }

  lemma PostedStays(s: Sys, t: Sys, u: Update)
    requires Posted(s, u) && |s.posts| <= |t.posts|
    requires forall i :: 0 <= i < |s.posts| ==> s.posts[i].update == t.posts[i].update
    ensures Posted(t, u)
  {
    var i :| 0 <= i < |s.posts| && s.posts[i].update == u;
    assert t.posts[i].update == u;
  }

  lemma PostsKeeps(s: Sys, act: Act)
    requires PostsSound(s) && CanAct(s, act)
    ensures PostsSound(Acted(s, act))
  {
    hide Posted;
    var t := Acted(s, act);
    if act.Result? && act.id in s.tracked {
      PostedLast(t);
    } else if act.Reissue? {
      PostedCompletion(s, act.update);
    }
    forall id | id in t.tracked && t.tracked[id].Finished?
      ensures t.tracked[id].update.id == id && Posted(t, t.tracked[id].update)
    {
      if id in s.tracked && s.tracked[id] == t.tracked[id] { PostedStays(s, t, t.tracked[id].update); }
    }
    forall u | u in t.poll.unconfirmed
      ensures Posted(t, u)
    {
      if u in s.poll.unconfirmed {
        PostedStays(s, t, u);
      } else {
        var id :| id in s.tracked && s.tracked[id].Finished? && s.tracked[id].update == u;
        PostedStays(s, t, u);
      }
    }
  }

  lemma PostedLast(t: Sys)
    requires t.posts != []
    ensures Posted(t, t.posts[|t.posts| - 1].update)
  {}

  lemma PostedCompletion(s: Sys, u: Update)
    requires PostsSound(s) && Posted(s, u)
    ensures IsCompletion(u)
  {}

  lemma AcksKeeps(s: Sys, act: Act)
    requires Rooted(s) && PostsSound(s) && AcksFinal(s) && CanAct(s, act)
    ensures AcksFinal(Acted(s, act))
  {
    RowsAdvance(s, act);
    var t := Acted(s, act);
    forall i | 0 <= i < |t.posts| && t.posts[i].acked && t.posts[i].update.id in t.rows
      ensures !t.rows[t.posts[i].update.id].status.RowPending?
    {
      assert i < |s.posts| && t.posts[i].update == s.posts[i].update;
      assert IsCompletion(s.posts[i].update);
      assert s.posts[i].update.id in s.rows;
    }
  }

  lemma CompletionWrites(row: Row, u: Update)
    requires IsCompletion(u) && row.status.RowPending? && row.extra.None?
    ensures FromOneUpdate(Written(row, u), u) && !Written(row, u).status.RowPending? && !Written(row, u).status.RowCancelled?
    ensures Specified(u) && u.status.Some?
  {}

  lemma FinalOutcomeKeeps(s: Sys, act: Act, id: RowId)
    requires PostsSound(s) && CanAct(s, act)
    requires id in s.rows && !s.rows[id].status.RowPending? && OutcomeSound(s, id)
    ensures id in Acted(s, act).rows && OutcomeSound(Acted(s, act), id)
  {
    hide Posted, IsCompletion;
    var t := Acted(s, act);
    RowsAdvance(s, act);
    assert SameOutcome(s.rows[id], t.rows[id]);
    if !s.rows[id].status.RowCancelled? {
      var i :| 0 <= i < |s.posts| && s.posts[i].update.id == id && FromOneUpdate(s.rows[id], s.posts[i].update);
      assert t.posts[i].update == s.posts[i].update;
    }
  }

  lemma OutcomeKeeps(s: Sys, act: Act, id: RowId)
    requires PostsSound(s) && CanAct(s, act)
    requires id in s.rows ==> OutcomeSound(s, id)
    requires id in Acted(s, act).rows
    ensures OutcomeSound(Acted(s, act), id)
  {
    hide Posted, IsCompletion;
    var t := Acted(s, act);
    if id in s.rows && !s.rows[id].status.RowPending? {
      FinalOutcomeKeeps(s, act, id);
    } else if act.Execute? && s.posts[act.post].update.id == id && id in s.rows {
      CompletionWrites(s.rows[id], s.posts[act.post].update);
      assert t.posts[act.post].update == s.posts[act.post].update;
    }
  }

  lemma ActKeeps(s: Sys, act: Act)
    requires Sound(s) && CanAct(s, act)
    ensures Sound(Acted(s, act))
  {
    hide Rooted, PostsSound, AcksFinal, OutcomeSound;
    RootedKeeps(s, act);
    PostsKeeps(s, act);
    AcksKeeps(s, act);
    forall id | id in Acted(s, act).rows
      ensures OutcomeSound(Acted(s, act), id)
    {
      OutcomeKeeps(s, act, id);
    }
  }

  lemma {:induction false} ActsKeep(s: Sys, acts: seq<Act>)
    requires Sound(s) && LegalActs(s, acts)
    ensures Sound(After(s, acts))
    decreases |acts|
  {
    hide Sound, CanAct, Acted;
    if acts != [] {
      ActKeeps(s, acts[0]);
      ActsKeep(Acted(s, acts[0]), acts[1..]);
    }
  }

  lemma InitSound()
    ensures Sound(INIT)
  {}

  // ---- what the protocol promises ----------------------------------------------------------

  /** A row leaves Pending at most once in any run, and its outcome is then final. */
  lemma {:induction false} OutcomesFinal(s: Sys, acts: seq<Act>, id: RowId)
    requires Sound(s) && LegalActs(s, acts)
    requires id in s.rows && !s.rows[id].status.RowPending?
    ensures id in After(s, acts).rows && SameOutcome(s.rows[id], After(s, acts).rows[id])
    decreases |acts|
  {
    if acts != [] {
      RowsAdvance(s, acts[0]);
      ActKeeps(s, acts[0]);
      OutcomesFinal(Acted(s, acts[0]), acts[1..], id);
    }
  }

  /** Status, metadata and extra data of a finished row are those of one completion, never a mix. */
  lemma OutcomeFromOneCompletion(acts: seq<Act>, id: RowId)
    requires LegalActs(INIT, acts) && id in After(INIT, acts).rows
    requires var row := After(INIT, acts).rows[id]; row.status.RowCompleted? || row.status.RowFailed?
    ensures exists i :: 0 <= i < |After(INIT, acts).posts| && After(INIT, acts).posts[i].update.id == id
                     && FromOneUpdate(After(INIT, acts).rows[id], After(INIT, acts).posts[i].update)
  {
    hide LegalActs, After, Rooted, PostsSound, AcksFinal;
    InitSound();
    ActsKeep(INIT, acts);
    assert OutcomeSound(After(INIT, acts), id);
  }

  // ---- where an outcome comes from ----------------------------------------------------------------

  /** The update is what the status writer makes of this result: Completed if it succeeded, Failed if not. */
  predicate Writes(act: Act, u: Update) {
    && act.Result? && u.id == act.id && u.metadata == Some(act.metadata) && u.extra == act.extra
    && (act.success ==> u.status == Some(RowCompleted)) && (!act.success ==> u.status == Some(RowFailed))
  }

  ghost predicate FromResult(acts: seq<Act>, u: Update) {
    exists i :: 0 <= i < |acts| && Writes(acts[i], u)
  }

  /** Every completion posted, recorded or taken for re-issue comes from a result of the run so far. */
  ghost predicate AllFromResults(s: Sys, acts: seq<Act>) {
    && (forall i :: 0 <= i < |s.posts| ==> FromResult(acts, s.posts[i].update))
    && (forall id :: id in s.tracked && s.tracked[id].Finished? ==> FromResult(acts, s.tracked[id].update))
    && (forall u :: u in s.poll.unconfirmed ==> FromResult(acts, u))
  }

  lemma FromMore(acts: seq<Act>, act: Act, u: Update)
    requires FromResult(acts, u) || Writes(act, u)
    ensures FromResult(acts + [act], u)
  {
    if FromResult(acts, u) {
      var i :| 0 <= i < |acts| && Writes(acts[i], u);
      assert (acts + [act])[i] == acts[i];
    } else {
      assert (acts + [act])[|acts|] == act;
    }
  }

  lemma ActFromResults(s: Sys, act: Act, acts: seq<Act>)
    requires CanAct(s, act) && AllFromResults(s, acts)
    ensures AllFromResults(Acted(s, act), acts + [act])
  {
    hide FromResult;
    forall u | FromResult(acts, u) || Writes(act, u)
      ensures FromResult(acts + [act], u)
    {
      FromMore(acts, act, u);
    }
    if act.Result? {
      assert Writes(act, Completion(act.id, act.success, act.metadata, act.extra));
    }
  }

  lemma {:induction false} ActsFromResults(s: Sys, acts: seq<Act>, before: seq<Act>)
    requires LegalActs(s, acts) && AllFromResults(s, before)
    ensures AllFromResults(After(s, acts), before + acts)
    decreases |acts|
  {
    hide AllFromResults, CanAct, Acted;
    if acts == [] {
      assert before + acts == before;
    } else {
      ActFromResults(s, acts[0], before);
      ActsFromResults(Acted(s, acts[0]), acts[1..], before + [acts[0]]);
      assert before + [acts[0]] + acts[1..] == before + acts;
    }
  }

  /**
    In every run a row that ends Completed has its outcome from a result of that proof in the run that
    was a success, and one that ends Failed from one that was not; metadata and extra data are that
    result's too.
  */
  lemma OutcomeFromResult(acts: seq<Act>, id: RowId)
    requires LegalActs(INIT, acts) && id in After(INIT, acts).rows
    ensures var row := After(INIT, acts).rows[id];
      && (row.status == RowCompleted ==> Result(id, true, row.metadata, row.extra) in acts)
      && (row.status == RowFailed ==> Result(id, false, row.metadata, row.extra) in acts)
  {
    hide LegalActs, After;
    var row := After(INIT, acts).rows[id];
    if row.status == RowCompleted || row.status == RowFailed {
      OutcomeFromOneCompletion(acts, id);
      ActsFromResults(INIT, acts, []);
      assert [] + acts == acts;
      var i :| 0 <= i < |After(INIT, acts).posts| && After(INIT, acts).posts[i].update.id == id
        && FromOneUpdate(row, After(INIT, acts).posts[i].update);
      assert FromResult(acts, After(INIT, acts).posts[i].update);
      var j :| 0 <= j < |acts| && Writes(acts[j], After(INIT, acts).posts[i].update);
      assert acts[j] == Result(id, row.status == RowCompleted, row.metadata, row.extra);
    }
  }

  predicate Recorded(s: Sys, id: RowId) {
    id in s.tracked && s.tracked[id].Finished?
  }

  /** A recorded completion is dropped only when its row has left Pending. */
  lemma DroppedOnlyWhenFinal(s: Sys, act: Act, id: RowId)
    requires Sound(s) && CanAct(s, act)
    requires Recorded(s, id) && !Recorded(Acted(s, act), id)
    ensures id in s.rows && !s.rows[id].status.RowPending?
  {
    hide Posted, OutcomeSound;
    assert act.Return? && act.ok && s.posts[act.post].update.id == id;
  }

  /** No terminal write is lost: while the row is still Pending, its completion is still recorded. */
  lemma {:induction false} NoLostCompletion(s: Sys, acts: seq<Act>, id: RowId)
    requires Sound(s) && LegalActs(s, acts) && Recorded(s, id)
    requires id in After(s, acts).rows && After(s, acts).rows[id].status.RowPending?
    ensures Recorded(After(s, acts), id)
    decreases |acts|
  {
    hide Sound;
    if acts != [] {
      var t := Acted(s, acts[0]);
      ActKeeps(s, acts[0]);
      if !Recorded(t, id) {
        DroppedOnlyWhenFinal(s, acts[0], id);
        OutcomesFinal(s, acts, id);
        assert false;
      }
      NoLostCompletion(t, acts[1..], id);
    }
  }

  /** A result is recorded exactly when its proof is tracked at the moment the writer takes it. */
  lemma ResultRecorded(s: Sys, id: RowId, success: bool, metadata: string, extra: Option<string>)
    ensures var t := Acted(s, Result(id, success, metadata, extra));
      id in s.tracked <==>
        && id in t.tracked && t.tracked[id].Finished?
        && t.tracked[id].update == Update(
             id, Some(if success then RowCompleted else RowFailed), None, None, None, Some(metadata), extra)
        && t.posts == s.posts + [Post(t.tracked[id].update, false, false, true)]
  {}

  lemma RunStep(s: Sys, act: Act, rest: seq<Act>)
    requires CanAct(s, act) && LegalActs(Acted(s, act), rest)
    ensures LegalActs(s, [act] + rest) && After(s, [act] + rest) == After(Acted(s, act), rest)
  {
    hide CanAct, Acted;
    assert ([act] + rest)[1..] == rest;
  }

  /** A result taken between the claimer's check and its claim leaves no record: the proof looks unfinished. */
  lemma ResultBeforeClaimIsDropped(s: Sys, id: RowId, success: bool, metadata: string, extra: Option<string>)
    requires id in s.poll.listed && s.poll.checking.None? && id !in s.tracked
    ensures var acts := [Check(id)] + ([Result(id, success, metadata, extra)] + ([Claim(true)] + []));
      LegalActs(s, acts) && After(s, acts) == s.(tracked := s.tracked[id := Claimed])
  {
    var checked := Acted(s, Check(id));
    var dropped := Acted(checked, Result(id, success, metadata, extra));
    RunStep(dropped, Claim(true), []);
    RunStep(checked, Result(id, success, metadata, extra), [Claim(true)] + []);
    RunStep(s, Check(id), [Result(id, success, metadata, extra)] + ([Claim(true)] + []));
  }

  // ---- paging churn never kills a live proof -------------------------------------------------

  /** The row is Pending, not handled, and its deadline has not passed. */
  predicate LiveNow(s: Sys, id: RowId) {
    id in s.rows && s.rows[id].status == RowPending && !s.rows[id].handled && s.time <= s.rows[id].deadline
  }

  ghost predicate LiveThroughout(s: Sys, acts: seq<Act>, id: RowId)
    requires LegalActs(s, acts)
    decreases |acts|
  {
    LiveNow(s, id) && (acts == [] || LiveThroughout(Acted(s, acts[0]), acts[1..], id))
  }

  predicate Condemned(s: Sys, id: RowId) {
    id in s.poll.missing && s.poll.missing[id].Gone?
  }

  lemma LiveActKeeps(s: Sys, act: Act, id: RowId)
    requires Sound(s) && CanAct(s, act) && LiveNow(s, id) && !Condemned(s, id)
    ensures !Condemned(Acted(s, act), id)
    ensures id in Acted(s, act).torn ==> id in s.torn
    ensures id in s.tracked ==> id in Acted(s, act).tracked
  {
    hide Posted, OutcomeSound;
  }

  /**
    Whatever the walk skips or repeats, a tracked proof whose row stays Pending, unhandled and
    within its deadline is never torn down and never forgotten.
  */
  lemma {:induction false} LiveProofSurvives(s: Sys, acts: seq<Act>, id: RowId)
    requires Sound(s) && LegalActs(s, acts) && !Condemned(s, id) && LiveThroughout(s, acts, id)
    ensures id in After(s, acts).torn ==> id in s.torn
    ensures id in s.tracked ==> id in After(s, acts).tracked
    decreases |acts|
  {
    hide Sound, CanAct, Acted, Condemned, LiveNow;
    if acts != [] {
      LiveActKeeps(s, acts[0], id);
      ActKeeps(s, acts[0]);
      LiveProofSurvives(Acted(s, acts[0]), acts[1..], id);
    }
  }

  /** Tearing a proof down takes a direct read that found its row gone or out of the filter, and spares completions. */
  lemma TeardownNeedsARead(s: Sys, act: Act, id: RowId)
    requires CanAct(s, act)
    ensures id in Acted(s, act).torn && id !in s.torn ==> act == Teardown(id) && Condemned(s, id) && s.tracked[id].Claimed?
    ensures Condemned(Acted(s, act), id) && !Condemned(s, id) ==>
      act == ReadRow(id) && (id in s.rows ==>
        s.rows[id].status != RowPending || s.rows[id].handled || s.rows[id].deadline < s.poll.since)
    ensures act.Teardown? ==> forall j :: Recorded(s, j) ==> Recorded(Acted(s, act), j)
  {}

  // ---- re-issues -------------------------------------------------------------------------------

  predicate Reissuing(s: Sys, i: nat, id: RowId) {
    i < |s.posts| && s.posts[i].open && s.posts[i].reissue && s.posts[i].update.id == id
  }

  /** `inflight` holds exactly the proofs with a re-issue running, and no proof has two. */
  ghost predicate InflightExact(s: Sys) {
    && (forall id :: id in s.inflight <==> exists i: nat :: Reissuing(s, i, id))
    && (forall i: nat, j: nat, id: RowId :: Reissuing(s, i, id) && Reissuing(s, j, id) ==> i == j)
  }

  lemma ReissuingKept(s: Sys, act: Act, i: nat, id: RowId)
    requires CanAct(s, act)
    requires !act.Return? && !act.Reissue?
    ensures Reissuing(Acted(s, act), i, id) <==> Reissuing(s, i, id)
  {}

  lemma ReturnKeepsInflight(s: Sys, p: nat, ok: bool)
    requires InflightExact(s) && CanAct(s, Return(p, ok))
    ensures InflightExact(Acted(s, Return(p, ok)))
  {
    var t := Acted(s, Return(p, ok));
    assert forall i: nat, id: RowId :: Reissuing(t, i, id) <==> Reissuing(s, i, id) && i != p;
    forall id
      ensures id in t.inflight <==> exists i: nat :: Reissuing(t, i, id)
    {
      assert s.posts[p].reissue ==> Reissuing(s, p, s.posts[p].update.id);
      if id in t.inflight {
        var i: nat :| Reissuing(s, i, id);
        assert Reissuing(t, i, id);
      }
      if i: nat :| Reissuing(t, i, id) {
        assert Reissuing(s, i, id);
      }
    }
  }

  lemma ReissueKeepsInflight(s: Sys, u: Update)
    requires InflightExact(s) && CanAct(s, Reissue(u))
    ensures InflightExact(Acted(s, Reissue(u)))
  {
    var t := Acted(s, Reissue(u));
    if u.id !in s.inflight {
      assert forall i: nat, id: RowId :: Reissuing(t, i, id) <==> Reissuing(s, i, id) || (i == |s.posts| && id == u.id);
      forall id
        ensures id in t.inflight <==> exists i: nat :: Reissuing(t, i, id)
      {
        if id == u.id {
          assert Reissuing(t, |s.posts|, id);
        } else if id in s.inflight {
          var i: nat :| Reissuing(s, i, id);
          assert Reissuing(t, i, id);
        }
      }
    }
  }

  lemma ActKeepsInflight(s: Sys, act: Act)
    requires InflightExact(s) && CanAct(s, act)
    ensures InflightExact(Acted(s, act))
  {
    match act
    case Return(p, ok) => ReturnKeepsInflight(s, p, ok);
    case Reissue(u) => ReissueKeepsInflight(s, u);
    case _ => PlainKeepsInflight(s, act);
  }

  lemma PlainKeepsInflight(s: Sys, act: Act)
    requires InflightExact(s) && CanAct(s, act) && !act.Return? && !act.Reissue?
    ensures InflightExact(Acted(s, act))
  {
    hide Reissuing, CanAct;
    var t := Acted(s, act);
    forall i: nat, id: RowId
      ensures Reissuing(t, i, id) <==> Reissuing(s, i, id)
    {
      ReissuingKept(s, act, i, id);
    }
  }

  lemma {:induction false} ActsKeepInflight(s: Sys, acts: seq<Act>)
    requires InflightExact(s) && LegalActs(s, acts)
    ensures InflightExact(After(s, acts))
    decreases |acts|
  {
    hide InflightExact, CanAct, Acted;
    if acts != [] {
      ActKeepsInflight(s, acts[0]);
      ActsKeepInflight(Acted(s, acts[0]), acts[1..]);
    }
  }

  /**
    The deduplication never blocks recovery: in every run a recorded completion either is being
    re-issued by exactly one call, or the next sweep re-issues it.
  */
  lemma ReissueNeverBlocked(acts: seq<Act>, id: RowId)
    requires LegalActs(INIT, acts) && Recorded(After(INIT, acts), id)
    ensures var s := After(INIT, acts);
      || (exists i: nat :: Reissuing(s, i, id))
      || (CanAct(Acted(s, Snapshot), Reissue(s.tracked[id].update))
          && exists i: nat :: Reissuing(Acted(Acted(s, Snapshot), Reissue(s.tracked[id].update)), i, id))
    ensures forall i: nat, j: nat :: Reissuing(After(INIT, acts), i, id) && Reissuing(After(INIT, acts), j, id) ==> i == j
  {
    hide LegalActs, After, Rooted, AcksFinal, OutcomeSound, Posted;
    InitSound();
    ActsKeep(INIT, acts);
    ActsKeepInflight(INIT, acts);
    var s := After(INIT, acts);
    if id !in s.inflight {
      var swept := Acted(s, Snapshot);
      assert s.tracked[id].update in Unconfirmed(s);
      assert Reissuing(Acted(swept, Reissue(s.tracked[id].update)), |s.posts|, id);
    }
  }
}
