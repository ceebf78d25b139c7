/** One call of the coordinator's methods, and what the policy does after it. */
module MethodSteps {
  import opened ClusterTypes
  import opened TaskBooks
  import opened BookInvariants
  import opened BookSteps
  import opened StepShapes
  import opened MethodShapes
  import opened CoordinatorRuns
  import opened TaskChannels
  import opened PolicyQueues
  import opened PolicyRuns

  // ---- one call and what the policy does after it -------------------------------------------

  ghost predicate Does(before: Cluster, call: Call, after: Cluster) {
    Legal(before, call) && after == Step(before, call)
  }

  /** `after` is reached from `before` by the call, then the policy's own legal steps and the notices due. */
  ghost predicate Performs(before: Cluster, call: Call, acts: seq<Call>, after: Cluster) {
    && Legal(before, call)
    && (forall act :: act in acts ==> PolicyCall(act) || act.DeliverNotice?)
    && LegalRun(Step(before, call), acts)
    && after == Run(Step(before, call), acts)
  }

  lemma {:induction false} ScheduledActs(b: Books, acts: seq<Call>)
    requires Schedule(b, acts).Some?
    ensures forall act :: act in acts ==> PolicyCall(act)
    decreases |acts|
  {
    hide Assign, Discard, CanAssign, CanDiscard;
    if acts != [] {
      var init, last := acts[..|acts| - 1], acts[|acts| - 1];
      ScheduledActs(b, init);
      assert acts == init + [last];
      assert PolicyCall(last);
    }
  }

  lemma DoesGood(before: Cluster, call: Call, mid: Cluster)
    requires Good(before) && Does(before, call, mid)
    ensures Good(mid) && BooksAgree(mid.books)
  {
    hide Good, BooksAgree, Step, Legal;
    StepKeeps(before, call);
    GoodBooks(mid);
  }

  /** The desk after a set of notices has gone out. */
  function AllHandedOver(desk: Desk, ns: set<Notice>): Desk {
    desk.(due := desk.due - ns,
          sent := desk.sent + set n | n in ns && n.sub in desk.subs :: (n.sub, TaskResult(n.key.task, n.status)),
          missed := desk.missed + set n | n in ns && n.sub !in desk.subs :: (n.sub, n.key))
  }

  lemma HandOverMore(desk: Desk, ns: set<Notice>, n: Notice)
    requires n in ns
    ensures AllHandedOver(HandOver(desk, n), ns - {n}) == AllHandedOver(desk, ns)
  {
    var one, all := AllHandedOver(HandOver(desk, n), ns - {n}), AllHandedOver(desk, ns);
    assert one.due == all.due;
    assert one.sent == all.sent;
    assert one.missed == all.missed;
  }

  /** Notices due can all be handed over, in any order. */
  lemma {:induction false} HandOverRun(c: Cluster, ns: set<Notice>) returns (calls: seq<Call>)
    requires ns <= c.desk.due
    ensures forall call :: call in calls ==> call.DeliverNotice?
    ensures LegalRun(c, calls) && Run(c, calls) == c.(desk := AllHandedOver(c.desk, ns))
    decreases ns
  {
    hide HandOver, AllHandedOver;
    calls := [];
    if ns == {} {
      HandOverNone(c.desk);
    } else {
      var n :| n in ns;
      var next := c.(desk := HandOver(c.desk, n));
      HandOverDue(c.desk, n);
      HandOverMore(c.desk, ns, n);
      var rest := HandOverRun(next, ns - {n});
      assert Step(c, DeliverNotice(n)) == next;
      calls := [DeliverNotice(n)] + rest;
      assert calls[1..] == rest;
    }
  }

  lemma HandOverNone(desk: Desk)
    ensures AllHandedOver(desk, {}) == desk
  {}

  lemma HandOverDue(desk: Desk, n: Notice)
    ensures HandOver(desk, n).due == desk.due - {n}
  {}

  /** Announced and then handed over at one moment, notices are what `Notify` sends. */
  lemma AnnouncedAndTold(desk: Desk, notices: set<(SubId, Key)>, status: TaskStatus)
    requires desk.due == {}
    ensures AllHandedOver(Announce(desk, notices, status), Noticed(notices, status)) == Notify(desk, notices, status)
  {
    var told, sent :=
      AllHandedOver(Announce(desk, notices, status), Noticed(notices, status)), Notify(desk, notices, status);
    ToldSent(desk, notices, status);
    ToldMissed(desk, notices, status);
    assert told.due == sent.due;
  }

  lemma ToldSent(desk: Desk, notices: set<(SubId, Key)>, status: TaskStatus)
    ensures (set n | n in Noticed(notices, status) && n.sub in desk.subs :: (n.sub, TaskResult(n.key.task, n.status)))
         == (set n | n in notices && n.0 in desk.subs :: (n.0, TaskResult(n.1.task, status)))
  {
    forall n | n in notices
      ensures Notice(n.0, n.1, status) in Noticed(notices, status)
    {}
    var left := set n | n in Noticed(notices, status) && n.sub in desk.subs :: (n.sub, TaskResult(n.key.task, n.status));
    forall n | n in notices && n.0 in desk.subs
      ensures (n.0, TaskResult(n.1.task, status)) in left
    {
      var m := Notice(n.0, n.1, status);
      assert m in Noticed(notices, status) && m.sub in desk.subs;
    }
  }

  lemma ToldMissed(desk: Desk, notices: set<(SubId, Key)>, status: TaskStatus)
    ensures (set n | n in Noticed(notices, status) && n.sub !in desk.subs :: (n.sub, n.key))
         == (set n | n in notices && n.0 !in desk.subs)
  {
    var left := set n | n in Noticed(notices, status) && n.sub !in desk.subs :: (n.sub, n.key);
    forall n | n in notices && n.0 !in desk.subs
      ensures n in left
    {
      var m := Notice(n.0, n.1, status);
      assert m in Noticed(notices, status) && (m.sub, m.key) == n;
    }
  }

  lemma Performed(before: Cluster, call: Call, mid: Cluster, acts: seq<Call>, after: Cluster)
    requires Good(before) && Does(before, call, mid)
    requires Schedule(mid.books, acts) == Some(after.books) && after == mid.(books := after.books)
    ensures Performs(before, call, acts, after) && Good(after)
  {
    hide Good, Step, Legal, Schedule;
    ScheduledActs(mid.books, acts);
    ScheduleRuns(mid, acts);
    StepKeeps(before, call);
    RunKeeps(mid, acts);
  }

  /** The call, the policy's steps, and then the notices the call announced. */
  lemma PerformedAndTold(before: Cluster, call: Call, mid: Cluster, acts: seq<Call>, desk: Desk,
                         notices: set<(SubId, Key)>, status: TaskStatus, after: Cluster) returns (all: seq<Call>)
    requires Good(before) && Does(before, call, mid)
    requires desk.due == {} && mid.desk == Announce(desk, notices, status)
    requires Schedule(mid.books, acts) == Some(after.books)
    requires after == mid.(books := after.books, desk := Notify(desk, notices, status))
    ensures Performs(before, call, all, after) && Good(after)
  {
    hide Good, Step, Legal, Schedule, Notify, AllHandedOver;
    var busy := mid.(books := after.books);
    Performed(before, call, mid, acts, busy);
    AnnouncedAndTold(desk, notices, status);
    var told := HandOverRun(busy, Noticed(notices, status));
    RunConcat(mid, acts, told);
    RunKeeps(busy, told);
    all := acts + told;
  }

  /** The call alone, with nothing for the policy to do. */
  lemma PerformedAlone(before: Cluster, call: Call, mid: Cluster)
    requires Good(before) && Does(before, call, mid)
    ensures Performs(before, call, [], mid) && Good(mid)
  {
    hide Good, Does, Performs, Schedule;
    ScheduleNone(mid.books);
    Performed(before, call, mid, [], mid);
  }

  lemma WorkerSteps(c: Cluster, w: WorkerId, kind: WorkerKind, maxWeight: nat, reported: set<Key>)
    ensures Does(c, OpenWorker(w, kind, maxWeight), c.(books := AddWorker(c.books, w, kind, maxWeight, c.now)))
    ensures Does(c, WorkerHeartbeat(w, reported), c.(books := Heartbeat(c.books, w, reported, c.now)))
    ensures Does(c, RemoveWorkerCall(w), c.(books := RemoveWorker(c.books, w)))
  {
    hide RemoveWorker, Heartbeat, AddWorker;
  }

  lemma WorkSteps(c: Cluster, k: Key, ty: TaskType, lane: Lane, weight: nat)
    requires k.task !in c.books.issued
    ensures Does(c, CreateTask(k, ty, lane, weight), c.(books := AddTask(c.books, k, ty, lane, weight)))
    ensures Does(c, CreateProof(k.proof, k.task, ty, lane, weight),
                 if k.proof in c.books.proofs then c
                 else c.(books := AddTask(AddProof(c.books, k.proof), k, ty, lane, weight)))
  {
    hide AddTask, AddProof;
  }

  lemma FailProofStep(c: Cluster, p: ProofId, blamed: Option<TaskId>)
    ensures !ProofFails(c.books, p, blamed) ==> Does(c, FailProofCall(p, blamed), c)
    ensures ProofFails(c.books, p, blamed) ==>
      Does(c, FailProofCall(p, blamed),
           c.(books := DropProof(c.books, p),
              streams := CloseAll(c.streams, c.books.proofs[p].tasks.Keys, c.now),
              desk := Announce(c.desk, ProofNotices(c.books.proofs, p), FailedFatal)))
  {
    hide DropProof, CloseAll, Announce, ProofNotices;
  }

  lemma NoTaskFor(b: Books, k: Key, ty: TaskType, lane: Lane, weight: nat)
    requires k.proof !in b.proofs
    ensures AddTask(b, k, ty, lane, weight) == b
  {}

  lemma NoTaskStep(c: Cluster, k: Key, ty: TaskType, lane: Lane, weight: nat)
    requires k.task !in c.books.issued && k.proof !in c.books.proofs
    ensures Does(c, CreateTask(k, ty, lane, weight), c)
  {
    hide AddTask;
    WorkSteps(c, k, ty, lane, weight);
    NoTaskFor(c.books, k, ty, lane, weight);
  }

  /** Notices to one task's subscribers, spelled out. */
  lemma NotifyTask(desk: Desk, who: set<SubId>, k: Key, status: TaskStatus)
    ensures Notify(desk, Notices(who, k), status) == desk.(
      sent := desk.sent + set x | x in who && x in desk.subs :: (x, TaskResult(k.task, status)),
      missed := desk.missed + set x | x in who && x !in desk.subs :: (x, k))
  {
    var all := Notify(desk, Notices(who, k), status);
    forall x | x in who
      ensures x in desk.subs ==> (x, TaskResult(k.task, status)) in all.sent
      ensures x !in desk.subs ==> (x, k) in all.missed
    {
      assert (x, k) in Notices(who, k);
    }
    assert all.sent == desk.sent + set x | x in who && x in desk.subs :: (x, TaskResult(k.task, status));
    assert all.missed == desk.missed + set x | x in who && x !in desk.subs :: (x, k);
  }

  lemma NotifyNone(desk: Desk, status: TaskStatus)
    ensures Notify(desk, {}, status) == desk
  {
    assert (set n: (SubId, Key) | n in {} && n.0 in desk.subs :: (n.0, TaskResult(n.1.task, status))) == {};
    assert (set n: (SubId, Key) | n in {} && n.0 !in desk.subs) == {};
  }

  /** A call that enqueues nothing leaves the queues in step with the new books. */
  lemma NewLanes(c: Cluster, call: Call, mid: Cluster, cpu: seq<Key>, gpu: map<ProofId, seq<Key>>)
    requires Good(c) && Does(c, call, mid)
    requires QueuesOk(cpu, gpu, c.books.queue) && LanesOk(c.books.proofs, cpu, gpu)
    ensures LanesOk(mid.books.proofs, cpu, gpu) && Good(mid)
  {
    hide Good, BooksAgree, Step, QueuesOk, LanesOk, LanesKept;
    GoodBooks(c);
    StepKeeps(c, call);
    StepLanes(c, call);
    AgreeQueue(c.books);
    LanesMove(c.books, mid.books, cpu, gpu, c.books.queue);
  }

  lemma CompleteStep(c: Cluster, w: WorkerId, k: Key, gpuMs: nat, notify: set<SubId>)
    requires notify == if HasTask(c.books.proofs, k) && !TaskAt(c.books.proofs, k).status.Succeeded?
                       then TaskAt(c.books.proofs, k).subscribers else {}
    ensures Does(c, Call.CompleteTask(w, k, gpuMs),
      c.(books := Complete(c.books, w, k, gpuMs),
         streams := if HasTask(c.books.proofs, k) then Close(c.streams, k.task, c.now) else c.streams,
         desk := Announce(c.desk, Notices(notify, k), Succeeded)))
  {
    hide Complete, Close;
    assert notify == {} ==> Noticed(Notices(notify, k), Succeeded) == {};
    if !HasTask(c.books.proofs, k) {
      CompleteMissing(c.books, w, k, gpuMs);
    }
  }

  lemma GoodStreams(c: Cluster)
    requires Good(c)
    ensures StreamsSound(c.streams)
  {
    hide BooksAgree, StreamsSound, OpenOnlyLive, Owed, Truthful;
  }

  // ---- a failure report --------------------------------------------------------------------

  ghost function FailStreams(c: Cluster, k: Key, retryable: bool): Streams
    requires HasTask(c.books.proofs, k)
  {
    var closed := Close(c.streams, k.task, c.now);
    if FailureFailsProof(TaskAt(c.books.proofs, k), retryable)
    then CloseAll(closed, c.books.proofs[k.proof].tasks.Keys, c.now) else closed
  }

  ghost function FailDesk(c: Cluster, k: Key, retryable: bool): Desk
    requires HasTask(c.books.proofs, k)
  {
    if FailureFailsProof(TaskAt(c.books.proofs, k), retryable)
    then Notify(c.desk, ProofNotices(c.books.proofs, k.proof), FailedFatal) else c.desk
  }

  lemma FailParts(c: Cluster, k: Key, retryable: bool, manual: bool)
    requires HasTask(c.books.proofs, k) && !TaskAt(c.books.proofs, k).status.Succeeded?
    requires manual == FailureFailsProof(TaskAt(c.books.proofs, k), retryable)
    ensures FailStreams(c, k, retryable) ==
      (if manual then CloseAll(Close(c.streams, k.task, c.now), c.books.proofs[k.proof].tasks.Keys, c.now)
       else Close(c.streams, k.task, c.now))
    ensures FailDesk(c, k, retryable) ==
      (if manual then Notify(c.desk, ProofNotices(c.books.proofs, k.proof), FailedFatal) else c.desk)
    ensures FailDrops(c.books, k, retryable) == (manual || ActiveAfterFail(c.books, k, retryable) == 0)
  {
    hide Close, CloseAll, Notify, ProofNotices, ActiveAfterFail;
  }

  lemma MarkFailedFrame(b: Books, k: Key, retryable: bool)
    requires HasTask(b.proofs, k)
    ensures var marked := MarkFailed(b, k, retryable);
      && marked == b.(proofs := marked.proofs)
      && HasTask(marked.proofs, k)
      && marked.proofs[k.proof].activeTasks == ActiveAfterFail(b, k, retryable)
      && marked.proofs[k.proof].tasks.Keys == b.proofs[k.proof].tasks.Keys
      && WeightAt(marked.proofs, k) == WeightAt(b.proofs, k)
      && ProofNotices(marked.proofs, k.proof) == ProofNotices(b.proofs, k.proof)
      && Waiting(marked.proofs, k) == Waiting(b.proofs, k)
  {}

  lemma MarkedLanes(b: Books, k: Key, retryable: bool, qs: map<ProofId, Proof>)
    requires HasTask(b.proofs, k)
    requires var ps := MarkFailed(b, k, retryable).proofs; qs == ps || qs == ps - {k.proof}
    ensures LanesKept(b, b.(proofs := qs))
  {
    PutTaskAt(b.proofs, k, FailedTask(TaskAt(b.proofs, k), retryable), ActiveAfterFail(b, k, retryable));
  }

  lemma FailedLanes(b: Books, k: Key, retryable: bool, qs: map<ProofId, Proof>, cpu: seq<Key>,
                    gpu: map<ProofId, seq<Key>>)
    requires BooksAgree(b) && HasTask(b.proofs, k)
    requires var ps := MarkFailed(b, k, retryable).proofs; qs == ps || qs == ps - {k.proof}
    requires QueuesOk(cpu, gpu, b.queue) && LanesOk(b.proofs, cpu, gpu)
    ensures LanesOk(qs, cpu, gpu)
  {
    hide BooksAgree, QueuesOk, LanesOk, LanesKept, MarkFailed;
    MarkedLanes(b, k, retryable, qs);
    AgreeQueue(b);
    LanesMove(b, b.(proofs := qs), cpu, gpu, b.queue);
  }

  lemma CloseSound(st: Streams, t: TaskId, now: nat)
    requires StreamsSound(st)
    ensures StreamsSound(Close(st, t, now))
  {
    hide StreamsSound, Close, CloseAll;
    CloseIsCloseAll(st, t, now);
    CloseAllKeeps(st, {t}, now);
  }

  lemma FailRefusedStep(c: Cluster, w: WorkerId, k: Key, retryable: bool)
    requires !FailReply(c.books, w, k).Done?
    ensures Does(c, Call.FailTask(w, k, retryable), c)
  {
    hide Fail;
  }

  /** Whom a final failure concerns: everyone on the proof it takes down, or the task's own subscribers. */
  function FailNotices(c: Cluster, k: Key, retryable: bool): set<(SubId, Key)>
    requires HasTask(c.books.proofs, k)
  {
    if FailureFailsProof(TaskAt(c.books.proofs, k), retryable) then ProofNotices(c.books.proofs, k.proof)
    else Notices(TaskAt(c.books.proofs, k).subscribers, k)
  }

  lemma FailStep(c: Cluster, w: WorkerId, k: Key, retryable: bool)
    requires FailReply(c.books, w, k).Done? && !TaskAt(c.books.proofs, k).status.Succeeded?
    ensures Does(c, Call.FailTask(w, k, retryable),
      c.(books := Fail(c.books, w, k, retryable), streams := FailStreams(c, k, retryable),
         desk := if FailedStatus(TaskAt(c.books.proofs, k), retryable).FailedFatal?
                 then Announce(c.desk, FailNotices(c, k, retryable), FailedFatal) else c.desk))
  {
    hide Fail, Close, CloseAll, Announce;
  }

  /** The controller's own subscribers are told twice; the second notice adds nothing. */
  lemma FailTold(c: Cluster, k: Key, retryable: bool)
    requires HasTask(c.books.proofs, k)
    ensures Notify(FailDesk(c, k, retryable), Notices(TaskAt(c.books.proofs, k).subscribers, k), FailedFatal)
         == Notify(c.desk, FailNotices(c, k, retryable), FailedFatal)
    ensures FailedStatus(TaskAt(c.books.proofs, k), retryable).FailedRetryable? ==> FailDesk(c, k, retryable) == c.desk
  {
    hide Notify;
    var mine := Notices(TaskAt(c.books.proofs, k).subscribers, k);
    if FailureFailsProof(TaskAt(c.books.proofs, k), retryable) {
      var all := ProofNotices(c.books.proofs, k.proof);
      NotifyTwice(c.desk, all, mine, FailedFatal);
      assert all + mine == all;
    }
  }

  // ---- a worker's death --------------------------------------------------------------------

  /** Part of a dead worker's tasks are back in the queue. */
  ghost predicate Requeuing(b: Books, done: set<Key>, mid: Books) {
    && mid.proofs == CountRequeues(b.proofs, done)
    && mid.gpuWeights == Unhold(b, done).gpuWeights
    && mid.releases == b.releases + |done|
    && mid.queue == b.queue + multiset(done)
    && mid == b.(workers := mid.workers, proofs := mid.proofs, gpuWeights := mid.gpuWeights,
                 releases := mid.releases, queue := mid.queue)
  }

  lemma HeldBy(ws: map<WorkerId, Worker>, w: WorkerId)
    requires w in ws
    ensures ws[w].holds <= HeldKeys(ws)
  {}

  lemma RemoveNobody(b: Books, w: WorkerId)
    requires w !in b.workers
    ensures RemoveWorker(b, w) == b
  {}

  lemma RequeuingNone(b: Books, w: WorkerId, mid: Books)
    requires BooksAgree(b) && mid == b.(workers := b.workers - {w})
    ensures Requeuing(b, {}, mid)
  {
    hide Weigh, BooksAgree, Unhold;
    AgreeConserved(b);
    UnholdNothing(b);
    forall p | p in b.proofs
      ensures Requeued(b.proofs[p], p, {}) == b.proofs[p]
    {
      assert Requeued(b.proofs[p], p, {}).tasks == b.proofs[p].tasks;
    }
    assert CountRequeues(b.proofs, {}) == b.proofs;
  }

  lemma RequeuingTask(b: Books, done: set<Key>, mid: Books, k: Key)
    requires BooksAgree(b) && k in HeldKeys(b.workers) && k !in done && Requeuing(b, done, mid)
    ensures HasTask(b.proofs, k) && HasTask(mid.proofs, k) && TaskAt(mid.proofs, k) == TaskAt(b.proofs, k)
    ensures !TaskAt(b.proofs, k).lane.NoLane?
  {
    hide Weigh, BooksAgree, Unhold;
    AgreeConserved(b);
  }

  lemma RequeuedLanes(mid: Books, k: Key, cpu: seq<Key>, gpu: map<ProofId, seq<Key>>)
    requires HasTask(mid.proofs, k) && LanesOk(mid.proofs, cpu, gpu)
    ensures LanesOk(Recount(mid.proofs, k), cpu, gpu)
  {
    var qs := Recount(mid.proofs, k);
    assert forall j :: HasTask(qs, j) <==> HasTask(mid.proofs, j);
    assert forall j :: HasTask(qs, j) ==> TaskAt(qs, j).lane == TaskAt(mid.proofs, j).lane;
  }

  function Recount(ps: map<ProofId, Proof>, k: Key): map<ProofId, Proof>
    requires HasTask(ps, k)
  {
    ps[k.proof := ps[k.proof].(tasks := ps[k.proof].tasks[k.task := TaskAt(ps, k).(requeues := TaskAt(ps, k).requeues + 1)])]
  }

  lemma RecountMore(ps: map<ProofId, Proof>, done: set<Key>, k: Key)
    requires HasTask(ps, k) && k !in done
    ensures HasTask(CountRequeues(ps, done), k)
    ensures Recount(CountRequeues(ps, done), k) == CountRequeues(ps, done + {k})
  {
    var one, all := Recount(CountRequeues(ps, done), k), CountRequeues(ps, done + {k});
    forall p | p in ps
      ensures one[p] == all[p]
    {
      assert one[p].tasks == all[p].tasks;
    }
  }

  lemma RequeuingMore(b: Books, done: set<Key>, mid: Books, k: Key)
    requires BooksAgree(b) && k in HeldKeys(b.workers) && k !in done && Requeuing(b, done, mid)
    ensures HasTask(mid.proofs, k)
    ensures var task := TaskAt(mid.proofs, k);
      Requeuing(b, done + {k}, mid.(
        proofs := Recount(mid.proofs, k),
        gpuWeights := if task.lane.Gpu? then Debit(mid.gpuWeights, k.proof, task.weight) else mid.gpuWeights,
        releases := mid.releases + 1,
        queue := mid.queue + Waiting(Recount(mid.proofs, k), k)))
  {
    hide Weigh, BooksAgree, Unhold;
    RequeuingTask(b, done, mid, k);
    RecountMore(b.proofs, done, k);
    UnholdGpuStep(b, done, k);
    assert multiset(done + {k}) == multiset(done) + multiset{k};
  }

  lemma {:induction false} PairsCard(w: WorkerId, ks: set<Key>)
    ensures |set k | k in ks :: (w, k)| == |ks|
    decreases ks
  {
    if ks != {} {
      var j :| j in ks;
      PairsCard(w, ks - {j});
      assert (set k | k in ks :: (w, k)) == (set k | k in ks - {j} :: (w, k)) + {(w, j)};
    }
  }

  lemma HoldsWithout(ws: map<WorkerId, Worker>, w: WorkerId)
    requires w in ws
    ensures |Holds(ws)| == |Holds(ws - {w})| + |ws[w].holds|
  {
    var mine := set k | k in ws[w].holds :: (w, k);
    PairsCard(w, ws[w].holds);
    assert Holds(ws) == Holds(ws - {w}) + mine;
    assert Holds(ws - {w}) !! mine;
  }

  lemma RemoveWorkerFrame(b: Books, w: WorkerId)
    requires BooksAgree(b) && w in b.workers
    ensures var spec := RemoveWorker(b, w); var held := b.workers[w].holds;
      && spec.proofs == CountRequeues(b.proofs, held)
      && spec.gpuWeights == Unhold(b, held).gpuWeights
      && spec.queue == b.queue + multiset(held)
      && spec == b.(workers := spec.workers, proofs := spec.proofs, gpuWeights := spec.gpuWeights,
                    releases := spec.releases, queue := spec.queue)
  {
    hide Weigh, BooksAgree;
    AgreeConserved(b);
    var held := b.workers[w].holds;
    var counted := CountRequeues(b.proofs, held);
    CountRequeuesAt(b.proofs, held);
    RetouchedTask(b.proofs, counted);
    forall k | k in held
      ensures HasTask(counted, k) && !TaskAt(counted, k).lane.NoLane?
    {
      assert HasTask(b.proofs, k);
    }
    assert (set k | k in held && HasTask(counted, k) && !TaskAt(counted, k).lane.NoLane?) == held;
  }

  lemma RemoveWorkerIs(b: Books, w: WorkerId, after: Books)
    requires BooksAgree(b) && w in b.workers
    requires Requeuing(b, b.workers[w].holds, after) && after.workers == b.workers - {w}
    ensures after == RemoveWorker(b, w)
  {
    hide Weigh, BooksAgree, RemoveWorker, Unhold, Holds, CountRequeues, WeightsExact, HoldsSound;
    var spec := RemoveWorker(b, w);
    AgreeConserved(b);
    RemoveWorkerKeeps(b, w);
    AgreeConserved(spec);
    RemoveWorkerFrame(b, w);
    RemoveWorkerShape(b, w);
    HoldsWithout(b.workers, w);
  }

  lemma HeartbeatWeight(b: Books, w: WorkerId, gone: set<Key>)
    requires BooksAgree(b) && w in b.workers
    requires forall k :: k in gone ==> k in b.workers[w].holds && !HasTask(b.proofs, k)
    ensures b.workers[w].holds - gone == {} ==> Weigh(b.proofs, b.workers[w].holds) == 0
  {
    hide Weigh, BooksAgree;
    AgreeConserved(b);
    assert gone == {};
    assert b.workers[w].holds - gone == b.workers[w].holds;
    WeighNone(b.proofs);
  }

  // ---- new work and subscriptions ------------------------------------------------------------

  lemma AddTaskIs(b: Books, k: Key, ty: TaskType, lane: Lane, weight: nat)
    requires k.proof in b.proofs
    ensures var qs := PutTask(b.proofs, k, NewTask(ty, lane, weight), b.proofs[k.proof].activeTasks + 1);
      AddTask(b, k, ty, lane, weight) ==
        b.(proofs := qs, issued := b.issued[k.task := k.proof], queue := b.queue + Waiting(qs, k))
  {
    var qs := PutTask(b.proofs, k, NewTask(ty, lane, weight), b.proofs[k.proof].activeTasks + 1);
    EnqueueOne(b.(proofs := qs, issued := b.issued[k.task := k.proof]), k);
  }

  lemma EmptyProofLanes(b: Books, p: ProofId)
    ensures LanesKept(b, AddProof(b, p))
  {}

  function KeysOf(p: ProofId, ts: seq<TaskId>): set<Key> {
    set t | t in ts :: Key(p, t)
  }

  function Answers(b: Books, s: SubId, ks: set<Key>): set<(SubId, SubMessage)> {
    set k | k in ks && !OpenTask(b, k) :: (s, Answer(b, k))
  }

  lemma KeysMore(p: ProofId, ts: seq<TaskId>, i: nat)
    requires i < |ts|
    ensures KeysOf(p, ts[..i + 1]) == KeysOf(p, ts[..i]) + {Key(p, ts[i])}
  {
    assert ts[..i + 1] == ts[..i] + [ts[i]];
  }

  lemma AnswersMore(b: Books, s: SubId, ks: set<Key>, k: Key)
    ensures Answers(b, s, ks + {k}) == Answers(b, s, ks) + if OpenTask(b, k) then {} else {(s, Answer(b, k))}
  {
    hide OpenTask, Answer;
  }

  lemma SubscribeNone(b: Books, s: SubId)
    ensures Subscribe(b, s, {}).proofs == b.proofs
  {
    forall p | p in b.proofs
      ensures Subscribed(b.proofs[p], p, s, {}) == b.proofs[p]
    {
      assert Subscribed(b.proofs[p], p, s, {}).tasks == b.proofs[p].tasks;
    }
  }

  lemma SubscribedMore(proof: Proof, p: ProofId, s: SubId, ks: set<Key>, k: Key)
    ensures var one, two := Subscribed(proof, p, s, ks), Subscribed(proof, p, s, ks + {k});
      if p == k.proof && k.task in proof.tasks && !Terminal(proof.tasks[k.task].status) then
        && k.task in one.tasks
        && two == one.(tasks := one.tasks[k.task := one.tasks[k.task].(subscribers := one.tasks[k.task].subscribers + {s})])
      else one == two
  {
    var one, two := Subscribed(proof, p, s, ks), Subscribed(proof, p, s, ks + {k});
    if p == k.proof && k.task in proof.tasks && !Terminal(proof.tasks[k.task].status) {
      assert two.tasks == one.tasks[k.task := one.tasks[k.task].(subscribers := one.tasks[k.task].subscribers + {s})];
    } else {
      assert two.tasks == one.tasks;
    }
  }

  lemma SubscribeMore(b: Books, s: SubId, ks: set<Key>, k: Key)
    ensures var ps := Subscribe(b, s, ks).proofs; var qs := Subscribe(b, s, ks + {k}).proofs;
      if OpenTask(b, k) then
        && HasTask(ps, k)
        && qs == ps[k.proof := ps[k.proof].(tasks :=
             ps[k.proof].tasks[k.task := TaskAt(ps, k).(subscribers := TaskAt(ps, k).subscribers + {s})])]
      else qs == ps
  {
    hide Subscribed;
    forall p | p in b.proofs
      ensures p != k.proof ==> Subscribed(b.proofs[p], p, s, ks + {k}) == Subscribed(b.proofs[p], p, s, ks)
    {
      SubscribedMore(b.proofs[p], p, s, ks, k);
    }
    if k.proof in b.proofs {
      SubscribedMore(b.proofs[k.proof], k.proof, s, ks, k);
    }
  }

  lemma AddSubscriptionsIs(c: Cluster, s: SubId, p: ProofId, ts: seq<TaskId>)
    ensures var ks := KeysOf(p, ts);
      Does(c, AddSubscriptions(s, p, ts),
        c.(books := c.books.(proofs := Subscribe(c.books, s, ks).proofs),
           desk := c.desk.(accepted := c.desk.accepted + set k | k in ks :: (s, k),
                           sent := c.desk.sent + Answers(c.books, s, ks))))
  {
    hide Subscribe, OpenTask, Answer;
    SubscribeFrame(c.books, s, KeysOf(p, ts));
  }

  lemma SendIs(c: Cluster, t: TaskId, payload: Payload)
    ensures Does(c, SendTaskMessage(t, payload),
      if t in c.streams.chans || LiveTask(c.books, t)
      then c.(streams := Push(Open(c.streams, t), t, payload)) else c)
  {
    hide Push, LiveTask;
  }

  lemma ListenIs(c: Cluster, t: TaskId, start: nat, r: RxId)
    requires r !in c.streams.rxs
    ensures Does(c, SubscribeChannel(t, start, r),
      if t in c.streams.chans || LiveTask(c.books, t)
      then c.(streams := Attach(Open(c.streams, t), t, start, r))
      else c.(streams := c.streams.(rxs := c.streams.rxs[r := Receiver(t, None, 0, [EndOfStream], false)])))
  {
    hide Attach, LiveTask;
  }

  lemma NoHeartbeat(b: Books, w: WorkerId, reported: set<Key>, now: nat)
    requires w !in b.workers
    ensures Heartbeat(b, w, reported, now) == b
  {}

  lemma GoodQueue(c: Cluster)
    requires Good(c)
    ensures forall k :: k in c.books.queue ==> k.task in c.books.issued
  {
    hide Good, BooksAgree;
    GoodBooks(c);
    AgreeQueue(c.books);
  }

  lemma ProofFailsHere(b: Books, p: ProofId, blamed: Option<TaskId>)
    requires ProofFails(b, p, blamed)
    ensures p in b.proofs
  {}

  lemma SweepIs(c: Cluster)
    ensures Does(c, SweepChannels, c.(streams := Sweep(c.streams, c.now)))
  {
    hide Sweep;
  }

  lemma DeskSteps(c: Cluster, s: SubId, p: ProofId)
    ensures Does(c, CreateSubscriber(s, p), if s in c.desk.subs then c else c.(desk := c.desk.(subs := c.desk.subs[s := p])))
    ensures Does(c, DropSubscriber(s), c.(desk := c.desk.(subs := c.desk.subs - {s})))
  {}

  lemma QuietSteps(c: Cluster, w: WorkerId, n: nat)
    ensures Does(c, CloseWorkerCall(w), c.(books := CloseWorker(c.books, w)))
    ensures Does(c, Wait(n), c.(now := c.now + n))
  {
    hide CloseWorker;
  }
}
