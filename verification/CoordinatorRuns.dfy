/**
  The whole coordinator: books, subscriber desk and task channels, and its runs. A run is any
  sequence of calls, in any order and with any arguments, including stale and repeated
  reports, worker deaths and proof failures, up to shutdown.
*/
module CoordinatorRuns {
  import opened ClusterTypes
  import opened TaskBooks
  import opened BookInvariants
  import opened BookSteps
  import opened TaskChannels

  datatype SubMessage =
    | TaskResult(task: TaskId, status: TaskStatus)
    | UnknownTask(proof: ProofId, unknown: TaskId)

  /** A result that a subscriber is still to be told. */
  datatype Notice = Notice(sub: SubId, key: Key, status: TaskStatus)

  /**
    `subs` maps each connected subscriber to its proof; `due` holds the notices on their way, which
    go out one by one and some after the lock is released. `accepted` records the subscriptions
    ever accepted, `sent` the messages ever sent, `missed` the notices whose subscriber had
    already gone.
  */
  datatype Desk = Desk(
    subs: map<SubId, ProofId>,
    accepted: set<(SubId, Key)>,
    due: set<Notice>,
    sent: set<(SubId, SubMessage)>,
    missed: set<(SubId, Key)>)

  datatype Cluster = Cluster(books: Books, desk: Desk, streams: Streams, now: nat)

  const START := Cluster(EMPTY_BOOKS, Desk(map[], {}, {}, {}, {}), NO_STREAMS, 0)

  // ---- notices -------------------------------------------------------------------------

  function Notices(who: set<SubId>, k: Key): set<(SubId, Key)> {
    set x | x in who :: (x, k)
  }

  function TaskNotices(ps: map<ProofId, Proof>, k: Key): set<(SubId, Key)> {
    if HasTask(ps, k) then Notices(TaskAt(ps, k).subscribers, k) else {}
  }

  function ProofNotices(ps: map<ProofId, Proof>, p: ProofId): set<(SubId, Key)> {
    if p in ps then set t, x | t in ps[p].tasks && x in ps[p].tasks[t].subscribers :: (x, Key(p, t)) else {}
  }

  function Noticed(notices: set<(SubId, Key)>, status: TaskStatus): set<Notice> {
    set n | n in notices :: Notice(n.0, n.1, status)
  }

  function Announce(desk: Desk, notices: set<(SubId, Key)>, status: TaskStatus): Desk {
    desk.(due := desk.due + Noticed(notices, status))
  }

  /** One notice goes out: sent if its subscriber is connected at that moment, missed if not. */
  function HandOver(desk: Desk, n: Notice): Desk {
    if n.sub in desk.subs
    then desk.(due := desk.due - {n}, sent := desk.sent + {(n.sub, TaskResult(n.key.task, n.status))})
    else desk.(due := desk.due - {n}, missed := desk.missed + {(n.sub, n.key)})
  }

  /** A whole batch of notices sent at one moment. */
  function Notify(desk: Desk, notices: set<(SubId, Key)>, status: TaskStatus): Desk {
    desk.(sent := desk.sent + set n | n in notices && n.0 in desk.subs :: (n.0, TaskResult(n.1.task, status)),
          missed := desk.missed + set n | n in notices && n.0 !in desk.subs)
  }

  predicate LiveTask(b: Books, t: TaskId) {
    exists p :: p in b.proofs && t in b.proofs[p].tasks && !Terminal(b.proofs[p].tasks[t].status)
  }

  // ---- calls ---------------------------------------------------------------------------

  datatype Call =
    | CreateProof(proof: ProofId, task: TaskId, ty: TaskType, lane: Lane, weight: nat)
    | CreateDummyProof(proof: ProofId)
    | CreateTask(key: Key, ty: TaskType, lane: Lane, weight: nat)
    | CompleteTask(worker: WorkerId, key: Key, gpuMs: nat)
    | FailTask(worker: WorkerId, key: Key, retryable: bool)
    | FailProofCall(proof: ProofId, blamed: Option<TaskId>)
    | WorkerHeartbeat(worker: WorkerId, reported: set<Key>)
    | OpenWorker(worker: WorkerId, kind: WorkerKind, maxWeight: nat)
    | CloseWorkerCall(worker: WorkerId)
    | RemoveWorkerCall(worker: WorkerId)
    | PolicyAssign(worker: WorkerId, key: Key)
    | PolicyDiscard(key: Key)
    | CreateSubscriber(sub: SubId, proof: ProofId)
    | DropSubscriber(sub: SubId)
    | AddSubscriptions(sub: SubId, proof: ProofId, tasks: seq<TaskId>)
    | DeliverNotice(notice: Notice)
    | SendTaskMessage(task: TaskId, payload: Payload)
    | SubscribeChannel(task: TaskId, start: nat, rx: RxId)
    | DropRx(rx: RxId)
    | SweepChannels
    | Wait(seconds: nat)

  /** Fresh ids are fresh, and the policy acts only on what it checked. */
  predicate Legal(c: Cluster, call: Call) {
    match call
    case CreateProof(_, t, _, _, _) => t !in c.books.issued
    case CreateTask(k, _, _, _) => k.task !in c.books.issued
    case PolicyAssign(w, k) => CanAssign(c.books, w, k)
    case PolicyDiscard(k) => CanDiscard(c.books, k)
    case SubscribeChannel(_, _, r) => r !in c.streams.rxs
    case DeliverNotice(n) => n in c.desk.due
    case _ => true
  }

  ghost function CompleteCall(c: Cluster, w: WorkerId, k: Key, gpuMs: nat): Cluster {
    if !HasTask(c.books.proofs, k) then c
    else
      c.(books := Complete(c.books, w, k, gpuMs),
         streams := Close(c.streams, k.task, c.now),
         desk := if TaskAt(c.books.proofs, k).status.Succeeded? then c.desk
                 else Announce(c.desk, TaskNotices(c.books.proofs, k), Succeeded))
  }

  ghost function FailCall(c: Cluster, w: WorkerId, k: Key, retryable: bool): Cluster {
    if !FailReply(c.books, w, k).Done? then c
    else if TaskAt(c.books.proofs, k).status.Succeeded? then c.(books := Fail(c.books, w, k, retryable))
    else
      var task := TaskAt(c.books.proofs, k);
      var closed := c.(books := Fail(c.books, w, k, retryable), streams := Close(c.streams, k.task, c.now));
      if FailedStatus(task, retryable).FailedRetryable? then closed
      else if FailureFailsProof(task, retryable) then
        closed.(streams := CloseAll(closed.streams, c.books.proofs[k.proof].tasks.Keys, c.now),
                desk := Announce(c.desk, ProofNotices(c.books.proofs, k.proof), FailedFatal))
      else
        closed.(desk := Announce(c.desk, TaskNotices(c.books.proofs, k), FailedFatal))
  }

  ghost function FailProofEffect(c: Cluster, p: ProofId, blamed: Option<TaskId>): Cluster {
    if !ProofFails(c.books, p, blamed) then c
    else
      c.(books := FailProof(c.books, p, blamed),
         streams := CloseAll(c.streams, c.books.proofs[p].tasks.Keys, c.now),
         desk := Announce(c.desk, ProofNotices(c.books.proofs, p), FailedFatal))
  }

  function Answer(b: Books, k: Key): SubMessage {
    if !HasTask(b.proofs, k) then UnknownTask(k.proof, k.task) else TaskResult(k.task, TaskAt(b.proofs, k).status)
  }

  predicate OpenTask(b: Books, k: Key) {
    HasTask(b.proofs, k) && !Terminal(TaskAt(b.proofs, k).status)
  }

  /**
    The subscriber is looked up before the lock is taken, so it may be gone by now; its proof and
    its way back are those it had then.
  */
  function AddSubscriptionsEffect(c: Cluster, s: SubId, p: ProofId, ts: seq<TaskId>): Cluster {
    var ks := set t | t in ts :: Key(p, t);
    c.(books := Subscribe(c.books, s, ks),
       desk := c.desk.(accepted := c.desk.accepted + set k | k in ks :: (s, k),
                       sent := c.desk.sent + set k | k in ks && !OpenTask(c.books, k) :: (s, Answer(c.books, k))))
  }

  ghost function Step(c: Cluster, call: Call): Cluster
    requires Legal(c, call)
  {
    match call
    case CreateProof(p, t, ty, lane, weight) =>
      if p in c.books.proofs then c
      else c.(books := AddTask(AddProof(c.books, p), Key(p, t), ty, lane, weight))
    case CreateDummyProof(p) => c.(books := AddProof(c.books, p))
    case CreateTask(k, ty, lane, weight) => c.(books := AddTask(c.books, k, ty, lane, weight))
    case CompleteTask(w, k, gpuMs) => CompleteCall(c, w, k, gpuMs)
    case FailTask(w, k, retryable) => FailCall(c, w, k, retryable)
    case FailProofCall(p, blamed) => FailProofEffect(c, p, blamed)
    case WorkerHeartbeat(w, reported) => c.(books := Heartbeat(c.books, w, reported, c.now))
    case OpenWorker(w, kind, maxWeight) => c.(books := AddWorker(c.books, w, kind, maxWeight, c.now))
    case CloseWorkerCall(w) => c.(books := CloseWorker(c.books, w))
    case RemoveWorkerCall(w) => c.(books := RemoveWorker(c.books, w))
    case PolicyAssign(w, k) => c.(books := Assign(c.books, w, k))
    case PolicyDiscard(k) => c.(books := Discard(c.books, k))
    case CreateSubscriber(s, p) => if s in c.desk.subs then c else c.(desk := c.desk.(subs := c.desk.subs[s := p]))
    case DropSubscriber(s) => c.(desk := c.desk.(subs := c.desk.subs - {s}))
    case AddSubscriptions(s, p, ts) => AddSubscriptionsEffect(c, s, p, ts)
    case DeliverNotice(n) => c.(desk := HandOver(c.desk, n))
    case SendTaskMessage(t, p) => c.(streams := Send(c.streams, t, p, LiveTask(c.books, t)))
    case SubscribeChannel(t, start, r) => c.(streams := Listen(c.streams, t, start, r, LiveTask(c.books, t)))
    case DropRx(r) => c.(streams := DropReceiver(c.streams, r))
    case SweepChannels => c.(streams := Sweep(c.streams, c.now))
    case Wait(n) => c.(now := c.now + n)
  }

  // ---- runs ----------------------------------------------------------------------------

  ghost predicate LegalRun(c: Cluster, calls: seq<Call>)
    decreases |calls|
  {
    calls == [] || (Legal(c, calls[0]) && LegalRun(Step(c, calls[0]), calls[1..]))
  }

  ghost function Run(c: Cluster, calls: seq<Call>): Cluster
    requires LegalRun(c, calls)
    decreases |calls|
  {
    if calls == [] then c else Run(Step(c, calls[0]), calls[1..])
  }

  // ---- invariants across the parts -----------------------------------------------------

  /** An open channel belongs to an existing task that is not final. */
  ghost predicate OpenOnlyLive(c: Cluster) {
    forall t :: t in c.streams.chans && !c.streams.chans[t].closed ==> LiveTask(c.books, t)
  }

  predicate Registered(b: Books, s: SubId, k: Key) {
    OpenTask(b, k) && s in TaskAt(b.proofs, k).subscribers
  }

  predicate Answered(desk: Desk, s: SubId, k: Key) {
    || (s, TaskResult(k.task, Succeeded)) in desk.sent
    || (s, TaskResult(k.task, FailedFatal)) in desk.sent
    || (s, UnknownTask(k.proof, k.task)) in desk.sent
    || (s, k) in desk.missed
  }

  /** Its final result is on its way to the subscriber. */
  predicate Awaited(desk: Desk, s: SubId, k: Key) {
    Notice(s, k, Succeeded) in desk.due || Notice(s, k, FailedFatal) in desk.due
  }

  predicate Served(c: Cluster, s: SubId, k: Key) {
    Registered(c.books, s, k) || Awaited(c.desk, s, k) || Answered(c.desk, s, k)
  }

  ghost predicate Owed(c: Cluster) {
    forall s, k :: (s, k) in c.desk.accepted ==> Served(c, s, k)
  }

  /** A subscriber is told of a success only when the task did succeed. */
  ghost predicate Truthful(c: Cluster) {
    && (forall s, t :: (s, TaskResult(t, Succeeded)) in c.desk.sent ==> t in c.books.hooks)
    && (forall n :: n in c.desk.due && n.status.Succeeded? ==> n.key.task in c.books.hooks)
  }

  ghost predicate Good(c: Cluster) {
    BooksAgree(c.books) && StreamsSound(c.streams) && OpenOnlyLive(c) && Owed(c) && Truthful(c)
  }

  // ---- other tasks are left alone ------------------------------------------------------

  /** A proof with a live task has a count to show for it. */
  lemma LiveCounts(b: Books, k: Key)
    requires Records(b) && OpenTask(b, k)
    ensures b.proofs[k.proof].activeTasks > 0
  {
    hide CreditsOnce, HooksOnce, IdsUnique, RetriesBounded;
    assert k.task in Live(b.proofs[k.proof]);
  }

  lemma AgreeParts(b: Books)
    requires BooksAgree(b)
    ensures Ledger(b) && Records(b)
  {
    hide Ledger, Records;
  }

  lemma CompleteOthers(b: Books, w: WorkerId, k: Key, gpuMs: nat, j: Key)
    requires BooksAgree(b) && HasTask(b.proofs, k) && OpenTask(b, j) && j != k
    ensures OpenTask(Complete(b, w, k, gpuMs), j)
    ensures TaskAt(Complete(b, w, k, gpuMs).proofs, j) == TaskAt(b.proofs, j)
  {
    hide Weigh, BooksAgree, Records, Ledger;
    var marked := MarkSucceeded(b, w, k, gpuMs);
    AgreeParts(b);
    CompleteRecords(b, w, k, gpuMs);
    PutTaskAt(b.proofs, k, SucceededTask(TaskAt(b.proofs, k), w), marked.proofs[k.proof].activeTasks);
    if j.proof == k.proof { LiveCounts(marked, j); }
  }

  lemma FailOthers(b: Books, w: WorkerId, k: Key, retryable: bool, j: Key)
    requires BooksAgree(b) && FailReply(b, w, k).Done? && OpenTask(b, j) && j != k
    requires !FailureFailsProof(TaskAt(b.proofs, k), retryable) || TaskAt(b.proofs, k).status.Succeeded?
    ensures OpenTask(Fail(b, w, k, retryable), j)
    ensures TaskAt(Fail(b, w, k, retryable).proofs, j) == TaskAt(b.proofs, j)
  {
    hide Weigh, BooksAgree, Records, Ledger;
    if !TaskAt(b.proofs, k).status.Succeeded? {
      AgreeParts(b);
      FailMarks(b, w, k, retryable);
      var marked := MarkFailed(Unhold(b, {k}), k, retryable);
      PutTaskAt(b.proofs, k, FailedTask(TaskAt(b.proofs, k), retryable), ActiveAfterFail(Unhold(b, {k}), k, retryable));
      if j.proof == k.proof { LiveCounts(marked, j); }
    }
  }

  // ---- each call keeps the whole ---------------------------------------------------------

  /** Live tasks stay live with their subscribers, and no success is forgotten. */
  ghost predicate Carries(b: Books, after: Books) {
    && (forall j :: OpenTask(b, j) ==>
          OpenTask(after, j) && TaskAt(b.proofs, j).subscribers <= TaskAt(after.proofs, j).subscribers)
    && (forall t :: t in b.hooks ==> t in after.hooks)
  }

  lemma LiveCarried(b: Books, after: Books, t: TaskId)
    requires Carries(b, after) && LiveTask(b, t)
    ensures LiveTask(after, t)
  {
    var p :| p in b.proofs && t in b.proofs[p].tasks && !Terminal(b.proofs[p].tasks[t].status);
    assert OpenTask(b, Key(p, t));
    assert OpenTask(after, Key(p, t));
  }

  lemma BooksMove(c: Cluster, after: Books)
    requires Good(c) && BooksAgree(after) && Carries(c.books, after)
    ensures Good(c.(books := after))
  {
    hide BooksAgree, StreamsSound, LiveTask;
    forall t | t in c.streams.chans && !c.streams.chans[t].closed
      ensures LiveTask(after, t)
    {
      LiveCarried(c.books, after, t);
    }
  }

  lemma StreamsMove(c: Cluster, after: Streams)
    requires Good(c) && StreamsSound(after)
    requires forall t :: t in after.chans && !after.chans[t].closed ==>
      (t in c.streams.chans && !c.streams.chans[t].closed) || LiveTask(c.books, t)
    ensures Good(c.(streams := after))
  {
    hide BooksAgree, StreamsSound, LiveTask;
  }

  lemma ChannelCallKeeps(c: Cluster, call: Call)
    requires Good(c) && Legal(c, call)
    requires call.SendTaskMessage? || call.SubscribeChannel? || call.DropRx? || call.SweepChannels?
    ensures Good(Step(c, call))
  {
    hide BooksAgree, Owed, Truthful, LiveTask, Ledger, Records, ReceiverSound;
    match call
    case SendTaskMessage(t, p) =>
      SendKeeps(c.streams, t, p, LiveTask(c.books, t));
      StreamsMove(c, Step(c, call).streams);
    case SubscribeChannel(t, start, r) =>
      ListenKeeps(c.streams, t, start, r, LiveTask(c.books, t));
      StreamsMove(c, Step(c, call).streams);
    case DropRx(r) =>
      DropReceiverKeeps(c.streams, r);
      StreamsMove(c, Step(c, call).streams);
    case SweepChannels =>
      SweepKeeps(c.streams, c.now);
      StreamsMove(c, Step(c, call).streams);
  }

  lemma CompleteLive(c: Cluster, w: WorkerId, k: Key, gpuMs: nat)
    requires BooksAgree(c.books) && OpenOnlyLive(c) && HasTask(c.books.proofs, k)
    ensures OpenOnlyLive(CompleteCall(c, w, k, gpuMs))
  {
    hide BooksAgree, LiveTask, Complete;
    var after := CompleteCall(c, w, k, gpuMs);
    forall t | t in after.streams.chans && !after.streams.chans[t].closed
      ensures LiveTask(after.books, t)
    {
      CompleteLiveTask(c.books, w, k, gpuMs, t);
    }
  }

  lemma CompleteLiveTask(b: Books, w: WorkerId, k: Key, gpuMs: nat, t: TaskId)
    requires BooksAgree(b) && HasTask(b.proofs, k) && LiveTask(b, t) && t != k.task
    ensures LiveTask(Complete(b, w, k, gpuMs), t)
  {
    hide BooksAgree, Complete;
    var p :| p in b.proofs && t in b.proofs[p].tasks && !Terminal(b.proofs[p].tasks[t].status);
    CompleteOthers(b, w, k, gpuMs, Key(p, t));
  }

  lemma CompleteOwed(c: Cluster, w: WorkerId, k: Key, gpuMs: nat)
    requires BooksAgree(c.books) && Owed(c) && HasTask(c.books.proofs, k)
    ensures Owed(CompleteCall(c, w, k, gpuMs))
  {
    hide BooksAgree, Complete;
    var after := CompleteCall(c, w, k, gpuMs);
    forall s, j | (s, j) in after.desk.accepted
      ensures Served(after, s, j)
    {
      if Registered(c.books, s, j) {
        if j == k {
          assert (s, k) in TaskNotices(c.books.proofs, k);
          assert Notice(s, k, Succeeded) in after.desk.due;
        } else {
          CompleteOthers(c.books, w, k, gpuMs, j);
        }
      }
    }
  }

  lemma CompleteHooks(b: Books, w: WorkerId, k: Key, gpuMs: nat)
    requires HasTask(b.proofs, k) && HooksOnce(b)
    ensures Complete(b, w, k, gpuMs).hooks ==
      if TaskAt(b.proofs, k).status.Succeeded? then b.hooks else b.hooks + multiset{k.task}
    ensures k.task in Complete(b, w, k, gpuMs).hooks
  {
    hide Weigh;
  }

  lemma CompleteTruthful(c: Cluster, w: WorkerId, k: Key, gpuMs: nat)
    requires BooksAgree(c.books) && Truthful(c) && HasTask(c.books.proofs, k)
    ensures Truthful(CompleteCall(c, w, k, gpuMs))
  {
    hide Complete, Ledger, NoneStranded, NoIdleProof, IdsUnique, CreditsOnce, CountsExact;
    CompleteHooks(c.books, w, k, gpuMs);
  }

  lemma CompleteCallKeeps(c: Cluster, w: WorkerId, k: Key, gpuMs: nat)
    requires Good(c)
    ensures Good(CompleteCall(c, w, k, gpuMs))
  {
    hide BooksAgree, StreamsSound, OpenOnlyLive, Owed, Truthful, Complete;
    if HasTask(c.books.proofs, k) {
      CompleteKeeps(c.books, w, k, gpuMs);
      CompleteLive(c, w, k, gpuMs);
      CompleteOwed(c, w, k, gpuMs);
      CompleteTruthful(c, w, k, gpuMs);
      CloseIsCloseAll(c.streams, k.task, c.now);
      CloseAllKeeps(c.streams, {k.task}, c.now);
    }
  }

  /** A retried task stays live with its subscribers. */
  lemma RetryCarries(b: Books, w: WorkerId, k: Key, retryable: bool)
    requires BooksAgree(b) && FailReply(b, w, k).Done?
    requires TaskAt(b.proofs, k).status.Succeeded? || FailedStatus(TaskAt(b.proofs, k), retryable).FailedRetryable?
    ensures Carries(b, Fail(b, w, k, retryable))
  {
    hide BooksAgree, Fail;
    forall j | OpenTask(b, j)
      ensures OpenTask(Fail(b, w, k, retryable), j)
      ensures TaskAt(b.proofs, j).subscribers <= TaskAt(Fail(b, w, k, retryable).proofs, j).subscribers
    {
      if j == k { RetriedTask(b, w, k, retryable); } else { FailOthers(b, w, k, retryable, j); }
    }
    FailHooks(b, w, k, retryable);
  }

  lemma FailHooks(b: Books, w: WorkerId, k: Key, retryable: bool)
    ensures Fail(b, w, k, retryable).hooks == b.hooks
  {
    hide Weigh;
  }

  lemma RetriedTask(b: Books, w: WorkerId, k: Key, retryable: bool)
    requires BooksAgree(b) && FailReply(b, w, k).Done? && OpenTask(b, k)
    requires FailedStatus(TaskAt(b.proofs, k), retryable).FailedRetryable?
    ensures OpenTask(Fail(b, w, k, retryable), k)
    ensures TaskAt(Fail(b, w, k, retryable).proofs, k) == FailedTask(TaskAt(b.proofs, k), retryable)
  {
    hide Weigh, Ledger, CreditsOnce, HooksOnce, IdsUnique, RetriesBounded;
    FailMarks(b, w, k, retryable);
    var marked := MarkFailed(Unhold(b, {k}), k, retryable);
    assert k.task in Live(marked.proofs[k.proof]);
  }

  lemma DropOthers(b: Books, p: ProofId, j: Key)
    requires HasTask(b.proofs, j) && j.proof != p
    ensures HasTask(DropProof(b, p).proofs, j) && TaskAt(DropProof(b, p).proofs, j) == TaskAt(b.proofs, j)
  {
    hide Weigh;
  }

  /** With the proof gone, tasks of other proofs are as they were. */
  lemma FailedProofOthers(b: Books, w: WorkerId, k: Key, retryable: bool, j: Key)
    requires FailReply(b, w, k).Done? && !TaskAt(b.proofs, k).status.Succeeded?
    requires FailureFailsProof(TaskAt(b.proofs, k), retryable)
    requires HasTask(b.proofs, j) && j.proof != k.proof
    ensures HasTask(Fail(b, w, k, retryable).proofs, j)
    ensures TaskAt(Fail(b, w, k, retryable).proofs, j) == TaskAt(b.proofs, j)
  {
    hide Weigh;
    DropOthers(MarkFailed(Unhold(b, {k}), k, retryable), k.proof, j);
  }

  /** Tasks that a final failure leaves live: all others, or all in other proofs. */
  lemma FatalOthers(b: Books, w: WorkerId, k: Key, retryable: bool, j: Key)
    requires BooksAgree(b) && FailReply(b, w, k).Done? && !TaskAt(b.proofs, k).status.Succeeded?
    requires OpenTask(b, j) && j != k
    requires FailureFailsProof(TaskAt(b.proofs, k), retryable) ==> j.proof != k.proof
    ensures OpenTask(Fail(b, w, k, retryable), j)
    ensures TaskAt(Fail(b, w, k, retryable).proofs, j) == TaskAt(b.proofs, j)
  {
    hide BooksAgree, Fail;
    if FailureFailsProof(TaskAt(b.proofs, k), retryable) {
      FailedProofOthers(b, w, k, retryable, j);
    } else {
      FailOthers(b, w, k, retryable, j);
    }
  }

  lemma FatalOwed(c: Cluster, w: WorkerId, k: Key, retryable: bool)
    requires BooksAgree(c.books) && Owed(c) && FailReply(c.books, w, k).Done? && !TaskAt(c.books.proofs, k).status.Succeeded?
    requires FailedStatus(TaskAt(c.books.proofs, k), retryable).FailedFatal?
    ensures Owed(FailCall(c, w, k, retryable))
  {
    hide BooksAgree, Fail, Close, CloseAll;
    var after := FailCall(c, w, k, retryable);
    forall s, j | (s, j) in after.desk.accepted
      ensures Served(after, s, j)
    {
      if Registered(c.books, s, j) {
        if FailureFailsProof(TaskAt(c.books.proofs, k), retryable) && j.proof == k.proof {
          assert (s, j) in ProofNotices(c.books.proofs, k.proof);
          assert Notice(s, j, FailedFatal) in after.desk.due;
        } else if j == k {
          assert (s, k) in TaskNotices(c.books.proofs, k);
          assert Notice(s, k, FailedFatal) in after.desk.due;
        } else {
          FatalOthers(c.books, w, k, retryable, j);
        }
      }
    }
  }

  lemma FatalLive(c: Cluster, w: WorkerId, k: Key, retryable: bool)
    requires BooksAgree(c.books) && OpenOnlyLive(c)
    requires FailReply(c.books, w, k).Done? && !TaskAt(c.books.proofs, k).status.Succeeded?
    requires FailedStatus(TaskAt(c.books.proofs, k), retryable).FailedFatal?
    ensures OpenOnlyLive(FailCall(c, w, k, retryable))
  {
    hide BooksAgree, Fail, Announce;
    var b, after := c.books, FailCall(c, w, k, retryable);
    forall t | t in after.streams.chans && !after.streams.chans[t].closed
      ensures LiveTask(after.books, t)
    {
      assert t in c.streams.chans && !c.streams.chans[t].closed && t != k.task;
      var p :| p in b.proofs && t in b.proofs[p].tasks && !Terminal(b.proofs[p].tasks[t].status);
      FatalOthers(b, w, k, retryable, Key(p, t));
      assert OpenTask(after.books, Key(p, t));
    }
  }

  lemma FailCallKeeps(c: Cluster, w: WorkerId, k: Key, retryable: bool)
    requires Good(c)
    ensures Good(FailCall(c, w, k, retryable))
  {
    hide BooksAgree, StreamsSound, OpenOnlyLive, Owed, Fail, CloseAll;
    if FailReply(c.books, w, k).Done? {
      FailKeeps(c.books, w, k, retryable);
      FailHooks(c.books, w, k, retryable);
      CloseIsCloseAll(c.streams, k.task, c.now);
      CloseAllKeeps(c.streams, {k.task}, c.now);
      CloseAllKeeps(Close(c.streams, k.task, c.now), c.books.proofs[k.proof].tasks.Keys, c.now);
      if TaskAt(c.books.proofs, k).status.Succeeded? || FailedStatus(TaskAt(c.books.proofs, k), retryable).FailedRetryable? {
        RetryCarries(c.books, w, k, retryable);
        BooksMove(c, Fail(c.books, w, k, retryable));
        RetryStreams(c.(books := Fail(c.books, w, k, retryable)), k.task);
      } else {
        FatalOwed(c, w, k, retryable);
        FatalLive(c, w, k, retryable);
      }
    }
  }

  lemma RetryStreams(c: Cluster, t: TaskId)
    requires Good(c) && StreamsSound(Close(c.streams, t, c.now))
    ensures Good(c.(streams := Close(c.streams, t, c.now)))
  {
    hide BooksAgree, StreamsSound, Owed, Truthful, LiveTask;
    StreamsMove(c, Close(c.streams, t, c.now));
  }

  lemma FailProofLive(c: Cluster, p: ProofId, blamed: Option<TaskId>)
    requires OpenOnlyLive(c) && ProofFails(c.books, p, blamed)
    ensures OpenOnlyLive(FailProofEffect(c, p, blamed))
  {
    hide DropProof, Announce;
    var b, after := c.books, FailProofEffect(c, p, blamed);
    forall t | t in after.streams.chans && !after.streams.chans[t].closed
      ensures LiveTask(after.books, t)
    {
      assert t in c.streams.chans && !c.streams.chans[t].closed;
      var q :| q in b.proofs && t in b.proofs[q].tasks && !Terminal(b.proofs[q].tasks[t].status);
      DropOthers(b, p, Key(q, t));
      assert OpenTask(after.books, Key(q, t));
    }
  }

  lemma FailProofOwed(c: Cluster, p: ProofId, blamed: Option<TaskId>)
    requires Owed(c) && ProofFails(c.books, p, blamed)
    ensures Owed(FailProofEffect(c, p, blamed))
  {
    hide DropProof, CloseAll;
    var after := FailProofEffect(c, p, blamed);
    forall s, j | (s, j) in after.desk.accepted
      ensures Served(after, s, j)
    {
      if Registered(c.books, s, j) {
        if j.proof == p {
          assert (s, j) in ProofNotices(c.books.proofs, p);
          assert Notice(s, j, FailedFatal) in after.desk.due;
        } else {
          DropOthers(c.books, p, j);
        }
      }
    }
  }

  lemma DropHooks(b: Books, p: ProofId)
    ensures DropProof(b, p).hooks == b.hooks
  {
    hide Weigh;
  }

  lemma FailProofCallKeeps(c: Cluster, p: ProofId, blamed: Option<TaskId>)
    requires Good(c)
    ensures Good(FailProofEffect(c, p, blamed))
  {
    hide BooksAgree, StreamsSound, OpenOnlyLive, Owed, DropProof, CloseAll;
    if ProofFails(c.books, p, blamed) {
      FailProofKeeps(c.books, p, blamed);
      FailProofLive(c, p, blamed);
      FailProofOwed(c, p, blamed);
      DropHooks(c.books, p);
      CloseAllKeeps(c.streams, c.books.proofs[p].tasks.Keys, c.now);
    }
  }

  lemma RemoveWorkerCarries(b: Books, w: WorkerId)
    ensures Carries(b, RemoveWorker(b, w))
  {
    hide Weigh;
    if w in b.workers {
      CountRequeuesAt(b.proofs, b.workers[w].holds);
      RetouchedTask(b.proofs, CountRequeues(b.proofs, b.workers[w].holds));
      forall k | HasTask(b.proofs, k)
        ensures TaskAt(RemoveWorker(b, w).proofs, k).subscribers == TaskAt(b.proofs, k).subscribers
      {}
    }
  }

  lemma NewWorkCarries(b: Books, k: Key, ty: TaskType, lane: Lane, weight: nat)
    requires IdsUnique(b) && k.task !in b.issued
    ensures Carries(b, AddProof(b, k.proof))
    ensures Carries(b, AddTask(b, k, ty, lane, weight))
  {
    if k.proof in b.proofs {
      PutTaskAt(b.proofs, k, NewTask(ty, lane, weight), b.proofs[k.proof].activeTasks + 1);
    }
  }

  lemma AssignCarries(b: Books, w: WorkerId, k: Key)
    requires CanAssign(b, w, k)
    ensures Carries(b, Assign(b, w, k))
  {
    PutTaskAt(b.proofs, k, TaskAt(Assign(b, w, k).proofs, k), b.proofs[k.proof].activeTasks);
  }

  /** Moves that leave every live task and its subscribers in place. */
  lemma WorkCallKeeps(c: Cluster, call: Call)
    requires Good(c) && Legal(c, call)
    requires call.CreateProof? || call.CreateDummyProof? || call.CreateTask? || call.PolicyAssign? || call.PolicyDiscard?
    ensures Good(Step(c, call))
  {
    hide Good, Ledger, CountsExact, HooksOnce, CreditsOnce, NoneStranded, NoIdleProof, AddProof, AddTask,
         Assign, Carries;
    GoodBooks(c);
    match call
    case CreateProof(p, t, ty, lane, weight) =>
      if p !in c.books.proofs {
        var b := AddProof(c.books, p);
        AddProofKeeps(c.books, p);
        AddProofIssues(c.books, p);
        AddTaskKeeps(b, Key(p, t), ty, lane, weight);
        NewWorkCarries(c.books, Key(p, t), ty, lane, weight);
        BooksMove(c, b);
        NewWorkCarries(b, Key(p, t), ty, lane, weight);
        BooksMove(c.(books := b), AddTask(b, Key(p, t), ty, lane, weight));
      }
    case CreateDummyProof(p) =>
      AddProofKeeps(c.books, p);
      AddProofCarries(c.books, p);
      BooksMove(c, AddProof(c.books, p));
    case CreateTask(k, ty, lane, weight) =>
      AddTaskKeeps(c.books, k, ty, lane, weight);
      NewWorkCarries(c.books, k, ty, lane, weight);
      BooksMove(c, AddTask(c.books, k, ty, lane, weight));
    case PolicyAssign(w, k) =>
      AssignKeeps(c.books, w, k);
      AssignCarries(c.books, w, k);
      BooksMove(c, Assign(c.books, w, k));
    case PolicyDiscard(k) =>
      DiscardKeeps(c.books, k);
      SameCarries(c.books, Discard(c.books, k));
      BooksMove(c, Discard(c.books, k));
  }

  lemma GoodBooks(c: Cluster)
    requires Good(c)
    ensures BooksAgree(c.books)
  {}

  lemma AddProofIssues(b: Books, p: ProofId)
    ensures AddProof(b, p).issued == b.issued
  {}

  lemma AddProofCarries(b: Books, p: ProofId)
    ensures Carries(b, AddProof(b, p))
  {}

  lemma SameCarries(b: Books, after: Books)
    requires after.proofs == b.proofs && after.hooks == b.hooks
    ensures Carries(b, after)
  {}

  lemma WorkerCallKeeps(c: Cluster, call: Call)
    requires Good(c)
    requires call.WorkerHeartbeat? || call.OpenWorker? || call.CloseWorkerCall? || call.RemoveWorkerCall?
    ensures Good(Step(c, call))
  {
    hide Good, BooksAgree, Weigh, Heartbeat, RemoveWorker, Carries;
    GoodBooks(c);
    var b := c.books;
    match call
    case WorkerHeartbeat(w, reported) =>
      HeartbeatKeeps(b, w, reported, c.now);
      HeartbeatCarries(b, w, reported, c.now);
      BooksMove(c, Heartbeat(b, w, reported, c.now));
    case OpenWorker(w, kind, maxWeight) =>
      AddWorkerKeeps(b, w, kind, maxWeight, c.now);
      SameCarries(b, AddWorker(b, w, kind, maxWeight, c.now));
      BooksMove(c, AddWorker(b, w, kind, maxWeight, c.now));
    case CloseWorkerCall(w) =>
      if w in b.workers {
        TouchWorkerKeeps(b, w, b.workers[w].(closed := true));
        SameCarries(b, CloseWorker(b, w));
        BooksMove(c, CloseWorker(b, w));
      }
    case RemoveWorkerCall(w) =>
      RemoveWorkerKeeps(b, w);
      RemoveWorkerCarries(b, w);
      BooksMove(c, RemoveWorker(b, w));
  }

  lemma HeartbeatCarries(b: Books, w: WorkerId, reported: set<Key>, now: nat)
    ensures Carries(b, Heartbeat(b, w, reported, now))
  {
    hide Weigh;
  }

  lemma SubscribeOwed(c: Cluster, s: SubId, p: ProofId, ts: seq<TaskId>)
    requires Owed(c)
    ensures Owed(AddSubscriptionsEffect(c, s, p, ts))
  {
    hide Subscribe;
    var after := AddSubscriptionsEffect(c, s, p, ts);
    var ks := set t | t in ts :: Key(p, t);
    SubscribeAt(c.books, s, ks);
    RetouchedTask(c.books.proofs, after.books.proofs);
    forall x, j | (x, j) in after.desk.accepted
      ensures Served(after, x, j)
    {
      if (x, j) in c.desk.accepted {
        assert Served(c, x, j);
      } else if !OpenTask(c.books, j) {
        assert j in ks && (s, Answer(c.books, j)) in after.desk.sent;
      }
    }
  }

  lemma SubscribeCarries(b: Books, s: SubId, ks: set<Key>)
    ensures Carries(b, Subscribe(b, s, ks))
  {
    SubscribeAt(b, s, ks);
    RetouchedTask(b.proofs, Subscribe(b, s, ks).proofs);
  }

  lemma SubscribeTruthful(c: Cluster, s: SubId, p: ProofId, ts: seq<TaskId>)
    requires Truthful(c) && HooksOnce(c.books)
    ensures Truthful(AddSubscriptionsEffect(c, s, p, ts))
  {
    SubscribeFrame(c.books, s, set t | t in ts :: Key(p, t));
  }

  lemma DeskCallKeeps(c: Cluster, call: Call)
    requires Good(c) && Legal(c, call)
    requires call.CreateSubscriber? || call.DropSubscriber? || call.AddSubscriptions? || call.DeliverNotice?
    ensures Good(Step(c, call))
  {
    hide Ledger, IdsUnique, CountsExact, CreditsOnce, RetriesBounded, NoneStranded, NoIdleProof, StreamsSound,
         LiveTask, Subscribe, Truthful;
    match call
    case AddSubscriptions(s, p, ts) =>
      var ks := set t | t in ts :: Key(p, t);
      SubscribeKeeps(c.books, s, ks);
      SubscribeCarries(c.books, s, ks);
      BooksMove(c, Subscribe(c.books, s, ks));
      SubscribeOwed(c, s, p, ts);
      SubscribeTruthful(c, s, p, ts);
    case DeliverNotice(n) => HandOverKeeps(c, n);
    case CreateSubscriber(_, _) =>
      DeskMove(c, Step(c, call).desk);
    case DropSubscriber(_) =>
      DeskMove(c, Step(c, call).desk);
  }

  lemma HandOverKeeps(c: Cluster, n: Notice)
    requires Good(c) && n in c.desk.due
    ensures Good(c.(desk := HandOver(c.desk, n)))
  {
    hide BooksAgree, StreamsSound, LiveTask;
    var after := c.(desk := HandOver(c.desk, n));
    forall s, k | (s, k) in after.desk.accepted
      ensures Served(after, s, k)
    {
      assert Served(c, s, k);
    }
  }

  lemma DeskMove(c: Cluster, after: Desk)
    requires Good(c) && after.accepted == c.desk.accepted && after.due == c.desk.due
    requires after.sent == c.desk.sent && after.missed == c.desk.missed
    ensures Good(c.(desk := after))
  {
    hide BooksAgree, StreamsSound, LiveTask;
    forall s, k | (s, k) in after.accepted
      ensures Served(c.(desk := after), s, k)
    {
      assert Served(c, s, k);
    }
  }

  lemma StepKeeps(c: Cluster, call: Call)
    requires Good(c) && Legal(c, call)
    ensures Good(Step(c, call))
  {
    hide Good, BooksAgree, CompleteCall, FailCall, FailProofEffect;
    match call
    case CompleteTask(w, k, gpuMs) => CompleteCallKeeps(c, w, k, gpuMs);
    case FailTask(w, k, retryable) => FailCallKeeps(c, w, k, retryable);
    case FailProofCall(p, blamed) => FailProofCallKeeps(c, p, blamed);
    case Wait(n) => WaitKeeps(c, n);
    case CreateProof(_, _, _, _, _) => WorkCallKeeps(c, call);
    case CreateDummyProof(_) => WorkCallKeeps(c, call);
    case CreateTask(_, _, _, _) => WorkCallKeeps(c, call);
    case PolicyAssign(_, _) => WorkCallKeeps(c, call);
    case PolicyDiscard(_) => WorkCallKeeps(c, call);
    case WorkerHeartbeat(_, _) => WorkerCallKeeps(c, call);
    case OpenWorker(_, _, _) => WorkerCallKeeps(c, call);
    case CloseWorkerCall(_) => WorkerCallKeeps(c, call);
    case RemoveWorkerCall(_) => WorkerCallKeeps(c, call);
    case CreateSubscriber(_, _) => DeskCallKeeps(c, call);
    case DropSubscriber(_) => DeskCallKeeps(c, call);
    case AddSubscriptions(_, _, _) => DeskCallKeeps(c, call);
    case DeliverNotice(_) => DeskCallKeeps(c, call);
    case SendTaskMessage(_, _) => ChannelCallKeeps(c, call);
    case SubscribeChannel(_, _, _) => ChannelCallKeeps(c, call);
    case DropRx(_) => ChannelCallKeeps(c, call);
    case SweepChannels => ChannelCallKeeps(c, call);
  }

  lemma WaitKeeps(c: Cluster, n: nat)
    requires Good(c)
    ensures Good(c.(now := c.now + n))
  {}

  lemma {:induction false} RunKeeps(c: Cluster, calls: seq<Call>)
    requires Good(c) && LegalRun(c, calls)
    ensures Good(Run(c, calls))
    decreases |calls|
  {
    hide Good, Step;
    if calls != [] {
      StepKeeps(c, calls[0]);
      RunKeeps(Step(c, calls[0]), calls[1..]);
    }
  }

  lemma StartGood()
    ensures Good(START)
  {
    WeighNone(map[]);
  }
}
