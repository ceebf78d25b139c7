/**
  What single calls do to the books, said in the source's own terms: statuses, kinds of worker and
  limits are written out here and not taken from the steps themselves.
*/
module CallEffects {
  import opened ClusterTypes
  import opened TaskBooks
  import opened BookInvariants
  import opened BookSteps
  import opened StepShapes
  import opened MethodShapes
  import opened TaskChannels
  import opened CoordinatorRuns
  import opened PolicyQueues
  import opened PolicyRuns
  import opened CoordinatorTheorems

  // ---- creation ------------------------------------------------------------------------------

  /** Everything but one task is as it was. */
  ghost predicate OthersKept(b: Books, after: Books, k: Key) {
    && after.workers == b.workers
    && forall j :: j != k ==>
      && (HasTask(after.proofs, j) <==> HasTask(b.proofs, j))
      && (HasTask(b.proofs, j) ==> TaskAt(after.proofs, j) == TaskAt(b.proofs, j))
  }

  ghost predicate Fresh(b: Books, after: Books, k: Key, ty: TaskType, lane: Lane, weight: nat) {
    && HasTask(after.proofs, k)
    && TaskAt(after.proofs, k) == Task(ty, lane, weight, Pending, 0, {}, None, map[], 0)
    && after.queue == b.queue + (if lane == NoLane then multiset{} else multiset{k})
    && OthersKept(b, after, k)
  }

  lemma QueuedOnce(b: Books, k: Key)
    ensures Enqueue(b, {k}).queue ==
      b.queue + if HasTask(b.proofs, k) && TaskAt(b.proofs, k).lane != NoLane then multiset{k} else multiset{}
  {
    EnqueueOne(b, k);
  }

  /** A new task is pending, untried and unassigned, counted once and queued once if it can be queued at all. */
  lemma TaskCreated(c: Cluster, k: Key, ty: TaskType, lane: Lane, weight: nat)
    requires k.task !in c.books.issued
    ensures var after := Step(c, CreateTask(k, ty, lane, weight)).books;
      if k.proof !in c.books.proofs then after == c.books
      else
        && Fresh(c.books, after, k, ty, lane, weight)
        && after.proofs[k.proof].activeTasks == c.books.proofs[k.proof].activeTasks + 1
  {
    if k.proof in c.books.proofs {
      var added := c.books.(
        proofs := PutTask(c.books.proofs, k, NewTask(ty, lane, weight), c.books.proofs[k.proof].activeTasks + 1),
        issued := c.books.issued[k.task := k.proof]);
      QueuedOnce(added, k);
    }
  }

  /** A new proof has its first task and no other; one that exists is left alone. */
  lemma ProofCreated(c: Cluster, p: ProofId, t: TaskId, ty: TaskType, lane: Lane, weight: nat)
    requires t !in c.books.issued
    ensures var after := Step(c, CreateProof(p, t, ty, lane, weight)).books;
      if p in c.books.proofs then after == c.books
      else
        && Fresh(c.books, after, Key(p, t), ty, lane, weight)
        && after.proofs[p].activeTasks == 1 && after.proofs[p].tasks.Keys == {t}
  {
    if p !in c.books.proofs {
      var b := AddProof(c.books, p);
      var added := b.(
        proofs := PutTask(b.proofs, Key(p, t), NewTask(ty, lane, weight), 1),
        issued := b.issued[t := p]);
      QueuedOnce(added, Key(p, t));
    }
  }

  // ---- assignment ----------------------------------------------------------------------------

  /** The kind of worker a lane asks for. */
  predicate RightKind(kind: WorkerKind, lane: Lane) {
    || (lane == Cpu && kind in {CpuWorker, AllWorker})
    || (lane == Gpu && kind in {GpuWorker, AllWorker})
  }

  /**
    The policy assigns only what waits and is neither succeeded nor fatally failed, only to an open
    worker of the right kind, and only within its weight. The task then runs there, and the attempt
    is recorded as one on a GPU exactly if the worker has one.
  */
  lemma TaskAssigned(c: Cluster, w: WorkerId, k: Key)
    requires Legal(c, PolicyAssign(w, k))
    ensures k in c.books.queue && HasTask(c.books.proofs, k) && w in c.books.workers
    ensures var task, worker, after := TaskAt(c.books.proofs, k), c.books.workers[w], Step(c, PolicyAssign(w, k)).books;
      && task.status !in {Succeeded, FailedFatal} && !worker.closed && RightKind(worker.kind, task.lane)
      && worker.weight + task.weight <= worker.maxWeight
      && after.workers == c.books.workers[w := worker.(weight := worker.weight + task.weight, holds := worker.holds + {k})]
      && HasTask(after.proofs, k)
      && TaskAt(after.proofs, k) == task.(worker := Some(w), status := Running,
           attempts := task.attempts[w := Attempt(worker.kind != CpuWorker, false, |c.books.grants|)])
      && after.queue == c.books.queue - multiset{k}
  {}

  /** It drops from the queue only what is gone, succeeded or fatally failed. */
  lemma TaskDiscarded(c: Cluster, k: Key)
    requires Legal(c, PolicyDiscard(k))
    ensures k in c.books.queue
    ensures HasTask(c.books.proofs, k) ==> TaskAt(c.books.proofs, k).status in {Succeeded, FailedFatal}
    ensures Step(c, PolicyDiscard(k)) == c.(books := c.books.(queue := c.books.queue - multiset{k}))
  {}

  ghost predicate KindsOk(b: Books) {
    forall w, k :: Holding(b.workers, w, k) && HasTask(b.proofs, k) ==>
      RightKind(b.workers[w].kind, TaskAt(b.proofs, k).lane)
  }

  /** A hold is new only by assignment, and a worker that holds something keeps its kind. */
  ghost predicate HoldsFrom(b: Books, after: Books) {
    forall w, k :: Holding(after.workers, w, k) ==>
      Holding(b.workers, w, k) && after.workers[w].kind == b.workers[w].kind
  }

  lemma UnholdFrom(b: Books, r: set<Key>)
    ensures HoldsFrom(b, Unhold(b, r)) && Unhold(b, r).proofs == b.proofs
  {
    hide Weigh;
  }

  lemma DropFrom(b: Books, p: ProofId)
    ensures HoldsFrom(b, DropProof(b, p))
  {
    hide Weigh;
    UnholdFrom(b, HeldOf(b.workers, p));
  }

  lemma FromOn(a: Books, b: Books, c: Books)
    requires HoldsFrom(a, b) && HoldsFrom(b, c)
    ensures HoldsFrom(a, c)
  {}

  lemma CompleteFrom(b: Books, w: WorkerId, k: Key, gpuMs: nat)
    ensures HoldsFrom(b, Complete(b, w, k, gpuMs))
  {
    hide HoldsFrom, Unhold, DropProof, Holding;
    SameFrom(b, b);
    if HasTask(b.proofs, k) {
      var marked := MarkSucceeded(b, w, k, gpuMs);
      SameFrom(b, marked);
      UnholdFrom(marked, {k});
      FromOn(b, marked, Unhold(marked, {k}));
      DropFrom(marked, k.proof);
      FromOn(b, marked, DropProof(marked, k.proof));
      DropFrom(Unhold(marked, {k}), k.proof);
      FromOn(b, Unhold(marked, {k}), DropProof(Unhold(marked, {k}), k.proof));
    }
  }

  lemma SameFrom(b: Books, after: Books)
    requires after.workers == b.workers
    ensures HoldsFrom(b, after)
  {}

  lemma FailFrom(b: Books, w: WorkerId, k: Key, retryable: bool)
    ensures HoldsFrom(b, Fail(b, w, k, retryable))
  {
    hide HoldsFrom, Unhold, DropProof, Holding, FailedStatus, FailureFailsProof, ActiveAfterFail;
    SameFrom(b, b);
    if FailReply(b, w, k).Done? {
      UnholdFrom(b, {k});
      var marked := MarkFailed(Unhold(b, {k}), k, retryable);
      SameFrom(Unhold(b, {k}), marked);
      FromOn(b, Unhold(b, {k}), marked);
      DropFrom(marked, k.proof);
      FromOn(b, marked, DropProof(marked, k.proof));
      SameFrom(marked, Enqueue(marked, {k}));
      FromOn(b, marked, Enqueue(marked, {k}));
    }
  }

  lemma WorkersFrom(c: Cluster, call: Call)
    requires Legal(c, call) && !call.CompleteTask? && !call.FailTask? && !call.FailProofCall? && !call.PolicyAssign?
    ensures HoldsFrom(c.books, Step(c, call).books)
  {
    hide Weigh, Send, Listen;
  }

  lemma StepFrom(c: Cluster, call: Call)
    requires Legal(c, call) && !call.PolicyAssign?
    ensures HoldsFrom(c.books, Step(c, call).books)
  {
    hide HoldsFrom, Complete, Fail, DropProof, Close, CloseAll, Announce;
    SameFrom(c.books, c.books);
    match call
    case CompleteTask(w, k, gpuMs) => CompleteFrom(c.books, w, k, gpuMs);
    case FailTask(w, k, retryable) => FailFrom(c.books, w, k, retryable);
    case FailProofCall(p, _) => DropFrom(c.books, p);
    case _ => WorkersFrom(c, call);
  }

  lemma KindsStep(c: Cluster, call: Call)
    requires Good(c) && Legal(c, call) && KindsOk(c.books)
    ensures KindsOk(Step(c, call).books)
  {
    hide Good, BooksAgree, Step, LanesKept, CanAssign;
    GoodBooks(c);
    StepLanes(c, call);
    var after := Step(c, call).books;
    if call.PolicyAssign? {
      TaskAssigned(c, call.worker, call.key);
    } else {
      StepFrom(c, call);
    }
    forall w, k | Holding(after.workers, w, k) && HasTask(after.proofs, k)
      ensures RightKind(after.workers[w].kind, TaskAt(after.proofs, k).lane)
    {
      HeldIssued(c, w, k);
      LaneOf(c.books, after, k);
    }
  }

  lemma HeldIssued(c: Cluster, w: WorkerId, k: Key)
    requires Good(c)
    ensures Holding(c.books.workers, w, k) ==> HasTask(c.books.proofs, k)
    ensures HasTask(c.books.proofs, k) ==> k.task in c.books.issued
  {
    hide Weigh, StreamsSound, OpenOnlyLive, Owed, Truthful, CountsExact, CreditsOnce, NoneStranded, NoIdleProof;
  }

  lemma LaneOf(b: Books, after: Books, k: Key)
    requires LanesKept(b, after) && HasTask(after.proofs, k) && k.task in b.issued
    ensures HasTask(b.proofs, k) && TaskAt(after.proofs, k).lane == TaskAt(b.proofs, k).lane
  {}

  lemma {:induction false} KindsRun(c: Cluster, calls: seq<Call>)
    requires Good(c) && LegalRun(c, calls) && KindsOk(c.books)
    ensures KindsOk(Run(c, calls).books)
    decreases |calls|
  {
    hide Good, Step, Legal, KindsOk;
    if calls != [] {
      StepKeeps(c, calls[0]);
      KindsStep(c, calls[0]);
      KindsRun(Step(c, calls[0]), calls[1..]);
    }
  }

  /** In every reachable state a task is held only by a worker of a kind its lane asks for. */
  lemma HeldByTheRightKind(c: Cluster, w: WorkerId, k: Key)
    requires Reachable(c) && Holding(c.books.workers, w, k)
    ensures HasTask(c.books.proofs, k)
    ensures var lane, kind := TaskAt(c.books.proofs, k).lane, c.books.workers[w].kind;
      && (lane == Gpu ==> kind == GpuWorker || kind == AllWorker)
      && (lane == Cpu ==> kind == CpuWorker || kind == AllWorker)
      && lane != NoLane
  {
    hide Good, LegalRun, Run, Step;
    ReachableGood(c);
    HeldIssued(c, w, k);
    var calls :| LegalRun(START, calls) && c == Run(START, calls);
    StartGood();
    KindsRun(START, calls);
  }

  // ---- closed workers ------------------------------------------------------------------------

  predicate IsClosed(b: Books, w: WorkerId) {
    w in b.workers && b.workers[w].closed
  }

  lemma UnholdClosed(b: Books, r: set<Key>, w: WorkerId)
    requires IsClosed(b, w)
    ensures IsClosed(Unhold(b, r), w)
  {
    hide Weigh;
  }

  lemma DropClosed(b: Books, p: ProofId, w: WorkerId)
    requires IsClosed(b, w)
    ensures IsClosed(DropProof(b, p), w)
  {
    hide Weigh;
    UnholdClosed(b, HeldOf(b.workers, p), w);
  }

  lemma CompleteClosed(b: Books, v: WorkerId, k: Key, gpuMs: nat, w: WorkerId)
    requires IsClosed(b, w)
    ensures IsClosed(Complete(b, v, k, gpuMs), w)
  {
    hide Unhold, DropProof;
    if HasTask(b.proofs, k) {
      var marked := MarkSucceeded(b, v, k, gpuMs);
      UnholdClosed(marked, {k}, w);
      DropClosed(marked, k.proof, w);
      DropClosed(Unhold(marked, {k}), k.proof, w);
    }
  }

  lemma FailClosed(b: Books, v: WorkerId, k: Key, retryable: bool, w: WorkerId)
    requires IsClosed(b, w)
    ensures IsClosed(Fail(b, v, k, retryable), w)
  {
    hide Unhold, DropProof, FailedStatus, FailureFailsProof, ActiveAfterFail;
    if FailReply(b, v, k).Done? {
      UnholdFrom(b, {k});
      UnholdClosed(b, {k}, w);
      DropClosed(MarkFailed(Unhold(b, {k}), k, retryable), k.proof, w);
    }
  }

  lemma PlainClosed(c: Cluster, call: Call, w: WorkerId)
    requires Legal(c, call) && IsClosed(c.books, w) && call != RemoveWorkerCall(w)
    requires !call.CompleteTask? && !call.FailTask? && !call.FailProofCall?
    ensures IsClosed(Step(c, call).books, w)
  {
    hide Weigh, Send, Listen;
  }

  /** A closed worker stays closed until it is removed, and is given nothing. */
  lemma ClosedStep(c: Cluster, call: Call, w: WorkerId)
    requires Legal(c, call) && IsClosed(c.books, w) && call != RemoveWorkerCall(w)
    ensures IsClosed(Step(c, call).books, w)
    ensures Step(c, call).books.workers[w].holds <= c.books.workers[w].holds
  {
    hide Complete, Fail, DropProof, Close, CloseAll, Announce, Send, Listen;
    match call {
      case CompleteTask(v, k, gpuMs) => CompleteClosed(c.books, v, k, gpuMs, w);
      case FailTask(v, k, retryable) => FailClosed(c.books, v, k, retryable, w);
      case FailProofCall(p, _) => DropClosed(c.books, p, w);
      case _ => PlainClosed(c, call, w);
    }
    ClosedHolds(c, call, w);
  }

  lemma ClosedHolds(c: Cluster, call: Call, w: WorkerId)
    requires Legal(c, call) && IsClosed(c.books, w) && IsClosed(Step(c, call).books, w)
    ensures Step(c, call).books.workers[w].holds <= c.books.workers[w].holds
  {
    hide Step, CanAssign;
    var after := Step(c, call).books;
    if call.PolicyAssign? {
      TaskAssigned(c, call.worker, call.key);
    } else {
      StepFrom(c, call);
      forall k | k in after.workers[w].holds
        ensures k in c.books.workers[w].holds
      {
        assert Holding(after.workers, w, k);
      }
    }
  }

  /** So over every run, as long as nobody removes it, it only ever finishes what it had. */
  lemma {:induction false} ClosedWorkerDrains(c: Cluster, calls: seq<Call>, w: WorkerId)
    requires LegalRun(c, calls) && IsClosed(c.books, w) && RemoveWorkerCall(w) !in calls
    ensures IsClosed(Run(c, calls).books, w)
    ensures Run(c, calls).books.workers[w].holds <= c.books.workers[w].holds
    decreases |calls|
  {
    hide Step, Legal;
    if calls != [] {
      ClosedStep(c, calls[0], w);
      ClosedWorkerDrains(Step(c, calls[0]), calls[1..], w);
    }
  }

  // ---- teardown ------------------------------------------------------------------------------

  /**
    A proof failure goes ahead exactly when the proof exists and the task it is blamed on, if any,
    exists in it and has not succeeded; then the proof is gone, every subscriber of its tasks has a
    failure notice on its way, and the channels of its tasks are closed. Otherwise nothing changes.
  */
  lemma ProofFailed(c: Cluster, p: ProofId, blamed: Option<TaskId>)
    ensures var after := Step(c, FailProofCall(p, blamed));
      if p in c.books.proofs && (blamed == None ||
          (blamed.value in c.books.proofs[p].tasks && c.books.proofs[p].tasks[blamed.value].status != Succeeded))
      then
        && after.books.proofs == c.books.proofs - {p}
        && (forall n :: n in after.desk.due <==>
              || n in c.desk.due
              || (&& n.status == FailedFatal && n.key.proof == p && HasTask(c.books.proofs, n.key)
                  && n.sub in TaskAt(c.books.proofs, n.key).subscribers))
        && (forall t :: t in c.books.proofs[p].tasks && t in after.streams.chans ==> after.streams.chans[t].closed)
      else after == c
  {
    hide DropProof, Deliver;
    DropFrame(c.books, p);
    ProofNoticesAre(c.books, p, FailedFatal);
  }

  /** A worker removed leaves with its holds, and each of them is queued again with one more requeue to its name. */
  lemma WorkerRemoved(c: Cluster, w: WorkerId)
    requires Reachable(c) && w in c.books.workers
    ensures var after := Step(c, RemoveWorkerCall(w)).books;
      && after.workers.Keys == c.books.workers.Keys - {w}
      && after.queue == c.books.queue + multiset(c.books.workers[w].holds)
      && (forall j :: HasTask(c.books.proofs, j) ==>
            && HasTask(after.proofs, j)
            && TaskAt(after.proofs, j) == TaskAt(c.books.proofs, j).(
                 requeues := TaskAt(c.books.proofs, j).requeues + if j in c.books.workers[w].holds then 1 else 0))
  {
    hide Reachable, Good, Weigh;
    ReachableGood(c);
    var held := c.books.workers[w].holds;
    forall k | k in held
      ensures HasTask(c.books.proofs, k) && TaskAt(c.books.proofs, k).lane != NoLane
    {
      assert Holding(c.books.workers, w, k);
      HeldByTheRightKind(c, w, k);
    }
    var released := Unhold(c.books, held);
    var counted := released.(proofs := CountRequeues(released.proofs, held), workers := released.workers - {w});
    assert held == set k | k in held && HasTask(counted.proofs, k) && !TaskAt(counted.proofs, k).lane.NoLane?;
  }

  /** A new worker starts open and idle; a known one, and every other, is as it was. */
  lemma WorkerOpened(c: Cluster, w: WorkerId, kind: WorkerKind, maxWeight: nat)
    ensures var after := Step(c, OpenWorker(w, kind, maxWeight)).books;
      if w in c.books.workers then after == c.books
      else after == c.books.(workers := c.books.workers[w := Worker(kind, maxWeight, 0, {}, false, c.now)])
  {}

  /** Closing a worker sets its flag and nothing else. */
  lemma WorkerClosed(c: Cluster, w: WorkerId)
    ensures Step(c, CloseWorkerCall(w)) ==
      if w !in c.books.workers then c
      else c.(books := c.books.(workers := c.books.workers[w := c.books.workers[w].(closed := true)]))
  {}

  // ---- messages -------------------------------------------------------------------------------

  /**
    A message sent to an open channel, or to a live task without one, is the next of its buffer and
    tape and goes to every listener still there; to a closed channel, or a task that is final or
    unknown and has none, it is not delivered at all.
  */
  lemma MessageSent(c: Cluster, t: TaskId, p: Payload)
    requires Good(c)
    ensures var was, after := c.streams, Step(c, SendTaskMessage(t, p)).streams;
      if t in was.chans && !was.chans[t].closed then
        && t in after.chans && !after.chans[t].closed && after.chans[t].entry == was.chans[t].entry
        && after.chans[t].buffer == was.chans[t].buffer + [p]
        && after.tapes[was.chans[t].entry].payloads == was.tapes[was.chans[t].entry].payloads + [p]
        && after.rxs.Keys == was.rxs.Keys
        && (forall r :: r in was.rxs ==>
              if r in was.chans[t].listeners && !was.rxs[r].dropped
              then after.rxs[r].log == was.rxs[r].log + [Data(p)] else after.rxs[r].log == was.rxs[r].log)
      else if t !in was.chans && LiveTask(c.books, t) then
        && t in after.chans && !after.chans[t].closed && after.chans[t].entry == was.entries
        && after.chans[t].buffer == [p] && after.tapes[was.entries].payloads == [p]
      else after == was
  {
    hide BooksAgree, Owed, OpenOnlyLive, Truthful, LiveTask, ReceiverSound;
    if t in c.streams.chans {
      ChannelTape(c.streams, t);
    }
  }

  lemma ChannelTape(st: Streams, t: TaskId)
    requires StreamsSound(st) && t in st.chans
    ensures st.chans[t].entry in st.tapes && st.tapes[st.chans[t].entry].payloads == st.chans[t].buffer
  {
    hide ReceiverSound;
  }

  /**
    A subscriber is sent the buffer from its offset, or nothing if the buffer is shorter, and the end
    at once if the channel is closed; otherwise it is among the listeners from then on.
  */
  lemma ChannelSubscribed(c: Cluster, t: TaskId, start: nat, r: RxId)
    requires r !in c.streams.rxs && t in c.streams.chans
    ensures var chan, after := c.streams.chans[t], Step(c, SubscribeChannel(t, start, r)).streams;
      && r in after.rxs && t in after.chans && after.chans[t].buffer == chan.buffer
      && |after.rxs[r].log| == (if start <= |chan.buffer| then |chan.buffer| - start else 0) + (if chan.closed then 1 else 0)
      && (forall i :: 0 <= i && start + i < |chan.buffer| ==> after.rxs[r].log[i] == Data(chan.buffer[start + i]))
      && (chan.closed ==> after.rxs[r].log[|after.rxs[r].log| - 1] == EndOfStream)
      && (r in after.chans[t].listeners || chan.closed)
  {
    hide LiveTask;
  }

  /** The sweep removes exactly the channels closed for more than 60 seconds, whatever their tasks. */
  lemma ChannelsSwept(c: Cluster)
    ensures var was, after := c.streams, Step(c, SweepChannels).streams;
      && (forall t :: t in after.chans <==> t in was.chans && (!was.chans[t].closed || c.now <= was.chans[t].closedAt + 60))
      && (forall t :: t in after.chans ==> after.chans[t] == was.chans[t])
      && after.rxs == was.rxs && after.tapes == was.tapes
  {}
}
