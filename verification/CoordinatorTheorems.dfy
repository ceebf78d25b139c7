/** What holds in every reachable state of the coordinator before shutdown. */
module CoordinatorTheorems {
  import opened ClusterTypes
  import opened TaskBooks
  import opened BookInvariants
  import opened BookSteps
  import opened TaskChannels
  import opened CoordinatorRuns
  import opened StepShapes
  import opened MethodShapes
  import opened PolicyRuns
  import opened MethodSteps

  ghost predicate Reachable(c: Cluster) {
    exists calls :: LegalRun(START, calls) && c == Run(START, calls)
  }

  lemma ReachableGood(c: Cluster)
    requires Reachable(c)
    ensures Good(c)
  {
    hide Good, Run, LegalRun;
    var calls :| LegalRun(START, calls) && c == Run(START, calls);
    StartGood();
    RunKeeps(START, calls);
  }

  /** Every assignment ever made is either released once or still held, and by one worker only. */
  lemma AssignmentsConserved(c: Cluster)
    requires Reachable(c)
    ensures |c.books.grants| == c.books.releases + |Holds(c.books.workers)|
    ensures forall v: WorkerId, w: WorkerId, k: Key ::
      Holding(c.books.workers, v, k) && Holding(c.books.workers, w, k) ==> v == w
    ensures forall w: WorkerId, k: Key :: Holding(c.books.workers, w, k) ==>
      HasTask(c.books.proofs, k) && TaskAt(c.books.proofs, k).worker == Some(w)
  {
    hide Reachable, Weigh;
    ReachableGood(c);
    OneHolder(c.books);
  }

  /** The cached weight is the recomputed one, so no worker is ever loaded past its maximum. */
  lemma WorkersNeverOverloaded(c: Cluster, w: WorkerId)
    requires Reachable(c) && w in c.books.workers
    ensures c.books.workers[w].weight == Weigh(c.books.proofs, c.books.workers[w].holds)
    ensures Weigh(c.books.proofs, c.books.workers[w].holds) <= c.books.workers[w].maxWeight
  {
    hide Reachable, Weigh;
    ReachableGood(c);
  }

  /** A heartbeat moves nothing but the worker's clock, whatever the worker reports. */
  lemma HeartbeatsOnlyTouchTheClock(c: Cluster, w: WorkerId, reported: set<Key>)
    requires Reachable(c) && w in c.books.workers
    ensures Step(c, WorkerHeartbeat(w, reported)).books ==
            c.books.(workers := c.books.workers[w := c.books.workers[w].(lastHeartbeat := c.now)])
  {
    hide Reachable, Weigh, Heartbeat;
    ReachableGood(c);
    HeartbeatIsStable(c.books, w, reported, c.now);
  }

  /** The policy's per-proof GPU weight is the weight of the GPU tasks that proof has running. */
  lemma GpuWeightsExact(c: Cluster, p: ProofId)
    requires Reachable(c)
    ensures GpuWeight(c.books, p) == Weigh(c.books.proofs, HeldGpu(c.books, p))
    ensures p !in c.books.proofs ==> p !in c.books.gpuWeights
  {
    hide Reachable, Weigh;
    ReachableGood(c);
    if p !in c.books.proofs {
      assert HeldGpu(c.books, p) == {};
      WeighNone(c.books.proofs);
    }
  }

  /** The unchecked decrements never underflow; a proof with tasks is never left without live ones. */
  lemma TaskCountsExact(c: Cluster, p: ProofId)
    requires Reachable(c) && p in c.books.proofs
    ensures c.books.proofs[p].activeTasks == |Live(c.books.proofs[p])|
    ensures c.books.proofs[p].tasks != map[] ==> Live(c.books.proofs[p]) != {}
  {
    hide Reachable, Weigh;
    ReachableGood(c);
  }

  /** A live task waits in the queue exactly once or is held by exactly one worker, never both. */
  lemma NoTaskStranded(c: Cluster, k: Key)
    requires Reachable(c) && OpenTask(c.books, k) && !TaskAt(c.books.proofs, k).lane.NoLane?
    ensures (c.books.queue[k] == 1) != (exists w: WorkerId :: Holding(c.books.workers, w, k))
    ensures c.books.queue[k] <= 1
  {
    hide Reachable, Weigh;
    ReachableGood(c);
    if k in HeldKeys(c.books.workers) {
      var w :| w in c.books.workers && k in c.books.workers[w].holds;
      assert Holding(c.books.workers, w, k);
    }
  }

  /** Success hooks run once per succeeded task and never for another. */
  lemma HooksRunOnce(c: Cluster, k: Key)
    requires Reachable(c)
    ensures c.books.hooks[k.task] <= 1
    ensures HasTask(c.books.proofs, k) ==>
      (c.books.hooks[k.task] == 1 <==> TaskAt(c.books.proofs, k).status.Succeeded?)
  {
    hide Reachable, Weigh;
    ReachableGood(c);
  }

  /** GPU time is added at most once per assignment, and only for assignments that were made. */
  lemma GpuTimeAddedOnce(c: Cluster, serial: nat)
    requires Reachable(c)
    ensures c.books.credits[serial] <= 1
    ensures serial in c.books.credits ==> serial < |c.books.grants|
  {
    hide Reachable, Weigh;
    ReachableGood(c);
  }

  /** No success is forgotten by any call. */
  lemma StepKeepsHooks(c: Cluster, call: Call)
    requires Good(c) && Legal(c, call)
    ensures forall t :: t in c.books.hooks ==> t in Step(c, call).books.hooks
  {
    hide Weigh, Good, BooksAgree, Complete, Fail, DropProof;
    GoodBooks(c);
    match call
    case CompleteTask(w, k, gpuMs) =>
      if HasTask(c.books.proofs, k) { AgreeHooks(c.books); CompleteHooks(c.books, w, k, gpuMs); }
    case FailTask(w, k, retryable) => FailHooks(c.books, w, k, retryable);
    case FailProofCall(p, _) => DropHooks(c.books, p);
    case _ =>
  }

  lemma AgreeHooks(b: Books)
    requires BooksAgree(b)
    ensures HooksOnce(b)
  {
    hide Ledger, NoneStranded, NoIdleProof;
  }

  lemma {:induction false} RunKeepsHooks(c: Cluster, calls: seq<Call>, t: TaskId)
    requires Good(c) && LegalRun(c, calls) && t in c.books.hooks
    ensures t in Run(c, calls).books.hooks
    decreases |calls|
  {
    hide Good, Step;
    if calls != [] {
      StepKeeps(c, calls[0]);
      StepKeepsHooks(c, calls[0]);
      RunKeepsHooks(Step(c, calls[0]), calls[1..], t);
    }
  }

  /** A succeeded task stays succeeded for as long as its proof exists, whatever is reported later. */
  lemma SuccessIsFinal(c: Cluster, calls: seq<Call>, k: Key)
    requires Reachable(c) && LegalRun(c, calls)
    requires HasTask(c.books.proofs, k) && TaskAt(c.books.proofs, k).status.Succeeded?
    requires HasTask(Run(c, calls).books.proofs, k)
    ensures TaskAt(Run(c, calls).books.proofs, k).status.Succeeded?
  {
    hide Reachable, Step, Good, BooksAgree, Run, LegalRun;
    ReachableGood(c);
    RunKeeps(c, calls);
    GoodBooks(c);
    GoodBooks(Run(c, calls));
    AgreeHooks(c.books);
    AgreeHooks(Run(c, calls).books);
    RunKeepsHooks(c, calls, k.task);
  }

  /** Every accepted subscription is registered on a live task, has its final notice on the way, or was answered. */
  lemma SubscribersAnswered(c: Cluster, s: SubId, k: Key)
    requires Reachable(c) && (s, k) in c.desk.accepted
    ensures Registered(c.books, s, k) || Awaited(c.desk, s, k) || Answered(c.desk, s, k)
    ensures (s, TaskResult(k.task, Succeeded)) in c.desk.sent ==> k.task in c.books.hooks
  {
    hide Reachable, Weigh, BooksAgree, StreamsSound, OpenOnlyLive;
    ReachableGood(c);
  }

  /** A notice is missed only when its subscriber has gone by then. */
  lemma MissedOnlyWhenGone(c: Cluster, call: Call, s: SubId, k: Key)
    requires Legal(c, call) && (s, k) in Step(c, call).desk.missed && (s, k) !in c.desk.missed
    ensures s !in c.desk.subs
  {
    hide Weigh, Complete, Fail, DropProof, CloseAll, Close;
  }

  /** An open channel belongs to a live task. */
  lemma ChannelsOpenOnlyForLiveTasks(c: Cluster, t: TaskId)
    requires Reachable(c) && t in c.streams.chans && !c.streams.chans[t].closed
    ensures LiveTask(c.books, t)
  {
    hide Reachable, Weigh, BooksAgree, StreamsSound, LiveTask;
    ReachableGood(c);
  }

  /** Once a task is final or gone, each of its receivers ends with the one EndOfStream it gets. */
  lemma ReceiversEnd(c: Cluster, r: RxId)
    requires Reachable(c) && r in c.streams.rxs
    requires !LiveTask(c.books, c.streams.rxs[r].task) && !c.streams.rxs[r].dropped
    ensures var log := c.streams.rxs[r].log;
      forall i :: 0 <= i < |log| ==> (log[i].EndOfStream? <==> i == |log| - 1)
    ensures c.streams.rxs[r].log != []
  {
    hide Reachable, Weigh, BooksAgree, LiveTask;
    ReachableGood(c);
    assert ReceiverSound(c.streams, r);
  }

  /** Subscribing to a finished or unknown task whose channel was swept opens nothing: the reader is just ended. */
  lemma SweptStaysClosed(c: Cluster, t: TaskId, start: nat, r: RxId)
    requires t !in c.streams.chans && !LiveTask(c.books, t) && r !in c.streams.rxs
    ensures var after := Step(c, SubscribeChannel(t, start, r));
      && after.streams.chans == c.streams.chans
      && after.streams.rxs == c.streams.rxs[r := Receiver(t, None, 0, [EndOfStream], false)]
    ensures forall p: Payload :: Step(c, SendTaskMessage(t, p)) == c
  {
    hide LiveTask;
  }

  // ---- what one report does -----------------------------------------------------------------

  /** The tasks of `k`'s proof that are live besides `k`. */
  function OthersLive(b: Books, k: Key): set<TaskId>
    requires k.proof in b.proofs
  {
    Live(b.proofs[k.proof]) - {k.task}
  }

  lemma MarkedActive(b: Books, w: WorkerId, k: Key, gpuMs: nat)
    requires BooksAgree(b) && HasTask(b.proofs, k)
    ensures MarkSucceeded(b, w, k, gpuMs).proofs[k.proof].activeTasks == |OthersLive(b, k)|
  {
    hide Weigh, Ledger, NoneStranded, NoIdleProof, IdsUnique, HooksOnce, CreditsOnce, RetriesBounded;
    var marked := MarkSucceeded(b, w, k, gpuMs);
    if Terminal(TaskAt(b.proofs, k).status) {
      assert OthersLive(b, k) == Live(b.proofs[k.proof]);
    }
  }

  /**
    A completion, from whichever worker, leaves that worker without the task, which is Succeeded with
    its retries as they were, and removes the proof exactly when no other task of it is live.
  */
  lemma CompletionEffect(c: Cluster, w: WorkerId, k: Key, gpuMs: nat)
    requires Reachable(c) && HasTask(c.books.proofs, k)
    ensures var after := Step(c, CompleteTask(w, k, gpuMs)).books;
      var task := TaskAt(c.books.proofs, k);
      && !Holding(after.workers, w, k)
      && (k.proof in after.proofs <==> OthersLive(c.books, k) != {})
      && (k.proof in after.proofs ==>
            && HasTask(after.proofs, k) && TaskAt(after.proofs, k).status == Succeeded
            && TaskAt(after.proofs, k).retries == task.retries && TaskAt(after.proofs, k).worker == task.worker)
      && after.queue == c.books.queue
  {
    hide Reachable, Good, BooksAgree, Complete, Weigh, Kept;
    ReachableGood(c);
    GoodBooks(c);
    CompleteFrame(c.books, w, k, gpuMs);
    MarkedActive(c.books, w, k, gpuMs);
    if w in c.books.workers {
      CompleteShape(c.books, w, k, gpuMs, w);
      KeptWithout(c.books, w, k, MarkSucceeded(c.books, w, k, gpuMs).proofs[k.proof].activeTasks == 0);
    }
  }

  /**
    It runs the success hook and puts each subscriber's notice on its way unless the task had succeeded
    already, closes the task's channel, and adds the reported GPU time exactly if the worker was ever
    given the task, as one with a GPU, and has not reported it before.
  */
  lemma CompletionTold(c: Cluster, w: WorkerId, k: Key, gpuMs: nat)
    requires HasTask(c.books.proofs, k)
    ensures var task, after := TaskAt(c.books.proofs, k), Step(c, CompleteTask(w, k, gpuMs));
      var first := w in task.attempts && task.attempts[w].onGpu && !task.attempts[w].credited;
      && after.books.gpuBusyMs ==
           (if !first then c.books.gpuBusyMs
            else if c.books.gpuBusyMs + gpuMs <= 0xFFFF_FFFF_FFFF_FFFF then c.books.gpuBusyMs + gpuMs
            else 0xFFFF_FFFF_FFFF_FFFF)
      && (HasTask(after.books.proofs, k) && w in task.attempts ==>
            w in TaskAt(after.books.proofs, k).attempts && TaskAt(after.books.proofs, k).attempts[w].credited)
      && after.books.hooks[k.task] == c.books.hooks[k.task] + (if task.status == Succeeded then 0 else 1)
      && (task.status == Succeeded ==> after.desk == c.desk)
      && (task.status != Succeeded ==> forall n :: n in after.desk.due <==>
            n in c.desk.due || (n.key == k && n.status == Succeeded && n.sub in task.subscribers))
      && (k.task in after.streams.chans ==> after.streams.chans[k.task].closed)
  {
    hide Complete, Weigh, Deliver;
    CompleteFrame(c.books, w, k, gpuMs);
    NoticesAre(c.books, k, Succeeded);
  }

  lemma NoticesAre(b: Books, k: Key, status: TaskStatus)
    requires HasTask(b.proofs, k)
    ensures forall n :: n in Noticed(TaskNotices(b.proofs, k), status) <==>
      n.key == k && n.status == status && n.sub in TaskAt(b.proofs, k).subscribers
  {
    forall n: Notice | n.key == k && n.status == status && n.sub in TaskAt(b.proofs, k).subscribers
      ensures n in Noticed(TaskNotices(b.proofs, k), status)
    {
      assert (n.sub, k) in TaskNotices(b.proofs, k);
    }
  }

  lemma ProofNoticesAre(b: Books, p: ProofId, status: TaskStatus)
    ensures forall n :: n in Noticed(ProofNotices(b.proofs, p), status) <==>
      n.key.proof == p && n.status == status && HasTask(b.proofs, n.key) && n.sub in TaskAt(b.proofs, n.key).subscribers
  {
    forall n: Notice | n.key.proof == p && n.status == status && HasTask(b.proofs, n.key)
        && n.sub in TaskAt(b.proofs, n.key).subscribers
      ensures n in Noticed(ProofNotices(b.proofs, p), status)
    {
      assert (n.sub, n.key) in ProofNotices(b.proofs, p);
    }
  }

  lemma KeptWithout(b: Books, w: WorkerId, k: Key, dropped: bool)
    requires w in b.workers
    ensures k !in Kept(b, w, w, k, dropped)
  {}

  lemma FailedActive(b: Books, w: WorkerId, k: Key, retryable: bool)
    requires BooksAgree(b) && FailReply(b, w, k).Done? && !TaskAt(b.proofs, k).status.Succeeded?
    ensures FailedStatus(TaskAt(b.proofs, k), retryable).FailedFatal? ==>
      ActiveAfterFail(b, k, retryable) == |OthersLive(b, k)|
    ensures FailedStatus(TaskAt(b.proofs, k), retryable).FailedRetryable? ==> !FailDrops(b, k, retryable)
  {
    hide Weigh, WeightsExact, GpuExact, Conserved, QueueSound, NoneStranded, NoIdleProof, IdsUnique, HooksOnce,
         CreditsOnce, RetriesBounded;
    if FailedStatus(TaskAt(b.proofs, k), retryable).FailedRetryable? {
      RetryKeepsProof(b, w, k, retryable);
    }
  }

  /** Task types without which a proof cannot go on. */
  const PROOF_CRITICAL: set<TaskType> := {Controller, Groth16Wrap, PlonkWrap, ExecuteOnly, CoreExecute}

  /**
    An accepted failure report frees its worker. A success stays a success. A retryable failure of a
    task retried fewer than three times counts as a retry and goes back to the queue; any other is
    final, and removes the proof exactly when its type takes the proof down or no other task is live.
  */
  lemma FailureEffect(c: Cluster, w: WorkerId, k: Key, retryable: bool)
    requires Reachable(c) && Holding(c.books.workers, w, k) && HasTask(c.books.proofs, k)
    ensures var after := Step(c, FailTask(w, k, retryable)).books;
      var task := TaskAt(c.books.proofs, k);
      && !Holding(after.workers, w, k)
      && task.retries <= 3
      && (task.status == Succeeded ==>
            HasTask(after.proofs, k) && TaskAt(after.proofs, k) == task && after.queue == c.books.queue)
      && (task.status != Succeeded && retryable && task.retries < 3 ==>
            && HasTask(after.proofs, k)
            && TaskAt(after.proofs, k) == task.(status := FailedRetryable, retries := task.retries + 1)
            && after.queue == c.books.queue + multiset{k})
      && (task.status != Succeeded && (!retryable || task.retries == 3) ==>
            && (k.proof in after.proofs <==> task.ty !in PROOF_CRITICAL && OthersLive(c.books, k) != {})
            && (k.proof in after.proofs ==>
                  HasTask(after.proofs, k) && TaskAt(after.proofs, k) == task.(status := FailedFatal))
            && after.queue == c.books.queue)
  {
    hide Reachable, Good, BooksAgree, Fail, Weigh, Kept, FailDrops;
    ReachableGood(c);
    GoodBooks(c);
    FailShape(c.books, w, k, retryable, w);
    KeptWithout(c.books, w, k, FailDrops(c.books, k, retryable));
    FailFrame(c.books, w, k, retryable);
    FailCases(c.books, w, k, retryable);
  }

  /** A report from a worker that does not hold the task, or on a task that is gone, changes nothing. */
  lemma FailureRefused(c: Cluster, w: WorkerId, k: Key, retryable: bool)
    requires !Holding(c.books.workers, w, k) || !HasTask(c.books.proofs, k)
    ensures Step(c, FailTask(w, k, retryable)) == c
  {
    hide Fail;
  }

  /**
    Who is told of an accepted failure report: nobody of a retry; of a final failure the task's
    subscribers, or those of all the proof's tasks if the proof goes down with it. Either way the
    task's channel is closed.
  */
  lemma FailureTold(c: Cluster, w: WorkerId, k: Key, retryable: bool)
    requires Reachable(c) && Holding(c.books.workers, w, k) && HasTask(c.books.proofs, k)
    requires TaskAt(c.books.proofs, k).status != Succeeded
    ensures var task, after := TaskAt(c.books.proofs, k), Step(c, FailTask(w, k, retryable));
      && (k.task in after.streams.chans ==> after.streams.chans[k.task].closed)
      && (retryable && task.retries < 3 ==> after.desk == c.desk)
      && (!retryable || task.retries == 3 ==> forall n :: n in after.desk.due <==>
            || n in c.desk.due
            || (&& n.status == FailedFatal && HasTask(c.books.proofs, n.key)
                && n.sub in TaskAt(c.books.proofs, n.key).subscribers
                && (n.key == k || (task.ty in PROOF_CRITICAL && n.key.proof == k.proof))))
  {
    hide Reachable, Good, Fail, Weigh, Deliver;
    ReachableGood(c);
    GoodBooks(c);
    FailCases(c.books, w, k, retryable);
    hide BooksAgree;
    NoticesAre(c.books, k, FailedFatal);
    ProofNoticesAre(c.books, k.proof, FailedFatal);
  }

  lemma FailCases(b: Books, w: WorkerId, k: Key, retryable: bool)
    requires BooksAgree(b) && FailReply(b, w, k).Done?
    ensures var task := TaskAt(b.proofs, k);
      && task.retries <= MAX_TASK_RETRIES && !task.lane.NoLane?
      && (task.status.Succeeded? ==> !FailDrops(b, k, retryable))
      && (!task.status.Succeeded? ==>
            (FailDrops(b, k, retryable) <==>
               FailedStatus(task, retryable).FailedFatal? && (FailsProof(task.ty) || OthersLive(b, k) == {})))
  {
    hide Weigh, WeightsExact, GpuExact, Conserved, QueueSound, NoneStranded, NoIdleProof, IdsUnique, HooksOnce,
         CreditsOnce, CountsExact;
    if !TaskAt(b.proofs, k).status.Succeeded? {
      FailedActive(b, w, k, retryable);
    }
  }

  // ---- the object's states are the runs' states -------------------------------------------------

  /**
    What the coordinator object reaches by one method after another from its constructor is
    reached by a run, so every theorem above holds of it.
  */
  lemma ObjectStaysReachable(before: Cluster, call: Call, acts: seq<Call>, after: Cluster)
    requires Reachable(before) && Performs(before, call, acts, after)
    ensures Reachable(after)
  {
    hide Step, Legal, Run, LegalRun;
    var calls :| LegalRun(START, calls) && before == Run(START, calls);
    RunSnoc(START, calls, call);
    RunConcat(START, calls + [call], acts);
  }

  lemma ObjectStaysReachableAlone(before: Cluster, call: Call, after: Cluster)
    requires Reachable(before) && Does(before, call, after)
    ensures Reachable(after)
  {
    hide Step, Legal, Run, LegalRun;
    var calls :| LegalRun(START, calls) && before == Run(START, calls);
    RunSnoc(START, calls, call);
  }
}
