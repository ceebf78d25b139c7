/** One subscription, from its acceptance to its answer, over whole runs of the coordinator. */
module SubscriberRuns {
  import opened ClusterTypes
  import opened TaskBooks
  import opened BookInvariants
  import opened BookSteps
  import opened TaskChannels
  import opened CoordinatorRuns

  /** Still registered on the open task, or the task has just closed and its result is on the way. */
  predicate RegisteredOrDue(c: Cluster, s: SubId, k: Key) {
    Registered(c.books, s, k) || (!OpenTask(c.books, k) && Awaited(c.desk, s, k))
  }

  lemma CompletedIsFinal(b: Books, w: WorkerId, k: Key, gpuMs: nat)
    ensures !OpenTask(Complete(b, w, k, gpuMs), k)
  {
    hide Weigh;
  }

  lemma CompleteRegistered(c: Cluster, w: WorkerId, j: Key, gpuMs: nat, s: SubId, k: Key)
    requires BooksAgree(c.books) && Registered(c.books, s, k)
    ensures RegisteredOrDue(CompleteCall(c, w, j, gpuMs), s, k)
  {
    hide BooksAgree, Complete, Close;
    if j == k {
      CompletedIsFinal(c.books, w, k, gpuMs);
      assert (s, k) in TaskNotices(c.books.proofs, k);
      assert Notice(s, k, Succeeded) in CompleteCall(c, w, k, gpuMs).desk.due;
    } else if HasTask(c.books.proofs, j) {
      CompleteOthers(c.books, w, j, gpuMs, k);
    }
  }

  lemma FailedIsFinal(b: Books, w: WorkerId, k: Key, retryable: bool)
    requires FailReply(b, w, k).Done? && !TaskAt(b.proofs, k).status.Succeeded?
    requires FailedStatus(TaskAt(b.proofs, k), retryable).FailedFatal?
    ensures !OpenTask(Fail(b, w, k, retryable), k)
    ensures FailureFailsProof(TaskAt(b.proofs, k), retryable) ==> k.proof !in Fail(b, w, k, retryable).proofs
  {
    hide Weigh;
  }

  lemma FatalRegistered(c: Cluster, w: WorkerId, j: Key, retryable: bool, s: SubId, k: Key)
    requires BooksAgree(c.books) && Registered(c.books, s, k)
    requires FailReply(c.books, w, j).Done? && !TaskAt(c.books.proofs, j).status.Succeeded?
    requires FailedStatus(TaskAt(c.books.proofs, j), retryable).FailedFatal?
    ensures RegisteredOrDue(FailCall(c, w, j, retryable), s, k)
  {
    hide BooksAgree, Fail, Close, CloseAll;
    var after := FailCall(c, w, j, retryable);
    FailedIsFinal(c.books, w, j, retryable);
    if FailureFailsProof(TaskAt(c.books.proofs, j), retryable) && k.proof == j.proof {
      assert (s, k) in ProofNotices(c.books.proofs, k.proof);
      assert Notice(s, k, FailedFatal) in after.desk.due;
    } else if j == k {
      assert (s, k) in TaskNotices(c.books.proofs, k);
      assert Notice(s, k, FailedFatal) in after.desk.due;
    } else {
      FatalOthers(c.books, w, j, retryable, k);
    }
  }

  lemma FailRegistered(c: Cluster, w: WorkerId, j: Key, retryable: bool, s: SubId, k: Key)
    requires BooksAgree(c.books) && Registered(c.books, s, k)
    ensures RegisteredOrDue(FailCall(c, w, j, retryable), s, k)
  {
    hide BooksAgree, Fail, Close, CloseAll;
    if FailReply(c.books, w, j).Done? {
      var task := TaskAt(c.books.proofs, j);
      if task.status.Succeeded? || FailedStatus(task, retryable).FailedRetryable? {
        RetryCarries(c.books, w, j, retryable);
      } else {
        FatalRegistered(c, w, j, retryable, s, k);
      }
    }
  }

  lemma DroppedIsGone(b: Books, p: ProofId)
    ensures p !in DropProof(b, p).proofs
  {
    hide Weigh;
  }

  lemma FailProofRegistered(c: Cluster, p: ProofId, blamed: Option<TaskId>, s: SubId, k: Key)
    requires Registered(c.books, s, k)
    ensures RegisteredOrDue(FailProofEffect(c, p, blamed), s, k)
  {
    hide DropProof, CloseAll;
    if ProofFails(c.books, p, blamed) {
      DroppedIsGone(c.books, p);
      if k.proof == p {
        assert (s, k) in ProofNotices(c.books.proofs, p);
        assert Notice(s, k, FailedFatal) in FailProofEffect(c, p, blamed).desk.due;
      } else {
        DropOthers(c.books, p, k);
      }
    }
  }

  lemma BooksCarry(c: Cluster, call: Call)
    requires Good(c) && Legal(c, call)
    requires !call.CompleteTask? && !call.FailTask? && !call.FailProofCall?
    ensures Carries(c.books, Step(c, call).books)
  {
    hide Weigh, Good, Ledger, CountsExact, HooksOnce, CreditsOnce, NoneStranded, NoIdleProof;
    hide AddProof, AddTask, Assign, Carries, RemoveWorker, Heartbeat, Subscribe;
    GoodBooks(c);
    SameCarries(c.books, c.books);
    match call
    case CreateProof(p, t, ty, lane, weight) =>
      var b := AddProof(c.books, p);
      AddProofKeeps(c.books, p);
      AddProofIssues(c.books, p);
      NewWorkCarries(c.books, Key(p, t), ty, lane, weight);
      NewWorkCarries(b, Key(p, t), ty, lane, weight);
      CarriesOn(c.books, b, AddTask(b, Key(p, t), ty, lane, weight));
    case CreateDummyProof(p) => AddProofCarries(c.books, p);
    case CreateTask(k, ty, lane, weight) => NewWorkCarries(c.books, k, ty, lane, weight);
    case WorkerHeartbeat(w, reported) => HeartbeatCarries(c.books, w, reported, c.now);
    case OpenWorker(w, kind, maxWeight) => SameCarries(c.books, AddWorker(c.books, w, kind, maxWeight, c.now));
    case CloseWorkerCall(w) => SameCarries(c.books, CloseWorker(c.books, w));
    case RemoveWorkerCall(w) => RemoveWorkerCarries(c.books, w);
    case PolicyAssign(w, k) => AssignCarries(c.books, w, k);
    case PolicyDiscard(k) => SameCarries(c.books, Discard(c.books, k));
    case AddSubscriptions(s, p, ts) => SubscribeCarries(c.books, s, set t | t in ts :: Key(p, t));
    case _ =>
  }

  lemma CarriesOn(a: Books, b: Books, c: Books)
    requires Carries(a, b) && Carries(b, c)
    ensures Carries(a, c)
  {}

  /** Any call leaves a registration in place, or closes its task and puts the result on its way. */
  lemma RegisteredStep(c: Cluster, call: Call, s: SubId, k: Key)
    requires Good(c) && Legal(c, call) && Registered(c.books, s, k)
    ensures RegisteredOrDue(Step(c, call), s, k)
  {
    hide Good, CompleteCall, FailCall, FailProofEffect, RegisteredOrDue;
    GoodBooks(c);
    match call
    case CompleteTask(w, j, gpuMs) => CompleteRegistered(c, w, j, gpuMs, s, k);
    case FailTask(w, j, retryable) => FailRegistered(c, w, j, retryable, s, k);
    case FailProofCall(p, blamed) => FailProofRegistered(c, p, blamed, s, k);
    case _ =>
      BooksCarry(c, call);
      CarriedRegistered(c, Step(c, call), s, k);
  }

  lemma CarriedRegistered(c: Cluster, after: Cluster, s: SubId, k: Key)
    requires Registered(c.books, s, k) && Carries(c.books, after.books)
    ensures RegisteredOrDue(after, s, k)
  {}

  predicate Delivers(call: Call, s: SubId, k: Key) {
    call == DeliverNotice(Notice(s, k, Succeeded)) || call == DeliverNotice(Notice(s, k, FailedFatal))
  }

  /** A result on its way stays so until it is delivered. */
  lemma AwaitedStep(c: Cluster, call: Call, s: SubId, k: Key)
    requires Legal(c, call) && Awaited(c.desk, s, k) && !Delivers(call, s, k)
    ensures Awaited(Step(c, call).desk, s, k)
  {
    hide Complete, Fail, DropProof, Close, CloseAll, Send, Listen, Weigh;
  }

  /** Delivered, it reaches the subscriber exactly if that is connected at that moment. */
  lemma DeliveryReaches(c: Cluster, call: Call, s: SubId, k: Key)
    requires Legal(c, call) && Delivers(call, s, k)
    ensures var after := Step(c, call).desk;
      if s in c.desk.subs then (s, TaskResult(k.task, call.notice.status)) in after.sent else (s, k) in after.missed
  {}

  predicate Delivered(calls: seq<Call>, s: SubId, k: Key) {
    exists i :: 0 <= i < |calls| && Delivers(calls[i], s, k)
  }

  ghost predicate StaysOpen(c: Cluster, calls: seq<Call>, k: Key)
    requires LegalRun(c, calls)
    decreases |calls|
  {
    OpenTask(c.books, k) && (calls == [] || StaysOpen(Step(c, calls[0]), calls[1..], k))
  }

  lemma DeliveredLater(calls: seq<Call>, s: SubId, k: Key)
    requires calls != []
    ensures Delivered(calls, s, k) <==> Delivers(calls[0], s, k) || Delivered(calls[1..], s, k)
  {
    if Delivered(calls[1..], s, k) {
      var i :| 0 <= i < |calls[1..]| && Delivers(calls[1..][i], s, k);
      assert calls[i + 1] == calls[1..][i];
    }
    if Delivered(calls, s, k) && !Delivers(calls[0], s, k) {
      var i :| 0 <= i < |calls| && Delivers(calls[i], s, k);
      assert calls[1..][i - 1] == calls[i];
    }
  }

  lemma {:induction false} AwaitedRun(c: Cluster, calls: seq<Call>, s: SubId, k: Key)
    requires LegalRun(c, calls) && Awaited(c.desk, s, k)
    ensures Awaited(Run(c, calls).desk, s, k) || Delivered(calls, s, k)
    decreases |calls|
  {
    hide Step, Awaited, Delivered, Legal;
    if calls != [] {
      DeliveredLater(calls, s, k);
      if !Delivers(calls[0], s, k) {
        AwaitedStep(c, calls[0], s, k);
        AwaitedRun(Step(c, calls[0]), calls[1..], s, k);
      }
    }
  }

  lemma {:induction false} RegisteredRun(c: Cluster, calls: seq<Call>, s: SubId, k: Key)
    requires Good(c) && LegalRun(c, calls) && Registered(c.books, s, k)
    ensures Registered(Run(c, calls).books, s, k) || Awaited(Run(c, calls).desk, s, k) || Delivered(calls, s, k)
    ensures StaysOpen(c, calls, k) ==> Registered(Run(c, calls).books, s, k)
    decreases |calls|
  {
    hide Good, Step, Awaited, Delivered, Legal;
    if calls != [] {
      var next := Step(c, calls[0]);
      StepKeeps(c, calls[0]);
      RegisteredStep(c, calls[0], s, k);
      DeliveredLater(calls, s, k);
      if Registered(next.books, s, k) {
        RegisteredRun(next, calls[1..], s, k);
      } else {
        assert !StaysOpen(next, calls[1..], k);
        AwaitedRun(next, calls[1..], s, k);
      }
    }
  }

  /**
    Each acceptance is answered for itself. On a task that is neither succeeded nor fatally failed it
    registers the subscriber, who stays registered while the task is open; over every later run the
    subscriber is still registered, or the final result is on its way, or was delivered in that very
    run. Of a finished task its status goes out at once, and of a missing one that it is unknown.
  */
  lemma EachAcceptanceAnswered(c: Cluster, s: SubId, p: ProofId, ts: seq<TaskId>, t: TaskId, calls: seq<Call>)
    requires Good(c) && t in ts && LegalRun(Step(c, AddSubscriptions(s, p, ts)), calls)
    ensures var k, after := Key(p, t), Step(c, AddSubscriptions(s, p, ts));
      if !HasTask(c.books.proofs, k) then (s, UnknownTask(p, t)) in after.desk.sent
      else if TaskAt(c.books.proofs, k).status == Succeeded then (s, TaskResult(t, Succeeded)) in after.desk.sent
      else if TaskAt(c.books.proofs, k).status == FailedFatal then (s, TaskResult(t, FailedFatal)) in after.desk.sent
      else
        && Registered(after.books, s, k)
        && (StaysOpen(after, calls, k) ==> Registered(Run(after, calls).books, s, k))
        && (|| Registered(Run(after, calls).books, s, k)
            || Awaited(Run(after, calls).desk, s, k)
            || Delivered(calls, s, k))
  {
    hide Good, Awaited, Delivered, Run, LegalRun, StaysOpen, Subscribe;
    var k, ks := Key(p, t), set u | u in ts :: Key(p, u);
    assert k in ks;
    StepKeeps(c, AddSubscriptions(s, p, ts));
    SubscribeAt(c.books, s, ks);
    RetouchedTask(c.books.proofs, Subscribe(c.books, s, ks).proofs);
    if OpenTask(c.books, k) {
      RegisteredRun(Step(c, AddSubscriptions(s, p, ts)), calls, s, k);
    }
  }

  /** And nothing else is said at once: to nobody else, of no other task, and nothing of an open one. */
  lemma NothingElseSaid(c: Cluster, s: SubId, p: ProofId, ts: seq<TaskId>, x: SubId, m: SubMessage)
    requires (x, m) in Step(c, AddSubscriptions(s, p, ts)).desk.sent && (x, m) !in c.desk.sent
    ensures x == s
    ensures match m {
        case UnknownTask(q, t) => q == p && t in ts && !HasTask(c.books.proofs, Key(p, t))
        case TaskResult(t, status) =>
          && t in ts && HasTask(c.books.proofs, Key(p, t)) && TaskAt(c.books.proofs, Key(p, t)).status == status
          && status in {Succeeded, FailedFatal}
      }
  {}
}
