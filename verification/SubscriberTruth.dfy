/**
  Whether what subscribers are told is true. A failure is decided only of a task that has not
  succeeded, but its notice may be overtaken by a late completion before it is handed over.
*/
module SubscriberTruth {
  import opened ClusterTypes
  import opened TaskBooks
  import opened BookInvariants
  import opened BookSteps
  import opened StepShapes
  import opened MethodShapes
  import opened TaskChannels
  import opened CoordinatorRuns
  import opened PolicyQueues
  import opened PolicyRuns
  import opened CoordinatorTheorems
  import opened CallEffects

  predicate SucceededIn(b: Books, k: Key) {
    HasTask(b.proofs, k) && TaskAt(b.proofs, k).status == Succeeded
  }

  /** Nobody is registered on a task that has succeeded. */
  ghost predicate Quiet(b: Books) {
    forall k :: SucceededIn(b, k) ==> TaskAt(b.proofs, k).subscribers == {}
  }

  lemma CompleteQuiet(b: Books, w: WorkerId, k: Key, gpuMs: nat)
    requires Quiet(b)
    ensures Quiet(Complete(b, w, k, gpuMs))
  {
    hide Weigh, Complete;
    CompleteFrame(b, w, k, gpuMs);
    forall j | SucceededIn(Complete(b, w, k, gpuMs), j)
      ensures TaskAt(Complete(b, w, k, gpuMs).proofs, j).subscribers == {}
    {
      assert SucceededIn(b, j) || j == k;
    }
  }

  lemma FailQuiet(b: Books, w: WorkerId, k: Key, retryable: bool)
    requires BooksAgree(b) && Quiet(b)
    ensures Quiet(Fail(b, w, k, retryable))
  {
    hide Weigh, Fail, BooksAgree, FailDrops;
    if FailReply(b, w, k).Done? {
      FailFrame(b, w, k, retryable);
      forall j | SucceededIn(Fail(b, w, k, retryable), j)
        ensures TaskAt(Fail(b, w, k, retryable).proofs, j).subscribers == {}
      {
        assert SucceededIn(b, j);
      }
    } else {
      PolicyRuns.FailRefused(b, w, k, retryable);
    }
  }

  lemma DropQuiet(b: Books, p: ProofId)
    requires Quiet(b)
    ensures Quiet(DropProof(b, p))
  {
    hide DropProof;
    DropFrame(b, p);
    forall j | SucceededIn(DropProof(b, p), j)
      ensures TaskAt(DropProof(b, p).proofs, j).subscribers == {}
    {
      assert SucceededIn(b, j);
    }
  }

  lemma SubscribeQuiet(b: Books, s: SubId, ks: set<Key>)
    requires Quiet(b)
    ensures Quiet(Subscribe(b, s, ks))
  {
    forall j | SucceededIn(Subscribe(b, s, ks), j)
      ensures TaskAt(Subscribe(b, s, ks).proofs, j).subscribers == {}
    {
      assert SucceededIn(b, j);
    }
  }

  lemma PlainQuiet(c: Cluster, call: Call)
    requires Legal(c, call) && Quiet(c.books)
    requires !call.CompleteTask? && !call.FailTask? && !call.FailProofCall? && !call.AddSubscriptions?
    ensures Quiet(Step(c, call).books)
  {
    hide Weigh, Send, Listen;
    var after := Step(c, call).books;
    forall j | SucceededIn(after, j)
      ensures TaskAt(after.proofs, j).subscribers == {}
    {
      assert SucceededIn(c.books, j);
      assert TaskAt(after.proofs, j).subscribers == TaskAt(c.books.proofs, j).subscribers;
    }
  }

  lemma QuietStep(c: Cluster, call: Call)
    requires Good(c) && Legal(c, call) && Quiet(c.books)
    ensures Quiet(Step(c, call).books)
  {
    hide Good, BooksAgree, Quiet, Complete, Fail, DropProof, Subscribe, Close, CloseAll, Announce;
    GoodBooks(c);
    match call
    case CompleteTask(w, k, gpuMs) => CompleteQuiet(c.books, w, k, gpuMs);
    case FailTask(w, k, retryable) => FailQuiet(c.books, w, k, retryable);
    case FailProofCall(p, _) => DropQuiet(c.books, p);
    case AddSubscriptions(s, p, ts) => SubscribeQuiet(c.books, s, set t | t in ts :: Key(p, t));
    case _ => PlainQuiet(c, call);
  }

  lemma {:induction false} QuietRun(c: Cluster, calls: seq<Call>)
    requires Good(c) && LegalRun(c, calls) && Quiet(c.books)
    ensures Quiet(Run(c, calls).books)
    decreases |calls|
  {
    hide Good, Step, Legal, Quiet;
    if calls != [] {
      StepKeeps(c, calls[0]);
      QuietStep(c, calls[0]);
      QuietRun(Step(c, calls[0]), calls[1..]);
    }
  }

  lemma ReachableQuiet(c: Cluster)
    requires Reachable(c)
    ensures Quiet(c.books)
  {
    hide Good, Step, LegalRun, Run;
    var calls :| LegalRun(START, calls) && c == Run(START, calls);
    StartGood();
    QuietRun(START, calls);
  }

  // ---- what is decided ----------------------------------------------------------------------

  /**
    A failure notice is put on its way only to a subscriber of a task that exists and has not
    succeeded, and a success notice only to one of a task that is being completed.
  */
  lemma NoticesDecidedTruly(c: Cluster, call: Call, n: Notice)
    requires Reachable(c) && Legal(c, call) && n in Step(c, call).desk.due && n !in c.desk.due
    ensures HasTask(c.books.proofs, n.key) && n.sub in TaskAt(c.books.proofs, n.key).subscribers
    ensures TaskAt(c.books.proofs, n.key).status != Succeeded
    ensures n.status == Succeeded || n.status == FailedFatal
    ensures n.status == Succeeded <==> call.CompleteTask? && call.key == n.key
  {
    hide Reachable, Good, Complete, Fail, DropProof, Close, CloseAll, Send, Listen;
    ReachableQuiet(c);
    match call
    case CompleteTask(w, k, gpuMs) => NoticesAre(c.books, k, Succeeded);
    case FailTask(w, k, retryable) =>
      if FailReply(c.books, w, k).Done? {
        NoticesAre(c.books, k, FailedFatal);
        ProofNoticesAre(c.books, k.proof, FailedFatal);
      }
    case FailProofCall(p, _) => ProofNoticesAre(c.books, p, FailedFatal);
    case _ =>
  }

  /** A result is sent only as the status of a finished task at that moment, or as a notice that was on its way. */
  lemma ResultsSentTruly(c: Cluster, call: Call, s: SubId, t: TaskId, status: TaskStatus)
    requires Legal(c, call)
    requires (s, TaskResult(t, status)) in Step(c, call).desk.sent && (s, TaskResult(t, status)) !in c.desk.sent
    ensures
      || (&& call.DeliverNotice? && call.notice in c.desk.due
          && call.notice.sub == s && call.notice.key.task == t && call.notice.status == status)
      || (&& call.AddSubscriptions? && call.sub == s && HasTask(c.books.proofs, Key(call.proof, t))
          && TaskAt(c.books.proofs, Key(call.proof, t)).status == status && status in {Succeeded, FailedFatal})
  {
    hide Complete, Fail, DropProof, Close, CloseAll, Send, Listen;
  }

  // ---- what may happen before it is handed over ---------------------------------------------------

  lemma CompleteSuccess(b: Books, w: WorkerId, j: Key, gpuMs: nat, k: Key)
    requires SucceededIn(Complete(b, w, j, gpuMs), k) && j != k
    ensures SucceededIn(b, k)
  {
    hide Weigh, Complete;
    CompleteFrame(b, w, j, gpuMs);
  }

  lemma FailSuccess(b: Books, w: WorkerId, j: Key, retryable: bool, k: Key)
    requires BooksAgree(b) && SucceededIn(Fail(b, w, j, retryable), k)
    ensures SucceededIn(b, k)
  {
    hide Weigh, Fail, BooksAgree, FailDrops;
    if FailReply(b, w, j).Done? {
      FailFrame(b, w, j, retryable);
    } else {
      PolicyRuns.FailRefused(b, w, j, retryable);
    }
  }

  lemma DropSuccess(b: Books, p: ProofId, k: Key)
    requires SucceededIn(DropProof(b, p), k)
    ensures SucceededIn(b, k)
  {
    hide DropProof;
    DropFrame(b, p);
  }

  lemma SuccessByCompletion(c: Cluster, call: Call, k: Key)
    requires Good(c) && Legal(c, call) && SucceededIn(Step(c, call).books, k)
    ensures SucceededIn(c.books, k) || (call.CompleteTask? && call.key == k)
  {
    hide Good, BooksAgree, Complete, Fail, DropProof, Close, CloseAll, Announce, SucceededIn;
    GoodBooks(c);
    match call
    case CompleteTask(w, j, gpuMs) =>
      if j != k && HasTask(c.books.proofs, j) { CompleteSuccess(c.books, w, j, gpuMs, k); }
    case FailTask(w, j, retryable) =>
      if FailReply(c.books, w, j).Done? { FailSuccess(c.books, w, j, retryable, k); }
    case FailProofCall(p, blamed) =>
      if ProofFails(c.books, p, blamed) { DropSuccess(c.books, p, k); }
    case _ => PlainSuccess(c, call, k);
  }

  lemma PlainSuccess(c: Cluster, call: Call, k: Key)
    requires Legal(c, call) && SucceededIn(Step(c, call).books, k)
    requires !call.CompleteTask? && !call.FailTask? && !call.FailProofCall?
    ensures SucceededIn(c.books, k)
  {
    hide Weigh, Send, Listen;
  }

  lemma StepIssues(c: Cluster, call: Call)
    requires Legal(c, call)
    ensures c.books.issued.Keys <= Step(c, call).books.issued.Keys
  {
    hide Weigh, Complete, Fail, DropProof, Send, Listen, Close, CloseAll;
    match call
    case CompleteTask(w, k, gpuMs) => CompleteFrame(c.books, w, k, gpuMs);
    case FailTask(w, k, retryable) => FailIssues(c.books, w, k, retryable);
    case FailProofCall(p, _) => DropFrame(c.books, p);
    case _ =>
  }

  lemma FailIssues(b: Books, w: WorkerId, k: Key, retryable: bool)
    ensures Fail(b, w, k, retryable).issued == b.issued
  {
    hide Weigh;
  }

  lemma StayedThere(c: Cluster, call: Call, k: Key)
    requires Good(c) && Legal(c, call) && k.task in c.books.issued && HasTask(Step(c, call).books.proofs, k)
    ensures HasTask(c.books.proofs, k)
  {
    hide Good, BooksAgree, Step, LanesKept;
    GoodBooks(c);
    StepLanes(c, call);
    LaneOf(c.books, Step(c, call).books, k);
  }

  lemma {:induction false} WasThere(c: Cluster, calls: seq<Call>, k: Key)
    requires Good(c) && LegalRun(c, calls) && k.task in c.books.issued && HasTask(Run(c, calls).books.proofs, k)
    ensures HasTask(c.books.proofs, k)
    decreases |calls|
  {
    hide Good, Step, Legal;
    if calls != [] {
      StepKeeps(c, calls[0]);
      StepIssues(c, calls[0]);
      WasThere(Step(c, calls[0]), calls[1..], k);
      StayedThere(c, calls[0], k);
    }
  }

  lemma SuccessStays(c: Cluster, call: Call, k: Key)
    requires Good(c) && Legal(c, call) && HasTask(Step(c, call).books.proofs, k) && k.task in c.books.issued
    requires SucceededIn(c.books, k) || (call.CompleteTask? && call.key == k)
    ensures SucceededIn(Step(c, call).books, k)
  {
    hide Good, Complete, BooksAgree;
    StayedThere(c, call, k);
    if call.CompleteTask? && call.key == k {
      CompleteFrame(c.books, call.worker, k, call.gpuMs);
    } else {
      hide Step;
      StepKeeps(c, call);
      GoodBooks(c);
      GoodBooks(Step(c, call));
      AgreeHooks(c.books);
      AgreeHooks(Step(c, call).books);
      StepKeepsHooks(c, call);
    }
  }

  predicate CompletedIn(calls: seq<Call>, k: Key) {
    exists i :: 0 <= i < |calls| && calls[i].CompleteTask? && calls[i].key == k
  }

  lemma CompletedLater(calls: seq<Call>, k: Key)
    requires calls != []
    ensures CompletedIn(calls, k) <==> (calls[0].CompleteTask? && calls[0].key == k) || CompletedIn(calls[1..], k)
  {
    if CompletedIn(calls[1..], k) {
      var i :| 0 <= i < |calls[1..]| && calls[1..][i].CompleteTask? && calls[1..][i].key == k;
      assert calls[i + 1] == calls[1..][i];
    }
    if CompletedIn(calls, k) && !(calls[0].CompleteTask? && calls[0].key == k) {
      var i :| 0 <= i < |calls| && calls[i].CompleteTask? && calls[i].key == k;
      assert calls[1..][i - 1] == calls[i];
    }
  }

  lemma {:induction false} SucceededBetween(c: Cluster, calls: seq<Call>, k: Key)
    requires Good(c) && LegalRun(c, calls) && k.task in c.books.issued && HasTask(Run(c, calls).books.proofs, k)
    ensures SucceededIn(Run(c, calls).books, k) <==> SucceededIn(c.books, k) || CompletedIn(calls, k)
    decreases |calls|
  {
    hide Good, Step, Legal, CompletedIn;
    if calls == [] {
      assert !CompletedIn([], k) by { NoneCompleted(k); }
    } else {
      var next := Step(c, calls[0]);
      StepKeeps(c, calls[0]);
      StepIssues(c, calls[0]);
      CompletedLater(calls, k);
      SucceededBetween(next, calls[1..], k);
      WasThere(next, calls[1..], k);
      if SucceededIn(next.books, k) { SuccessByCompletion(c, calls[0], k); }
      if SucceededIn(c.books, k) || (calls[0].CompleteTask? && calls[0].key == k) { SuccessStays(c, calls[0], k); }
    }
  }

  lemma NoneCompleted(k: Key)
    ensures !CompletedIn([], k)
  {}

  /**
    A failure notice decided in one call and handed over after some more is untrue by then, the task
    being there and succeeded, exactly when the task is still there and was completed in between.
  */
  lemma FailureUntrueExactly(c: Cluster, call: Call, n: Notice, calls: seq<Call>)
    requires Reachable(c) && Legal(c, call) && n in Step(c, call).desk.due && n !in c.desk.due && n.status == FailedFatal
    requires LegalRun(Step(c, call), calls)
    ensures var end := Run(Step(c, call), calls);
      SucceededIn(end.books, n.key) <==> HasTask(end.books.proofs, n.key) && CompletedIn(calls, n.key)
  {
    hide Reachable, Good, Step, Legal, Run, LegalRun, CompletedIn, Quiet;
    ReachableGood(c);
    NoticesDecidedTruly(c, call, n);
    HeldIssued(c, 0, n.key);
    StepKeeps(c, call);
    StepIssues(c, call);
    var mid, end := Step(c, call), Run(Step(c, call), calls);
    if SucceededIn(mid.books, n.key) { SuccessByCompletion(c, call, n.key); }
    if HasTask(end.books.proofs, n.key) { SucceededBetween(mid, calls, n.key); }
  }

  /** It does happen: any failure notice still on its way can be overtaken by a completion of its task. */
  lemma FailureToldAfterSuccess(c: Cluster, n: Notice, w: WorkerId, gpuMs: nat)
    requires Reachable(c) && n in c.desk.due && n.status == FailedFatal && n.sub in c.desk.subs
    requires HasTask(c.books.proofs, n.key) && OthersLive(c.books, n.key) != {}
    ensures Legal(Step(c, CompleteTask(w, n.key, gpuMs)), DeliverNotice(n))
    ensures var end := Step(Step(c, CompleteTask(w, n.key, gpuMs)), DeliverNotice(n));
      SucceededIn(end.books, n.key) && (n.sub, TaskResult(n.key.task, FailedFatal)) in end.desk.sent
  {
    hide Reachable, Complete, Close;
    CompletionEffect(c, w, n.key, gpuMs);
  }
}
