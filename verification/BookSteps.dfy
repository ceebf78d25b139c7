/** Every step of the coordinator keeps its books in agreement. */
module BookSteps {
  import opened ClusterTypes
  import opened TaskBooks
  import opened BookInvariants

  // ---- replacing one task record -------------------------------------------------------

  lemma LiveAfterPut(ps: map<ProofId, Proof>, k: Key, task: Task, active: int)
    requires k.proof in ps
    ensures Live(PutTask(ps, k, task, active)[k.proof]) ==
            if Terminal(task.status) then Live(ps[k.proof]) - {k.task} else Live(ps[k.proof]) + {k.task}
  {}

  lemma PutTaskAt(ps: map<ProofId, Proof>, k: Key, task: Task, active: int)
    requires k.proof in ps
    ensures var qs := PutTask(ps, k, task, active);
      && (forall j :: HasTask(qs, j) <==> j == k || HasTask(ps, j))
      && HasTask(qs, k) && TaskAt(qs, k) == task
      && (forall j :: HasTask(ps, j) && j != k ==> TaskAt(qs, j) == TaskAt(ps, j))
  {}

  /** Replacing a task that is not held, or keeping what its holder relies on. */
  lemma PutLedger(b: Books, k: Key, task: Task, active: int)
    requires Ledger(b) && k.proof in b.proofs
    requires Held(b.workers, k) ==>
      && HasTask(b.proofs, k)
      && task.weight == TaskAt(b.proofs, k).weight
      && task.lane == TaskAt(b.proofs, k).lane
      && task.worker == TaskAt(b.proofs, k).worker
      && (task.status.Running? || task.status.Succeeded?)
    ensures Ledger(b.(proofs := PutTask(b.proofs, k, task, active)))
  {
    hide Weigh, WeightsExact, Conserved, QueueSound;
    var qs := PutTask(b.proofs, k, task, active);
    PutTaskAt(b.proofs, k, task, active);
    assert HoldsKept(b, qs);
    ReproofLedger(b, qs);
  }

  lemma PutCounts(b: Books, k: Key, task: Task, active: int)
    requires CountsExact(b) && k.proof in b.proofs
    requires active ==
      |if Terminal(task.status) then Live(b.proofs[k.proof]) - {k.task} else Live(b.proofs[k.proof]) + {k.task}|
    ensures CountsExact(b.(proofs := PutTask(b.proofs, k, task, active)))
  {
    LiveAfterPut(b.proofs, k, task, active);
  }

  lemma PutIds(b: Books, k: Key, task: Task, active: int)
    requires IdsUnique(b) && HasTask(b.proofs, k)
    ensures IdsUnique(b.(proofs := PutTask(b.proofs, k, task, active)))
  {
    var qs := PutTask(b.proofs, k, task, active);
    assert forall j :: HasTask(qs, j) ==> HasTask(b.proofs, j);
  }

  lemma PutCredits(b: Books, k: Key, task: Task, active: int)
    requires CreditsOnce(b) && HasTask(b.proofs, k) && task.attempts == TaskAt(b.proofs, k).attempts
    ensures CreditsOnce(b.(proofs := PutTask(b.proofs, k, task, active)))
  {
    var qs := PutTask(b.proofs, k, task, active);
    assert forall j, v :: Attempted(qs, j, v) ==>
      Attempted(b.proofs, j, v) && AttemptAt(qs, j, v) == AttemptAt(b.proofs, j, v);
  }

  lemma PutPlain(b: Books, k: Key, task: Task, active: int)
    requires HooksOnce(b) && RetriesBounded(b) && HasTask(b.proofs, k)
    requires task.status.Succeeded? == TaskAt(b.proofs, k).status.Succeeded? && task.retries <= MAX_TASK_RETRIES
    ensures var after := b.(proofs := PutTask(b.proofs, k, task, active)); HooksOnce(after) && RetriesBounded(after)
  {
    var qs := PutTask(b.proofs, k, task, active);
    assert forall j :: HasTask(qs, j) ==> HasTask(b.proofs, j) && (j != k ==> TaskAt(qs, j) == TaskAt(b.proofs, j));
  }

  // ---- records -------------------------------------------------------------------------

  lemma CompleteCredits(b: Books, w: WorkerId, k: Key, gpuMs: nat)
    requires CreditsOnce(b) && HasTask(b.proofs, k)
    ensures CreditsOnce(MarkSucceeded(b, w, k, gpuMs))
  {
    var after := MarkSucceeded(b, w, k, gpuMs);
    forall j, v | Attempted(after.proofs, j, v)
      ensures Attempted(b.proofs, j, v)
      ensures AttemptAt(after.proofs, j, v).serial == AttemptAt(b.proofs, j, v).serial
      ensures AttemptAt(after.proofs, j, v).credited == (AttemptAt(b.proofs, j, v).credited || (j == k && v == w))
    {}
    if Uncredited(TaskAt(b.proofs, k), w) {
      assert Attempted(b.proofs, k, w);
    }
  }

  lemma CompletePlain(b: Books, w: WorkerId, k: Key, gpuMs: nat)
    requires IdsUnique(b) && HooksOnce(b) && RetriesBounded(b) && HasTask(b.proofs, k)
    ensures var after := MarkSucceeded(b, w, k, gpuMs); IdsUnique(after) && HooksOnce(after) && RetriesBounded(after)
  {
    var after := MarkSucceeded(b, w, k, gpuMs);
    PutTaskAt(b.proofs, k, SucceededTask(TaskAt(b.proofs, k), w), after.proofs[k.proof].activeTasks);
  }

  lemma CompleteRecords(b: Books, w: WorkerId, k: Key, gpuMs: nat)
    requires Records(b) && HasTask(b.proofs, k)
    ensures Records(MarkSucceeded(b, w, k, gpuMs))
  {
    hide CreditsOnce, HooksOnce, IdsUnique, RetriesBounded;
    PutCounts(b, k, SucceededTask(TaskAt(b.proofs, k), w), MarkSucceeded(b, w, k, gpuMs).proofs[k.proof].activeTasks);
    CompletePlain(b, w, k, gpuMs);
    CompleteCredits(b, w, k, gpuMs);
  }

  lemma FailRecords(b: Books, k: Key, retryable: bool)
    requires Records(b) && HasTask(b.proofs, k)
    requires !Terminal(TaskAt(b.proofs, k).status)
    ensures Records(MarkFailed(b, k, retryable))
  {
    var task := FailedTask(TaskAt(b.proofs, k), retryable);
    var active := ActiveAfterFail(b, k, retryable);
    PutCounts(b, k, task, active);
    PutIds(b, k, task, active);
    PutCredits(b, k, task, active);
    PutPlain(b, k, task, active);
  }

  lemma AssignCredits(b: Books, w: WorkerId, k: Key)
    requires CreditsOnce(b) && CanAssign(b, w, k)
    ensures CreditsOnce(Assign(b, w, k))
  {
    var after := Assign(b, w, k);
    forall j: Key, v: WorkerId | Attempted(after.proofs, j, v) && !(j == k && v == w)
      ensures Attempted(b.proofs, j, v) && AttemptAt(after.proofs, j, v) == AttemptAt(b.proofs, j, v)
    {}
  }

  lemma AssignRecords(b: Books, w: WorkerId, k: Key)
    requires Records(b) && CanAssign(b, w, k)
    ensures Records(Assign(b, w, k))
  {
    var task := TaskAt(Assign(b, w, k).proofs, k);
    assert Live(b.proofs[k.proof]) + {k.task} == Live(b.proofs[k.proof]);
    PutCounts(b, k, task, b.proofs[k.proof].activeTasks);
    PutIds(b, k, task, b.proofs[k.proof].activeTasks);
    PutPlain(b, k, task, b.proofs[k.proof].activeTasks);
    AssignCredits(b, w, k);
  }

  lemma AddTaskPlain(b: Books, k: Key, ty: TaskType, lane: Lane, weight: nat)
    requires IdsUnique(b) && HooksOnce(b) && RetriesBounded(b) && k.proof in b.proofs && k.task !in b.issued
    ensures var after := AddTask(b, k, ty, lane, weight); IdsUnique(after) && HooksOnce(after) && RetriesBounded(after)
  {
    PutTaskAt(b.proofs, k, NewTask(ty, lane, weight), b.proofs[k.proof].activeTasks + 1);
  }

  lemma AddTaskCredits(b: Books, k: Key, ty: TaskType, lane: Lane, weight: nat)
    requires CreditsOnce(b) && k.proof in b.proofs && !HasTask(b.proofs, k)
    ensures CreditsOnce(AddTask(b, k, ty, lane, weight))
  {
    var after := AddTask(b, k, ty, lane, weight);
    assert forall j: Key, v: WorkerId :: Attempted(after.proofs, j, v) ==>
      Attempted(b.proofs, j, v) && AttemptAt(after.proofs, j, v) == AttemptAt(b.proofs, j, v);
  }

  lemma AddTaskRecords(b: Books, k: Key, ty: TaskType, lane: Lane, weight: nat)
    requires Records(b) && k.task !in b.issued
    ensures Records(AddTask(b, k, ty, lane, weight))
  {
    if k.proof in b.proofs {
      AddTaskPlain(b, k, ty, lane, weight);
      assert !HasTask(b.proofs, k);
      hide CreditsOnce, HooksOnce, IdsUnique, RetriesBounded;
      AddTaskCredits(b, k, ty, lane, weight);
      PutCounts(b, k, NewTask(ty, lane, weight), b.proofs[k.proof].activeTasks + 1);
    }
  }

  /** The records do not depend on workers, queue, releases or weights. */
  lemma RecordsFrame(b: Books, c: Books)
    requires Records(b) && c.proofs == b.proofs && c.issued == b.issued && c.grants == b.grants
    requires c.hooks == b.hooks && c.credits == b.credits
    ensures Records(c)
  {}

  lemma DropCredits(b: Books, p: ProofId)
    requires CreditsOnce(b)
    ensures CreditsOnce(b.(proofs := b.proofs - {p}))
  {
    assert forall j: Key, v: WorkerId :: Attempted(b.proofs - {p}, j, v) ==>
      Attempted(b.proofs, j, v) && AttemptAt(b.proofs - {p}, j, v) == AttemptAt(b.proofs, j, v);
  }

  lemma DropRecords(b: Books, p: ProofId)
    requires Records(b)
    ensures Records(DropProof(b, p))
  {
    hide Weigh, CreditsOnce;
    DropCredits(b, p);
    var less := b.(proofs := b.proofs - {p});
    assert forall j :: HasTask(less.proofs, j) ==> HasTask(b.proofs, j) && TaskAt(less.proofs, j) == TaskAt(b.proofs, j);
    RecordsFrame(less, DropProof(b, p));
  }

  /** Only subscriber sets and requeue tallies differ. */
  ghost predicate Retouched(ps: map<ProofId, Proof>, qs: map<ProofId, Proof>) {
    && (forall p :: p in ps <==> p in qs)
    && (forall p :: p in ps ==> qs[p].activeTasks == ps[p].activeTasks)
    && (forall k :: HasTask(ps, k) <==> HasTask(qs, k))
    && (forall k :: HasTask(ps, k) ==>
          TaskAt(qs, k).(subscribers := {}, requeues := 0) == TaskAt(ps, k).(subscribers := {}, requeues := 0))
  }

  lemma RetouchedTask(ps: map<ProofId, Proof>, qs: map<ProofId, Proof>)
    requires Retouched(ps, qs)
    ensures forall k :: HasTask(ps, k) ==>
      && TaskAt(qs, k).status == TaskAt(ps, k).status && TaskAt(qs, k).lane == TaskAt(ps, k).lane
      && TaskAt(qs, k).weight == TaskAt(ps, k).weight && TaskAt(qs, k).worker == TaskAt(ps, k).worker
      && TaskAt(qs, k).attempts == TaskAt(ps, k).attempts && TaskAt(qs, k).retries == TaskAt(ps, k).retries
  {}

  lemma RetouchLive(ps: map<ProofId, Proof>, qs: map<ProofId, Proof>, p: ProofId)
    requires Retouched(ps, qs) && p in ps
    ensures Live(qs[p]) == Live(ps[p])
    ensures qs[p].tasks != map[] ==> ps[p].tasks != map[]
  {
    forall t
      ensures t in ps[p].tasks <==> t in qs[p].tasks
      ensures t in ps[p].tasks ==> qs[p].tasks[t].status == ps[p].tasks[t].status
    {
      assert HasTask(ps, Key(p, t)) <==> HasTask(qs, Key(p, t));
      if t in ps[p].tasks {
        assert TaskAt(qs, Key(p, t)).(subscribers := {}, requeues := 0) ==
          TaskAt(ps, Key(p, t)).(subscribers := {}, requeues := 0);
      }
    }
  }

  lemma RetouchCredits(b: Books, qs: map<ProofId, Proof>)
    requires CreditsOnce(b) && Retouched(b.proofs, qs)
    ensures CreditsOnce(b.(proofs := qs))
  {
    RetouchedTask(b.proofs, qs);
    assert forall j: Key, v: WorkerId :: Attempted(qs, j, v) ==>
      Attempted(b.proofs, j, v) && AttemptAt(qs, j, v) == AttemptAt(b.proofs, j, v);
  }

  lemma RetouchRecords(b: Books, qs: map<ProofId, Proof>)
    requires Records(b) && Retouched(b.proofs, qs)
    ensures Records(b.(proofs := qs))
  {
    hide CreditsOnce;
    RetouchCredits(b, qs);
    RetouchedTask(b.proofs, qs);
    forall p | p in qs
      ensures qs[p].activeTasks == |Live(qs[p])|
    {
      RetouchLive(b.proofs, qs, p);
    }
  }

  // ---- completion ----------------------------------------------------------------------

  /** Histories and time counters are not part of the ledger. */
  lemma HistoryLedger(b: Books, c: Books)
    requires Ledger(b)
    requires c.proofs == b.proofs && c.workers == b.workers && c.queue == b.queue && c.gpuWeights == b.gpuWeights
    requires c.grants == b.grants && c.releases == b.releases && c.issued == b.issued
    ensures Ledger(c)
  {
    hide Weigh;
    assert forall p :: HeldGpu(c, p) == HeldGpu(b, p);
  }

  lemma CompleteLedger(b: Books, w: WorkerId, k: Key, gpuMs: nat)
    requires Ledger(b) && HasTask(b.proofs, k)
    ensures Ledger(MarkSucceeded(b, w, k, gpuMs))
  {
    hide Weigh, GpuExact, WeightsExact, Conserved, QueueSound;
    var active := MarkSucceeded(b, w, k, gpuMs).proofs[k.proof].activeTasks;
    PutLedger(b, k, SucceededTask(TaskAt(b.proofs, k), w), active);
    HistoryLedger(b.(proofs := MarkSucceeded(b, w, k, gpuMs).proofs), MarkSucceeded(b, w, k, gpuMs));
  }

  /** Holds outside `r`, and outside a dropped proof, survive. */
  lemma SettleStranded(b: Books, c: Books, k: Key)
    requires NoneStranded(b) && b.queue <= c.queue
    requires forall j :: j in HeldKeys(b.workers) && j != k && HasTask(c.proofs, j) ==> j in HeldKeys(c.workers)
    requires forall j :: HasTask(c.proofs, j) && j != k ==>
      && HasTask(b.proofs, j)
      && TaskAt(c.proofs, j).status == TaskAt(b.proofs, j).status
      && TaskAt(c.proofs, j).lane == TaskAt(b.proofs, j).lane
    requires HasTask(c.proofs, k) ==>
      Terminal(TaskAt(c.proofs, k).status) || TaskAt(c.proofs, k).lane.NoLane? || k in c.queue
    ensures NoneStranded(c)
  {}

  lemma CompleteNotStranded(b: Books, w: WorkerId, k: Key, gpuMs: nat)
    requires NoneStranded(b) && HasTask(b.proofs, k)
    ensures NoneStranded(Complete(b, w, k, gpuMs))
  {
    hide Weigh, NoneStranded;
    var marked := MarkSucceeded(b, w, k, gpuMs);
    var settled := if Holding(b.workers, w, k) then Unhold(marked, {k}) else marked;
    PutTaskAt(b.proofs, k, SucceededTask(TaskAt(b.proofs, k), w), marked.proofs[k.proof].activeTasks);
    UnholdHeld(marked, {k});
    UnholdHeld(settled, HeldOf(settled.workers, k.proof));
    SettleStranded(b, Complete(b, w, k, gpuMs), k);
  }

  lemma CompleteNotIdle(b: Books, w: WorkerId, k: Key, gpuMs: nat)
    requires NoIdleProof(b) && HasTask(b.proofs, k) && Records(MarkSucceeded(b, w, k, gpuMs))
    ensures NoIdleProof(Complete(b, w, k, gpuMs))
  {
    hide Weigh, CreditsOnce, HooksOnce, IdsUnique, RetriesBounded;
  }

  lemma CompleteKeeps(b: Books, w: WorkerId, k: Key, gpuMs: nat)
    requires BooksAgree(b)
    ensures BooksAgree(Complete(b, w, k, gpuMs))
  {
    hide Weigh, Ledger, Records, NoneStranded;
    if HasTask(b.proofs, k) {
      var marked := MarkSucceeded(b, w, k, gpuMs);
      CompleteLedger(b, w, k, gpuMs);
      CompleteRecords(b, w, k, gpuMs);
      CompleteNotStranded(b, w, k, gpuMs);
      var settled := if Holding(b.workers, w, k) then Unhold(marked, {k}) else marked;
      UnholdLedger(marked, {k});
      RecordsFrame(marked, settled);
      DropLedger(settled, k.proof);
      DropRecords(settled, k.proof);
      CompleteNotIdle(b, w, k, gpuMs);
    }
  }

  // ---- failure -------------------------------------------------------------------------

  /** The task being failed is running, unheld once released, and not queued. */
  lemma FailMarks(b: Books, w: WorkerId, k: Key, retryable: bool)
    requires Ledger(b) && Records(b) && FailReply(b, w, k).Done? && !TaskAt(b.proofs, k).status.Succeeded?
    ensures var marked := MarkFailed(Unhold(b, {k}), k, retryable);
      && Ledger(marked) && Records(marked) && k !in HeldKeys(marked.workers) && k !in marked.queue
      && k.task in marked.issued
  {
    hide Weigh, GpuExact, WeightsExact, Conserved, CreditsOnce, HooksOnce, CountsExact, RetriesBounded;
    assert k in HeldKeys(b.workers);
    UnholdLedger(b, {k});
    UnholdHeld(b, {k});
    RecordsFrame(b, Unhold(b, {k}));
    var released := Unhold(b, {k});
    PutLedger(released, k, FailedTask(TaskAt(b.proofs, k), retryable), ActiveAfterFail(released, k, retryable));
    FailRecords(released, k, retryable);
  }

  lemma FailHeld(b: Books, w: WorkerId, k: Key, retryable: bool, j: Key)
    requires FailReply(b, w, k).Done? && j in HeldKeys(b.workers) && j != k
    requires HasTask(Fail(b, w, k, retryable).proofs, j)
    ensures j in HeldKeys(Fail(b, w, k, retryable).workers)
  {
    hide Weigh, HeldKeys;
    UnholdHeld(b, {k});
    if !TaskAt(b.proofs, k).status.Succeeded? {
      var marked := MarkFailed(Unhold(b, {k}), k, retryable);
      UnholdHeld(marked, HeldOf(marked.workers, k.proof));
    }
  }

  lemma FailTasks(b: Books, w: WorkerId, k: Key, retryable: bool)
    requires FailReply(b, w, k).Done?
    ensures var after := Fail(b, w, k, retryable);
      && b.queue <= after.queue
      && (forall j :: HasTask(after.proofs, j) && j != k ==>
            HasTask(b.proofs, j) && TaskAt(after.proofs, j) == TaskAt(b.proofs, j))
      && (HasTask(after.proofs, k) ==>
            Terminal(TaskAt(after.proofs, k).status) || TaskAt(after.proofs, k).lane.NoLane? || k in after.queue)
  {
    hide Weigh;
    if !TaskAt(b.proofs, k).status.Succeeded? {
      var released := Unhold(b, {k});
      PutTaskAt(b.proofs, k, FailedTask(TaskAt(b.proofs, k), retryable), ActiveAfterFail(released, k, retryable));
    }
  }

  lemma FailNotStranded(b: Books, w: WorkerId, k: Key, retryable: bool)
    requires NoneStranded(b) && FailReply(b, w, k).Done?
    ensures NoneStranded(Fail(b, w, k, retryable))
  {
    hide NoneStranded, Fail, HeldKeys;
    FailTasks(b, w, k, retryable);
    forall j | j in HeldKeys(b.workers) && j != k && HasTask(Fail(b, w, k, retryable).proofs, j)
      ensures j in HeldKeys(Fail(b, w, k, retryable).workers)
    {
      FailHeld(b, w, k, retryable, j);
    }
    SettleStranded(b, Fail(b, w, k, retryable), k);
  }

  lemma FailNotIdle(b: Books, w: WorkerId, k: Key, retryable: bool)
    requires NoIdleProof(b) && FailReply(b, w, k).Done?
    requires !TaskAt(b.proofs, k).status.Succeeded? ==> Records(MarkFailed(Unhold(b, {k}), k, retryable))
    ensures NoIdleProof(Fail(b, w, k, retryable))
  {
    hide Weigh, CreditsOnce, HooksOnce, IdsUnique, RetriesBounded;
  }

  lemma FailKeeps(b: Books, w: WorkerId, k: Key, retryable: bool)
    requires BooksAgree(b)
    ensures BooksAgree(Fail(b, w, k, retryable))
  {
    hide Weigh, Ledger, Records, NoneStranded, NoIdleProof;
    if FailReply(b, w, k).Done? {
      UnholdLedger(b, {k});
      RecordsFrame(b, Unhold(b, {k}));
      FailNotStranded(b, w, k, retryable);
      if !TaskAt(b.proofs, k).status.Succeeded? {
        FailMarks(b, w, k, retryable);
        var marked := MarkFailed(Unhold(b, {k}), k, retryable);
        DropLedger(marked, k.proof);
        DropRecords(marked, k.proof);
        EnqueueLedger(marked, {k});
        RecordsFrame(marked, Enqueue(marked, {k}));
      }
      FailNotIdle(b, w, k, retryable);
    }
  }

  lemma FailProofKeeps(b: Books, p: ProofId, blamed: Option<TaskId>)
    requires BooksAgree(b)
    ensures BooksAgree(FailProof(b, p, blamed))
  {
    hide Weigh, Ledger, Records;
    if ProofFails(b, p, blamed) {
      DropLedger(b, p);
      DropRecords(b, p);
      UnholdHeld(b, HeldOf(b.workers, p));
    }
  }

  // ---- workers -------------------------------------------------------------------------

  lemma SameHolds(vs: map<WorkerId, Worker>, ws: map<WorkerId, Worker>)
    requires Holds(vs) == Holds(ws)
    ensures HeldKeys(vs) == HeldKeys(ws)
  {
    forall k
      ensures k in HeldKeys(vs) <==> k in HeldKeys(ws)
    {
      if k in HeldKeys(vs) {
        var w :| w in vs && k in vs[w].holds;
        assert (w, k) in Holds(ws);
      }
      if k in HeldKeys(ws) {
        var w :| w in ws && k in ws[w].holds;
        assert (w, k) in Holds(vs);
      }
    }
  }

  /** Workers may come, go or change flags while the holds stay as they are. */
  lemma RestaffLedger(b: Books, ws: map<WorkerId, Worker>)
    requires Ledger(b) && Holds(ws) == Holds(b.workers)
    requires forall w :: w in ws ==>
      || (ws[w].holds == {} && ws[w].weight == 0)
      || (w in b.workers && ws[w].holds == b.workers[w].holds
          && ws[w].weight == b.workers[w].weight && ws[w].maxWeight == b.workers[w].maxWeight)
    ensures Ledger(b.(workers := ws))
    ensures HeldKeys(ws) == HeldKeys(b.workers)
  {
    hide Weigh;
    WeighNone(b.proofs);
    SameHolds(b.workers, ws);
    var after := b.(workers := ws);
    assert forall p :: HeldGpu(after, p) == HeldGpu(b, p);
  }

  lemma CountRequeuesAt(ps: map<ProofId, Proof>, ks: set<Key>)
    ensures var qs := CountRequeues(ps, ks);
      && Retouched(ps, qs)
      && (forall k :: HasTask(ps, k) ==>
           TaskAt(qs, k).requeues == TaskAt(ps, k).requeues + if k in ks then 1 else 0)
  {}

  lemma RetouchLedger(b: Books, qs: map<ProofId, Proof>)
    requires Ledger(b) && Retouched(b.proofs, qs)
    ensures Ledger(b.(proofs := qs))
  {
    hide Weigh, WeightsExact, Conserved, QueueSound;
    RetouchedTask(b.proofs, qs);
    ReproofLedger(b, qs);
  }

  /** The state just before a dead worker's tasks are queued again. */
  ghost function Orphaned(b: Books, w: WorkerId): Books
    requires w in b.workers
  {
    var released := Unhold(b, b.workers[w].holds);
    released.(workers := released.workers - {w}, proofs := CountRequeues(released.proofs, b.workers[w].holds))
  }

  lemma OrphansFree(b: Books, w: WorkerId)
    requires Ledger(b) && Records(b) && w in b.workers
    ensures forall k :: k in b.workers[w].holds ==> k !in b.queue && k.task in b.issued && HasTask(b.proofs, k)
  {
    hide Weigh, GpuExact, WeightsExact, Conserved, CreditsOnce, HooksOnce, CountsExact, RetriesBounded;
    forall k | k in b.workers[w].holds
      ensures k !in b.queue
    {
      assert k in HeldKeys(b.workers);
    }
  }

  lemma OrphanedKeeps(b: Books, w: WorkerId)
    requires Ledger(b) && Records(b) && w in b.workers
    ensures Ledger(Orphaned(b, w)) && Records(Orphaned(b, w))
    ensures HeldKeys(Orphaned(b, w).workers) == HeldKeys(b.workers) - b.workers[w].holds
  {
    hide Weigh, Ledger, Records;
    var held := b.workers[w].holds;
    var released := Unhold(b, held);
    UnholdLedger(b, held);
    UnholdHeld(b, held);
    var gone := released.(workers := released.workers - {w});
    assert Holds(gone.workers) == Holds(released.workers);
    RestaffLedger(released, gone.workers);
    RecordsFrame(b, gone);
    CountRequeuesAt(gone.proofs, held);
    RetouchLedger(gone, CountRequeues(gone.proofs, held));
    RetouchRecords(gone, CountRequeues(gone.proofs, held));
  }

  lemma RemoveWorkerNotStranded(b: Books, w: WorkerId)
    requires NoneStranded(b) && w in b.workers
    requires HeldKeys(Orphaned(b, w).workers) == HeldKeys(b.workers) - b.workers[w].holds
    ensures NoneStranded(RemoveWorker(b, w))
  {
    hide Weigh;
    CountRequeuesAt(b.proofs, b.workers[w].holds);
    var after := RemoveWorker(b, w);
    forall k | HasTask(after.proofs, k) && !Terminal(TaskAt(after.proofs, k).status) && !TaskAt(after.proofs, k).lane.NoLane?
      ensures k in after.queue || Held(after.workers, k)
    {
      RetouchedTask(b.proofs, CountRequeues(b.proofs, b.workers[w].holds));
      assert k in b.queue || Held(b.workers, k);
    }
  }

  lemma RemoveWorkerNotIdle(b: Books, w: WorkerId)
    requires NoIdleProof(b) && w in b.workers
    ensures NoIdleProof(RemoveWorker(b, w))
  {
    hide Weigh;
    var after := RemoveWorker(b, w);
    forall p | p in after.proofs && after.proofs[p].tasks != map[]
      ensures after.proofs[p].activeTasks > 0
    {
      var t :| t in after.proofs[p].tasks;
      assert t in b.proofs[p].tasks;
    }
  }

  lemma RemoveWorkerKeeps(b: Books, w: WorkerId)
    requires BooksAgree(b)
    ensures BooksAgree(RemoveWorker(b, w))
  {
    hide Weigh, Ledger, Records, NoneStranded, NoIdleProof;
    if w in b.workers {
      OrphansFree(b, w);
      OrphanedKeeps(b, w);
      EnqueueLedger(Orphaned(b, w), b.workers[w].holds);
      RecordsFrame(Orphaned(b, w), RemoveWorker(b, w));
      RemoveWorkerNotStranded(b, w);
      RemoveWorkerNotIdle(b, w);
    }
  }

  /** Worker death costs the tasks nothing: only their requeue tally moves. */
  lemma WorkerDeathIsFree(b: Books, w: WorkerId, k: Key)
    requires HasTask(b.proofs, k)
    ensures var after := RemoveWorker(b, w);
      && HasTask(after.proofs, k)
      && TaskAt(after.proofs, k).retries == TaskAt(b.proofs, k).retries
      && TaskAt(after.proofs, k).status == TaskAt(b.proofs, k).status
      && after.proofs[k.proof].activeTasks == b.proofs[k.proof].activeTasks
      && (TaskAt(after.proofs, k).requeues == TaskAt(b.proofs, k).requeues + if Holding(b.workers, w, k) then 1 else 0)
  {
    hide Weigh;
    if w in b.workers {
      CountRequeuesAt(b.proofs, b.workers[w].holds);
      RetouchedTask(b.proofs, CountRequeues(b.proofs, b.workers[w].holds));
    }
  }

  lemma HeartbeatIsStable(b: Books, w: WorkerId, reported: set<Key>, now: nat)
    requires Ledger(b) && w in b.workers
    ensures Heartbeat(b, w, reported, now) == b.(workers := b.workers[w := b.workers[w].(lastHeartbeat := now)])
  {
    hide Weigh, GpuExact, Conserved, QueueSound;
    var worker := b.workers[w];
    assert (set k | k in worker.holds && (k in reported || HasTask(b.proofs, k))) == worker.holds;
  }

  /** Changing a worker's clock or closing it moves no hold. */
  lemma TouchWorkerKeeps(b: Books, w: WorkerId, worker: Worker)
    requires BooksAgree(b) && w in b.workers
    requires worker.holds == b.workers[w].holds && worker.weight == b.workers[w].weight
    requires worker.maxWeight == b.workers[w].maxWeight
    ensures BooksAgree(b.(workers := b.workers[w := worker]))
  {
    hide Weigh, Ledger, Records;
    var after := b.(workers := b.workers[w := worker]);
    assert Holds(after.workers) == Holds(b.workers);
    RestaffLedger(b, after.workers);
    RecordsFrame(b, after);
  }

  lemma AddWorkerKeeps(b: Books, w: WorkerId, kind: WorkerKind, maxWeight: nat, now: nat)
    requires BooksAgree(b)
    ensures BooksAgree(AddWorker(b, w, kind, maxWeight, now))
  {
    hide Weigh, Ledger, Records;
    if w !in b.workers {
      var after := AddWorker(b, w, kind, maxWeight, now);
      assert Holds(after.workers) == Holds(b.workers);
      RestaffLedger(b, after.workers);
      RecordsFrame(b, after);
    }
  }

  lemma HeartbeatKeeps(b: Books, w: WorkerId, reported: set<Key>, now: nat)
    requires BooksAgree(b)
    ensures BooksAgree(Heartbeat(b, w, reported, now))
  {
    hide Weigh, Ledger, Records;
    if w in b.workers {
      HeartbeatIsStable(b, w, reported, now);
      TouchWorkerKeeps(b, w, b.workers[w].(lastHeartbeat := now));
    }
  }

  // ---- new work ------------------------------------------------------------------------

  lemma AddProofAt(ps: map<ProofId, Proof>, p: ProofId)
    requires p !in ps
    ensures var qs := ps[p := Proof(map[], 0)];
      forall k :: (HasTask(qs, k) <==> HasTask(ps, k)) && (HasTask(ps, k) ==> TaskAt(qs, k) == TaskAt(ps, k))
  {}

  lemma AddProofKeeps(b: Books, p: ProofId)
    requires BooksAgree(b)
    ensures BooksAgree(AddProof(b, p))
  {
    hide Weigh, GpuExact, WeightsExact, Conserved, QueueSound;
    if p !in b.proofs {
      var after := AddProof(b, p);
      AddProofAt(b.proofs, p);
      AddProofLedger(b, p);
      assert Live(after.proofs[p]) == {};
      assert forall k: Key, w: WorkerId :: Attempted(after.proofs, k, w) <==> Attempted(b.proofs, k, w);
    }
  }

  lemma AddProofLedger(b: Books, p: ProofId)
    requires Ledger(b) && p !in b.proofs
    ensures Ledger(AddProof(b, p))
  {
    hide Weigh, WeightsExact, Conserved, QueueSound;
    AddProofAt(b.proofs, p);
    ReproofLedger(b, AddProof(b, p).proofs);
  }

  lemma AddTaskKeeps(b: Books, k: Key, ty: TaskType, lane: Lane, weight: nat)
    requires BooksAgree(b) && k.task !in b.issued
    ensures BooksAgree(AddTask(b, k, ty, lane, weight))
  {
    hide Weigh, Ledger, Records;
    if k.proof in b.proofs {
      AddTaskRecords(b, k, ty, lane, weight);
      AddTaskLedger(b, k, ty, lane, weight);
      AddTaskOthers(b, k, ty, lane, weight);
    }
  }

  lemma AddTaskOthers(b: Books, k: Key, ty: TaskType, lane: Lane, weight: nat)
    requires NoneStranded(b) && NoIdleProof(b) && Records(b) && k.proof in b.proofs
    ensures NoneStranded(AddTask(b, k, ty, lane, weight)) && NoIdleProof(AddTask(b, k, ty, lane, weight))
  {
    hide CreditsOnce, HooksOnce, IdsUnique, RetriesBounded;
    PutTaskAt(b.proofs, k, NewTask(ty, lane, weight), b.proofs[k.proof].activeTasks + 1);
  }

  lemma AddTaskLedger(b: Books, k: Key, ty: TaskType, lane: Lane, weight: nat)
    requires Ledger(b) && Records(b) && k.proof in b.proofs && k.task !in b.issued
    ensures Ledger(AddTask(b, k, ty, lane, weight))
  {
    hide Weigh, GpuExact, WeightsExact, Conserved, CreditsOnce, HooksOnce, CountsExact, RetriesBounded;
    assert !Held(b.workers, k) && k !in b.queue;
    var qs := PutTask(b.proofs, k, NewTask(ty, lane, weight), b.proofs[k.proof].activeTasks + 1);
    PutLedger(b, k, NewTask(ty, lane, weight), b.proofs[k.proof].activeTasks + 1);
    IssueLedger(b.(proofs := qs), k);
    EnqueueLedger(b.(proofs := qs, issued := b.issued[k.task := k.proof]), {k});
  }

  lemma IssueLedger(b: Books, k: Key)
    requires Ledger(b)
    ensures Ledger(b.(issued := b.issued[k.task := k.proof]))
  {
    hide Weigh;
    var after := b.(issued := b.issued[k.task := k.proof]);
    assert forall p :: HeldGpu(after, p) == HeldGpu(b, p);
  }

  lemma SubscribeAt(b: Books, s: SubId, ks: set<Key>)
    ensures Retouched(b.proofs, Subscribe(b, s, ks).proofs)
    ensures forall k :: HasTask(b.proofs, k) ==>
      TaskAt(Subscribe(b, s, ks).proofs, k).subscribers ==
      TaskAt(b.proofs, k).subscribers + if k in ks && !Terminal(TaskAt(b.proofs, k).status) then {s} else {}
  {}

  lemma SubscribeKeeps(b: Books, s: SubId, ks: set<Key>)
    requires BooksAgree(b)
    ensures BooksAgree(Subscribe(b, s, ks))
  {
    hide Weigh, Ledger, Records, Subscribe;
    SubscribeAt(b, s, ks);
    SubscribeFrame(b, s, ks);
    RetouchLedger(b, Subscribe(b, s, ks).proofs);
    RetouchRecords(b, Subscribe(b, s, ks).proofs);
    RetouchedTask(b.proofs, Subscribe(b, s, ks).proofs);
    forall p | p in b.proofs
      ensures Subscribe(b, s, ks).proofs[p].tasks != map[] ==> b.proofs[p].tasks != map[]
    {
      RetouchLive(b.proofs, Subscribe(b, s, ks).proofs, p);
    }
  }

  lemma SubscribeFrame(b: Books, s: SubId, ks: set<Key>)
    ensures Subscribe(b, s, ks) == b.(proofs := Subscribe(b, s, ks).proofs)
  {}

  // ---- the policy ----------------------------------------------------------------------

  lemma DiscardKeeps(b: Books, k: Key)
    requires BooksAgree(b) && CanDiscard(b, k)
    ensures BooksAgree(Discard(b, k))
  {
    hide Weigh, Records;
    var after := Discard(b, k);
    RecordsFrame(b, after);
    assert forall p :: HeldGpu(after, p) == HeldGpu(b, p);
  }

  lemma AssignHeld(b: Books, w: WorkerId, k: Key)
    requires QueueSound(b) && CanAssign(b, w, k)
    ensures var after := Assign(b, w, k);
      && k !in HeldKeys(b.workers)
      && HeldKeys(after.workers) == HeldKeys(b.workers) + {k}
      && Holds(after.workers) == Holds(b.workers) + {(w, k)}
  {
    var after := Assign(b, w, k);
    forall j | j in HeldKeys(b.workers)
      ensures j in HeldKeys(after.workers) && j != k
    {
      var v :| v in b.workers && j in b.workers[v].holds;
      assert j in after.workers[v].holds;
    }
    assert k in after.workers[w].holds;
    assert Holds(after.workers) == Holds(b.workers) + {(w, k)};
  }

  lemma AssignHolds(b: Books, w: WorkerId, k: Key)
    requires HoldsSound(b) && QueueSound(b) && CanAssign(b, w, k)
    ensures var after := Assign(b, w, k);
      && HoldsSound(after) && QueueSound(after) && k !in HeldKeys(b.workers)
      && HeldKeys(after.workers) == HeldKeys(b.workers) + {k}
      && Holds(after.workers) == Holds(b.workers) + {(w, k)}
      && HoldsKept(b, after.proofs)
  {
    hide Holds, HoldsSound, HoldsKept, Assign;
    AssignHeld(b, w, k);
    AssignQueue(b, w, k);
    AssignPointsBack(b, w, k);
  }

  lemma AssignQueue(b: Books, w: WorkerId, k: Key)
    requires QueueSound(b) && CanAssign(b, w, k) && HeldKeys(Assign(b, w, k).workers) == HeldKeys(b.workers) + {k}
    ensures QueueSound(Assign(b, w, k))
  {
    hide HeldKeys;
  }

  lemma AssignPointsBack(b: Books, w: WorkerId, k: Key)
    requires HoldsSound(b) && CanAssign(b, w, k) && k !in HeldKeys(b.workers)
    ensures HoldsSound(Assign(b, w, k)) && HoldsKept(b, Assign(b, w, k).proofs)
  {
    PutTaskAt(b.proofs, k, TaskAt(Assign(b, w, k).proofs, k), b.proofs[k.proof].activeTasks);
  }

  lemma AssignWeights(b: Books, w: WorkerId, k: Key)
    requires WeightsExact(b) && CanAssign(b, w, k) && HoldsKept(b, Assign(b, w, k).proofs) && k !in HeldKeys(b.workers)
    ensures WeightsExact(Assign(b, w, k))
  {
    hide Weigh;
    var after := Assign(b, w, k);
    ReproofWeights(b, after.proofs);
    assert k !in b.workers[w].holds;
    WeighRemove(after.proofs, b.workers[w].holds + {k}, k);
    assert b.workers[w].holds + {k} - {k} == b.workers[w].holds;
  }

  lemma AssignGpu(b: Books, w: WorkerId, k: Key)
    requires GpuExact(b) && CanAssign(b, w, k) && HoldsKept(b, Assign(b, w, k).proofs) && k !in HeldKeys(b.workers)
    requires HeldKeys(Assign(b, w, k).workers) == HeldKeys(b.workers) + {k}
    ensures GpuExact(Assign(b, w, k))
  {
    hide Weigh;
    var after := Assign(b, w, k);
    var moved := b.(proofs := after.proofs);
    ReproofGpu(b, after.proofs);
    forall p | p in after.proofs
      ensures GpuWeight(after, p) == Weigh(after.proofs, HeldGpu(after, p))
    {
      if p == k.proof && TaskAt(b.proofs, k).lane.Gpu? {
        assert HeldGpu(after, p) == HeldGpu(moved, p) + {k};
        WeighRemove(after.proofs, HeldGpu(after, p), k);
        assert HeldGpu(after, p) - {k} == HeldGpu(moved, p);
      } else {
        assert HeldGpu(after, p) == HeldGpu(moved, p);
      }
    }
  }

  lemma AssignKeeps(b: Books, w: WorkerId, k: Key)
    requires BooksAgree(b) && CanAssign(b, w, k)
    ensures BooksAgree(Assign(b, w, k))
  {
    hide Weigh, WeightsExact, GpuExact, HoldsSound, QueueSound, Records;
    AssignHolds(b, w, k);
    AssignWeights(b, w, k);
    AssignGpu(b, w, k);
    AssignRecords(b, w, k);
    PutTaskAt(b.proofs, k, TaskAt(Assign(b, w, k).proofs, k), b.proofs[k.proof].activeTasks);
    assert (w, k) !in Holds(b.workers);
  }
}
