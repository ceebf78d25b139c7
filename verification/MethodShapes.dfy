/** Facts about whole steps that the coordinator's methods are proved with. */
module MethodShapes {
  import opened ClusterTypes
  import opened TaskBooks
  import opened BookInvariants
  import opened BookSteps
  import opened StepShapes
  import opened TaskChannels
  import opened CoordinatorRuns

  function NonZero(gw: map<ProofId, nat>): map<ProofId, nat> {
    map p | p in gw && gw[p] > 0 :: gw[p]
  }

  /** The holds `release_remaining_assignments` leaves with worker `v`. */
  function Spared(holds: set<Key>, p: ProofId, v: WorkerId, skip: Option<(WorkerId, TaskId)>,
                  todo: set<TaskId>): set<Key> {
    set j | j in holds && (j.proof != p || j.task in todo || skip == Some((v, j.task)))
  }

  ghost predicate ExactWeights(ps: map<ProofId, Proof>, ws: map<WorkerId, Worker>) {
    forall v :: v in ws ==> ws[v].weight == Weigh(ps, ws[v].holds)
  }

  lemma ExactAt(ps: map<ProofId, Proof>, ws: map<WorkerId, Worker>)
    requires ExactWeights(ps, ws)
    ensures forall v :: v in ws ==> ws[v].weight == Weigh(ps, ws[v].holds)
  {
    hide Weigh;
  }

  /** Every worker is left with what a settled report leaves it. */
  ghost predicate KeptBy(ps: map<ProofId, Proof>, b: Books, ws: map<WorkerId, Worker>, w: WorkerId, k: Key,
                         drop: bool) {
    && ws.Keys == b.workers.Keys
    && forall v :: v in ws ==> ws[v] == Left(ps, b.workers[v], Kept(b, v, w, k, drop))
  }

  /** With others' holds on a dropped proof gone, only the reporter's own is left to release. */
  lemma SettledHolds(b: Books, ps: map<ProofId, Proof>, w: WorkerId, k: Key, drop: bool, spared: map<WorkerId, Worker>)
    requires ExactWeights(ps, b.workers)
    requires if drop then SparedSoFar(ps, b.workers, spared, k.proof, Some((w, k.task)), {}) else spared == b.workers
    ensures w in spared && k in spared[w].holds <==> Holding(b.workers, w, k)
    ensures w in spared && k in spared[w].holds ==>
      && spared[w].weight == Weigh(ps, spared[w].holds)
      && KeptBy(ps, b, spared[w := Left(ps, spared[w], spared[w].holds - {k})], w, k, drop)
    ensures !(w in spared && k in spared[w].holds) ==> KeptBy(ps, b, spared, w, k, drop)
  {
    hide Weigh;
    forall v | v in spared
      ensures Left(ps, b.workers[v], Kept(b, v, w, k, drop)) ==
        if v == w && k in spared[w].holds then Left(ps, spared[w], spared[w].holds - {k}) else spared[v]
    {
      if v == w && k in spared[w].holds {
        assert Kept(b, v, w, k, drop) == spared[w].holds - {k};
      } else {
        assert Kept(b, v, w, k, drop) == spared[v].holds;
      }
    }
  }

  lemma CompletedReady(b: Books, w: WorkerId, k: Key, gpuMs: nat)
    requires BooksAgree(b) && HasTask(b.proofs, k)
    ensures var marked := MarkSucceeded(b, w, k, gpuMs);
      && ExactWeights(marked.proofs, b.workers)
      && PointsBack(b.workers, marked.proofs[k.proof], k.proof)
  {
    hide Weigh, GpuExact, Conserved, QueueSound, Records, NoneStranded, NoIdleProof;
    CompleteLedger(b, w, k, gpuMs);
    var marked := MarkSucceeded(b, w, k, gpuMs);
    forall v, j | v in b.workers && j in b.workers[v].holds && j.proof == k.proof
      ensures j.task in marked.proofs[k.proof].tasks && marked.proofs[k.proof].tasks[j.task].worker == Some(v)
    {
      assert v in marked.workers && j in marked.workers[v].holds;
      assert HasTask(marked.proofs, j) && TaskAt(marked.proofs, j).worker == Some(v);
    }
  }

  lemma CompleteMissing(b: Books, w: WorkerId, k: Key, gpuMs: nat)
    requires !HasTask(b.proofs, k)
    ensures Complete(b, w, k, gpuMs) == b
  {
  }

  /** Marking a task leaves its weight and lane, and touches no hold or balance. */
  lemma MarkedTask(b: Books, w: WorkerId, k: Key, gpuMs: nat)
    requires HasTask(b.proofs, k)
    ensures var marked := MarkSucceeded(b, w, k, gpuMs);
      && marked ==
           b.(proofs := marked.proofs, gpuBusyMs := marked.gpuBusyMs, hooks := marked.hooks, credits := marked.credits)
      && HasTask(marked.proofs, k)
      && TaskAt(marked.proofs, k).weight == WeightAt(b.proofs, k)
      && TaskAt(marked.proofs, k).lane == TaskAt(b.proofs, k).lane
  {
  }

  /** What completion does outside the ledger. */
  lemma CompleteFrame(b: Books, w: WorkerId, k: Key, gpuMs: nat)
    ensures !HasTask(b.proofs, k) ==> Complete(b, w, k, gpuMs) == b
    ensures HasTask(b.proofs, k) ==>
      var marked := MarkSucceeded(b, w, k, gpuMs);
      var dropped := marked.proofs[k.proof].activeTasks == 0;
      && Complete(b, w, k, gpuMs).(workers := b.workers, releases := b.releases, gpuWeights := b.gpuWeights)
         == marked.(proofs := if dropped then marked.proofs - {k.proof} else marked.proofs)
      && Complete(b, w, k, gpuMs).workers.Keys == b.workers.Keys
  {
    hide Weigh;
  }

  lemma AgreeConserved(b: Books)
    requires BooksAgree(b)
    ensures Conserved(b) && Positive(b.gpuWeights) && HoldsSound(b) && WeightsExact(b)
  {
    hide Weigh, Records, NoneStranded, NoIdleProof;
  }

  lemma CompletedWeigh(b: Books, w: WorkerId, k: Key, gpuMs: nat, v: WorkerId)
    requires BooksAgree(b) && HasTask(b.proofs, k) && v in b.workers
    ensures var marked := MarkSucceeded(b, w, k, gpuMs);
      var kept := Kept(b, v, w, k, marked.proofs[k.proof].activeTasks == 0);
      Weigh(marked.proofs, kept) == Weigh(b.proofs, kept)
  {
    hide Weigh, GpuExact, WeightsExact, Conserved, QueueSound, Records, NoneStranded, NoIdleProof;
    var marked := MarkSucceeded(b, w, k, gpuMs);
    PutTaskAt(b.proofs, k, SucceededTask(TaskAt(b.proofs, k), w), marked.proofs[k.proof].activeTasks);
    WeighAcross(b, marked.proofs, Kept(b, v, w, k, marked.proofs[k.proof].activeTasks == 0));
  }

  /** Books with the right proofs, holds and balances are the completed ones. */
  lemma CompleteIs(b: Books, w: WorkerId, k: Key, gpuMs: nat, after: Books)
    requires BooksAgree(b) && HasTask(b.proofs, k)
    requires var marked := MarkSucceeded(b, w, k, gpuMs);
      var dropped := marked.proofs[k.proof].activeTasks == 0;
      && after.proofs == (if dropped then marked.proofs - {k.proof} else marked.proofs)
      && KeptBy(marked.proofs, b, after.workers, w, k, dropped)
      && after.releases + |Holds(after.workers)| == b.releases + |Holds(b.workers)|
      && after.gpuWeights == GpuLeft(b, w, k, dropped)
      && after.(proofs := b.proofs, workers := b.workers, releases := b.releases, gpuWeights := b.gpuWeights)
         == marked.(proofs := b.proofs)
    ensures after == Complete(b, w, k, gpuMs)
  {
    hide Weigh, BooksAgree, Complete, Kept, GpuLeft;
    var spec := Complete(b, w, k, gpuMs);
    var marked := MarkSucceeded(b, w, k, gpuMs);
    CompleteKeeps(b, w, k, gpuMs);
    AgreeConserved(b);
    AgreeConserved(spec);
    CompleteFrame(b, w, k, gpuMs);
    CompleteGpuShape(b, w, k, gpuMs);
    forall v | v in b.workers
      ensures after.workers[v] == spec.workers[v]
    {
      CompleteShape(b, w, k, gpuMs, v);
      CompletedWeigh(b, w, k, gpuMs, v);
    }
    assert after.workers == spec.workers;
  }

  /** Holds on proof `p` are on its tasks, which name their holder. */
  ghost predicate PointsBack(ws: map<WorkerId, Worker>, proof: Proof, p: ProofId) {
    forall v, j :: v in ws && j in ws[v].holds && j.proof == p ==>
      j.task in proof.tasks && proof.tasks[j.task].worker == Some(v)
  }

  ghost predicate SparedSoFar(ps: map<ProofId, Proof>, first: map<WorkerId, Worker>, ws: map<WorkerId, Worker>,
                              p: ProofId, skip: Option<(WorkerId, TaskId)>, todo: set<TaskId>) {
    && ws.Keys == first.Keys
    && forall v :: v in ws ==> ws[v] == Left(ps, first[v], Spared(first[v].holds, p, v, skip, todo))
  }

  ghost function AfterRelease(ps: map<ProofId, Proof>, ws: map<WorkerId, Worker>, proof: Proof, p: ProofId,
                              t: TaskId, skip: Option<(WorkerId, TaskId)>): map<WorkerId, Worker>
    requires t in proof.tasks
  {
    var owner := proof.tasks[t].worker;
    if owner.Some? && skip != Some((owner.value, t)) && Holding(ws, owner.value, Key(p, t))
    then ws[owner.value := Left(ps, ws[owner.value], ws[owner.value].holds - {Key(p, t)})]
    else ws
  }

  lemma SpareStep(ps: map<ProofId, Proof>, first: map<WorkerId, Worker>, ws: map<WorkerId, Worker>, proof: Proof,
                  p: ProofId, skip: Option<(WorkerId, TaskId)>, todo: set<TaskId>, t: TaskId)
    requires t in todo && t in proof.tasks && PointsBack(first, proof, p)
    requires SparedSoFar(ps, first, ws, p, skip, todo)
    ensures SparedSoFar(ps, first, AfterRelease(ps, ws, proof, p, t, skip), p, skip, todo - {t})
  {
    hide Weigh;
    var after := AfterRelease(ps, ws, proof, p, t, skip);
    forall v | v in after
      ensures after[v] == Left(ps, first[v], Spared(first[v].holds, p, v, skip, todo - {t}))
    {
      if proof.tasks[t].worker == Some(v) && skip != Some((v, t)) {
        assert Spared(first[v].holds, p, v, skip, todo - {t}) == ws[v].holds - {Key(p, t)};
        assert Key(p, t) !in ws[v].holds ==> ws[v].holds - {Key(p, t)} == ws[v].holds;
      } else {
        assert Spared(first[v].holds, p, v, skip, todo - {t}) == ws[v].holds;
      }
    }
  }

  // ---- failures --------------------------------------------------------------------------

  lemma FailReady(b: Books, w: WorkerId, k: Key, retryable: bool)
    requires BooksAgree(b) && FailReply(b, w, k).Done?
    ensures var marked := MarkFailed(b, k, retryable);
      && ExactWeights(marked.proofs, b.workers)
      && PointsBack(b.workers, marked.proofs[k.proof], k.proof)
  {
    hide Weigh, GpuExact, Conserved, QueueSound, Records, NoneStranded, NoIdleProof;
    var marked := MarkFailed(b, k, retryable);
    PutTaskAt(b.proofs, k, FailedTask(TaskAt(b.proofs, k), retryable), ActiveAfterFail(b, k, retryable));
    forall v | v in b.workers
      ensures b.workers[v].weight == Weigh(marked.proofs, b.workers[v].holds)
    {
      WeighAcross(b, marked.proofs, b.workers[v].holds);
    }
    forall v, j | v in b.workers && j in b.workers[v].holds && j.proof == k.proof
      ensures j.task in marked.proofs[k.proof].tasks && marked.proofs[k.proof].tasks[j.task].worker == Some(v)
    {
      assert HasTask(marked.proofs, j) && TaskAt(marked.proofs, j).worker == Some(v);
    }
  }

  /** A retried task keeps its proof alive. */
  lemma RetryKeepsProof(b: Books, w: WorkerId, k: Key, retryable: bool)
    requires BooksAgree(b) && FailReply(b, w, k).Done? && !TaskAt(b.proofs, k).status.Succeeded?
    requires FailedStatus(TaskAt(b.proofs, k), retryable).FailedRetryable?
    ensures !FailDrops(b, k, retryable)
  {
    hide Weigh, GpuExact, WeightsExact, Conserved, QueueSound, HooksOnce, CreditsOnce, IdsUnique, NoneStranded,
         NoIdleProof;
    assert k.task in Live(b.proofs[k.proof]);
  }

  function Waiting(ps: map<ProofId, Proof>, k: Key): multiset<Key> {
    if HasTask(ps, k) && !TaskAt(ps, k).lane.NoLane? then multiset{k} else multiset{}
  }

  /** What a failure does outside the ledger. */
  lemma FailFrame(b: Books, w: WorkerId, k: Key, retryable: bool)
    requires BooksAgree(b) && FailReply(b, w, k).Done?
    ensures var task := TaskAt(b.proofs, k);
      var marked := if task.status.Succeeded? then b else MarkFailed(b, k, retryable);
      var retried := !task.status.Succeeded? && FailedStatus(task, retryable).FailedRetryable?;
      Fail(b, w, k, retryable).(workers := b.workers, releases := b.releases, gpuWeights := b.gpuWeights)
      == b.(proofs := if FailDrops(b, k, retryable) then marked.proofs - {k.proof} else marked.proofs,
            queue := if retried then b.queue + Waiting(b.proofs, k) else b.queue)
  {
    hide Weigh, BooksAgree;
    if !TaskAt(b.proofs, k).status.Succeeded? {
      if FailedStatus(TaskAt(b.proofs, k), retryable).FailedRetryable? {
        RetryKeepsProof(b, w, k, retryable);
      }
      EnqueueOne(MarkFailed(Unhold(b, {k}), k, retryable), k);
    }
  }

  lemma EnqueueOne(b: Books, k: Key)
    ensures Enqueue(b, {k}) == b.(queue := b.queue + Waiting(b.proofs, k))
  {
    assert (set j | j in {k} && HasTask(b.proofs, j) && !TaskAt(b.proofs, j).lane.NoLane?)
        == if HasTask(b.proofs, k) && !TaskAt(b.proofs, k).lane.NoLane? then {k} else {};
  }

  lemma FailedKept(b: Books, w: WorkerId, k: Key, retryable: bool)
    requires BooksAgree(b) && FailReply(b, w, k).Done?
    ensures KeptBy(b.proofs, b, Fail(b, w, k, retryable).workers, w, k, FailDrops(b, k, retryable))
  {
    hide Weigh, BooksAgree, Fail, Kept;
    FailWorkers(b, w, k, retryable);
    forall v | v in b.workers
      ensures Fail(b, w, k, retryable).workers[v] ==
        Left(b.proofs, b.workers[v], Kept(b, v, w, k, FailDrops(b, k, retryable)))
    {
      FailShape(b, w, k, retryable, v);
    }
  }

  lemma FailWorkers(b: Books, w: WorkerId, k: Key, retryable: bool)
    ensures Fail(b, w, k, retryable).workers.Keys == b.workers.Keys
  {
    hide Unhold, DropProof;
    UnholdFrame(b, {k});
    if HasTask(b.proofs, k) {
      DropFrame(MarkFailed(Unhold(b, {k}), k, retryable), k.proof);
    }
  }

  /** Marking a failure reweighs nothing. */
  lemma KeptAcross(b: Books, ps: map<ProofId, Proof>, ws: map<WorkerId, Worker>, w: WorkerId, k: Key, dropped: bool)
    requires KeptBy(ps, b, ws, w, k, dropped) && HoldsSound(b)
    requires forall j :: HasTask(b.proofs, j) ==> HasTask(ps, j) && TaskAt(ps, j).weight == TaskAt(b.proofs, j).weight
    ensures KeptBy(b.proofs, b, ws, w, k, dropped)
  {
    hide Weigh;
    forall v | v in ws
      ensures ws[v] == Left(b.proofs, b.workers[v], Kept(b, v, w, k, dropped))
    {
      WeighAcross(b, ps, Kept(b, v, w, k, dropped));
    }
  }

  lemma KeptByUnique(ps: map<ProofId, Proof>, b: Books, us: map<WorkerId, Worker>, vs: map<WorkerId, Worker>,
                     w: WorkerId, k: Key, dropped: bool)
    requires KeptBy(ps, b, us, w, k, dropped) && KeptBy(ps, b, vs, w, k, dropped)
    ensures us == vs
  {
    hide Weigh, Kept;
  }

  /** Books with the right proofs, holds and balances are the ones a failure leaves. */
  lemma FailIs(b: Books, w: WorkerId, k: Key, retryable: bool, ps: map<ProofId, Proof>, after: Books)
    requires BooksAgree(b) && FailReply(b, w, k).Done?
    requires ps == if TaskAt(b.proofs, k).status.Succeeded? then b.proofs else MarkFailed(b, k, retryable).proofs
    requires KeptBy(ps, b, after.workers, w, k, FailDrops(b, k, retryable))
    requires after.releases + |Holds(after.workers)| == b.releases + |Holds(b.workers)|
    requires after.gpuWeights == GpuLeft(b, w, k, FailDrops(b, k, retryable))
    requires var task := TaskAt(b.proofs, k);
      var retried := !task.status.Succeeded? && FailedStatus(task, retryable).FailedRetryable?;
      after.(workers := b.workers, releases := b.releases, gpuWeights := b.gpuWeights)
      == b.(proofs := if FailDrops(b, k, retryable) then ps - {k.proof} else ps,
            queue := if retried then b.queue + Waiting(b.proofs, k) else b.queue)
    ensures after == Fail(b, w, k, retryable)
  {
    hide Weigh, BooksAgree, Fail, KeptBy, GpuLeft, FailDrops, Holds;
    var dropped := FailDrops(b, k, retryable);
    var spec := Fail(b, w, k, retryable);
    FailKeeps(b, w, k, retryable);
    AgreeConserved(b);
    AgreeConserved(spec);
    FailFrame(b, w, k, retryable);
    FailGpuShape(b, w, k, retryable);
    FailedKept(b, w, k, retryable);
    PutTaskAt(b.proofs, k, FailedTask(TaskAt(b.proofs, k), retryable), ActiveAfterFail(b, k, retryable));
    KeptAcross(b, ps, after.workers, w, k, dropped);
    KeptByUnique(b.proofs, b, after.workers, spec.workers, w, k, dropped);
  }

  // ---- proof failure ---------------------------------------------------------------------

  /** Everything a proof's removal with no reporter leaves is what `DropProof` leaves. */
  lemma FailProofIs(b: Books, p: ProofId, after: Books)
    requires BooksAgree(b) && p in b.proofs
    requires SparedSoFar(b.proofs, b.workers, after.workers, p, None, {})
    requires after.releases + |Holds(after.workers)| == b.releases + |Holds(b.workers)|
    requires after.gpuWeights == b.gpuWeights - {p}
    requires after.(workers := b.workers, releases := b.releases, gpuWeights := b.gpuWeights) == b.(proofs := b.proofs - {p})
    ensures after == DropProof(b, p)
  {
    hide Weigh, BooksAgree, DropProof, Holds, WeightsExact, HoldsSound;
    var spec := DropProof(b, p);
    AgreeConserved(b);
    FailProofKeeps(b, p, None);
    assert FailProof(b, p, None) == spec;
    AgreeConserved(spec);
    DropGpu(b, p);
    DropFrame(b, p);
    forall v | v in b.workers
      ensures after.workers[v] == spec.workers[v]
    {
      DropShape(b, p, v);
      assert Spared(b.workers[v].holds, p, v, None, {}) == Outside(b.workers[v].holds, p);
    }
    assert after.workers == spec.workers;
  }

  lemma DropFrame(b: Books, p: ProofId)
    ensures DropProof(b, p).workers.Keys == b.workers.Keys
    ensures DropProof(b, p).(workers := b.workers, releases := b.releases, gpuWeights := b.gpuWeights)
         == b.(proofs := b.proofs - {p})
  {
    hide Weigh;
  }

  lemma AgreeReady(b: Books, p: ProofId)
    requires BooksAgree(b)
    ensures ExactWeights(b.proofs, b.workers)
    ensures p in b.proofs ==> PointsBack(b.workers, b.proofs[p], p)
    ensures p !in b.proofs ==> p !in b.gpuWeights
  {
    hide Weigh, Records, NoneStranded, NoIdleProof, Conserved, QueueSound;
    forall v, j | p in b.proofs && v in b.workers && j in b.workers[v].holds && j.proof == p
      ensures j.task in b.proofs[p].tasks && b.proofs[p].tasks[j.task].worker == Some(v)
    {
      assert HasTask(b.proofs, j) && TaskAt(b.proofs, j).worker == Some(v);
    }
  }

  // ---- notices and channels, one task at a time --------------------------------------------

  function NoticesOf(proof: Proof, p: ProofId, ts: set<TaskId>): set<(SubId, Key)> {
    set t, x | t in ts && t in proof.tasks && x in proof.tasks[t].subscribers :: (x, Key(p, t))
  }

  lemma NotifyMore(desk: Desk, proof: Proof, p: ProofId, ts: set<TaskId>, t: TaskId)
    requires t in proof.tasks
    ensures Notify(Notify(desk, NoticesOf(proof, p, ts), FailedFatal),
                   Notices(proof.tasks[t].subscribers, Key(p, t)), FailedFatal)
         == Notify(desk, NoticesOf(proof, p, ts + {t}), FailedFatal)
  {
    NotifyTwice(desk, NoticesOf(proof, p, ts), Notices(proof.tasks[t].subscribers, Key(p, t)), FailedFatal);
    assert NoticesOf(proof, p, ts + {t})
        == NoticesOf(proof, p, ts) + Notices(proof.tasks[t].subscribers, Key(p, t));
  }

  lemma NotifyTwice(desk: Desk, first: set<(SubId, Key)>, more: set<(SubId, Key)>, status: TaskStatus)
    ensures Notify(Notify(desk, first, status), more, status) == Notify(desk, first + more, status)
  {
    var once, twice := Notify(desk, first + more, status), Notify(Notify(desk, first, status), more, status);
    assert twice.missed == once.missed;
    forall m
      ensures m in twice.sent <==> m in once.sent
    {
      if m in twice.sent && m !in desk.sent {
        var n :| n in first + more && n.0 in desk.subs && m == (n.0, TaskResult(n.1.task, status));
        assert n in first + more && n.0 in desk.subs;
      }
      if m in once.sent && m !in desk.sent {
        var n :| n in first + more && n.0 in desk.subs && m == (n.0, TaskResult(n.1.task, status));
        if n in first {
          assert m in Notify(desk, first, status).sent;
        }
      }
    }
  }

  lemma CloseMoreReceiver(st: Streams, ts: set<TaskId>, t: TaskId, now: nat, r: RxId)
    requires StreamsSound(st) && r in st.rxs
    ensures Close(CloseAll(st, ts, now), t, now).rxs[r] == CloseAll(st, ts + {t}, now).rxs[r]
  {
    hide ReceiverSound;
    forall u | u in st.chans && r in st.chans[u].listeners
      ensures u == st.rxs[r].task
    {
      assert ListenerSound(st, u, r);
    }
  }

  lemma CloseMoreChannels(st: Streams, ts: set<TaskId>, t: TaskId, now: nat)
    ensures Close(CloseAll(st, ts, now), t, now).chans == CloseAll(st, ts + {t}, now).chans
  {}

  /** Closing one more channel extends the set closed, each receiver still ending once. */
  lemma CloseMore(st: Streams, ts: set<TaskId>, t: TaskId, now: nat)
    requires StreamsSound(st)
    ensures Close(CloseAll(st, ts, now), t, now) == CloseAll(st, ts + {t}, now)
  {
    hide StreamsSound;
    var one, all := Close(CloseAll(st, ts, now), t, now), CloseAll(st, ts + {t}, now);
    CloseMoreChannels(st, ts, t, now);
    forall r | r in st.rxs
      ensures one.rxs[r] == all.rxs[r]
    {
      CloseMoreReceiver(st, ts, t, now, r);
    }
    assert one.rxs == all.rxs;
  }

  lemma CloseNone(st: Streams, now: nat)
    ensures CloseAll(st, {}, now) == st
  {
    assert CloseAll(st, {}, now).chans == st.chans;
    assert CloseAll(st, {}, now).rxs == st.rxs;
  }
}
