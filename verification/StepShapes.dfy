/** What a step leaves each worker and proof with, in closed form. */
module StepShapes {
  import opened ClusterTypes
  import opened TaskBooks
  import opened BookInvariants
  import opened BookSteps

  /** A worker left with `kept` of its holds. */
  ghost function Left(ps: map<ProofId, Proof>, worker: Worker, kept: set<Key>): Worker {
    worker.(holds := kept, weight := Weigh(ps, kept))
  }

  lemma UnholdShape(b: Books, r: set<Key>, v: WorkerId)
    requires WeightsExact(b) && v in b.workers
    ensures v in Unhold(b, r).workers
    ensures Unhold(b, r).workers[v] == Left(b.proofs, b.workers[v], b.workers[v].holds - r)
  {
    hide Weigh;
    UnholdWorkerExact(b, v, r);
  }

  /** The holds outside a proof. */
  function Outside(holds: set<Key>, p: ProofId): set<Key> {
    set j | j in holds && j.proof != p
  }

  lemma DropShape(b: Books, p: ProofId, v: WorkerId)
    requires WeightsExact(b) && v in b.workers
    ensures v in DropProof(b, p).workers
    ensures DropProof(b, p).workers[v] == Left(b.proofs, b.workers[v], Outside(b.workers[v].holds, p))
  {
    hide Weigh;
    UnholdShape(b, HeldOf(b.workers, p), v);
    assert b.workers[v].holds - HeldOf(b.workers, p) == Outside(b.workers[v].holds, p);
  }

  /** A worker's holds after a report by `w` on `k`, with or without the whole proof going. */
  function Kept(b: Books, v: WorkerId, w: WorkerId, k: Key, dropped: bool): set<Key>
    requires v in b.workers
  {
    var mine := if v == w then b.workers[v].holds - {k} else b.workers[v].holds;
    if dropped then Outside(mine, k.proof) else mine
  }

  lemma WeighAcross(b: Books, qs: map<ProofId, Proof>, s: set<Key>)
    requires forall j :: j in s ==>
      HasTask(b.proofs, j) && HasTask(qs, j) && TaskAt(qs, j).weight == TaskAt(b.proofs, j).weight
    ensures Weigh(qs, s) == Weigh(b.proofs, s)
  {
    hide Weigh;
    WeighSame(b.proofs, qs, s);
  }

  /** A report's own hold settled: `w` gives up `k`, everyone else keeps theirs. */
  lemma SettleShape(b: Books, w: WorkerId, k: Key, v: WorkerId)
    requires HoldsSound(b) && WeightsExact(b) && v in b.workers
    ensures var settled := if Holding(b.workers, w, k) then Unhold(b, {k}) else b;
      v in settled.workers && settled.workers[v] == Left(b.proofs, b.workers[v], Kept(b, v, w, k, false))
  {
    hide Weigh;
    OneHolder(b);
    if Holding(b.workers, w, k) {
      UnholdShape(b, {k}, v);
      assert v != w ==> !Holding(b.workers, v, k);
    }
    assert (if Holding(b.workers, w, k) then b.workers[v].holds - {k} else b.workers[v].holds) == Kept(b, v, w, k, false);
  }

  lemma CompleteShape(b: Books, w: WorkerId, k: Key, gpuMs: nat, v: WorkerId)
    requires BooksAgree(b) && HasTask(b.proofs, k) && v in b.workers
    ensures var dropped := MarkSucceeded(b, w, k, gpuMs).proofs[k.proof].activeTasks == 0;
      && v in Complete(b, w, k, gpuMs).workers
      && Complete(b, w, k, gpuMs).workers[v] == Left(b.proofs, b.workers[v], Kept(b, v, w, k, dropped))
  {
    hide Weigh, GpuExact, Conserved, QueueSound, Records, NoneStranded, NoIdleProof;
    var marked := MarkSucceeded(b, w, k, gpuMs);
    var dropped := marked.proofs[k.proof].activeTasks == 0;
    CompleteLedger(b, w, k, gpuMs);
    UnholdLedger(marked, {k});
    SettleShape(marked, w, k, v);
    var settled := if Holding(b.workers, w, k) then Unhold(marked, {k}) else marked;
    if dropped { DropShape(settled, k.proof, v); }
    PutTaskAt(b.proofs, k, SucceededTask(TaskAt(b.proofs, k), w), marked.proofs[k.proof].activeTasks);
    WeighAcross(b, marked.proofs, Kept(b, v, w, k, dropped));
  }

  // ---- the policy's GPU weights ----------------------------------------------------------

  /** One release of weight `x` on proof `p`; an entry that reaches zero is removed. */
  function Debit(gw: map<ProofId, nat>, p: ProofId, x: nat): map<ProofId, nat> {
    if p in gw && gw[p] > x then gw[p := gw[p] - x] else gw - {p}
  }

  predicate Positive(gw: map<ProofId, nat>) {
    forall p :: p in gw ==> gw[p] > 0
  }

  lemma UnholdGpuStep(b: Books, r: set<Key>, k: Key)
    requires k in HeldKeys(b.workers) && k !in r && HasTask(b.proofs, k)
    ensures Unhold(b, r + {k}).gpuWeights ==
      if GpuLane(b.proofs, k) then Debit(Unhold(b, r).gpuWeights, k.proof, WeightAt(b.proofs, k))
      else Unhold(b, r).gpuWeights
  {
    hide Weigh;
    forall q
      ensures Weigh(b.proofs, HeldGpuIn(b, r + {k}, q)) == Weigh(b.proofs, HeldGpuIn(b, r, q))
        + if q == k.proof && GpuLane(b.proofs, k) then WeightAt(b.proofs, k) else 0
    {
      if q == k.proof && GpuLane(b.proofs, k) {
        WeighRemove(b.proofs, HeldGpuIn(b, r + {k}, q), k);
        assert HeldGpuIn(b, r + {k}, q) - {k} == HeldGpuIn(b, r, q);
      } else {
        assert HeldGpuIn(b, r + {k}, q) == HeldGpuIn(b, r, q);
      }
    }
  }

  lemma UnholdFrame(b: Books, r: set<Key>)
    ensures Unhold(b, r).proofs == b.proofs && Unhold(b, r).workers.Keys == b.workers.Keys
    ensures Positive(Unhold(b, r).gpuWeights)
  {
    hide Weigh;
  }

  lemma UnholdNothing(b: Books)
    requires Positive(b.gpuWeights)
    ensures Unhold(b, {}).gpuWeights == b.gpuWeights
  {
    hide Weigh;
    WeighNone(b.proofs);
    assert forall q :: HeldGpuIn(b, {}, q) == {};
  }

  lemma UnholdOneGpu(b: Books, k: Key)
    requires Positive(b.gpuWeights) && k in HeldKeys(b.workers) && HasTask(b.proofs, k)
    ensures Unhold(b, {k}).gpuWeights ==
      if GpuLane(b.proofs, k) then Debit(b.gpuWeights, k.proof, WeightAt(b.proofs, k)) else b.gpuWeights
  {
    hide Unhold;
    UnholdNothing(b);
    UnholdGpuStep(b, {}, k);
    assert {} + {k} == {k};
  }

  lemma DropGpu(b: Books, p: ProofId)
    requires Positive(b.gpuWeights)
    ensures DropProof(b, p).gpuWeights == b.gpuWeights - {p}
  {
    hide Weigh;
    WeighNone(b.proofs);
    assert forall q :: q != p ==> HeldGpuIn(b, HeldOf(b.workers, p), q) == {};
  }

  /** The GPU weights after a report by `w` on `k`, with or without the whole proof going. */
  function GpuLeft(b: Books, w: WorkerId, k: Key, dropped: bool): map<ProofId, nat> {
    if dropped then b.gpuWeights - {k.proof}
    else if Holding(b.workers, w, k) && GpuLane(b.proofs, k) then Debit(b.gpuWeights, k.proof, WeightAt(b.proofs, k))
    else b.gpuWeights
  }

  lemma CompleteGpuShape(b: Books, w: WorkerId, k: Key, gpuMs: nat)
    requires BooksAgree(b) && HasTask(b.proofs, k)
    ensures Complete(b, w, k, gpuMs).gpuWeights ==
      GpuLeft(b, w, k, MarkSucceeded(b, w, k, gpuMs).proofs[k.proof].activeTasks == 0)
  {
    hide Weigh, Unhold, WeightsExact, Conserved, QueueSound, Records, NoneStranded, NoIdleProof;
    var marked := MarkSucceeded(b, w, k, gpuMs);
    var settled := if Holding(b.workers, w, k) then Unhold(marked, {k}) else marked;
    PutTaskAt(b.proofs, k, SucceededTask(TaskAt(b.proofs, k), w), marked.proofs[k.proof].activeTasks);
    if Holding(b.workers, w, k) {
      assert k in HeldKeys(b.workers);
      UnholdOneGpu(marked, k);
    }
    DropGpu(settled, k.proof);
  }

  // ---- failures and worker death ---------------------------------------------------------

  /** The proof goes with this failure: it fails the proof, or nothing live is left. */
  predicate FailDrops(b: Books, k: Key, retryable: bool)
    requires HasTask(b.proofs, k)
  {
    && !TaskAt(b.proofs, k).status.Succeeded?
    && (FailureFailsProof(TaskAt(b.proofs, k), retryable) || ActiveAfterFail(b, k, retryable) == 0)
  }

  lemma FailShape(b: Books, w: WorkerId, k: Key, retryable: bool, v: WorkerId)
    requires BooksAgree(b) && FailReply(b, w, k).Done? && v in b.workers
    ensures v in Fail(b, w, k, retryable).workers
    ensures Fail(b, w, k, retryable).workers[v] ==
            Left(b.proofs, b.workers[v], Kept(b, v, w, k, FailDrops(b, k, retryable)))
  {
    hide Weigh, Unhold, DropProof, GpuExact, Conserved, QueueSound, Records, NoneStranded, NoIdleProof;
    var released := Unhold(b, {k});
    UnholdFrame(b, {k});
    SettleShape(b, w, k, v);
    UnholdLedger(b, {k});
    UnholdHeld(b, {k});
    if FailDrops(b, k, retryable) {
      var task := FailedTask(TaskAt(b.proofs, k), retryable);
      var marked := MarkFailed(released, k, retryable);
      PutLedger(released, k, task, ActiveAfterFail(released, k, retryable));
      DropShape(marked, k.proof, v);
      PutTaskAt(b.proofs, k, task, ActiveAfterFail(released, k, retryable));
      WeighAcross(b, marked.proofs, Kept(b, v, w, k, true));
    }
  }

  lemma FailGpuShape(b: Books, w: WorkerId, k: Key, retryable: bool)
    requires BooksAgree(b) && FailReply(b, w, k).Done?
    ensures Fail(b, w, k, retryable).gpuWeights == GpuLeft(b, w, k, FailDrops(b, k, retryable))
  {
    hide Weigh, Unhold, DropProof, WeightsExact, Conserved, QueueSound, Records, NoneStranded, NoIdleProof;
    assert k in HeldKeys(b.workers);
    UnholdOneGpu(b, k);
    UnholdFrame(b, {k});
    DropGpu(MarkFailed(Unhold(b, {k}), k, retryable), k.proof);
  }

  lemma RemoveWorkerShape(b: Books, w: WorkerId)
    requires HoldsSound(b) && WeightsExact(b) && w in b.workers
    ensures RemoveWorker(b, w).workers == b.workers - {w}
  {
    hide Weigh;
    OneHolder(b);
    forall v | v in b.workers && v != w
      ensures RemoveWorker(b, w).workers[v] == b.workers[v]
    {
      UnholdShape(b, b.workers[w].holds, v);
      forall j | j in b.workers[v].holds
        ensures j !in b.workers[w].holds
      {
        assert Holding(b.workers, v, j);
        assert Holding(b.workers, w, j) ==> v == w;
      }
      assert b.workers[v].holds - b.workers[w].holds == b.workers[v].holds;
    }
  }
}
