/** What every step keeps: the agreement between the coordinator's books. */
module BookInvariants {
  import opened ClusterTypes
  import opened TaskBooks

  // ---- sums ----------------------------------------------------------------------------

  lemma {:induction false} WeighRemove(ps: map<ProofId, Proof>, s: set<Key>, k: Key)
    requires k in s
    ensures Weigh(ps, s) == WeightAt(ps, k) + Weigh(ps, s - {k})
    decreases s
  {
    var j :| j in s && Weigh(ps, s) == WeightAt(ps, j) + Weigh(ps, s - {j});
    if j != k {
      WeighRemove(ps, s - {j}, k);
      WeighRemove(ps, s - {k}, j);
      assert s - {j} - {k} == s - {k} - {j};
    }
  }

  lemma WeighNone(ps: map<ProofId, Proof>)
    ensures Weigh(ps, {}) == 0
  {}

  lemma {:induction false} WeighSame(ps: map<ProofId, Proof>, qs: map<ProofId, Proof>, s: set<Key>)
    requires forall k :: k in s ==> WeightAt(ps, k) == WeightAt(qs, k)
    ensures Weigh(ps, s) == Weigh(qs, s)
    decreases s
  {
    if s != {} {
      var k :| k in s;
      WeighRemove(ps, s, k);
      WeighRemove(qs, s, k);
      WeighSame(ps, qs, s - {k});
    }
  }

  lemma {:induction false} WeighSplit(ps: map<ProofId, Proof>, s: set<Key>, r: set<Key>)
    ensures Weigh(ps, s) == Weigh(ps, s * r) + Weigh(ps, s - r)
    decreases s
  {
    if s != {} {
      var k :| k in s;
      WeighRemove(ps, s, k);
      WeighSplit(ps, s - {k}, r);
      if k in r {
        WeighRemove(ps, s * r, k);
        assert (s - {k}) * r == s * r - {k};
        assert s - {k} - r == s - r;
      } else {
        WeighRemove(ps, s - r, k);
        assert (s - {k}) * r == s * r;
        assert s - {k} - r == s - r - {k};
      }
    }
  }

  // ---- invariants ----------------------------------------------------------------------

  /** A hold names an existing task that points back at its holder, so a task has one holder. */
  ghost predicate HoldsSound(b: Books) {
    forall w, k :: w in b.workers && k in b.workers[w].holds ==>
      && HasTask(b.proofs, k)
      && TaskAt(b.proofs, k).worker == Some(w)
      && (TaskAt(b.proofs, k).status.Running? || TaskAt(b.proofs, k).status.Succeeded?)
      && !TaskAt(b.proofs, k).lane.NoLane?
  }

  /** A task is queued at most once and never while held. */
  ghost predicate QueueSound(b: Books) {
    forall k :: k in b.queue ==> b.queue[k] == 1 && k.task in b.issued && !Held(b.workers, k)
  }

  ghost predicate WeightsExact(b: Books) {
    forall w :: w in b.workers ==>
      b.workers[w].weight == Weigh(b.proofs, b.workers[w].holds) && b.workers[w].weight <= b.workers[w].maxWeight
  }

  ghost predicate GpuExact(b: Books) {
    && (forall p :: p in b.gpuWeights ==> p in b.proofs && b.gpuWeights[p] > 0)
    && (forall p :: p in b.proofs ==> GpuWeight(b, p) == Weigh(b.proofs, HeldGpu(b, p)))
  }

  ghost predicate Conserved(b: Books) {
    |b.grants| == b.releases + |Holds(b.workers)|
  }

  /** Every task is filed under the proof it was created for. */
  ghost predicate IdsUnique(b: Books) {
    forall k :: HasTask(b.proofs, k) ==> k.task in b.issued && b.issued[k.task] == k.proof
  }

  ghost predicate CountsExact(b: Books) {
    forall p :: p in b.proofs ==> b.proofs[p].activeTasks == |Live(b.proofs[p])|
  }

  /** A proof with tasks has one that is not final. */
  ghost predicate NoIdleProof(b: Books) {
    forall p :: p in b.proofs && b.proofs[p].tasks != map[] ==> b.proofs[p].activeTasks > 0
  }

  ghost predicate HooksOnce(b: Books) {
    && (forall t :: t in b.hooks ==> b.hooks[t] == 1 && t in b.issued)
    && (forall k :: HasTask(b.proofs, k) ==> (k.task in b.hooks <==> TaskAt(b.proofs, k).status.Succeeded?))
  }

  predicate Attempted(ps: map<ProofId, Proof>, k: Key, w: WorkerId) {
    HasTask(ps, k) && w in TaskAt(ps, k).attempts
  }

  function AttemptAt(ps: map<ProofId, Proof>, k: Key, w: WorkerId): Attempt
    requires Attempted(ps, k, w)
  {
    TaskAt(ps, k).attempts[w]
  }

  ghost predicate CreditsOnce(b: Books) {
    && (forall n :: n in b.credits ==> b.credits[n] == 1 && n < |b.grants|)
    && (forall k: Key, w: WorkerId :: Attempted(b.proofs, k, w) ==>
          && AttemptAt(b.proofs, k, w).serial < |b.grants|
          && b.grants[AttemptAt(b.proofs, k, w).serial] == (k, w)
          && (AttemptAt(b.proofs, k, w).serial in b.credits ==> AttemptAt(b.proofs, k, w).credited))
  }

  /** No live task is stranded: it is waiting in the queue or some worker holds it. */
  ghost predicate NoneStranded(b: Books) {
    forall k :: HasTask(b.proofs, k) && !Terminal(TaskAt(b.proofs, k).status) && !TaskAt(b.proofs, k).lane.NoLane? ==>
      k in b.queue || Held(b.workers, k)
  }

  ghost predicate RetriesBounded(b: Books) {
    forall k :: HasTask(b.proofs, k) ==> TaskAt(b.proofs, k).retries <= MAX_TASK_RETRIES
  }

  ghost predicate Ledger(b: Books) {
    HoldsSound(b) && QueueSound(b) && WeightsExact(b) && GpuExact(b) && Conserved(b)
  }

  ghost predicate Records(b: Books) {
    IdsUnique(b) && CountsExact(b) && HooksOnce(b) && CreditsOnce(b) && RetriesBounded(b)
  }

  ghost predicate BooksAgree(b: Books) {
    Ledger(b) && Records(b) && NoIdleProof(b) && NoneStranded(b)
  }

  lemma OneHolder(b: Books)
    requires HoldsSound(b)
    ensures forall v: WorkerId, w: WorkerId, k: Key :: Holding(b.workers, v, k) && Holding(b.workers, w, k) ==> v == w
  {
    forall v: WorkerId, w: WorkerId, k: Key | Holding(b.workers, v, k) && Holding(b.workers, w, k)
      ensures v == w
    {
      assert TaskAt(b.proofs, k).worker == Some(v);
      assert TaskAt(b.proofs, k).worker == Some(w);
    }
  }

  // ---- giving up holds -----------------------------------------------------------------

  lemma UnholdWorkerExact(b: Books, w: WorkerId, r: set<Key>)
    requires WeightsExact(b) && w in b.workers
    ensures UnholdWorker(b.proofs, b.workers[w], r).weight == Weigh(b.proofs, b.workers[w].holds - r)
  {
    WeighSplit(b.proofs, b.workers[w].holds, r);
  }

  lemma UnholdWeights(b: Books, r: set<Key>)
    requires WeightsExact(b)
    ensures WeightsExact(Unhold(b, r))
  {
    forall w | w in b.workers
      ensures Unhold(b, r).workers[w].weight == Weigh(b.proofs, b.workers[w].holds - r) <= b.workers[w].maxWeight
    {
      WeighSplit(b.proofs, b.workers[w].holds, r);
    }
  }

  lemma UnholdHeld(b: Books, r: set<Key>)
    ensures HeldKeys(Unhold(b, r).workers) == HeldKeys(b.workers) - r
  {
    var after := Unhold(b, r);
    forall k | k in HeldKeys(b.workers) - r
      ensures k in HeldKeys(after.workers)
    {
      var w :| w in b.workers && k in b.workers[w].holds;
      assert k in after.workers[w].holds;
    }
  }

  lemma UnholdGpu(b: Books, r: set<Key>)
    requires GpuExact(b)
    ensures GpuExact(Unhold(b, r))
  {
    var after := Unhold(b, r);
    UnholdHeld(b, r);
    forall p | p in b.proofs
      ensures GpuWeight(after, p) == Weigh(b.proofs, HeldGpu(after, p))
    {
      WeighSplit(b.proofs, HeldGpu(b, p), r);
      assert HeldGpu(b, p) * r == HeldGpuIn(b, r, p);
      assert HeldGpu(b, p) - r == HeldGpu(after, p);
    }
  }

  lemma UnholdConserved(b: Books, r: set<Key>)
    requires Conserved(b)
    ensures Conserved(Unhold(b, r))
  {
    var gone := set h | h in Holds(b.workers) && h.1 in r;
    assert Holds(Unhold(b, r).workers) == Holds(b.workers) - gone;
  }

  lemma UnholdLedger(b: Books, r: set<Key>)
    requires Ledger(b)
    ensures Ledger(Unhold(b, r))
  {
    hide Weigh;
    UnholdWeights(b, r);
    UnholdGpu(b, r);
    UnholdConserved(b, r);
  }

  // ---- changing proofs under the holds -------------------------------------------------

  /** Every held task keeps what the ledger depends on. */
  ghost predicate HoldsKept(b: Books, qs: map<ProofId, Proof>) {
    forall w, k :: w in b.workers && k in b.workers[w].holds ==>
      && HasTask(b.proofs, k) && HasTask(qs, k)
      && TaskAt(qs, k).weight == TaskAt(b.proofs, k).weight
      && TaskAt(qs, k).lane == TaskAt(b.proofs, k).lane
      && TaskAt(qs, k).worker == TaskAt(b.proofs, k).worker
      && (TaskAt(qs, k).status.Running? || TaskAt(qs, k).status.Succeeded?)
  }

  lemma ReproofWeights(b: Books, qs: map<ProofId, Proof>)
    requires WeightsExact(b) && HoldsKept(b, qs)
    ensures WeightsExact(b.(proofs := qs))
  {
    forall w | w in b.workers
      ensures b.workers[w].weight == Weigh(qs, b.workers[w].holds)
    {
      WeighSame(b.proofs, qs, b.workers[w].holds);
    }
  }

  lemma ReproofGpu(b: Books, qs: map<ProofId, Proof>)
    requires GpuExact(b) && HoldsKept(b, qs)
    requires forall p :: p in b.gpuWeights ==> p in qs
    ensures GpuExact(b.(proofs := qs))
  {
    var after := b.(proofs := qs);
    forall p | p in qs
      ensures GpuWeight(after, p) == Weigh(qs, HeldGpu(after, p))
    {
      assert HeldGpu(after, p) == HeldGpu(b, p);
      if p in b.proofs {
        WeighSame(b.proofs, qs, HeldGpu(b, p));
      } else {
        assert HeldGpu(b, p) == {};
      }
    }
  }

  lemma ReproofLedger(b: Books, qs: map<ProofId, Proof>)
    requires Ledger(b) && HoldsKept(b, qs)
    requires forall p :: p in b.gpuWeights ==> p in qs
    ensures Ledger(b.(proofs := qs))
  {
    hide Weigh;
    ReproofWeights(b, qs);
    ReproofGpu(b, qs);
  }

  lemma UnholdProofs(b: Books, r: set<Key>)
    ensures Unhold(b, r).proofs == b.proofs
  {}

  /** With its holds given up, a proof can go without the ledger noticing. */
  lemma DropReleased(b: Books, p: ProofId)
    requires Ledger(b) && p in b.proofs && HeldOf(b.workers, p) == {}
    ensures p !in b.gpuWeights
    ensures Ledger(b.(proofs := b.proofs - {p}))
  {
    hide Weigh, WeightsExact, Conserved, QueueSound;
    assert HeldGpu(b, p) == {};
    WeighNone(b.proofs);
    forall w, k | w in b.workers && k in b.workers[w].holds
      ensures HasTask(b.proofs, k) && HasTask(b.proofs - {p}, k) && TaskAt(b.proofs - {p}, k) == TaskAt(b.proofs, k)
    {
      assert k in HeldKeys(b.workers) && HasTask(b.proofs, k);
      assert k.proof == p ==> k in HeldOf(b.workers, p);
    }
    assert HoldsKept(b, b.proofs - {p});
    ReproofLedger(b, b.proofs - {p});
  }

  lemma DropLedger(b: Books, p: ProofId)
    requires Ledger(b) && p in b.proofs
    ensures Ledger(DropProof(b, p))
    ensures HeldOf(DropProof(b, p).workers, p) == {}
  {
    hide Unhold, Ledger;
    var released := Unhold(b, HeldOf(b.workers, p));
    UnholdProofs(b, HeldOf(b.workers, p));
    UnholdLedger(b, HeldOf(b.workers, p));
    UnholdHeld(b, HeldOf(b.workers, p));
    DropReleased(released, p);
    assert released.gpuWeights - {p} == released.gpuWeights;
  }

  lemma EnqueueLedger(b: Books, ks: set<Key>)
    requires Ledger(b)
    requires forall k :: k in ks ==> k !in b.queue && k.task in b.issued && !Held(b.workers, k)
    ensures Ledger(Enqueue(b, ks))
  {
    hide Weigh;
    var after := Enqueue(b, ks);
    assert forall p :: HeldGpu(after, p) == HeldGpu(b, p);
  }
}
