/**
  The balanced policy's queues: one for CPU tasks and one per proof for GPU tasks. Each is a
  priority heap in the source and an ordered sequence here; what this module proves holds for
  every order.
*/
module PolicyQueues {
  import opened ClusterTypes
  import opened TaskBooks
  import opened CoordinatorRuns
  import opened QueueOrder

  function GpuCount(gpu: map<ProofId, seq<Key>>, k: Key): nat {
    if k.proof in gpu then multiset(gpu[k.proof])[k] else 0
  }

  /** The queues hold exactly the waiting tasks, and no GPU queue is kept empty. */
  ghost predicate QueuesOk(cpu: seq<Key>, gpu: map<ProofId, seq<Key>>, queued: multiset<Key>) {
    && (forall p :: p in gpu ==> gpu[p] != [])
    && (forall p, k :: p in gpu && k in gpu[p] ==> k.proof == p)
    && (forall k :: queued[k] == multiset(cpu)[k] + GpuCount(gpu, k))
  }

  /** A waiting task that still exists is in the queue of its own lane. */
  ghost predicate LanesOk(ps: map<ProofId, Proof>, cpu: seq<Key>, gpu: map<ProofId, seq<Key>>) {
    && (forall k :: k in cpu && HasTask(ps, k) ==> TaskAt(ps, k).lane.Cpu?)
    && (forall p, k :: p in gpu && k in gpu[p] && HasTask(ps, k) ==> TaskAt(ps, k).lane.Gpu?)
  }

  lemma InsertCounts(q: seq<Key>, at: nat, k: Key)
    requires at <= |q|
    ensures multiset(Insert(q, at, k)) == multiset(q) + multiset{k}
  {
    assert q == q[..at] + q[at..];
  }

  lemma InsertIn(q: seq<Key>, at: nat, k: Key)
    requires at <= |q|
    ensures forall j :: j in Insert(q, at, k) <==> j in q || j == k
  {
    InsertCounts(q, at, k);
    forall j
      ensures j in Insert(q, at, k) <==> j in q || j == k
    {
      assert j in q <==> j in multiset(q);
      assert j in Insert(q, at, k) <==> j in multiset(Insert(q, at, k));
    }
  }

  lemma PopCounts(q: seq<Key>)
    requires q != []
    ensures multiset(q[1..]) == multiset(q) - multiset{q[0]}
    ensures q[0] in multiset(q)
  {
    assert q == [q[0]] + q[1..];
  }

  function PushGpu(gpu: map<ProofId, seq<Key>>, at: nat, k: Key): map<ProofId, seq<Key>>
    requires at <= if k.proof in gpu then |gpu[k.proof]| else 0
  {
    gpu[k.proof := Insert(if k.proof in gpu then gpu[k.proof] else [], at, k)]
  }

  lemma PushCpuOk(ps: map<ProofId, Proof>, cpu: seq<Key>, gpu: map<ProofId, seq<Key>>, queued: multiset<Key>,
                  at: nat, k: Key)
    requires QueuesOk(cpu, gpu, queued) && LanesOk(ps, cpu, gpu) && at <= |cpu|
    requires HasTask(ps, k) ==> TaskAt(ps, k).lane.Cpu?
    ensures QueuesOk(Insert(cpu, at, k), gpu, queued + multiset{k})
    ensures LanesOk(ps, Insert(cpu, at, k), gpu)
  {
    InsertCounts(cpu, at, k);
    InsertIn(cpu, at, k);
  }

  lemma PushGpuCounts(gpu: map<ProofId, seq<Key>>, at: nat, k: Key, j: Key)
    requires at <= if k.proof in gpu then |gpu[k.proof]| else 0
    ensures GpuCount(PushGpu(gpu, at, k), j) == GpuCount(gpu, j) + if j == k then 1 else 0
  {
    InsertCounts(if k.proof in gpu then gpu[k.proof] else [], at, k);
  }

  lemma PushGpuOk(ps: map<ProofId, Proof>, cpu: seq<Key>, gpu: map<ProofId, seq<Key>>, queued: multiset<Key>,
                  at: nat, k: Key)
    requires QueuesOk(cpu, gpu, queued) && LanesOk(ps, cpu, gpu)
    requires at <= if k.proof in gpu then |gpu[k.proof]| else 0
    requires HasTask(ps, k) ==> TaskAt(ps, k).lane.Gpu?
    ensures QueuesOk(cpu, PushGpu(gpu, at, k), queued + multiset{k})
    ensures LanesOk(ps, cpu, PushGpu(gpu, at, k))
  {
    hide GpuCount;
    InsertIn(if k.proof in gpu then gpu[k.proof] else [], at, k);
    forall j
      ensures GpuCount(PushGpu(gpu, at, k), j) == GpuCount(gpu, j) + if j == k then 1 else 0
    {
      PushGpuCounts(gpu, at, k, j);
    }
  }

  lemma PopCpuOk(ps: map<ProofId, Proof>, cpu: seq<Key>, gpu: map<ProofId, seq<Key>>, queued: multiset<Key>)
    requires QueuesOk(cpu, gpu, queued) && LanesOk(ps, cpu, gpu) && cpu != []
    ensures cpu[0] in queued
    ensures QueuesOk(cpu[1..], gpu, queued - multiset{cpu[0]})
    ensures LanesOk(ps, cpu[1..], gpu)
  {
    PopCounts(cpu);
  }

  /** Takes the head of a proof's queue and drops the queue when that was its last. */
  function PopGpu(gpu: map<ProofId, seq<Key>>, p: ProofId): map<ProofId, seq<Key>>
    requires p in gpu && gpu[p] != []
  {
    if |gpu[p]| == 1 then gpu - {p} else gpu[p := gpu[p][1..]]
  }

  lemma PopGpuCounts(gpu: map<ProofId, seq<Key>>, p: ProofId, k: Key)
    requires p in gpu && gpu[p] != [] && gpu[p][0].proof == p
    ensures GpuCount(gpu, gpu[p][0]) > 0
    ensures GpuCount(PopGpu(gpu, p), k) == GpuCount(gpu, k) - if k == gpu[p][0] then 1 else 0
  {
    PopCounts(gpu[p]);
    if |gpu[p]| == 1 {
      assert gpu[p] == [gpu[p][0]];
    }
  }

  lemma PopGpuOk(ps: map<ProofId, Proof>, cpu: seq<Key>, gpu: map<ProofId, seq<Key>>, queued: multiset<Key>, p: ProofId)
    requires QueuesOk(cpu, gpu, queued) && LanesOk(ps, cpu, gpu) && p in gpu
    ensures gpu[p] != [] && gpu[p][0].proof == p && gpu[p][0] in queued
    ensures QueuesOk(cpu, PopGpu(gpu, p), queued - multiset{gpu[p][0]})
    ensures LanesOk(ps, cpu, PopGpu(gpu, p))
  {
    hide GpuCount;
    assert gpu[p][0] in gpu[p];
    PopGpuCounts(gpu, p, gpu[p][0]);
    forall k
      ensures GpuCount(PopGpu(gpu, p), k) == GpuCount(gpu, k) - if k == gpu[p][0] then 1 else 0
    {
      PopGpuCounts(gpu, p, k);
    }
    PopGpuIn(gpu, p);
  }

  lemma PopGpuIn(gpu: map<ProofId, seq<Key>>, p: ProofId)
    requires p in gpu && gpu[p] != []
    ensures forall q, k :: q in PopGpu(gpu, p) && k in PopGpu(gpu, p)[q] ==> q in gpu && k in gpu[q]
  {}

  /** A step only removes tasks, keeps their lanes, or adds tasks never issued before. */
  ghost predicate LanesKept(b: Books, after: Books) {
    forall k :: HasTask(after.proofs, k) ==>
      k.task !in b.issued || (HasTask(b.proofs, k) && TaskAt(after.proofs, k).lane == TaskAt(b.proofs, k).lane)
  }

  lemma LanesMove(b: Books, after: Books, cpu: seq<Key>, gpu: map<ProofId, seq<Key>>, queued: multiset<Key>)
    requires QueuesOk(cpu, gpu, queued) && forall k :: k in queued ==> k.task in b.issued
    requires LanesOk(b.proofs, cpu, gpu) && LanesKept(b, after)
    ensures LanesOk(after.proofs, cpu, gpu)
  {
    forall k | k in cpu && HasTask(after.proofs, k)
      ensures TaskAt(after.proofs, k).lane.Cpu?
    {
      assert k in multiset(cpu);
      assert k in queued;
    }
    forall p, k | p in gpu && k in gpu[p] && HasTask(after.proofs, k)
      ensures TaskAt(after.proofs, k).lane.Gpu?
    {
      assert k in multiset(gpu[p]);
      assert k in queued;
    }
  }

  // ---- order ---------------------------------------------------------------------------------

  lemma PlaceCpu(ranks: map<TaskId, Rank>, cpu: seq<Key>, gpu: map<ProofId, seq<Key>>, k: Key) returns (at: nat)
    requires RanksOk(ranks, cpu, gpu)
    ensures at <= |cpu| && FitsAt(ranks, cpu, at, k)
  {
    at := PlaceExists(ranks, cpu, k);
  }

  lemma PlaceGpu(ranks: map<TaskId, Rank>, cpu: seq<Key>, gpu: map<ProofId, seq<Key>>, k: Key) returns (at: nat)
    requires RanksOk(ranks, cpu, gpu)
    ensures var q := if k.proof in gpu then gpu[k.proof] else []; at <= |q| && FitsAt(ranks, q, at, k)
  {
    at := PlaceExists(ranks, if k.proof in gpu then gpu[k.proof] else [], k);
  }

  lemma PushRanked(ranks: map<TaskId, Rank>, cpu: seq<Key>, gpu: map<ProofId, seq<Key>>, at: nat, k: Key)
    requires RanksOk(ranks, cpu, gpu) && FitsAt(ranks, cpu, at, k)
    ensures RanksOk(ranks, Insert(cpu, at, k), gpu)
  {
    InsertOrdered(ranks, cpu, at, k);
  }

  lemma PushGpuRanked(ranks: map<TaskId, Rank>, cpu: seq<Key>, gpu: map<ProofId, seq<Key>>, at: nat, k: Key)
    requires RanksOk(ranks, cpu, gpu) && FitsAt(ranks, if k.proof in gpu then gpu[k.proof] else [], at, k)
    ensures RanksOk(ranks, cpu, PushGpu(gpu, at, k))
  {
    hide Ordered;
    assert Ordered(ranks, []) by { OrderedNone(ranks); }
    InsertOrdered(ranks, if k.proof in gpu then gpu[k.proof] else [], at, k);
  }

  lemma OrderedNone(ranks: map<TaskId, Rank>)
    ensures Ordered(ranks, [])
  {}

  lemma TailOrdered(ranks: map<TaskId, Rank>, q: seq<Key>)
    requires Ordered(ranks, q) && q != []
    ensures Ordered(ranks, q[1..])
  {}

  lemma PopRanked(ranks: map<TaskId, Rank>, cpu: seq<Key>, gpu: map<ProofId, seq<Key>>)
    requires RanksOk(ranks, cpu, gpu) && cpu != []
    ensures RanksOk(ranks, cpu[1..], gpu)
  {
    TailOrdered(ranks, cpu);
  }

  lemma PopGpuRanked(ranks: map<TaskId, Rank>, cpu: seq<Key>, gpu: map<ProofId, seq<Key>>, p: ProofId)
    requires RanksOk(ranks, cpu, gpu) && p in gpu && gpu[p] != []
    ensures RanksOk(ranks, cpu, PopGpu(gpu, p))
  {
    TailOrdered(ranks, gpu[p]);
  }

  ghost predicate NobodyBefore(ranks: map<TaskId, Rank>, q: seq<Key>, k: Key) {
    forall j :: j in q ==> !Before(ranks, j, k)
  }

  lemma HeadRanked(ranks: map<TaskId, Rank>, cpu: seq<Key>, gpu: map<ProofId, seq<Key>>, k: Key)
    requires RanksOk(ranks, cpu, gpu)
    ensures cpu != [] && cpu[0] == k ==> NobodyBefore(ranks, cpu, k)
    ensures k.proof in gpu && gpu[k.proof] != [] && gpu[k.proof][0] == k ==> NobodyBefore(ranks, gpu[k.proof], k)
  {
    hide Before;
    if cpu != [] && cpu[0] == k {
      forall j | j in cpu ensures !Before(ranks, j, k) { HeadFirst(ranks, cpu, j); }
    }
    if k.proof in gpu && gpu[k.proof] != [] && gpu[k.proof][0] == k {
      forall j | j in gpu[k.proof] ensures !Before(ranks, j, k) { HeadFirst(ranks, gpu[k.proof], j); }
    }
  }

  lemma QueuedTasks(cpu: seq<Key>, gpu: map<ProofId, seq<Key>>, queued: multiset<Key>)
    requires QueuesOk(cpu, gpu, queued)
    ensures forall k :: k in cpu ==> k in queued
    ensures forall p, k :: p in gpu && k in gpu[p] ==> k in queued
  {
    forall k | k in cpu
      ensures k in queued
    {
      assert k in multiset(cpu);
    }
    forall p, k | p in gpu && k in gpu[p]
      ensures k in queued
    {
      assert k in multiset(gpu[p]);
    }
  }
}
