/** What the policy does between two calls, and why its queues stay in step with the books. */
module PolicyRuns {
  import opened ClusterTypes
  import opened TaskBooks
  import opened BookInvariants
  import opened BookSteps
  import opened StepShapes
  import opened MethodShapes
  import opened CoordinatorRuns
  import opened TaskChannels
  import opened PolicyQueues
  import opened QueueOrder

  predicate PolicyCall(call: Call) {
    call.PolicyAssign? || call.PolicyDiscard?
  }

  /** The books after the policy's assignments and discards, if each was legal in its turn. */
  ghost function Schedule(b: Books, acts: seq<Call>): Option<Books>
    decreases |acts|
  {
    if acts == [] then Some(b)
    else
      var last := acts[|acts| - 1];
      match Schedule(b, acts[..|acts| - 1])
      case None => None
      case Some(mid) =>
        match last
        case PolicyAssign(w, k) => if CanAssign(mid, w, k) then Some(Assign(mid, w, k)) else None
        case PolicyDiscard(k) => if CanDiscard(mid, k) then Some(Discard(mid, k)) else None
        case _ => None
  }

  lemma {:induction false} RunSnoc(c: Cluster, calls: seq<Call>, call: Call)
    requires LegalRun(c, calls) && Legal(Run(c, calls), call)
    ensures LegalRun(c, calls + [call]) && Run(c, calls + [call]) == Step(Run(c, calls), call)
    decreases |calls|
  {
    hide Step, Legal;
    if calls == [] {
      assert [call][1..] == [];
    } else {
      RunSnoc(Step(c, calls[0]), calls[1..], call);
      assert (calls + [call])[1..] == calls[1..] + [call];
    }
  }

  /** What the policy scheduled is a run of the coordinator that touches the books alone. */
  lemma {:induction false} ScheduleRuns(c: Cluster, acts: seq<Call>)
    requires Schedule(c.books, acts).Some?
    ensures LegalRun(c, acts) && Run(c, acts) == c.(books := Schedule(c.books, acts).value)
    decreases |acts|
  {
    hide Assign, Discard, CanAssign, CanDiscard;
    if acts != [] {
      var init := acts[..|acts| - 1];
      ScheduleRuns(c, init);
      RunSnoc(c, init, acts[|acts| - 1]);
      assert init + [acts[|acts| - 1]] == acts;
    }
  }

  lemma DropLanes(b: Books, p: ProofId)
    ensures LanesKept(b, DropProof(b, p))
  {
    hide Weigh, DropProof;
    DropFrame(b, p);
  }

  lemma CompleteLanes(b: Books, w: WorkerId, k: Key, gpuMs: nat)
    ensures LanesKept(b, Complete(b, w, k, gpuMs))
  {
    hide Weigh, Complete;
    CompleteFrame(b, w, k, gpuMs);
    if HasTask(b.proofs, k) {
      var marked := MarkSucceeded(b, w, k, gpuMs);
      PutTaskAt(b.proofs, k, SucceededTask(TaskAt(b.proofs, k), w), marked.proofs[k.proof].activeTasks);
    }
  }

  lemma FailLanes(b: Books, w: WorkerId, k: Key, retryable: bool)
    requires BooksAgree(b)
    ensures LanesKept(b, Fail(b, w, k, retryable))
  {
    hide Weigh, Fail, BooksAgree, FailDrops;
    if FailReply(b, w, k).Done? {
      FailFrame(b, w, k, retryable);
      PutTaskAt(b.proofs, k, FailedTask(TaskAt(b.proofs, k), retryable), ActiveAfterFail(b, k, retryable));
    } else {
      FailRefused(b, w, k, retryable);
    }
  }

  lemma FailRefused(b: Books, w: WorkerId, k: Key, retryable: bool)
    requires !FailReply(b, w, k).Done?
    ensures Fail(b, w, k, retryable) == b
  {
    hide Weigh;
  }

  lemma AddTaskLanes(b: Books, k: Key, ty: TaskType, lane: Lane, weight: nat)
    requires k.task !in b.issued
    ensures LanesKept(b, AddTask(b, k, ty, lane, weight))
  {}

  lemma WorkerLanes(b: Books, w: WorkerId)
    ensures LanesKept(b, RemoveWorker(b, w))
  {
    hide Weigh;
  }

  lemma StepLanes(c: Cluster, call: Call)
    requires BooksAgree(c.books) && Legal(c, call)
    ensures LanesKept(c.books, Step(c, call).books)
  {
    hide Weigh, BooksAgree, Complete, Fail, DropProof, RemoveWorker, AddTask, LanesKept;
    SameLanes(c.books, c.books);
    match call
    case CreateProof(p, t, ty, lane, weight) => AddProofLanes(c.books, p, t, ty, lane, weight);
    case CreateTask(k, ty, lane, weight) => AddTaskLanes(c.books, k, ty, lane, weight);
    case CompleteTask(w, k, gpuMs) => CompleteLanes(c.books, w, k, gpuMs);
    case FailTask(w, k, retryable) => FailLanes(c.books, w, k, retryable);
    case FailProofCall(p, _) => DropLanes(c.books, p);
    case RemoveWorkerCall(w) => WorkerLanes(c.books, w);
    case AddSubscriptions(_, _, _) => PlainLanes(c, call);
    case PolicyAssign(_, _) => PlainLanes(c, call);
    case CreateDummyProof(_) => PlainLanes(c, call);
    case _ => SameLanes(c.books, Step(c, call).books);
  }

  lemma SameLanes(b: Books, after: Books)
    requires after.proofs == b.proofs
    ensures LanesKept(b, after)
  {}

  lemma AddProofLanes(b: Books, p: ProofId, t: TaskId, ty: TaskType, lane: Lane, weight: nat)
    requires t !in b.issued
    ensures LanesKept(b, if p in b.proofs then b else AddTask(AddProof(b, p), Key(p, t), ty, lane, weight))
  {}

  lemma PlainLanes(c: Cluster, call: Call)
    requires Legal(c, call) && (call.AddSubscriptions? || call.PolicyAssign? || call.CreateDummyProof?)
    ensures LanesKept(c.books, Step(c, call).books)
  {}

  // ---- placing a task --------------------------------------------------------------------

  function GpuLoad(gw: map<ProofId, nat>, p: ProofId): nat {
    if p in gw then gw[p] else 0
  }

  predicate Fits(worker: Worker, lane: Lane, weight: nat) {
    !worker.closed && Serves(worker.kind, lane) && worker.weight + weight <= worker.maxWeight
  }

  /** No worker with room for the task is free sooner. */
  predicate Soonest(workers: map<WorkerId, Worker>, nextFree: map<WorkerId, nat>, best: WorkerId, lane: Lane,
                    weight: nat) {
    forall w :: w in workers && Fits(workers[w], lane, weight) ==> NextFree(nextFree, best) <= NextFree(nextFree, w)
  }

  predicate AtHead(cpu: seq<Key>, gpu: map<ProofId, seq<Key>>, k: Key, lane: Lane) {
    match lane
    case Cpu => cpu != [] && cpu[0] == k
    case Gpu => k.proof in gpu && gpu[k.proof] != [] && gpu[k.proof][0] == k
    case NoLane => false
  }

  /** The task is live and no worker has room for it. */
  predicate NoRoom(ps: map<ProofId, Proof>, ws: map<WorkerId, Worker>, k: Key) {
    && HasTask(ps, k)
    && !Terminal(TaskAt(ps, k).status)
    && forall w :: w in ws ==> !Fits(ws[w], TaskAt(ps, k).lane, TaskAt(ps, k).weight)
  }

  lemma ChargeNonZero(gw: map<ProofId, nat>, p: ProofId, x: nat)
    ensures NonZero(gw[p := GpuLoad(gw, p) + x]) ==
      if GpuLoad(gw, p) + x > 0 then NonZero(gw)[p := GpuLoad(gw, p) + x] else NonZero(gw)
    ensures GpuLoad(gw, p) == GpuLoad(NonZero(gw), p)
  {}

  lemma AssignLanes(b: Books, w: WorkerId, k: Key)
    requires CanAssign(b, w, k)
    ensures LanesKept(b, Assign(b, w, k))
  {
    PutTaskAt(b.proofs, k, TaskAt(Assign(b, w, k).proofs, k), b.proofs[k.proof].activeTasks);
  }

  lemma AgreeQueue(b: Books)
    requires BooksAgree(b)
    ensures QueueSound(b)
  {
    hide Records, NoneStranded, NoIdleProof, HoldsSound, WeightsExact, GpuExact, Conserved;
  }

  /** An assignment without its queue entry being taken. */
  function Granted(b: Books, w: WorkerId, k: Key): Books
    requires HasTask(b.proofs, k) && w in b.workers
  {
    var task := TaskAt(b.proofs, k);
    var worker := b.workers[w];
    var running := task.(worker := Some(w), status := Running,
                         attempts := task.attempts[w := Attempt(OnGpu(worker.kind), false, |b.grants|)]);
    b.(workers := b.workers[w := worker.(weight := worker.weight + task.weight, holds := worker.holds + {k})],
       proofs := PutTask(b.proofs, k, running, b.proofs[k.proof].activeTasks),
       grants := b.grants + [(k, w)],
       gpuWeights := if task.lane.Gpu? && GpuLoad(b.gpuWeights, k.proof) + task.weight > 0
                     then b.gpuWeights[k.proof := GpuLoad(b.gpuWeights, k.proof) + task.weight] else b.gpuWeights)
  }

  lemma GrantedFrame(b: Books, w: WorkerId, k: Key)
    requires HasTask(b.proofs, k) && w in b.workers
    ensures var g := Granted(b, w, k);
      g == b.(workers := g.workers, proofs := g.proofs, grants := g.grants, gpuWeights := g.gpuWeights)
  {}

  lemma AssignIsGrant(b: Books, w: WorkerId, k: Key)
    requires CanAssign(b, w, k)
    ensures Assign(b, w, k) == Granted(b.(queue := b.queue - multiset{k}), w, k)
  {}

  lemma PopQueued(ps: map<ProofId, Proof>, cpu: seq<Key>, gpu: map<ProofId, seq<Key>>, queued: multiset<Key>,
                  k: Key, lane: Lane)
    requires QueuesOk(cpu, gpu, queued) && LanesOk(ps, cpu, gpu) && AtHead(cpu, gpu, k, lane)
    ensures k in queued
  {
    if lane.Cpu? { PopCpuOk(ps, cpu, gpu, queued); } else { PopGpuOk(ps, cpu, gpu, queued, k.proof); }
  }

  /** A proof whose GPU load is least and whose next task no worker has room for. */
  ghost predicate StuckGpu(ps: map<ProofId, Proof>, ws: map<WorkerId, Worker>, gpu: map<ProofId, seq<Key>>,
                           gw: map<ProofId, nat>, p: ProofId) {
    && p in gpu && gpu[p] != [] && NoRoom(ps, ws, gpu[p][0])
    && forall q :: q in gpu ==> GpuLoad(gw, p) <= GpuLoad(gw, q)
  }

  lemma HeadInPlace(ps: map<ProofId, Proof>, cpu: seq<Key>, gpu: map<ProofId, seq<Key>>, queued: multiset<Key>,
                    p: ProofId)
    requires QueuesOk(cpu, gpu, queued) && LanesOk(ps, cpu, gpu) && p in gpu
    ensures gpu[p] != [] && gpu[p][0].proof == p
    ensures AtHead(cpu, gpu, gpu[p][0], Gpu)
    ensures HasTask(ps, gpu[p][0]) ==> TaskAt(ps, gpu[p][0]).lane.Gpu?
  {
    assert gpu[p][0] in gpu[p];
  }

  lemma ScheduleMore(b: Books, acts: seq<Call>, act: Call)
    requires Schedule(b, acts).Some?
    ensures var mid := Schedule(b, acts).value;
      && (act.PolicyAssign? && CanAssign(mid, act.worker, act.key) ==>
            Schedule(b, acts + [act]) == Some(Assign(mid, act.worker, act.key)))
      && (act.PolicyDiscard? && CanDiscard(mid, act.key) ==> Schedule(b, acts + [act]) == Some(Discard(mid, act.key)))
  {
    hide Assign, Discard, CanAssign, CanDiscard;
    assert (acts + [act])[..|acts|] == acts;
  }

  lemma CpuHeadInPlace(ps: map<ProofId, Proof>, cpu: seq<Key>, gpu: map<ProofId, seq<Key>>)
    requires LanesOk(ps, cpu, gpu) && cpu != []
    ensures AtHead(cpu, gpu, cpu[0], Cpu)
    ensures HasTask(ps, cpu[0]) ==> TaskAt(ps, cpu[0]).lane.Cpu?
  {}

  /** Tasks other than `k` that found no room still find none. */
  ghost predicate NoRoomKept(ps: map<ProofId, Proof>, ws: map<WorkerId, Worker>,
                             qs: map<ProofId, Proof>, us: map<WorkerId, Worker>, k: Key) {
    forall j :: j != k && NoRoom(ps, ws, j) ==> NoRoom(qs, us, j) && TaskAt(qs, j) == TaskAt(ps, j)
  }

  lemma NoRoomSame(ps: map<ProofId, Proof>, ws: map<WorkerId, Worker>, k: Key)
    ensures NoRoomKept(ps, ws, ps, ws, k)
  {}

  lemma DiscardFrame(b: Books, k: Key)
    requires CanDiscard(b, k)
    ensures Discard(b, k).proofs == b.proofs && Discard(b, k).workers == b.workers
  {}

  lemma NoRoomStays(b: Books, w: WorkerId, k: Key)
    requires CanAssign(b, w, k)
    ensures NoRoomKept(b.proofs, b.workers, Assign(b, w, k).proofs, Assign(b, w, k).workers, k)
  {
    PutTaskAt(b.proofs, k, TaskAt(Assign(b, w, k).proofs, k), b.proofs[k.proof].activeTasks);
  }

  lemma StuckStays(ps: map<ProofId, Proof>, ws: map<WorkerId, Worker>, qs: map<ProofId, Proof>,
                   us: map<WorkerId, Worker>,
                   gpu: map<ProofId, seq<Key>>, gw: map<ProofId, nat>, p: ProofId, k: Key)
    requires StuckGpu(ps, ws, gpu, gw, p) && NoRoomKept(ps, ws, qs, us, k)
    requires HasTask(ps, k) ==> TaskAt(ps, k).lane.Cpu?
    requires exists cpu: seq<Key> :: LanesOk(ps, cpu, gpu)
    ensures StuckGpu(qs, us, gpu, gw, p)
  {
    assert gpu[p][0] in gpu[p];
  }

  lemma ScheduleNone(b: Books)
    ensures Schedule(b, []) == Some(b)
  {}

  lemma PlacedFits(b: Books, w: WorkerId, k: Key)
    requires k in b.queue && OpenTask(b, k) && w in b.workers
    requires Fits(b.workers[w], TaskAt(b.proofs, k).lane, TaskAt(b.proofs, k).weight)
    ensures CanAssign(b, w, k)
  {}

  lemma AssignFrame(b: Books, w: WorkerId, k: Key)
    requires CanAssign(b, w, k)
    ensures |Assign(b, w, k).queue| < |b.queue|
  {}

  lemma PlacedKeeps(b: Books, w: WorkerId, k: Key, cpu: seq<Key>, gpu: map<ProofId, seq<Key>>)
    requires BooksAgree(b) && CanAssign(b, w, k) && LanesOk(b.proofs, cpu, gpu)
    requires QueuesOk(cpu, gpu, Assign(b, w, k).queue)
    ensures BooksAgree(Assign(b, w, k)) && LanesOk(Assign(b, w, k).proofs, cpu, gpu)
  {
    hide BooksAgree, QueuesOk, LanesOk, LanesKept;
    AssignKeeps(b, w, k);
    AssignLanes(b, w, k);
    AgreeQueue(b);
    LanesMove(b, Assign(b, w, k), cpu, gpu, Assign(b, w, k).queue);
  }

  lemma {:induction false} RunConcat(c: Cluster, xs: seq<Call>, ys: seq<Call>)
    requires LegalRun(c, xs) && LegalRun(Run(c, xs), ys)
    ensures LegalRun(c, xs + ys) && Run(c, xs + ys) == Run(Run(c, xs), ys)
    decreases |xs|
  {
    hide Step, Legal;
    if xs == [] {
      assert xs + ys == ys;
    } else {
      RunConcat(Step(c, xs[0]), xs[1..], ys);
      assert (xs + ys)[1..] == xs[1..] + ys;
    }
  }
}
