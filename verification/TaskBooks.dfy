/**
  The coordinator's books and the atomic steps on them. Every mutating call of the
  coordinator runs under one write lock, so each is one step from state to state.

  Four books are kept separately and must agree: each proof's `activeTasks` counter, each
  worker's `holds`, each worker's `weight`, and the policy's assignments and releases (with the
  balanced policy's per-proof GPU weight). `issued`, `grants`, `releases`, `hooks` and
  `credits` are histories; no step branches on them.
*/
module TaskBooks {
  import opened ClusterTypes

  datatype Books = Books(
    proofs: map<ProofId, Proof>,
    workers: map<WorkerId, Worker>,
    queue: multiset<Key>,
    gpuWeights: map<ProofId, nat>,  // GPU weight assigned per proof; zero entries left out
    gpuBusyMs: nat,
    issued: map<TaskId, ProofId>,   // task ids ever created, with their proof
    grants: seq<(Key, WorkerId)>, // assignments ever made; an attempt's serial is its index here
    releases: nat,                  // policy releases ever made
    hooks: multiset<TaskId>,        // success hooks ever run
    credits: multiset<nat>)         // attempts whose GPU time was ever added, by serial

  const EMPTY_BOOKS := Books(map[], map[], multiset{}, map[], 0, map[], [], 0, multiset{}, multiset{})

  // ---- lookups -------------------------------------------------------------------------

  predicate HasTask(ps: map<ProofId, Proof>, k: Key) {
    k.proof in ps && k.task in ps[k.proof].tasks
  }

  function TaskAt(ps: map<ProofId, Proof>, k: Key): Task
    requires HasTask(ps, k)
  {
    ps[k.proof].tasks[k.task]
  }

  function WeightAt(ps: map<ProofId, Proof>, k: Key): nat {
    if HasTask(ps, k) then TaskAt(ps, k).weight else 0
  }

  predicate GpuLane(ps: map<ProofId, Proof>, k: Key) {
    HasTask(ps, k) && TaskAt(ps, k).lane.Gpu?
  }

  predicate Holding(ws: map<WorkerId, Worker>, w: WorkerId, k: Key) {
    w in ws && k in ws[w].holds
  }

  predicate Held(ws: map<WorkerId, Worker>, k: Key) {
    k in HeldKeys(ws)
  }

  /** Every (worker, task) pair in some worker's active set. */
  function Holds(ws: map<WorkerId, Worker>): set<(WorkerId, Key)> {
    set w, k | w in ws && k in ws[w].holds :: (w, k)
  }

  function HeldKeys(ws: map<WorkerId, Worker>): set<Key> {
    set w, k | w in ws && k in ws[w].holds :: k
  }

  function HeldOf(ws: map<WorkerId, Worker>, p: ProofId): set<Key> {
    set k | k in HeldKeys(ws) && k.proof == p
  }

  function HeldGpu(b: Books, p: ProofId): set<Key> {
    set k | k in HeldOf(b.workers, p) && GpuLane(b.proofs, k)
  }

  /** Total weight of a set of tasks; tasks that no longer exist weigh nothing. */
  ghost function Weigh(ps: map<ProofId, Proof>, s: set<Key>): nat {
    if s == {} then 0
    else
      var k :| k in s;
      WeightAt(ps, k) + Weigh(ps, s - {k})
  }

  function GpuWeight(b: Books, p: ProofId): nat {
    if p in b.gpuWeights then b.gpuWeights[p] else 0
  }

  /** The tasks of a proof that are neither succeeded nor fatally failed. */
  function Live(proof: Proof): set<TaskId> {
    set t | t in proof.tasks && !Terminal(proof.tasks[t].status)
  }

  // ---- building blocks -----------------------------------------------------------------

  function PutTask(ps: map<ProofId, Proof>, k: Key, task: Task, active: int): map<ProofId, Proof>
    requires k.proof in ps
  {
    ps[k.proof := Proof(ps[k.proof].tasks[k.task := task], active)]
  }

  ghost function UnholdWorker(ps: map<ProofId, Proof>, worker: Worker, r: set<Key>): Worker {
    worker.(holds := worker.holds - r, weight := SatSub(worker.weight, Weigh(ps, worker.holds * r)))
  }

  function HeldGpuIn(b: Books, r: set<Key>, p: ProofId): set<Key> {
    set k | k in HeldGpu(b, p) && k in r
  }

  /** Every holder of a task in `r` gives it up; the policy releases each hold once. */
  ghost function Unhold(b: Books, r: set<Key>): Books {
    b.(workers := map w | w in b.workers :: UnholdWorker(b.proofs, b.workers[w], r),
       releases := b.releases + |set h | h in Holds(b.workers) && h.1 in r|,
       gpuWeights := map p | p in b.gpuWeights && b.gpuWeights[p] > Weigh(b.proofs, HeldGpuIn(b, r, p))
                      :: b.gpuWeights[p] - Weigh(b.proofs, HeldGpuIn(b, r, p)))
  }

  function Enqueue(b: Books, ks: set<Key>): Books {
    b.(queue := b.queue + multiset(set k | k in ks && HasTask(b.proofs, k) && !TaskAt(b.proofs, k).lane.NoLane?))
  }

  /** Removes a proof with everything it still has assigned. */
  ghost function DropProof(b: Books, p: ProofId): Books {
    var released := Unhold(b, HeldOf(b.workers, p));
    released.(proofs := released.proofs - {p}, gpuWeights := released.gpuWeights - {p})
  }

  // ---- steps ---------------------------------------------------------------------------

  function AddProof(b: Books, p: ProofId): Books {
    if p in b.proofs then b else b.(proofs := b.proofs[p := Proof(map[], 0)])
  }

  function NewTask(ty: TaskType, lane: Lane, weight: nat): Task {
    Task(ty, lane, weight, Pending, 0, {}, None, map[], 0)
  }

  function AddTask(b: Books, k: Key, ty: TaskType, lane: Lane, weight: nat): Books {
    if k.proof !in b.proofs then b
    else
      var added := b.(
        proofs := PutTask(b.proofs, k, NewTask(ty, lane, weight), b.proofs[k.proof].activeTasks + 1),
        issued := b.issued[k.task := k.proof]);
      Enqueue(added, {k})
  }

  /** What the policy checks before it hands a queued task to a worker. */
  predicate CanAssign(b: Books, w: WorkerId, k: Key) {
    && k in b.queue
    && HasTask(b.proofs, k)
    && !Terminal(TaskAt(b.proofs, k).status)
    && w in b.workers
    && !b.workers[w].closed
    && Serves(b.workers[w].kind, TaskAt(b.proofs, k).lane)
    && b.workers[w].weight + TaskAt(b.proofs, k).weight <= b.workers[w].maxWeight
  }

  function Assign(b: Books, w: WorkerId, k: Key): Books
    requires CanAssign(b, w, k)
  {
    var task := TaskAt(b.proofs, k);
    var worker := b.workers[w];
    var running := task.(
      worker := Some(w), status := Running,
      attempts := task.attempts[w := Attempt(OnGpu(worker.kind), false, |b.grants|)]);
    b.(workers := b.workers[w := worker.(weight := worker.weight + task.weight, holds := worker.holds + {k})],
       proofs := PutTask(b.proofs, k, running, b.proofs[k.proof].activeTasks),
       queue := b.queue - multiset{k},
       grants := b.grants + [(k, w)],
       gpuWeights := if task.lane.Gpu? && GpuWeight(b, k.proof) + task.weight > 0
                     then b.gpuWeights[k.proof := GpuWeight(b, k.proof) + task.weight]
                     else b.gpuWeights)
  }

  /** The policy drops a queued task that is gone or already final. */
  predicate CanDiscard(b: Books, k: Key) {
    k in b.queue && (HasTask(b.proofs, k) ==> Terminal(TaskAt(b.proofs, k).status))
  }

  function Discard(b: Books, k: Key): Books
    requires CanDiscard(b, k)
  {
    b.(queue := b.queue - multiset{k})
  }

  /** True when a report from `w` is the first for that worker's recorded attempt. */
  predicate Uncredited(task: Task, w: WorkerId) {
    w in task.attempts && !task.attempts[w].credited
  }

  function SucceededTask(task: Task, w: WorkerId): Task {
    task.(status := Succeeded,
          subscribers := if task.status.Succeeded? then task.subscribers else {},
          attempts := if Uncredited(task, w) then task.attempts[w := task.attempts[w].(credited := true)]
                      else task.attempts)
  }

  function MarkSucceeded(b: Books, w: WorkerId, k: Key, gpuMs: nat): Books
    requires HasTask(b.proofs, k)
  {
    var task := TaskAt(b.proofs, k);
    var active := b.proofs[k.proof].activeTasks;
    var credit := Uncredited(task, w) && task.attempts[w].onGpu;
    b.(proofs := PutTask(b.proofs, k, SucceededTask(task, w),
                         if Terminal(task.status) then active else active - 1),
       hooks := if task.status.Succeeded? then b.hooks else b.hooks + multiset{k.task},
       credits := if credit then b.credits + multiset{task.attempts[w].serial} else b.credits,
       gpuBusyMs := if credit then SatAdd64(b.gpuBusyMs, gpuMs) else b.gpuBusyMs)
  }

  ghost function Complete(b: Books, w: WorkerId, k: Key, gpuMs: nat): Books {
    if !HasTask(b.proofs, k) then b
    else
      var marked := MarkSucceeded(b, w, k, gpuMs);
      var settled := if Holding(b.workers, w, k) then Unhold(marked, {k}) else marked;
      if marked.proofs[k.proof].activeTasks == 0 then DropProof(settled, k.proof) else settled
  }

  function FailReply(b: Books, w: WorkerId, k: Key): Reply {
    if w !in b.workers then NotFound
    else if k !in b.workers[w].holds then FailedPrecondition
    else if !HasTask(b.proofs, k) then NotFound
    else Done
  }

  function FailedStatus(task: Task, retryable: bool): TaskStatus {
    if retryable && task.retries != MAX_TASK_RETRIES then FailedRetryable else FailedFatal
  }

  /** The whole proof goes down with this failure. */
  predicate FailureFailsProof(task: Task, retryable: bool) {
    FailsProof(task.ty) && (!retryable || task.retries == MAX_TASK_RETRIES)
  }

  function FailedTask(task: Task, retryable: bool): Task {
    task.(status := FailedStatus(task, retryable),
          retries := if FailedStatus(task, retryable).FailedRetryable? then task.retries + 1 else task.retries)
  }

  function ActiveAfterFail(b: Books, k: Key, retryable: bool): int
    requires HasTask(b.proofs, k)
  {
    var task := TaskAt(b.proofs, k);
    if FailedStatus(task, retryable).FailedFatal? && !task.status.FailedFatal?
    then b.proofs[k.proof].activeTasks - 1 else b.proofs[k.proof].activeTasks
  }

  function MarkFailed(b: Books, k: Key, retryable: bool): Books
    requires HasTask(b.proofs, k)
  {
    b.(proofs := PutTask(b.proofs, k, FailedTask(TaskAt(b.proofs, k), retryable), ActiveAfterFail(b, k, retryable)))
  }

  ghost function Fail(b: Books, w: WorkerId, k: Key, retryable: bool): Books {
    if !FailReply(b, w, k).Done? then b
    else
      var task := TaskAt(b.proofs, k);
      if task.status.Succeeded? then Unhold(b, {k})
      else
        var marked := MarkFailed(Unhold(b, {k}), k, retryable);
        if FailureFailsProof(task, retryable) || marked.proofs[k.proof].activeTasks == 0
        then DropProof(marked, k.proof)
        else if FailedStatus(task, retryable).FailedRetryable? then Enqueue(marked, {k})
        else marked
  }

  /** The proof failure goes ahead: the blamed task, if any, exists and has not succeeded. */
  predicate ProofFails(b: Books, p: ProofId, blamed: Option<TaskId>) {
    && p in b.proofs
    && (blamed.Some? ==> blamed.value in b.proofs[p].tasks && !b.proofs[p].tasks[blamed.value].status.Succeeded?)
  }

  function FailProofReply(b: Books, p: ProofId, blamed: Option<TaskId>): Reply {
    if p in b.proofs && blamed.Some? && blamed.value !in b.proofs[p].tasks then NotFound else Done
  }

  ghost function FailProof(b: Books, p: ProofId, blamed: Option<TaskId>): Books {
    if ProofFails(b, p, blamed) then DropProof(b, p) else b
  }

  function AddWorker(b: Books, w: WorkerId, kind: WorkerKind, maxWeight: nat, now: nat): Books {
    if w in b.workers then b else b.(workers := b.workers[w := Worker(kind, maxWeight, 0, {}, false, now)])
  }

  function CloseWorker(b: Books, w: WorkerId): Books {
    if w in b.workers then b.(workers := b.workers[w := b.workers[w].(closed := true)]) else b
  }

  function Requeued(proof: Proof, p: ProofId, ks: set<Key>): Proof {
    proof.(tasks := map t | t in proof.tasks ::
      if Key(p, t) in ks then proof.tasks[t].(requeues := proof.tasks[t].requeues + 1) else proof.tasks[t])
  }

  function CountRequeues(ps: map<ProofId, Proof>, ks: set<Key>): map<ProofId, Proof> {
    map p | p in ps :: Requeued(ps[p], p, ks)
  }

  /** Worker death: its tasks go back to the queue with their retry budget untouched. */
  ghost function RemoveWorker(b: Books, w: WorkerId): Books {
    if w !in b.workers then b
    else
      var held := b.workers[w].holds;
      var released := Unhold(b, held);
      var counted := released.(proofs := CountRequeues(released.proofs, held),
                               workers := released.workers - {w});
      Enqueue(counted, held)
  }

  /**
    A heartbeat drops holds whose task is gone and was not reported, and overwrites the
    weight with the recomputed one, whatever weight and tasks the worker reports.
  */
  ghost function Heartbeat(b: Books, w: WorkerId, reported: set<Key>, now: nat): Books {
    if w !in b.workers then b
    else
      var worker := b.workers[w];
      b.(workers := b.workers[w := worker.(
        lastHeartbeat := now,
        weight := Weigh(b.proofs, worker.holds),
        holds := set k | k in worker.holds && (k in reported || HasTask(b.proofs, k)))])
  }

  function Subscribed(proof: Proof, p: ProofId, s: SubId, ks: set<Key>): Proof {
    proof.(tasks := map t | t in proof.tasks ::
      if Key(p, t) in ks && !Terminal(proof.tasks[t].status)
      then proof.tasks[t].(subscribers := proof.tasks[t].subscribers + {s}) else proof.tasks[t])
  }

  /** Registers a subscriber on those of `ks` that exist and are not final. */
  function Subscribe(b: Books, s: SubId, ks: set<Key>): Books {
    b.(proofs := map p | p in b.proofs :: Subscribed(b.proofs[p], p, s, ks))
  }
}
