/** Entities of the coordinator: proofs, tasks, workers, attempts. */
module ClusterTypes {
  // Identifiers are opaque strings in the source; only equality is used.
  type ProofId = nat
  type TaskId = nat
  type WorkerId = nat
  type SubId = nat
  type RxId = nat
  type Payload = seq<bv8>

  datatype Option<+T> = None | Some(value: T)

  /** Reply of a coordinator call: success or the gRPC status code it fails with. */
  datatype Reply = Done | NotFound | AlreadyExists | FailedPrecondition | InvalidArgument

  datatype TaskStatus = Pending | Running | Succeeded | FailedRetryable | FailedFatal

  datatype TaskType =
    | UnspecifiedTaskType | Controller | ProveShard | RecursionReduce | RecursionDeferred | ShrinkWrap
    | SetupVkey | MarkerDeferredRecord | PlonkWrap | Groth16Wrap | ExecuteOnly | CoreExecute
    | UtilVkeyMapChunk | UtilVkeyMapController

  /** The kind of worker a task needs; a NoLane task is never queued. */
  datatype Lane = Cpu | Gpu | NoLane

  datatype WorkerKind = CpuWorker | GpuWorker | AllWorker

  /** One assignment of a task to one worker. `serial` numbers the assignments of a whole run. */
  datatype Attempt = Attempt(onGpu: bool, credited: bool, serial: nat)

  datatype Task = Task(
    ty: TaskType,
    lane: Lane,
    weight: nat,
    status: TaskStatus,
    retries: nat,
    subscribers: set<SubId>,
    worker: Option<WorkerId>,
    attempts: map<WorkerId, Attempt>,
    requeues: nat)

  // `activeTasks` is an int, not a nat: the source decrements it without a check.
  datatype Proof = Proof(tasks: map<TaskId, Task>, activeTasks: int)

  datatype Key = Key(proof: ProofId, task: TaskId)

  datatype Worker = Worker(
    kind: WorkerKind,
    maxWeight: nat,
    weight: nat,
    holds: set<Key>,
    closed: bool,
    lastHeartbeat: nat)

  const MAX_TASK_RETRIES: nat := 3
  const U64_MAX: nat := 0xFFFF_FFFF_FFFF_FFFF

  predicate Terminal(status: TaskStatus) {
    status.Succeeded? || status.FailedFatal?
  }

  /** Task types whose final failure fails the whole proof. */
  predicate FailsProof(ty: TaskType) {
    ty.Controller? || ty.Groth16Wrap? || ty.PlonkWrap? || ty.ExecuteOnly? || ty.CoreExecute?
  }

  predicate OnGpu(kind: WorkerKind) {
    kind.GpuWorker? || kind.AllWorker?
  }

  predicate Serves(kind: WorkerKind, lane: Lane) {
    match lane
    case Cpu => kind.CpuWorker? || kind.AllWorker?
    case Gpu => kind.GpuWorker? || kind.AllWorker?
    case NoLane => false
  }

  function SatSub(a: nat, b: nat): nat {
    if a < b then 0 else a - b
  }

  function SatAdd64(a: nat, b: nat): nat {
    if a + b > U64_MAX then U64_MAX else a + b
  }
}
