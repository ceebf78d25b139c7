/**
  The coordinator as the object it is: maps updated in place, loops in arbitrary order over
  hash sets, holds found through each task's `worker` field. Every method is proved to do
  exactly one step of the specification, followed by whatever the policy assigns.
*/
module CoordinatorObject {
  import opened ClusterTypes
  import opened TaskBooks
  import opened BookInvariants
  import opened BookSteps
  import opened StepShapes
  import opened MethodShapes
  import opened TaskChannels
  import opened CoordinatorRuns
  import opened PolicyQueues
  import opened QueueOrder
  import opened PolicyRuns
  import opened MethodSteps

  class Coordinator {
    var proofs: map<ProofId, Proof>
    var workers: map<WorkerId, Worker>
    var gpuWeights: map<ProofId, nat>
    var gpuBusyMs: nat
    var cpuQueue: seq<Key>
    var gpuQueues: map<ProofId, seq<Key>>
    var proofBorn: map<ProofId, nat>
    var ranks: map<TaskId, Rank>
    var nextFree: map<WorkerId, nat>
    var subscribers: map<SubId, ProofId>
    var taskChannels: map<TaskId, Channel>
    var receivers: map<RxId, Receiver>
    var entries: nat
    var now: nat
    var grants: seq<(Key, WorkerId)>  // numbers the attempts; nothing branches on it

    // Histories of what was ever queued, issued, released, run, credited, accepted, sent and buffered.
    ghost var tapes: map<nat, Tape>
    ghost var queued: multiset<Key>
    ghost var issued: map<TaskId, ProofId>
    ghost var releases: nat
    ghost var hooks: multiset<TaskId>
    ghost var credits: multiset<nat>
    ghost var accepted: set<(SubId, Key)>
    ghost var sent: set<(SubId, SubMessage)>
    ghost var missed: set<(SubId, Key)>

    ghost function BooksNow(): Books
      reads this`proofs, this`workers, this`queued, this`gpuWeights, this`gpuBusyMs, this`issued, this`grants,
            this`releases, this`hooks, this`credits
    {
      Books(proofs, workers, queued, NonZero(gpuWeights), gpuBusyMs, issued, grants, releases, hooks, credits)
    }

    ghost function DeskNow(): Desk
      reads this`subscribers, this`accepted, this`sent, this`missed
    {
      Desk(subscribers, accepted, {}, sent, missed)
    }

    ghost function StreamsNow(): Streams
      reads this`taskChannels, this`receivers, this`entries, this`tapes
    {
      Streams(taskChannels, receivers, entries, tapes)
    }

    ghost function State(): Cluster
      reads this
    {
      Cluster(BooksNow(), DeskNow(), StreamsNow(), now)
    }

    constructor ()
      ensures Valid() && State() == START
    {
      proofs, workers, gpuWeights, gpuBusyMs := map[], map[], map[], 0;
      cpuQueue, gpuQueues, queued := [], map[], multiset{};
      proofBorn, ranks, nextFree := map[], map[], map[];
      subscribers, taskChannels, receivers, entries, tapes, now := map[], map[], map[], 0, map[], 0;
      issued, grants, releases, hooks, credits := map[], [], 0, multiset{}, multiset{};
      accepted, sent, missed := {}, {}, {};
      new;
      StartGood();
    }

    /** Every queue is in the order of its tasks' ranks. */
    ghost predicate Ranked()
      reads this`ranks, this`cpuQueue, this`gpuQueues
    {
      RanksOk(ranks, cpuQueue, gpuQueues)
    }

    /** The books agree with each other and the policy's queues agree with the books. */
    ghost predicate InOrder()
      reads this
    {
      && BooksAgree(BooksNow())
      && QueuesOk(cpuQueue, gpuQueues, queued)
      && LanesOk(proofs, cpuQueue, gpuQueues)
      && Ranked()
    }

    ghost predicate Valid()
      reads this
    {
      && Good(State())
      && QueuesOk(cpuQueue, gpuQueues, queued)
      && LanesOk(proofs, cpuQueue, gpuQueues)
      && Ranked()
    }

    /** Nothing waits that some worker could take next. */
    ghost predicate NothingFits()
      reads this`proofs, this`workers, this`gpuWeights, this`cpuQueue, this`gpuQueues
    {
      && (gpuQueues != map[] ==> exists p :: StuckGpu(proofs, workers, gpuQueues, gpuWeights, p))
      && (cpuQueue != [] ==> NoRoom(proofs, workers, cpuQueue[0]))
    }

    // ---- the policy --------------------------------------------------------------------

    /** The proof with the least GPU weight running among those with GPU tasks waiting, the oldest among equals. */
    method FindNextBalanced() returns (best: ProofId)
      requires gpuQueues != map[]
      ensures best in gpuQueues
      ensures forall p :: p in gpuQueues ==> GpuLoad(gpuWeights, best) <= GpuLoad(gpuWeights, p)
      ensures forall p | p in gpuQueues && gpuQueues[p] != [] && gpuQueues[best] != [] ::
        GpuLoad(gpuWeights, best) < GpuLoad(gpuWeights, p)
        || RankOf(ranks, gpuQueues[best][0]).proofBorn <= RankOf(ranks, gpuQueues[p][0]).proofBorn
    {
      var todo := gpuQueues.Keys;
      best :| best in todo;
      todo := todo - {best};
      while todo != {}
        invariant todo <= gpuQueues.Keys && best in gpuQueues
        invariant forall p :: p in gpuQueues.Keys - todo ==> NoBetter(best, p)
        decreases todo
      {
        var p :| p in todo;
        var load, least := GpuLoad(gpuWeights, p), GpuLoad(gpuWeights, best);
        ghost var was := best;
        if load < least || (load == least && HeadBorn(ranks, gpuQueues[p]) < HeadBorn(ranks, gpuQueues[best])) {
          best := p;
        }
        forall q | q in gpuQueues.Keys - (todo - {p})
          ensures NoBetter(best, q)
        {
          assert q == p || NoBetter(was, q);
        }
        todo := todo - {p};
      }
      forall p | p in gpuQueues
        ensures GpuLoad(gpuWeights, best) <= GpuLoad(gpuWeights, p)
        ensures gpuQueues[p] != [] && gpuQueues[best] != [] ==>
          GpuLoad(gpuWeights, best) < GpuLoad(gpuWeights, p)
          || RankOf(ranks, gpuQueues[best][0]).proofBorn <= RankOf(ranks, gpuQueues[p][0]).proofBorn
      {
        assert NoBetter(best, p);
      }
    }

    /** A proof is at most as loaded as another, and at least as old if equally loaded. */
    predicate NoBetter(best: ProofId, p: ProofId)
      requires best in gpuQueues && p in gpuQueues
      reads this`gpuQueues, this`gpuWeights, this`ranks
    {
      || GpuLoad(gpuWeights, best) < GpuLoad(gpuWeights, p)
      || (&& GpuLoad(gpuWeights, best) == GpuLoad(gpuWeights, p)
          && HeadBorn(ranks, gpuQueues[best]) <= HeadBorn(ranks, gpuQueues[p]))
    }

    /** The worker with room that will be free soonest. */
    method FindWorker(lane: Lane, weight: nat) returns (found: Option<WorkerId>)
      ensures found.Some? ==> found.value in workers && Fits(workers[found.value], lane, weight)
      ensures found.Some? ==> Soonest(workers, nextFree, found.value, lane, weight)
      ensures found.None? ==> forall w :: w in workers ==> !Fits(workers[w], lane, weight)
      ensures found.Some? ==> var worker := workers[found.value];
        && !worker.closed && worker.weight + weight <= worker.maxWeight
        && (worker.kind == AllWorker || worker.kind == if lane == Gpu then GpuWorker else CpuWorker)
      ensures found.Some? <==> lane != NoLane && exists w ::
        && w in workers && !workers[w].closed && workers[w].weight + weight <= workers[w].maxWeight
        && (workers[w].kind == AllWorker || workers[w].kind == if lane == Gpu then GpuWorker else CpuWorker)
      ensures found.Some? ==> forall w ::
        && w in workers && !workers[w].closed && workers[w].weight + weight <= workers[w].maxWeight
        && (workers[w].kind == AllWorker || workers[w].kind == if lane == Gpu then GpuWorker else CpuWorker)
        ==> NextFree(nextFree, found.value) <= NextFree(nextFree, w)
    {
      found := None;
      var todo := workers.Keys;
      while todo != {}
        invariant todo <= workers.Keys
        invariant found.Some? ==> found.value in workers && Fits(workers[found.value], lane, weight)
        invariant found.Some? ==> forall w :: w in workers.Keys - todo && Fits(workers[w], lane, weight) ==>
          NextFree(nextFree, found.value) <= NextFree(nextFree, w)
        invariant found.None? ==> forall w :: w in workers.Keys - todo ==> !Fits(workers[w], lane, weight)
        decreases todo
      {
        var w :| w in todo;
        if Fits(workers[w], lane, weight) && (found.None? || NextFree(nextFree, w) < NextFree(nextFree, found.value)) {
          found := Some(w);
        }
        todo := todo - {w};
      }
    }

    /** Takes the head of its lane's queue off it: the task that goes before all others there. */
    method PopQueue(k: Key, lane: Lane)
      requires QueuesOk(cpuQueue, gpuQueues, queued) && LanesOk(proofs, cpuQueue, gpuQueues) && Ranked()
      requires AtHead(cpuQueue, gpuQueues, k, lane)
      modifies this`cpuQueue, this`gpuQueues, this`queued
      ensures QueuesOk(cpuQueue, gpuQueues, queued) && LanesOk(proofs, cpuQueue, gpuQueues) && Ranked()
      ensures k in old(queued) && queued == old(queued) - multiset{k}
      ensures lane.Cpu? ==> gpuQueues == old(gpuQueues) && NobodyBefore(ranks, old(cpuQueue), k)
      ensures lane.Gpu? ==> k.proof in old(gpuQueues) && NobodyBefore(ranks, old(gpuQueues)[k.proof], k)
    {
      hide QueuesOk, RanksOk, LanesOk;
      if lane.Cpu? {
        PopCpuOk(proofs, cpuQueue, gpuQueues, queued);
        PopRanked(ranks, cpuQueue, gpuQueues);
        HeadRanked(ranks, cpuQueue, gpuQueues, k);
        cpuQueue := cpuQueue[1..];
      } else {
        PopGpuOk(proofs, cpuQueue, gpuQueues, queued, k.proof);
        PopGpuRanked(ranks, cpuQueue, gpuQueues, k.proof);
        HeadRanked(ranks, cpuQueue, gpuQueues, k);
        var queue := gpuQueues[k.proof][1..];
        if queue == [] {
          gpuQueues := gpuQueues - {k.proof};
        } else {
          gpuQueues := gpuQueues[k.proof := queue];
        }
      }
      queued := queued - multiset{k};
    }

    /** Puts a task into its lane's queue, where its rank belongs; equals may stand in any order. */
    method EnqueueTask(k: Key)
      requires HasTask(proofs, k)
      requires QueuesOk(cpuQueue, gpuQueues, queued) && LanesOk(proofs, cpuQueue, gpuQueues) && Ranked()
      modifies this`cpuQueue, this`gpuQueues, this`queued
      ensures QueuesOk(cpuQueue, gpuQueues, queued) && LanesOk(proofs, cpuQueue, gpuQueues) && Ranked()
      ensures queued == old(queued) + Waiting(proofs, k)
    {
      hide QueuesOk, RanksOk, LanesOk;
      match TaskAt(proofs, k).lane
      case Cpu =>
        ghost var place := PlaceCpu(ranks, cpuQueue, gpuQueues, k);
        var at :| 0 <= at <= |cpuQueue| && FitsAt(ranks, cpuQueue, at, k);
        PushRanked(ranks, cpuQueue, gpuQueues, at, k);
        PushCpuOk(proofs, cpuQueue, gpuQueues, queued, at, k);
        cpuQueue := Insert(cpuQueue, at, k);
        queued := queued + multiset{k};
      case Gpu =>
        var queue := if k.proof in gpuQueues then gpuQueues[k.proof] else [];
        ghost var place := PlaceGpu(ranks, cpuQueue, gpuQueues, k);
        var at :| 0 <= at <= |queue| && FitsAt(ranks, queue, at, k);
        PushGpuRanked(ranks, cpuQueue, gpuQueues, at, k);
        PushGpuOk(proofs, cpuQueue, gpuQueues, queued, at, k);
        gpuQueues := gpuQueues[k.proof := Insert(queue, at, k)];
        queued := queued + multiset{k};
      case NoLane =>
    }

    /** Books the task as running on the worker: hold, weight, attempt and GPU charge. */
    method Grant(w: WorkerId, k: Key)
      requires HasTask(proofs, k) && w in workers
      modifies this`proofs, this`workers, this`nextFree, this`gpuWeights, this`grants
      ensures var granted := Granted(old(BooksNow()), w, k);
        && workers == granted.workers && proofs == granted.proofs && grants == granted.grants
        && NonZero(gpuWeights) == granted.gpuWeights
      ensures !TaskAt(old(proofs), k).lane.Gpu? ==> gpuWeights == old(gpuWeights)
      ensures NextFree(nextFree, w) == EstimateMs(TaskAt(old(proofs), k).ty) +
        if NextFree(old(nextFree), w) < 1000 * now then 1000 * now else NextFree(old(nextFree), w)
      ensures nextFree - {w} == old(nextFree) - {w}
    {
      hide NonZero;
      var task := TaskAt(proofs, k);
      var worker := workers[w];
      workers := workers[w := worker.(weight := worker.weight + task.weight, holds := worker.holds + {k})];
      var start := if NextFree(nextFree, w) < 1000 * now then 1000 * now else NextFree(nextFree, w);
      nextFree := nextFree[w := start + EstimateMs(task.ty)];
      var running := task.(worker := Some(w), status := Running,
                           attempts := task.attempts[w := Attempt(OnGpu(worker.kind), false, |grants|)]);
      proofs := PutTask(proofs, k, running, proofs[k.proof].activeTasks);
      grants := grants + [(k, w)];
      if task.lane.Gpu? {
        ChargeNonZero(gpuWeights, k.proof, task.weight);
        gpuWeights := gpuWeights[k.proof := GpuLoad(gpuWeights, k.proof) + task.weight];
      }
    }

    /** Takes the task off its queue and books it as running on the worker. */
    method PlaceOn(w: WorkerId, k: Key, ghost b: Books)
      requires InOrder() && b == BooksNow() && CanAssign(b, w, k)
      requires AtHead(cpuQueue, gpuQueues, k, TaskAt(proofs, k).lane)
      modifies this`proofs, this`workers, this`nextFree, this`gpuWeights, this`grants, this`cpuQueue,
               this`gpuQueues, this`queued
      ensures BooksNow() == Assign(b, w, k)
      ensures QueuesOk(cpuQueue, gpuQueues, queued) && LanesOk(b.proofs, cpuQueue, gpuQueues) && Ranked()
      ensures TaskAt(b.proofs, k).lane.Cpu? ==> gpuQueues == old(gpuQueues) && gpuWeights == old(gpuWeights)
    {
      hide QueuesOk, Ranked, LanesOk, BooksAgree, Granted, NonZero, Assign;
      AssignIsGrant(b, w, k);
      PopQueue(k, TaskAt(proofs, k).lane);
      GrantedFrame(BooksNow(), w, k);
      Grant(w, k);
    }

    /** Hands the task at the head of its queue to a worker with room for it, if there is one. */
    method AssignTask(k: Key) returns (placed: Option<WorkerId>)
      requires InOrder() && OpenTask(BooksNow(), k)
      requires AtHead(cpuQueue, gpuQueues, k, TaskAt(proofs, k).lane)
      modifies this`proofs, this`workers, this`nextFree, this`gpuWeights, this`grants, this`cpuQueue,
               this`gpuQueues, this`queued
      ensures InOrder()
      ensures placed.None? ==> BooksNow() == old(BooksNow()) && NoRoom(proofs, workers, k)
      ensures placed.None? ==> cpuQueue == old(cpuQueue) && gpuQueues == old(gpuQueues) && gpuWeights == old(gpuWeights)
      ensures placed.Some? ==> CanAssign(old(BooksNow()), placed.value, k)
      ensures placed.Some? ==>
        Soonest(old(workers), old(nextFree), placed.value, TaskAt(old(proofs), k).lane, TaskAt(old(proofs), k).weight)
      ensures placed.Some? ==> BooksNow() == Assign(old(BooksNow()), placed.value, k)
      ensures placed.Some? && TaskAt(old(proofs), k).lane.Cpu? ==>
        gpuQueues == old(gpuQueues) && gpuWeights == old(gpuWeights)
    {
      hide QueuesOk, Ranked, LanesOk, BooksAgree, NonZero, LanesKept, CanAssign, Assign;
      ghost var b := BooksNow();
      var task := TaskAt(proofs, k);
      placed := FindWorker(task.lane, task.weight);
      if placed.None? {
        return;
      }
      PopQueued(proofs, cpuQueue, gpuQueues, queued, k, task.lane);
      PlacedFits(b, placed.value, k);
      PlaceOn(placed.value, k, b);
      PlacedKeeps(b, placed.value, k, cpuQueue, gpuQueues);
    }

    /** Drops a queued task that is gone or already final. */
    method DiscardHead(k: Key, lane: Lane)
      requires InOrder() && !OpenTask(BooksNow(), k) && AtHead(cpuQueue, gpuQueues, k, lane)
      modifies this`cpuQueue, this`gpuQueues, this`queued
      ensures InOrder()
      ensures CanDiscard(old(BooksNow()), k) && |queued| < |old(queued)|
      ensures BooksNow() == Discard(old(BooksNow()), k)
      ensures lane.Cpu? ==> gpuQueues == old(gpuQueues)
    {
      hide QueuesOk, Ranked, LanesOk, BooksAgree;
      PopQueue(k, lane);
      DiscardKeeps(old(BooksNow()), k);
    }

    /** One turn of either assignment loop, on the task at the head of a queue. */
    method AssignHead(k: Key, lane: Lane, ghost b: Books, ghost acts: seq<Call>)
      returns (moved: bool, ghost more: seq<Call>)
      requires InOrder() && AtHead(cpuQueue, gpuQueues, k, lane)
      requires HasTask(proofs, k) ==> TaskAt(proofs, k).lane == lane
      requires Schedule(b, acts) == Some(BooksNow())
      modifies this`proofs, this`workers, this`nextFree, this`gpuWeights, this`grants, this`cpuQueue,
               this`gpuQueues, this`queued
      ensures InOrder() && Schedule(b, more) == Some(BooksNow())
      ensures moved ==> |queued| < |old(queued)|
      ensures !moved ==> BooksNow() == old(BooksNow()) && NoRoom(proofs, workers, k)
      ensures !moved ==> cpuQueue == old(cpuQueue) && gpuQueues == old(gpuQueues) && gpuWeights == old(gpuWeights)
      ensures lane.Cpu? ==> gpuQueues == old(gpuQueues) && gpuWeights == old(gpuWeights)
      ensures NoRoomKept(old(proofs), old(workers), proofs, workers, k)
    {
      hide BooksAgree, QueuesOk, Ranked, LanesOk, NoRoom, Assign, Discard, CanAssign, CanDiscard, NonZero, NoRoomKept;
      ghost var mid := BooksNow();
      NoRoomSame(proofs, workers, k);
      if !HasTask(proofs, k) || Terminal(TaskAt(proofs, k).status) {
        DiscardHead(k, lane);
        DiscardFrame(mid, k);
        ScheduleMore(b, acts, PolicyDiscard(k));
        return true, acts + [PolicyDiscard(k)];
      }
      var placed := AssignTask(k);
      if placed.None? {
        return false, acts;
      }
      AssignFrame(mid, placed.value, k);
      NoRoomStays(mid, placed.value, k);
      ScheduleMore(b, acts, PolicyAssign(placed.value, k));
      return true, acts + [PolicyAssign(placed.value, k)];
    }

    method AssignGpuTasks(ghost b: Books) returns (ghost acts: seq<Call>, ghost stuck: ProofId)
      requires InOrder() && b == BooksNow()
      modifies this`proofs, this`workers, this`nextFree, this`gpuWeights, this`grants, this`cpuQueue,
               this`gpuQueues, this`queued
      ensures InOrder() && Schedule(b, acts) == Some(BooksNow())
      ensures gpuQueues != map[] ==> StuckGpu(proofs, workers, gpuQueues, gpuWeights, stuck)
    {
      hide BooksAgree, QueuesOk, Ranked, LanesOk, NoRoom, NonZero, NoRoomKept, Schedule;
      ScheduleNone(b);
      acts, stuck := [], 0;
      var moved := true;
      while gpuQueues != map[] && moved
        invariant InOrder() && Schedule(b, acts) == Some(BooksNow())
        invariant !moved ==> StuckGpu(proofs, workers, gpuQueues, gpuWeights, stuck)
        decreases |queued|, moved
      {
        var p := FindNextBalanced();
        HeadInPlace(proofs, cpuQueue, gpuQueues, queued, p);
        moved, acts := AssignHead(gpuQueues[p][0], Gpu, b, acts);
        stuck := p;
      }
    }

    method AssignCpuTasks(ghost b: Books, ghost acts: seq<Call>, ghost stuck: ProofId) returns (ghost more: seq<Call>)
      requires InOrder() && Schedule(b, acts) == Some(BooksNow())
      requires gpuQueues != map[] ==> StuckGpu(proofs, workers, gpuQueues, gpuWeights, stuck)
      modifies this`proofs, this`workers, this`nextFree, this`gpuWeights, this`grants, this`cpuQueue,
               this`gpuQueues, this`queued
      ensures InOrder() && Schedule(b, more) == Some(BooksNow())
      ensures gpuQueues != map[] ==> StuckGpu(proofs, workers, gpuQueues, gpuWeights, stuck)
      ensures cpuQueue != [] ==> NoRoom(proofs, workers, cpuQueue[0])
    {
      hide BooksAgree, QueuesOk, Ranked, LanesOk, NoRoom, NonZero, NoRoomKept, Schedule, StuckGpu;
      more := acts;
      var moved := true;
      while cpuQueue != [] && moved
        invariant InOrder() && Schedule(b, more) == Some(BooksNow())
        invariant gpuQueues != map[] ==> StuckGpu(proofs, workers, gpuQueues, gpuWeights, stuck)
        invariant !moved ==> cpuQueue != [] && NoRoom(proofs, workers, cpuQueue[0])
        decreases |queued|, moved
      {
        ghost var ps, ws, k := proofs, workers, cpuQueue[0];
        CpuHeadInPlace(proofs, cpuQueue, gpuQueues);
        moved, more := AssignHead(cpuQueue[0], Cpu, b, more);
        if gpuQueues != map[] {
          StuckStays(ps, ws, proofs, workers, gpuQueues, gpuWeights, stuck, k);
        }
      }
    }

    /**
      `assign_tasks`: GPU tasks of the least loaded proof first, then CPU tasks. It terminates,
      makes only legal assignments, and leaves a queue waiting only when its next task fits no worker.
    */
    method AssignTasks() returns (ghost acts: seq<Call>)
      requires InOrder()
      modifies this`proofs, this`workers, this`nextFree, this`gpuWeights, this`grants, this`cpuQueue,
               this`gpuQueues, this`queued
      ensures InOrder()
      ensures Schedule(old(BooksNow()), acts) == Some(BooksNow())
      ensures NothingFits()
    {
      hide BooksAgree, QueuesOk, Ranked, LanesOk, NoRoom, NonZero, Schedule, StuckGpu;
      ghost var b := BooksNow();
      ghost var stuck;
      acts, stuck := AssignGpuTasks(b);
      acts := AssignCpuTasks(b, acts, stuck);
    }

    method AssignIf(assign: bool) returns (ghost acts: seq<Call>)
      requires InOrder()
      modifies this`proofs, this`workers, this`nextFree, this`gpuWeights, this`grants, this`cpuQueue,
               this`gpuQueues, this`queued
      ensures InOrder() && (assign ==> NothingFits())
      ensures Schedule(old(BooksNow()), acts) == Some(BooksNow())
    {
      hide Schedule, InOrder, NothingFits, NonZero;
      ScheduleNone(BooksNow());
      acts := [];
      if assign {
        acts := AssignTasks();
      }
    }

    /** Ends a call whose books are done by assigning what it freed or queued. */
    method AssignAfter(ghost c: Cluster, ghost call: Call) returns (ghost acts: seq<Call>)
      requires Good(c) && Does(c, call, State())
      requires QueuesOk(cpuQueue, gpuQueues, queued) && LanesOk(proofs, cpuQueue, gpuQueues) && Ranked()
      modifies this`proofs, this`workers, this`nextFree, this`gpuWeights, this`grants, this`cpuQueue,
               this`gpuQueues, this`queued
      ensures Valid() && NothingFits()
      ensures Performs(c, call, acts, State())
    {
      hide Good, BooksAgree, QueuesOk, Ranked, LanesOk, Does, Schedule, Performs, NothingFits, NonZero;
      ghost var mid := State();
      DoesGood(c, call, mid);
      acts := AssignTasks();
      Performed(c, call, mid, acts, State());
    }

    /** `post_task_update_state` of the balanced policy. */
    method PolicyRelease(p: ProofId, lane: Lane, weight: nat)
      modifies this`gpuWeights, this`releases
      ensures releases == old(releases) + 1
      ensures NonZero(gpuWeights) ==
        if lane.Gpu? then Debit(old(NonZero(gpuWeights)), p, weight) else old(NonZero(gpuWeights))
      ensures p !in old(gpuWeights) ==> gpuWeights == old(gpuWeights)
    {
      releases := releases + 1;
      if lane.Gpu? && p in gpuWeights {
        var left := SatSub(gpuWeights[p], weight);
        gpuWeights := gpuWeights[p := left];
        if left == 0 {
          gpuWeights := gpuWeights - {p};
        }
      }
    }

    /** A worker gives up one held task; `post_worker_empty` also resets an idle worker's weight. */
    method RemoveHold(w: WorkerId, k: Key, weight: nat, reset: bool, ghost ps: map<ProofId, Proof>)
      requires w in workers && k in workers[w].holds && weight == WeightAt(ps, k)
      requires workers[w].weight == Weigh(ps, workers[w].holds)
      modifies this`workers, this`nextFree
      ensures workers == old(workers)[w := Left(ps, old(workers)[w], old(workers)[w].holds - {k})]
      ensures Holds(workers) == Holds(old(workers)) - {(w, k)} && (w, k) in Holds(old(workers))
      ensures nextFree == if reset && old(workers)[w].holds == {k} then old(nextFree)[w := 0] else old(nextFree)
    {
      var worker := workers[w];
      WeighRemove(ps, worker.holds, k);
      worker := worker.(holds := worker.holds - {k}, weight := SatSub(worker.weight, weight));
      if reset && worker.holds == {} {
        worker := worker.(weight := 0);
        nextFree := nextFree[w := 0];
      }
      workers := workers[w := worker];
      assert Holds(workers) == Holds(old(workers)) - {(w, k)};
    }

    /** One turn of `release_remaining_assignments`: the holder named by task `t`, if it still holds it. */
    method ReleaseOne(proof: Proof, p: ProofId, t: TaskId, skip: Option<(WorkerId, TaskId)>,
                      ghost ps: map<ProofId, Proof>)
      returns (released: bool)
      requires p !in gpuWeights && t in proof.tasks && p in ps && ps[p] == proof
      requires ExactWeights(ps, workers)
      modifies this`workers, this`nextFree, this`releases, this`gpuWeights
      ensures gpuWeights == old(gpuWeights)
      ensures workers == AfterRelease(ps, old(workers), proof, p, t, skip)
      ensures if released then releases > old(releases) else releases == old(releases)
      ensures releases + |Holds(workers)| == old(releases) + |Holds(old(workers))|
    {
      hide Weigh, NonZero, Holds, ExactWeights;
      ExactAt(ps, workers);
      var task := proof.tasks[t];
      if task.worker.None? {
        return false;
      }
      var owner := task.worker.value;
      if Some((owner, t)) == skip {
        return false;
      }
      if owner !in workers || Key(p, t) !in workers[owner].holds {
        return false;
      }
      RemoveHold(owner, Key(p, t), task.weight, true, ps);
      PolicyRelease(p, task.lane, task.weight);
      released := true;
    }

    /** Releases every hold on a removed proof's tasks, found through each task's `worker`. */
    method ReleaseRemaining(proof: Proof, p: ProofId, skip: Option<(WorkerId, TaskId)>, ghost ps: map<ProofId, Proof>)
      returns (released: bool)
      requires p !in gpuWeights && p in ps && ps[p] == proof
      requires ExactWeights(ps, workers) && PointsBack(workers, proof, p)
      modifies this`workers, this`nextFree, this`releases, this`gpuWeights
      ensures gpuWeights == old(gpuWeights)
      ensures SparedSoFar(ps, old(workers), workers, p, skip, {})
      ensures if released then releases > old(releases) else releases == old(releases)
      ensures releases + |Holds(workers)| == old(releases) + |Holds(old(workers))|
    {
      hide Weigh;
      released := false;
      var todo := proof.tasks.Keys;
      assert forall v :: v in workers ==> Spared(workers[v].holds, p, v, skip, todo) == workers[v].holds;
      while todo != {}
        invariant todo <= proof.tasks.Keys
        invariant gpuWeights == old(gpuWeights)
        invariant SparedSoFar(ps, old(workers), workers, p, skip, todo)
        invariant if released then releases > old(releases) else releases == old(releases)
        invariant releases + |Holds(workers)| == old(releases) + |Holds(old(workers))|
        decreases todo
      {
        var t :| t in todo;
        ghost var before := workers;
        var one := ReleaseOne(proof, p, t, skip, ps);
        released := released || one;
        SpareStep(ps, old(workers), before, proof, p, skip, todo, t);
        todo := todo - {t};
      }
    }

    method CloseTaskChannel(t: TaskId)
      modifies this`taskChannels, this`receivers
      ensures StreamsNow() == Close(old(StreamsNow()), t, now)
    {
      if t in taskChannels {
        var chan := taskChannels[t];
        if chan.closed {
          return;
        }
        receivers := Deliver(receivers, chan.listeners, EndOfStream);
        taskChannels := taskChannels[t := chan.(closed := true, closedAt := now, listeners := {})];
      }
    }

    method NotifySubscribers(who: set<SubId>, k: Key, status: TaskStatus)
      modifies this`sent, this`missed
      ensures DeskNow() ==
        Notify(old(DeskNow()), Notices(who, k), status)
      ensures forall x :: x in who ==> if x in subscribers then (x, TaskResult(k.task, status)) in sent else (x, k) in missed
    {
      hide Notify;
      var todo := who;
      while todo != {}
        invariant todo <= who
        invariant sent == old(sent) + set x | x in who - todo && x in subscribers :: (x, TaskResult(k.task, status))
        invariant missed == old(missed) + set x | x in who - todo && x !in subscribers :: (x, k)
        decreases todo
      {
        var s :| s in todo;
        if s in subscribers {
          sent := sent + {(s, TaskResult(k.task, status))};
        } else {
          missed := missed + {(s, k)};
        }
        todo := todo - {s};
      }
      assert who - todo == who;
      NotifyTask(old(DeskNow()), who, k, status);
    }

    /** Removes a finished or failed proof and releases what other workers still hold of it. */
    method RemoveProof(p: ProofId, skip: Option<(WorkerId, TaskId)>) returns (released: bool)
      requires p in proofs && ExactWeights(proofs, workers) && PointsBack(workers, proofs[p], p)
      modifies this`proofs, this`workers, this`nextFree, this`gpuWeights, this`releases
      ensures proofs == old(proofs) - {p}
      ensures SparedSoFar(old(proofs), old(workers), workers, p, skip, {})
      ensures if released then releases > old(releases) else releases == old(releases)
      ensures releases + |Holds(workers)| == old(releases) + |Holds(old(workers))|
      ensures NonZero(gpuWeights) == old(NonZero(gpuWeights)) - {p}
    {
      hide Weigh, PointsBack;
      ghost var ps := proofs;
      var proof := proofs[p];
      gpuWeights := gpuWeights - {p};
      proofs := proofs - {p};
      released := ReleaseRemaining(proof, p, skip, ps);
    }

    /** The tail of `complete_task`: drop a finished proof, then release the reporter's own hold. */
    method SettleReport(w: WorkerId, k: Key, drop: bool, ghost b: Books) returns (freed: bool)
      requires HasTask(proofs, k) && HasTask(b.proofs, k)
      requires TaskAt(proofs, k).weight == WeightAt(b.proofs, k) && TaskAt(proofs, k).lane == TaskAt(b.proofs, k).lane
      requires workers == b.workers && NonZero(gpuWeights) == b.gpuWeights
      requires ExactWeights(proofs, workers) && PointsBack(workers, proofs[k.proof], k.proof)
      modifies this`proofs, this`workers, this`nextFree, this`gpuWeights, this`releases
      ensures proofs == if drop then old(proofs) - {k.proof} else old(proofs)
      ensures KeptBy(old(proofs), b, workers, w, k, drop)
      ensures releases + |Holds(workers)| == old(releases) + |Holds(b.workers)|
      ensures if freed then releases > old(releases) else releases == old(releases)
      ensures NonZero(gpuWeights) == GpuLeft(b, w, k, drop)
    {
      hide Weigh, ExactWeights, PointsBack, SparedSoFar, KeptBy, Holds, NonZero;
      ghost var ps := proofs;
      var task := TaskAt(proofs, k);
      freed := false;
      if drop {
        freed := RemoveProof(k.proof, Some((w, k.task)));
      }
      SettledHolds(b, ps, w, k, drop, workers);
      if w in workers && k in workers[w].holds {
        PolicyRelease(k.proof, task.lane, task.weight);
        RemoveHold(w, k, task.weight, true, ps);
        freed := true;
      }
    }

    /** The first report for a worker's recorded attempt adds its GPU time. */
    method CreditGpuTime(task: Task, w: WorkerId, gpuMs: nat) returns (credited: Task)
      modifies this`gpuBusyMs, this`credits
      ensures credited == if Uncredited(task, w)
        then task.(attempts := task.attempts[w := task.attempts[w].(credited := true)]) else task
      ensures gpuBusyMs == if Uncredited(task, w) && task.attempts[w].onGpu
        then SatAdd64(old(gpuBusyMs), gpuMs) else old(gpuBusyMs)
      ensures credits == if Uncredited(task, w) && task.attempts[w].onGpu
        then old(credits) + multiset{task.attempts[w].serial} else old(credits)
    {
      credited := task;
      if w in task.attempts && !task.attempts[w].credited {
        credited := task.(attempts := task.attempts[w := task.attempts[w].(credited := true)]);
        if task.attempts[w].onGpu {
          gpuBusyMs := SatAdd64(gpuBusyMs, gpuMs);
          credits := credits + multiset{task.attempts[w].serial};
        }
      }
    }

    /** The part of `complete_task` on the task itself: GPU time, count, hook and status. */
    method RecordSuccess(w: WorkerId, k: Key, gpuMs: nat) returns (notify: set<SubId>)
      requires HasTask(proofs, k)
      modifies this`proofs, this`gpuBusyMs, this`hooks, this`credits
      ensures var marked := MarkSucceeded(old(BooksNow()), w, k, gpuMs);
        proofs == marked.proofs && gpuBusyMs == marked.gpuBusyMs && hooks == marked.hooks && credits == marked.credits
      ensures notify == if TaskAt(old(proofs), k).status.Succeeded? then {} else TaskAt(old(proofs), k).subscribers
    {
      hide NonZero;
      notify := {};
      var proof := proofs[k.proof];
      var task := proof.tasks[k.task];
      task := CreditGpuTime(task, w, gpuMs);
      hide SatAdd64, Uncredited;
      var active := proof.activeTasks;
      if !task.status.Succeeded? {
        active := if task.status.FailedFatal? then active else active - 1;
        notify := task.subscribers;
        task := task.(subscribers := {});
        hooks := hooks + multiset{k.task};
      }
      task := task.(status := Succeeded);
      proofs := proofs[k.proof := Proof(proof.tasks[k.task := task], active)];
    }

    method CompleteKnownTask(w: WorkerId, k: Key, gpuMs: nat) returns (notify: set<SubId>, freed: bool)
      requires BooksAgree(BooksNow()) && HasTask(proofs, k)
      modifies this`proofs, this`workers, this`nextFree, this`gpuWeights, this`gpuBusyMs, this`releases,
               this`hooks, this`credits,
               this`taskChannels, this`receivers
      ensures BooksNow() == Complete(old(BooksNow()), w, k, gpuMs)
      ensures StreamsNow() == Close(old(StreamsNow()), k.task, now)
      ensures notify == if TaskAt(old(proofs), k).status.Succeeded? then {} else TaskAt(old(proofs), k).subscribers
      ensures if freed then releases > old(releases) else releases == old(releases)
    {
      hide Weigh, BooksAgree, Complete, MarkSucceeded, KeptBy, GpuLeft, PointsBack, ExactWeights, Close, Holds,
           NonZero, StreamsNow;
      ghost var b := BooksNow();
      MarkedTask(b, w, k, gpuMs);
      notify := RecordSuccess(w, k, gpuMs);
      var drop := proofs[k.proof].activeTasks == 0;
      CloseTaskChannel(k.task);
      CompletedReady(b, w, k, gpuMs);
      freed := SettleReport(w, k, drop, b);
      CompleteIs(b, w, k, gpuMs, BooksNow());
    }

    /** `complete_task` up to the point where freed capacity is assigned again. */
    method CompleteTaskBooks(w: WorkerId, k: Key, gpuMs: nat) returns (reply: Reply, notify: set<SubId>, freed: bool)
      requires BooksAgree(BooksNow())
      modifies this`proofs, this`workers, this`nextFree, this`gpuWeights, this`gpuBusyMs, this`releases,
               this`hooks, this`credits,
               this`taskChannels, this`receivers
      ensures reply == if HasTask(old(proofs), k) then Done else NotFound
      ensures BooksNow() == Complete(old(BooksNow()), w, k, gpuMs)
      ensures StreamsNow() == if HasTask(old(proofs), k) then Close(old(StreamsNow()), k.task, now) else old(StreamsNow())
      ensures notify == if HasTask(old(proofs), k) && !TaskAt(old(proofs), k).status.Succeeded?
                        then TaskAt(old(proofs), k).subscribers else {}
      ensures if freed then releases > old(releases) else releases == old(releases)
    {
      hide Weigh, BooksAgree, Complete, Close, NonZero;
      if k.proof !in proofs || k.task !in proofs[k.proof].tasks {
        CompleteMissing(BooksNow(), w, k, gpuMs);
        return NotFound, {}, false;
      }
      notify, freed := CompleteKnownTask(w, k, gpuMs);
      reply := Done;
    }

    /** Ends a call that still owes a task's subscribers their notice: assign first, then notify. */
    method AssignAndNotify(assign: bool, who: set<SubId>, k: Key, status: TaskStatus,
                           ghost c: Cluster, ghost call: Call, ghost all: set<(SubId, Key)>)
      returns (ghost acts: seq<Call>)
      requires Good(c) && Does(c, call, State().(desk := Announce(c.desk, all, status))) && c.desk.due == {}
      requires Notify(DeskNow(), Notices(who, k), status) == Notify(c.desk, all, status)
      requires QueuesOk(cpuQueue, gpuQueues, queued) && LanesOk(proofs, cpuQueue, gpuQueues) && Ranked()
      modifies this`proofs, this`workers, this`nextFree, this`gpuWeights, this`grants, this`cpuQueue,
               this`gpuQueues, this`queued,
               this`sent, this`missed
      ensures Valid() && (assign ==> NothingFits())
      ensures Performs(c, call, acts, State())
    {
      hide Good, BooksAgree, QueuesOk, Ranked, LanesOk, Does, Schedule, Performs, NothingFits, NonZero, Notify,
           Notices, Announce;
      ghost var mid := State().(desk := Announce(c.desk, all, status));
      DoesGood(c, call, mid);
      acts := AssignIf(assign);
      NotifySubscribers(who, k, status);
      acts := PerformedAndTold(c, call, mid, acts, c.desk, all, status, State());
    }

    /** `complete_task`. */
    method CompleteTask(w: WorkerId, k: Key, gpuMs: nat) returns (reply: Reply, ghost acts: seq<Call>)
      requires Valid()
      modifies this
      ensures Valid()
      ensures reply == if HasTask(old(proofs), k) then Done else NotFound
      ensures Performs(old(State()), Call.CompleteTask(w, k, gpuMs), acts, State())
      ensures releases > old(releases) ==> NothingFits()
    {
      hide Good, BooksAgree, QueuesOk, Ranked, LanesOk, Complete, Close, Does, Performs, NothingFits, NonZero,
           Notify, Notices, Announce;
      ghost var c := State();
      ghost var call := Call.CompleteTask(w, k, gpuMs);
      GoodBooks(c);
      var notify, freed;
      reply, notify, freed := CompleteTaskBooks(w, k, gpuMs);
      CompleteStep(c, w, k, gpuMs, notify);
      NewLanes(c, call, State().(desk := Announce(c.desk, Notices(notify, k), Succeeded)), cpuQueue, gpuQueues);
      acts := AssignAndNotify(freed, notify, k, Succeeded, c, call, Notices(notify, k));
    }

    // ---- failures ----------------------------------------------------------------------

    /** Tells every task's subscribers that it has failed for good. */
    method AnnounceFailure(proof: Proof, p: ProofId)
      modifies this`sent, this`missed
      ensures DeskNow() ==
        Notify(old(DeskNow()), NoticesOf(proof, p, proof.tasks.Keys), FailedFatal)
    {
      hide Notify;
      ghost var desk := DeskNow();
      var todo := proof.tasks.Keys;
      NotifyNone(desk, FailedFatal);
      assert proof.tasks.Keys - todo == {} && NoticesOf(proof, p, {}) == {};
      while todo != {}
        invariant todo <= proof.tasks.Keys
        invariant DeskNow() ==
          Notify(desk, NoticesOf(proof, p, proof.tasks.Keys - todo), FailedFatal)
        decreases todo
      {
        var t :| t in todo;
        NotifyMore(desk, proof, p, proof.tasks.Keys - todo, t);
        NotifySubscribers(proof.tasks[t].subscribers, Key(p, t), FailedFatal);
        assert proof.tasks.Keys - todo + {t} == proof.tasks.Keys - (todo - {t});
        todo := todo - {t};
      }
      assert proof.tasks.Keys - todo == proof.tasks.Keys;
    }

    method CloseTaskChannels(ts: set<TaskId>)
      requires StreamsSound(StreamsNow())
      modifies this`taskChannels, this`receivers
      ensures StreamsNow() == CloseAll(old(StreamsNow()), ts, now)
    {
      hide CloseAll, Close, StreamsSound;
      ghost var st := StreamsNow();
      var todo := ts;
      CloseNone(st, now);
      assert ts - todo == {};
      while todo != {}
        invariant todo <= ts
        invariant StreamsNow() == CloseAll(st, ts - todo, now)
        decreases todo
      {
        var t :| t in todo;
        CloseMore(st, ts - todo, t, now);
        CloseTaskChannel(t);
        assert ts - todo + {t} == ts - (todo - {t});
        todo := todo - {t};
      }
      assert ts - todo == ts;
    }

    /** Takes a proof down: tells every subscriber, releases its holds but the skipped one, closes its channels. */
    method TearDown(p: ProofId, skip: Option<(WorkerId, TaskId)>)
      requires p in proofs && ExactWeights(proofs, workers) && PointsBack(workers, proofs[p], p)
      requires StreamsSound(StreamsNow())
      modifies this`proofs, this`workers, this`nextFree, this`gpuWeights, this`releases, this`taskChannels,
               this`receivers,
               this`sent, this`missed
      ensures proofs == old(proofs) - {p}
      ensures SparedSoFar(old(proofs), old(workers), workers, p, skip, {})
      ensures releases + |Holds(workers)| == old(releases) + |Holds(old(workers))| && releases >= old(releases)
      ensures NonZero(gpuWeights) == old(NonZero(gpuWeights)) - {p}
      ensures StreamsNow() == CloseAll(old(StreamsNow()), old(proofs)[p].tasks.Keys, now)
      ensures DeskNow() == Notify(old(DeskNow()), ProofNotices(old(proofs), p), FailedFatal)
    {
      hide Weigh, NonZero, ExactWeights, PointsBack, StreamsSound, SparedSoFar, Holds, Notify, CloseAll;
      var proof := proofs[p];
      assert NoticesOf(proof, p, proof.tasks.Keys) == ProofNotices(proofs, p);
      AnnounceFailure(proof, p);
      var _ := RemoveProof(p, skip);
      CloseTaskChannels(proof.tasks.Keys);
    }

    /** `fail_proof_internal`. The caller settles the hold named by `skip` itself. */
    method FailProofInternal(p: ProofId, blamed: Option<TaskId>, skip: Option<(WorkerId, TaskId)>)
      returns (reply: Reply)
      requires ExactWeights(proofs, workers) && (p in proofs ==> PointsBack(workers, proofs[p], p))
      requires p !in proofs ==> p !in NonZero(gpuWeights)
      requires StreamsSound(StreamsNow())
      modifies this`proofs, this`workers, this`nextFree, this`gpuWeights, this`releases, this`taskChannels,
               this`receivers,
               this`sent, this`missed
      ensures reply == FailProofReply(old(BooksNow()), p, blamed)
      ensures reply == NotFound <==> p in old(proofs) && blamed.Some? && blamed.value !in old(proofs)[p].tasks
      ensures reply == Done || reply == NotFound
      ensures !ProofFails(old(BooksNow()), p, blamed) ==>
        BooksNow() == old(BooksNow()) && StreamsNow() == old(StreamsNow()) && DeskNow() == old(DeskNow())
      ensures ProofFails(old(BooksNow()), p, blamed) ==>
        && proofs == old(proofs) - {p}
        && SparedSoFar(old(proofs), old(workers), workers, p, skip, {})
        && releases + |Holds(workers)| == old(releases) + |Holds(old(workers))|
        && releases >= old(releases)
        && NonZero(gpuWeights) == old(NonZero(gpuWeights)) - {p}
        && StreamsNow() == CloseAll(old(StreamsNow()), old(proofs)[p].tasks.Keys, now)
        && DeskNow() == Notify(old(DeskNow()), ProofNotices(old(proofs), p), FailedFatal)
    {
      hide Weigh, ExactWeights, PointsBack, StreamsSound, SparedSoFar, Holds, Notify, CloseAll, ProofNotices;
      if blamed.Some? && p in proofs {
        if blamed.value !in proofs[p].tasks {
          return NotFound;
        }
        if proofs[p].tasks[blamed.value].status.Succeeded? {
          return Done;
        }
      }
      if p in proofs {
        TearDown(p, skip);
      } else {
        gpuWeights := gpuWeights - {p};
      }
      reply := Done;
    }

    /** `fail_proof`; freed capacity waits for the next call that assigns. */
    method FailProof(p: ProofId, blamed: Option<TaskId>) returns (reply: Reply, ghost acts: seq<Call>)
      requires Valid()
      modifies this
      ensures Valid()
      ensures reply == FailProofReply(old(BooksNow()), p, blamed)
      ensures reply == NotFound <==> p in old(proofs) && blamed.Some? && blamed.value !in old(proofs)[p].tasks
      ensures reply == Done || reply == NotFound
      ensures Performs(old(State()), FailProofCall(p, blamed), acts, State())
    {
      hide Good, BooksAgree, StreamsSound, QueuesOk, Ranked, LanesOk, ExactWeights, PointsBack, SparedSoFar,
           Holds, NonZero;
      hide Notify, Announce, CloseAll, ProofNotices, DropProof, Does, Performs, ProofFails, Schedule;
      ghost var c := State();
      ghost var call := FailProofCall(p, blamed);
      GoodBooks(c);
      GoodStreams(c);
      AgreeReady(c.books, p);
      FailProofStep(c, p, blamed);
      reply := FailProofInternal(p, blamed, None);
      if ProofFails(c.books, p, blamed) {
        ProofFailsHere(c.books, p, blamed);
        FailProofIs(c.books, p, BooksNow());
        ghost var mid := State().(desk := Announce(c.desk, ProofNotices(c.books.proofs, p), FailedFatal));
        NewLanes(c, call, mid, cpuQueue, gpuQueues);
        ScheduleNone(mid.books);
        acts := PerformedAndTold(c, call, mid, [], c.desk, ProofNotices(c.books.proofs, p), FailedFatal, State());
      } else {
        PerformedAlone(c, call, c);
        acts := [];
      }
    }

    /** Counts the failure against the task: retry it, or give it up for good. */
    method RecordFailure(k: Key, retryable: bool) returns (status: TaskStatus)
      requires HasTask(proofs, k)
      modifies this`proofs
      ensures proofs == MarkFailed(old(BooksNow()), k, retryable).proofs
      ensures status == FailedStatus(TaskAt(old(proofs), k), retryable)
      ensures HasTask(proofs, k) && TaskAt(proofs, k).status == status
      ensures var was := TaskAt(old(proofs), k);
        && (retryable && was.retries < 3 ==> status == FailedRetryable && TaskAt(proofs, k).retries == was.retries + 1)
        && (!retryable || was.retries == 3 ==> status == FailedFatal && TaskAt(proofs, k).retries == was.retries)
        && proofs[k.proof].activeTasks - old(proofs)[k.proof].activeTasks ==
             if status == FailedFatal && was.status != FailedFatal then -1 else 0
    {
      var proof := proofs[k.proof];
      var task := proof.tasks[k.task];
      var active := proof.activeTasks;
      if retryable {
        if task.retries == MAX_TASK_RETRIES {
          if !task.status.FailedFatal? {
            active := active - 1;
          }
          status := FailedFatal;
        } else {
          task := task.(retries := task.retries + 1);
          status := FailedRetryable;
        }
      } else {
        if !task.status.FailedFatal? {
          active := active - 1;
        }
        status := FailedFatal;
      }
      task := task.(status := status);
      proofs := proofs[k.proof := Proof(proof.tasks[k.task := task], active)];
    }

    /** The reporter's own hold, which the caller knows it has, is released. */
    method ReleaseReporter(w: WorkerId, k: Key, task: Task, drop: bool, reset: bool, ghost b: Books,
                           ghost ps: map<ProofId, Proof>)
      requires HasTask(b.proofs, k) && Holding(b.workers, w, k) && ExactWeights(ps, b.workers)
      requires task.weight == WeightAt(ps, k) == WeightAt(b.proofs, k) && task.lane == TaskAt(b.proofs, k).lane
      requires if drop then SparedSoFar(ps, b.workers, workers, k.proof, Some((w, k.task)), {}) else workers == b.workers
      requires NonZero(gpuWeights) == if drop then b.gpuWeights - {k.proof} else b.gpuWeights
      modifies this`workers, this`nextFree, this`gpuWeights, this`releases
      ensures KeptBy(ps, b, workers, w, k, drop)
      ensures releases + |Holds(workers)| == old(releases) + |Holds(old(workers))|
      ensures releases > old(releases)
      ensures NonZero(gpuWeights) == GpuLeft(b, w, k, drop)
    {
      hide Weigh, ExactWeights, SparedSoFar, KeptBy, Holds, NonZero;
      SettledHolds(b, ps, w, k, drop, workers);
      PolicyRelease(k.proof, task.lane, task.weight);
      RemoveHold(w, k, task.weight, reset, ps);
    }

    /** Removes the proof when its last live task failed, or fails it with its controller. */
    method DropFailed(w: WorkerId, k: Key, manual: bool) returns (drop: bool)
      requires HasTask(proofs, k) && ExactWeights(proofs, workers) && PointsBack(workers, proofs[k.proof], k.proof)
      requires StreamsSound(StreamsNow())
      modifies this`proofs, this`workers, this`nextFree, this`gpuWeights, this`releases, this`taskChannels,
               this`receivers,
               this`sent, this`missed
      ensures drop == (manual || old(proofs)[k.proof].activeTasks == 0)
      ensures proofs == if drop then old(proofs) - {k.proof} else old(proofs)
      ensures if drop then SparedSoFar(old(proofs), old(workers), workers, k.proof, Some((w, k.task)), {})
              else workers == old(workers)
      ensures releases + |Holds(workers)| == old(releases) + |Holds(old(workers))| && releases >= old(releases)
      ensures NonZero(gpuWeights) == if drop then old(NonZero(gpuWeights)) - {k.proof} else old(NonZero(gpuWeights))
      ensures StreamsNow() == if manual then CloseAll(old(StreamsNow()), old(proofs)[k.proof].tasks.Keys, now)
                                 else old(StreamsNow())
      ensures DeskNow() == if manual then Notify(old(DeskNow()), ProofNotices(old(proofs), k.proof), FailedFatal)
                              else old(DeskNow())
    {
      hide Weigh, ExactWeights, PointsBack, StreamsSound, SparedSoFar, Holds, NonZero, Notify, CloseAll, ProofNotices;
      drop := manual;
      if !manual && proofs[k.proof].activeTasks == 0 {
        var _ := RemoveProof(k.proof, Some((w, k.task)));
        drop := true;
      }
      if manual {
        var _ := FailProofInternal(k.proof, None, Some((w, k.task)));
      }
    }

    /** The first half of `fail_task` on a task that has not succeeded: record, close, and drop the proof if it goes. */
    method MarkAndDrop(w: WorkerId, k: Key, retryable: bool) returns (status: TaskStatus, drop: bool)
      requires BooksAgree(BooksNow()) && StreamsSound(StreamsNow())
      requires FailReply(BooksNow(), w, k).Done? && !TaskAt(proofs, k).status.Succeeded?
      modifies this`proofs, this`workers, this`nextFree, this`gpuWeights, this`releases, this`taskChannels,
               this`receivers,
               this`sent, this`missed
      ensures status == FailedStatus(TaskAt(old(proofs), k), retryable)
      ensures drop == FailDrops(old(BooksNow()), k, retryable)
      ensures var ps := MarkFailed(old(BooksNow()), k, retryable).proofs;
        && proofs == (if drop then ps - {k.proof} else ps)
        && (if drop then SparedSoFar(ps, old(workers), workers, k.proof, Some((w, k.task)), {}) else workers == old(workers))
      ensures releases + |Holds(workers)| == old(releases) + |Holds(old(workers))| && releases >= old(releases)
      ensures NonZero(gpuWeights) == if drop then old(NonZero(gpuWeights)) - {k.proof} else old(NonZero(gpuWeights))
      ensures StreamsNow() == FailStreams(old(State()), k, retryable)
      ensures DeskNow() == FailDesk(old(State()), k, retryable)
    {
      hide Weigh, BooksAgree, StreamsSound, ExactWeights, PointsBack, SparedSoFar;
      hide Holds, NonZero, Notify, Close, CloseAll, ProofNotices, MarkFailed, FailDrops, FailStreams, FailDesk;
      ghost var c := State();
      FailReady(c.books, w, k, retryable);
      MarkFailedFrame(c.books, k, retryable);
      CloseSound(c.streams, k.task, now);
      var task := TaskAt(proofs, k);
      var manual := FailsProof(task.ty) && (!retryable || task.retries == MAX_TASK_RETRIES);
      FailParts(c, k, retryable, manual);
      hide ActiveAfterFail, FailedStatus, FailsProof;
      status := RecordFailure(k, retryable);
      CloseTaskChannel(k.task);
      drop := DropFailed(w, k, manual);
    }

    /** `fail_task` on a held task that has not succeeded, up to the point where it is requeued. */
    method RecordAndRelease(w: WorkerId, k: Key, retryable: bool) returns (status: TaskStatus)
      requires BooksAgree(BooksNow()) && StreamsSound(StreamsNow())
      requires FailReply(BooksNow(), w, k).Done? && !TaskAt(proofs, k).status.Succeeded?
      modifies this`proofs, this`workers, this`nextFree, this`gpuWeights, this`releases, this`taskChannels,
               this`receivers,
               this`sent, this`missed
      ensures status == FailedStatus(TaskAt(old(proofs), k), retryable)
      ensures var b := old(BooksNow()); var ps := MarkFailed(b, k, retryable).proofs;
        var drop := FailDrops(b, k, retryable);
        && proofs == (if drop then ps - {k.proof} else ps)
        && KeptBy(ps, b, workers, w, k, drop)
        && releases + |Holds(workers)| == b.releases + |Holds(b.workers)| && releases > b.releases
        && NonZero(gpuWeights) == GpuLeft(b, w, k, drop)
      ensures StreamsNow() == FailStreams(old(State()), k, retryable)
      ensures DeskNow() == FailDesk(old(State()), k, retryable)
    {
      hide Weigh, BooksAgree, StreamsSound, ExactWeights, PointsBack, SparedSoFar, KeptBy;
      hide Holds, NonZero, GpuLeft, MarkFailed, FailDrops, FailStreams, FailDesk, FailedStatus;
      ghost var b := BooksNow();
      FailReady(b, w, k, retryable);
      MarkFailedFrame(b, k, retryable);
      var task := TaskAt(proofs, k);
      var drop;
      status, drop := MarkAndDrop(w, k, retryable);
      ReleaseReporter(w, k, task, drop, false, b, MarkFailed(b, k, retryable).proofs);
    }

    method FailLiveTask(w: WorkerId, k: Key, retryable: bool) returns (status: TaskStatus)
      requires InOrder() && StreamsSound(StreamsNow())
      requires FailReply(BooksNow(), w, k).Done? && !TaskAt(proofs, k).status.Succeeded?
      modifies this`proofs, this`workers, this`nextFree, this`gpuWeights, this`releases, this`taskChannels,
               this`receivers,
               this`sent, this`missed, this`cpuQueue, this`gpuQueues, this`queued
      ensures BooksNow() == Fail(old(BooksNow()), w, k, retryable)
      ensures StreamsNow() == FailStreams(old(State()), k, retryable)
      ensures DeskNow() == FailDesk(old(State()), k, retryable)
      ensures status == FailedStatus(TaskAt(old(proofs), k), retryable)
      ensures QueuesOk(cpuQueue, gpuQueues, queued) && LanesOk(proofs, cpuQueue, gpuQueues) && Ranked()
      ensures releases > old(releases)
    {
      hide Weigh, BooksAgree, StreamsSound, QueuesOk, Ranked, LanesOk, LanesKept, KeptBy;
      hide Holds, NonZero, FailStreams, FailDesk, Fail, GpuLeft, MarkFailed, FailDrops, Waiting, FailedStatus;
      ghost var c := State();
      status := RecordAndRelease(w, k, retryable);
      MarkFailedFrame(c.books, k, retryable);
      FailedLanes(c.books, k, retryable, proofs, cpuQueue, gpuQueues);
      if status.FailedRetryable? {
        RetryKeepsProof(c.books, w, k, retryable);
        EnqueueTask(k);
      }
      FailIs(c.books, w, k, retryable, MarkFailed(c.books, k, retryable).proofs, BooksNow());
    }

    /** A success already recorded is final: only the reporter's hold is released. */
    method FailSucceededTask(w: WorkerId, k: Key, retryable: bool)
      requires Valid() && FailReply(BooksNow(), w, k).Done? && TaskAt(proofs, k).status.Succeeded?
      modifies this`workers, this`nextFree, this`gpuWeights, this`releases
      ensures Does(old(State()), Call.FailTask(w, k, retryable), State())
      ensures LanesOk(proofs, cpuQueue, gpuQueues) && releases > old(releases)
    {
      hide Weigh, Good, BooksAgree, QueuesOk, Ranked, LanesOk, ExactWeights, PointsBack, SparedSoFar, KeptBy;
      hide Holds, NonZero, Fail, GpuLeft;
      ghost var c := State();
      GoodBooks(c);
      AgreeReady(c.books, k.proof);
      ReleaseReporter(w, k, TaskAt(proofs, k), false, true, c.books, proofs);
      FailIs(c.books, w, k, retryable, proofs, BooksNow());
    }

    /** `fail_task` on a held task that has not succeeded. */
    method FailLiveAndAssign(w: WorkerId, k: Key, retryable: bool) returns (ghost acts: seq<Call>)
      requires Valid() && FailReply(BooksNow(), w, k).Done? && !TaskAt(proofs, k).status.Succeeded?
      modifies this
      ensures Valid() && NothingFits()
      ensures Performs(old(State()), Call.FailTask(w, k, retryable), acts, State())
    {
      hide Good, BooksAgree, StreamsSound, QueuesOk, Ranked, LanesOk, Does, Performs, NothingFits, NonZero,
           Notify, Announce, FailNotices, FailStreams, FailDesk, Fail;
      ghost var c := State();
      ghost var call := Call.FailTask(w, k, retryable);
      GoodBooks(c);
      GoodStreams(c);
      FailStep(c, w, k, retryable);
      FailTold(c, k, retryable);
      var subs := TaskAt(proofs, k).subscribers;
      var status := FailLiveTask(w, k, retryable);
      if status.FailedFatal? {
        acts := AssignAndNotify(true, subs, k, status, c, call, FailNotices(c, k, retryable));
      } else {
        acts := AssignAfter(c, call);
      }
    }

    /** `fail_task`. */
    method FailTask(w: WorkerId, k: Key, retryable: bool) returns (reply: Reply, ghost acts: seq<Call>)
      requires Valid()
      modifies this
      ensures Valid()
      ensures reply == FailReply(old(BooksNow()), w, k)
      ensures reply == FailedPrecondition <==> w in old(workers) && k !in old(workers)[w].holds
      ensures reply == Done <==> w in old(workers) && k in old(workers)[w].holds && HasTask(old(proofs), k)
      ensures reply in {Done, NotFound, FailedPrecondition}
      ensures Performs(old(State()), Call.FailTask(w, k, retryable), acts, State())
      ensures reply.Done? ==> NothingFits()
    {
      hide Good, BooksAgree, QueuesOk, Ranked, LanesOk, Does, Performs, NothingFits, NonZero;
      ghost var c := State();
      ghost var call := Call.FailTask(w, k, retryable);
      reply := Done;
      if w !in workers {
        reply := NotFound;
      } else if k !in workers[w].holds {
        reply := FailedPrecondition;
      } else if k.proof !in proofs || k.task !in proofs[k.proof].tasks {
        reply := NotFound;
      }
      if !reply.Done? {
        FailRefusedStep(c, w, k, retryable);
        PerformedAlone(c, call, c);
        acts := [];
      } else if TaskAt(proofs, k).status.Succeeded? {
        FailSucceededTask(w, k, retryable);
        acts := AssignAfter(c, call);
      } else {
        acts := FailLiveAndAssign(w, k, retryable);
      }
    }

    // ---- workers -----------------------------------------------------------------------

    /** One task of a dead worker goes back to the queue, its retry budget untouched. */
    method RequeueOne(k: Key, ghost b: Books, ghost done: set<Key>)
      requires BooksAgree(b) && k in HeldKeys(b.workers) && k !in done
      requires Requeuing(b, done, BooksNow())
      requires QueuesOk(cpuQueue, gpuQueues, queued) && LanesOk(proofs, cpuQueue, gpuQueues) && Ranked()
      modifies this`proofs, this`gpuWeights, this`releases, this`cpuQueue, this`gpuQueues, this`queued
      ensures Requeuing(b, done + {k}, BooksNow())
      ensures QueuesOk(cpuQueue, gpuQueues, queued) && LanesOk(proofs, cpuQueue, gpuQueues) && Ranked()
    {
      hide Weigh, BooksAgree, Requeuing, NonZero, QueuesOk, Ranked, LanesOk;
      ghost var mid := BooksNow();
      RequeuingTask(b, done, mid, k);
      var proof := proofs[k.proof];
      var task := proof.tasks[k.task];
      proofs := proofs[k.proof := proof.(tasks := proof.tasks[k.task := task.(requeues := task.requeues + 1)])];
      RequeuedLanes(mid, k, cpuQueue, gpuQueues);
      PolicyRelease(k.proof, task.lane, task.weight);
      EnqueueTask(k);
      RequeuingMore(b, done, mid, k);
    }

    method RequeueAll(holds: set<Key>, ghost b: Books)
      requires BooksAgree(b) && holds <= HeldKeys(b.workers) && Requeuing(b, {}, BooksNow())
      requires QueuesOk(cpuQueue, gpuQueues, queued) && LanesOk(proofs, cpuQueue, gpuQueues) && Ranked()
      modifies this`proofs, this`gpuWeights, this`releases, this`cpuQueue, this`gpuQueues, this`queued
      ensures Requeuing(b, holds, BooksNow())
      ensures QueuesOk(cpuQueue, gpuQueues, queued) && LanesOk(proofs, cpuQueue, gpuQueues) && Ranked()
    {
      hide *;
      var todo := holds;
      assert holds - todo == {};
      while todo != {}
        invariant todo <= holds
        invariant Requeuing(b, holds - todo, BooksNow())
        invariant QueuesOk(cpuQueue, gpuQueues, queued) && LanesOk(proofs, cpuQueue, gpuQueues) && Ranked()
        decreases todo
      {
        var k :| k in todo;
        RequeueOne(k, b, holds - todo);
        assert holds - todo + {k} == holds - (todo - {k});
        todo := todo - {k};
      }
      assert holds - todo == holds;
    }

    /** `remove_worker_internal`. */
    method RemoveWorkerInternal(w: WorkerId)
      requires InOrder()
      modifies this`proofs, this`workers, this`nextFree, this`gpuWeights, this`releases, this`cpuQueue,
               this`gpuQueues, this`queued
      ensures BooksNow() == RemoveWorker(old(BooksNow()), w)
      ensures QueuesOk(cpuQueue, gpuQueues, queued) && LanesOk(proofs, cpuQueue, gpuQueues) && Ranked()
    {
      hide BooksAgree, Requeuing, NonZero, QueuesOk, Ranked, LanesOk, RemoveWorker, HeldKeys;
      ghost var b := BooksNow();
      if w !in workers {
        RemoveNobody(b, w);
        return;
      }
      var worker := workers[w];
      workers := workers - {w};
      HeldBy(b.workers, w);
      RequeuingNone(b, w, BooksNow());
      RequeueAll(worker.holds, b);
      RemoveWorkerIs(b, w, BooksNow());
    }

    /** `remove_worker`. */
    method RemoveWorkerAndAssign(w: WorkerId) returns (ghost acts: seq<Call>)
      requires Valid()
      modifies this
      ensures Valid() && NothingFits()
      ensures Performs(old(State()), RemoveWorkerCall(w), acts, State())
    {
      hide Good, BooksAgree, QueuesOk, Ranked, LanesOk, Does, Performs, NothingFits, NonZero, RemoveWorker;
      ghost var c := State();
      GoodBooks(c);
      WorkerSteps(c, w, CpuWorker, 0, {});
      RemoveWorkerInternal(w);
      acts := AssignAfter(c, RemoveWorkerCall(w));
    }

    /** `assigned_weight`: the weight of a set of holds, summed from the tasks themselves. */
    method AssignedWeight(holds: set<Key>) returns (sum: nat)
      ensures sum == Weigh(proofs, holds)
    {
      hide Weigh;
      sum := 0;
      var todo := holds;
      while todo != {}
        invariant todo <= holds && sum + Weigh(proofs, todo) == Weigh(proofs, holds)
        decreases todo
      {
        var k :| k in todo;
        WeighRemove(proofs, todo, k);
        if k.proof in proofs && k.task in proofs[k.proof].tasks {
          sum := sum + proofs[k.proof].tasks[k.task].weight;
        }
        todo := todo - {k};
      }
      WeighNone(proofs);
    }

    /** The worker's entry after a heartbeat; `post_worker_empty` resets an idle worker's weight. */
    method Beat(w: WorkerId, reported: seq<Key>) returns (changed: bool)
      requires BooksAgree(BooksNow()) && w in workers
      modifies this`workers, this`nextFree
      ensures BooksNow() == Heartbeat(old(BooksNow()), w, (set k | k in reported), now)
    {
      hide Weigh, BooksAgree, NonZero;
      ghost var told := set k | k in reported;
      var worker := workers[w];
      var gone := set k | k in worker.holds && k !in reported && !HasTask(proofs, k);
      var total := AssignedWeight(worker.holds);
      HeartbeatWeight(BooksNow(), w, gone);
      var kept := worker.holds - gone;
      assert kept == set k | k in worker.holds && (k in told || HasTask(proofs, k));
      workers := workers[w := worker.(lastHeartbeat := now, weight := if kept == {} then 0 else total, holds := kept)];
      if kept == {} {
        nextFree := nextFree[w := 0];
      }
      changed := gone != {} || kept == {};
    }

    /** `handle_heartbeat`. What the worker reports about its weight is never used. */
    method HandleHeartbeat(w: WorkerId, reported: seq<Key>) returns (reply: Reply, ghost acts: seq<Call>)
      requires Valid()
      modifies this
      ensures Valid()
      ensures reply == if w in old(workers) then Done else NotFound
      ensures Performs(old(State()), WorkerHeartbeat(w, set k | k in reported), acts, State())
    {
      hide Good, BooksAgree, QueuesOk, Ranked, LanesOk, Does, Performs, NothingFits, NonZero, Heartbeat;
      ghost var c := State();
      ghost var call := WorkerHeartbeat(w, set k | k in reported);
      GoodBooks(c);
      WorkerSteps(c, w, CpuWorker, 0, set k | k in reported);
      if w !in workers {
        NoHeartbeat(c.books, w, (set k | k in reported), now);
        PerformedAlone(c, call, c);
        return NotFound, [];
      }
      var changed := Beat(w, reported);
      NewLanes(c, call, State(), cpuQueue, gpuQueues);
      PerformedAlone(c, call, State());
      acts := [];
      if changed {
        acts := AssignAfter(c, call);
      }
      reply := Done;
    }

    /** `add_worker`: a known worker only reconnects. */
    method AddWorkerAndAssign(w: WorkerId, kind: WorkerKind, maxWeight: nat)
      returns (existed: bool, ghost acts: seq<Call>)
      requires Valid()
      modifies this
      ensures Valid()
      ensures existed <==> w in old(workers)
      ensures !existed ==> NothingFits()
      ensures Performs(old(State()), OpenWorker(w, kind, maxWeight), acts, State())
    {
      hide Good, BooksAgree, QueuesOk, Ranked, LanesOk, Does, Performs, NothingFits, NonZero;
      ghost var c := State();
      ghost var call := OpenWorker(w, kind, maxWeight);
      WorkerSteps(c, w, kind, maxWeight, {});
      existed := w in workers;
      if existed {
        PerformedAlone(c, call, c);
        return existed, [];
      }
      workers := workers[w := Worker(kind, maxWeight, 0, {}, false, now)];
      nextFree := nextFree[w := 0];
      NewLanes(c, call, State(), cpuQueue, gpuQueues);
      acts := AssignAfter(c, call);
    }

    /** `close_worker`: it keeps its tasks but gets no new ones. */
    method CloseWorkerEntry(w: WorkerId) returns (reply: Reply)
      requires Valid()
      modifies this`workers
      ensures Valid()
      ensures reply == if w in old(workers) then Done else NotFound
      ensures Does(old(State()), CloseWorkerCall(w), State())
    {
      hide Good, QueuesOk, Ranked, LanesOk, NonZero, Does;
      ghost var c := State();
      QuietSteps(c, w, 0);
      reply := NotFound;
      if w in workers {
        workers := workers[w := workers[w].(closed := true)];
        reply := Done;
      }
      NewLanes(c, CloseWorkerCall(w), State(), cpuQueue, gpuQueues);
    }

    method Elapse(seconds: nat)
      requires Valid()
      modifies this`now
      ensures Valid()
      ensures Does(old(State()), Wait(seconds), State())
    {
      hide Good, QueuesOk, Ranked, LanesOk, NonZero, Does;
      ghost var c := State();
      QuietSteps(c, 0, seconds);
      now := now + seconds;
      NewLanes(c, Wait(seconds), State(), cpuQueue, gpuQueues);
    }

    // ---- new work ----------------------------------------------------------------------

    /** Notes what a new task will be compared by; nothing queued is affected. */
    method SetRank(k: Key, ty: TaskType, born: nat)
      requires k.task !in issued && QueuesOk(cpuQueue, gpuQueues, queued) && Ranked()
      requires forall j :: j in queued ==> j.task in issued
      modifies this`ranks
      ensures Ranked()
      ensures RankOf(ranks, k).ty == ty && RankOf(ranks, k).born == born
      ensures k.proof in proofBorn ==> RankOf(ranks, k).proofBorn == proofBorn[k.proof]
    {
      hide RanksOk;
      QueuedTasks(cpuQueue, gpuQueues, queued);
      hide QueuesOk;
      var rank := Rank(ty, if k.proof in proofBorn then proofBorn[k.proof] else 0, born);
      NewRank(ranks, cpuQueue, gpuQueues, k.task, rank);
      ranks := ranks[k.task := rank];
    }

    /** Files a new task under its proof and queues it. */
    method FileTask(k: Key, ty: TaskType, lane: Lane, weight: nat)
      requires k.proof in proofs && k.task !in issued
      requires QueuesOk(cpuQueue, gpuQueues, queued) && LanesOk(proofs, cpuQueue, gpuQueues) && Ranked()
      requires forall j :: j in queued ==> j.task in issued
      modifies this`proofs, this`issued, this`cpuQueue, this`gpuQueues, this`queued
      ensures BooksNow() == AddTask(old(BooksNow()), k, ty, lane, weight)
      ensures QueuesOk(cpuQueue, gpuQueues, queued) && LanesOk(proofs, cpuQueue, gpuQueues) && Ranked()
    {
      hide QueuesOk, Ranked, LanesOk, NonZero, LanesKept, AddTask, Waiting;
      ghost var b := BooksNow();
      AddTaskLanes(b, k, ty, lane, weight);
      AddTaskIs(b, k, ty, lane, weight);
      var proof := proofs[k.proof];
      proofs := proofs[k.proof := Proof(proof.tasks[k.task := NewTask(ty, lane, weight)], proof.activeTasks + 1)];
      LanesMove(b, AddTask(b, k, ty, lane, weight), cpuQueue, gpuQueues, queued);
      issued := issued[k.task := k.proof];
      EnqueueTask(k);
    }

    method InsertTask(k: Key, ty: TaskType, lane: Lane, weight: nat, born: nat)
      requires k.proof in proofs && k.task !in issued
      requires QueuesOk(cpuQueue, gpuQueues, queued) && LanesOk(proofs, cpuQueue, gpuQueues) && Ranked()
      requires forall j :: j in queued ==> j.task in issued
      modifies this`proofs, this`issued, this`ranks, this`cpuQueue, this`gpuQueues, this`queued
      ensures BooksNow() == AddTask(old(BooksNow()), k, ty, lane, weight)
      ensures QueuesOk(cpuQueue, gpuQueues, queued) && LanesOk(proofs, cpuQueue, gpuQueues) && Ranked()
      ensures RankOf(ranks, k).ty == ty && RankOf(ranks, k).born == born
      ensures k.proof in proofBorn ==> RankOf(ranks, k).proofBorn == proofBorn[k.proof]
    {
      hide QueuesOk, Ranked, LanesOk, NonZero, AddTask;
      SetRank(k, ty, born);
      FileTask(k, ty, lane, weight);
    }

    /** `create_task` on a proof that exists, up to the point where what fits is assigned. */
    method AddKnownTask(k: Key, ty: TaskType, lane: Lane, weight: nat, born: nat)
      requires Valid() && k.task !in issued && k.proof in proofs
      modifies this`proofs, this`issued, this`ranks, this`cpuQueue, this`gpuQueues, this`queued
      ensures Does(old(State()), CreateTask(k, ty, lane, weight), State())
      ensures QueuesOk(cpuQueue, gpuQueues, queued) && LanesOk(proofs, cpuQueue, gpuQueues) && Ranked()
      ensures k.proof in proofBorn ==> RankOf(ranks, k) == Rank(ty, proofBorn[k.proof], born)
    {
      hide RankOf, Good, BooksAgree, QueuesOk, Ranked, LanesOk, Does, NonZero, AddTask;
      ghost var c := State();
      WorkSteps(c, k, ty, lane, weight);
      GoodQueue(c);
      InsertTask(k, ty, lane, weight, born);
    }

    /** `create_task`, with the id it draws and the time passed in. */
    method CreateTaskAndAssign(k: Key, ty: TaskType, lane: Lane, weight: nat, born: nat)
      returns (reply: Reply, ghost acts: seq<Call>)
      requires Valid() && k.task !in issued
      modifies this
      ensures Valid()
      ensures reply == if k.proof in old(proofs) then Done else NotFound
      ensures Performs(old(State()), CreateTask(k, ty, lane, weight), acts, State())
      ensures reply.Done? ==> NothingFits()
      ensures proofBorn == old(proofBorn)
      ensures reply.Done? && k.proof in proofBorn ==> RankOf(ranks, k) == Rank(ty, proofBorn[k.proof], born)
    {
      hide RankOf, Good, BooksAgree, QueuesOk, Ranked, LanesOk, Does, Performs, NothingFits, NonZero, AddTask;
      ghost var c := State();
      ghost var call := CreateTask(k, ty, lane, weight);
      assert Good(c);
      hide Valid, State, BooksNow, DeskNow, StreamsNow;
      if k.proof !in proofs {
        NoTaskStep(c, k, ty, lane, weight);
        PerformedAlone(c, call, c);
        return NotFound, [];
      }
      AddKnownTask(k, ty, lane, weight, born);
      acts := AssignAfter(c, call);
      reply := Done;
    }

    /** `create_proof` of a new proof, up to the point where what fits is assigned. */
    method AddNewProof(p: ProofId, t: TaskId, ty: TaskType, lane: Lane, weight: nat, born: nat)
      requires Valid() && t !in issued && p !in proofs
      modifies this`proofs, this`proofBorn, this`issued, this`ranks, this`cpuQueue, this`gpuQueues, this`queued
      ensures Does(old(State()), CreateProof(p, t, ty, lane, weight), State())
      ensures QueuesOk(cpuQueue, gpuQueues, queued) && LanesOk(proofs, cpuQueue, gpuQueues) && Ranked()
      ensures proofBorn == old(proofBorn)[p := born] && RankOf(ranks, Key(p, t)) == Rank(ty, born, born)
    {
      hide RankOf, Good, BooksAgree, QueuesOk, Ranked, LanesOk, LanesKept, Does, NonZero, AddTask;
      ghost var c := State();
      WorkSteps(c, Key(p, t), ty, lane, weight);
      GoodQueue(c);
      EmptyProofLanes(c.books, p);
      LanesMove(c.books, AddProof(c.books, p), cpuQueue, gpuQueues, queued);
      proofs := proofs[p := Proof(map[], 0)];
      proofBorn := proofBorn[p := born];
      InsertTask(Key(p, t), ty, lane, weight, born);
    }

    /** `create_proof`: the proof and its first task appear together. */
    method CreateProofAndAssign(p: ProofId, t: TaskId, ty: TaskType, lane: Lane, weight: nat, born: nat)
      returns (reply: Reply, ghost acts: seq<Call>)
      requires Valid() && t !in issued
      modifies this
      ensures Valid()
      ensures reply == if p in old(proofs) then AlreadyExists else Done
      ensures Performs(old(State()), CreateProof(p, t, ty, lane, weight), acts, State())
      ensures reply.Done? ==> NothingFits()
      ensures reply.Done? ==> proofBorn == old(proofBorn)[p := born] && RankOf(ranks, Key(p, t)) == Rank(ty, born, born)
    {
      hide RankOf, Good, BooksAgree, QueuesOk, Ranked, LanesOk, Does, Performs, NothingFits, NonZero, AddTask;
      ghost var c := State();
      ghost var call := CreateProof(p, t, ty, lane, weight);
      assert Good(c);
      hide Valid, State, BooksNow, DeskNow, StreamsNow;
      if p in proofs {
        WorkSteps(c, Key(p, t), ty, lane, weight);
        PerformedAlone(c, call, c);
        return AlreadyExists, [];
      }
      AddNewProof(p, t, ty, lane, weight, born);
      acts := AssignAfter(c, call);
      reply := Done;
    }

    // ---- subscriptions -----------------------------------------------------------------

    /** The first half of `create_subscriber`; its tasks are added by `AddSubscriptionsTo`. */
    method OpenSubscriber(s: SubId, p: ProofId)
      requires Valid()
      modifies this`subscribers
      ensures Valid()
      ensures Does(old(State()), CreateSubscriber(s, p), State())
      ensures subscribers == if s in old(subscribers) then old(subscribers) else old(subscribers)[s := p]
    {
      hide Good, QueuesOk, Ranked, LanesOk, NonZero, Does;
      ghost var c := State();
      DeskSteps(c, s, p);
      if s !in subscribers {
        subscribers := subscribers[s := p];
      }
      NewLanes(c, CreateSubscriber(s, p), State(), cpuQueue, gpuQueues);
    }

    /** A subscriber that timed out is forgotten. */
    method ForgetSubscriber(s: SubId)
      requires Valid()
      modifies this`subscribers
      ensures Valid()
      ensures Does(old(State()), DropSubscriber(s), State())
      ensures subscribers == old(subscribers) - {s}
    {
      hide Good, QueuesOk, Ranked, LanesOk, NonZero, Does;
      ghost var c := State();
      DeskSteps(c, s, 0);
      subscribers := subscribers - {s};
      NewLanes(c, DropSubscriber(s), State(), cpuQueue, gpuQueues);
    }

    /** One requested task: register on it if it is live, answer at once if not. */
    method SubscribeOne(s: SubId, k: Key, ghost b: Books, ghost ks: set<Key>)
      requires proofs == Subscribe(b, s, ks).proofs
      modifies this`proofs, this`sent
      ensures proofs == Subscribe(b, s, ks + {k}).proofs
      ensures sent == old(sent) + if OpenTask(b, k) then {} else {(s, Answer(b, k))}
      ensures sent == old(sent) +
        if !HasTask(b.proofs, k) then {(s, UnknownTask(k.proof, k.task))}
        else if TaskAt(b.proofs, k).status in {Succeeded, FailedFatal}
        then {(s, TaskResult(k.task, TaskAt(b.proofs, k).status))}
        else {}
    {
      hide Subscribe;
      SubscribeAt(b, s, ks);
      RetouchedTask(b.proofs, proofs);
      SubscribeMore(b, s, ks, k);
      if k.proof !in proofs || k.task !in proofs[k.proof].tasks {
        sent := sent + {(s, UnknownTask(k.proof, k.task))};
        return;
      }
      var task := TaskAt(proofs, k);
      if Terminal(task.status) {
        sent := sent + {(s, TaskResult(k.task, task.status))};
        return;
      }
      proofs := proofs[k.proof := proofs[k.proof].(tasks :=
        proofs[k.proof].tasks[k.task := task.(subscribers := task.subscribers + {s})])];
    }

    method SubscribeAll(s: SubId, p: ProofId, ts: seq<TaskId>)
      modifies this`proofs, this`sent
      ensures proofs == Subscribe(old(BooksNow()), s, KeysOf(p, ts)).proofs
      ensures sent == old(sent) + Answers(old(BooksNow()), s, KeysOf(p, ts))
    {
      hide Subscribe, NonZero, Answer, OpenTask;
      ghost var b := BooksNow();
      SubscribeNone(b, s);
      assert ts[..0] == [] && KeysOf(p, []) == {};
      for i := 0 to |ts|
        invariant proofs == Subscribe(b, s, KeysOf(p, ts[..i])).proofs
        invariant sent == old(sent) + Answers(b, s, KeysOf(p, ts[..i]))
      {
        ghost var ks := KeysOf(p, ts[..i]);
        SubscribeOne(s, Key(p, ts[i]), b, ks);
        KeysMore(p, ts, i);
        AnswersMore(b, s, ks, Key(p, ts[i]));
      }
      assert ts[..|ts|] == ts;
    }

    /** `add_subscriptions`. */
    method AddSubscriptionsTo(s: SubId, ts: seq<TaskId>) returns (reply: Reply)
      requires Valid()
      modifies this`proofs, this`sent, this`accepted
      ensures Valid()
      ensures reply == if s in subscribers then Done else NotFound
      ensures s !in subscribers ==> State() == old(State())
      ensures s in subscribers ==> Does(old(State()), AddSubscriptions(s, subscribers[s], ts), State())
    {
      hide Good, QueuesOk, Ranked, LanesOk, Subscribe, NonZero, Answers, KeysOf, Does;
      ghost var c := State();
      if s !in subscribers {
        return NotFound;
      }
      var p := subscribers[s];
      AddSubscriptionsIs(c, s, p, ts);
      SubscribeAll(s, p, ts);
      accepted := accepted + set k | k in KeysOf(p, ts) :: (s, k);
      NewLanes(c, AddSubscriptions(s, p, ts), State(), cpuQueue, gpuQueues);
      reply := Done;
    }

    // ---- task channels -----------------------------------------------------------------

    /** `task_can_still_send`: some proof has the task and it is not final. */
    method TaskCanStillSend(t: TaskId) returns (live: bool)
      ensures live <==> LiveTask(BooksNow(), t)
    {
      live := false;
      var todo := proofs.Keys;
      while todo != {}
        invariant todo <= proofs.Keys
        invariant live <==>
          exists p :: p in proofs && p !in todo && t in proofs[p].tasks && !Terminal(proofs[p].tasks[t].status)
        decreases todo
      {
        var p :| p in todo;
        if t in proofs[p].tasks && !Terminal(proofs[p].tasks[t].status) {
          live := true;
        }
        todo := todo - {p};
      }
    }

    method OpenChannel(t: TaskId)
      requires t !in taskChannels
      modifies this`taskChannels, this`entries, this`tapes
      ensures StreamsNow() == Open(old(StreamsNow()), t)
    {
      taskChannels := taskChannels[t := Channel(entries, [], false, 0, {})];
      tapes := tapes[entries := Tape(t, [])];
      entries := entries + 1;
    }

    /** Opens the channel of a live task that has none yet. */
    method FindChannel(t: TaskId) returns (found: bool)
      modifies this`taskChannels, this`entries, this`tapes
      ensures found <==> t in old(taskChannels) || LiveTask(BooksNow(), t)
      ensures found ==> t in taskChannels
      ensures StreamsNow() == if found then Open(old(StreamsNow()), t) else old(StreamsNow())
    {
      hide LiveTask, NonZero;
      found := t in taskChannels;
      if !found {
        found := TaskCanStillSend(t);
        if found {
          OpenChannel(t);
        }
      }
    }

    method PushMessage(t: TaskId, payload: Payload)
      requires t in taskChannels
      modifies this`taskChannels, this`receivers, this`tapes
      ensures StreamsNow() == Push(old(StreamsNow()), t, payload)
    {
      var chan := taskChannels[t];
      if chan.closed {
        return;
      }
      taskChannels := taskChannels[t := chan.(
        buffer := chan.buffer + [payload],
        listeners := set r | r in chan.listeners && r in receivers && !receivers[r].dropped)];
      receivers := Deliver(receivers, chan.listeners, Data(payload));
      tapes := tapes[chan.entry := Tape(t, chan.buffer + [payload])];
    }

    /** `send_task_message`. */
    method SendMessage(t: TaskId, payload: Payload)
      requires Valid()
      modifies this`taskChannels, this`receivers, this`entries, this`tapes
      ensures Valid()
      ensures Does(old(State()), SendTaskMessage(t, payload), State())
    {
      hide Good, QueuesOk, Ranked, LanesOk, NonZero, LiveTask, Push, Does;
      ghost var c := State();
      SendIs(c, t, payload);
      var found := FindChannel(t);
      if found {
        PushMessage(t, payload);
      }
      NewLanes(c, SendTaskMessage(t, payload), State(), cpuQueue, gpuQueues);
    }

    method AttachReceiver(t: TaskId, start: nat, r: RxId)
      requires t in taskChannels
      modifies this`taskChannels, this`receivers
      ensures StreamsNow() == Attach(old(StreamsNow()), t, start, r)
    {
      var chan := taskChannels[t];
      var first := if start <= |chan.buffer| then start else |chan.buffer|;
      var replay := Messages(chan.buffer[first..]);
      if chan.closed {
        receivers := receivers[r := Receiver(t, Some(chan.entry), first, replay + [EndOfStream], false)];
      } else {
        receivers := receivers[r := Receiver(t, Some(chan.entry), first, replay, false)];
        taskChannels := taskChannels[t := chan.(listeners := chan.listeners + {r})];
      }
    }

    /** `subscribe_task_channel`, with the receiver's id passed in. */
    method SubscribeTaskChannel(t: TaskId, start: nat, r: RxId)
      requires Valid() && r !in receivers
      modifies this`taskChannels, this`receivers, this`entries, this`tapes
      ensures Valid()
      ensures Does(old(State()), SubscribeChannel(t, start, r), State())
    {
      hide Good, QueuesOk, Ranked, LanesOk, NonZero, LiveTask, Attach, Does;
      ghost var c := State();
      ListenIs(c, t, start, r);
      var found := FindChannel(t);
      if found {
        AttachReceiver(t, start, r);
      } else {
        receivers := receivers[r := Receiver(t, None, 0, [EndOfStream], false)];
      }
      NewLanes(c, SubscribeChannel(t, start, r), State(), cpuQueue, gpuQueues);
    }

    /** `cleanup_stale_task_channels`. */
    method CleanupStaleTaskChannels()
      requires Valid()
      modifies this`taskChannels
      ensures Valid()
      ensures Does(old(State()), SweepChannels, State())
      ensures forall t :: t in taskChannels <==>
        t in old(taskChannels) && (!old(taskChannels)[t].closed || now <= old(taskChannels)[t].closedAt + 60)
      ensures forall t :: t in taskChannels ==> taskChannels[t] == old(taskChannels)[t]
    {
      hide Good, QueuesOk, Ranked, LanesOk, NonZero, Does;
      ghost var c := State();
      SweepIs(c);
      taskChannels := map t | t in taskChannels
        && !(taskChannels[t].closed && now > taskChannels[t].closedAt + STALE_THRESHOLD) :: taskChannels[t];
      NewLanes(c, SweepChannels, State(), cpuQueue, gpuQueues);
    }
  }
}
