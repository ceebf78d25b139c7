/** The order in which waiting tasks are served, as the policy's heaps compare them. */
module QueueOrder {
  import opened ClusterTypes

  datatype Ordering = Less | Equal | Greater

  /** What a queued task is compared by; the times are when its proof and the task itself were created. */
  datatype Rank = Rank(ty: TaskType, proofBorn: nat, born: nat)

  function CompareTimes(a: nat, b: nat): Ordering {
    if a < b then Less else if a == b then Equal else Greater
  }

  function Then(first: Ordering, second: Ordering): Ordering {
    if first.Equal? then second else first
  }

  predicate OnCpu(ty: TaskType) {
    ty.Controller? || ty.PlonkWrap? || ty.Groth16Wrap? || ty.ExecuteOnly?
  }

  /** `cmp` of the queued tasks, arm by arm. */
  function Compare(a: Rank, b: Rank): Ordering {
    if OnCpu(a.ty) && OnCpu(b.ty) then
      Then(CompareTimes(a.proofBorn, b.proofBorn), CompareTimes(a.born, b.born))
    else if a.ty.SetupVkey? && b.ty.SetupVkey? then
      Then(CompareTimes(a.proofBorn, b.proofBorn), CompareTimes(a.born, b.born))
    else if a.ty.SetupVkey? then Less
    else if b.ty.SetupVkey? then Greater
    else
      Then(CompareTimes(a.proofBorn, b.proofBorn),
           if a.ty.ProveShard? && b.ty.ProveShard? then CompareTimes(a.born, b.born)
           else if a.ty.ProveShard? then Less
           else if b.ty.ProveShard? then Greater
           else CompareTimes(a.born, b.born))
  }

  /** The intended priorities: key set-up first, then older proofs, then shards, then older tasks. */
  function Priority(r: Rank): seq<nat> {
    [if r.ty.SetupVkey? then 0 else 1, r.proofBorn, if r.ty.ProveShard? then 0 else 1, r.born]
  }

  predicate Lexicographic(a: seq<nat>, b: seq<nat>)
    requires |a| == |b|
  {
    a != [] && (a[0] < b[0] || (a[0] == b[0] && Lexicographic(a[1..], b[1..])))
  }

  lemma LexicographicFour(a: Rank, b: Rank)
    ensures var p, q := Priority(a), Priority(b);
      Lexicographic(p, q) <==>
      || p[0] < q[0]
      || (p[0] == q[0] && (p[1] < q[1] || (p[1] == q[1] && (p[2] < q[2] || (p[2] == q[2] && p[3] < q[3])))))
  {
    var p, q := Priority(a), Priority(b);
    assert p[2..][1..] == p[3..] && q[2..][1..] == q[3..] && p[1..][1..] == p[2..] && q[1..][1..] == q[2..];
    assert p[3..] == [p[3]] && q[3..] == [q[3]];
    assert Lexicographic(p[3..], q[3..]) <==> p[3] < q[3];
    assert Lexicographic(p[2..], q[2..]) <==> p[2] < q[2] || (p[2] == q[2] && Lexicographic(p[3..], q[3..]));
    assert Lexicographic(p[1..], q[1..]) <==> p[1] < q[1] || (p[1] == q[1] && Lexicographic(p[2..], q[2..]));
  }

  /** The comparison is lexicographic on the priorities, whichever two task types meet. */
  lemma CompareIsPriority(a: Rank, b: Rank)
    ensures Compare(a, b).Less? <==> Lexicographic(Priority(a), Priority(b))
    ensures Compare(a, b).Greater? <==> Lexicographic(Priority(b), Priority(a))
    ensures Compare(a, b).Equal? <==> Priority(a) == Priority(b)
  {
    LexicographicFour(a, b);
    LexicographicFour(b, a);
  }

  /** So it is the lawful total preorder a heap relies on. */
  lemma CompareLawful(a: Rank, b: Rank, c: Rank)
    ensures Compare(a, a).Equal?
    ensures Compare(a, b).Less? <==> Compare(b, a).Greater?
    ensures Compare(a, b).Less? && !Compare(c, b).Less? ==> Compare(a, c).Less?
    ensures !Compare(b, a).Less? && Compare(b, c).Less? ==> Compare(a, c).Less?
  {
    hide Compare;
    CompareIsPriority(a, a);
    CompareIsPriority(a, b);
    CompareIsPriority(b, a);
    CompareIsPriority(b, c);
    CompareIsPriority(c, b);
    CompareIsPriority(a, c);
    LexicographicFour(a, b);
    LexicographicFour(b, a);
    LexicographicFour(b, c);
    LexicographicFour(c, b);
    LexicographicFour(a, c);
  }

  // ---- ordered queues ------------------------------------------------------------------------

  function RankOf(ranks: map<TaskId, Rank>, k: Key): Rank {
    if k.task in ranks then ranks[k.task] else Rank(UnspecifiedTaskType, 0, 0)
  }

  predicate Before(ranks: map<TaskId, Rank>, j: Key, k: Key) {
    Compare(RankOf(ranks, j), RankOf(ranks, k)).Less?
  }

  /** Nobody waits behind a task they go before; equals may stand in any order. */
  predicate Ordered(ranks: map<TaskId, Rank>, q: seq<Key>) {
    forall i, j :: 0 <= i < j < |q| ==> !Before(ranks, q[j], q[i])
  }

  predicate FitsAt(ranks: map<TaskId, Rank>, q: seq<Key>, at: nat, k: Key) {
    && at <= |q|
    && (forall i :: 0 <= i < at ==> !Before(ranks, k, q[i]))
    && (forall i :: at <= i < |q| ==> !Before(ranks, q[i], k))
  }

  lemma PlaceExists(ranks: map<TaskId, Rank>, q: seq<Key>, k: Key) returns (at: nat)
    requires Ordered(ranks, q)
    ensures at <= |q| && FitsAt(ranks, q, at, k)
  {
    hide Before;
    at := 0;
    while at < |q| && !Before(ranks, k, q[at])
      invariant at <= |q| && forall i :: 0 <= i < at ==> !Before(ranks, k, q[i])
    {
      at := at + 1;
    }
    forall i | at <= i < |q|
      ensures !Before(ranks, q[i], k)
    {
      BeforeLawful(ranks, q[i], k, q[at]);
    }
  }

  lemma BeforeLawful(ranks: map<TaskId, Rank>, i: Key, j: Key, k: Key)
    ensures !Before(ranks, i, i)
    ensures Before(ranks, i, j) && Before(ranks, j, k) ==> Before(ranks, i, k)
  {
    var a, b, c := RankOf(ranks, i), RankOf(ranks, j), RankOf(ranks, k);
    CompareLawful(a, b, c);
    CompareLawful(b, c, a);
    CompareLawful(a, c, b);
  }

  function Insert(q: seq<Key>, at: nat, k: Key): seq<Key>
    requires at <= |q|
  {
    q[..at] + [k] + q[at..]
  }

  lemma InsertOrdered(ranks: map<TaskId, Rank>, q: seq<Key>, at: nat, k: Key)
    requires Ordered(ranks, q) && FitsAt(ranks, q, at, k)
    ensures Ordered(ranks, Insert(q, at, k))
  {
    hide Before;
    var r := Insert(q, at, k);
    forall i, j | 0 <= i < j < |r|
      ensures !Before(ranks, r[j], r[i])
    {
      assert r[i] == if i < at then q[i] else if i == at then k else q[i - 1];
      assert r[j] == if j < at then q[j] else if j == at then k else q[j - 1];
    }
  }

  /** The head of an ordered queue has nobody before it. */
  lemma HeadFirst(ranks: map<TaskId, Rank>, q: seq<Key>, k: Key)
    requires Ordered(ranks, q) && k in q
    ensures !Before(ranks, k, q[0])
  {
    BeforeLawful(ranks, q[0], q[0], q[0]);
  }

  // ---- the policy's queues -------------------------------------------------------------------

  ghost predicate RanksOk(ranks: map<TaskId, Rank>, cpu: seq<Key>, gpu: map<ProofId, seq<Key>>) {
    Ordered(ranks, cpu) && forall p :: p in gpu ==> Ordered(ranks, gpu[p])
  }

  lemma NewRank(ranks: map<TaskId, Rank>, cpu: seq<Key>, gpu: map<ProofId, seq<Key>>, t: TaskId, r: Rank)
    requires RanksOk(ranks, cpu, gpu)
    requires forall k :: k in cpu ==> k.task != t
    requires forall p, k :: p in gpu && k in gpu[p] ==> k.task != t
    ensures RanksOk(ranks[t := r], cpu, gpu)
  {
    hide Before;
    OrderKept(ranks, cpu, t, r);
    forall p | p in gpu
      ensures Ordered(ranks[t := r], gpu[p])
    {
      OrderKept(ranks, gpu[p], t, r);
    }
  }

  lemma OrderKept(ranks: map<TaskId, Rank>, q: seq<Key>, t: TaskId, r: Rank)
    requires Ordered(ranks, q) && forall k :: k in q ==> k.task != t
    ensures Ordered(ranks[t := r], q)
  {
    hide Compare;
    forall i, j | 0 <= i < j < |q|
      ensures !Before(ranks[t := r], q[j], q[i])
    {
      assert q[i] in q && q[j] in q;
      assert !Before(ranks, q[j], q[i]);
    }
  }

  /** How old the proof at the head of a queue is; what breaks ties between equally loaded proofs. */
  function HeadBorn(ranks: map<TaskId, Rank>, q: seq<Key>): nat {
    if q == [] then 0 else RankOf(ranks, q[0]).proofBorn
  }

  /** `estimate_duration`, in milliseconds. */
  function EstimateMs(ty: TaskType): nat {
    match ty
    case Controller => 200
    case PlonkWrap => 8000
    case Groth16Wrap => 2000
    case ProveShard => 2000
    case RecursionDeferred => 400
    case RecursionReduce => 400
    case ShrinkWrap => 4000
    case SetupVkey => 4000
    case ExecuteOnly => 200
    case CoreExecute => 200
    case _ => 0
  }

  /** Task types by how long they are expected to take; any other takes no time. */
  lemma EstimatesByType(ty: TaskType)
    ensures EstimateMs(ty) == 200 <==> ty in {Controller, ExecuteOnly, CoreExecute}
    ensures EstimateMs(ty) == 400 <==> ty in {RecursionDeferred, RecursionReduce}
    ensures EstimateMs(ty) == 2000 <==> ty in {Groth16Wrap, ProveShard}
    ensures EstimateMs(ty) == 4000 <==> ty in {ShrinkWrap, SetupVkey}
    ensures EstimateMs(ty) == 8000 <==> ty == PlonkWrap
    ensures EstimateMs(ty) in {0, 200, 400, 2000, 4000, 8000}
  {}

  function NextFree(nextFree: map<WorkerId, nat>, w: WorkerId): nat {
    if w in nextFree then nextFree[w] else 0
  }
}
