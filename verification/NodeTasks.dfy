/**
  A worker node's attempts, their reporters and the drain. The main loop and the reporters run
  side by side: a reporter may finish before the main loop has filed its attempt, and a cancelled
  task may be redelivered while its first reporter is still reporting.
*/
module NodeTasks {
  import opened ClusterTypes

  // ---- decisions ---------------------------------------------------------------------------

  /** How a task's work ended. */
  datatype Outcome = Ran(status: TaskStatus, metadata: bool) | Cancelled | Panicked

  datatype Report = Complete | Fail(retryable: bool) | Nothing

  function ReportFor(outcome: Outcome, timedOut: bool): Report {
    match outcome
    case Ran(status, metadata) =>
      if status.Succeeded? then if metadata then Complete else Fail(false)
      else Fail(status.FailedRetryable?)
    case Cancelled => if timedOut then Fail(true) else Nothing
    case Panicked => Fail(false)
  }

  /** A real result is never overridden by the timeout flag; only an unflagged abort stays silent. */
  lemma ReportsAreHonest(outcome: Outcome, timedOut: bool)
    ensures ReportFor(outcome, timedOut) == Complete <==> outcome == Ran(Succeeded, true)
    ensures ReportFor(outcome, timedOut) == Nothing <==> outcome.Cancelled? && !timedOut
    ensures outcome.Ran? ==> ReportFor(outcome, true) == ReportFor(outcome, false)
    ensures ReportFor(outcome, timedOut) == Fail(true) <==>
      (outcome.Ran? && outcome.status.FailedRetryable?) || (outcome.Cancelled? && timedOut)
  {}

  datatype TimeoutAction = Leave | Abort | ReportIt

  function TimeoutActionFor(finished: bool, ranFor: nat, abortedFor: Option<nat>, timeout: nat,
                            grace: nat): TimeoutAction {
    if finished || ranFor <= timeout then Leave
    else if abortedFor.Some? && abortedFor.value > grace then ReportIt
    else Abort
  }

  // ---- the node ----------------------------------------------------------------------------

  type Work = nat

  datatype Phase = Awaiting | Reporting(report: Report) | Finishing

  datatype Reporter = Reporter(key: Key, phase: Phase)

  datatype Exit = Staying | Drained | TimedOut

  /** What became of an attempt: its reporter's report, silence, or a failure reported in its reporter's place. */
  datatype Fate = Told(report: Report) | Silent | FailedByWatchdog | FailedInBatch

  datatype Node = Node(
    tasks: map<Key, Work>,             // active tasks, by the id of their work
    reporters: map<Work, Reporter>,    // live reporters
    wedged: set<nat>,                  // live wedged-report tasks
    late: set<Work>,                   // aborted for running too long
    counter: int,                      // reporters_in_flight, decremented without a check
    filing: Option<(Key, Work)>,       // spawned, not yet filed
    nextWork: Work,
    nextWedged: nat,
    closed: bool,
    exit: Exit,
    past: Past)

  /**
    Histories: each attempt's key, who was cancelled, whose reporter panicked, for whom that was
    before any word on the attempt, and who went into which wedged batch.
  */
  datatype Past = Past(
    keyOf: map<Work, Key>,
    cancelled: set<Work>,
    panicked: set<Work>,
    cutOff: set<Work>,
    batchOf: map<Work, nat>,
    fates: map<Work, Fate>)

  const IDLE := Node(map[], map[], {}, {}, 0, None, 0, 0, false, Staying, Past(map[], {}, {}, {}, map[], map[]))

  datatype Step =
    | Receive(key: Key)
    | File
    | Cancel(key: Key)
    | WorkEnds(work: Work, outcome: Outcome)
    | Reported(work: Work)
    | ReporterEnds(work: Work)
    | ReporterPanics(work: Work)
    | SweepFinished(key: Key)
    | SweepLate(key: Key)
    | SweepWedged(keys: set<Key>)
    | WedgedEnds(batch: nat)
    | Close
    | DrainCheck
    | DrainTimeout

  /** The main loop acts only while it runs and is not between spawning an attempt and filing it. */
  predicate AtLoop(s: Node) {
    s.exit.Staying? && s.filing.None?
  }

  predicate CanStep(s: Node, step: Step) {
    match step
    case Receive(_) => AtLoop(s)
    case File => s.filing.Some?
    case Cancel(_) => AtLoop(s)
    case WorkEnds(w, outcome) =>  // only a cancel and the watchdog abort work
      w in s.reporters && s.reporters[w].phase.Awaiting? && (outcome.Cancelled? ==> w in s.past.cancelled || w in s.late)
    case Reported(w) => w in s.reporters && s.reporters[w].phase.Reporting?
    case ReporterEnds(w) => w in s.reporters && s.reporters[w].phase.Finishing?
    case ReporterPanics(w) => w in s.reporters
    case SweepFinished(k) => AtLoop(s) && k in s.tasks && s.tasks[k] !in s.reporters
    case SweepLate(k) => AtLoop(s) && k in s.tasks
    case SweepWedged(ks) => AtLoop(s) && ks != {} && ks <= s.tasks.Keys && forall k :: k in ks ==> s.tasks[k] in s.late
    case WedgedEnds(b) => b in s.wedged
    case Close => AtLoop(s)
    case DrainCheck => AtLoop(s) && s.closed
    case DrainTimeout => AtLoop(s) && s.closed
  }

  /** `drop_if_current`: only the attempt the entry belongs to may drop it. */
  function DropIfCurrent(tasks: map<Key, Work>, k: Key, w: Work): map<Key, Work> {
    if k in tasks && tasks[k] == w then tasks - {k} else tasks
  }

  /** The first word on an attempt stands. */
  function WithFate(past: Past, w: Work, fate: Fate): Past {
    if w in past.fates then past else past.(fates := past.fates[w := fate])
  }

  function Batched(batchOf: map<Work, nat>, works: set<Work>, b: nat): map<Work, nat> {
    batchOf + map w | w in works :: b
  }

  function BatchReported(past: Past, b: nat): Past {
    past.(fates := (map w | w in past.batchOf && past.batchOf[w] == b :: FailedInBatch) + past.fates)
  }

  /** What the node does. */
  function Advanced(s: Node, step: Step): Node
    requires CanStep(s, step)
  {
    match step
    case Receive(k) =>
      if s.closed || k in s.tasks then s
      else
        s.(counter := s.counter + 1,
           reporters := s.reporters[s.nextWork := Reporter(k, Awaiting)],
           filing := Some((k, s.nextWork)),
           nextWork := s.nextWork + 1)
    case File => s.(tasks := s.tasks[s.filing.value.0 := s.filing.value.1], filing := None)
    case Cancel(k) => s.(tasks := s.tasks - {k})
    case WorkEnds(w, outcome) =>
      var report := ReportFor(outcome, w in s.late);
      s.(reporters := s.reporters[w := s.reporters[w].(phase := if report.Nothing? then Finishing else Reporting(report))])
    case Reported(w) =>
      s.(tasks := DropIfCurrent(s.tasks, s.reporters[w].key, w),
         reporters := s.reporters[w := s.reporters[w].(phase := Finishing)])
    case ReporterEnds(w) => s.(reporters := s.reporters - {w}, counter := s.counter - 1)
    case ReporterPanics(w) => s.(reporters := s.reporters - {w}, counter := s.counter - 1)
    case SweepFinished(k) => s.(tasks := s.tasks - {k})
    case SweepLate(k) => s.(late := s.late + {s.tasks[k]})
    case SweepWedged(ks) =>
      s.(tasks := s.tasks - ks, closed := true, counter := s.counter + 1,
         wedged := s.wedged + {s.nextWedged}, nextWedged := s.nextWedged + 1)
    case WedgedEnds(b) => s.(wedged := s.wedged - {b}, counter := s.counter - 1)
    case Close => s.(closed := true)
    case DrainCheck => if s.tasks == map[] && s.counter == 0 then s.(exit := Drained) else s
    case DrainTimeout => s.(exit := TimedOut)
  }

  /** What the step adds to the record; a panicked reporter's failure is reported in its place. */
  function Noted(s: Node, step: Step): Past
    requires CanStep(s, step)
  {
    var past := s.past;
    match step
    case Receive(k) => if s.closed || k in s.tasks then past else past.(keyOf := past.keyOf[s.nextWork := k])
    case Cancel(k) => if k in s.tasks then past.(cancelled := past.cancelled + {s.tasks[k]}) else past
    case WorkEnds(w, outcome) => if ReportFor(outcome, w in s.late).Nothing? then WithFate(past, w, Silent) else past
    case Reported(w) => WithFate(past, w, Told(s.reporters[w].phase.report))
    case ReporterPanics(w) =>
      past.(panicked := past.panicked + {w}, cutOff := past.cutOff + if w in past.fates then {} else {w})
    case SweepFinished(k) => if s.tasks[k] in past.panicked then WithFate(past, s.tasks[k], FailedByWatchdog) else past
    case SweepWedged(ks) => past.(batchOf := Batched(past.batchOf, set k | k in ks :: s.tasks[k], s.nextWedged))
    case WedgedEnds(b) => BatchReported(past, b)
    case _ => past
  }

  function Stepped(s: Node, step: Step): Node
    requires CanStep(s, step)
  {
    Advanced(s, step).(past := Noted(s, step))
  }

  /** The counter is exactly the live reporters and wedged reports. */
  ghost predicate Counted(s: Node) {
    s.counter == |s.reporters| + |s.wedged|
  }

  /** Work ids are never reused, an attempt keeps its key, and a batched attempt has no entry left. */
  ghost predicate IdsSound(s: Node) {
    && (forall w: Work :: w in s.past.keyOf <==> w < s.nextWork)
    && (forall w :: w in s.reporters ==> Owns(s, s.reporters[w].key, w))
    && (forall b :: b in s.wedged ==> b < s.nextWedged)
    && EntriesOwned(s)
    && PastKnown(s.past)
  }

  ghost predicate EntriesOwned(s: Node) {
    && (forall k :: k in s.tasks ==> Owns(s, k, s.tasks[k]) && s.tasks[k] !in s.past.batchOf)
    && (s.filing.Some? ==>
      s.filing.value.0 !in s.tasks && Owns(s, s.filing.value.0, s.filing.value.1) && s.filing.value.1 !in s.past.batchOf)
  }

  /** Only accepted attempts have a history. */
  ghost predicate PastKnown(past: Past) {
    && (forall w :: w in past.batchOf || w in past.fates ==> w in past.keyOf)
    && past.cancelled <= past.keyOf.Keys && past.cutOff <= past.keyOf.Keys
  }

  predicate Owns(s: Node, k: Key, w: Work) {
    w in s.past.keyOf && s.past.keyOf[w] == k
  }

  ghost predicate DrainSound(s: Node) {
    s.exit.Drained? ==> s.tasks == map[] && s.reporters == map[] && s.wedged == {} && s.filing.None?
  }

  ghost predicate Filed(s: Node, w: Work) {
    (s.filing.Some? && s.filing.value.1 == w) || exists k :: k in s.tasks && s.tasks[k] == w
  }

  predicate InBatch(s: Node, w: Work) {
    w in s.past.batchOf && s.past.batchOf[w] in s.wedged
  }

  /**
    An attempt whose fate is open still has a reporter, or lost it to a panic, and the watchdog or
    a wedged batch will speak for it unless it was cancelled. Only a cancelled attempt is silent.
  */
  ghost predicate Accounted(s: Node, w: Work) {
    && Watched(s, w)
    && (w in s.past.fates || w in s.past.cancelled || Filed(s, w) || InBatch(s, w))
  }

  predicate Watched(s: Node, w: Work) {
    && (w in s.past.fates || w in s.past.cutOff || (w in s.reporters && !s.reporters[w].phase.Finishing?))
    && (w in s.past.fates && s.past.fates[w].Silent? ==> w in s.past.cancelled)
  }

  /**
    A cancelled attempt has no entry and is in no batch. One whose reporter was cut off has nobody
    to report on it if it is cancelled too, and has no entry left once somebody has.
  */
  ghost predicate CutSound(s: Node, w: Work) {
    && (w in s.past.cancelled ==> !Filed(s, w) && w !in s.past.batchOf)
    && (w in s.past.cutOff ==> w !in s.reporters && w in s.past.panicked)
    && (w in s.past.cutOff && w in s.past.fates ==> w !in s.past.cancelled && !Filed(s, w))
  }

  ghost predicate FatesSound(s: Node) {
    forall w: Work :: w < s.nextWork ==> Accounted(s, w) && CutSound(s, w)
  }

  ghost predicate NodeSound(s: Node) {
    Counted(s) && IdsSound(s) && DrainSound(s) && FatesSound(s)
  }

  lemma CountSet(reporters: map<Work, Reporter>, w: Work, r: Reporter)
    ensures |reporters[w := r]| == |reporters| + if w in reporters then 0 else 1
    ensures w in reporters ==> |reporters - {w}| == |reporters| - 1
  {
    assert reporters[w := r].Keys == reporters.Keys + {w};
    assert (reporters - {w}).Keys == reporters.Keys - {w};
    assert w in reporters ==> reporters.Keys + {w} == reporters.Keys;
  }

  lemma CountWedged(wedged: set<nat>, b: nat)
    ensures |wedged + {b}| == |wedged| + if b in wedged then 0 else 1
    ensures b in wedged ==> |wedged - {b}| == |wedged| - 1
  {
    assert b in wedged ==> wedged + {b} == wedged;
  }

  /** What a step does to the live reporters, the live wedged reports and the counter. */
  datatype Delta =
    | Same
    | Starts(w: Work, r: Reporter)
    | Changes(w: Work, r: Reporter)
    | Ends(w: Work)
    | Opens(b: nat)
    | Closes(b: nat)

  ghost predicate Applies(d: Delta, s: Node, t: Node) {
    match d
    case Same => t.reporters == s.reporters && t.wedged == s.wedged && t.counter == s.counter
    case Starts(w, r) =>
      w == s.nextWork && t.reporters == s.reporters[w := r] && t.wedged == s.wedged && t.counter == s.counter + 1
    case Changes(w, r) =>
      w in s.reporters && t.reporters == s.reporters[w := r] && t.wedged == s.wedged && t.counter == s.counter
    case Ends(w) =>
      w in s.reporters && t.reporters == s.reporters - {w} && t.wedged == s.wedged && t.counter == s.counter - 1
    case Opens(b) =>
      b == s.nextWedged && t.reporters == s.reporters && t.wedged == s.wedged + {b} && t.counter == s.counter + 1
    case Closes(b) =>
      b in s.wedged && t.reporters == s.reporters && t.wedged == s.wedged - {b} && t.counter == s.counter - 1
  }

  lemma DeltaOf(s: Node, step: Step) returns (d: Delta)
    requires CanStep(s, step)
    ensures Applies(d, s, Stepped(s, step))
  {
    hide Noted;
    var t := Stepped(s, step);
    match step
    case Receive(k) => d := if s.closed || k in s.tasks then Same else Starts(s.nextWork, Reporter(k, Awaiting));
    case WorkEnds(w, _) => d := Changes(w, t.reporters[w]);
    case Reported(w) => d := Changes(w, t.reporters[w]);
    case ReporterEnds(w) => d := Ends(w);
    case ReporterPanics(w) => d := Ends(w);
    case SweepWedged(_) => d := Opens(s.nextWedged);
    case WedgedEnds(b) => d := Closes(b);
    case _ => d := Same;
  }

  lemma DeltaCounted(d: Delta, s: Node, t: Node)
    requires Applies(d, s, t) && Counted(s) && s.nextWork !in s.reporters && s.nextWedged !in s.wedged
    ensures Counted(t)
  {
    match d
    case Same =>
    case Starts(w, r) => CountSet(s.reporters, w, r);
    case Changes(w, r) => CountSet(s.reporters, w, r);
    case Ends(w) => CountSet(s.reporters, w, s.reporters[w]);
    case Opens(b) => CountWedged(s.wedged, b);
    case Closes(b) => CountWedged(s.wedged, b);
  }

  lemma CountKeeps(s: Node, step: Step)
    requires Counted(s) && CanStep(s, step)
    requires s.nextWork !in s.reporters && s.nextWedged !in s.wedged
    ensures Counted(Stepped(s, step))
  {
    hide Stepped, CanStep, Applies, Counted;
    var d := DeltaOf(s, step);
    DeltaCounted(d, s, Stepped(s, step));
  }

  lemma PastKeeps(s: Node, step: Step)
    requires IdsSound(s) && CanStep(s, step)
    ensures PastKnown(Noted(s, step))
  {
    hide ReportFor;
  }

  lemma PastFrame(s: Node, step: Step)
    requires CanStep(s, step)
    ensures Noted(s, step).keyOf ==
      if step.Receive? && !s.closed && step.key !in s.tasks then s.past.keyOf[s.nextWork := step.key] else s.past.keyOf
    ensures Noted(s, step).batchOf ==
      if step.SweepWedged? then Batched(s.past.batchOf, set k | k in step.keys :: s.tasks[k], s.nextWedged)
      else s.past.batchOf
  {
    hide ReportFor, Batched;
  }

  lemma EntriesKeep(s: Node, step: Step)
    requires IdsSound(s) && CanStep(s, step)
    ensures EntriesOwned(Stepped(s, step))
  {
    PastFrame(s, step);
    hide Noted, PastKnown, ReportFor;
    var t := Stepped(s, step);
    forall k | k in t.tasks
      ensures Owns(t, k, t.tasks[k]) && t.tasks[k] !in t.past.batchOf
    {
      assert k in s.tasks ==> Owns(s, k, s.tasks[k]);
    }
  }

  lemma IdsKeep(s: Node, step: Step)
    requires IdsSound(s) && CanStep(s, step)
    ensures IdsSound(Stepped(s, step))
  {
    PastKeeps(s, step);
    PastFrame(s, step);
    EntriesKeep(s, step);
    hide Noted, PastKnown, ReportFor, EntriesOwned;
  }

  /** The steps that take an entry away either give its attempt a fate or make someone answer for it. */
  lemma EntryKeeps(s: Node, step: Step, k: Key)
    requires IdsSound(s) && CanStep(s, step) && k in s.tasks
    requires s.tasks[k] in s.reporters || s.tasks[k] in s.past.fates || s.tasks[k] in s.past.panicked
    ensures var t, w := Stepped(s, step), s.tasks[k];
      (k in t.tasks && t.tasks[k] == w) || w in t.past.fates || w in t.past.cancelled || InBatch(t, w)
  {
    hide ReportFor;
    if step.SweepWedged? && k in step.keys {
      assert s.tasks[k] in (set j | j in step.keys :: s.tasks[j]);
    }
  }

  lemma FiledKeeps(s: Node, step: Step, w: Work)
    requires IdsSound(s) && CanStep(s, step) && Filed(s, w)
    requires w in s.reporters || w in s.past.fates || w in s.past.panicked
    ensures var t := Stepped(s, step); w in t.past.fates || w in t.past.cancelled || Filed(t, w) || InBatch(t, w)
  {
    if s.filing.Some? && s.filing.value.1 == w {
      hide Noted, IdsSound;
      if step.File? {
        assert Stepped(s, step).tasks[s.filing.value.0] == w;
      }
    } else {
      hide Stepped, IdsSound, CanStep, InBatch;
      var k :| k in s.tasks && s.tasks[k] == w;
      EntryKeeps(s, step, k);
    }
  }

  lemma WatchedKeeps(s: Node, step: Step, w: Work)
    requires CanStep(s, step) && w < s.nextWork && Watched(s, w)
    ensures Watched(Stepped(s, step), w)
  {}

  lemma BatchKeeps(s: Node, step: Step, w: Work)
    requires CanStep(s, step) && (w in s.past.fates || w in s.past.cancelled || InBatch(s, w))
    ensures var t := Stepped(s, step); w in t.past.fates || w in t.past.cancelled || InBatch(t, w)
  {
    hide ReportFor;
  }

  lemma FateKeeps(s: Node, step: Step, w: Work)
    requires IdsSound(s) && CanStep(s, step) && w < s.nextWork && Accounted(s, w) && CutSound(s, w)
    ensures Accounted(Stepped(s, step), w)
  {
    hide Stepped, IdsSound, CanStep, Filed, InBatch;
    WatchedKeeps(s, step, w);
    if Filed(s, w) {
      FiledKeeps(s, step, w);
    } else {
      BatchKeeps(s, step, w);
    }
  }

  /** No step files an attempt again, and what takes its entry away takes its only one. */
  lemma FiledOnce(s: Node, step: Step, w: Work)
    requires IdsSound(s) && CanStep(s, step) && w < s.nextWork && Filed(Stepped(s, step), w)
    ensures Filed(s, w)
    ensures (step.Cancel? || step.SweepFinished?) && step.key in s.tasks ==> s.tasks[step.key] != w
    ensures step.SweepWedged? ==> forall k :: k in step.keys ==> s.tasks[k] != w
  {
    hide Noted, ReportFor;
    var t := Stepped(s, step);
    if !(t.filing.Some? && t.filing.value.1 == w) {
      var k :| k in t.tasks && t.tasks[k] == w;
      assert Owns(s, k, w);
    }
  }

  lemma CutKeeps(s: Node, step: Step, w: Work)
    requires IdsSound(s) && CanStep(s, step) && w < s.nextWork && CutSound(s, w)
    ensures CutSound(Stepped(s, step), w)
  {
    var t := Stepped(s, step);
    if Filed(t, w) {
      FiledOnce(s, step, w);
    }
    TakenWereFiled(s, step, w);
    hide Filed;
  }

  lemma TakenWereFiled(s: Node, step: Step, w: Work)
    requires CanStep(s, step)
    ensures (step.Cancel? || step.SweepFinished?) && step.key in s.tasks && s.tasks[step.key] == w ==> Filed(s, w)
    ensures step.SweepWedged? && w in (set k | k in step.keys :: s.tasks[k]) ==> Filed(s, w)
  {}

  lemma FatesKeep(s: Node, step: Step)
    requires IdsSound(s) && FatesSound(s) && CanStep(s, step)
    ensures FatesSound(Stepped(s, step))
  {
    forall w: Work | w < Stepped(s, step).nextWork
      ensures Accounted(Stepped(s, step), w) && CutSound(Stepped(s, step), w)
    {
      if w < s.nextWork {
        assert Accounted(s, w) && CutSound(s, w);
        hide Accounted, CutSound;
        FateKeeps(s, step, w);
        CutKeeps(s, step, w);
      }
    }
  }

  lemma StepKeeps(s: Node, step: Step)
    requires NodeSound(s) && CanStep(s, step)
    ensures NodeSound(Stepped(s, step))
  {
    assert s.nextWork !in s.reporters && s.nextWedged !in s.wedged;
    FatesKeep(s, step);
    hide IdsSound, FatesSound;
    CountKeeps(s, step);
    IdsKeep(s, step);
  }

  predicate CanRun(s: Node, steps: seq<Step>)
    decreases |steps|
  {
    steps == [] || (CanStep(s, steps[0]) && CanRun(Stepped(s, steps[0]), steps[1..]))
  }

  function Final(s: Node, steps: seq<Step>): Node
    requires CanRun(s, steps)
    decreases |steps|
  {
    if steps == [] then s else Final(Stepped(s, steps[0]), steps[1..])
  }

  lemma {:induction false} StepsKeep(s: Node, steps: seq<Step>)
    requires NodeSound(s) && CanRun(s, steps)
    ensures NodeSound(Final(s, steps))
    decreases |steps|
  {
    hide NodeSound, Stepped, CanStep;
    if steps != [] {
      StepKeeps(s, steps[0]);
      StepsKeep(Stepped(s, steps[0]), steps[1..]);
    }
  }

  /** In every run the counter is the live reporters plus the live wedged reports; it never underflows. */
  lemma CounterExact(steps: seq<Step>)
    requires CanRun(IDLE, steps)
    ensures var s := Final(IDLE, steps); s.counter == |s.reporters| + |s.wedged| >= 0
  {
    hide CanRun, Final;
    StepsKeep(IDLE, steps);
  }

  /**
    A node that exits because it has drained leaves no report behind, with one exception: every
    attempt it ever accepted was reported on, by its reporter, the watchdog or a wedged batch, or
    was cancelled and stayed silent, unless it was cancelled and its reporter panicked before
    any word on it, and exactly then. No reporter or batch is still at work.
  */
  lemma DrainLosesNothing(steps: seq<Step>, w: Work)
    requires CanRun(IDLE, steps) && Final(IDLE, steps).exit.Drained?
    ensures var s := Final(IDLE, steps);
      && s.reporters == map[] && s.wedged == {}
      && (w < s.nextWork ==> (w !in s.past.fates <==> w in s.past.cutOff && w in s.past.cancelled))
      && (w < s.nextWork && w in s.past.fates && s.past.fates[w].Silent? ==> w in s.past.cancelled)
  {
    hide CanRun, Final;
    StepsKeep(IDLE, steps);
    var s := Final(IDLE, steps);
    if w < s.nextWork {
      assert Accounted(s, w) && CutSound(s, w);
    }
  }

  lemma {:induction false} CutOffStays(s: Node, steps: seq<Step>, w: Work)
    requires CanRun(s, steps) && w in s.past.cutOff && w in s.past.cancelled
    ensures w in Final(s, steps).past.cutOff && w in Final(s, steps).past.cancelled
    decreases |steps|
  {
    if steps != [] {
      CutOffStays(Stepped(s, steps[0]), steps[1..], w);
    }
  }

  /** Drained or not, such an attempt is never heard of again. */
  lemma LostForGood(s: Node, steps: seq<Step>, w: Work)
    requires NodeSound(s) && CanRun(s, steps) && w < s.nextWork && w in s.past.cutOff && w in s.past.cancelled
    ensures w < Final(s, steps).nextWork && w !in Final(s, steps).past.fates
  {
    hide CanRun, Final;
    StepsKeep(s, steps);
    CutOffStays(s, steps, w);
    assert w in Final(s, steps).past.keyOf;
    assert CutSound(Final(s, steps), w);
  }

  /**
    The exception is real: every attempt with an entry and no word on it yet is lost by a cancel and
    a panic, in either order.
  */
  lemma CancelledPanicIsLost(s: Node, k: Key, steps: seq<Step>, panicFirst: bool)
    requires NodeSound(s) && AtLoop(s) && k in s.tasks && s.tasks[k] in s.reporters && s.tasks[k] !in s.past.fates
    requires CanRun(CutDown(s, k, panicFirst), steps)
    ensures s.tasks[k] !in Final(CutDown(s, k, panicFirst), steps).past.fates
  {
    var w, first := s.tasks[k], if panicFirst then ReporterPanics(s.tasks[k]) else Cancel(k);
    assert Owns(s, k, w);
    StepKeeps(s, first);
    StepKeeps(Stepped(s, first), if panicFirst then Cancel(k) else ReporterPanics(w));
    hide NodeSound;
    LostForGood(CutDown(s, k, panicFirst), steps, w);
  }

  function CutDown(s: Node, k: Key, panicFirst: bool): Node
    requires AtLoop(s) && k in s.tasks && s.tasks[k] in s.reporters
  {
    if panicFirst then Stepped(Stepped(s, ReporterPanics(s.tasks[k])), Cancel(k))
    else Stepped(Stepped(s, Cancel(k)), ReporterPanics(s.tasks[k]))
  }

  /** The steps that may end an entry: its own report, a cancel, or the watchdog. */
  predicate EndsEntry(s: Node, step: Step, k: Key)
    requires k in s.tasks
  {
    step == Cancel(k) || step == Reported(s.tasks[k]) || step == SweepFinished(k) || (step.SweepWedged? && k in step.keys)
  }

  ghost predicate Undisturbed(s: Node, steps: seq<Step>, k: Key)
    requires CanRun(s, steps)
    decreases |steps|
  {
    steps == [] || ((k in s.tasks ==> !EndsEntry(s, steps[0], k)) && Undisturbed(Stepped(s, steps[0]), steps[1..], k))
  }

  /** No stale attempt's reporter, nor anything else that is not its own end, removes a successor's entry. */
  lemma {:induction false} SuccessorKeepsItsEntry(s: Node, steps: seq<Step>, k: Key)
    requires NodeSound(s) && CanRun(s, steps) && k in s.tasks && Undisturbed(s, steps, k)
    ensures k in Final(s, steps).tasks && Final(s, steps).tasks[k] == s.tasks[k]
    decreases |steps|
  {
    if steps != [] {
      StepKeeps(s, steps[0]);
      EntryStays(s, steps[0], k);
      SuccessorKeepsItsEntry(Stepped(s, steps[0]), steps[1..], k);
    }
  }

  lemma EntryStays(s: Node, step: Step, k: Key)
    requires NodeSound(s) && CanStep(s, step) && k in s.tasks && !EndsEntry(s, step, k)
    ensures k in Stepped(s, step).tasks && Stepped(s, step).tasks[k] == s.tasks[k]
  {}

  /** A cancelled task redelivered while its first reporter is still at work: the report leaves the new entry. */
  lemma RedeliverySurvives(s: Node, k: Key, w: Work)
    requires NodeSound(s) && AtLoop(s) && !s.closed && k in s.tasks && s.tasks[k] == w
    requires w in s.reporters && s.reporters[w].phase.Reporting?
    ensures var cancelled := Stepped(s, Cancel(k));
      var again := Stepped(Stepped(cancelled, Receive(k)), File);
      && CanStep(again, Reported(w))
      && Stepped(again, Reported(w)).tasks == again.tasks
      && again.tasks[k] == s.nextWork
  {}
}
