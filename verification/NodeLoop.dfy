/** The node's main loop as it is written: the task map, the counter and the watchdog's sweeps. */
module NodeLoop {
  import opened ClusterTypes
  import opened NodeTasks

  lemma {:induction false} RunSnoc(s: Node, steps: seq<Step>, step: Step)
    requires CanRun(s, steps) && CanStep(Final(s, steps), step)
    ensures CanRun(s, steps + [step]) && Final(s, steps + [step]) == Stepped(Final(s, steps), step)
    decreases |steps|
  {
    hide CanStep, Stepped;
    if steps == [] {
      assert [step][1..] == [];
    } else {
      RunSnoc(Stepped(s, steps[0]), steps[1..], step);
      assert (steps + [step])[1..] == steps[1..] + [step];
    }
  }

  lemma {:induction false} RunAppend(s: Node, steps: seq<Step>, more: seq<Step>)
    requires CanRun(s, steps) && CanRun(Final(s, steps), more)
    ensures CanRun(s, steps + more) && Final(s, steps + more) == Final(Final(s, steps), more)
    decreases |steps|
  {
    hide CanStep, Stepped;
    if steps == [] {
      assert [] + more == more;
    } else {
      RunAppend(Stepped(s, steps[0]), steps[1..], more);
      assert (steps + more)[1..] == steps[1..] + more;
    }
  }

  lemma NoSteps(s: Node)
    ensures CanRun(s, []) && Final(s, []) == s
  {}

  /** What the watchdog sees of an entry; `panicked` is how a finished reporter's handle resolves. */
  datatype Seen = Seen(reporterDone: bool, panicked: bool, workDone: bool, ranFor: nat, abortedFor: Option<nat>)

  const ABORT_GRACE_MS: nat := 10000

  function ActionFor(seen: Seen, timeout: nat): TimeoutAction {
    TimeoutActionFor(seen.workDone, seen.ranFor, seen.abortedFor, timeout, ABORT_GRACE_MS)
  }

  /** The work is still running and has run for longer than it may. */
  predicate Overdue(seen: Seen, timeout: nat) {
    !seen.workDone && seen.ranFor > timeout
  }

  /** It was aborted more than ten seconds ago. */
  predicate Wedged(seen: Seen) {
    seen.abortedFor != None && seen.abortedFor.value > 10000
  }

  /** Overdue work is aborted, and reported once it has ignored that for the grace period; other work is left alone. */
  lemma ActionIs(seen: Seen, timeout: nat)
    ensures ActionFor(seen, timeout) == Leave <==> !Overdue(seen, timeout)
    ensures ActionFor(seen, timeout) == Abort <==> Overdue(seen, timeout) && !Wedged(seen)
    ensures ActionFor(seen, timeout) == ReportIt <==> Overdue(seen, timeout) && Wedged(seen)
  {}

  class Loop {
    var tasks: map<Key, Work>
    var counter: int
    var closed: bool
    var exit: Exit
    var nextWork: Work
    ghost var reporters: map<Work, Reporter>
    ghost var wedged: set<nat>
    ghost var nextWedged: nat
    ghost var late: set<Work>
    ghost var past: Past

    ghost function State(): Node
      reads this
    {
      Node(tasks, reporters, wedged, late, counter, None, nextWork, nextWedged, closed, exit, past)
    }

    /** A delivered task: ignored when closed or already running, otherwise spawned and filed. */
    method OnNewTask(k: Key) returns (accepted: bool, ghost steps: seq<Step>)
      requires AtLoop(State())
      modifies this`tasks, this`counter, this`nextWork, this`reporters, this`past
      ensures CanRun(old(State()), steps) && State() == Final(old(State()), steps)
      ensures accepted <==> !closed && k !in old(tasks)
      ensures accepted ==> tasks == old(tasks)[k := old(nextWork)] && counter == old(counter) + 1
      ensures !accepted ==> State() == old(State())
    {
      ghost var s := State();
      NoSteps(s);
      if closed || k in tasks {
        return false, [];
      }
      RunSnoc(s, [], Receive(k));
      steps := [] + [Receive(k)];
      var work := nextWork;
      nextWork := nextWork + 1;
      counter := counter + 1;
      reporters := reporters[work := Reporter(k, Awaiting)];
      past := past.(keyOf := past.keyOf[work := k]);
      RunSnoc(s, steps, File);
      steps := steps + [File];
      tasks := tasks[k := work];
      accepted := true;
    }

    method OnCancel(k: Key)
      requires AtLoop(State())
      modifies this`tasks, this`past
      ensures State() == Stepped(old(State()), Cancel(k))
      ensures tasks == old(tasks) - {k}
    {
      if k in tasks {
        past := past.(cancelled := past.cancelled + {tasks[k]});
        tasks := tasks - {k};
      }
    }

    /** A reporter whose report has landed: it drops the entry only if that is still its own. */
    method OnReported(k: Key, w: Work)
      requires CanStep(State(), Reported(w)) && reporters[w].key == k
      modifies this`tasks, this`reporters, this`past
      ensures State() == Stepped(old(State()), Reported(w))
      ensures forall j :: j in old(tasks) && old(tasks)[j] != w ==> j in tasks && tasks[j] == old(tasks)[j]
    {
      if k in tasks && tasks[k] == w {
        tasks := tasks - {k};
      }
      past := WithFate(past, w, Told(reporters[w].phase.report));
      reporters := reporters[w := reporters[w].(phase := Finishing)];
    }

    /** The watchdog's first pass sorts every entry by what is to be done about it. */
    method Sort(seen: map<Key, Seen>, timeout: nat) returns (finished: set<Key>, late: set<Key>, stuck: set<Key>)
      requires tasks.Keys <= seen.Keys
      ensures forall k :: k in finished <==> k in tasks && seen[k].reporterDone
      ensures forall k :: k in late <==> k in tasks && !seen[k].reporterDone && ActionFor(seen[k], timeout).Abort?
      ensures forall k :: k in stuck <==> k in tasks && !seen[k].reporterDone && ActionFor(seen[k], timeout).ReportIt?
    {
      hide TimeoutActionFor;
      finished, late, stuck := {}, {}, {};
      var todo := tasks.Keys;
      while todo != {}
        invariant todo <= tasks.Keys
        invariant forall k :: k in finished <==> k in tasks.Keys - todo && seen[k].reporterDone
        invariant forall k :: k in late <==>
          k in tasks.Keys - todo && !seen[k].reporterDone && ActionFor(seen[k], timeout).Abort?
        invariant forall k :: k in stuck <==>
          k in tasks.Keys - todo && !seen[k].reporterDone && ActionFor(seen[k], timeout).ReportIt?
        decreases todo
      {
        var k :| k in todo;
        if seen[k].reporterDone {
          finished := finished + {k};
        } else {
          match ActionFor(seen[k], timeout)
          case Leave =>
          case Abort => late := late + {k};
          case ReportIt => stuck := stuck + {k};
        }
        todo := todo - {k};
      }
    }

    /** Entries whose reporter is over are dropped one by one; a panicked one's failure is reported. */
    method DropFinished(finished: set<Key>, seen: map<Key, Seen>) returns (failed: set<Key>, ghost steps: seq<Step>)
      requires AtLoop(State()) && forall k :: k in finished ==> k in tasks && tasks[k] !in reporters
      requires forall k :: k in finished ==> k in seen && (seen[k].panicked <==> tasks[k] in past.panicked)
      modifies this`tasks, this`past
      ensures CanRun(old(State()), steps) && State() == Final(old(State()), steps)
      ensures tasks == old(tasks) - finished
      ensures forall k :: k in failed <==> k in finished && seen[k].panicked
    {
      hide CanRun, Final;
      ghost var s := State();
      NoSteps(s);
      failed, steps := {}, [];
      var todo := finished;
      assert old(tasks) - (finished - todo) == old(tasks);
      while todo != {}
        invariant todo <= finished && tasks == old(tasks) - (finished - todo)
        invariant past.panicked == old(past.panicked)
        invariant forall k :: k in failed <==> k in finished - todo && seen[k].panicked
        invariant CanRun(s, steps) && State() == Final(s, steps)
        decreases todo
      {
        var k :| k in todo;
        RunSnoc(s, steps, SweepFinished(k));
        steps := steps + [SweepFinished(k)];
        if seen[k].panicked {
          failed := failed + {k};
          past := WithFate(past, tasks[k], FailedByWatchdog);
        }
        tasks := tasks - {k};
        todo := todo - {k};
        assert tasks == old(tasks) - (finished - todo);
      }
      assert finished - todo == finished;
    }

    /** Late entries are flagged and their work aborted, one by one. */
    method AbortLate(keys: set<Key>) returns (ghost steps: seq<Step>)
      requires AtLoop(State()) && keys <= tasks.Keys
      modifies this`late
      ensures CanRun(old(State()), steps) && State() == Final(old(State()), steps)
      ensures late == old(late) + set k | k in keys :: tasks[k]
    {
      hide CanRun, Final;
      ghost var s := State();
      NoSteps(s);
      steps := [];
      var todo := keys;
      while todo != {}
        invariant todo <= keys && late == old(late) + set k | k in keys - todo :: tasks[k]
        invariant CanRun(s, steps) && State() == Final(s, steps)
        decreases todo
      {
        var k :| k in todo;
        RunSnoc(s, steps, SweepLate(k));
        steps := steps + [SweepLate(k)];
        late := late + {tasks[k]};
        todo := todo - {k};
      }
      assert keys - todo == keys;
    }

    /** Work that ignored its abort: one batch reports it all, and the node closes. */
    method ReportStuck(stuck: set<Key>) returns (ghost steps: seq<Step>)
      requires AtLoop(State()) && stuck <= tasks.Keys && forall k :: k in stuck ==> tasks[k] in late
      modifies this`tasks, this`closed, this`counter, this`wedged, this`nextWedged, this`past
      ensures CanRun(old(State()), steps) && State() == Final(old(State()), steps)
      ensures tasks == old(tasks) - stuck && closed == (old(closed) || stuck != {})
    {
      hide CanRun, Final;
      ghost var s := State();
      NoSteps(s);
      steps := [];
      if stuck != {} {
        RunSnoc(s, [], SweepWedged(stuck));
        steps := [] + [SweepWedged(stuck)];
        past := past.(batchOf := Batched(past.batchOf, set k | k in stuck :: tasks[k], nextWedged));
        tasks := tasks - stuck;
        closed := true;
        counter := counter + 1;
        wedged, nextWedged := wedged + {nextWedged}, nextWedged + 1;
      }
    }

    /**
      One watchdog tick: finished entries go, with a failure report for each panicked reporter; late
      work is aborted; and work that ignored its abort for the grace period is reported in one
      batch, which closes the node.
    */
    method Watchdog(seen: map<Key, Seen>, timeout: nat)
      returns (failed: set<Key>, aborted: set<Key>, reported: set<Key>, ghost steps: seq<Step>)
      requires AtLoop(State()) && tasks.Keys <= seen.Keys
      requires forall k :: k in tasks ==> (seen[k].reporterDone <==> tasks[k] !in reporters)
      requires forall k :: k in tasks ==> (seen[k].panicked <==> tasks[k] in past.panicked)
      requires forall k :: k in tasks ==> (seen[k].abortedFor.Some? <==> tasks[k] in late)
      modifies this`tasks, this`closed, this`counter, this`wedged, this`nextWedged, this`late, this`past
      ensures CanRun(old(State()), steps) && State() == Final(old(State()), steps)
      ensures forall k :: k in failed <==>
        k in old(tasks) && old(tasks)[k] !in reporters && old(tasks)[k] in old(past.panicked)
      ensures forall k :: k in aborted <==>
        && k in old(tasks) && old(tasks)[k] in reporters && !seen[k].workDone && seen[k].ranFor > timeout
        && (seen[k].abortedFor == None || seen[k].abortedFor.value <= 10000)
      ensures forall k :: k in reported <==>
        && k in old(tasks) && old(tasks)[k] in reporters && !seen[k].workDone && seen[k].ranFor > timeout
        && seen[k].abortedFor != None && seen[k].abortedFor.value > 10000
      ensures forall k :: k in tasks <==> k in old(tasks) && old(tasks)[k] in reporters && k !in reported
      ensures closed == (old(closed) || reported != {})
    {
      hide CanRun, Final, ActionFor;
      ghost var s := State();
      var finished;
      finished, aborted, reported := Sort(seen, timeout);
      forall k | k in tasks
        ensures ActionFor(seen[k], timeout).Abort? <==> Overdue(seen[k], timeout) && !Wedged(seen[k])
        ensures ActionFor(seen[k], timeout).ReportIt? <==> Overdue(seen[k], timeout) && Wedged(seen[k])
      {
        ActionIs(seen[k], timeout);
      }
      hide CanStep, Stepped;
      ghost var aborts, reports;
      failed, steps := DropFinished(finished, seen);
      aborts := AbortLate(aborted);
      RunAppend(s, steps, aborts);
      reports := ReportStuck(reported);
      RunAppend(s, steps + aborts, reports);
      steps := steps + aborts + reports;
    }

    /** The drain's exit test. */
    method DrainTest()
      requires AtLoop(State()) && closed
      modifies this`exit
      ensures State() == Stepped(old(State()), DrainCheck)
      ensures exit == Drained <==> tasks == map[] && counter == 0
    {
      if tasks == map[] && counter == 0 {
        exit := Drained;
      }
    }
  }
}
