/**
  The memory admission gate of one Redis node, for one client whose gated uploads land no more
  than they reserved. Guards are dropped without the gate's lock, so a decision's two readings,
  the server's memory and then the reservations, are not one moment.
*/
module Admission {
  import opened ClusterTypes

  /** A reservation; `landed` is what its upload has written, `base` what it had at the last sample. */
  datatype Guard = Guard(bytes: nat, landed: nat, base: nat, live: bool)

  /**
    The one decision under way. `slip` counts bytes that landed after the memory sample under
    guards dropped before the reservations were read: they are in neither reading. `freed` counts
    bytes the server has freed since the sample.
  */
  datatype Decision =
    | Idle
    | Sampled(incoming: nat, used: nat, slip: int, freed: nat)
    | Approved(incoming: nat, slip: int)

  datatype Gate = Gate(budget: nat, used: nat, inFlight: int, guards: seq<Guard>, decision: Decision, slipped: int)

  datatype Move =
    | Sample(incoming: nat)
    | Load
    | Reserve
    | Land(guard: nat, bytes: nat)
    | DropGuard(guard: nat)
    | Free(bytes: nat)

  predicate CanMove(s: Gate, m: Move) {
    match m
    case Sample(_) => s.decision.Idle?
    case Load => s.decision.Sampled?
    case Reserve => s.decision.Approved?
    case Land(g, n) => g < |s.guards| && s.guards[g].live && s.guards[g].landed + n <= s.guards[g].bytes
    case DropGuard(g) => g < |s.guards| && s.guards[g].live
    case Free(n) => n <= s.used
  }

  function Rebased(guards: seq<Guard>): seq<Guard> {
    seq(|guards|, i requires 0 <= i < |guards| => guards[i].(base := guards[i].landed))
  }

  function Moved(s: Gate, m: Move): Gate
    requires CanMove(s, m)
  {
    match m
    case Sample(incoming) => s.(decision := Sampled(incoming, s.used, 0, 0), guards := Rebased(s.guards))
    case Load =>
      if s.decision.used + s.inFlight + s.decision.incoming <= s.budget
      then s.(decision := Approved(s.decision.incoming, s.decision.slip))
      else s.(decision := Idle)
    case Reserve =>
      s.(inFlight := s.inFlight + s.decision.incoming,
         guards := s.guards + [Guard(s.decision.incoming, 0, 0, true)],
         slipped := s.decision.slip,
         decision := Idle)
    case Land(g, n) => s.(used := s.used + n, guards := s.guards[g := s.guards[g].(landed := s.guards[g].landed + n)])
    case DropGuard(g) =>
      s.(inFlight := s.inFlight - s.guards[g].bytes,
         guards := s.guards[g := s.guards[g].(live := false)],
         decision := if s.decision.Sampled?
                     then Sampled(s.decision.incoming, s.decision.used,
                                  s.decision.slip + s.guards[g].landed - s.guards[g].base, s.decision.freed)
                     else s.decision)
    case Free(n) =>
      s.(used := s.used - n,
         decision := if s.decision.Sampled?
                     then Sampled(s.decision.incoming, s.decision.used, s.decision.slip, s.decision.freed + n)
                     else s.decision)
  }

  // ---- sums over the live guards ---------------------------------------------------------------

  function Sum(guards: seq<Guard>, f: Guard -> int): int {
    if guards == [] then 0
    else Sum(guards[..|guards| - 1], f) + if guards[|guards| - 1].live then f(guards[|guards| - 1]) else 0
  }

  function Share(g: Guard, f: Guard -> int): int {
    if g.live then f(g) else 0
  }

  lemma {:induction false} SumUpdate(guards: seq<Guard>, i: nat, g: Guard, f: Guard -> int)
    requires i < |guards|
    ensures Sum(guards[i := g], f) == Sum(guards, f) - Share(guards[i], f) + Share(g, f)
    decreases |guards|
  {
    var n := |guards| - 1;
    if i == n {
      assert guards[i := g][..n] == guards[..n];
    } else {
      SumUpdate(guards[..n], i, g, f);
      assert guards[i := g][..n] == guards[..n][i := g];
    }
  }

  lemma SumMore(guards: seq<Guard>, g: Guard, f: Guard -> int)
    ensures Sum(guards + [g], f) == Sum(guards, f) + Share(g, f)
  {
    assert (guards + [g])[..|guards|] == guards;
  }

  lemma {:induction false} SumSame(a: seq<Guard>, b: seq<Guard>, f: Guard -> int, g: Guard -> int)
    requires |a| == |b| && forall i :: 0 <= i < |a| ==> Share(a[i], f) == Share(b[i], g)
    ensures Sum(a, f) == Sum(b, g)
    decreases |a|
  {
    if a != [] {
      SumSame(a[..|a| - 1], b[..|b| - 1], f, g);
    }
  }

  lemma {:induction false} SumAtMost(a: seq<Guard>, f: Guard -> int, g: Guard -> int)
    requires forall i :: 0 <= i < |a| ==> Share(a[i], f) <= Share(a[i], g)
    ensures Sum(a, f) <= Sum(a, g)
    decreases |a|
  {
    if a != [] {
      SumAtMost(a[..|a| - 1], f, g);
    }
  }

  function Reserved(g: Guard): int {
    g.bytes
  }

  function ToCome(g: Guard): int {
    g.bytes - g.landed
  }

  function SinceSample(g: Guard): int {
    g.bytes - g.base
  }

  // ---- what every move keeps -------------------------------------------------------------------

  predicate GuardsSound(guards: seq<Guard>) {
    forall i :: 0 <= i < |guards| ==> guards[i].base <= guards[i].landed <= guards[i].bytes
  }

  /** Memory in use and memory still to come, against the decision's view of them. */
  ghost predicate WithinView(s: Gate) {
    match s.decision
    case Idle => true
    case Sampled(_, used, slip, freed) =>
      s.used + Sum(s.guards, ToCome) + freed == used + Sum(s.guards, SinceSample) + slip
    case Approved(incoming, slip) => s.used + Sum(s.guards, ToCome) + incoming <= s.budget + slip
  }

  ghost predicate GateSound(s: Gate) {
    && GuardsSound(s.guards)
    && s.inFlight == Sum(s.guards, Reserved)
    && s.used + Sum(s.guards, ToCome) <= s.budget + s.slipped
    && WithinView(s)
  }

  lemma SampleKeeps(s: Gate, incoming: nat)
    requires GateSound(s) && CanMove(s, Sample(incoming))
    ensures GateSound(Moved(s, Sample(incoming)))
  {
    var t := Moved(s, Sample(incoming));
    SumSame(s.guards, t.guards, Reserved, Reserved);
    SumSame(s.guards, t.guards, ToCome, ToCome);
    SumSame(t.guards, t.guards, ToCome, SinceSample);
  }

  lemma LoadKeeps(s: Gate)
    requires GateSound(s) && CanMove(s, Load)
    ensures GateSound(Moved(s, Load))
  {
    SumAtMost(s.guards, SinceSample, Reserved);
  }

  lemma ReserveKeeps(s: Gate)
    requires GateSound(s) && CanMove(s, Reserve)
    ensures GateSound(Moved(s, Reserve))
  {
    var g := Guard(s.decision.incoming, 0, 0, true);
    SumMore(s.guards, g, Reserved);
    SumMore(s.guards, g, ToCome);
  }

  lemma GuardKeeps(s: Gate, m: Move)
    requires GateSound(s) && CanMove(s, m) && (m.Land? || m.DropGuard?)
    ensures GateSound(Moved(s, m))
  {
    var g := Moved(s, m).guards[m.guard];
    SumUpdate(s.guards, m.guard, g, Reserved);
    SumUpdate(s.guards, m.guard, g, ToCome);
    SumUpdate(s.guards, m.guard, g, SinceSample);
  }

  lemma MoveKeeps(s: Gate, m: Move)
    requires GateSound(s) && CanMove(s, m)
    ensures GateSound(Moved(s, m))
  {
    match m
    case Sample(incoming) => SampleKeeps(s, incoming);
    case Load => LoadKeeps(s);
    case Reserve => ReserveKeeps(s);
    case Land(_, _) => GuardKeeps(s, m);
    case DropGuard(_) => GuardKeeps(s, m);
    case Free(_) =>
  }

  predicate CanMoves(s: Gate, moves: seq<Move>)
    decreases |moves|
  {
    moves == [] || (CanMove(s, moves[0]) && CanMoves(Moved(s, moves[0]), moves[1..]))
  }

  function Moves(s: Gate, moves: seq<Move>): Gate
    requires CanMoves(s, moves)
    decreases |moves|
  {
    if moves == [] then s else Moves(Moved(s, moves[0]), moves[1..])
  }

  lemma {:induction false} MovesKeep(s: Gate, moves: seq<Move>)
    requires GateSound(s) && CanMoves(s, moves)
    ensures GateSound(Moves(s, moves))
    decreases |moves|
  {
    hide GateSound, Moved, CanMove;
    if moves != [] {
      MoveKeeps(s, moves[0]);
      MovesKeep(Moved(s, moves[0]), moves[1..]);
    }
  }

  /** A node within its budget, with no reservations. */
  predicate Fresh(s: Gate) {
    s.used <= s.budget && s.inFlight == 0 && s.guards == [] && s.decision.Idle? && s.slipped == 0
  }

  /** `in_flight` is always the live reservations, and memory passes the budget by what slipped at most. */
  lemma UsedBounded(s: Gate, moves: seq<Move>)
    requires Fresh(s) && CanMoves(s, moves)
    ensures var t := Moves(s, moves);
      && t.inFlight == Sum(t.guards, Reserved)
      && t.used <= t.budget + t.slipped
  {
    hide CanMoves, Moves;
    MovesKeep(s, moves);
    var t := Moves(s, moves);
    SumNonNegative(t.guards);
  }

  lemma {:induction false} SumNonNegative(guards: seq<Guard>)
    requires GuardsSound(guards)
    ensures Sum(guards, ToCome) >= 0
    decreases |guards|
  {
    if guards != [] {
      SumNonNegative(guards[..|guards| - 1]);
    }
  }

  // ---- when the budget holds ---------------------------------------------------------------------

  /** No guard that landed bytes since the sample is dropped before the reservations are read. */
  predicate Tidy(s: Gate, m: Move)
    requires CanMove(s, m)
  {
    m.DropGuard? && s.decision.Sampled? ==> s.guards[m.guard].landed <= s.guards[m.guard].base
  }

  predicate AllTidy(s: Gate, moves: seq<Move>)
    requires CanMoves(s, moves)
    decreases |moves|
  {
    moves == [] || (Tidy(s, moves[0]) && AllTidy(Moved(s, moves[0]), moves[1..]))
  }

  predicate NoSlip(s: Gate) {
    s.slipped <= 0 && (s.decision.Idle? || s.decision.slip <= 0)
  }

  lemma {:induction false} TidyNeverSlips(s: Gate, moves: seq<Move>)
    requires NoSlip(s) && CanMoves(s, moves) && AllTidy(s, moves)
    ensures NoSlip(Moves(s, moves)) && Moves(s, moves).budget == s.budget
    decreases |moves|
  {
    if moves != [] {
      TidyNeverSlips(Moved(s, moves[0]), moves[1..]);
    }
  }

  /** In every tidy run, memory never passes the budget. */
  lemma BudgetHolds(s: Gate, moves: seq<Move>)
    requires Fresh(s) && CanMoves(s, moves) && AllTidy(s, moves)
    ensures Moves(s, moves).used <= s.budget
  {
    hide CanMoves, Moves, AllTidy;
    UsedBounded(s, moves);
    TidyNeverSlips(s, moves);
  }

  // ---- exactly when one decision goes wrong --------------------------------------------------------

  predicate AllLand(moves: seq<Move>) {
    forall m :: m in moves ==> m.Land?
  }

  /** Landing moves bytes from what is to come to what is used. */
  lemma {:induction false} LandsConserve(s: Gate, moves: seq<Move>)
    requires GuardsSound(s.guards) && CanMoves(s, moves) && AllLand(moves)
    ensures var t := Moves(s, moves);
      && GuardsSound(t.guards) && t.budget == s.budget
      && t.used + Sum(t.guards, ToCome) == s.used + Sum(s.guards, ToCome)
    decreases |moves|
  {
    if moves != [] {
      var m := moves[0];
      assert m in moves;
      SumUpdate(s.guards, m.guard, Moved(s, m).guards[m.guard], ToCome);
      assert forall n :: n in moves[1..] ==> n in moves;
      LandsConserve(Moved(s, m), moves[1..]);
    }
  }

  /** All of it can land. */
  lemma {:induction false} AllCanLand(s: Gate, n: nat)
    requires GuardsSound(s.guards) && n <= |s.guards|
    requires forall i :: n <= i < |s.guards| ==> Share(s.guards[i], ToCome) == 0
    ensures exists moves :: AllLand(moves) && CanMoves(s, moves) && Moves(s, moves).used == s.used + Sum(s.guards, ToCome)
    decreases n
  {
    if n == 0 {
      SumSame(s.guards, s.guards, ToCome, Nought);
      SumZero(s.guards);
      assert AllLand([]) && CanMoves(s, []) && Moves(s, []) == s;
    } else if !s.guards[n - 1].live {
      AllCanLand(s, n - 1);
    } else {
      var g := s.guards[n - 1];
      var m := Land(n - 1, g.bytes - g.landed);
      SumUpdate(s.guards, n - 1, Moved(s, m).guards[n - 1], ToCome);
      AllCanLand(Moved(s, m), n - 1);
      var rest :| AllLand(rest) && CanMoves(Moved(s, m), rest)
        && Moves(Moved(s, m), rest).used == Moved(s, m).used + Sum(Moved(s, m).guards, ToCome);
      MovesOnce(s, m, rest);
      assert AllLand([m] + rest);
    }
  }

  function Nought(g: Guard): int {
    0
  }

  lemma {:induction false} SumZero(guards: seq<Guard>)
    ensures Sum(guards, Nought) == 0
    decreases |guards|
  {
    if guards != [] {
      SumZero(guards[..|guards| - 1]);
    }
  }

  /** Some way of landing what is reserved passes the budget. */
  ghost predicate CanOverflow(s: Gate) {
    exists moves :: AllLand(moves) && CanMoves(s, moves) && Moves(s, moves).used > s.budget
  }

  lemma OverflowsExactly(s: Gate)
    requires GuardsSound(s.guards)
    ensures CanOverflow(s) <==> s.used + Sum(s.guards, ToCome) > s.budget
  {
    if CanOverflow(s) {
      var moves :| AllLand(moves) && CanMoves(s, moves) && Moves(s, moves).used > s.budget;
      LandsConserve(s, moves);
      SumNonNegative(Moves(s, moves).guards);
    }
    AllCanLand(s, |s.guards|);
  }

  /**
    A decision that lets an upload in is unsafe exactly when what slipped between its readings is
    more than the room its check left, counting what the server freed meanwhile.
  */
  lemma ApprovalUnsafeExactly(s: Gate)
    requires GateSound(s) && s.decision.Sampled?
    requires s.decision.used + s.inFlight + s.decision.incoming <= s.budget
    ensures var d := s.decision;
      CanOverflow(Moved(Moved(s, Load), Reserve)) <==>
      d.slip > s.budget + d.freed - (d.used + Sum(s.guards, SinceSample) + d.incoming)
  {
    var t := Moved(Moved(s, Load), Reserve);
    MoveKeeps(s, Load);
    MoveKeeps(Moved(s, Load), Reserve);
    SumMore(s.guards, Guard(s.decision.incoming, 0, 0, true), ToCome);
    OverflowsExactly(t);
  }

  lemma MovesOnce(s: Gate, m: Move, rest: seq<Move>)
    requires CanMove(s, m) && CanMoves(Moved(s, m), rest)
    ensures CanMoves(s, [m] + rest) && Moves(s, [m] + rest) == Moves(Moved(s, m), rest)
  {
    hide CanMove, Moved;
    assert ([m] + rest)[1..] == rest;
  }

  function EmptyGate(budget: nat): Gate {
    Gate(budget, 0, 0, [], Idle, 0)
  }

  /**
    Untidy runs can pass it. One upload lands all of its x bytes and is done between another's
    two readings; the other sees neither its memory nor its reservation and is let in with y.
  */
  lemma BudgetPassed(budget: nat, x: nat, y: nat)
    requires x <= budget && y <= budget && x + y > budget
    ensures exists moves :: CanMoves(EmptyGate(budget), moves) && Moves(EmptyGate(budget), moves).used == x + y
  {
    var empty := EmptyGate(budget);
    var sampled := Moved(empty, Sample(x));
    var approved := Moved(sampled, Load);
    var s0 := Moved(approved, Reserve);
    var s1 := Moved(s0, Sample(y));
    var s2 := Moved(s1, Land(0, x));
    var s3 := Moved(s2, DropGuard(0));
    var s4 := Moved(s3, Load);
    var s5 := Moved(s4, Reserve);
    var m5 := [Land(1, y)] + [];
    MovesOnce(s5, Land(1, y), []);
    var m4 := [Reserve] + m5;
    MovesOnce(s4, Reserve, m5);
    var m3 := [Load] + m4;
    MovesOnce(s3, Load, m4);
    var m2 := [DropGuard(0)] + m3;
    MovesOnce(s2, DropGuard(0), m3);
    var m1 := [Land(0, x)] + m2;
    MovesOnce(s1, Land(0, x), m2);
    var m0 := [Sample(y)] + m1;
    MovesOnce(s0, Sample(y), m1);
    MovesOnce(approved, Reserve, m0);
    MovesOnce(sampled, Load, [Reserve] + m0);
    MovesOnce(empty, Sample(x), [Load] + ([Reserve] + m0));
    assert CanMoves(empty, [Sample(x)] + ([Load] + ([Reserve] + m0)));
  }

  // ---- the wait loop -----------------------------------------------------------------------------

  const ADMISSION_BYPASS_BYTES: nat := 2097152
  const ADMISSION_MAX_WAIT_MS: nat := 120000

  /** `used + in_flight + incoming` in saturating 64-bit sums. */
  function Projected(used: nat, inFlight: nat, incoming: nat): nat {
    SatAdd64(SatAdd64(used, inFlight), incoming)
  }

  /** Saturation never lets anything past a budget below the largest 64-bit number. */
  lemma ProjectedFits(used: nat, inFlight: nat, incoming: nat, budget: nat)
    requires budget < U64_MAX
    ensures Projected(used, inFlight, incoming) <= budget <==> used + inFlight + incoming <= budget
  {}

  /** One turn of the loop: INFO's used and max memory if it answered, the reservations, and the wait so far. */
  datatype Poll = Poll(used: Option<nat>, max: Option<nat>, inFlight: nat, waited: nat)

  datatype Verdict = Open | Granted | GaveUp | StillWaiting

  predicate Readable(p: Poll) {
    p.used.Some? && p.max.Some? && p.max.value > 0
  }

  /** `budgetOf` is the budget computed for a memory limit, four fifths of it in floating point. */
  predicate Fits(p: Poll, incoming: nat, budgetOf: nat -> nat) {
    Readable(p) && Projected(p.used.value, p.inFlight, incoming) <= budgetOf(p.max.value)
  }

  /** Turned away this time and told to try again. */
  predicate Waits(p: Poll, incoming: nat, budgetOf: nat -> nat) {
    Readable(p) && !Fits(p, incoming, budgetOf) && p.waited <= ADMISSION_MAX_WAIT_MS
  }

  /** The loop's test is the gate's: what a poll grants is what the gate approves. */
  lemma PollDecidesAsGate(s: Gate, max: nat, waited: nat, budgetOf: nat -> nat)
    requires s.decision.Sampled? && s.inFlight >= 0 && max > 0 && s.budget == budgetOf(max) < U64_MAX
    ensures Moved(s, Load).decision.Approved? <==>
      Fits(Poll(Some(s.decision.used), Some(max), s.inFlight, waited), s.decision.incoming, budgetOf)
  {
    ProjectedFits(s.decision.used, s.inFlight, s.decision.incoming, s.budget);
  }

  /** `check_admission`: `turns` is the number of polls made; only a grant reserves. */
  method CheckAdmission(incoming: nat, polls: seq<Poll>, budgetOf: nat -> nat)
    returns (verdict: Verdict, reserved: nat, turns: nat)
    ensures turns <= |polls|
    ensures incoming <= 2097152 ==> verdict == Open && turns == 0
    ensures reserved == if verdict.Granted? then incoming else 0
    ensures incoming > 2097152 && verdict != StillWaiting ==>
      && turns > 0
      && var p := polls[turns - 1];
         && (verdict == Open <==> p.used == None || p.max == None || p.max.value == 0)
         && (verdict == Granted <==>
               verdict != Open && Projected(p.used.value, p.inFlight, incoming) <= budgetOf(p.max.value))
         && (verdict == GaveUp ==> p.waited > 120000)
    ensures forall i :: 0 <= i < (if verdict.StillWaiting? then turns else turns - 1) ==>
      && polls[i].used != None && polls[i].max != None && polls[i].max.value > 0 && polls[i].waited <= 120000
      && Projected(polls[i].used.value, polls[i].inFlight, incoming) > budgetOf(polls[i].max.value)
    ensures verdict.StillWaiting? ==> turns == |polls|
  {
    reserved, turns := 0, 0;
    if incoming <= ADMISSION_BYPASS_BYTES {
      return Open, 0, 0;
    }
    while turns < |polls|
      invariant turns <= |polls|
      invariant forall i :: 0 <= i < turns ==> Waits(polls[i], incoming, budgetOf)
    {
      var p := polls[turns];
      turns := turns + 1;
      if p.used.None? || p.max.None? || p.max.value == 0 {
        return Open, 0, turns;
      }
      var projected := SatAdd64(SatAdd64(p.used.value, p.inFlight), incoming);
      if projected <= budgetOf(p.max.value) {
        return Granted, incoming, turns;
      }
      if p.waited > ADMISSION_MAX_WAIT_MS {
        return GaveUp, 0, turns;
      }
    }
    verdict := StillWaiting;
  }
}
