/**
  A worker's two heartbeat paths and the coordinator's eviction clock, in milliseconds. The
  dedicated thread beats every interval; when its beats stop landing, the main loop covers at the
  next prompt. Runs may mix failures, recoveries and lost replies in any way, as long as the
  thread keeps ticking, prompts keep coming and a covering beat lands within its deadline.
*/
module Heartbeats {
  import opened ClusterTypes

  const HEARTBEAT_INTERVAL: nat := 5000
  const HEARTBEAT_RPC_TIMEOUT: nat := 3000
  const BEATS_STALE_AFTER: nat := 10000
  const SERVER_HEARTBEAT_INTERVAL: nat := 5000
  const MIN_WORKER_HEARTBEAT_TIMEOUT: nat := 4 * SERVER_HEARTBEAT_INTERVAL / 1000
  const MAX_GAP: nat := 16000

  predicate Stale(lastOk: Option<nat>, now: nat) {
    lastOk.None? || now - lastOk.value > BEATS_STALE_AFTER
  }

  /** The thread waits for its next tick, or has a beat under way since `sent`. */
  datatype Thread = Waiting(tickBy: nat) | Sending(sent: nat, landed: bool)

  datatype Beats = Beats(
    now: nat,
    lastLanded: nat,          // when the coordinator last took a beat
    thread: Thread,
    clock: Option<nat>,       // BeatClock
    okSent: nat,              // when the beat the clock remembers was sent
    promptBy: nat,            // the next prompt is handled by then
    cover: Option<nat>)       // a covering beat under way, landing by then

  datatype Event =
    | Pass(ms: nat)
    | TickFires
    | BeatLands               // the coordinator takes the thread's beat
    | BeatReturns(ok: bool)   // the thread sees the outcome; a reply may be lost
    | Prompt(next: nat)
    | CoverLands
    | StrayLands              // a beat given up on arrives late

  /** Time passes no deadline: the thread's next tick or reply, and the main loop's next prompt or cover. */
  predicate WithinDeadlines(s: Beats, t: nat) {
    && t <= (if s.thread.Waiting? then s.thread.tickBy else s.thread.sent + HEARTBEAT_RPC_TIMEOUT)
    && (if s.cover.Some? then t <= s.cover.value else t <= s.promptBy)
  }

  predicate CanHappen(s: Beats, e: Event) {
    match e
    case Pass(ms) => WithinDeadlines(s, s.now + ms)
    case TickFires => s.thread.Waiting?
    case BeatLands => s.thread.Sending? && !s.thread.landed
    case BeatReturns(ok) => s.thread.Sending? && (ok ==> s.thread.landed)
    case Prompt(next) => s.cover.None? && s.now <= next <= s.now + SERVER_HEARTBEAT_INTERVAL
    case CoverLands => s.cover.Some?
    case StrayLands => true
  }

  function Happens(s: Beats, e: Event): Beats
    requires CanHappen(s, e)
  {
    match e
    case Pass(ms) => s.(now := s.now + ms)
    case TickFires => s.(thread := Sending(s.now, false))
    case BeatLands => s.(thread := s.thread.(landed := true), lastLanded := s.now)
    case BeatReturns(ok) =>
      s.(thread := Waiting(s.thread.sent + HEARTBEAT_INTERVAL),
         clock := if ok then Some(s.now) else None,
         okSent := if ok then s.thread.sent else s.okSent)
    case Prompt(next) =>
      s.(promptBy := next,
         cover := if Stale(s.clock, s.now) then Some(s.now + HEARTBEAT_RPC_TIMEOUT) else None)
    case CoverLands =>  // a prompt that came meanwhile is handled at once
      s.(lastLanded := s.now, cover := None, promptBy := if s.promptBy < s.now then s.now else s.promptBy)
    case StrayLands => s.(lastLanded := s.now)
  }

  /** Registration counts as a beat; the clock starts stale, and the thread may be in mid-beat already. */
  predicate Registered(s: Beats) {
    && s.lastLanded == s.now && s.clock.None? && s.cover.None?
    && (if s.thread.Waiting? then s.now <= s.thread.tickBy <= s.now + HEARTBEAT_INTERVAL
        else s.thread.sent <= s.now <= s.thread.sent + HEARTBEAT_RPC_TIMEOUT)
    && s.now <= s.promptBy <= s.now + SERVER_HEARTBEAT_INTERVAL
  }

  predicate CanAllHappen(s: Beats, events: seq<Event>)
    decreases |events|
  {
    events == [] || (CanHappen(s, events[0]) && CanAllHappen(Happens(s, events[0]), events[1..]))
  }

  function AllHappen(s: Beats, events: seq<Event>): Beats
    requires CanAllHappen(s, events)
    decreases |events|
  {
    if events == [] then s else AllHappen(Happens(s, events[0]), events[1..])
  }

  // ---- the bound -------------------------------------------------------------------------

  /** The beat the clock remembers landed, and the thread acts again within an interval of sending it. */
  predicate ClockSound(s: Beats) {
    s.clock.Some? ==>
      && s.okSent <= s.lastLanded && s.okSent <= s.clock.value
      && (if s.thread.Waiting? then s.thread.tickBy else s.thread.sent) <= s.okSent + HEARTBEAT_INTERVAL
  }

  /** With the clock cleared, the next prompt or the cover under way is in time. */
  predicate Covered(s: Beats) {
    && (s.cover.Some? ==> s.cover.value <= s.lastLanded + MAX_GAP)
    && (s.clock.None? && s.cover.None? ==> s.promptBy + HEARTBEAT_RPC_TIMEOUT <= s.lastLanded + MAX_GAP)
  }

  predicate BeatsSound(s: Beats) {
    && s.lastLanded <= s.now
    && WithinDeadlines(s, s.now)
    && (s.thread.Sending? ==> s.thread.sent <= s.now && (s.thread.landed ==> s.thread.sent <= s.lastLanded))
    && (s.thread.Waiting? ==> s.thread.tickBy <= s.now + HEARTBEAT_INTERVAL)
    && s.promptBy <= s.now + SERVER_HEARTBEAT_INTERVAL
    && (s.cover.Some? ==> s.cover.value <= s.now + HEARTBEAT_RPC_TIMEOUT)
    && ClockSound(s) && Covered(s)
  }

  lemma EventKeeps(s: Beats, e: Event)
    requires BeatsSound(s) && CanHappen(s, e)
    ensures BeatsSound(Happens(s, e))
  {}

  lemma {:induction false} EventsKeep(s: Beats, events: seq<Event>)
    requires BeatsSound(s) && CanAllHappen(s, events)
    ensures BeatsSound(AllHappen(s, events))
    decreases |events|
  {
    hide BeatsSound, Happens, CanHappen;
    if events != [] {
      EventKeeps(s, events[0]);
      EventsKeep(Happens(s, events[0]), events[1..]);
    }
  }

  /** In every run the coordinator is never without a beat for more than 16 seconds. */
  lemma GapBounded(s: Beats, events: seq<Event>)
    requires Registered(s) && CanAllHappen(s, events)
    ensures var t := AllHappen(s, events);
      t.lastLanded <= t.now <= t.lastLanded + MAX_GAP
  {
    hide CanAllHappen, AllHappen;
    EventsKeep(s, events);
  }

  /**
    While the thread keeps ticking, the age limit never decides: the clock is stale exactly when no
    beat has landed yet or the last one failed, so the main loop takes over on the failure itself.
  */
  lemma StaleExactlyWhenCleared(s: Beats, events: seq<Event>)
    requires Registered(s) && CanAllHappen(s, events)
    ensures var t := AllHappen(s, events); Stale(t.clock, t.now) <==> t.clock.None?
  {
    hide CanAllHappen, AllHappen;
    EventsKeep(s, events);
  }

  /** The dedicated thread's last beat, if it landed; `beats` is the run it is part of. */
  class BeatClock {
    var lastOk: Option<nat>
    ghost var beats: Beats

    ghost predicate Valid()
      reads this
    {
      BeatsSound(beats) && beats.clock == lastOk
    }

    constructor (ghost start: Beats)
      requires Registered(start)
      ensures Valid() && beats == start
    {
      lastOk := None;
      beats := start;
    }

    /** What the thread does when a beat comes back. A beat that went well has reached the coordinator. */
    method Record(landed: bool, now: nat)
      requires Valid() && now == beats.now && CanHappen(beats, BeatReturns(landed))
      modifies this
      ensures Valid() && beats == Happens(old(beats), BeatReturns(landed))
      ensures landed ==> old(beats.thread.sent) <= beats.lastLanded
    {
      beats := Happens(beats, BeatReturns(landed));
      lastOk := if landed then Some(now) else None;
    }

    /**
      What the main loop asks at a prompt: it covers exactly when the model does, that is after a
      failed beat, and otherwise the coordinator has had one within the last 8 seconds.
    */
    method IsStale(now: nat) returns (stale: bool)
      requires Valid() && now == beats.now
      ensures forall next :: CanHappen(beats, Prompt(next)) ==> (stale <==> Happens(beats, Prompt(next)).cover.Some?)
      ensures stale <==> lastOk.None?
      ensures !stale ==> now <= beats.lastLanded + HEARTBEAT_INTERVAL + HEARTBEAT_RPC_TIMEOUT
    {
      if lastOk.None? {
        return true;
      }
      stale := now - lastOk.value > BEATS_STALE_AFTER;
    }
  }

  // ---- eviction --------------------------------------------------------------------------

  /** `set_worker_heartbeat_timeout`: never below the floor. */
  function ClampTimeout(secs: nat): nat {
    if secs < MIN_WORKER_HEARTBEAT_TIMEOUT then MIN_WORKER_HEARTBEAT_TIMEOUT else secs
  }

  /** `cleanup_dead_workers` compares whole seconds, each rounded down. */
  predicate Evicts(lastLanded: nat, now: nat, timeout: nat) {
    lastLanded / 1000 + timeout < now / 1000
  }

  /**
    A worker silent for a second more than the timeout, at least 20 seconds whatever is configured, is
    evicted; one that beat within the timeout is not.
  */
  lemma SilentIsEvicted(lastLanded: nat, now: nat, secs: nat)
    requires lastLanded <= now
    ensures var timeout := if secs < 20 then 20 else secs;
      && ClampTimeout(secs) == timeout
      && (now >= lastLanded + 1000 * (timeout + 1) ==> Evicts(lastLanded, now, ClampTimeout(secs)))
      && (now <= lastLanded + 1000 * timeout ==> !Evicts(lastLanded, now, ClampTimeout(secs)))
  {}

  /** A worker that keeps beating on either path is never evicted, whatever timeout is configured. */
  lemma NeverEvicted(s: Beats, events: seq<Event>, secs: nat)
    requires Registered(s) && CanAllHappen(s, events)
    ensures !Evicts(AllHappen(s, events).lastLanded, AllHappen(s, events).now, ClampTimeout(secs))
  {
    hide CanAllHappen, AllHappen;
    GapBounded(s, events);
  }
}
