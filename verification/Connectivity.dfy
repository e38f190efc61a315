/** The connectivity monitor over every trace of probes and drains, and whether the sync engine that
    listens to it keeps in step. */
module Connectivity {
  import opened Basics

  datatype ConnState = Online | Offline | Reconnecting

  /** `contexts` are the contexts made so far, true when cancelled; the last one is current. */
  datatype Mon = Mon(state: ConnState, failures: nat, contexts: seq<bool>)

  const FRESH := Mon(Online, 0, [false])

  datatype Event = Probe(ok: bool) | Drained

  function CancelLast(contexts: seq<bool>): seq<bool>
    requires contexts != []
  {
    contexts[|contexts| - 1 := true]
  }

  /** One probe result or one NotifyQueueDrained. */
  function Next(threshold: int, m: Mon, e: Event): Mon
    requires m.contexts != []
  {
    match e
    case Probe(false) =>
      var n := m.failures + 1;
      if (m.state.Online? && n >= threshold) || m.state.Reconnecting? then Mon(Offline, n, CancelLast(m.contexts))
      else m.(failures := n)
    case Probe(true) =>
      if m.state.Offline? then Mon(Reconnecting, 0, m.contexts + [false]) else m.(failures := 0)
    case Drained =>
      if m.state.Reconnecting? then m.(state := Online) else m
  }

  class Monitor {
    const threshold: int
    var state: ConnState
    var failures: nat
    var contexts: seq<bool>

    ghost function Value(): Mon
      reads this
    {
      Mon(state, failures, contexts)
    }

    constructor (threshold: int)
      ensures Value() == FRESH && ContextsRight(Value()) && this.threshold == threshold
    {
      this.threshold := threshold;
      state, failures, contexts := Online, 0, [false];
    }

    /** The context that callers get now: the only one that can still be alive, and cancelled exactly while
        the monitor is offline. */
    method Context() returns (handle: nat)
      requires ContextsRight(Value())
      ensures handle < |contexts| && (contexts[handle] <==> state.Offline?)
      ensures forall i | 0 <= i < |contexts| && !contexts[i] :: i == handle
    {
      handle := |contexts| - 1;
    }

    /** The state to broadcast, if it has changed. */
    method Probed(ok: bool) returns (changed: Option<ConnState>)
      requires contexts != []
      modifies this
      ensures Value() == Next(threshold, old(Value()), Probe(ok))
      ensures old(ContextsRight(Value())) ==> ContextsRight(Value())
      ensures changed == if state == old(state) then None else Some(state)
    {
      changed := None;
      if !ok {
        failures := failures + 1;
        if state.Online? && failures >= threshold {
          state := Offline;
          contexts := contexts[|contexts| - 1 := true];
          return Some(Offline);
        }
        if state.Reconnecting? {
          state := Offline;
          contexts := contexts[|contexts| - 1 := true];
          return Some(Offline);
        }
        return;
      }
      failures := 0;
      if state.Offline? {
        contexts := contexts + [false];
        state := Reconnecting;
        changed := Some(Reconnecting);
      }
    }

    method NotifyQueueDrained() returns (changed: Option<ConnState>)
      requires contexts != []
      modifies this
      ensures Value() == Next(threshold, old(Value()), Drained)
      ensures old(ContextsRight(Value())) ==> ContextsRight(Value())
      ensures changed == if state == old(state) then None else Some(state)
    {
      if !state.Reconnecting? {
        return None;
      }
      state := Online;
      changed := Some(Online);
    }
  }

  // ---------- Traces ----------

  function After(threshold: int, events: seq<Event>): (m: Mon)
    ensures m.contexts != []
  {
    if events == [] then FRESH else Next(threshold, After(threshold, events[..|events| - 1]), events[|events| - 1])
  }

  /** The number of failed probes since the last success. */
  function TrailingFailures(events: seq<Event>): nat {
    if events == [] then 0
    else match events[|events| - 1]
      case Probe(true) => 0
      case Probe(false) => TrailingFailures(events[..|events| - 1]) + 1
      case Drained => TrailingFailures(events[..|events| - 1])
  }

  /** What came before the first failure of the trailing run. */
  function BeforeRun(events: seq<Event>): seq<Event> {
    if TrailingFailures(events) == 0 then events
    else
      var rest := events[..|events| - 1];
      if events[|events| - 1].Drained? || TrailingFailures(rest) > 0 then BeforeRun(rest) else rest
  }

  /** All contexts but the current one are cancelled, and the current one exactly while offline. */
  ghost predicate ContextsRight(m: Mon) {
    && m.contexts != []
    && (forall i | 0 <= i < |m.contexts| - 1 :: m.contexts[i])
    && (m.contexts[|m.contexts| - 1] <==> m.state.Offline?)
  }

  lemma {:induction false} ContextsAlwaysRight(threshold: int, events: seq<Event>)
    ensures ContextsRight(After(threshold, events))
  {
    if events != [] {
      ContextsAlwaysRight(threshold, events[..|events| - 1]);
    }
  }

  /** Every context handed out before the monitor is offline is cancelled then, and stays cancelled. */
  lemma {:induction false} OldContextsCancelled(threshold: int, early: seq<Event>, later: seq<Event>)
    ensures var m, n := After(threshold, early), After(threshold, early + later);
      && |m.contexts| <= |n.contexts|
      && forall i | 0 <= i < |m.contexts| :: m.contexts[i] || n.state.Offline? ==> n.contexts[i]
  {
    if later == [] {
      assert early + later == early;
      ContextsAlwaysRight(threshold, early);
    } else {
      var all, rest := early + later, later[..|later| - 1];
      assert all[..|all| - 1] == early + rest;
      OldContextsCancelled(threshold, early, rest);
      ContextsAlwaysRight(threshold, early + rest);
      ContextsAlwaysRight(threshold, all);
    }
  }

  lemma {:induction false} FailuresCounted(threshold: int, events: seq<Event>)
    ensures var m := After(threshold, events);
      && m.failures == TrailingFailures(events)
      && (m.state.Online? ==> m.failures == 0 || m.failures < threshold)
      && (m.state.Reconnecting? ==> m.failures == 0) && (m.state.Offline? ==> m.failures > 0)
  {
    if events != [] {
      FailuresCounted(threshold, events[..|events| - 1]);
    }
  }

  /** Offline, in terms of the trace alone: the trailing run of failures has reached the threshold, or
      it began while the monitor was reconnecting. A threshold below one acts as one. */
  lemma {:induction false} OfflineExactly(threshold: int, events: seq<Event>)
    ensures After(threshold, events).state.Offline? <==>
      var n := TrailingFailures(events);
      n > 0 && (n >= threshold || After(threshold, BeforeRun(events)).state.Reconnecting?)
  {
    FailuresCounted(threshold, events);
    if events != [] {
      var rest := events[..|events| - 1];
      OfflineExactly(threshold, rest);
      FailuresCounted(threshold, rest);
      if TrailingFailures(events) > 0 && (events[|events| - 1].Drained? || TrailingFailures(rest) > 0) {
        assert BeforeRun(events) == BeforeRun(rest);
      }
    }
  }

  /** The step that goes offline is the threshold-th failure in a row when online, the first when
      reconnecting. */
  lemma GoesOfflineAt(threshold: int, events: seq<Event>, e: Event)
    requires !After(threshold, events).state.Offline?
    ensures After(threshold, events + [e]).state.Offline? <==>
      && e == Probe(false)
      && (After(threshold, events).state.Reconnecting?
          || TrailingFailures(events + [e]) == (if threshold < 1 then 1 else threshold))
  {
    FailuresCounted(threshold, events);
    assert (events + [e])[..|events|] == events;
  }

  // ---------- The engine that listens ----------

  /** The listener: waiting for the next state, draining after a reconnect, or about to broadcast what
      NotifyQueueDrained has changed and to resume. */
  datatype Listener = Idle | Draining | Notifying(change: Option<ConnState>)

  /** The subscriber's channel holds one value; a broadcast to a full channel is dropped. `sending` is the
      change that the probe goroutine has made and not yet broadcast. */
  datatype Link = Link(mon: Mon, channel: Option<ConnState>, sending: Option<ConnState>, listener: Listener,
      paused: bool)

  datatype Move = Result(ok: bool) | Send | Receive | Notify | Resume

  predicate CanMove(l: Link, move: Move) {
    && l.mon.contexts != []
    && match move
       case Result(_) => l.sending.None?
       case Send => l.sending.Some?
       case Receive => l.listener.Idle? && l.channel.Some?
       case Notify => l.listener.Draining?
       case Resume => l.listener.Notifying?
  }

  function Change(before: Mon, after: Mon): Option<ConnState> {
    if before.state == after.state then None else Some(after.state)
  }

  function Pushed(channel: Option<ConnState>, change: Option<ConnState>): Option<ConnState> {
    if channel.None? then change else channel
  }

  function Moved(threshold: int, l: Link, move: Move): Link
    requires CanMove(l, move)
  {
    match move
    case Result(ok) =>
      var m := Next(threshold, l.mon, Probe(ok));
      l.(mon := m, sending := Change(l.mon, m))
    case Send => l.(channel := Pushed(l.channel, l.sending), sending := None)
    case Receive =>
      var s := l.channel.value;
      l.(channel := None, paused := l.paused || s.Offline?, listener := if s.Reconnecting? then Draining else Idle)
    case Notify =>
      var m := Next(threshold, l.mon, Drained);
      l.(mon := m, listener := Notifying(Change(l.mon, m)))
    case Resume => l.(channel := Pushed(l.channel, l.listener.change), listener := Idle, paused := false)
  }

  /** A broadcast to a full channel. */
  predicate Dropped(l: Link, move: Move)
    requires CanMove(l, move)
  {
    l.channel.Some? && (move.Send? || (move.Resume? && l.listener.change.Some?))
  }

  ghost predicate IsHistory(threshold: int, l: Link, moves: seq<Move>)
    decreases |moves|
  {
    moves == [] || (CanMove(l, moves[0]) && IsHistory(threshold, Moved(threshold, l, moves[0]), moves[1..]))
  }

  ghost function EndLink(threshold: int, l: Link, moves: seq<Move>): Link
    requires IsHistory(threshold, l, moves)
    decreases |moves|
  {
    if moves == [] then l else EndLink(threshold, Moved(threshold, l, moves[0]), moves[1..])
  }

  ghost predicate NothingDropped(threshold: int, l: Link, moves: seq<Move>)
    requires IsHistory(threshold, l, moves)
    decreases |moves|
  {
    moves == [] || (!Dropped(l, moves[0]) && NothingDropped(threshold, Moved(threshold, l, moves[0]), moves[1..]))
  }

  /** Everything is broadcast and handled. */
  predicate Quiet(l: Link) {
    l.channel.None? && l.sending.None? && l.listener.Idle?
  }

  /** Paused exactly while the monitor is offline, and never left waiting for a drain. */
  predicate InStep(l: Link) {
    !l.mon.state.Reconnecting? && (l.paused <==> l.mon.state.Offline?)
  }

  /** What holds as long as nothing was dropped, by what the listener has not seen: the value in the channel
      and the one about to be broadcast. A reconnect that waits behind an outage while the listener is
      about to broadcast the end of an earlier drain is not lost yet, but one of the two will be. */
  ghost predicate Tracking(l: Link) {
    && l.mon.contexts != []
    && (l.listener.Notifying? && l.listener.change.Some? ==> l.listener.change == Some(Online))
    && match (l.channel, l.sending)
       case (None, None) =>
         (match l.listener
          case Idle => InStep(l)
          case Draining => l.mon.state.Reconnecting?
          case Notifying(change) => change.Some? && l.mon.state.Online?)
       case (Some(Online), None) => l.listener.Idle? && l.mon.state.Online? && !l.paused
       case (Some(Offline), None) => l.mon.state.Offline?
       case (None, Some(Offline)) => l.mon.state.Offline?
       case (Some(seen), Some(Offline)) => !seen.Offline? && l.listener.Idle? && l.mon.state.Offline?
       case (Some(Offline), Some(Reconnecting)) =>
         (l.listener.Notifying? && l.listener.change.Some?) || l.mon.state.Reconnecting?
       case (Some(Reconnecting), None) => l.listener.Idle? && l.mon.state.Reconnecting?
       case (None, Some(Reconnecting)) => l.listener.Idle? && l.mon.state.Reconnecting?
       case _ => false
  }

  lemma TrackingMove(threshold: int, l: Link, move: Move)
    requires Tracking(l) && CanMove(l, move) && !Dropped(l, move)
    ensures Tracking(Moved(threshold, l, move))
  {
  }

  /** If no broadcast was dropped, the engine is in step whenever it has handled all there is, however the
      changes of state, the broadcasts and the listener interleave. */
  lemma {:induction false} InStepUnlessDropped(threshold: int, l: Link, moves: seq<Move>)
    requires Tracking(l) && IsHistory(threshold, l, moves) && NothingDropped(threshold, l, moves)
    ensures Tracking(EndLink(threshold, l, moves))
    ensures Quiet(EndLink(threshold, l, moves)) ==> InStep(EndLink(threshold, l, moves))
    decreases |moves|
  {
    if moves != [] {
      TrackingMove(threshold, l, moves[0]);
      InStepUnlessDropped(threshold, Moved(threshold, l, moves[0]), moves[1..]);
    }
  }

  ghost predicate NoFailures(moves: seq<Move>) {
    forall move | move in moves :: move != Result(false)
  }

  /** When all is handled and the monitor is not offline, successful probes change nothing more. */
  lemma {:induction false} QuietStays(threshold: int, l: Link, moves: seq<Move>)
    requires Quiet(l) && !l.mon.state.Offline? && IsHistory(threshold, l, moves) && NoFailures(moves)
    ensures var e := EndLink(threshold, l, moves);
      Quiet(e) && e.mon.state == l.mon.state && e.paused == l.paused
    decreases |moves|
  {
    if moves != [] {
      assert moves[0] in moves && moves[0] == Result(true);
      assert forall move | move in moves[1..] :: move in moves;
      QuietStays(threshold, Moved(threshold, l, moves[0]), moves[1..]);
    }
  }

  predicate AtWork(l: Link) {
    Quiet(l) && l.mon.state.Online? && !l.paused
  }

  ghost predicate Recovers(threshold: int, l: Link) {
    exists moves :: IsHistory(threshold, l, moves) && NoFailures(moves) && AtWork(EndLink(threshold, l, moves))
  }

  /** One more move at the front of a history. */
  lemma History(threshold: int, l: Link, move: Move, rest: seq<Move>)
    requires CanMove(l, move) && IsHistory(threshold, Moved(threshold, l, move), rest)
    ensures IsHistory(threshold, l, [move] + rest)
    ensures EndLink(threshold, l, [move] + rest) == EndLink(threshold, Moved(threshold, l, move), rest)
  {
    assert ([move] + rest)[1..] == rest;
  }

  lemma OfflineRecovers(threshold: int, l: Link)
    requires Quiet(l) && l.mon.contexts != [] && l.mon.state.Offline?
    ensures Recovers(threshold, l)
  {
    var a := Moved(threshold, l, Result(true));
    var b := Moved(threshold, a, Send);
    var c := Moved(threshold, b, Receive);
    var d := Moved(threshold, c, Notify);
    var e := Moved(threshold, d, Resume);
    var f := Moved(threshold, e, Receive);
    assert IsHistory(threshold, f, []);
    History(threshold, e, Receive, []);
    History(threshold, d, Resume, [Receive] + []);
    History(threshold, c, Notify, [Resume] + ([Receive] + []));
    History(threshold, b, Receive, [Notify] + ([Resume] + ([Receive] + [])));
    History(threshold, a, Send, [Receive] + ([Notify] + ([Resume] + ([Receive] + []))));
    History(threshold, l, Result(true), [Send] + ([Receive] + ([Notify] + ([Resume] + ([Receive] + [])))));
  }

  /** Once all is handled, the connection's being good again brings the engine back to work if and only
      if it is at work already or the monitor is still offline. An engine paused beside an online
      monitor, or a monitor left reconnecting, stays so until the next outage. */
  lemma RecoversExactly(threshold: int, l: Link)
    requires Quiet(l) && l.mon.contexts != []
    ensures Recovers(threshold, l) <==> l.mon.state.Offline? || (l.mon.state.Online? && !l.paused)
  {
    if l.mon.state.Offline? {
      OfflineRecovers(threshold, l);
    } else {
      if moves :| IsHistory(threshold, l, moves) && NoFailures(moves) && AtWork(EndLink(threshold, l, moves)) {
        QuietStays(threshold, l, moves);
      }
      if l.mon.state.Online? && !l.paused {
        assert IsHistory(threshold, l, []) && EndLink(threshold, l, []) == l;
      }
    }
  }

  const START := Link(FRESH, None, None, Idle, false)

  /** The network comes back before the listener has read the outage: the reconnect is dropped, the
      engine pauses and the monitor waits for a drain that nobody does. */
  lemma MissedReconnect() returns (moves: seq<Move>)
    ensures IsHistory(1, START, moves)
    ensures var e := EndLink(1, START, moves); Quiet(e) && e.mon.state.Reconnecting? && e.paused && !Recovers(1, e)
  {
    var a := Moved(1, START, Result(false));
    var b := Moved(1, a, Send);
    var c := Moved(1, b, Result(true));
    var d := Moved(1, c, Send);
    var e := Moved(1, d, Receive);
    assert IsHistory(1, e, []);
    History(1, d, Receive, []);
    History(1, c, Send, [Receive] + []);
    History(1, b, Result(true), [Send] + ([Receive] + []));
    History(1, a, Send, [Result(true)] + ([Send] + ([Receive] + [])));
    History(1, START, Result(false), [Send] + ([Result(true)] + ([Send] + ([Receive] + []))));
    moves := [Result(false)] + ([Send] + ([Result(true)] + ([Send] + ([Receive] + []))));
    RecoversExactly(1, e);
  }

  /** An outage that is over before the engine has drained after the one before. */
  const DRAINING := Link(Mon(Reconnecting, 0, [true, false]), None, None, Draining, true)

  lemma ReachDraining(tail: seq<Move>) returns (moves: seq<Move>)
    requires IsHistory(1, DRAINING, tail)
    ensures IsHistory(1, START, moves) && EndLink(1, START, moves) == EndLink(1, DRAINING, tail)
  {
    var a := Moved(1, START, Result(false));
    var b := Moved(1, a, Send);
    var c := Moved(1, b, Receive);
    var d := Moved(1, c, Result(true));
    var e := Moved(1, d, Send);
    assert Moved(1, e, Receive) == DRAINING;
    History(1, e, Receive, tail);
    History(1, d, Send, [Receive] + tail);
    History(1, c, Result(true), [Send] + ([Receive] + tail));
    History(1, b, Receive, [Result(true)] + ([Send] + ([Receive] + tail)));
    History(1, a, Send, [Receive] + ([Result(true)] + ([Send] + ([Receive] + tail))));
    History(1, START, Result(false), [Send] + ([Receive] + ([Result(true)] + ([Send] + ([Receive] + tail)))));
    moves := [Result(false)] + ([Send] + ([Receive] + ([Result(true)] + ([Send] + ([Receive] + tail)))));
  }

  /** A short outage while the engine drains leaves it paused beside an online monitor. */
  lemma PausedOnline() returns (moves: seq<Move>)
    ensures IsHistory(1, START, moves)
    ensures var e := EndLink(1, START, moves); Quiet(e) && e.mon.state.Online? && e.paused && !Recovers(1, e)
  {
    var a := Moved(1, DRAINING, Result(false));
    var b := Moved(1, a, Send);
    var c := Moved(1, b, Result(true));
    var d := Moved(1, c, Send);
    var e := Moved(1, d, Notify);
    var f := Moved(1, e, Resume);
    var g := Moved(1, f, Receive);
    assert IsHistory(1, g, []);
    History(1, f, Receive, []);
    History(1, e, Resume, [Receive] + []);
    History(1, d, Notify, [Resume] + ([Receive] + []));
    History(1, c, Send, [Notify] + ([Resume] + ([Receive] + [])));
    History(1, b, Result(true), [Send] + ([Notify] + ([Resume] + ([Receive] + []))));
    History(1, a, Send, [Result(true)] + ([Send] + ([Notify] + ([Resume] + ([Receive] + [])))));
    History(1, DRAINING, Result(false),
        [Send] + ([Result(true)] + ([Send] + ([Notify] + ([Resume] + ([Receive] + []))))));
    moves := ReachDraining(
      [Result(false)] + ([Send] + ([Result(true)] + ([Send] + ([Notify] + ([Resume] + ([Receive] + [])))))));
    RecoversExactly(1, g);
  }
}
