/** What `close` leads to: CLOSED after a few completions if an actor is running, and never otherwise. */
module Shutdown {
  import opened Sinks
  import opened Pipeline
  import opened Ledger
  import opened Connection
  import opened Safety
  import opened Replies
  import opened Runs

  // ----- without an actor -----

  /** Closed before any actor ran: nothing can finish the shutdown. */
  predicate Stuck(s: State) {
    s.phase == CLOSING && !s.actor
  }

  lemma StuckStays(cfg: Config, s: State, ev: Event)
    requires Control(s) && Stuck(s) && Enabled(cfg, s, ev)
    ensures Stuck(Apply(cfg, s, ev))
  {
    hide HearAll, Shake, Abort, Admit, Refuse, Write, Record, HelloPush, HelloWrite, Pump, MessagesOf, HasRoom, OffersAtLeast, Expired;
  }

  lemma {:induction false} StuckForever(cfg: Config, s: State, evs: seq<Event>)
    requires Control(s) && Stuck(s) && Executable(cfg, s, evs)
    ensures Stuck(After(cfg, s, evs))
    decreases |evs|
  {
    hide Apply, Enabled, Control, Stuck;
    if evs != [] {
      StuckStays(cfg, s, evs[0]);
      ControlKeeps(cfg, s, evs[0]);
      StuckForever(cfg, Apply(cfg, s, evs[0]), evs[1..]);
    }
  }

  // ----- with an actor -----

  ghost predicate CanReachClosed(cfg: Config, s: State) {
    exists evs: seq<Event> :: Executable(cfg, s, evs) && After(cfg, s, evs).phase == CLOSED
  }

  lemma ReachesBefore(cfg: Config, s: State, ev: Event)
    requires Enabled(cfg, s, ev) && CanReachClosed(cfg, Apply(cfg, s, ev))
    ensures CanReachClosed(cfg, s)
  {
    hide Apply, Enabled;
    var evs: seq<Event> :| Executable(cfg, Apply(cfg, s, ev), evs) && After(cfg, Apply(cfg, s, ev), evs).phase == CLOSED;
    assert ([ev] + evs)[1..] == evs;
    assert Executable(cfg, s, [ev] + evs) && After(cfg, s, [ev] + evs).phase == CLOSED;
  }

  lemma ReachesNow(cfg: Config, s: State)
    requires s.phase == CLOSED
    ensures CanReachClosed(cfg, s)
  {
    assert Executable(cfg, s, []) && After(cfg, s, []) == s;
  }

  /** Shutting down: what is in flight may complete in any order, then the actor leaves. */
  predicate ShuttingDown(s: State) {
    s.actor && s.stop && s.phase != CLOSED && s.phase != OPEN && s.reading != Live && s.writing != Live
  }

  lemma ShutdownAttempt(cfg: Config, s: State)
    requires ShuttingDown(s) && Quiescent(s)
    ensures CanReachClosed(cfg, s)
  {
    hide CanReachClosed, Abort;
    var e := ClientError(OperationAborted);
    var s1 := if ByControlLoop(s.attempt) then Apply(cfg, s, AttemptFails(e)) else s;
    ReachesNow(cfg, Apply(cfg, s1, ActorExits));
    ReachesBefore(cfg, s1, ActorExits);
    if ByControlLoop(s.attempt) {
      ReachesBefore(cfg, s, AttemptFails(e));
    }
  }

  lemma ShutdownWrite(cfg: Config, s: State)
    requires ShuttingDown(s) && s.reading == Idle
    ensures CanReachClosed(cfg, s)
  {
    hide CanReachClosed, Abort;
    if s.writing == Idle {
      ShutdownAttempt(cfg, s);
    } else {
      ShutdownAttempt(cfg, Apply(cfg, s, WriteFails(true)));
      ReachesBefore(cfg, s, WriteFails(true));
    }
  }

  lemma ShutdownRead(cfg: Config, s: State)
    requires ShuttingDown(s)
    ensures CanReachClosed(cfg, s)
  {
    hide CanReachClosed, Abort;
    if s.reading == Idle {
      ShutdownWrite(cfg, s);
    } else {
      ShutdownWrite(cfg, Apply(cfg, s, ReadFails(true)));
      ReachesBefore(cfg, s, ReadFails(true));
    }
  }

  /**
   `close` promises to end in CLOSED. It can exactly if an actor is running or the connection is
   closed already: a connection that was never connected is left in CLOSING for good.
   */
  lemma CloseCompletesIff(cfg: Config, s: State)
    requires Reachable(cfg, s)
    ensures CanReachClosed(cfg, Apply(cfg, s, Close)) <==> s.actor || s.phase == CLOSED
  {
    hide Reachable, HearingOk, Balanced, CanReachClosed, Apply;
    SafeParts(cfg, s);
    CloseCompletes(cfg, s);
  }

  lemma CloseCompletes(cfg: Config, s: State)
    requires Control(s)
    ensures CanReachClosed(cfg, Apply(cfg, s, Close)) <==> s.actor || s.phase == CLOSED
  {
    hide Executable, After, Abort;
    var s1 := Apply(cfg, s, Close);
    if s.phase == CLOSED {
      ReachesNow(cfg, s1);
    } else if s.actor {
      ShutdownRead(cfg, s1);
    } else {
      ControlKeeps(cfg, s, Close);
      forall evs: seq<Event> | Executable(cfg, s1, evs)
        ensures After(cfg, s1, evs).phase != CLOSED
      {
        StuckForever(cfg, s1, evs);
      }
    }
  }

  /** A connection that was never connected cannot be closed. */
  lemma CloseBeforeConnectSticks(cfg: Config, now: int)
    ensures !CanReachClosed(cfg, Apply(cfg, Initially(cfg, now), Close))
  {
    hide CanReachClosed, Apply;
    CloseCompletes(cfg, Initially(cfg, now));
  }

  // ----- and it must -----

  /** Completions that the loops and the socket owe a connection that is shutting down. */
  predicate IsCompletion(ev: Event) {
    ev.ReadFails? || ev.WriteFails? || ev.AttemptFails? || ev.CleanUp? || ev.ActorExits?
  }

  function AttemptBurden(a: Attempt): nat {
    match a
    case NoAttempt => 0
    case CleaningUp => 1
    case Starting(initial) => if initial then 2 else 1
    case Shaking(initial, _) => if initial then 2 else 1
  }

  /** How many completions may still come before the actor has left. */
  function Burden(s: State): (n: nat)
    ensures 1 <= n <= 5
  {
    1 + (if s.reading == Idle then 0 else 1) + (if s.writing == Idle then 0 else 1) + AttemptBurden(s.attempt)
  }

  /** Until it is closed, a stopping connection is never open again, and every completion brings the end nearer. */
  lemma ShutdownStep(cfg: Config, s: State, ev: Event)
    requires Control(s) && ShuttingDown(s) && Enabled(cfg, s, ev)
    ensures
      var r := Apply(cfg, s, ev);
      r.phase == CLOSED ||
      (ShuttingDown(r) && Burden(r) <= Burden(s) && (IsCompletion(ev) ==> Burden(r) < Burden(s)))
  {
    hide HearAll, Shake, Abort, Admit, Refuse, Write, Record, HelloPush, HelloWrite, Pump, MessagesOf, HasRoom, OffersAtLeast, Expired, Offer;
  }

  /** There is always a completion to wait for. */
  lemma ShutdownNeverHangs(cfg: Config, s: State) returns (ev: Event)
    requires ShuttingDown(s)
    ensures IsCompletion(ev) && Enabled(cfg, s, ev)
  {
    if s.reading != Idle {
      ev := ReadFails(true);
    } else if s.writing != Idle {
      ev := WriteFails(true);
    } else if s.attempt.Starting? || s.attempt.Shaking? {
      ev := AttemptFails(ClientError(OperationAborted));
    } else {
      ev := ActorExits;
    }
  }

  function Completions(evs: seq<Event>): nat {
    if evs == [] then 0 else (if IsCompletion(evs[0]) then 1 else 0) + Completions(evs[1..])
  }

  /** The run passes through CLOSED, and is not open before that. */
  ghost predicate ClosesFirst(cfg: Config, s: State, evs: seq<Event>)
    requires Executable(cfg, s, evs)
    decreases |evs|
  {
    s.phase == CLOSED || (s.phase != OPEN && evs != [] && ClosesFirst(cfg, Apply(cfg, s, evs[0]), evs[1..]))
  }

  lemma {:induction false} ShutdownEnds(cfg: Config, s: State, evs: seq<Event>)
    requires Control(s) && ShuttingDown(s) && Executable(cfg, s, evs) && Completions(evs) >= Burden(s)
    ensures ClosesFirst(cfg, s, evs)
    decreases |evs|
  {
    hide Apply, Enabled, Control;
    var s1 := Apply(cfg, s, evs[0]);
    ShutdownStep(cfg, s, evs[0]);
    if s1.phase != CLOSED {
      ControlKeeps(cfg, s, evs[0]);
      ShutdownEnds(cfg, s1, evs[1..]);
    }
  }

  /** Once `close` has been called on a running connection, every run with five completions reaches CLOSED, not being open before. */
  lemma CloseIsInevitable(cfg: Config, s: State, evs: seq<Event>)
    requires Reachable(cfg, s) && s.actor && s.phase != CLOSED
    requires Executable(cfg, Apply(cfg, s, Close), evs) && Completions(evs) >= 5
    ensures ClosesFirst(cfg, Apply(cfg, s, Close), evs)
  {
    hide Reachable, Executable, Control, LedgerOk, Balanced, HearingOk, DuesOk, ClosesFirst, Apply, Completions;
    SafeParts(cfg, s);
    ControlKeeps(cfg, s, Close);
    CloseStarts(cfg, s);
    ShutdownEnds(cfg, Apply(cfg, s, Close), evs);
  }

  lemma CloseStarts(cfg: Config, s: State)
    requires s.actor && s.phase != CLOSED
    ensures ShuttingDown(Apply(cfg, s, Close))
  {
    hide Abort;
  }
}
