/** The life of a connection: which phase follows which, and what makes it so. */
module Lifecycle {
  import opened Pipeline
  import opened Ledger
  import opened Connection
  import opened Safety
  import opened Replies
  import opened Handshakes
  import opened Runs

  /**
   The step `ev` may lead from phase `from` to phase `to`. A failed reconnect leads to FAILED even
   from CLOSING.
   */
  predicate Leads(cfg: Config, s: State, ev: Event, to: Phase) {
    match to
    case INIT => false
    case CONNECTING => ev.Connect? && s.phase in {INIT, CLOSED}
    case OPEN => ev.HandshakeRead? && s.phase in {CONNECTING, RECONNECTING}
    case FAILED =>
      (s.phase == OPEN && (ev.WriteFails? || ev.ReadFails? || ev.ReadEof? || ev.ReadEnd? || ev.Expire?)) ||
      (s.phase in {RECONNECTING, CLOSING} && ByControlLoop(s.attempt) && (ev.AttemptFails? || ev.HandshakeRead? || ev.HandshakeStart?))
    case RECONNECTING => ev.Reconnect? && s.phase == FAILED && cfg.reconnect && !s.stop
    case CLOSING => (ev.Close? && s.phase != CLOSED) || (ev.CleanUp? && s.phase != CLOSED) || (ev.GiveUp? && s.phase == FAILED && !cfg.reconnect)
    case CLOSED => s.actor && ((ev.ActorExits? && s.stop) || ev.ActorThrows?)
  }

  lemma ReadMoves(cfg: Config, s: State, ev: Event)
    requires Control(s) && Enabled(cfg, s, ev) && (ev.ReadEnd? || ev.HandshakeRead?)
    ensures
      var r := Apply(cfg, s, ev);
      r.phase == s.phase || Leads(cfg, s, ev, r.phase)
  {
    hide HearAll, Shake, Pump, MessagesOf, Record, OffersAtLeast;
    var p := Pump(s.core, s.unread + ev.chunk, cfg.limits);
    if ev.ReadEnd? {
      HearAllShape(cfg, s.(reading := Idle, core := p.core, unread := p.unread, book := Record(s.book, ev.chunk)), MessagesOf(p.seen.trees), p.seen.error);
    } else {
      ShakeShape(cfg, Told(s, p, ev.chunk), MessagesOf(p.seen.trees), p.seen.error);
    }
  }

  lemma DropMoves(cfg: Config, s: State, ev: Event)
    requires Control(s) && Enabled(cfg, s, ev) && IsDrop(ev)
    ensures
      var r := Apply(cfg, s, ev);
      r.phase == s.phase || Leads(cfg, s, ev, r.phase)
  {
    hide HearAll, Shake, FailShake, Abandon, Abort, Enqueue, Write, Record, HelloPush, HelloWrite, Pump, MessagesOf, HasRoom, OffersAtLeast, Expired, Offer;
  }

  lemma OtherMoves(cfg: Config, s: State, ev: Event)
    requires Control(s) && Enabled(cfg, s, ev) && !IsDrop(ev) && !ev.ReadEnd? && !ev.HandshakeRead?
    ensures
      var r := Apply(cfg, s, ev);
      r.phase == s.phase || Leads(cfg, s, ev, r.phase)
  {
    hide HearAll, Shake, Abort, Admit, Refuse, Write, Record, HelloPush, HelloWrite, Pump, MessagesOf, HasRoom, OffersAtLeast, Expired, Offer, Drop, HandleError, CloseNow;
  }

  /** In every run: a phase changes only along these arrows, and only by these steps. */
  lemma PhasesFollowTheDiagram(cfg: Config, s: State, ev: Event)
    requires Reachable(cfg, s) && Enabled(cfg, s, ev)
    ensures
      var r := Apply(cfg, s, ev);
      r.phase == s.phase || Leads(cfg, s, ev, r.phase)
  {
    hide Reachable, Apply, Enabled, LedgerOk, HearingOk, DuesOk, OfferHeld, Seasoned, Configured, AttemptOk, Leads;
    SafeParts(cfg, s);
    if ev.ReadEnd? || ev.HandshakeRead? {
      ReadMoves(cfg, s, ev);
    } else if IsDrop(ev) {
      DropMoves(cfg, s, ev);
    } else {
      OtherMoves(cfg, s, ev);
    }
  }

  /** What the calls and the control loop do at once, in every run. */
  lemma CallsTakeEffect(cfg: Config, s: State, ev: Event)
    requires Reachable(cfg, s) && Enabled(cfg, s, ev)
    ensures
      var r := Apply(cfg, s, ev);
      match ev
      case Connect =>
        if s.phase in {INIT, CLOSED} then r.phase == CONNECTING && r.attempt == Starting(true) && r.actor && !r.stop else r == s
      case Close => r.phase == (if s.phase == CLOSED then CLOSED else CLOSING) && (s.phase != CLOSED ==> r.stop)
      case GiveUp => r.phase == CLOSING && r.stop
      case Reconnect => r.phase == RECONNECTING && r.attempt == Starting(false)
      case _ => true
  {
    hide Reachable, LedgerOk, HearingOk, DuesOk, OfferHeld, Seasoned, Configured, AttemptOk, HearAll, Shake, Abort, Enqueue, Write, Record, HelloPush, HelloWrite, Pump, MessagesOf, HasRoom, OffersAtLeast, Expired, Offer;
    SafeParts(cfg, s);
  }
}
