/**
 Reply slots and the objects that collect them (detail/response_builder.hpp, detail/response_sink.hpp,
 detail/pending_response.hpp).
 */
module Sinks {
  import opened Bytes
  import opened Kinds
  import opened Builder
  import opened Adapter

  datatype ClientCode =
    | OperationAborted | ConnectionClosed | ConnectionReset | HandshakeFailed | HandshakeTimeout
    | WriteError | ConnectionLost | UnsolicitedMessage | RequestTimeout | NotConnected | QueueFull
    | ConnectFailed | InternalError

  datatype ErrorInfo =
    | ServerError(text: bytes)
    | AdapterError(error: Adapter.Error)
    | ClientError(code: ClientCode)
    | ProtocolFailure(failure: ProtocolError)

  datatype Slot = Value(value: Adapted) | Failed(info: ErrorInfo)

  /** The slot holds an error of the client's own: no reply came for it. */
  predicate Aborted(s: Slot) {
    s.Failed? && (s.info.ClientError? || s.info.ProtocolFailure?)
  }

  predicate ClientSide(e: ErrorInfo) {
    e.ClientError? || e.ProtocolFailure?
  }

  /** `slot_from_message`: a server error, or the adapted message. */
  function SlotFromMessage(m: Message, t: Target): (s: Slot)
    ensures !Aborted(s)
    ensures m.value.SimpleErrorValue? || m.value.BulkErrorValue? <==> s.Failed? && s.info.ServerError?
    ensures s.Failed? && s.info.ServerError? ==> s.info.text == m.value.message
    ensures s.Value? ==> FirstFailure(Visits(m, t)).None? && s.value == Represent(m, t)
    ensures s.Failed? && s.info.AdapterError? ==>
      var f := FirstFailure(Visits(m, t));
      f.Some? && s.info.error == f.value.error.value.(path := f.value.path)
  {
    match m.value
    case SimpleErrorValue(text) => Failed(ServerError(text))
    case BulkErrorValue(text) => Failed(ServerError(text))
    case _ =>
      match Expected(Visits(m, t), Represent(m, t))
      case Ok(v) => Value(v)
      case Err(e) => Failed(AdapterError(e))
  }

  // ----- a sink as a value -----

  /** One target type per expected reply, and the slots filled so far, in order. */
  datatype Sink = Sink(targets: seq<Target>, slots: seq<Slot>)

  predicate SinkOk(s: Sink) {
    |s.targets| >= 1 && |s.slots| <= |s.targets|
  }

  predicate Complete(s: Sink) {
    |s.slots| == |s.targets|
  }

  function Fill(s: Sink, slot: Slot): Sink {
    s.(slots := s.slots + [slot])
  }

  /** A delivery to a complete sink is dropped. */
  function Accept(s: Sink, m: Message): Sink {
    if |s.slots| < |s.targets| then Fill(s, SlotFromMessage(m, s.targets[|s.slots|])) else s
  }

  function AcceptError(s: Sink, e: ErrorInfo): Sink {
    if |s.slots| < |s.targets| then Fill(s, Failed(e)) else s
  }

  function Repeat(slot: Slot, n: nat): (r: seq<Slot>)
    ensures |r| == n && forall i :: 0 <= i < n ==> r[i] == slot
  {
    seq(n, _ => slot)
  }

  /** Every open slot gets the error. */
  function FailAll(s: Sink, e: ErrorInfo): (r: Sink)
    ensures r.targets == s.targets && (SinkOk(s) ==> Complete(r) && SinkOk(r))
    ensures forall i :: 0 <= i < |r.slots| ==> r.slots[i] == if i < |s.slots| then s.slots[i] else Failed(e)
  {
    s.(slots := s.slots + Repeat(Failed(e), if |s.slots| < |s.targets| then |s.targets| - |s.slots| else 0))
  }

  /** The positions that hold a value. */
  ghost function Successes(slots: seq<Slot>): set<nat> {
    set i: nat | i < |slots| && slots[i].Value?
  }

  /** `e` is the error of the first slot that holds one. */
  ghost predicate IsFirstError(slots: seq<Slot>, e: ErrorInfo) {
    exists i :: 0 <= i < |slots| && slots[i] == Failed(e) && forall j :: 0 <= j < i ==> slots[j].Value?
  }

  function CountOk(slots: seq<Slot>): (n: nat)
    ensures n <= |slots| && n == |Successes(slots)|
  {
    if slots == [] then 0
    else
      SuccessesSnoc(slots);
      CountOk(slots[..|slots| - 1]) + if slots[|slots| - 1].Value? then 1 else 0
  }

  lemma SuccessesSnoc(slots: seq<Slot>)
    requires slots != []
    ensures |Successes(slots)| == |Successes(slots[..|slots| - 1])| + if slots[|slots| - 1].Value? then 1 else 0
  {
    var n := |slots| - 1;
    if slots[n].Value? {
      assert Successes(slots) == Successes(slots[..n]) + {n};
    } else {
      assert Successes(slots) == Successes(slots[..n]);
    }
  }

  function FirstError(slots: seq<Slot>): (r: Option<ErrorInfo>)
    ensures r.None? <==> forall i :: 0 <= i < |slots| ==> slots[i].Value?
    ensures r.Some? ==> IsFirstError(slots, r.value)
  {
    if slots == [] then None
    else
      var n := |slots| - 1;
      var before := FirstError(slots[..n]);
      if before.Some? then
        FirstErrorSnoc(slots, before.value);
        before
      else if slots[n].Value? then None
      else
        assert slots[n] == Failed(slots[n].info);
        Some(slots[n].info)
  }

  lemma FirstErrorSnoc(slots: seq<Slot>, e: ErrorInfo)
    requires slots != [] && IsFirstError(slots[..|slots| - 1], e)
    ensures IsFirstError(slots, e)
  {
    var n := |slots| - 1;
    var i :| 0 <= i < n && slots[..n][i] == Failed(e) && forall j :: 0 <= j < i ==> slots[..n][j].Value?;
    assert slots[i] == Failed(e) && forall j :: 0 <= j < i ==> slots[j] == slots[..n][j];
  }

  // ----- tracing -----

  datatype Finish = Finish(id: nat, okCount: nat, errorCount: nat, primary: Option<ErrorInfo>)

  /** What a finish event says: who, how many replies were values and how many errors, and the first error. */
  function Summary(id: nat, slots: seq<Slot>): (f: Finish)
    ensures f.id == id && f.okCount == |Successes(slots)| && f.okCount + f.errorCount == |slots|
    ensures f.errorCount > 0 <==> f.primary.Some?
    ensures f.primary.Some? ==> IsFirstError(slots, f.primary.value)
  {
    AllOk(slots);
    Finish(id, CountOk(slots), |slots| - CountOk(slots), FirstError(slots))
  }

  lemma {:induction false} AllOk(slots: seq<Slot>)
    ensures CountOk(slots) == |slots| <==> FirstError(slots).None?
    decreases |slots|
  {
    if slots != [] {
      AllOk(slots[..|slots| - 1]);
    }
  }

  // ----- pending_response -----

  class PendingResponse {
    const targets: seq<Target>
    var slots: seq<Slot>
    var result: Option<seq<Slot>>
    var traceId: nat
    var traceEnabled: bool
    var traceFinished: bool
    var finishHook: bool
    /** Calls made to the `on_finish` hook. */
    var emitted: seq<Finish>

    predicate Valid()
      reads this
    {
      |targets| >= 1 && |slots| <= |targets| &&
      (result == if |slots| == |targets| then Some(slots) else None) &&
      (result.Some? && traceEnabled && finishHook ==> traceFinished) &&
      (result.None? ==> !traceFinished)
    }

    function AsSink(): Sink
      reads this
    {
      Sink(targets, slots)
    }

    /** What `on_finish` has been told when the response is in this state. */
    function Reported(): seq<Finish>
      reads this
    {
      if result.Some? && traceEnabled && finishHook then [Summary(traceId, slots)] else []
    }

    constructor (targets: seq<Target>)
      requires |targets| >= 1
      ensures Valid() && AsSink() == Sink(targets, []) && !traceEnabled && emitted == []
    {
      this.targets := targets;
      slots, result, emitted := [], None, [];
      traceId, traceEnabled, traceFinished, finishHook := 0, false, false, false;
    }

    method SetTraceContext(id: nat, startHook: bool, finishHook: bool)
      requires Valid() && result.None?
      modifies this`traceId, this`traceEnabled, this`traceFinished, this`finishHook
      ensures Valid() && traceId == id && traceEnabled == (startHook || finishHook) && this.finishHook == finishHook
    {
      traceId, this.finishHook := id, finishHook;
      traceEnabled := startHook || finishHook;
      traceFinished := false;
    }

    /** Counts the slots in one pass; the first error is the primary one. */
    method Summarize() returns (f: Finish)
      ensures f == Summary(traceId, slots)
      ensures f.okCount == |Successes(slots)| && f.errorCount == |slots| - |Successes(slots)|
      ensures if f.primary.Some? then IsFirstError(slots, f.primary.value) else forall i :: 0 <= i < |slots| ==> slots[i].Value?
    {
      var ok, bad := 0, 0;
      var primary: Option<ErrorInfo> := None;
      for i := 0 to |slots|
        invariant ok == CountOk(slots[..i]) && bad == i - ok && primary == FirstError(slots[..i])
      {
        assert slots[..i + 1][..i] == slots[..i];
        if slots[i].Value? {
          ok := ok + 1;
        } else {
          bad := bad + 1;
          if primary.None? {
            primary := Some(slots[i].info);
          }
        }
      }
      assert slots[..|slots|] == slots;
      return Finish(traceId, ok, bad, primary);
    }

    method EmitTraceFinish()
      modifies this`traceFinished, this`emitted
      ensures traceFinished == (old(traceFinished) || (traceEnabled && finishHook))
      ensures emitted == old(emitted) + if traceEnabled && finishHook && !old(traceFinished) then [Summary(traceId, slots)] else []
    {
      var f := Summarize();
      if !traceEnabled || !finishHook || traceFinished {
        return;
      }
      traceFinished := true;
      emitted := emitted + [f];
    }

    /** The common part of both kinds of delivery: the last slot completes the response. */
    method Store(slot: Slot)
      requires Valid() && result.None? && emitted == Reported()
      modifies this`slots, this`result, this`traceFinished, this`emitted
      ensures Valid() && AsSink() == Fill(old(AsSink()), slot) && emitted == Reported()
    {
      slots := slots + [slot];
      if |slots| == |targets| {
        result := Some(slots);
        EmitTraceFinish();
      }
    }

    method Deliver(m: Message)
      requires Valid() && result.None? && emitted == Reported()
      modifies this`slots, this`result, this`traceFinished, this`emitted
      ensures Valid() && AsSink() == Accept(old(AsSink()), m) && emitted == Reported()
    {
      Store(SlotFromMessage(m, targets[|slots|]));
    }

    method DeliverError(e: ErrorInfo)
      requires Valid() && result.None? && emitted == Reported()
      modifies this`slots, this`result, this`traceFinished, this`emitted
      ensures Valid() && AsSink() == AcceptError(old(AsSink()), e) && emitted == Reported()
    {
      Store(Failed(e));
    }

    /** Delivers the error until the response is complete. */
    method FailRest(e: ErrorInfo)
      requires Valid() && emitted == Reported()
      modifies this`slots, this`result, this`traceFinished, this`emitted
      ensures Valid() && result.Some? && AsSink() == FailAll(old(AsSink()), e) && emitted == Reported()
    {
      while result.None?
        invariant Valid() && emitted == Reported()
        invariant |slots| >= |old(slots)| && slots == old(slots) + Repeat(Failed(e), |slots| - |old(slots)|)
        decreases |targets| - |slots|
      {
        DeliverError(e);
      }
    }
  }
}
