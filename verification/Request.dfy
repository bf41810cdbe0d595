/** The request builder (request.hpp): prints commands as arrays of bulk strings. */
module Request {
  import opened Bytes
  import opened Kinds
  import opened Lexer
  import opened Parser
  import opened Streaming
  import opened Discipline
  import opened Builder
  import opened Wire
  import opened Framing
  import opened Layout
  import opened RoundTrip
  import opened Messages

  type Command = seq<bytes>

  function ArgWire(arg: bytes): Wire {
    Wire([], Bulk(BulkString, ToDecimal(|arg|), arg))
  }

  function ArgWires(argv: Command): (ws: seq<Wire>)
    ensures |ws| == |argv| && forall i :: 0 <= i < |argv| ==> ws[i] == ArgWire(argv[i])
  {
    seq(|argv|, i requires 0 <= i < |argv| => ArgWire(argv[i]))
  }

  function CommandWire(argv: Command): Wire {
    Wire([], List(Array, ToDecimal(|argv|), ArgWires(argv)))
  }

  function CommandWires(cs: seq<Command>): (ws: seq<Wire>)
    ensures |ws| == |cs| && forall i :: 0 <= i < |cs| ==> ws[i] == CommandWire(cs[i])
  {
    seq(|cs|, i requires 0 <= i < |cs| => CommandWire(cs[i]))
  }

  lemma EncodeSnoc(ws: seq<Wire>, w: Wire)
    ensures EncodeAll(ws + [w]) == EncodeAll(ws) + Encode(w)
    decreases |ws|
  {
    hide Encode, EncodeAll;
    EncodeNone();
    EncodeFirst(ws + [w]);
    if ws == [] {
      assert (ws + [w])[1..] == [];
    } else {
      EncodeSnoc(ws[1..], w);
      EncodeFirst(ws);
      assert (ws + [w])[1..] == ws[1..] + [w];
      ConcatAssoc(Encode(ws[0]), EncodeAll(ws[1..]), Encode(w));
    }
  }

  class Request {
    var wire: bytes
    var commandCount: nat
    /** The commands pushed so far, in order. */
    ghost var commands: seq<Command>

    ghost predicate Valid()
      reads this
    {
      wire == EncodeAll(CommandWires(commands)) && commandCount == |commands|
    }

    constructor ()
      ensures Valid() && commands == []
    {
      wire, commandCount, commands := [], 0, [];
    }

    method AppendUnsigned(v: nat)
      modifies this`wire
      ensures wire == old(wire) + ToDecimal(v)
    {
      wire := wire + ToDecimal(v);
    }

    method AppendCommandHeader(argc: nat)
      modifies this`wire
      ensures wire == old(wire) + EncodeHeader(Array, ToDecimal(argc))
    {
      wire := wire + [KindToPrefix(Array)];
      AppendUnsigned(argc);
      wire := wire + CRLF;
    }

    method AppendBulkString(arg: bytes)
      modifies this`wire
      ensures wire == old(wire) + Encode(ArgWire(arg))
    {
      hide Encode, ArgWire, ToDecimal, KindToPrefix;
      ArgEncoding(arg);
      wire := wire + [KindToPrefix(BulkString)];
      AppendUnsigned(|arg|);
      wire := wire + CRLF;
      assert wire == old(wire) + EncodeHeader(BulkString, ToDecimal(|arg|));
      hide EncodeHeader;
      wire := wire + arg;
      wire := wire + CRLF;
    }

    /** Appends one complete command. */
    method Push(argv: Command)
      requires Valid()
      modifies this
      ensures Valid() && commands == old(commands) + [argv]
      ensures wire == old(wire) + Encode(CommandWire(argv))
    {
      hide Encode, EncodeAll, EncodeHeader, ArgWire, CommandWire, ToDecimal;
      AppendCommandHeader(|argv|);
      EncodeNone();
      ghost var head := wire;
      for i := 0 to |argv|
        invariant wire == head + EncodeAll(ArgWires(argv[..i]))
        invariant commandCount == old(commandCount) && commands == old(commands)
      {
        AppendBulkString(argv[i]);
        EncodeSnoc(ArgWires(argv[..i]), ArgWire(argv[i]));
        assert ArgWires(argv[..i + 1]) == ArgWires(argv[..i]) + [ArgWire(argv[i])];
      }
      assert argv[..|argv|] == argv;
      commandCount := commandCount + 1;
      commands := commands + [argv];
      CommandEncoding(argv);
      EncodeSnoc(CommandWires(old(commands)), CommandWire(argv));
      assert CommandWires(commands) == CommandWires(old(commands)) + [CommandWire(argv)];
    }

    method Clear()
      modifies this
      ensures Valid() && commands == []
    {
      wire, commandCount, commands := [], 0, [];
    }
  }

  lemma EncodeNone()
    ensures EncodeAll([]) == []
  {
  }

  lemma EncodePlain(b: Body)
    ensures Encode(Wire([], b)) == EncodeBody(b)
  {
    hide EncodeBody;
    assert EncodeGroups([]) == [];
  }

  lemma ArgEncoding(arg: bytes)
    ensures Encode(ArgWire(arg)) == EncodeHeader(BulkString, ToDecimal(|arg|)) + arg + CRLF
  {
    hide Encode, EncodeHeader, ToDecimal;
    EncodePlain(ArgWire(arg).body);
  }

  lemma CommandEncoding(argv: Command)
    ensures Encode(CommandWire(argv)) == EncodeHeader(Array, ToDecimal(|argv|)) + EncodeAll(ArgWires(argv))
  {
    hide Encode, EncodeBody, EncodeAll, EncodeHeader, ToDecimal, ArgWires;
    EncodePlain(CommandWire(argv).body);
    ListEncoding(Array, ToDecimal(|argv|), ArgWires(argv));
  }

  lemma ListEncoding(k: Kind, h: bytes, items: seq<Wire>)
    ensures EncodeBody(List(k, h, items)) == EncodeHeader(k, h) + EncodeAll(items)
  {
    hide EncodeHeader, EncodeAll;
  }

  // ----- printer and parser undo each other -----

  predicate LengthFits(n: nat, L: Limits) {
    n <= I64_MAX && |ToDecimal(n)| <= L.maxLineBytes
  }

  predicate ArgFits(arg: bytes, L: Limits) {
    LengthFits(|arg|, L) && |arg| <= L.maxBulkBytes
  }

  /** A command within the reader's limits; its arguments may hold any bytes, CRLF included. */
  predicate CommandFits(argv: Command, L: Limits) {
    LengthFits(|argv|, L) && |argv| <= L.maxContainerLen && |argv| <= U32_MAX && forall i :: 0 <= i < |argv| ==> ArgFits(argv[i], L)
  }

  function Reply(argv: Command): Message {
    Message(ArrayValue(seq(|argv|, i requires 0 <= i < |argv| => Message(BulkStringValue(argv[i]), None))), None)
  }

  lemma ArgFitsWell(arg: bytes, L: Limits)
    requires ArgFits(arg, L)
    ensures WellFormed(ArgWire(arg), L) && Links(ArgWire(arg)) == 0 && Msg(ArgWire(arg), L) == Message(BulkStringValue(arg), None)
  {
    DecimalRoundTrip(|arg|);
  }

  lemma CommandFitsWell(argv: Command, L: Limits)
    requires CommandFits(argv, L)
    ensures WellFormed(CommandWire(argv), L) && Faithful(CommandWire(argv)) && Msg(CommandWire(argv), L) == Reply(argv)
  {
    hide Links, Msg, WellFormed, Faithful, ArgWire;
    ArgsFitWell(argv, L);
    CommandShape(argv, L);
    CommandMsg(argv, L);
  }

  lemma ArgsFitWell(argv: Command, L: Limits)
    requires CommandFits(argv, L)
    ensures AllWellFormed(ArgWires(argv), L) && Linkless(ArgWires(argv)) && MsgAll(ArgWires(argv), L) == Reply(argv).value.elements
  {
    hide Links, Msg, WellFormed, ArgWire;
    var ws := ArgWires(argv);
    forall i | 0 <= i < |ws|
      ensures WellFormed(ws[i], L) && Links(ws[i]) == 0 && Msg(ws[i], L) == Message(BulkStringValue(argv[i]), None)
    {
      ArgFitsWell(argv[i], L);
    }
    assert AllWellFormed(ws, L);
  }

  lemma CommandShape(argv: Command, L: Limits)
    requires CommandFits(argv, L) && AllWellFormed(ArgWires(argv), L) && Linkless(ArgWires(argv))
    ensures WellFormed(CommandWire(argv), L) && Faithful(CommandWire(argv))
  {
    hide WellFormed, AllWellFormed, Faithful, Linkless, ArgWires, ToDecimal;
    CommandWell(argv, L);
    FlatIsFaithful(ToDecimal(|argv|), ArgWires(argv));
  }

  lemma CommandWell(argv: Command, L: Limits)
    requires CommandFits(argv, L) && AllWellFormed(ArgWires(argv), L)
    ensures WellFormed(CommandWire(argv), L)
  {
    hide AllWellFormed, ToDecimal, ParseI64;
    DecimalRoundTrip(|argv|);
  }

  lemma FlatIsFaithful(h: bytes, ws: seq<Wire>)
    requires Linkless(ws)
    ensures Faithful(Wire([], List(Array, h, ws)))
  {
    hide Links;
    if ws != [] {
      assert Links(ws[0]) == 0;
      LinklessFaithful(ws[0]);
    }
  }

  lemma CommandMsg(argv: Command, L: Limits)
    requires WellFormed(CommandWire(argv), L)
    ensures Msg(CommandWire(argv), L) == Message(ArrayValue(MsgAll(ArgWires(argv), L)), None)
  {
    assert MsgGroups([], L) == [];
  }

  lemma ParsedCommand(argv: Command, L: Limits)
    requires CommandFits(argv, L)
    ensures WellFormed(CommandWire(argv), L)
    ensures Buildable(ParsedOf(CommandWire(argv))) && Build(ParsedOf(CommandWire(argv)).tree, ParsedOf(CommandWire(argv)).root) == Reply(argv)
  {
    hide Build, Msg, Lay, Faithful, WellFormed, TreeReady, Run, Reply;
    CommandFitsWell(argv, L);
    var w := CommandWire(argv);
    hide CommandWire;
    ParsedIsReady(w, L);
    RoundTripExact(w, [], L);
    FramingNeverSlips(w, [], L);
    ParsedIndex(w, L);
  }

  /**
   Reading back what a request printed gives one array of bulk strings per command, in order, with
   exactly the arguments that were pushed, and leaves nothing unread.
   */
  lemma PrinterParserRoundTrip(cs: seq<Command>, L: Limits)
    requires forall i :: 0 <= i < |cs| ==> CommandFits(cs[i], L)
    ensures
      var r := Drain(START, EncodeAll(CommandWires(cs)), L);
      r.seen.error == None && r.unread == [] && |r.seen.trees| == |cs| &&
      forall i :: 0 <= i < |cs| ==>
        Buildable(r.seen.trees[i]) && Build(r.seen.trees[i].tree, r.seen.trees[i].root) == Reply(cs[i])
  {
    hide Build, Lay, WellFormed, Reply, CommandWire, DrainFrom, Encode, TreeReady, CommandFits;
    forall i | 0 <= i < |cs|
      ensures WellFormed(CommandWire(cs[i]), L)
      ensures Buildable(ParsedOf(CommandWire(cs[i]))) && Build(ParsedOf(CommandWire(cs[i])).tree, ParsedOf(CommandWire(cs[i])).root) == Reply(cs[i])
    {
      ParsedCommand(cs[i], L);
    }
    DrainValues(CommandWires(cs), L);
  }
}
