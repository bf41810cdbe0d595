/**
 Feeding the parser: repeated `commit`, then `parse_one` / `reclaim` until it asks for more bytes.
 The main result says exactly when the outcome does not depend on how the bytes were split into reads.
 */
module Streaming {
  import opened Bytes
  import opened Kinds
  import opened Lexer
  import opened Parser

  datatype Parsed = Parsed(tree: Tree, root: nat)

  /** Trees handed out in order, then either waiting for bytes or the first protocol error. */
  datatype Observed = Observed(trees: seq<Parsed>, error: Option<ProtocolError>)

  datatype Drained = Drained(core: Core, unread: bytes, seen: Observed)

  function Before(trees: seq<Parsed>, o: Observed): Observed {
    o.(trees := trees + o.trees)
  }

  function After(trees: seq<Parsed>, r: Drained): Drained {
    r.(seen := Before(trees, r.seen))
  }

  /** `parse_one`, take the tree, `reclaim`, again and again; `c` already has a frame to work on. */
  function DrainFrom(c: Core, d: bytes, L: Limits): (r: Drained)
    requires InRange(c)
    ensures InRange(r.core)
    decreases |d|
  {
    var r := Run(c, d, L);
    match r.outcome
    case Root(i) => After([Parsed(r.core.tree, i)], DrainFrom(Armed(START), r.unread, L))
    case Starved => Drained(r.core, r.unread, Observed([], None))
    case Rejected(e) => Drained(r.core, r.unread, Observed([], Some(e)))
  }

  function Drain(c: Core, d: bytes, L: Limits): (r: Drained)
    requires InRange(c)
    ensures InRange(r.core)
  {
    DrainFrom(Armed(c), d, L)
  }

  /** One read after the other; a protocol error ends the session. */
  function Feed(c: Core, unread: bytes, chunks: seq<bytes>, L: Limits): (r: Drained)
    requires InRange(c)
    ensures InRange(r.core)
    decreases |chunks|
  {
    if chunks == [] then Drained(c, unread, Observed([], None))
    else
      var r := Drain(c, unread + chunks[0], L);
      if r.seen.error.Some? then r
      else After(r.seen.trees, Feed(r.core, r.unread, chunks[1..], L))
  }

  /**
   Some line reached while reading the whole of `d` has exactly the maximum length, and what reading
   `d` from that line on shows is not an immediate `InvalidLength`.
   */
  predicate CutSensitive(c: Core, d: bytes, L: Limits)
    requires InRange(c)
    decreases |d|, if c.stack != [] && Top(c).state != ValueFrame then 1 else 0
  {
    if c.stack == [] then false
    else if Top(c).state != ValueFrame then CutSensitive(PushFrame(c, VALUE), d, L)
    else
      (AtLineLimit(d, L) && DrainFrom(c, d, L).seen != Observed([], Some(InvalidLength))) ||
      match Lex(d, L)
      case NeedMore => false
      case Bad(_) => false
      case Tok(t, n) =>
        match Consume(c, t, L)
        case Produced(_, _) => CutSensitive(Armed(START), d[n..], L)
        case Continue(c') => CutSensitive(c', d[n..], L)
        case Fail(_, _) => false
  }

  /** One token of progress. */
  lemma DrainToken(c: Core, d: bytes, L: Limits)
    requires InRange(c) && c.stack != [] && Top(c).state == ValueFrame && Lex(d, L).Tok?
    ensures
      var n := Lex(d, L).size;
      match Consume(c, Lex(d, L).token, L)
      case Produced(c', root) => DrainFrom(c, d, L) == After([Parsed(c'.tree, root)], DrainFrom(Armed(START), d[n..], L))
      case Continue(c') => DrainFrom(c, d, L) == DrainFrom(c', d[n..], L)
      case Fail(c', e) => DrainFrom(c, d, L) == Drained(c', d[n..], Observed([], Some(e)))
  {
    var n := Lex(d, L).size;
    match Consume(c, Lex(d, L).token, L)
    case Produced(c', root) =>
    case Continue(c') => assert Run(c, d, L) == Run(c', d[n..], L);
    case Fail(c', e) =>
  }

  lemma BeforeBefore(a: seq<Parsed>, b: seq<Parsed>, o: Observed)
    ensures Before(a, Before(b, o)) == Before(a + b, o)
    ensures Before([], o) == o
  {
    assert a + (b + o.trees) == a + b + o.trees;
    assert [] + o.trees == o.trees;
  }

  /** Reading `d` first and `more` later shows the same as reading both at once. */
  ghost predicate SplitReads(c: Core, d: bytes, more: bytes, L: Limits)
    requires InRange(c)
  {
    var r := DrainFrom(c, d, L);
    var whole := DrainFrom(c, d + more, L);
    if r.seen.error.Some? then whole.seen == r.seen
    else whole.seen == Before(r.seen.trees, DrainFrom(r.core, r.unread + more, L).seen)
         && !CutSensitive(r.core, r.unread + more, L)
         && r.core.stack != []
  }

  lemma ReadLaterEnds(c: Core, d: bytes, more: bytes, L: Limits)
    requires InRange(c) && !CutSensitive(c, d + more, L)
    requires c.stack != [] && Top(c).state == ValueFrame && !Lex(d, L).Tok?
    ensures SplitReads(c, d, more, L)
  {
    if Lex(d, L).NeedMore? {
      BeforeBefore([], [], DrainFrom(c, d + more, L).seen);
    } else {
      LexBadExtends(d, more, L);
    }
  }

  lemma {:induction false} ReadLater(c: Core, d: bytes, more: bytes, L: Limits)
    requires InRange(c) && !CutSensitive(c, d + more, L)
    ensures SplitReads(c, d, more, L)
    decreases |d|, if c.stack != [] && Top(c).state != ValueFrame then 1 else 0
  {
    if c.stack == [] {
    } else if Top(c).state != ValueFrame {
      ReadLater(PushFrame(c, VALUE), d, more, L);
      assert DrainFrom(c, d, L) == DrainFrom(PushFrame(c, VALUE), d, L);
      assert DrainFrom(c, d + more, L) == DrainFrom(PushFrame(c, VALUE), d + more, L);
    } else if Lex(d, L).Tok? {
      ReadLaterToken(c, d, more, L);
    } else {
      ReadLaterEnds(c, d, more, L);
    }
  }

  lemma {:induction false} ReadLaterToken(c: Core, d: bytes, more: bytes, L: Limits)
    requires InRange(c) && !CutSensitive(c, d + more, L)
    requires c.stack != [] && Top(c).state == ValueFrame && Lex(d, L).Tok?
    ensures SplitReads(c, d, more, L)
    decreases |d|, 0, 0
  {
    hide Lex, Consume, DrainFrom, CutSensitive, Before;
    var n, t := Lex(d, L).size, Lex(d, L).token;
    TokenExtends(d, more, L);
    DrainToken(c, d, L);
    DrainToken(c, d + more, L);
    SensitiveToken(c, d + more, L);
    match Consume(c, t, L)
    case Fail(c', e) =>
    case Continue(c') => ReadLater(c', d[n..], more, L);
    case Produced(c', root) =>
      ReadLater(Armed(START), d[n..], more, L);
      var r := DrainFrom(Armed(START), d[n..], L);
      if r.seen.error.None? {
        BeforeBefore([Parsed(c'.tree, root)], r.seen.trees, DrainFrom(r.core, r.unread + more, L).seen);
      }
      BeforeParts([Parsed(c'.tree, root)], r.seen);
  }

  lemma BeforeParts(a: seq<Parsed>, o: Observed)
    ensures Before(a, o).error == o.error && Before(a, o).trees == a + o.trees
  {
  }

  lemma TokenExtends(d: bytes, more: bytes, L: Limits)
    requires Lex(d, L).Tok?
    ensures Lex(d + more, L) == Lex(d, L) && (d + more)[Lex(d, L).size..] == d[Lex(d, L).size..] + more
  {
    assert Agree(d, d + more, Lex(d, L).size);
    hide Lex;
    LexTokLocal(d, d + more, L);
  }

  /** What follows an insensitive token is insensitive. */
  lemma SensitiveToken(c: Core, d: bytes, L: Limits)
    requires InRange(c) && !CutSensitive(c, d, L) && c.stack != [] && Top(c).state == ValueFrame && Lex(d, L).Tok?
    ensures
      var n := Lex(d, L).size;
      match Consume(c, Lex(d, L).token, L)
      case Produced(_, _) => !CutSensitive(Armed(START), d[n..], L)
      case Continue(c') => !CutSensitive(c', d[n..], L)
      case Fail(_, _) => true
  {
    hide Lex, Consume;
  }

  /** Splitting the rest of the stream into any reads changes nothing. */
  lemma {:induction false} FeedIsDrain(c: Core, unread: bytes, chunks: seq<bytes>, L: Limits)
    requires InRange(c) && c.stack != []
    requires DrainFrom(c, unread, L) == Drained(c, unread, Observed([], None))
    requires !CutSensitive(c, unread + Concat(chunks), L)
    ensures Feed(c, unread, chunks, L).seen == DrainFrom(c, unread + Concat(chunks), L).seen
    decreases |chunks|
  {
    if chunks == [] {
      assert unread + Concat(chunks) == unread;
    } else {
      var d, more := unread + chunks[0], Concat(chunks[1..]);
      assert unread + Concat(chunks) == d + more;
      ReadLater(c, d, more, L);
      var r := DrainFrom(c, d, L);
      if r.seen.error.None? {
        DrainSettles(c, d, L);
        FeedIsDrain(r.core, r.unread, chunks[1..], L);
      }
    }
  }

  /** After draining there is nothing left to parse until bytes arrive. */
  lemma {:induction false} DrainSettles(c: Core, d: bytes, L: Limits)
    requires InRange(c) && DrainFrom(c, d, L).seen.error.None?
    ensures
      var r := DrainFrom(c, d, L);
      DrainFrom(r.core, r.unread, L) == Drained(r.core, r.unread, Observed([], None))
    decreases |d|
  {
    var r := Run(c, d, L);
    if r.outcome.Root? {
      DrainSettles(Armed(START), r.unread, L);
    } else {
      RunSettles(c, d, L);
    }
  }

  lemma {:induction false} RunSettles(c: Core, d: bytes, L: Limits)
    requires InRange(c) && Run(c, d, L).outcome.Starved?
    ensures Run(Run(c, d, L).core, Run(c, d, L).unread, L) == Run(c, d, L)
    decreases |d|, if c.stack != [] && Top(c).state != ValueFrame then 1 else 0
  {
    if Top(c).state != ValueFrame {
      RunSettles(PushFrame(c, VALUE), d, L);
    } else if Lex(d, L).Tok? {
      RunSettles(Consume(c, Lex(d, L).token, L).core, d[Lex(d, L).size..], L);
    }
  }

  /** A difference in what is seen after a common first token is a difference in the whole. */
  lemma DifferLater(c: Core, d: bytes, e: bytes, L: Limits)
    requires InRange(c) && c.stack != [] && Top(c).state == ValueFrame
    requires Lex(d, L).Tok? && Lex(e, L) == Lex(d, L)
    requires !Consume(c, Lex(d, L).token, L).Fail?
    requires
      var s := Consume(c, Lex(d, L).token, L);
      var c', n := if s.Produced? then Armed(START) else s.core, Lex(d, L).size;
      InRange(c') && DrainFrom(c', e[n..], L).seen != DrainFrom(c', d[n..], L).seen
    ensures DrainFrom(c, e, L).seen != DrainFrom(c, d, L).seen
    ensures
      var s := Consume(c, Lex(d, L).token, L);
      var c', n := if s.Produced? then Armed(START) else s.core, Lex(d, L).size;
      DrainFrom(c, e, L).seen.error == DrainFrom(c', e[n..], L).seen.error
  {
    var n := Lex(d, L).size;
    var s := Consume(c, Lex(d, L).token, L);
    DrainToken(c, d, L);
    DrainToken(c, e, L);
    if s.Produced? {
      BeforeInjective([Parsed(s.core.tree, s.index)], DrainFrom(Armed(START), d[n..], L).seen, DrainFrom(Armed(START), e[n..], L).seen);
    }
  }

  lemma LexOfCut(d: bytes, k: nat, L: Limits)
    requires Lex(d, L).Tok? && Lex(d, L).size + k <= |d|
    ensures Lex(d[..Lex(d, L).size + k], L) == Lex(d, L)
    ensures d[..Lex(d, L).size + k][Lex(d, L).size..] == d[Lex(d, L).size..][..k]
  {
    assert Agree(d, d[..Lex(d, L).size + k], Lex(d, L).size);
    LexTokLocal(d, d[..Lex(d, L).size + k], L);
  }

  lemma CutHere(c: Core, d: bytes, L: Limits)
    requires InRange(c) && c.stack != [] && Top(c).state == ValueFrame && AtLineLimit(d, L)
    ensures L.maxLineBytes + 2 <= |d|
    ensures DrainFrom(c, d[..L.maxLineBytes + 2], L).seen == Observed([], Some(InvalidLength))
  {
    LexCutAtLimit(d, L);
  }

  /** A sensitive stream has a place to cut that changes what is seen. */
  lemma {:induction false} WhereToCut(c: Core, d: bytes, L: Limits) returns (k: nat)
    requires InRange(c) && CutSensitive(c, d, L)
    ensures k <= |d|
    ensures DrainFrom(c, d[..k], L).seen.error == Some(InvalidLength)
    ensures DrainFrom(c, d[..k], L).seen != DrainFrom(c, d, L).seen
    decreases |d|, if c.stack != [] && Top(c).state != ValueFrame then 1 else 0
  {
    if Top(c).state != ValueFrame {
      k := WhereToCut(PushFrame(c, VALUE), d, L);
    } else if AtLineLimit(d, L) && DrainFrom(c, d, L).seen != Observed([], Some(InvalidLength)) {
      k := L.maxLineBytes + 2;
      CutHere(c, d, L);
    } else {
      k := WhereToCutToken(c, d, L);
    }
  }

  lemma {:induction false} WhereToCutToken(c: Core, d: bytes, L: Limits) returns (k: nat)
    requires InRange(c) && c.stack != [] && Top(c).state == ValueFrame && Lex(d, L).Tok?
    requires !Consume(c, Lex(d, L).token, L).Fail?
    requires
      var s := Consume(c, Lex(d, L).token, L);
      CutSensitive(if s.Produced? then Armed(START) else s.core, d[Lex(d, L).size..], L)
    ensures k <= |d|
    ensures DrainFrom(c, d[..k], L).seen.error == Some(InvalidLength)
    ensures DrainFrom(c, d[..k], L).seen != DrainFrom(c, d, L).seen
    decreases |d|, 0, 0
  {
    hide Lex, Consume, DrainFrom, CutSensitive;
    var s := Consume(c, Lex(d, L).token, L);
    var k' := WhereToCut(if s.Produced? then Armed(START) else s.core, d[Lex(d, L).size..], L);
    k := Lex(d, L).size + k';
    LexOfCut(d, k', L);
    DifferLater(c, d, d[..k], L);
  }

  lemma BeforeInjective(a: seq<Parsed>, o: Observed, o': Observed)
    requires o != o'
    ensures Before(a, o) != Before(a, o')
  {
    assert (a + o.trees)[|a|..] == o.trees && (a + o'.trees)[|a|..] == o'.trees;
  }

  ghost predicate ReadsDoNotMatter(s: bytes, L: Limits) {
    forall chunks: seq<bytes> :: Concat(chunks) == s ==> Feed(START, [], chunks, L).seen == Drain(START, s, L).seen
  }

  lemma ConcatTwo(a: bytes, b: bytes)
    ensures Concat([a, b]) == a + b
  {
    assert [a, b][1..] == [b];
    assert [b][1..] == [];
    assert Concat([b]) == b + [];
  }

  lemma FeedStopsAtError(first: bytes, chunks: seq<bytes>, L: Limits)
    requires Drain(START, first, L).seen.error.Some?
    ensures Feed(START, [], [first] + chunks, L) == Drain(START, first, L)
  {
    hide DrainFrom;
    assert [] + ([first] + chunks)[0] == first;
  }

  lemma SensitiveMatters(s: bytes, L: Limits) returns (chunks: seq<bytes>)
    requires CutSensitive(Armed(START), s, L)
    ensures Concat(chunks) == s
    ensures Feed(START, [], chunks, L).seen != Drain(START, s, L).seen
  {
    hide CutSensitive, DrainFrom, Feed;
    var k := WhereToCut(Armed(START), s, L);
    chunks := [s[..k]] + [s[k..]];
    ConcatTwo(s[..k], s[k..]);
    FeedStopsAtError(s[..k], [s[k..]], L);
  }

  /** Before any byte arrives there is nothing to report. */
  lemma FreshParser(L: Limits)
    ensures InRange(Armed(START)) && Armed(START).stack == [VALUE]
    ensures DrainFrom(Armed(START), [], L) == Drained(Armed(START), [], Observed([], None))
  {
    var c := Armed(START);
    assert c.stack == [VALUE];
    assert Run(c, [], L) == RunResult(c, [], Starved);
  }

  lemma InsensitiveReads(s: bytes, chunks: seq<bytes>, L: Limits)
    requires !CutSensitive(Armed(START), s, L) && Concat(chunks) == s
    ensures Feed(START, [], chunks, L).seen == Drain(START, s, L).seen
  {
    FreshParser(L);
    assert [] + Concat(chunks) == s;
    FeedIsDrain(Armed(START), [], chunks, L);
    if chunks != [] {
      assert Armed(Armed(START)) == Armed(START);
      assert Drain(START, [] + chunks[0], L) == Drain(Armed(START), [] + chunks[0], L);
    }
  }

  /**
   Chunk independence, exactly: every way of splitting `s` into reads shows the same trees and the
   same error as one read of all of `s`, if and only if `s` is not cut-sensitive.
   */
  lemma ChunkIndependence(s: bytes, L: Limits)
    ensures ReadsDoNotMatter(s, L) <==> !CutSensitive(Armed(START), s, L)
  {
    if CutSensitive(Armed(START), s, L) {
      var chunks := SensitiveMatters(s, L);
    } else {
      forall chunks: seq<bytes> | Concat(chunks) == s
        ensures Feed(START, [], chunks, L).seen == Drain(START, s, L).seen
      {
        InsensitiveReads(s, chunks, L);
      }
    }
  }

  /** No line or length header met while reading `d` has exactly the maximum length. */
  predicate NoLineAtLimit(c: Core, d: bytes, L: Limits)
    requires InRange(c)
    decreases |d|, if c.stack != [] && Top(c).state != ValueFrame then 1 else 0
  {
    if c.stack == [] then true
    else if Top(c).state != ValueFrame then NoLineAtLimit(PushFrame(c, VALUE), d, L)
    else
      !AtLineLimit(d, L) &&
      match Lex(d, L)
      case NeedMore => true
      case Bad(_) => true
      case Tok(t, n) =>
        match Consume(c, t, L)
        case Produced(_, _) => NoLineAtLimit(Armed(START), d[n..], L)
        case Continue(c') => NoLineAtLimit(c', d[n..], L)
        case Fail(_, _) => true
  }

  lemma {:induction false} NoLineAtLimitSuffices(c: Core, d: bytes, L: Limits)
    requires InRange(c) && NoLineAtLimit(c, d, L)
    ensures !CutSensitive(c, d, L)
    decreases |d|, if c.stack != [] && Top(c).state != ValueFrame then 1 else 0
  {
    if c.stack == [] {
    } else if Top(c).state != ValueFrame {
      NoLineAtLimitSuffices(PushFrame(c, VALUE), d, L);
    } else if Lex(d, L).Tok? {
      var s := Consume(c, Lex(d, L).token, L);
      if !s.Fail? {
        NoLineAtLimitSuffices(if s.Produced? then Armed(START) else s.core, d[Lex(d, L).size..], L);
      }
    }
  }
}
