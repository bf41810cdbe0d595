/** What the adapter's results mean: error paths lead to what failed, and values mirror their messages. */
module AdapterPaths {
  import opened Bytes
  import opened Kinds
  import opened Builder
  import opened Adapter

  // ----- what an error says -----

  /** The integers of the type. */
  predicate InType(v: int, bits: nat, signed: bool) {
    if signed && bits > 0 then 0 - Pow2(bits - 1) <= v < Pow2(bits - 1) else 0 <= v < Pow2(bits)
  }

  /** The kinds of message a target is read from. */
  predicate Takes(t: Target, k: Kind) {
    match t
    case String => k == SimpleString || k == BulkString || k == VerbatimString
    case Int(_, _) => k == Integer
    case Bool => k == Boolean
    case Double => k == DoubleNumber
    case ArrayOf(_, _) => k == Array
    case SequenceOf(_) => k == Array || k == Set || k == Push
    case MapOf(_, _) => k == Map
    case _ => true
  }

  ghost predicate Lists(ks: seq<Kind>, t: Target) {
    (forall k :: k in ks <==> Takes(t, k)) && forall i, j :: 0 <= i < j < |ks| ==> ks[i] != ks[j]
  }

  /** `e` is a true complaint about `m` as a `t`, its parts aside. */
  ghost predicate Complaint(m: Message, t: Target, e: Error) {
    match e.kind
    case TypeMismatch =>
      e == Error(TypeMismatch, KindOf(m), e.expected, [], None, None) && !Takes(t, e.actual) && Lists(e.expected, t) &&
      (m.value.NullValue? ==> t.ArrayOf? || t.SequenceOf? || t.MapOf?)
    case UnexpectedNull =>
      e == Error(UnexpectedNull, Null, e.expected, [], None, None) && Lists(e.expected, t) &&
      m.value.NullValue? && (t.String? || t.Int? || t.Bool? || t.Double?)
    case ValueOutOfRange =>
      e == Error(ValueOutOfRange, Integer, [Integer], [], None, None) &&
      m.value.IntegerValue? && t.Int? && !InType(m.value.number, t.bits, t.signed)
    case SizeMismatch =>
      m.value.ArrayValue? && t.ArrayOf? && |m.value.elements| != t.size &&
      e == Error(SizeMismatch, Array, [], [], Some(t.size), Some(|m.value.elements|))
    case DuplicateKey => false
  }

  /** What a check of one place reports is true of that place. */
  lemma LocalComplains(m: Message, t: Target)
    requires Local(m, t).Some? && !(t.OptionalOf? && !m.value.NullValue?)
    ensures Complaint(m, t, Local(m, t).value)
  {
    hide Complaint, Lists, ScalarCheck, KindOf, Pow2, PassesRangeCheck, InType;
    KindAndValue(m);
    ExpectedKinds(t);
    match t
    case String => ScalarComplains(m, t, IsText(m), TEXT_KINDS);
    case Int(bits, signed) =>
      if m.value.IntegerValue? {
        RangeComplains(m, t);
      } else {
        ScalarComplains(m, t, false, [Integer]);
      }
    case Bool => ScalarComplains(m, t, m.value.BooleanValue?, [Boolean]);
    case Double => ScalarComplains(m, t, m.value.DoubleValue?, [DoubleNumber]);
    case _ => ShapeComplains(m, t);
  }

  /** The lists of expected kinds that errors carry. */
  lemma ExpectedKinds(t: Target)
    ensures Lists(TEXT_KINDS, String) && Lists([Boolean], Bool) && Lists([DoubleNumber], Double)
    ensures t.Int? ==> Lists([Integer], t)
    ensures t.ArrayOf? ==> Lists([Array], t)
    ensures t.SequenceOf? ==> Lists([Array, Set, Push], t)
    ensures t.MapOf? ==> Lists([Map], t)
  {
  }

  lemma ScalarComplains(m: Message, t: Target, fits: bool, expected: seq<Kind>)
    requires t.String? || t.Int? || t.Bool? || t.Double?
    requires Lists(expected, t) && (fits <==> Takes(t, KindOf(m)))
    ensures ScalarCheck(m, fits, expected).Some? ==> Complaint(m, t, ScalarCheck(m, fits, expected).value)
    ensures !fits ==> ScalarCheck(m, fits, expected).Some?
  {
    hide Lists, KindOf;
  }

  lemma RangeComplains(m: Message, t: Target)
    requires t.Int? && m.value.IntegerValue?
    ensures ScalarCheck(m, true, [Integer]).None?
    ensures !PassesRangeCheck(m.value.number, t.bits, t.signed) ==> Complaint(m, t, OUT_OF_RANGE)
  {
    hide Pow2, Lists;
  }

  lemma ShapeComplains(m: Message, t: Target)
    requires (t.ArrayOf? || t.SequenceOf? || t.MapOf?) && Local(m, t).Some?
    ensures Complaint(m, t, Local(m, t).value)
  {
    hide Lists, KindOf;
    ExpectedKinds(t);
    KindAndValue(m);
  }

  lemma KindAndValue(m: Message)
    ensures Takes(String, KindOf(m)) <==> IsText(m)
    ensures Takes(SequenceOf(Ignore), KindOf(m)) <==> IsList(m)
    ensures KindOf(m) == Integer <==> m.value.IntegerValue?
    ensures KindOf(m) == Boolean <==> m.value.BooleanValue?
    ensures KindOf(m) == DoubleNumber <==> m.value.DoubleValue?
    ensures KindOf(m) == Array <==> m.value.ArrayValue?
    ensures KindOf(m) == Map <==> m.value.MapValue?
  {
  }

  // ----- following a path -----

  datatype Place = Place(message: Message, target: Target)

  /** The first entry at or after `i` whose key is the text `s`. */
  function FindKey(m: Message, s: bytes, i: nat): Option<nat>
    requires m.value.MapValue? && i <= |m.value.entries|
    decreases |m.value.entries| - i
  {
    if i == |m.value.entries| then None
    else if Represent(m.value.entries[i].0, String) == Text(s) then Some(i)
    else FindKey(m, s, i + 1)
  }

  /** The part of `m` a path names, with the type it is adapted to. */
  function Walk(m: Message, t: Target, path: seq<PathElement>): Option<Place>
    decreases |path|, 1, t
  {
    if t.OptionalOf? && !m.value.NullValue? then Walk(m, t.inner, path)
    else if path == [] then Some(Place(m, t))
    else match t
      case ArrayOf(item, _) => WalkItem(m, item, path)
      case SequenceOf(item) => WalkItem(m, item, path)
      case MapOf(k, v) => if m.value.MapValue? then WalkEntry(m, k, v, path) else None
      case _ => None
  }

  function WalkItem(m: Message, item: Target, path: seq<PathElement>): Option<Place>
    requires path != []
    decreases |path|, 0
  {
    if IsList(m) && path[0].Index? && path[0].index < |ListItems(m)| then Walk(ListItems(m)[path[0].index], item, path[1..])
    else None
  }

  function WalkEntry(m: Message, k: Target, v: Target, path: seq<PathElement>): Option<Place>
    requires path != [] && m.value.MapValue?
    decreases |path|, 0
  {
    match path[0]
    case Key(s) =>
      var i := FindKey(m, s, 0);
      if i.Some? && i.value < |m.value.entries| then Walk(m.value.entries[i.value].1, v, path[1..]) else None
    case Index(i) =>
      if |path| == 1 || i >= |m.value.entries| then None
      else if path[1] == KeyField then Walk(m.value.entries[i].0, k, path[2..])
      else if path[1] == ValueField then Walk(m.value.entries[i].1, v, path[2..])
      else None
    case _ => None
  }

  // ----- which part fails -----

  lemma {:induction false} FailingItem(ms: seq<Message>, t: Target, i: nat) returns (j: nat)
    requires i <= |ms| && FirstFailure(VisitItems(ms, t, i)).Some?
    ensures i <= j < |ms| && FirstFailure(Visits(ms[j], t)).Some?
    ensures forall l :: i <= l < j ==> FirstFailure(Visits(ms[l], t)).None?
    ensures
      var w := FirstFailure(Visits(ms[j], t)).value;
      FirstFailure(VisitItems(ms, t, i)) == Some(w.(path := [Index(j)] + w.path))
    decreases |ms| - i
  {
    hide Visits, VisitItems, FirstFailure;
    ItemsEnd(ms, t);
    ItemsUnfold(ms, t, i);
    if FirstFailure(Visits(ms[i], t)).Some? {
      j := i;
    } else {
      j := FailingItem(ms, t, i + 1);
    }
  }

  /** The entry that fails, and that every entry from `i` before it is sound. */
  lemma {:induction false} FailingEntry(m: Message, k: Target, v: Target, i: nat) returns (j: nat)
    requires m.value.MapValue? && i <= |m.value.entries| && FirstFailure(VisitEntries(m, k, v, i)).Some?
    ensures i <= j < |m.value.entries| && EntryFailure(m, k, v, j) == FirstFailure(VisitEntries(m, k, v, i))
    ensures forall l :: i <= l < j ==> EntryFailure(m, k, v, l).None?
    decreases |m.value.entries| - i
  {
    hide EntryFailure, VisitEntries, FirstFailure;
    EntriesEnds(m, k, v);
    EntryUnfold(m, k, v, i);
    if EntryFailure(m, k, v, i).Some? {
      j := i;
    } else {
      j := FailingEntry(m, k, v, i + 1);
    }
  }

  /** Keys of the first `n` entries, and nothing else, are in the map. */
  lemma {:induction false} KeysOf(m: Message, k: Target, v: Target, n: nat)
    requires m.value.MapValue? && n <= |m.value.entries|
    ensures forall a :: a in RepresentEntries(m, k, v, n) <==> IsKey(m, k, n, a)
    decreases n
  {
    hide RepresentEntries, Represent, IsKey;
    if n == 0 {
      EntriesEnds(m, k, v);
      NoKeys(m, k);
    } else {
      KeysOf(m, k, v, n - 1);
      EntriesGrow(m, k, v, n - 1);
      KeysGrow(m, k, n - 1);
      forall a
        ensures a in RepresentEntries(m, k, v, n) <==> IsKey(m, k, n, a)
      {
        assert IsKey(m, k, (n - 1) + 1, a) <==> IsKey(m, k, n - 1, a) || a == Represent(m.value.entries[n - 1].0, k);
        assert a in RepresentEntries(m, k, v, n - 1) <==> IsKey(m, k, n - 1, a);
      }
    }
  }

  /** `a` is the key of one of the first `n` entries. */
  ghost predicate IsKey(m: Message, k: Target, n: nat, a: Adapted)
    requires m.value.MapValue? && n <= |m.value.entries|
  {
    exists i :: 0 <= i < n && Represent(m.value.entries[i].0, k) == a
  }

  lemma NoKeys(m: Message, k: Target)
    requires m.value.MapValue?
    ensures forall a :: !IsKey(m, k, 0, a)
  {
  }

  lemma KeysGrow(m: Message, k: Target, n: nat)
    requires m.value.MapValue? && n < |m.value.entries|
    ensures forall a :: IsKey(m, k, n + 1, a) <==> IsKey(m, k, n, a) || a == Represent(m.value.entries[n].0, k)
  {
    hide Represent;
    forall a
      ensures IsKey(m, k, n + 1, a) <==> IsKey(m, k, n, a) || a == Represent(m.value.entries[n].0, k)
    {
      if IsKey(m, k, n, a) {
        var i :| 0 <= i < n && Represent(m.value.entries[i].0, k) == a;
        assert i < n + 1;
      }
    }
  }

  lemma {:induction false} FindFresh(m: Message, v: Target, i: nat, j: nat)
    requires m.value.MapValue? && i <= j < |m.value.entries|
    requires Represent(m.value.entries[j].0, String).Text?
    requires Represent(m.value.entries[j].0, String) !in RepresentEntries(m, String, v, j)
    ensures FindKey(m, Represent(m.value.entries[j].0, String).text, i) == Some(j)
    decreases j - i
  {
    KeysOf(m, String, v, j);
    if i < j {
      FindFresh(m, v, i + 1, j);
    }
  }

  // ----- error paths -----

  /** Entry `j` of the map repeats the key of an earlier entry; both keys are sound. */
  ghost predicate Repeats(m: Message, k: Target, j: nat) {
    m.value.MapValue? && j < |m.value.entries| && FirstFailure(Visits(m.value.entries[j].0, k)).None? &&
    exists i :: 0 <= i < j && FirstFailure(Visits(m.value.entries[i].0, k)).None? &&
      Represent(m.value.entries[i].0, k) == Represent(m.value.entries[j].0, k)
  }

  /** Entry `j` of the map `m` repeats a key, and `path` names that entry below `p`. */
  ghost predicate RepeatedAt(m: Message, k: Target, j: int, path: seq<PathElement>, p: seq<PathElement>) {
    m.value.MapValue? && 0 <= j < |m.value.entries| && Repeats(m, k, j) &&
    var key := m.value.entries[j].0;
    path == p + if k == String && IsText(key) then [Key(key.value.data)] else [Index(j), KeyField]
  }

  /** The failing check `f` is about the place that `p` leads to from `m`. */
  ghost predicate Located(m: Message, t: Target, f: Visit, p: seq<PathElement>) {
    f.error.Some? && Walk(m, t, p) == Some(Place(f.message, f.target)) &&
    if f.error.value.kind == DuplicateKey then
      f.target.MapOf? && exists j :: RepeatedAt(f.message, f.target.key, j, f.path, p)
    else f.path == p && Local(f.message, f.target) == f.error
  }

  lemma LocalKind(m: Message, t: Target)
    ensures Local(m, t).Some? ==> Local(m, t).value.kind != DuplicateKey && Local(m, t).value.path == []
  {
  }

  /** A place found below one part is found below the whole. */
  lemma Deeper(m: Message, t: Target, part: Message, pt: Target, step: seq<PathElement>, f: Visit, p: seq<PathElement>)
    requires Located(part, pt, f, p) && Walk(m, t, step + p) == Walk(part, pt, p)
    ensures Located(m, t, f.(path := step + f.path), step + p)
  {
    hide Repeats, Walk, Represent, KeyPath;
    if f.error.value.kind == DuplicateKey {
      var j :| RepeatedAt(f.message, f.target.key, j, f.path, p);
      PathDeeper(f.message, f.target.key, j, f.path, p, step);
    }
  }

  lemma PathDeeper(m: Message, k: Target, j: int, path: seq<PathElement>, p: seq<PathElement>, step: seq<PathElement>)
    requires RepeatedAt(m, k, j, path, p)
    ensures RepeatedAt(m, k, j, step + path, step + p)
  {
    hide Repeats, Represent, KeyPath;
  }

  lemma {:induction false} Locate(m: Message, t: Target) returns (p: seq<PathElement>)
    requires FirstFailure(Visits(m, t)).Some?
    ensures Located(m, t, FirstFailure(Visits(m, t)).value, p)
    decreases m, 2, t
  {
    hide Located, Walk;
    if t.OptionalOf? && !m.value.NullValue? {
      p := Locate(m, t.inner);
      LocatedInside(m, t, FirstFailure(Visits(m, t)).value, p);
    } else if Local(m, t).Some? {
      p := [];
      LocatedHere(m, t);
    } else {
      match t
      case ArrayOf(item, _) =>
        ShapeHolds(m, t, VisitItems(m.value.elements, item, 0));
        p := LocateItem(m, t, m.value.elements, item);
      case SequenceOf(item) =>
        ShapeHolds(m, t, VisitItems(ListItems(m), item, 0));
        p := LocateItem(m, t, ListItems(m), item);
      case MapOf(k, v) =>
        ShapeHolds(m, t, VisitEntries(m, k, v, 0));
        p := LocateEntry(m, k, v);
      case _ => p := [];
    }
  }

  lemma LocatedInside(m: Message, t: Target, f: Visit, p: seq<PathElement>)
    requires t.OptionalOf? && !m.value.NullValue? && Located(m, t.inner, f, p)
    ensures Located(m, t, f, p)
  {
  }

  lemma LocatedHere(m: Message, t: Target)
    requires !(t.OptionalOf? && !m.value.NullValue?) && Local(m, t).Some?
    ensures FirstFailure(Visits(m, t)).Some? && Located(m, t, FirstFailure(Visits(m, t)).value, [])
  {
    LocalKind(m, t);
  }

  lemma {:induction false} LocateItem(m: Message, t: Target, ms: seq<Message>, item: Target) returns (p: seq<PathElement>)
    requires IsList(m) && ms == ListItems(m) && (t == SequenceOf(item) || (t.ArrayOf? && t.item == item))
    requires FirstFailure(VisitItems(ms, item, 0)).Some?
    ensures Located(m, t, FirstFailure(VisitItems(ms, item, 0)).value, p)
    decreases m, 1
  {
    hide Located, Visits, VisitItems, FirstFailure;
    var j := FailingItem(ms, item, 0);
    var q := Locate(ms[j], item);
    p := [Index(j)] + q;
    assert p[1..] == q;
    Deeper(m, t, ms[j], item, [Index(j)], FirstFailure(Visits(ms[j], item)).value, q);
  }

  lemma {:induction false} LocateEntry(m: Message, k: Target, v: Target) returns (p: seq<PathElement>)
    requires m.value.MapValue? && FirstFailure(VisitEntries(m, k, v, 0)).Some?
    ensures Located(m, MapOf(k, v), FirstFailure(VisitEntries(m, k, v, 0)).value, p)
    decreases m, 1
  {
    hide Located, Visits, VisitEntries, FirstFailure, EntryFailure, Represent, RepresentEntries;
    var j := FailingEntry(m, k, v, 0);
    EntryCases(m, k, v, j);
    if FirstFailure(Visits(m.value.entries[j].0, k)).Some? {
      p := LocateKey(m, k, v, j);
    } else if Represent(m.value.entries[j].0, k) in RepresentEntries(m, k, v, j) {
      p := [];
      LocatedDuplicate(m, k, v, j);
    } else {
      p := LocateValue(m, k, v, j);
    }
  }

  lemma EntryCases(m: Message, k: Target, v: Target, j: nat)
    requires m.value.MapValue? && j < |m.value.entries| && EntryFailure(m, k, v, j).Some?
    ensures
      var e := m.value.entries[j];
      FirstFailure(Visits(e.0, k)).Some? || Represent(e.0, k) in RepresentEntries(m, k, v, j) || FirstFailure(Visits(e.1, v)).Some?
  {
  }

  lemma {:induction false} LocateKey(m: Message, k: Target, v: Target, j: nat) returns (p: seq<PathElement>)
    requires m.value.MapValue? && j < |m.value.entries| && FirstFailure(Visits(m.value.entries[j].0, k)).Some?
    ensures EntryFailure(m, k, v, j).Some? && Located(m, MapOf(k, v), EntryFailure(m, k, v, j).value, p)
    decreases m, 0
  {
    hide Located, Visits, FirstFailure, Represent, RepresentEntries;
    var e := m.value.entries[j];
    var q := Locate(e.0, k);
    p := [Index(j), KeyField] + q;
    assert p[2..] == q;
    Deeper(m, MapOf(k, v), e.0, k, [Index(j), KeyField], FirstFailure(Visits(e.0, k)).value, q);
  }

  lemma {:induction false} LocateValue(m: Message, k: Target, v: Target, j: nat) returns (p: seq<PathElement>)
    requires m.value.MapValue? && j < |m.value.entries| && FirstFailure(Visits(m.value.entries[j].0, k)).None?
    requires Represent(m.value.entries[j].0, k) !in RepresentEntries(m, k, v, j) && FirstFailure(Visits(m.value.entries[j].1, v)).Some?
    ensures EntryFailure(m, k, v, j).Some? && Located(m, MapOf(k, v), EntryFailure(m, k, v, j).value, p)
    decreases m, 0
  {
    hide Located, Visits, FirstFailure, Represent, RepresentEntries, FindKey;
    var e := m.value.entries[j];
    var key := Represent(e.0, k);
    var q := Locate(e.1, v);
    p := ValuePath(k, j, key) + q;
    if k == String && key.Text? {
      FindFresh(m, v, 0, j);
      assert p[1..] == q;
    } else {
      assert p[2..] == q;
    }
    Deeper(m, MapOf(k, v), e.1, v, ValuePath(k, j, key), FirstFailure(Visits(e.1, v)).value, q);
  }

  lemma KeyNamed(key: Message, k: Target, j: nat)
    requires FirstFailure(Visits(key, k)).None?
    ensures KeyPath(k, j, Represent(key, k)) == if k == String && IsText(key) then [Key(key.value.data)] else [Index(j), KeyField]
  {
    if k == String {
      assert Visits(key, k)[0].error == Local(key, k);
    }
  }

  lemma LocatedDuplicate(m: Message, k: Target, v: Target, j: nat)
    requires m.value.MapValue? && j < |m.value.entries| && FirstFailure(Visits(m.value.entries[j].0, k)).None?
    requires Represent(m.value.entries[j].0, k) in RepresentEntries(m, k, v, j)
    requires forall l :: 0 <= l < j ==> EntryFailure(m, k, v, l).None?
    ensures EntryFailure(m, k, v, j).Some? && Located(m, MapOf(k, v), EntryFailure(m, k, v, j).value, [])
  {
    hide Visits, FirstFailure, Represent, RepresentEntries;
    KeysOf(m, k, v, j);
    var i :| 0 <= i < j && Represent(m.value.entries[i].0, k) == Represent(m.value.entries[j].0, k);
    assert EntryFailure(m, k, v, i).None?;
    KeyNamed(m.value.entries[j].0, k, j);
    assert RepeatedAt(m, k, j, EntryFailure(m, k, v, j).value.path, []);
  }

  /** A walk does not stop at an optional that has something in it. */
  lemma {:induction false} WalkEnds(m: Message, t: Target, path: seq<PathElement>)
    requires Walk(m, t, path).Some?
    ensures
      var found := Walk(m, t, path).value;
      !(found.target.OptionalOf? && !found.message.value.NullValue?)
    decreases |path|, t
  {
    if t.OptionalOf? && !m.value.NullValue? {
      WalkEnds(m, t.inner, path);
    } else if path != [] {
      match t
      case ArrayOf(item, _) => WalkEnds(ListItems(m)[path[0].index], item, path[1..]);
      case SequenceOf(item) => WalkEnds(ListItems(m)[path[0].index], item, path[1..]);
      case MapOf(k, v) =>
        match path[0] {
          case Key(s) => WalkEnds(m.value.entries[FindKey(m, s, 0).value].1, v, path[1..]);
          case Index(i) =>
            if path[1] == KeyField {
              WalkEnds(m.value.entries[i].0, k, path[2..]);
            } else {
              WalkEnds(m.value.entries[i].1, v, path[2..]);
            }
          case _ =>
        }
      case _ =>
    }
  }

  /**
   Error paths are sound: unless it reports a duplicate key, the path of an error leads from the
   root to the part that was checked first and failed, and the error is the one raised there and a
   true complaint about that part. A duplicate key means that two entries of the map found there have sound, equal keys.
   */
  lemma ErrorPathsAreSound(m: Message, t: Target) returns (p: seq<PathElement>)
    requires Expected(Visits(m, t), Represent(m, t)).Err?
    ensures
      var e := Expected(Visits(m, t), Represent(m, t)).error;
      var found := Walk(m, t, p);
      found.Some? &&
      if e.kind != DuplicateKey then
        p == e.path && Local(found.value.message, found.value.target) == Some(e.(path := [])) &&
        Complaint(found.value.message, found.value.target, e.(path := []))
      else
        found.value.target.MapOf? && exists j :: RepeatedAt(found.value.message, found.value.target.key, j, e.path, p)
  {
    hide Visits, Walk, RepeatedAt, Complaint;
    p := Locate(m, t);
    var f := FirstFailure(Visits(m, t)).value;
    LocalKind(f.message, f.target);
    WalkEnds(m, t, p);
    if Local(f.message, f.target).Some? {
      LocalComplains(f.message, f.target);
    }
  }

  // ----- success -----

  /** The widths integer types have. */
  predicate TargetOk(t: Target) {
    match t
    case Int(bits, _) => 0 < bits <= 64
    case OptionalOf(inner) => TargetOk(inner)
    case ArrayOf(item, _) => TargetOk(item)
    case SequenceOf(item) => TargetOk(item)
    case MapOf(k, v) => TargetOk(k) && TargetOk(v)
    case _ => true
  }

  /** Integers in messages are 64-bit. */
  predicate I64Only(m: Message) {
    match m.value
    case IntegerValue(v) => InI64(v)
    case MapValue(es) => forall i :: 0 <= i < |es| ==> I64Only(es[i].0) && I64Only(es[i].1)
    case ArrayValue(ms) => forall i :: 0 <= i < |ms| ==> I64Only(ms[i])
    case SetValue(ms) => forall i :: 0 <= i < |ms| ==> I64Only(ms[i])
    case PushValue(ms) => forall i :: 0 <= i < |ms| ==> I64Only(ms[i])
    case _ => true
  }

  /** `a` says exactly what `m` says: same text, same number, same elements, one entry per entry. */
  ghost predicate Mirrors(m: Message, t: Target, a: Adapted)
    decreases m, t
  {
    match t
    case Ignore => a == Ignored
    case String => IsText(m) && a == Text(m.value.data)
    case Int(bits, signed) => m.value.IntegerValue? && a == Number(m.value.number) && MinOf(bits, signed) <= m.value.number <= MaxOf(bits, signed)
    case Bool => m.value.BooleanValue? && a == Truth(m.value.flag)
    case Double => m.value.DoubleValue? && a == Float(m.value.text)
    case OptionalOf(inner) => if m.value.NullValue? then a == Absent else a.Present? && Mirrors(m, inner, a.inner)
    case ArrayOf(item, n) =>
      m.value.ArrayValue? && |m.value.elements| == n && a.Elements? && |a.items| == n &&
      forall i :: 0 <= i < n ==> Mirrors(m.value.elements[i], item, a.items[i])
    case SequenceOf(item) =>
      IsList(m) && a.Elements? && |a.items| == |ListItems(m)| &&
      forall i :: 0 <= i < |ListItems(m)| ==> Mirrors(ListItems(m)[i], item, a.items[i])
    case MapOf(k, v) =>
      m.value.MapValue? && a.Dictionary? && |a.entries| == |m.value.entries| &&
      forall i :: 0 <= i < |m.value.entries| ==>
        exists key :: key in a.entries && Mirrors(m.value.entries[i].0, k, key) && Mirrors(m.value.entries[i].1, v, a.entries[key])
  }

  lemma {:induction false} SoundItems(ms: seq<Message>, t: Target, i: nat)
    requires i <= |ms| && FirstFailure(VisitItems(ms, t, i)).None?
    ensures forall j :: i <= j < |ms| ==> FirstFailure(Visits(ms[j], t)).None?
    decreases |ms| - i
  {
    hide Visits, VisitItems, FirstFailure;
    if i < |ms| {
      ItemsUnfold(ms, t, i);
      SoundItems(ms, t, i + 1);
    }
  }

  lemma {:induction false} SoundEntries(m: Message, k: Target, v: Target, i: nat)
    requires m.value.MapValue? && i <= |m.value.entries| && FirstFailure(VisitEntries(m, k, v, i)).None?
    ensures forall j :: i <= j < |m.value.entries| ==> EntryFailure(m, k, v, j).None?
    decreases |m.value.entries| - i
  {
    hide VisitEntries, FirstFailure, EntryFailure;
    if i < |m.value.entries| {
      EntryUnfold(m, k, v, i);
      SoundEntries(m, k, v, i + 1);
    }
  }

  lemma SoundEntry(m: Message, k: Target, v: Target, j: nat)
    requires m.value.MapValue? && j < |m.value.entries| && EntryFailure(m, k, v, j).None?
    ensures
      var e := m.value.entries[j];
      FirstFailure(Visits(e.0, k)).None? && Represent(e.0, k) !in RepresentEntries(m, k, v, j) && FirstFailure(Visits(e.1, v)).None?
  {
  }

  /** With distinct keys every entry has its own place in the map. */
  lemma {:induction false} EntriesKept(m: Message, k: Target, v: Target, n: nat)
    requires m.value.MapValue? && n <= |m.value.entries| && forall j :: 0 <= j < n ==> EntryFailure(m, k, v, j).None?
    ensures
      var out := RepresentEntries(m, k, v, n);
      |out| == n &&
      forall i :: 0 <= i < n ==>
        Represent(m.value.entries[i].0, k) in out && out[Represent(m.value.entries[i].0, k)] == Represent(m.value.entries[i].1, v)
    decreases n
  {
    hide EntryFailure, Represent, RepresentEntries;
    if n == 0 {
      EntriesEnds(m, k, v);
    } else {
      EntriesKept(m, k, v, n - 1);
      EntriesGrow(m, k, v, n - 1);
      SoundEntry(m, k, v, n - 1);
    }
  }

  lemma ScalarMirrors(m: Message, t: Target)
    requires IsScalar(t) && TargetOk(t) && I64Only(m) && FirstFailure(Visits(m, t)).None?
    ensures Mirrors(m, t, Represent(m, t))
  {
    assert Visits(m, t)[0].error == Local(m, t);
    hide Cast, InI64, Visits, MinOf, MaxOf;
    if t.Int? {
      NoTruncation(m.value.number, t.bits, t.signed);
      RangeHolds(m.value.number, t.bits, t.signed);
    }
  }

  lemma RangeHolds(v: int, bits: nat, signed: bool)
    requires 0 < bits <= 64 && InI64(v) && PassesRangeCheck(v, bits, signed)
    ensures MinOf(bits, signed) <= v <= MaxOf(bits, signed)
  {
    assert Pow2(64) == 2 * Pow2(63);
    hide Pow2;
  }

  lemma LocalHolds(m: Message, t: Target)
    requires FirstFailure(Visits(m, t)).None? && (t.ArrayOf? || t.SequenceOf? || t.MapOf?)
    ensures Local(m, t).None?
    ensures t.ArrayOf? ==> FirstFailure(VisitItems(m.value.elements, t.item, 0)).None?
    ensures t.SequenceOf? ==> FirstFailure(VisitItems(ListItems(m), t.item, 0)).None?
    ensures t.MapOf? ==> FirstFailure(VisitEntries(m, t.key, t.item, 0)).None?
  {
    if Local(m, t).Some? {
      ShapeFails(m, t);
    } else {
      match t
      case ArrayOf(item, _) => ShapeHolds(m, t, VisitItems(m.value.elements, item, 0));
      case SequenceOf(item) => ShapeHolds(m, t, VisitItems(ListItems(m), item, 0));
      case MapOf(k, v) => ShapeHolds(m, t, VisitEntries(m, k, v, 0));
    }
  }

  /** Success loses nothing: no truncated integer, no dropped element, no merged entry. */
  lemma {:induction false} ValuesMirror(m: Message, t: Target)
    requires TargetOk(t) && I64Only(m) && FirstFailure(Visits(m, t)).None?
    ensures Mirrors(m, t, Represent(m, t))
    decreases m, 2, t
  {
    if IsScalar(t) {
      ScalarMirrors(m, t);
    } else if t.OptionalOf? {
      if !m.value.NullValue? {
        ValuesMirror(m, t.inner);
      }
    } else {
      ContainerMirrors(m, t);
    }
  }

  lemma {:induction false} ContainerMirrors(m: Message, t: Target)
    requires TargetOk(t) && I64Only(m) && FirstFailure(Visits(m, t)).None? && (t.ArrayOf? || t.SequenceOf? || t.MapOf?)
    ensures Mirrors(m, t, Represent(m, t))
    decreases m, 1
  {
    hide Visits, FirstFailure, VisitItems, VisitEntries, I64Only;
    LocalHolds(m, t);
    if t.MapOf? {
      EntriesMirror(m, t.key, t.item);
    } else {
      ItemsMirror(m, ListItems(m), t.item);
    }
  }

  lemma {:induction false} ItemsMirror(m: Message, ms: seq<Message>, t: Target)
    requires TargetOk(t) && I64Only(m) && IsList(m) && ms == ListItems(m) && FirstFailure(VisitItems(ms, t, 0)).None?
    ensures forall i :: 0 <= i < |ms| ==> Mirrors(ms[i], t, Represent(ms[i], t))
    decreases m, 0
  {
    hide Visits, FirstFailure, VisitItems, Represent, Mirrors;
    SoundItems(ms, t, 0);
    forall i | 0 <= i < |ms|
      ensures Mirrors(ms[i], t, Represent(ms[i], t))
    {
      ValuesMirror(ms[i], t);
    }
  }

  lemma {:induction false} EntriesMirror(m: Message, k: Target, v: Target)
    requires TargetOk(k) && TargetOk(v) && I64Only(m) && m.value.MapValue? && FirstFailure(VisitEntries(m, k, v, 0)).None?
    ensures Mirrors(m, MapOf(k, v), Represent(m, MapOf(k, v)))
    decreases m, 0
  {
    hide Visits, FirstFailure, VisitEntries, EntryFailure, Represent, RepresentEntries, Mirrors, I64Only;
    var es := m.value.entries;
    SoundEntries(m, k, v, 0);
    EntriesKept(m, k, v, |es|);
    forall i | 0 <= i < |es|
      ensures Mirrors(es[i].0, k, Represent(es[i].0, k)) && Mirrors(es[i].1, v, Represent(es[i].1, v))
    {
      SoundEntry(m, k, v, i);
      EntriesFit(m, i);
      ValuesMirror(es[i].0, k);
      ValuesMirror(es[i].1, v);
    }
    MapMirrors(m, k, v, RepresentEntries(m, k, v, |es|));
    RepresentMap(m, k, v);
  }

  lemma EntriesFit(m: Message, i: nat)
    requires I64Only(m) && m.value.MapValue? && i < |m.value.entries|
    ensures I64Only(m.value.entries[i].0) && I64Only(m.value.entries[i].1)
  {
  }

  lemma RepresentMap(m: Message, k: Target, v: Target)
    requires m.value.MapValue?
    ensures Represent(m, MapOf(k, v)) == Dictionary(RepresentEntries(m, k, v, |m.value.entries|))
  {
  }

  lemma MapMirrors(m: Message, k: Target, v: Target, out: map<Adapted, Adapted>)
    requires m.value.MapValue? && |out| == |m.value.entries|
    requires forall i :: 0 <= i < |m.value.entries| ==>
      var e := m.value.entries[i];
      Represent(e.0, k) in out && out[Represent(e.0, k)] == Represent(e.1, v) &&
      Mirrors(e.0, k, Represent(e.0, k)) && Mirrors(e.1, v, Represent(e.1, v))
    ensures Mirrors(m, MapOf(k, v), Dictionary(out))
  {
    hide Represent;
  }
}
