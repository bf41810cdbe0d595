/** When adapting succeeds, and what each kind of error says about the message: by shape, not by checks. */
module AdapterFits {
  import opened Bytes
  import opened Kinds
  import opened Parser
  import opened Discipline
  import opened Builder
  import opened Adapter
  import opened AdapterPaths

  // ----- success -----

  /** No two of the entries have the same key. */
  ghost predicate DistinctKeys(es: seq<(Message, Message)>, k: Target) {
    forall i, j :: 0 <= i < j < |es| ==> Represent(es[i].0, k) != Represent(es[j].0, k)
  }

  /** `m` has the shape of a `t`. */
  ghost predicate Fits(m: Message, t: Target)
    decreases m, t
  {
    match t
    case Ignore => true
    case String => m.value.SimpleStringValue? || m.value.BulkStringValue? || m.value.VerbatimValue?
    case Int(bits, signed) => m.value.IntegerValue? && InType(m.value.number, bits, signed)
    case Bool => m.value.BooleanValue?
    case Double => m.value.DoubleValue?
    case OptionalOf(inner) => m.value.NullValue? || Fits(m, inner)
    case ArrayOf(item, n) =>
      m.value.ArrayValue? && |m.value.elements| == n && forall i :: 0 <= i < n ==> Fits(m.value.elements[i], item)
    case SequenceOf(item) =>
      (match m.value
       case ArrayValue(ms) => forall i :: 0 <= i < |ms| ==> Fits(ms[i], item)
       case SetValue(ms) => forall i :: 0 <= i < |ms| ==> Fits(ms[i], item)
       case PushValue(ms) => forall i :: 0 <= i < |ms| ==> Fits(ms[i], item)
       case _ => false)
    case MapOf(k, v) =>
      m.value.MapValue? && DistinctKeys(m.value.entries, k) &&
      forall i :: 0 <= i < |m.value.entries| ==> Fits(m.value.entries[i].0, k) && Fits(m.value.entries[i].1, v)
  }

  lemma RangeExact(v: int, bits: nat, signed: bool)
    requires 0 < bits <= 64 && InI64(v)
    ensures PassesRangeCheck(v, bits, signed) <==> InType(v, bits, signed)
  {
    assert Pow2(64) == 2 * Pow2(63);
    hide Pow2;
  }

  lemma ScalarFits(m: Message, t: Target)
    requires IsScalar(t) && TargetOk(t) && I64Only(m)
    ensures FirstFailure(Visits(m, t)).None? <==> Fits(m, t)
  {
    assert Visits(m, t) == [Visit([], m, t, Local(m, t))];
    hide Visits, MinOf, MaxOf, InI64, Pow2, InType, PassesRangeCheck;
    assert FirstFailure([Visit([], m, t, Local(m, t))]).None? <==> Local(m, t).None?;
    if t.Int? && m.value.IntegerValue? {
      RangeExact(m.value.number, t.bits, t.signed);
    }
  }

  /** Every part from `i` on is sound exactly if the checks from there on pass. */
  lemma {:induction false} ItemsSound(ms: seq<Message>, t: Target, i: nat)
    requires i <= |ms|
    ensures FirstFailure(VisitItems(ms, t, i)).None? <==> forall j :: i <= j < |ms| ==> FirstFailure(Visits(ms[j], t)).None?
    decreases |ms| - i
  {
    hide Visits, VisitItems, FirstFailure;
    ItemsEnd(ms, t);
    if i < |ms| {
      ItemsUnfold(ms, t, i);
      ItemsSound(ms, t, i + 1);
    }
  }

  lemma {:induction false} EntriesSound(m: Message, k: Target, v: Target, i: nat)
    requires m.value.MapValue? && i <= |m.value.entries|
    ensures FirstFailure(VisitEntries(m, k, v, i)).None? <==> forall j :: i <= j < |m.value.entries| ==> EntryFailure(m, k, v, j).None?
    decreases |m.value.entries| - i
  {
    hide VisitEntries, FirstFailure, EntryFailure;
    EntriesEnds(m, k, v);
    if i < |m.value.entries| {
      EntryUnfold(m, k, v, i);
      EntriesSound(m, k, v, i + 1);
    }
  }

  /** A key is new exactly if no earlier entry has it. */
  lemma EntrySound(m: Message, k: Target, v: Target, j: nat)
    requires m.value.MapValue? && j < |m.value.entries|
    ensures
      var es := m.value.entries;
      EntryFailure(m, k, v, j).None? <==>
      FirstFailure(Visits(es[j].0, k)).None? && FirstFailure(Visits(es[j].1, v)).None? &&
      forall i :: 0 <= i < j ==> Represent(es[i].0, k) != Represent(es[j].0, k)
  {
    hide Visits, FirstFailure, Represent, RepresentEntries, IsKey;
    KeysOf(m, k, v, j);
    KeyMeans(m, k, j, Represent(m.value.entries[j].0, k));
  }

  lemma KeyMeans(m: Message, k: Target, n: nat, a: Adapted)
    requires m.value.MapValue? && n <= |m.value.entries|
    ensures IsKey(m, k, n, a) <==> !forall i :: 0 <= i < n ==> Represent(m.value.entries[i].0, k) != a
  {
    hide Represent;
  }

  lemma ContainerChecks(m: Message, t: Target)
    requires t.ArrayOf? || t.SequenceOf? || t.MapOf?
    ensures FirstFailure(Visits(m, t)).None? ==> Local(m, t).None?
    ensures Local(m, t).None? && t.MapOf? ==> (FirstFailure(Visits(m, t)).None? <==> FirstFailure(VisitEntries(m, t.key, t.item, 0)).None?)
    ensures Local(m, t).None? && !t.MapOf? ==> (FirstFailure(Visits(m, t)).None? <==> FirstFailure(VisitItems(ListItems(m), t.item, 0)).None?)
  {
    if Local(m, t).Some? {
      ShapeFails(m, t);
    } else {
      match t
      case ArrayOf(item, _) => ShapeHolds(m, t, VisitItems(m.value.elements, item, 0));
      case SequenceOf(item) => ShapeHolds(m, t, VisitItems(ListItems(m), item, 0));
      case MapOf(k, v) => ShapeHolds(m, t, VisitEntries(m, k, v, 0));
    }
  }

  lemma OptionalChecks(m: Message, t: Target)
    requires t.OptionalOf?
    ensures if m.value.NullValue? then FirstFailure(Visits(m, t)).None? else Visits(m, t) == Visits(m, t.inner)
  {
    if m.value.NullValue? {
      assert Visits(m, t) == [Visit([], m, t, None)];
    }
  }

  /** All checks pass exactly on the messages that fit. */
  lemma {:induction false} ChecksPassIffFits(m: Message, t: Target)
    requires TargetOk(t) && I64Only(m)
    ensures FirstFailure(Visits(m, t)).None? <==> Fits(m, t)
    decreases m, 2, t
  {
    hide Visits, VisitItems, VisitEntries, FirstFailure, I64Only;
    if IsScalar(t) {
      ScalarFits(m, t);
    } else if t.OptionalOf? {
      OptionalChecks(m, t);
      if !m.value.NullValue? {
        ChecksPassIffFits(m, t.inner);
      }
    } else {
      ContainerChecks(m, t);
      if Local(m, t).None? {
        if t.MapOf? {
          EntriesFitIff(m, t.key, t.item);
        } else {
          ItemsFitIff(m, ListItems(m), t.item);
        }
      }
    }
  }

  lemma {:induction false} ItemsFitIff(m: Message, ms: seq<Message>, t: Target)
    requires TargetOk(t) && I64Only(m) && IsList(m) && ms == ListItems(m)
    ensures FirstFailure(VisitItems(ms, t, 0)).None? <==> forall i :: 0 <= i < |ms| ==> Fits(ms[i], t)
    decreases m, 0
  {
    hide Visits, VisitItems, FirstFailure, Fits;
    ItemsSound(ms, t, 0);
    forall i | 0 <= i < |ms|
      ensures FirstFailure(Visits(ms[i], t)).None? <==> Fits(ms[i], t)
    {
      ChecksPassIffFits(ms[i], t);
    }
  }

  lemma {:induction false} EntriesFitIff(m: Message, k: Target, v: Target)
    requires TargetOk(k) && TargetOk(v) && I64Only(m) && m.value.MapValue?
    ensures FirstFailure(VisitEntries(m, k, v, 0)).None? <==> Fits(m, MapOf(k, v))
    decreases m, 0
  {
    hide Visits, VisitEntries, FirstFailure, EntryFailure, Fits, Represent, I64Only;
    var es := m.value.entries;
    EntriesSound(m, k, v, 0);
    forall j | 0 <= j < |es|
      ensures EntryFailure(m, k, v, j).None? <==>
        Fits(es[j].0, k) && Fits(es[j].1, v) && forall i :: 0 <= i < j ==> Represent(es[i].0, k) != Represent(es[j].0, k)
    {
      EntrySound(m, k, v, j);
      EntriesFit(m, j);
      ChecksPassIffFits(es[j].0, k);
      ChecksPassIffFits(es[j].1, v);
    }
    MapFits(m, k, v);
  }

  lemma MapFits(m: Message, k: Target, v: Target)
    requires m.value.MapValue?
    ensures Fits(m, MapOf(k, v)) <==>
      forall j :: 0 <= j < |m.value.entries| ==>
        var es := m.value.entries;
        Fits(es[j].0, k) && Fits(es[j].1, v) && forall i :: 0 <= i < j ==> Represent(es[i].0, k) != Represent(es[j].0, k)
  {
    hide Represent;
  }

  /** The adapter succeeds exactly on the messages that have the shape of the target. */
  lemma AdaptsIffFits(m: Message, t: Target)
    requires TargetOk(t) && I64Only(m)
    ensures Expected(Visits(m, t), Represent(m, t)).Ok? <==> Fits(m, t)
  {
    ChecksPassIffFits(m, t);
  }

  // ----- which error -----

  /** A place that is complained about is refused, with that complaint. */
  lemma ComplaintIsRaised(m: Message, t: Target, e: Error)
    requires TargetOk(t) && I64Only(m) && !t.OptionalOf? && !t.Ignore? && Complaint(m, t, e)
    ensures
      var r := Expected(Visits(m, t), Represent(m, t));
      r.Err? && r.error.kind == e.kind && r.error.path == [] && r.error.actual == e.actual
  {
    LocalRaises(m, t, e);
    ShapeFails(m, t);
  }

  lemma LocalRaises(m: Message, t: Target, e: Error)
    requires TargetOk(t) && I64Only(m) && !t.OptionalOf? && !t.Ignore? && Complaint(m, t, e)
    ensures Local(m, t).Some? && Local(m, t).value.kind == e.kind && Local(m, t).value.actual == e.actual && Local(m, t).value.path == []
  {
    hide Lists, InType, PassesRangeCheck, KindOf;
    KindAndValue(m);
    NullKind(m);
    if t.Int? && m.value.IntegerValue? {
      RangeExact(m.value.number, t.bits, t.signed);
    }
  }

  lemma NullKind(m: Message)
    ensures KindOf(m) == Null <==> m.value.NullValue?
  {
  }

  function Result(m: Message, t: Target): Adapter.Outcome {
    Expected(Visits(m, t), Represent(m, t))
  }

  /** Elements are adapted in order: the error is that of the first one that does not fit. */
  lemma FirstBadItem(m: Message, t: Target) returns (j: nat)
    requires TargetOk(t) && I64Only(m) && IsList(m) && (t.SequenceOf? || (t.ArrayOf? && Local(m, t).None?)) && !Fits(m, t)
    ensures j < |ListItems(m)| && !Fits(ListItems(m)[j], t.item) && forall i :: 0 <= i < j ==> Fits(ListItems(m)[i], t.item)
    ensures
      var part := Result(ListItems(m)[j], t.item);
      part.Err? && Result(m, t) == Err(Prepend([Index(j)], part.error))
  {
    hide Visits, VisitItems, FirstFailure, Fits, Represent;
    var ms := ListItems(m);
    ChecksPassIffFits(m, t);
    ContainerChecks(m, t);
    ItemsResult(m, t);
    j := FailingItem(ms, t.item, 0);
    forall i | 0 <= i < |ms|
      ensures FirstFailure(Visits(ms[i], t.item)).None? <==> Fits(ms[i], t.item)
    {
      ChecksPassIffFits(ms[i], t.item);
    }
    FailureHasError(ms[j], t.item);
  }

  lemma ItemsResult(m: Message, t: Target)
    requires IsList(m) && (t.SequenceOf? || t.ArrayOf?) && Local(m, t).None?
    ensures FirstFailure(Visits(m, t)) == FirstFailure(VisitItems(ListItems(m), t.item, 0))
  {
    match t
    case ArrayOf(item, _) => ShapeHolds(m, t, VisitItems(m.value.elements, item, 0));
    case SequenceOf(item) => ShapeHolds(m, t, VisitItems(ListItems(m), item, 0));
  }

  lemma FailureHasError(m: Message, t: Target)
    ensures FirstFailure(Visits(m, t)).Some? ==> FirstFailure(Visits(m, t)).value.error.Some?
  {
    hide Visits;
  }

  /** Of entry `j`: its key, then whether an earlier entry has the same key, then its value. */
  ghost function EntryError(m: Message, k: Target, v: Target, j: nat): Option<Error>
    requires m.value.MapValue? && j < |m.value.entries|
  {
    var e := m.value.entries[j];
    var key, value := Result(e.0, k), Result(e.1, v);
    if key.Err? then Some(Prepend([Index(j), KeyField], key.error))
    else if exists i :: 0 <= i < j && Represent(m.value.entries[i].0, k) == key.value then Some(Prepend(KeyPath(k, j, key.value), DUPLICATE))
    else if value.Err? then Some(Prepend(ValuePath(k, j, key.value), value.error))
    else None
  }

  /** Entries are adapted in order: the error is that of the first one that has one. */
  lemma FirstBadEntry(m: Message, k: Target, v: Target) returns (j: nat)
    requires TargetOk(k) && TargetOk(v) && I64Only(m) && m.value.MapValue? && !Fits(m, MapOf(k, v))
    ensures j < |m.value.entries| && forall i :: 0 <= i < j ==> EntryError(m, k, v, i).None?
    ensures EntryError(m, k, v, j).Some? && Result(m, MapOf(k, v)) == Err(EntryError(m, k, v, j).value)
  {
    hide Visits, VisitEntries, FirstFailure, Fits, Represent, EntryFailure, EntryError;
    ChecksPassIffFits(m, MapOf(k, v));
    ContainerChecks(m, MapOf(k, v));
    EntriesResult(m, k, v);
    j := FailingEntry(m, k, v, 0);
    forall i | 0 <= i < |m.value.entries|
      ensures EntryError(m, k, v, i) == ErrorOf(EntryFailure(m, k, v, i))
    {
      EntryErrorIs(m, k, v, i);
    }
    EntryUnfold(m, k, v, j);
  }

  function ErrorOf(f: Option<Visit>): Option<Error> {
    if f.Some? && f.value.error.Some? then Some(f.value.error.value.(path := f.value.path)) else None
  }

  lemma EntriesResult(m: Message, k: Target, v: Target)
    requires m.value.MapValue?
    ensures FirstFailure(Visits(m, MapOf(k, v))) == FirstFailure(VisitEntries(m, k, v, 0))
  {
    ShapeHolds(m, MapOf(k, v), VisitEntries(m, k, v, 0));
  }

  lemma EntryErrorIs(m: Message, k: Target, v: Target, j: nat)
    requires m.value.MapValue? && j < |m.value.entries|
    ensures EntryError(m, k, v, j) == ErrorOf(EntryFailure(m, k, v, j))
  {
    hide Visits, FirstFailure, Represent, RepresentEntries, KeyPath, ValuePath;
    var e := m.value.entries[j];
    KeysOf(m, k, v, j);
    assert KeyPath(k, j, Represent(e.0, k)) + [] == KeyPath(k, j, Represent(e.0, k));
    FailureHasError(e.0, k);
    FailureHasError(e.1, v);
  }

  /** The kind an error names is the kind on the wire; a typed null counts as null. */
  lemma KindOfBuilt(t: Tree, i: nat)
    requires TreeReady(t) && i < |t.nodes|
    ensures
      var n := t.nodes[i];
      KindOf(Build(t, i)) == if n.i64 == -1 && IsTypedNullKind(n.kind) then Null else n.kind
  {
    hide BuildRun;
  }
}
