/**
 The type-directed adapter (adapter/adapt.hpp and adapter/detail): turns a message into a value of a
 target type, or into an error with the path to the place that failed.

 The methods are the code's own loops. They are proved against a reference that does not stop early:
 `Visits` lists every check in traversal order, `Represent` says what a message stands for.
 */
module Adapter {
  import opened Bytes
  import opened Kinds
  import opened Builder

  datatype Target =
    | Ignore
    | String
    | Int(bits: nat, signed: bool)
    | Bool
    | Double
    | OptionalOf(inner: Target)
    | ArrayOf(item: Target, size: nat)
    | SequenceOf(item: Target)
    | MapOf(key: Target, item: Target)

  datatype Adapted =
    | Ignored
    | Text(text: bytes)
    | Number(number: int)
    | Truth(flag: bool)
    | Float(text: bytes)
    | Absent
    | Present(inner: Adapted)
    | Elements(items: seq<Adapted>)
    | Dictionary(entries: map<Adapted, Adapted>)

  datatype PathElement = Index(index: nat) | Key(key: bytes) | KeyField | ValueField

  datatype ErrorKind = TypeMismatch | UnexpectedNull | ValueOutOfRange | SizeMismatch | DuplicateKey

  datatype Error = Error(
    kind: ErrorKind, actual: Kind, expected: seq<Kind>, path: seq<PathElement>,
    expectedSize: Option<nat>, gotSize: Option<nat>)

  datatype Outcome = Ok(value: Adapted) | Err(error: Error)

  function Mismatch(actual: Kind, expected: seq<Kind>): Error {
    Error(TypeMismatch, actual, expected, [], None, None)
  }

  function NullError(expected: seq<Kind>): Error {
    Error(UnexpectedNull, Null, expected, [], None, None)
  }

  const OUT_OF_RANGE := Error(ValueOutOfRange, Integer, [Integer], [], None, None)
  const DUPLICATE := Error(DuplicateKey, Map, [Map], [], None, None)

  function KindOf(m: Message): Kind {
    match m.value
    case SimpleStringValue(_) => SimpleString
    case SimpleErrorValue(_) => SimpleError
    case IntegerValue(_) => Integer
    case DoubleValue(_) => DoubleNumber
    case BooleanValue(_) => Boolean
    case BigNumberValue(_) => BigNumber
    case NullValue(_) => Null
    case BulkStringValue(_) => BulkString
    case BulkErrorValue(_) => BulkError
    case VerbatimValue(_, _) => VerbatimString
    case ArrayValue(_) => Array
    case MapValue(_) => Map
    case SetValue(_) => Set
    case PushValue(_) => Push
  }

  // ----- integers -----

  function Pow2(n: nat): (p: nat)
    ensures p > 0
  {
    if n == 0 then 1 else 2 * Pow2(n - 1)
  }

  function MinOf(bits: nat, signed: bool): int {
    if signed && bits > 0 then 0 - Pow2(bits - 1) else 0
  }

  function MaxOf(bits: nat, signed: bool): int {
    if signed && bits > 0 then Pow2(bits - 1) - 1 else Pow2(bits) - 1
  }

  /** The conversion `static_cast` performs: the value modulo the width, in two's complement. */
  function Cast(v: int, bits: nat, signed: bool): int {
    var u := v % Pow2(bits);
    if signed && u > MaxOf(bits, signed) then u - Pow2(bits) else u
  }

  /** The range checks; the widest types are checked for sign only. */
  predicate PassesRangeCheck(v: int, bits: nat, signed: bool) {
    if signed then bits < 64 ==> MinOf(bits, signed) <= v <= MaxOf(bits, signed)
    else 0 <= v && (bits < 64 ==> v <= MaxOf(bits, signed))
  }

  predicate InI64(v: int) {
    MinOf(64, true) <= v <= MaxOf(64, true)
  }

  lemma ModOnce(v: int, p: nat)
    requires p > 0 && 0 - p <= v < p
    ensures v % p == if v < 0 then v + p else v
  {
    if v < 0 {
      assert (v + p) % p == v + p;
      assert (v + 1 * p) % p == v % p;
    }
  }

  lemma CastFits(v: int, bits: nat, signed: bool)
    requires bits > 0 && MinOf(bits, signed) <= v <= MaxOf(bits, signed)
    ensures Cast(v, bits, signed) == v
  {
    assert Pow2(bits) == 2 * Pow2(bits - 1);
    hide Pow2;
    ModOnce(v, Pow2(bits));
  }

  /** No integer that passes the checks is truncated. */
  lemma NoTruncation(v: int, bits: nat, signed: bool)
    requires 0 < bits <= 64 && InI64(v) && PassesRangeCheck(v, bits, signed)
    ensures Cast(v, bits, signed) == v
  {
    assert Pow2(64) == 2 * Pow2(63);
    hide Pow2;
    CastFits(v, bits, signed);
  }

  // ----- the reference: what one place checks, and what a message stands for -----

  const TEXT_KINDS := [SimpleString, BulkString, VerbatimString]

  predicate IsText(m: Message) {
    m.value.SimpleStringValue? || m.value.BulkStringValue? || m.value.VerbatimValue?
  }

  predicate IsList(m: Message) {
    m.value.ArrayValue? || m.value.SetValue? || m.value.PushValue?
  }

  function ListItems(m: Message): seq<Message>
    requires IsList(m)
  {
    match m.value
    case ArrayValue(ms) => ms
    case SetValue(ms) => ms
    case PushValue(ms) => ms
  }

  function ScalarCheck(m: Message, fits: bool, expected: seq<Kind>): Option<Error> {
    if m.value.NullValue? then Some(NullError(expected))
    else if !fits then Some(Mismatch(KindOf(m), expected))
    else None
  }

  /** What is checked about `m` itself, its parts aside. */
  function Local(m: Message, t: Target): Option<Error> {
    match t
    case Ignore => None
    case String => ScalarCheck(m, IsText(m), TEXT_KINDS)
    case Int(bits, signed) =>
      var e := ScalarCheck(m, m.value.IntegerValue?, [Integer]);
      if e.None? && !PassesRangeCheck(m.value.number, bits, signed) then Some(OUT_OF_RANGE) else e
    case Bool => ScalarCheck(m, m.value.BooleanValue?, [Boolean])
    case Double => ScalarCheck(m, m.value.DoubleValue?, [DoubleNumber])
    case OptionalOf(inner) => if m.value.NullValue? then None else Local(m, inner)
    case ArrayOf(_, n) =>
      if !m.value.ArrayValue? then Some(Mismatch(KindOf(m), [Array]))
      else if |m.value.elements| != n then Some(Error(SizeMismatch, Array, [], [], Some(n), Some(|m.value.elements|)))
      else None
    case SequenceOf(_) => if IsList(m) then None else Some(Mismatch(KindOf(m), [Array, Set, Push]))
    case MapOf(_, _) => if m.value.MapValue? then None else Some(Mismatch(KindOf(m), [Map]))
  }

  /** What `m` stands for as a `t`; meaningful where every check passes. */
  function Represent(m: Message, t: Target): Adapted
    decreases m, 1, t
  {
    match t
    case Ignore => Ignored
    case String =>
      (match m.value
       case SimpleStringValue(s) => Text(s)
       case BulkStringValue(s) => Text(s)
       case VerbatimValue(_, s) => Text(s)
       case _ => Ignored)
    case Int(bits, signed) => if m.value.IntegerValue? then Number(Cast(m.value.number, bits, signed)) else Ignored
    case Bool => if m.value.BooleanValue? then Truth(m.value.flag) else Ignored
    case Double => if m.value.DoubleValue? then Float(m.value.text) else Ignored
    case OptionalOf(inner) => if m.value.NullValue? then Absent else Present(Represent(m, inner))
    case ArrayOf(item, _) => if m.value.ArrayValue? then Elements(RepresentItems(m.value.elements, item, |m.value.elements|)) else Ignored
    case SequenceOf(item) => if IsList(m) then Elements(RepresentItems(ListItems(m), item, |ListItems(m)|)) else Ignored
    case MapOf(k, v) => if m.value.MapValue? then Dictionary(RepresentEntries(m, k, v, |m.value.entries|)) else Ignored
  }

  /** The first `n` elements. */
  function RepresentItems(ms: seq<Message>, t: Target, n: nat): (r: seq<Adapted>)
    requires n <= |ms|
    ensures |r| == n && forall i :: 0 <= i < n ==> r[i] == Represent(ms[i], t)
    decreases ms, 0, n
  {
    if n == 0 then [] else RepresentItems(ms, t, n - 1) + [Represent(ms[n - 1], t)]
  }

  /** The first `n` entries. */
  function RepresentEntries(m: Message, k: Target, v: Target, n: nat): map<Adapted, Adapted>
    requires m.value.MapValue? && n <= |m.value.entries|
    decreases m, 0, n
  {
    if n == 0 then map[]
    else
      var e := m.value.entries[n - 1];
      RepresentEntries(m, k, v, n - 1)[Represent(e.0, k) := Represent(e.1, v)]
  }

  // ----- the reference: every check, in traversal order -----

  /** One check: where it is made, on what, and what it reports. */
  datatype Visit = Visit(path: seq<PathElement>, message: Message, target: Target, error: Option<Error>)

  function Under(prefix: seq<PathElement>, vs: seq<Visit>): (r: seq<Visit>)
    ensures |r| == |vs| && forall i :: 0 <= i < |vs| ==> r[i] == vs[i].(path := prefix + vs[i].path)
  {
    seq(|vs|, i requires 0 <= i < |vs| => vs[i].(path := prefix + vs[i].path))
  }

  /** Text keys name the entry; other keys give its position. */
  function KeyPath(k: Target, i: nat, key: Adapted): seq<PathElement> {
    if k == String && key.Text? then [Key(key.text)] else [Index(i), KeyField]
  }

  function ValuePath(k: Target, i: nat, key: Adapted): seq<PathElement> {
    if k == String && key.Text? then [Key(key.text)] else [Index(i), ValueField]
  }

  function Visits(m: Message, t: Target): seq<Visit>
    decreases m, 2, t
  {
    if t.OptionalOf? && !m.value.NullValue? then Visits(m, t.inner)
    else
      [Visit([], m, t, Local(m, t))] +
      if Local(m, t).Some? then []
      else match t
        case ArrayOf(item, _) => VisitItems(m.value.elements, item, 0)
        case SequenceOf(item) => VisitItems(ListItems(m), item, 0)
        case MapOf(k, v) => VisitEntries(m, k, v, 0)
        case _ => []
  }

  function VisitItems(ms: seq<Message>, t: Target, i: nat): seq<Visit>
    requires i <= |ms|
    decreases ms, 0, |ms| - i
  {
    if i == |ms| then [] else Under([Index(i)], Visits(ms[i], t)) + VisitItems(ms, t, i + 1)
  }

  /** Of entry `i`: its key, whether the key is new, its value. */
  function VisitEntry(m: Message, k: Target, v: Target, i: nat): seq<Visit>
    requires m.value.MapValue? && i < |m.value.entries|
    decreases m, 0
  {
    var e := m.value.entries[i];
    var key := Represent(e.0, k);
    Under([Index(i), KeyField], Visits(e.0, k)) +
    [Visit(KeyPath(k, i, key), m, MapOf(k, v), if key in RepresentEntries(m, k, v, i) then Some(DUPLICATE) else None)] +
    Under(ValuePath(k, i, key), Visits(e.1, v))
  }

  function VisitEntries(m: Message, k: Target, v: Target, i: nat): seq<Visit>
    requires m.value.MapValue? && i <= |m.value.entries|
    decreases m, 1, |m.value.entries| - i
  {
    if i == |m.value.entries| then [] else VisitEntry(m, k, v, i) + VisitEntries(m, k, v, i + 1)
  }

  /** The first check that fails. */
  function FirstFailure(vs: seq<Visit>): (r: Option<Visit>)
    ensures r.Some? ==> r.value.error.Some? && exists k :: 0 <= k < |vs| && vs[k] == r.value && forall j :: 0 <= j < k ==> vs[j].error.None?
    ensures r.None? <==> forall i :: 0 <= i < |vs| ==> vs[i].error.None?
  {
    if vs == [] then None
    else if vs[0].error.Some? then Some(vs[0])
    else FirstFailure(vs[1..])
  }

  /** The error of the first failing check, or the represented value. */
  function Expected(vs: seq<Visit>, value: Adapted): Outcome {
    match FirstFailure(vs)
    case Some(v) => Err(v.error.value.(path := v.path))
    case None => Ok(value)
  }

  lemma {:induction false} FirstFailureConcat(a: seq<Visit>, b: seq<Visit>)
    ensures FirstFailure(a + b) == if FirstFailure(a).Some? then FirstFailure(a) else FirstFailure(b)
    decreases |a|
  {
    if a == [] {
      assert a + b == b;
    } else {
      assert (a + b)[0] == a[0] && (a + b)[1..] == a[1..] + b;
      FirstFailureConcat(a[1..], b);
    }
  }

  lemma {:induction false} FirstFailureUnder(prefix: seq<PathElement>, vs: seq<Visit>)
    ensures FirstFailure(Under(prefix, vs)) ==
      match FirstFailure(vs)
      case Some(v) => Some(v.(path := prefix + v.path))
      case None => None
    decreases |vs|
  {
    if vs != [] {
      assert Under(prefix, vs)[1..] == Under(prefix, vs[1..]);
      FirstFailureUnder(prefix, vs[1..]);
    }
  }

  lemma ItemsUnfold(ms: seq<Message>, t: Target, i: nat)
    requires i < |ms|
    ensures FirstFailure(VisitItems(ms, t, i)) ==
      match FirstFailure(Visits(ms[i], t))
      case Some(v) => Some(v.(path := [Index(i)] + v.path))
      case None => FirstFailure(VisitItems(ms, t, i + 1))
  {
    FirstFailureUnder([Index(i)], Visits(ms[i], t));
    assert VisitItems(ms, t, i) == Under([Index(i)], Visits(ms[i], t)) + VisitItems(ms, t, i + 1);
    FirstFailureConcat(Under([Index(i)], Visits(ms[i], t)), VisitItems(ms, t, i + 1));
  }

  lemma ItemsEnd(ms: seq<Message>, t: Target)
    ensures FirstFailure(VisitItems(ms, t, |ms|)).None?
  {
  }

  /** Entry `i` fails at its key, as a duplicate, or at its value, in this order. */
  function EntryFailure(m: Message, k: Target, v: Target, i: nat): Option<Visit>
    requires m.value.MapValue? && i < |m.value.entries|
  {
    var e := m.value.entries[i];
    var key := Represent(e.0, k);
    match FirstFailure(Visits(e.0, k))
    case Some(f) => Some(f.(path := [Index(i), KeyField] + f.path))
    case None =>
      if key in RepresentEntries(m, k, v, i) then Some(Visit(KeyPath(k, i, key), m, MapOf(k, v), Some(DUPLICATE)))
      else match FirstFailure(Visits(e.1, v))
        case Some(f) => Some(f.(path := ValuePath(k, i, key) + f.path))
        case None => None
  }

  lemma EntryUnfold(m: Message, k: Target, v: Target, i: nat)
    requires m.value.MapValue? && i < |m.value.entries|
    ensures FirstFailure(VisitEntries(m, k, v, i)) ==
      if EntryFailure(m, k, v, i).Some? then EntryFailure(m, k, v, i) else FirstFailure(VisitEntries(m, k, v, i + 1))
    ensures EntryFailure(m, k, v, i).Some? ==> EntryFailure(m, k, v, i).value.error.Some?
  {
    hide Visits, Represent, RepresentEntries;
    var e := m.value.entries[i];
    var key := Represent(e.0, k);
    var a := Under([Index(i), KeyField], Visits(e.0, k));
    var b := [Visit(KeyPath(k, i, key), m, MapOf(k, v), if key in RepresentEntries(m, k, v, i) then Some(DUPLICATE) else None)];
    var c := Under(ValuePath(k, i, key), Visits(e.1, v));
    assert VisitEntries(m, k, v, i) == a + b + c + VisitEntries(m, k, v, i + 1);
    hide VisitEntries, VisitEntry;
    FirstFailureUnder([Index(i), KeyField], Visits(e.0, k));
    FirstFailureUnder(ValuePath(k, i, key), Visits(e.1, v));
    assert FirstFailure(b) == if b[0].error.Some? then Some(b[0]) else None;
    hide FirstFailure;
    FirstFailureConcat(a, b);
    FirstFailureConcat(a + b, c);
    FirstFailureConcat(a + b + c, VisitEntries(m, k, v, i + 1));
  }

  lemma EntriesGrow(m: Message, k: Target, v: Target, i: nat)
    requires m.value.MapValue? && i < |m.value.entries|
    ensures RepresentEntries(m, k, v, i + 1) ==
      RepresentEntries(m, k, v, i)[Represent(m.value.entries[i].0, k) := Represent(m.value.entries[i].1, v)]
  {
  }

  lemma EntriesEnds(m: Message, k: Target, v: Target)
    requires m.value.MapValue?
    ensures RepresentEntries(m, k, v, 0) == map[] && FirstFailure(VisitEntries(m, k, v, |m.value.entries|)).None?
  {
  }

  // ----- the adapter itself -----

  function Prepend(prefix: seq<PathElement>, e: Error): Error {
    e.(path := prefix + e.path)
  }

  function IsScalar(t: Target): bool {
    t.Ignore? || t.String? || t.Int? || t.Bool? || t.Double?
  }

  /** `adapt_ignore` and `adapt_scalar`. */
  function AdaptScalar(m: Message, t: Target): (r: Outcome)
    requires IsScalar(t)
    ensures r == Expected(Visits(m, t), Represent(m, t))
  {
    match t
    case Ignore => Ok(Ignored)
    case String =>
      if m.value.NullValue? then Err(NullError([SimpleString, BulkString, VerbatimString]))
      else if m.value.SimpleStringValue? then Ok(Text(m.value.data))
      else if m.value.BulkStringValue? then Ok(Text(m.value.data))
      else if m.value.VerbatimValue? then Ok(Text(m.value.data))
      else Err(Mismatch(KindOf(m), [SimpleString, BulkString, VerbatimString]))
    case Int(bits, signed) =>
      if m.value.NullValue? then Err(NullError([Integer]))
      else if !m.value.IntegerValue? then Err(Mismatch(KindOf(m), [Integer]))
      else
        var v := m.value.number;
        if !signed && v < 0 then Err(OUT_OF_RANGE)
        else if !signed && bits < 64 && v > MaxOf(bits, signed) then Err(OUT_OF_RANGE)
        else if signed && bits < 64 && (v < MinOf(bits, signed) || v > MaxOf(bits, signed)) then Err(OUT_OF_RANGE)
        else Ok(Number(Cast(v, bits, signed)))
    case Bool =>
      if m.value.NullValue? then Err(NullError([Boolean]))
      else if !m.value.BooleanValue? then Err(Mismatch(KindOf(m), [Boolean]))
      else Ok(Truth(m.value.flag))
    case Double =>
      if m.value.NullValue? then Err(NullError([DoubleNumber]))
      else if !m.value.DoubleValue? then Err(Mismatch(KindOf(m), [DoubleNumber]))
      else Ok(Float(m.value.text))
  }

  method Adapt(m: Message, t: Target) returns (r: Outcome)
    ensures r == Expected(Visits(m, t), Represent(m, t))
    decreases m, 2, t
  {
    match t
    case OptionalOf(inner) =>
      if m.value.NullValue? {
        return Ok(Absent);
      }
      r := Adapt(m, inner);
      if r.Ok? {
        r := Ok(Present(r.value));
      }
    case ArrayOf(item, n) => r := AdaptArray(m, item, n);
    case SequenceOf(item) => r := AdaptSequence(m, item);
    case MapOf(k, v) => r := AdaptMap(m, k, v);
    case _ => r := AdaptScalar(m, t);
  }

  lemma ShapeFails(m: Message, t: Target)
    requires !t.OptionalOf? && Local(m, t).Some?
    ensures Expected(Visits(m, t), Represent(m, t)) == Err(Local(m, t).value)
  {
    assert Visits(m, t) == [Visit([], m, t, Local(m, t))];
    assert Local(m, t).value.path == [];
  }

  lemma ShapeHolds(m: Message, t: Target, parts: seq<Visit>)
    requires !t.OptionalOf? && Local(m, t).None? && Visits(m, t) == [Visit([], m, t, None)] + parts
    ensures FirstFailure(Visits(m, t)) == FirstFailure(parts)
  {
    FirstFailureConcat([Visit([], m, t, None)], parts);
  }

  method AdaptArray(m: Message, item: Target, n: nat) returns (r: Outcome)
    ensures r == Expected(Visits(m, ArrayOf(item, n)), Represent(m, ArrayOf(item, n)))
    decreases m, 1
  {
    var t := ArrayOf(item, n);
    if !m.value.ArrayValue? {
      ShapeFails(m, t);
      return Err(Mismatch(KindOf(m), [Array]));
    }
    var ms := m.value.elements;
    if |ms| != n {
      ShapeFails(m, t);
      return Err(Error(SizeMismatch, KindOf(m), [], [], Some(n), Some(|ms|)));
    }
    ShapeHolds(m, t, VisitItems(ms, item, 0));
    r := AdaptItems(ms, item);
  }

  method AdaptSequence(m: Message, item: Target) returns (r: Outcome)
    ensures r == Expected(Visits(m, SequenceOf(item)), Represent(m, SequenceOf(item)))
    decreases m, 1
  {
    var t := SequenceOf(item);
    if !IsList(m) {
      ShapeFails(m, t);
      return Err(Mismatch(KindOf(m), [Array, Set, Push]));
    }
    ShapeHolds(m, t, VisitItems(ListItems(m), item, 0));
    r := AdaptItems(ListItems(m), item);
  }

  /** The loop over the elements, shared by arrays and sequences. */
  method AdaptItems(ms: seq<Message>, t: Target) returns (r: Outcome)
    ensures r == Expected(VisitItems(ms, t, 0), Elements(RepresentItems(ms, t, |ms|)))
    decreases ms, 0
  {
    assert FirstFailure(VisitItems(ms, t, |ms|)).None?;
    hide VisitItems, Visits, Represent, FirstFailure;
    var out: seq<Adapted> := [];
    for i := 0 to |ms|
      invariant out == RepresentItems(ms, t, i)
      invariant FirstFailure(VisitItems(ms, t, 0)) == FirstFailure(VisitItems(ms, t, i))
    {
      ItemsUnfold(ms, t, i);
      var e := Adapt(ms[i], t);
      if e.Err? {
        return Err(Prepend([Index(i)], e.error));
      }
      out := out + [e.value];
    }
    return Ok(Elements(out));
  }

  method AdaptMap(m: Message, k: Target, v: Target) returns (r: Outcome)
    ensures r == Expected(Visits(m, MapOf(k, v)), Represent(m, MapOf(k, v)))
    decreases m, 1
  {
    var t := MapOf(k, v);
    if !m.value.MapValue? {
      ShapeFails(m, t);
      return Err(Mismatch(KindOf(m), [Map]));
    }
    ShapeHolds(m, t, VisitEntries(m, k, v, 0));
    r := AdaptEntries(m, k, v);
  }

  /** The loop over the entries. */
  method AdaptEntries(m: Message, k: Target, v: Target) returns (r: Outcome)
    requires m.value.MapValue?
    ensures r == Expected(VisitEntries(m, k, v, 0), Dictionary(RepresentEntries(m, k, v, |m.value.entries|)))
    decreases m, 0, 1
  {
    hide VisitEntries, RepresentEntries, FirstFailure, EntryFailure, Represent, Visits;
    EntriesEnds(m, k, v);
    var out: map<Adapted, Adapted> := map[];
    for i := 0 to |m.value.entries|
      invariant out == RepresentEntries(m, k, v, i)
      invariant FirstFailure(VisitEntries(m, k, v, 0)) == FirstFailure(VisitEntries(m, k, v, i))
    {
      EntryUnfold(m, k, v, i);
      EntriesGrow(m, k, v, i);
      var e := AdaptEntry(m, k, v, i, out);
      if e.BadEntry? {
        return Err(e.error);
      }
      out := out[e.key := e.value];
    }
    return Ok(Dictionary(out));
  }

  datatype EntryOutcome = Entry(key: Adapted, value: Adapted) | BadEntry(error: Error)

  /** One turn of that loop. */
  method AdaptEntry(m: Message, k: Target, v: Target, i: nat, seen: map<Adapted, Adapted>) returns (r: EntryOutcome)
    requires m.value.MapValue? && i < |m.value.entries| && seen == RepresentEntries(m, k, v, i)
    ensures
      match EntryFailure(m, k, v, i)
      case Some(f) => f.error.Some? && r == BadEntry(f.error.value.(path := f.path))
      case None => r == Entry(Represent(m.value.entries[i].0, k), Represent(m.value.entries[i].1, v))
    decreases m, 0, 0
  {
    hide Visits, Represent, RepresentEntries, KeyPath, ValuePath;
    var e := m.value.entries[i];
    var key := Adapt(e.0, k);
    if key.Err? {
      return BadEntry(Prepend([Index(i), KeyField], key.error));
    }
    if key.value in seen {
      return BadEntry(Prepend(KeyPath(k, i, key.value), DUPLICATE));
    }
    var value := Adapt(e.1, v);
    if value.Err? {
      return BadEntry(Prepend(ValuePath(k, i, key.value), value.error));
    }
    return Entry(key.value, value.value);
  }
}
