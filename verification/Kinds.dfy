/** RESP3 kinds and their prefix bytes (resp3/kind.hpp), and the protocol errors the parser can report. */
module Kinds {
  import opened Bytes

  datatype Kind =
    | SimpleString | SimpleError | Integer | DoubleNumber | Boolean | BigNumber | Null
    | BulkString | BulkError | VerbatimString
    | Array | Map | Set | Attribute | Push

  datatype ProtocolError =
    | TreeNotConsumed | InvalidTypeByte | InvalidNull | InvalidBoolean | InvalidBulkTrailer
    | InvalidDouble | InvalidInteger | InvalidLength | InvalidMapPairs | InvalidState
    | ParserFailed | InvalidVerbatim

  function KindToPrefix(k: Kind): byte {
    match k
    case SimpleString => 43
    case SimpleError => 45
    case Integer => 58
    case DoubleNumber => 44
    case Boolean => 35
    case BigNumber => 40
    case Null => 95
    case BulkString => 36
    case BulkError => 33
    case VerbatimString => 61
    case Array => 42
    case Map => 37
    case Set => 126
    case Attribute => 124
    case Push => 62
  }

  function PrefixToKind(b: byte): (r: Option<Kind>)
    ensures r.Some? ==> KindToPrefix(r.value) == b
  {
    if b == 43 then Some(SimpleString)
    else if b == 45 then Some(SimpleError)
    else if b == 58 then Some(Integer)
    else if b == 44 then Some(DoubleNumber)
    else if b == 35 then Some(Boolean)
    else if b == 40 then Some(BigNumber)
    else if b == 95 then Some(Null)
    else if b == 36 then Some(BulkString)
    else if b == 33 then Some(BulkError)
    else if b == 61 then Some(VerbatimString)
    else if b == 42 then Some(Array)
    else if b == 37 then Some(Map)
    else if b == 126 then Some(Set)
    else if b == 124 then Some(Attribute)
    else if b == 62 then Some(Push)
    else None
  }

  /** The type bytes of the protocol, and that there are no others. */
  lemma TypeBytes(b: byte)
    ensures PrefixToKind(b) ==
      match b as char
      case '+' => Some(SimpleString)
      case '-' => Some(SimpleError)
      case ':' => Some(Integer)
      case ',' => Some(DoubleNumber)
      case '#' => Some(Boolean)
      case '(' => Some(BigNumber)
      case '_' => Some(Null)
      case '$' => Some(BulkString)
      case '!' => Some(BulkError)
      case '=' => Some(VerbatimString)
      case '*' => Some(Array)
      case '%' => Some(Map)
      case '~' => Some(Set)
      case '|' => Some(Attribute)
      case '>' => Some(Push)
      case _ => None
    ensures forall k :: PrefixToKind(b) == Some(k) <==> KindToPrefix(k) == b
  {
  }

  predicate IsLineKind(k: Kind) {
    k == SimpleString || k == SimpleError || k == BigNumber
  }

  predicate IsBulkKind(k: Kind) {
    k == BulkString || k == BulkError || k == VerbatimString
  }

  /** Element containers; `Map` counts pairs and is kept apart. */
  predicate IsListKind(k: Kind) {
    k == Array || k == Set || k == Push
  }

  predicate IsContainerKind(k: Kind) {
    IsListKind(k) || k == Map
  }

  /** Kinds whose declared length -1 spells a null that remembers its kind. */
  predicate IsTypedNullKind(k: Kind) {
    IsBulkKind(k) || IsContainerKind(k)
  }

  predicate IsVerbatimPayload(payload: bytes) {
    |payload| >= 4 && payload[3] == COLON
  }
}
