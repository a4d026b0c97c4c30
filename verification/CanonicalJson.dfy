// The canonical JSON text behind evaluation fingerprints. Strings are sequences
// of UTF-16 code units, as in JavaScript.
module CanonicalJson {

  type Unit = n: nat | n < 0x10000
  type Text = seq<Unit>

  const QUOTE: Unit := 0x22
  const BACKSLASH: Unit := 0x5C
  const COMMA: Unit := 0x2C
  const COLON: Unit := 0x3A
  const OPEN_BRACKET: Unit := 0x5B
  const CLOSE_BRACKET: Unit := 0x5D
  const OPEN_BRACE: Unit := 0x7B
  const CLOSE_BRACE: Unit := 0x7D

  predicate IsDigit(u: Unit) { 0x30 <= u <= 0x39 }

  // Digits, plus, minus, point and the exponent mark.
  predicate IsNumberUnit(u: Unit) {
    IsDigit(u) || u in {0x2B, 0x2D, 0x2E, 0x65}
  }

  // A finite number is represented by the text JSON.stringify gives it.
  type NumberText = t: Text | t != [] && (IsDigit(t[0]) || t[0] == 0x2D) && forall i :: 0 <= i < |t| ==> IsNumberUnit(t[i])
    witness [0x30]

  datatype Json =
    | Undefined
    | Null
    | Bool(value: bool)
    | Number(text: NumberText)
    | String(chars: Text)
    | Array(items: seq<Json>)
    | Object(members: seq<Member>)

  datatype Member = Member(key: Text, value: Json)

  // ------------------------------------------------------------------------
  // String literals, section 7 of RFC 8259

  predicate IsHigh(u: Unit) { 0xD800 <= u <= 0xDBFF }
  predicate IsLow(u: Unit) { 0xDC00 <= u <= 0xDFFF }

  function HexDigit(n: nat): Unit
    requires n < 16
  {
    if n < 10 then 0x30 + n else 0x61 + (n - 10)
  }

  // \uxxxx in lower case
  function UnicodeEscape(u: Unit): Text {
    [BACKSLASH, 0x75, HexDigit(u / 4096), HexDigit(u / 256 % 16), HexDigit(u / 16 % 16), HexDigit(u % 16)]
  }

  function EscapeUnit(u: Unit): Text {
    if u == 0x08 then [BACKSLASH, 0x62]
    else if u == 0x09 then [BACKSLASH, 0x74]
    else if u == 0x0A then [BACKSLASH, 0x6E]
    else if u == 0x0C then [BACKSLASH, 0x66]
    else if u == 0x0D then [BACKSLASH, 0x72]
    else if u == QUOTE then [BACKSLASH, QUOTE]
    else if u == BACKSLASH then [BACKSLASH, BACKSLASH]
    else if u < 0x20 || IsHigh(u) || IsLow(u) then UnicodeEscape(u)
    else [u]
  }

  // A surrogate pair is kept; a lone surrogate is escaped.
  function Escape(s: Text): Text {
    if s == [] then []
    else if |s| >= 2 && IsHigh(s[0]) && IsLow(s[1]) then [s[0], s[1]] + Escape(s[2..])
    else EscapeUnit(s[0]) + Escape(s[1..])
  }

  function Quote(s: Text): Text {
    [QUOTE] + Escape(s) + [QUOTE]
  }

  // ------------------------------------------------------------------------
  // canonicalize

  // left.localeCompare(right) < 0, taken to be a strict total order.
  type KeyOrder = (Text, Text) -> bool

  ghost predicate StrictTotal(less: KeyOrder) {
    && (forall a :: !less(a, a))
    && (forall a, b, c :: less(a, b) && less(b, c) ==> less(a, c))
    && (forall a, b :: a != b ==> less(a, b) || less(b, a))
  }

  // .filter(([, entry]) => entry !== undefined)
  function Defined(members: seq<Member>): (r: seq<Member>)
    ensures forall m :: m in r <==> m in members && m.value != Undefined
  {
    if members == [] then []
    else
      var rest := Defined(members[1..]);
      assert forall m :: m in members <==> m == members[0] || m in members[1..];
      if members[0].value == Undefined then rest else [members[0]] + rest
  }

  function Insert(less: KeyOrder, m: Member, sorted: seq<Member>): (r: seq<Member>)
    ensures forall x :: x in r <==> x == m || x in sorted
  {
    if sorted == [] then [m]
    else if less(sorted[0].key, m.key) then
      assert forall x :: x in sorted <==> x == sorted[0] || x in sorted[1..];
      [sorted[0]] + Insert(less, m, sorted[1..])
    else [m] + sorted
  }

  // .sort(([left], [right]) => left.localeCompare(right))
  function Sort(less: KeyOrder, members: seq<Member>): (r: seq<Member>)
    ensures forall x :: x in r <==> x in members
  {
    if members == [] then []
    else
      assert forall x :: x in members <==> x == members[0] || x in members[1..];
      Insert(less, members[0], Sort(less, members[1..]))
  }

  const NULL_TEXT: Text := [0x6E, 0x75, 0x6C, 0x6C]
  const TRUE_TEXT: Text := [0x74, 0x72, 0x75, 0x65]
  const FALSE_TEXT: Text := [0x66, 0x61, 0x6C, 0x73, 0x65]

  // An undefined value prints nothing: Array.prototype.join reads it as the empty string.
  function Canonicalize(less: KeyOrder, v: Json): Text
    decreases v, 1
  {
    match v
    case Undefined => []
    case Null => NULL_TEXT
    case Bool(b) => if b then TRUE_TEXT else FALSE_TEXT
    case Number(text) => text
    case String(chars) => Quote(chars)
    case Array(items) => [OPEN_BRACKET] + CanonicalItems(less, v, items) + [CLOSE_BRACKET]
    case Object(members) => [OPEN_BRACE] + CanonicalMembers(less, v, Sort(less, Defined(members))) + [CLOSE_BRACE]
  }

  function CanonicalItems(less: KeyOrder, context: Json, items: seq<Json>): Text
    requires forall i :: 0 <= i < |items| ==> items[i] < context
    decreases context, 0, |items|
  {
    if items == [] then []
    else if |items| == 1 then Canonicalize(less, items[0])
    else Canonicalize(less, items[0]) + [COMMA] + CanonicalItems(less, context, items[1..])
  }

  function CanonicalMember(less: KeyOrder, context: Json, m: Member): Text
    requires m.value < context
    decreases context, 0, 0
  {
    Quote(m.key) + [COLON] + Canonicalize(less, m.value)
  }

  function CanonicalMembers(less: KeyOrder, context: Json, members: seq<Member>): Text
    requires forall m :: m in members ==> m.value < context
    decreases context, 0, |members|
  {
    if members == [] then []
    else if |members| == 1 then CanonicalMember(less, context, members[0])
    else CanonicalMember(less, context, members[0]) + [COMMA] + CanonicalMembers(less, context, members[1..])
  }

  // ------------------------------------------------------------------------
  // JSON trees, and equality up to the order of object members

  ghost predicate DistinctKeys(members: seq<Member>) {
    forall i, j :: 0 <= i < j < |members| ==> members[i].key != members[j].key
  }

  // A JSON tree: undefined occurs only as the value of an object member, which
  // then counts as absent, and object keys are distinct.
  ghost predicate Tree(v: Json)
    decreases v
  {
    match v
    case Undefined => false
    case Array(items) => forall i :: i in items ==> Tree(i)
    case Object(members) => DistinctKeys(members) && forall m :: m in members && m.value != Undefined ==> Tree(m.value)
    case _ => true
  }

  // Values whose object keys are distinct, with undefined anywhere.
  ghost predicate Keyed(v: Json)
    decreases v
  {
    match v
    case Array(items) => forall i :: i in items ==> Keyed(i)
    case Object(members) => DistinctKeys(members) && forall m :: m in members && m.value != Undefined ==> Keyed(m.value)
    case _ => true
  }

  // Of these, the ones that hold no array of a lone undefined.
  ghost predicate Unambiguous(v: Json)
    decreases v
  {
    match v
    case Array(items) => items != [Undefined] && forall i :: i in items ==> Unambiguous(i)
    case Object(members) => DistinctKeys(members) && forall m :: m in members && m.value != Undefined ==> Unambiguous(m.value)
    case _ => true
  }

  ghost predicate Has(members: seq<Member>, key: Text) {
    exists m :: m in members && m.key == key && m.value != Undefined
  }

  ghost function Get(members: seq<Member>, key: Text): Json
    requires Has(members, key)
    ensures exists m :: m in members && m.key == key && m.value == Get(members, key) != Undefined
  {
    var m :| m in members && m.key == key && m.value != Undefined;
    m.value
  }

  // Equal up to object member order.
  ghost predicate Same(v: Json, w: Json)
    decreases v
  {
    match v
    case Array(items) =>
      w.Array? && |items| == |w.items| && forall i :: 0 <= i < |items| ==> Same(items[i], w.items[i])
    case Object(members) =>
      && w.Object?
      && (forall key :: Has(members, key) <==> Has(w.members, key))
      && (forall key :: Has(members, key) && Has(w.members, key) ==> Same(Get(members, key), Get(w.members, key)))
    case _ => v == w
  }
}
