/**
 * The canonical text of a JSON body that both ends of the handoff sign.
 *
 * Text is a sequence of UTF-16 code units.  An object is the list of its
 * properties in insertion order; a number is the token it is printed as.
 */
module CanonicalJson {
  type Unit = n: nat | n < 0x1_0000
  type Text = seq<Unit>

  const QUOTE: Unit := 0x22
  const COMMA: Unit := 0x2C
  const COLON: Unit := 0x3A
  const BACKSLASH: Unit := 0x5C
  const OPEN_LIST: Unit := 0x5B
  const CLOSE_LIST: Unit := 0x5D
  const OPEN_OBJECT: Unit := 0x7B
  const CLOSE_OBJECT: Unit := 0x7D

  const NULL: Text := [0x6E, 0x75, 0x6C, 0x6C]
  const TRUE: Text := [0x74, 0x72, 0x75, 0x65]
  const FALSE: Text := [0x66, 0x61, 0x6C, 0x73, 0x65]

  datatype Entry<T> = Entry(key: Text, value: T)
  datatype Json = Null | Bool(value: bool) | Number(token: Text) | Str(text: Text) | List(items: seq<Json>) | Object(fields: seq<Entry<Json>>)

  // ------------------------------------------------------------ strings

  predicate High(u: Unit) { 0xD800 <= u <= 0xDBFF }
  predicate Low(u: Unit) { 0xDC00 <= u <= 0xDFFF }

  function Hex(n: nat): Unit
    requires n < 16
  {
    if n < 10 then 0x30 + n else 0x61 + (n - 10)
  }

  function EscapeUnicode(u: Unit): Text {
    [BACKSLASH, 0x75, Hex(u / 0x1000), Hex(u / 0x100 % 16), Hex(u / 0x10 % 16), Hex(u % 16)]
  }

  /** Quote, backslash, control units and lone surrogates; everything else stands for itself. */
  function EscapeUnit(u: Unit): Text {
    if u == QUOTE then [BACKSLASH, QUOTE]
    else if u == BACKSLASH then [BACKSLASH, BACKSLASH]
    else if u == 0x08 then [BACKSLASH, 0x62]
    else if u == 0x09 then [BACKSLASH, 0x74]
    else if u == 0x0A then [BACKSLASH, 0x6E]
    else if u == 0x0C then [BACKSLASH, 0x66]
    else if u == 0x0D then [BACKSLASH, 0x72]
    else if u < 0x20 || High(u) || Low(u) then EscapeUnicode(u)
    else [u]
  }

  predicate StartsPair(s: Text) {
    |s| >= 2 && High(s[0]) && Low(s[1])
  }

  function Escape(s: Text): Text {
    if s == [] then []
    else if StartsPair(s) then [s[0], s[1]] + Escape(s[2..])
    else EscapeUnit(s[0]) + Escape(s[1..])
  }

  function Quoted(s: Text): Text {
    [QUOTE] + Escape(s) + [QUOTE]
  }

  // ------------------------------------------------------------- sorting

  predicate Less(a: Text, b: Text) {
    b != [] && (a == [] || a[0] < b[0] || (a[0] == b[0] && Less(a[1..], b[1..])))
  }

  function Insert<T>(e: Entry<T>, sorted: seq<Entry<T>>): seq<Entry<T>> {
    if sorted == [] || Less(e.key, sorted[0].key) then [e] + sorted else [sorted[0]] + Insert(e, sorted[1..])
  }

  function Sort<T>(es: seq<Entry<T>>): seq<Entry<T>> {
    if es == [] then [] else Insert(es[0], Sort(es[1..]))
  }

  // ------------------------------------------------------ the canonical text

  function Join(parts: seq<Text>): Text {
    if parts == [] then [] else if |parts| == 1 then parts[0] else parts[0] + [COMMA] + Join(parts[1..])
  }

  function Canonicals(items: seq<Json>): seq<Text> {
    if items == [] then [] else [CanonicalBody(items[0])] + Canonicals(items[1..])
  }

  function CanonicalFields(fields: seq<Entry<Json>>): seq<Entry<Text>> {
    if fields == [] then [] else [Entry(fields[0].key, CanonicalBody(fields[0].value))] + CanonicalFields(fields[1..])
  }

  function Members(es: seq<Entry<Text>>): seq<Text> {
    if es == [] then [] else [Quoted(es[0].key) + [COLON] + es[0].value] + Members(es[1..])
  }

  function Scalar(v: Json): Text
    requires !v.List? && !v.Object?
  {
    match v
    case Null => NULL
    case Bool(b) => if b then TRUE else FALSE
    case Number(token) => token
    case Str(s) => Quoted(s)
  }

  function CanonicalBody(v: Json): Text {
    match v
    case List(items) => [OPEN_LIST] + Join(Canonicals(items)) + [CLOSE_LIST]
    case Object(fields) => [OPEN_OBJECT] + Join(Members(Sort(CanonicalFields(fields)))) + [CLOSE_OBJECT]
    case _ => Scalar(v)
  }

  // --------------------------------------------------------------- values

  /** Digits, signs, point and exponent. */
  predicate NumberUnit(u: Unit) {
    0x30 <= u <= 0x39 || u == 0x2B || u == 0x2D || u == 0x2E || u == 0x65
  }

  ghost predicate WellFormed(v: Json) {
    match v
    case Number(token) => token != [] && forall u | u in token :: NumberUnit(u)
    case List(items) => forall i | 0 <= i < |items| :: WellFormed(items[i])
    case Object(fields) =>
      && (forall i | 0 <= i < |fields| :: WellFormed(fields[i].value))
      && DistinctKeys(fields)
    case _ => true
  }

  ghost predicate DistinctKeys<T>(es: seq<Entry<T>>) {
    forall i, j | 0 <= i < j < |es| :: es[i].key != es[j].key
  }

  /** Equal but for the order of object properties, at every depth. */
  ghost predicate Same(v: Json, w: Json)
    decreases v
  {
    match v
    case List(items) =>
      w.List? && |items| == |w.items| && forall i | 0 <= i < |items| :: Same(items[i], w.items[i])
    case Object(fields) =>
      && w.Object?
      && (forall i | 0 <= i < |fields| :: HasTwin(fields[i], w.fields))
      && (forall j | 0 <= j < |w.fields| :: IsTwin(fields, w.fields[j]))
    case _ => v == w
  }

  ghost predicate HasTwin(f: Entry<Json>, gs: seq<Entry<Json>>)
    decreases f
  {
    exists j :: 0 <= j < |gs| && f.key == gs[j].key && Same(f.value, gs[j].value)
  }

  ghost predicate IsTwin(fs: seq<Entry<Json>>, g: Entry<Json>)
    decreases fs
  {
    exists i :: 0 <= i < |fs| && fs[i].key == g.key && Same(fs[i].value, g.value)
  }

  // --------------------------------------------------------------- the tuple

  function SignedText(tag: Text, verb: Text, path: Text, timestamp: Text, nonce: Text, bodyDigest: Text): Text {
    CanonicalBody(List([Str(tag), Str(verb), Str(path), Str(timestamp), Str(nonce), Str(bodyDigest)]))
  }
}
