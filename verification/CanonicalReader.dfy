/**
 * The canonical text read back by the rules of JSON itself (section 7 of RFC 8259): strings mean what they were, every
 * unit is printed in its shortest form, and the members of an object stand in ascending order of their keys.
 */
module CanonicalReader {
  import opened CanonicalJson
  import opened CanonicalJsonProofs

  datatype Read = Read(text: Text) | Malformed

  /** The value of a hexadecimal digit, small letters only. */
  function DigitOf(u: Unit): int {
    if 48 <= u <= 57 then u - 48 else if 97 <= u <= 102 then u - 87 else -1
  }

  /** The unit a two-character escape stands for: quote, backslash, solidus, b, f, n, r and t. */
  function Named(u: Unit): int {
    if u == 34 || u == 92 || u == 47 then u
    else if u == 98 then 8 else if u == 102 then 12 else if u == 110 then 10 else if u == 114 then 13 else if u == 116 then 9 else -1
  }

  function Then(u: Unit, rest: Read): Read {
    if rest.Malformed? then Malformed else Read([u] + rest.text)
  }

  /** What stands between two quotes, unit by unit and escape by escape. */
  function Unescape(s: Text): Read
    decreases |s|
  {
    if s == [] then Read([])
    else if s[0] != 92 then if s[0] == 34 || s[0] < 32 then Malformed else Then(s[0], Unescape(s[1..]))
    else if |s| < 2 then Malformed
    else if s[1] == 117 then
      if |s| < 6 || DigitOf(s[2]) < 0 || DigitOf(s[3]) < 0 || DigitOf(s[4]) < 0 || DigitOf(s[5]) < 0 then Malformed
      else Then(4096 * DigitOf(s[2]) + 256 * DigitOf(s[3]) + 16 * DigitOf(s[4]) + DigitOf(s[5]), Unescape(s[6..]))
    else if Named(s[1]) < 0 then Malformed
    else Then(Named(s[1]), Unescape(s[2..]))
  }

  lemma HexReads(n: nat)
    requires n < 16
    ensures DigitOf(Hex(n)) == n
  {
  }

  lemma PlainReads(u: Unit, rest: Text)
    requires u != 92 && u != 34 && u >= 32
    ensures Unescape([u] + rest) == Then(u, Unescape(rest))
  {
    assert ([u] + rest)[1..] == rest;
  }

  lemma UnitReads(u: Unit, rest: Text)
    ensures Unescape(EscapeUnit(u) + rest) == Then(u, Unescape(rest))
  {
    if |EscapeUnit(u)| == 6 {
      UnicodeReads(u, rest);
    } else if |EscapeUnit(u)| == 2 {
      NamedReads(u, rest);
    } else {
      PlainReads(u, rest);
    }
  }

  lemma UnicodeReads(u: Unit, rest: Text)
    ensures Unescape(EscapeUnicode(u) + rest) == Then(u, Unescape(rest))
  {
    var e := EscapeUnicode(u);
    HexReads(u / 0x1000);
    HexReads(u / 0x100 % 16);
    HexReads(u / 0x10 % 16);
    HexReads(u % 16);
    Digits(u);
    assert (e + rest)[6..] == rest;
  }

  lemma NamedReads(u: Unit, rest: Text)
    requires |EscapeUnit(u)| == 2
    ensures Unescape(EscapeUnit(u) + rest) == Then(u, Unescape(rest))
  {
    assert (EscapeUnit(u) + rest)[2..] == rest;
  }

  /** Any JSON reader gets back the very text, whatever units it is made of. */
  lemma {:induction false} ReadsBack(s: Text)
    ensures Unescape(Escape(s)) == Read(s)
    decreases |s|
  {
    if s != [] {
      if StartsPair(s) {
        ReadsBack(s[2..]);
        PlainReads(s[1], Escape(s[2..]));
        PlainReads(s[0], [s[1]] + Escape(s[2..]));
        assert [s[0], s[1]] + Escape(s[2..]) == [s[0]] + ([s[1]] + Escape(s[2..]));
        assert [s[0]] + ([s[1]] + s[2..]) == s;
      } else {
        ReadsBack(s[1..]);
        UnitReads(s[0], Escape(s[1..]));
        assert [s[0]] + s[1..] == s;
      }
    }
  }

  /** A unit stands for itself unless JSON or well-formed Unicode forbids it; then it takes its short name if it has one. */
  lemma ShortestForm(u: Unit)
    ensures EscapeUnit(u) == [u] <==> u >= 32 && u != 34 && u != 92 && !(0xD800 <= u <= 0xDFFF)
    ensures |EscapeUnit(u)| == 2 <==> u == 34 || u == 92 || 8 <= u <= 10 || 12 <= u <= 13
    ensures |EscapeUnit(u)| == 1 || |EscapeUnit(u)| == 2 || |EscapeUnit(u)| == 6
  {
  }

  // --------------------------------------------------------------- the order

  /** At the first place where they differ the one has the smaller unit, or has ended. */
  ghost predicate Below(a: Text, b: Text) {
    exists n: nat :: n <= |a| && n < |b| && a[..n] == b[..n] && (n == |a| || a[n] < b[n])
  }

  lemma {:induction false} LessIsBelow(a: Text, b: Text)
    ensures Less(a, b) ==> Below(a, b)
    decreases |a|
  {
    if Less(a, b) {
      if a == [] || a[0] < b[0] {
        assert a[..0] == b[..0];
      } else {
        LessIsBelow(a[1..], b[1..]);
        var n: nat :| n <= |a[1..]| && n < |b[1..]| && a[1..][..n] == b[1..][..n] && (n == |a[1..]| || a[1..][n] < b[1..][n]);
        assert a[..n + 1] == [a[0]] + a[1..][..n] && b[..n + 1] == [b[0]] + b[1..][..n];
      }
    }
  }

  /** The members an object is printed from: its own, each once, keys ascending. */
  lemma MembersAscend(fields: seq<Entry<Json>>, i: nat, j: nat)
    requires DistinctKeys(fields) && i < j < |Sort(CanonicalFields(fields))|
    ensures Below(Sort(CanonicalFields(fields))[i].key, Sort(CanonicalFields(fields))[j].key)
  {
    FieldsKeepKeys(fields);
    SortSorts(CanonicalFields(fields));
    LessIsBelow(Sort(CanonicalFields(fields))[i].key, Sort(CanonicalFields(fields))[j].key);
  }

  lemma {:induction false} FieldsKeepKeys(fields: seq<Entry<Json>>)
    ensures |CanonicalFields(fields)| == |fields|
    ensures forall i | 0 <= i < |fields| ::
              CanonicalFields(fields)[i].key == fields[i].key && CanonicalFields(fields)[i].value == CanonicalBody(fields[i].value)
    ensures DistinctKeys(fields) ==> DistinctKeys(CanonicalFields(fields))
  {
    if fields != [] { FieldsKeepKeys(fields[1..]); }
  }

  /** Punctuation, as JSON has it: brackets, braces, commas and colons; null, true and false by name. */
  lemma Punctuation(items: seq<Json>, fields: seq<Entry<Json>>, a: Json, b: Json, s: Text)
    ensures CanonicalBody(List(items))[0] == 91 && CanonicalBody(List(items))[|CanonicalBody(List(items))| - 1] == 93
    ensures CanonicalBody(Object(fields))[0] == 123 && CanonicalBody(Object(fields))[|CanonicalBody(Object(fields))| - 1] == 125
    ensures CanonicalBody(List([a, b])) == [91] + CanonicalBody(a) + [44] + CanonicalBody(b) + [93]
    ensures CanonicalBody(Object([Entry(s, a)])) == [123, 34] + Escape(s) + [34, 58] + CanonicalBody(a) + [125]
    ensures CanonicalBody(Null) == [110, 117, 108, 108] && CanonicalBody(Bool(true)) == [116, 114, 117, 101]
    ensures CanonicalBody(Bool(false)) == [102, 97, 108, 115, 101]
  {
    TwoItems(a, b);
    OneMember(s, a);
  }

  lemma TwoItems(a: Json, b: Json)
    ensures CanonicalBody(List([a, b])) == [91] + CanonicalBody(a) + [44] + CanonicalBody(b) + [93]
  {
    assert [a, b][1..] == [b] && [b][1..] == [];
    assert Canonicals([b]) == [CanonicalBody(b)];
    assert Canonicals([a, b]) == [CanonicalBody(a)] + [CanonicalBody(b)];
    assert Join([CanonicalBody(a), CanonicalBody(b)]) == CanonicalBody(a) + [COMMA] + Join([CanonicalBody(b)]) by {
      assert [CanonicalBody(a), CanonicalBody(b)][1..] == [CanonicalBody(b)];
    }
  }

  lemma OneMember(s: Text, a: Json)
    ensures CanonicalBody(Object([Entry(s, a)])) == [123, 34] + Escape(s) + [34, 58] + CanonicalBody(a) + [125]
  {
    var e := Entry(s, CanonicalBody(a));
    assert [Entry(s, a)][1..] == [] && [e][1..] == [];
    assert CanonicalFields([Entry(s, a)]) == [e];
    assert Sort([e]) == Insert(e, Sort([e][1..]));
    assert Members([e]) == [Quoted(s) + [COLON] + CanonicalBody(a)];
  }
}
