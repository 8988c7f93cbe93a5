/**
 * Two well-formed values have the same canonical text exactly when they are the
 * same up to the order of object properties.
 */
module CanonicalJsonProofs {
  import opened CanonicalJson

  // ---------------------------------------------------------------- strings

  function HeadLength(s: Text): nat
    requires s != []
  {
    if StartsPair(s) then 2 else 1
  }

  /** What the escape of a text starts with. */
  function Chunk(s: Text): Text
    requires s != []
  {
    if StartsPair(s) then [s[0], s[1]] else EscapeUnit(s[0])
  }

  lemma ChunkThenRest(s: Text)
    requires s != []
    ensures Escape(s) == Chunk(s) + Escape(s[HeadLength(s)..])
  {
  }

  lemma HexDecodes(a: nat, b: nat)
    requires a < 16 && b < 16 && Hex(a) == Hex(b)
    ensures a == b
  {
  }

  /** Four digits make up a unit. */
  lemma Digits(u: Unit)
    ensures u == u / 0x1000 * 0x1000 + u / 0x100 % 16 * 0x100 + u / 0x10 % 16 * 0x10 + u % 16
  {
    assert u / 0x100 == u / 0x1000 * 16 + u / 0x100 % 16;
    assert u / 0x10 == u / 0x100 * 16 + u / 0x10 % 16;
  }

  lemma UnicodeDecodes(u: Unit, v: Unit)
    requires EscapeUnicode(u) == EscapeUnicode(v)
    ensures u == v
  {
    var (a, b) := (EscapeUnicode(u), EscapeUnicode(v));
    assert a[2] == b[2] && a[3] == b[3] && a[4] == b[4] && a[5] == b[5];
    HexDecodes(u / 0x1000, v / 0x1000);
    HexDecodes(u / 0x100 % 16, v / 0x100 % 16);
    HexDecodes(u / 0x10 % 16, v / 0x10 % 16);
    HexDecodes(u % 16, v % 16);
    Digits(u);
    Digits(v);
  }

  /** The first one or two units of a chunk tell how long it is. */
  lemma ChunkLength(s: Text, t: Text, x: Text, y: Text)
    requires s != [] && t != [] && Chunk(s) + x == Chunk(t) + y
    ensures |Chunk(s)| == |Chunk(t)|
  {
    var whole := Chunk(s) + x;
    assert whole[0] == Chunk(s)[0] == Chunk(t)[0];
    if whole[0] == BACKSLASH {
      assert whole[1] == Chunk(s)[1] == Chunk(t)[1];
    }
  }

  lemma UnitDecodes(u: Unit, v: Unit)
    requires EscapeUnit(u) == EscapeUnit(v)
    ensures u == v
  {
    if |EscapeUnit(u)| == 6 {
      UnicodeDecodes(u, v);
    } else if |EscapeUnit(u)| == 2 {
      assert EscapeUnit(u)[1] == EscapeUnit(v)[1];
    }
  }

  lemma ChunkDecodes(s: Text, t: Text)
    requires s != [] && t != [] && Chunk(s) == Chunk(t)
    ensures HeadLength(s) == HeadLength(t) && s[..HeadLength(s)] == t[..HeadLength(t)]
  {
    assert Chunk(s)[0] == Chunk(t)[0];
    if StartsPair(s) {
      assert Chunk(s)[1] == Chunk(t)[1];
    } else {
      assert !StartsPair(t);
      UnitDecodes(s[0], t[0]);
    }
  }

  lemma EndsWithQuote(s: Text, x: Text)
    ensures (Escape(s) + [QUOTE] + x)[0] == QUOTE <==> s == []
  {
    if s != [] { ChunkThenRest(s); }
  }

  /** Equal texts start with equal chunks, and go on equally. */
  lemma ChunksAgree(s: Text, t: Text, p: Text, q: Text)
    requires s != [] && t != [] && Chunk(s) + p == Chunk(t) + q
    ensures HeadLength(s) == HeadLength(t) && s[..HeadLength(s)] == t[..HeadLength(t)] && p == q
  {
    var whole := Chunk(s) + p;
    ChunkLength(s, t, p, q);
    assert Chunk(s) == whole[..|Chunk(s)|] && p == whole[|Chunk(s)|..];
    assert Chunk(t) == whole[..|Chunk(t)|] && q == whole[|Chunk(t)|..];
    ChunkDecodes(s, t);
  }

  lemma ChunkAndRest(s: Text, x: Text)
    requires s != []
    ensures Escape(s) + [QUOTE] + x == Chunk(s) + (Escape(s[HeadLength(s)..]) + [QUOTE] + x)
  {
    ChunkThenRest(s);
  }

  lemma HeadAndRest(s: Text, t: Text)
    requires s != [] && t != [] && HeadLength(s) == HeadLength(t)
    requires s[..HeadLength(s)] == t[..HeadLength(t)] && s[HeadLength(s)..] == t[HeadLength(t)..]
    ensures s == t
  {
    assert s == s[..HeadLength(s)] + s[HeadLength(s)..];
    assert t == t[..HeadLength(t)] + t[HeadLength(t)..];
  }

  /** An escaped text ends at the first unescaped quote. */
  lemma {:induction false} EscapeDecodes(s: Text, t: Text, x: Text, y: Text)
    requires Escape(s) + [QUOTE] + x == Escape(t) + [QUOTE] + y
    ensures s == t && x == y
    decreases |s|
  {
    EndsWithQuote(s, x);
    EndsWithQuote(t, y);
    if s == [] {
      assert x == (Escape(s) + [QUOTE] + x)[1..] && y == (Escape(t) + [QUOTE] + y)[1..];
    } else {
      ChunkAndRest(s, x);
      ChunkAndRest(t, y);
      ChunksAgree(s, t, Escape(s[HeadLength(s)..]) + [QUOTE] + x, Escape(t[HeadLength(t)..]) + [QUOTE] + y);
      EscapeDecodes(s[HeadLength(s)..], t[HeadLength(t)..], x, y);
      HeadAndRest(s, t);
    }
  }

  lemma QuotedDecodes(s: Text, t: Text, x: Text, y: Text)
    requires Quoted(s) + x == Quoted(t) + y
    ensures s == t && x == y
  {
    var whole := Quoted(s) + x;
    assert whole[1..] == Escape(s) + [QUOTE] + x;
    assert whole[1..] == Escape(t) + [QUOTE] + y;
    EscapeDecodes(s, t, x, y);
  }

  // --------------------------------------------- printing without sorting

  function Print(v: Json): Text {
    match v
    case List(items) => [OPEN_LIST] + Join(Prints(items)) + [CLOSE_LIST]
    case Object(fields) => [OPEN_OBJECT] + Join(Members(PrintFields(fields))) + [CLOSE_OBJECT]
    case _ => Scalar(v)
  }

  function Prints(items: seq<Json>): (r: seq<Text>)
    ensures |r| == |items|
  {
    if items == [] then [] else [Print(items[0])] + Prints(items[1..])
  }

  function PrintFields(fields: seq<Entry<Json>>): (r: seq<Entry<Text>>)
    ensures |r| == |fields|
  {
    if fields == [] then [] else [Entry(fields[0].key, Print(fields[0].value))] + PrintFields(fields[1..])
  }

  ghost predicate NumbersOk(v: Json) {
    match v
    case Number(token) => token != [] && forall u | u in token :: NumberUnit(u)
    case List(items) => forall i | 0 <= i < |items| :: NumbersOk(items[i])
    case Object(fields) => forall i | 0 <= i < |fields| :: NumbersOk(fields[i].value)
    case _ => true
  }

  /** A value ends here: at the end of the text or before a separator or a closing bracket. */
  predicate Ends(x: Text) {
    x == [] || x[0] == COMMA || x[0] == CLOSE_LIST || x[0] == CLOSE_OBJECT
  }

  lemma FirstUnit(v: Json)
    requires NumbersOk(v)
    ensures Print(v) != [] && !Ends(Print(v))
    ensures match v
            case Null => Print(v)[0] == 0x6E
            case Bool(b) => Print(v)[0] == if b then 0x74 else 0x66
            case Number(_) => NumberUnit(Print(v)[0])
            case Str(_) => Print(v)[0] == QUOTE
            case List(_) => Print(v)[0] == OPEN_LIST
            case Object(_) => Print(v)[0] == OPEN_OBJECT
  {
    if v.Number? { assert v.token[0] in v.token; }
  }

  /** How many number units a text starts with. */
  function Span(s: Text): nat {
    if s == [] || !NumberUnit(s[0]) then 0 else 1 + Span(s[1..])
  }

  lemma {:induction false} SpanEnds(a: Text, x: Text)
    requires (forall u | u in a :: NumberUnit(u)) && Ends(x)
    ensures Span(a + x) == |a|
  {
    if a == [] {
      assert a + x == x;
    } else {
      assert a[0] in a && (a + x)[1..] == a[1..] + x;
      SpanEnds(a[1..], x);
    }
  }

  lemma NumberDecodes(a: Text, b: Text, x: Text, y: Text)
    requires (forall u | u in a :: NumberUnit(u)) && (forall u | u in b :: NumberUnit(u))
    requires a + x == b + y && Ends(x) && Ends(y)
    ensures a == b && x == y
  {
    SpanEnds(a, x);
    SpanEnds(b, y);
    var whole := a + x;
    assert a == whole[..|a|] && b == whole[..|b|] && x == whole[|a|..] && y == whole[|b|..];
  }

  lemma Strip(c: Unit, d: Unit, a: Text, b: Text)
    requires [c] + a == [d] + b
    ensures c == d && a == b
  {
    assert ([c] + a)[0] == ([d] + b)[0] && ([c] + a)[1..] == a && ([d] + b)[1..] == b;
  }

  /** What follows the first part of a joined list. */
  function Following(parts: seq<Text>): Text
    requires parts != []
  {
    if |parts| == 1 then [] else [COMMA] + Join(parts[1..])
  }

  lemma JoinSplits(parts: seq<Text>, x: Text)
    requires parts != []
    ensures Join(parts) + x == parts[0] + (Following(parts) + x)
  {
  }

  /** After equal first parts, the lists continue or end together. */
  lemma ContinueTogether(ps: seq<Text>, qs: seq<Text>, close: Unit, x: Text, y: Text)
    requires ps != [] && qs != [] && close != COMMA
    requires Following(ps) + ([close] + x) == Following(qs) + ([close] + y)
    ensures |ps| == 1 <==> |qs| == 1
    ensures |ps| == 1 ==> x == y
    ensures |ps| > 1 ==> Join(ps[1..]) + ([close] + x) == Join(qs[1..]) + ([close] + y)
  {
    FollowingStarts(ps, close, x);
    FollowingStarts(qs, close, y);
    Strip(if |ps| == 1 then close else COMMA, if |qs| == 1 then close else COMMA,
          if |ps| == 1 then x else Join(ps[1..]) + ([close] + x), if |qs| == 1 then y else Join(qs[1..]) + ([close] + y));
  }

  lemma FollowingStarts(ps: seq<Text>, close: Unit, x: Text)
    requires ps != []
    ensures Following(ps) + ([close] + x)
            == if |ps| == 1 then [close] + x else [COMMA] + (Join(ps[1..]) + ([close] + x))
  {
  }

  lemma ScalarDecodes(v: Json, w: Json, x: Text, y: Text)
    requires NumbersOk(v) && NumbersOk(w) && Ends(x) && Ends(y) && !v.List? && !v.Object? && Print(v) + x == Print(w) + y
    ensures v == w && x == y
  {
    var whole := Print(v) + x;
    FirstUnit(v);
    FirstUnit(w);
    assert whole[0] == Print(v)[0] == Print(w)[0];
    match v
    case Null => assert x == whole[4..] && y == whole[4..];
    case Bool(b) => assert x == whole[if b then 4 else 5..] && y == whole[if b then 4 else 5..];
    case Number(token) => NumberDecodes(token, w.token, x, y);
    case Str(s) => QuotedDecodes(s, w.text, x, y);
  }

  lemma OpensList(items: seq<Json>, x: Text)
    ensures Print(List(items)) + x == [OPEN_LIST] + (Join(Prints(items)) + ([CLOSE_LIST] + x))
  {
  }

  lemma OpensObject(fields: seq<Entry<Json>>, x: Text)
    ensures Print(Object(fields)) + x == [OPEN_OBJECT] + (Join(Members(PrintFields(fields))) + ([CLOSE_OBJECT] + x))
  {
  }

  lemma SameKind(v: Json, w: Json, x: Text, y: Text)
    requires NumbersOk(v) && NumbersOk(w) && Print(v) + x == Print(w) + y
    ensures (v.List? <==> w.List?) && (v.Object? <==> w.Object?)
  {
    FirstUnit(v);
    FirstUnit(w);
    assert (Print(v) + x)[0] == Print(v)[0] && (Print(w) + y)[0] == Print(w)[0];
  }

  lemma {:induction false} PrintDecodes(v: Json, w: Json, x: Text, y: Text)
    requires NumbersOk(v) && NumbersOk(w) && Ends(x) && Ends(y) && Print(v) + x == Print(w) + y
    ensures v == w && x == y
    decreases v, 0
  {
    SameKind(v, w, x, y);
    if v.List? {
      OpensList(v.items, x);
      OpensList(w.items, y);
      Strip(OPEN_LIST, OPEN_LIST, Join(Prints(v.items)) + ([CLOSE_LIST] + x), Join(Prints(w.items)) + ([CLOSE_LIST] + y));
      ItemsDecode(v.items, w.items, x, y);
    } else if v.Object? {
      OpensObject(v.fields, x);
      OpensObject(w.fields, y);
      Strip(OPEN_OBJECT, OPEN_OBJECT, Join(Members(PrintFields(v.fields))) + ([CLOSE_OBJECT] + x),
            Join(Members(PrintFields(w.fields))) + ([CLOSE_OBJECT] + y));
      FieldsDecode(v.fields, w.fields, x, y);
    } else {
      ScalarDecodes(v, w, x, y);
    }
  }

  lemma {:induction false} ItemsDecode(vs: seq<Json>, ws: seq<Json>, x: Text, y: Text)
    requires (forall i | 0 <= i < |vs| :: NumbersOk(vs[i])) && (forall i | 0 <= i < |ws| :: NumbersOk(ws[i]))
    requires Join(Prints(vs)) + ([CLOSE_LIST] + x) == Join(Prints(ws)) + ([CLOSE_LIST] + y)
    ensures vs == ws && x == y
    decreases vs, 1
  {
    var whole := Join(Prints(vs)) + ([CLOSE_LIST] + x);
    if vs == [] || ws == [] {
      if vs != [] {
        FirstUnit(vs[0]);
        JoinSplits(Prints(vs), [CLOSE_LIST] + x);
      }
      if ws != [] {
        FirstUnit(ws[0]);
        JoinSplits(Prints(ws), [CLOSE_LIST] + y);
      }
      assert whole[0] == CLOSE_LIST;
      assert x == whole[1..] && y == whole[1..];
    } else {
      var (ps, qs) := (Prints(vs), Prints(ws));
      JoinSplits(ps, [CLOSE_LIST] + x);
      JoinSplits(qs, [CLOSE_LIST] + y);
      PrintDecodes(vs[0], ws[0], Following(ps) + ([CLOSE_LIST] + x), Following(qs) + ([CLOSE_LIST] + y));
      ContinueTogether(ps, qs, CLOSE_LIST, x, y);
      if |vs| > 1 { ItemsDecode(vs[1..], ws[1..], x, y); }
      assert vs == [vs[0]] + vs[1..] && ws == [ws[0]] + ws[1..];
    }
  }

  lemma {:induction false} FieldsDecode(fs: seq<Entry<Json>>, gs: seq<Entry<Json>>, x: Text, y: Text)
    requires (forall i | 0 <= i < |fs| :: NumbersOk(fs[i].value)) && (forall i | 0 <= i < |gs| :: NumbersOk(gs[i].value))
    requires Join(Members(PrintFields(fs))) + ([CLOSE_OBJECT] + x) == Join(Members(PrintFields(gs))) + ([CLOSE_OBJECT] + y)
    ensures fs == gs && x == y
    decreases fs, 1
  {
    var (ps, qs) := (Members(PrintFields(fs)), Members(PrintFields(gs)));
    var whole := Join(ps) + ([CLOSE_OBJECT] + x);
    if fs == [] || gs == [] {
      if fs != [] { JoinSplits(ps, [CLOSE_OBJECT] + x); }
      if gs != [] { JoinSplits(qs, [CLOSE_OBJECT] + y); }
      assert whole[0] == CLOSE_OBJECT;
      assert x == whole[1..] && y == whole[1..];
    } else {
      JoinSplits(ps, [CLOSE_OBJECT] + x);
      JoinSplits(qs, [CLOSE_OBJECT] + y);
      var (r, t) := (Following(ps) + ([CLOSE_OBJECT] + x), Following(qs) + ([CLOSE_OBJECT] + y));
      MemberDecodes(fs[0], gs[0], r, t);
      PrintDecodes(fs[0].value, gs[0].value, r, t);
      MembersLength(PrintFields(fs));
      MembersLength(PrintFields(gs));
      ContinueTogether(ps, qs, CLOSE_OBJECT, x, y);
      if |fs| > 1 { FieldsDecode(fs[1..], gs[1..], x, y); }
      assert fs == [fs[0]] + fs[1..] && gs == [gs[0]] + gs[1..];
    }
  }

  lemma MembersLength(es: seq<Entry<Text>>)
    ensures |Members(es)| == |es|
  {
  }

  lemma MemberSplits(f: Entry<Json>, r: Text)
    ensures (Quoted(f.key) + [COLON] + Print(f.value)) + r == Quoted(f.key) + ([COLON] + (Print(f.value) + r))
  {
  }

  lemma MemberDecodes(f: Entry<Json>, g: Entry<Json>, r: Text, t: Text)
    requires (Quoted(f.key) + [COLON] + Print(f.value)) + r == (Quoted(g.key) + [COLON] + Print(g.value)) + t
    ensures f.key == g.key && Print(f.value) + r == Print(g.value) + t
  {
    MemberSplits(f, r);
    MemberSplits(g, t);
    QuotedDecodes(f.key, g.key, [COLON] + (Print(f.value) + r), [COLON] + (Print(g.value) + t));
    Strip(COLON, COLON, Print(f.value) + r, Print(g.value) + t);
  }

  // ---------------------------------------------------------------- the order

  lemma {:induction false} LessIsTransitive(a: Text, b: Text, c: Text)
    requires Less(a, b) && Less(b, c)
    ensures Less(a, c)
  {
    if a != [] && a[0] == b[0] && b[0] == c[0] { LessIsTransitive(a[1..], b[1..], c[1..]); }
  }

  lemma {:induction false} LessIsIrreflexive(a: Text)
    ensures !Less(a, a)
  {
    if a != [] { LessIsIrreflexive(a[1..]); }
  }

  lemma {:induction false} LessIsTotal(a: Text, b: Text)
    ensures Less(a, b) || Less(b, a) || a == b
  {
    if a != [] && b != [] && a[0] == b[0] {
      LessIsTotal(a[1..], b[1..]);
      assert a == [a[0]] + a[1..] && b == [b[0]] + b[1..];
    }
  }

  ghost predicate Sorted<T>(es: seq<Entry<T>>) {
    forall i, j | 0 <= i < j < |es| :: Less(es[i].key, es[j].key)
  }

  ghost function Elements<T>(es: seq<Entry<T>>): set<Entry<T>> {
    set x | x in es
  }

  lemma HeadAndTail<T>(es: seq<Entry<T>>)
    requires es != []
    ensures Elements(es) == {es[0]} + Elements(es[1..])
  {
  }

  lemma EmptyElements<T>(es: seq<Entry<T>>)
    ensures es == [] <==> Elements(es) == {}
  {
    if es != [] { assert es[0] in Elements(es); }
  }

  lemma Consed<T>(e: Entry<T>, es: seq<Entry<T>>)
    ensures Elements([e] + es) == {e} + Elements(es)
  {
  }

  lemma {:induction false} InsertKeepsSorted<T>(e: Entry<T>, es: seq<Entry<T>>)
    requires Sorted(es) && forall x | x in Elements(es) :: x.key != e.key
    ensures Sorted(Insert(e, es)) && Elements(Insert(e, es)) == {e} + Elements(es)
  {
    Consed(e, es);
    if es != [] {
      assert es[0] in Elements(es);
      LessIsTotal(e.key, es[0].key);
      if Less(e.key, es[0].key) {
        forall j | 0 < j < |es| ensures Less(e.key, es[j].key) {
          LessIsTransitive(e.key, es[0].key, es[j].key);
        }
      } else {
        HeadAndTail(es);
        InsertKeepsSorted(e, es[1..]);
        var tail := Insert(e, es[1..]);
        Consed(es[0], tail);
        forall j | 0 <= j < |tail| ensures Less(es[0].key, tail[j].key) {
          assert tail[j] in Elements(tail);
          if tail[j] != e { AfterHead(es, tail[j]); }
        }
      }
    }
  }

  lemma AfterHead<T>(es: seq<Entry<T>>, x: Entry<T>)
    requires Sorted(es) && es != [] && x in Elements(es[1..])
    ensures Less(es[0].key, x.key)
  {
    var i :| 0 <= i < |es[1..]| && es[1..][i] == x;
    assert x == es[i + 1];
  }

  lemma {:induction false} SortSorts<T>(es: seq<Entry<T>>)
    requires DistinctKeys(es)
    ensures Sorted(Sort(es)) && Elements(Sort(es)) == Elements(es)
  {
    if es != [] {
      SortSorts(es[1..]);
      HeadAndTail(es);
      forall x | x in Elements(es[1..]) ensures x.key != es[0].key {
        var i :| 0 <= i < |es[1..]| && es[1..][i] == x;
        assert x == es[i + 1];
      }
      InsertKeepsSorted(es[0], Sort(es[1..]));
    }
  }

  /** The rest of a sorted list is everything but its head. */
  lemma TailHasRest<T>(es: seq<Entry<T>>)
    requires Sorted(es) && es != []
    ensures Elements(es[1..]) == Elements(es) - {es[0]}
  {
    HeadAndTail(es);
    if es[0] in Elements(es[1..]) {
      AfterHead(es, es[0]);
      LessIsIrreflexive(es[0].key);
    }
  }

  /** A sorted list is determined by what is in it. */
  lemma {:induction false} SortedIsUnique<T>(es: seq<Entry<T>>, gs: seq<Entry<T>>)
    requires Sorted(es) && Sorted(gs) && Elements(es) == Elements(gs)
    ensures es == gs
  {
    EmptyElements(es);
    EmptyElements(gs);
    if es != [] {
      HeadsAgree(es, gs);
      TailHasRest(es);
      TailHasRest(gs);
      SortedIsUnique(es[1..], gs[1..]);
      assert es == [es[0]] + es[1..] && gs == [gs[0]] + gs[1..];
    }
  }

  lemma HeadsAgree<T>(es: seq<Entry<T>>, gs: seq<Entry<T>>)
    requires Sorted(es) && Sorted(gs) && es != [] && gs != [] && Elements(es) == Elements(gs)
    ensures es[0] == gs[0]
  {
    HeadAndTail(es);
    HeadAndTail(gs);
    assert es[0] in Elements(gs) && gs[0] in Elements(es);
    if es[0] != gs[0] {
      AfterHead(es, gs[0]);
      AfterHead(gs, es[0]);
      LessIsTransitive(es[0].key, gs[0].key, es[0].key);
      LessIsIrreflexive(es[0].key);
    }
  }

  // ----------------------------------------------------------- normal forms

  function Norm(v: Json): Json {
    match v
    case List(items) => List(Norms(items))
    case Object(fields) => Object(Sort(NormFields(fields)))
    case _ => v
  }

  function Norms(items: seq<Json>): (r: seq<Json>)
    ensures |r| == |items| && forall i | 0 <= i < |items| :: r[i] == Norm(items[i])
  {
    if items == [] then [] else [Norm(items[0])] + Norms(items[1..])
  }

  function NormFields(fields: seq<Entry<Json>>): (r: seq<Entry<Json>>)
    ensures |r| == |fields| && forall i | 0 <= i < |fields| :: r[i] == Entry(fields[i].key, Norm(fields[i].value))
  {
    if fields == [] then [] else [Entry(fields[0].key, Norm(fields[0].value))] + NormFields(fields[1..])
  }

  lemma {:induction false} InsertPrinted(e: Entry<Json>, es: seq<Entry<Json>>)
    ensures PrintFields(Insert(e, es)) == Insert(Entry(e.key, Print(e.value)), PrintFields(es))
  {
    if es == [] || Less(e.key, es[0].key) {
      assert ([e] + es)[1..] == es;
    } else {
      InsertPrinted(e, es[1..]);
      assert ([es[0]] + Insert(e, es[1..]))[1..] == Insert(e, es[1..]);
    }
  }

  lemma {:induction false} SortPrinted(es: seq<Entry<Json>>)
    ensures PrintFields(Sort(es)) == Sort(PrintFields(es))
  {
    if es != [] {
      SortPrinted(es[1..]);
      InsertPrinted(es[0], Sort(es[1..]));
    }
  }

  /** Sorting while printing is printing what was sorted before. */
  lemma {:induction false} CanonicalIsPrintedNorm(v: Json)
    ensures CanonicalBody(v) == Print(Norm(v))
    decreases v, 0
  {
    match v
    case List(items) => CanonicalsArePrinted(items);
    case Object(fields) => CanonicalFieldsArePrinted(fields); SortPrinted(NormFields(fields));
    case _ =>
  }

  lemma {:induction false} CanonicalsArePrinted(items: seq<Json>)
    ensures Canonicals(items) == Prints(Norms(items))
    decreases items, 1
  {
    if items != [] {
      CanonicalIsPrintedNorm(items[0]);
      CanonicalsArePrinted(items[1..]);
      assert Norms(items)[1..] == Norms(items[1..]);
    }
  }

  lemma {:induction false} CanonicalFieldsArePrinted(fields: seq<Entry<Json>>)
    ensures CanonicalFields(fields) == PrintFields(NormFields(fields))
    decreases fields, 1
  {
    if fields != [] {
      CanonicalIsPrintedNorm(fields[0].value);
      CanonicalFieldsArePrinted(fields[1..]);
      assert NormFields(fields)[1..] == NormFields(fields[1..]);
    }
  }

  lemma {:induction false} NormKeepsNumbers(v: Json)
    requires WellFormed(v)
    ensures NumbersOk(Norm(v))
  {
    match v
    case List(items) => forall i | 0 <= i < |items| ensures NumbersOk(Norm(items[i])) { NormKeepsNumbers(items[i]); }
    case Object(fields) =>
      var norms := NormFields(fields);
      assert DistinctKeys(norms);
      SortSorts(norms);
      forall i | 0 <= i < |fields| ensures NumbersOk(Norm(fields[i].value)) { NormKeepsNumbers(fields[i].value); }
      forall j | 0 <= j < |Sort(norms)| ensures NumbersOk(Sort(norms)[j].value) {
        assert Sort(norms)[j] in Elements(Sort(norms));
        var i :| 0 <= i < |norms| && norms[i] == Sort(norms)[j];
      }
    case _ =>
  }

  lemma {:induction false} NormMeansSame(v: Json, w: Json)
    requires WellFormed(v) && WellFormed(w)
    ensures Norm(v) == Norm(w) <==> Same(v, w)
    decreases v
  {
    match v
    case List(items) =>
      if w.List? && |items| == |w.items| {
        forall i | 0 <= i < |items| ensures Norm(items[i]) == Norm(w.items[i]) <==> Same(items[i], w.items[i]) {
          NormMeansSame(items[i], w.items[i]);
        }
      }
    case Object(fields) =>
      if w.Object? {
        forall i, j | 0 <= i < |fields| && 0 <= j < |w.fields|
          ensures Norm(fields[i].value) == Norm(w.fields[j].value) <==> Same(fields[i].value, w.fields[j].value)
        {
          NormMeansSame(fields[i].value, w.fields[j].value);
        }
        FieldsMatch(fields, w.fields);
      }
    case _ =>
  }

  /** A property has its match on the other side, by value or by normal form. */
  lemma Matches(f: Entry<Json>, gs: seq<Entry<Json>>)
    requires forall j | 0 <= j < |gs| :: Norm(f.value) == Norm(gs[j].value) <==> Same(f.value, gs[j].value)
    ensures Entry(f.key, Norm(f.value)) in Elements(NormFields(gs))
            <==> HasTwin(f, gs)
  {
    var (e, ms) := (Entry(f.key, Norm(f.value)), NormFields(gs));
    if e in Elements(ms) {
      var j :| 0 <= j < |ms| && ms[j] == e;
      assert f.key == gs[j].key && Same(f.value, gs[j].value);
    }
    if HasTwin(f, gs) {
      var j :| 0 <= j < |gs| && f.key == gs[j].key && Same(f.value, gs[j].value);
      assert ms[j] == e;
    }
  }

  lemma MatchedBy(fs: seq<Entry<Json>>, g: Entry<Json>)
    requires forall i | 0 <= i < |fs| :: Norm(fs[i].value) == Norm(g.value) <==> Same(fs[i].value, g.value)
    ensures Entry(g.key, Norm(g.value)) in Elements(NormFields(fs))
            <==> IsTwin(fs, g)
  {
    var (e, ns) := (Entry(g.key, Norm(g.value)), NormFields(fs));
    if e in Elements(ns) {
      var i :| 0 <= i < |ns| && ns[i] == e;
      assert fs[i].key == g.key && Same(fs[i].value, g.value);
    }
    if IsTwin(fs, g) {
      var i :| 0 <= i < |fs| && fs[i].key == g.key && Same(fs[i].value, g.value);
      assert ns[i] == e;
    }
  }

  lemma Covers(es: seq<Entry<Json>>, all: set<Entry<Json>>)
    ensures Elements(es) <= all <==> forall i | 0 <= i < |es| :: es[i] in all
  {
    if Elements(es) <= all {
      forall i | 0 <= i < |es| ensures es[i] in all {
        assert es[i] in Elements(es);
      }
    }
  }

  lemma SortsAgree(ns: seq<Entry<Json>>, ms: seq<Entry<Json>>)
    requires DistinctKeys(ns) && DistinctKeys(ms)
    ensures Sort(ns) == Sort(ms) <==> Elements(ns) == Elements(ms)
  {
    SortSorts(ns);
    SortSorts(ms);
    if Elements(ns) == Elements(ms) { SortedIsUnique(Sort(ns), Sort(ms)); }
  }

  lemma LeftMatches(fs: seq<Entry<Json>>, gs: seq<Entry<Json>>)
    requires forall i, j | 0 <= i < |fs| && 0 <= j < |gs| :: Norm(fs[i].value) == Norm(gs[j].value) <==> Same(fs[i].value, gs[j].value)
    ensures Elements(NormFields(fs)) <= Elements(NormFields(gs))
            <==> forall i | 0 <= i < |fs| :: HasTwin(fs[i], gs)
  {
    forall i | 0 <= i < |fs|
      ensures NormFields(fs)[i] in Elements(NormFields(gs))
              <==> HasTwin(fs[i], gs)
    {
      Matches(fs[i], gs);
    }
    Covers(NormFields(fs), Elements(NormFields(gs)));
  }

  lemma RightMatches(fs: seq<Entry<Json>>, gs: seq<Entry<Json>>)
    requires forall i, j | 0 <= i < |fs| && 0 <= j < |gs| :: Norm(fs[i].value) == Norm(gs[j].value) <==> Same(fs[i].value, gs[j].value)
    ensures Elements(NormFields(gs)) <= Elements(NormFields(fs))
            <==> forall j | 0 <= j < |gs| :: IsTwin(fs, gs[j])
  {
    forall j | 0 <= j < |gs|
      ensures NormFields(gs)[j] in Elements(NormFields(fs))
              <==> IsTwin(fs, gs[j])
    {
      MatchedBy(fs, gs[j]);
    }
    Covers(NormFields(gs), Elements(NormFields(fs)));
  }

  lemma TwinsMeanSame(fs: seq<Entry<Json>>, gs: seq<Entry<Json>>)
    ensures Same(Object(fs), Object(gs))
            <==> (forall i | 0 <= i < |fs| :: HasTwin(fs[i], gs)) && (forall j | 0 <= j < |gs| :: IsTwin(fs, gs[j]))
  {
    var (v, w) := (Object(fs), Object(gs));
    assert v.fields == fs && w.fields == gs;
    if Same(v, w) {
      forall i | 0 <= i < |fs| ensures HasTwin(fs[i], gs) {
        assert HasTwin(v.fields[i], w.fields);
      }
      forall j | 0 <= j < |gs| ensures IsTwin(fs, gs[j]) {
        assert IsTwin(v.fields, w.fields[j]);
      }
    }
  }

  lemma FieldsMatch(fs: seq<Entry<Json>>, gs: seq<Entry<Json>>)
    requires DistinctKeys(fs) && DistinctKeys(gs)
    requires forall i, j | 0 <= i < |fs| && 0 <= j < |gs| :: Norm(fs[i].value) == Norm(gs[j].value) <==> Same(fs[i].value, gs[j].value)
    ensures Sort(NormFields(fs)) == Sort(NormFields(gs)) <==> Same(Object(fs), Object(gs))
  {
    var (ns, ms) := (NormFields(fs), NormFields(gs));
    NormKeepsKeys(fs);
    NormKeepsKeys(gs);
    SortsAgree(ns, ms);
    LeftMatches(fs, gs);
    RightMatches(fs, gs);
    TwinsMeanSame(fs, gs);
    assert Elements(ns) == Elements(ms) <==> Elements(ns) <= Elements(ms) && Elements(ms) <= Elements(ns);
  }

  lemma NormKeepsKeys(fs: seq<Entry<Json>>)
    requires DistinctKeys(fs)
    ensures DistinctKeys(NormFields(fs))
  {
  }

  // ----------------------------------------------------------------- results

  /** The canonical text tells values apart exactly up to the order of object properties. */
  lemma CanonicalMeansSame(v: Json, w: Json)
    requires WellFormed(v) && WellFormed(w)
    ensures CanonicalBody(v) == CanonicalBody(w) <==> Same(v, w)
  {
    CanonicalIsPrintedNorm(v);
    CanonicalIsPrintedNorm(w);
    NormKeepsNumbers(v);
    NormKeepsNumbers(w);
    NormMeansSame(v, w);
    if CanonicalBody(v) == CanonicalBody(w) {
      assert Print(Norm(v)) + [] == Print(Norm(v)) && Print(Norm(w)) + [] == Print(Norm(w));
      PrintDecodes(Norm(v), Norm(w), [], []);
    }
  }

  /** Equal signed texts were signed for the same path, time, nonce and body digest. */
  lemma SignedTextIsExact(t: Text, v: Text, p: Text, at: Text, nonce: Text, d: Text, p': Text, at': Text, nonce': Text, d': Text)
    requires SignedText(t, v, p, at, nonce, d) == SignedText(t, v, p', at', nonce', d')
    ensures p == p' && at == at' && nonce == nonce' && d == d'
  {
    var (a, b) := (List([Str(t), Str(v), Str(p), Str(at), Str(nonce), Str(d)]), List([Str(t), Str(v), Str(p'), Str(at'), Str(nonce'), Str(d')]));
    CanonicalMeansSame(a, b);
    assert Same(a.items[2], b.items[2]) && Same(a.items[3], b.items[3]) && Same(a.items[4], b.items[4]) && Same(a.items[5], b.items[5]);
  }
}
