// Two JSON trees have the same canonical text exactly when they are equal up to
// the order of object members.
module CanonicalTheorems {
  import opened Basics
  import opened CanonicalJson

  // ------------------------------------------------------------------------
  // String literals can be read back

  function HexValue(u: Unit): nat {
    if IsDigit(u) then u - 0x30 else if 0x61 <= u <= 0x66 then u - 0x61 + 10 else 0
  }

  function SimpleEscape(u: Unit): Unit {
    if u == 0x62 then 0x08
    else if u == 0x74 then 0x09
    else if u == 0x6E then 0x0A
    else if u == 0x66 then 0x0C
    else if u == 0x72 then 0x0D
    else u
  }

  // Reads the rest of a string literal up to its closing quote.
  function Read(t: Text): Option<(Text, Text)> {
    if t == [] then None
    else if t[0] == QUOTE then Some(([], t[1..]))
    else if t[0] == BACKSLASH then
      if |t| >= 6 && t[1] == 0x75 then
        Prepend((HexValue(t[2]) * 4096 + HexValue(t[3]) * 256 + HexValue(t[4]) * 16 + HexValue(t[5])) % 0x10000, Read(t[6..]))
      else if |t| >= 2 then Prepend(SimpleEscape(t[1]), Read(t[2..]))
      else None
    else Prepend(t[0], Read(t[1..]))
  }

  function Prepend(u: Unit, r: Option<(Text, Text)>): Option<(Text, Text)> {
    if r.None? then None else Some(([u] + r.value.0, r.value.1))
  }

  lemma HexRoundTrip(u: Unit)
    ensures HexValue(HexDigit(u / 4096)) * 4096 + HexValue(HexDigit(u / 256 % 16)) * 256
          + HexValue(HexDigit(u / 16 % 16)) * 16 + HexValue(HexDigit(u % 16)) == u
  {
    assert u / 256 == u / 4096 * 16 + u / 256 % 16;
    assert u / 16 == u / 256 * 16 + u / 16 % 16;
  }

  lemma ReadUnicodeEscape(u: Unit, t: Text)
    ensures Read(UnicodeEscape(u) + t) == Prepend(u, Read(t))
  {
    var e := UnicodeEscape(u);
    assert (e + t)[6..] == t;
    assert e[2] == HexDigit(u / 4096) && e[3] == HexDigit(u / 256 % 16);
    assert e[4] == HexDigit(u / 16 % 16) && e[5] == HexDigit(u % 16);
    HexRoundTrip(u);
  }

  lemma ReadSimpleEscape(c: Unit, t: Text)
    requires c != 0x75
    ensures Read([BACKSLASH, c] + t) == Prepend(SimpleEscape(c), Read(t))
  {
    assert ([BACKSLASH, c] + t)[2..] == t;
  }

  lemma ReadRaw(u: Unit, t: Text)
    requires u != QUOTE && u != BACKSLASH
    ensures Read([u] + t) == Prepend(u, Read(t))
  {
    assert ([u] + t)[1..] == t;
  }

  lemma ReadUnit(u: Unit, t: Text)
    ensures Read(EscapeUnit(u) + t) == Prepend(u, Read(t))
  {
    var e := EscapeUnit(u);
    if |e| == 6 {
      ReadUnicodeEscape(u, t);
    } else if |e| == 2 {
      assert e == [BACKSLASH, e[1]] && SimpleEscape(e[1]) == u;
      ReadSimpleEscape(e[1], t);
    } else {
      ReadRaw(u, t);
    }
  }

  // The text of the literal s after its opening quote, with more text behind it.
  ghost function Literal(s: Text, rest: Text): Text {
    Escape(s) + [QUOTE] + rest
  }

  lemma LiteralStep(s: Text, rest: Text)
    requires s != []
    ensures if |s| >= 2 && IsHigh(s[0]) && IsLow(s[1]) then Literal(s, rest) == [s[0]] + ([s[1]] + Literal(s[2..], rest))
            else Literal(s, rest) == EscapeUnit(s[0]) + Literal(s[1..], rest)
  {
    if |s| >= 2 && IsHigh(s[0]) && IsLow(s[1]) {
      assert [s[0], s[1]] == [s[0]] + [s[1]];
      Reassociate([s[0]] + [s[1]], Escape(s[2..]), [QUOTE] + rest);
      Reassociate([s[0]], [s[1]], Literal(s[2..], rest));
      Reassociate(Escape(s), [QUOTE], rest);
      Reassociate(Escape(s[2..]), [QUOTE], rest);
    } else {
      Reassociate(EscapeUnit(s[0]), Escape(s[1..]), [QUOTE] + rest);
      Reassociate(Escape(s), [QUOTE], rest);
      Reassociate(Escape(s[1..]), [QUOTE], rest);
    }
  }

  lemma Reassociate(a: Text, b: Text, c: Text)
    ensures (a + b) + c == a + (b + c)
  {
  }

  lemma {:induction false} ReadBack(s: Text, rest: Text)
    ensures Read(Literal(s, rest)) == Some((s, rest))
  {
    if s == [] {
      assert ([QUOTE] + rest)[1..] == rest;
      assert Literal(s, rest) == [QUOTE] + rest;
    } else {
      LiteralStep(s, rest);
      if |s| >= 2 && IsHigh(s[0]) && IsLow(s[1]) {
        ReadBack(s[2..], rest);
        ReadRaw(s[1], Literal(s[2..], rest));
        ReadRaw(s[0], [s[1]] + Literal(s[2..], rest));
        assert s == [s[0]] + ([s[1]] + s[2..]);
      } else {
        ReadBack(s[1..], rest);
        ReadUnit(s[0], Literal(s[1..], rest));
        assert s == [s[0]] + s[1..];
      }
    }
  }

  lemma QuoteUnique(s: Text, t: Text, r: Text, q: Text)
    requires Quote(s) + r == Quote(t) + q
    ensures s == t && r == q
  {
    var x, y := Literal(s, r), Literal(t, q);
    assert Quote(s) + r == [QUOTE] + x && Quote(t) + q == [QUOTE] + y;
    assert ([QUOTE] + x)[1..] == x && ([QUOTE] + y)[1..] == y;
    ReadBack(s, r);
    ReadBack(t, q);
  }

  // ------------------------------------------------------------------------
  // Values delimit themselves

  // What may follow a value inside a larger text.
  ghost predicate Ends(rest: Text) {
    rest == [] || rest[0] in {COMMA, CLOSE_BRACKET, CLOSE_BRACE}
  }

  // The length of the longest prefix made of number units.
  function NumberPrefix(t: Text): nat {
    if t != [] && IsNumberUnit(t[0]) then 1 + NumberPrefix(t[1..]) else 0
  }

  lemma {:induction false} NumberPrefixIs(a: Text, r: Text)
    requires Ends(r) && forall i :: 0 <= i < |a| ==> IsNumberUnit(a[i])
    ensures NumberPrefix(a + r) == |a|
  {
    if a == [] {
      assert a + r == r;
    } else {
      NumberPrefixIs(a[1..], r);
      assert (a + r)[1..] == a[1..] + r;
    }
  }

  lemma NumberUnique(a: NumberText, b: NumberText, r: Text, q: Text)
    requires Ends(r) && Ends(q) && a + r == b + q
    ensures a == b && r == q
  {
    NumberPrefixIs(a, r);
    NumberPrefixIs(b, q);
    assert a == (a + r)[..|a|] && b == (b + q)[..|b|];
    assert r == (a + r)[|a|..] && q == (b + q)[|b|..];
  }

  lemma CancelFirst(x: Text, r: Text, q: Text)
    requires x + r == x + q
    ensures r == q
  {
    assert r == (x + r)[|x|..] && q == (x + q)[|x|..];
  }

  // The first unit of a tree's text tells which kind of value it is.
  ghost function Kind(v: Json): nat {
    match v
    case Undefined => 0
    case Null => 1
    case Bool(b) => if b then 2 else 3
    case Number(_) => 4
    case String(_) => 5
    case Array(_) => 6
    case Object(_) => 7
  }

  ghost function KindOfUnit(u: Unit): nat {
    if u == 0x6E then 1 else if u == 0x74 then 2 else if u == 0x66 then 3
    else if IsDigit(u) || u == 0x2D then 4 else if u == QUOTE then 5
    else if u == OPEN_BRACKET then 6 else if u == OPEN_BRACE then 7 else 0
  }

  lemma FirstUnit(less: KeyOrder, v: Json)
    ensures v == Undefined <==> Canonicalize(less, v) == []
    ensures v != Undefined ==> KindOfUnit(Canonicalize(less, v)[0]) == Kind(v) != 0
  {
  }

  lemma ConcatHead(x: Text, q: Text)
    ensures x != [] ==> x + q != [] && (x + q)[0] == x[0]
  {
  }

  // What follows a value cannot be mistaken for a value.
  lemma EndsStartNothing(less: KeyOrder, w: Json, r: Text, q: Text)
    requires Ends(r) && r == Canonicalize(less, w) + q
    ensures w == Undefined && r == q
  {
    FirstUnit(less, w);
    ConcatHead(Canonicalize(less, w), q);
    assert w == Undefined;
    assert [] + q == q;
  }

  // Same list of members, in the same order.
  ghost predicate SameMembers(a: seq<Member>, b: seq<Member>) {
    |a| == |b| && forall i :: 0 <= i < |a| ==> a[i].key == b[i].key && Same(a[i].value, b[i].value)
  }

  lemma {:induction false} ValueUnique(less: KeyOrder, v: Json, w: Json, r: Text, q: Text)
    requires Unambiguous(v) && Unambiguous(w) && Ends(r) && Ends(q)
    requires Canonicalize(less, v) + r == Canonicalize(less, w) + q
    ensures Same(v, w) && r == q
    decreases v, 1, 1
  {
    assert [] + r == r && [] + q == q;
    if v == Undefined {
      EndsStartNothing(less, w, r, q);
    } else if w == Undefined {
      EndsStartNothing(less, v, q, r);
    } else {
      DefinedUnique(less, v, w, r, q);
    }
  }

  lemma DefinedUnique(less: KeyOrder, v: Json, w: Json, r: Text, q: Text)
    requires Unambiguous(v) && Unambiguous(w) && Ends(r) && Ends(q) && v != Undefined && w != Undefined
    requires Canonicalize(less, v) + r == Canonicalize(less, w) + q
    ensures Same(v, w) && r == q
    decreases v, 1, 0
  {
    FirstUnit(less, v);
    FirstUnit(less, w);
    assert (Canonicalize(less, v) + r)[0] == (Canonicalize(less, w) + q)[0];
    assert Kind(v) == Kind(w);
    match v
    case Null => CancelFirst(NULL_TEXT, r, q);
    case Bool(b) => CancelFirst(Canonicalize(less, v), r, q);
    case Number(text) => NumberUnique(text, w.text, r, q);
    case String(chars) => QuoteUnique(chars, w.chars, r, q);
    case Array(items) => ArrayUnique(less, v, w, r, q);
    case Object(members) => ObjectUnique(less, v, w, r, q);
  }

  lemma Unwrap(open: Unit, x: Text, close: Unit, r: Text, y: Text, q: Text)
    requires [open] + x + [close] + r == [open] + y + [close] + q
    ensures x + [close] + r == y + [close] + q
  {
    assert [open] + (x + [close] + r) == [open] + x + [close] + r;
    assert [open] + (y + [close] + q) == [open] + y + [close] + q;
    CancelFirst([open], x + [close] + r, y + [close] + q);
  }

  lemma ArrayUnique(less: KeyOrder, v: Json, w: Json, r: Text, q: Text)
    requires Unambiguous(v) && Unambiguous(w) && v.Array? && w.Array?
    requires Canonicalize(less, v) + r == Canonicalize(less, w) + q
    ensures Same(v, w) && r == q
    decreases v, 0, |v.items| + 1
  {
    Unwrap(OPEN_BRACKET, CanonicalItems(less, v, v.items), CLOSE_BRACKET, r, CanonicalItems(less, w, w.items), q);
    ItemsUnique(less, v, w, v.items, w.items, r, q);
  }

  ghost function SortedMembers(less: KeyOrder, v: Json): seq<Member>
    requires v.Object?
  {
    Sort(less, Defined(v.members))
  }

  lemma ObjectUnique(less: KeyOrder, v: Json, w: Json, r: Text, q: Text)
    requires Unambiguous(v) && Unambiguous(w) && v.Object? && w.Object?
    requires Canonicalize(less, v) + r == Canonicalize(less, w) + q
    ensures Same(v, w) && r == q
    decreases v, 0, |SortedMembers(less, v)| + 1
  {
    var a, b := SortedMembers(less, v), SortedMembers(less, w);
    Unwrap(OPEN_BRACE, CanonicalMembers(less, v, a), CLOSE_BRACE, r, CanonicalMembers(less, w, b), q);
    MembersUnique(less, v, w, a, b, r, q);
    SameObject(v.members, w.members, a, b);
  }

  // What follows the first element of a list: another element or the closing bracket.
  ghost function Tail(close: Unit, more: bool, others: Text, rest: Text): Text {
    if more then [COMMA] + (others + [close] + rest) else [close] + rest
  }

  lemma RegroupTail(first: Text, others: Text, close: Unit, rest: Text)
    ensures first + [COMMA] + others + [close] + rest == first + Tail(close, true, others, rest)
  {
  }

  lemma TailUnique(close: Unit, more: bool, others: Text, rest: Text, more': bool, others': Text, rest': Text)
    requires close != COMMA && Tail(close, more, others, rest) == Tail(close, more', others', rest')
    ensures more == more'
    ensures if more then others + [close] + rest == others' + [close] + rest' else rest == rest'
  {
    assert Tail(close, more, others, rest)[0] == Tail(close, more', others', rest')[0];
    if more {
      CancelFirst([COMMA], others + [close] + rest, others' + [close] + rest');
    } else {
      CancelFirst([close], rest, rest');
    }
  }

  ghost function OtherItems(less: KeyOrder, v: Json, a: seq<Json>): Text
    requires a != [] && forall i :: 0 <= i < |a| ==> a[i] < v
  {
    CanonicalItems(less, v, a[1..])
  }

  lemma ItemsSplit(less: KeyOrder, v: Json, a: seq<Json>, rest: Text)
    requires a != [] && forall i :: 0 <= i < |a| ==> a[i] < v
    ensures CanonicalItems(less, v, a) + [CLOSE_BRACKET] + rest
         == Canonicalize(less, a[0]) + Tail(CLOSE_BRACKET, |a| > 1, OtherItems(less, v, a), rest)
  {
    if |a| > 1 {
      RegroupTail(Canonicalize(less, a[0]), OtherItems(less, v, a), CLOSE_BRACKET, rest);
    }
  }

  lemma MembersSplit(less: KeyOrder, v: Json, a: seq<Member>, rest: Text)
    requires a != [] && forall m :: m in a ==> m.value < v
    ensures CanonicalMembers(less, v, a) + [CLOSE_BRACE] + rest
         == CanonicalMember(less, v, a[0]) + Tail(CLOSE_BRACE, |a| > 1, CanonicalMembers(less, v, a[1..]), rest)
  {
    if |a| > 1 {
      RegroupTail(CanonicalMember(less, v, a[0]), CanonicalMembers(less, v, a[1..]), CLOSE_BRACE, rest);
    }
  }

  // A list that prints something does not start with its closing bracket.
  lemma ListStart(less: KeyOrder, w: Json, b: seq<Json>, q: Text)
    requires b != [] && b != [Undefined] && forall i :: 0 <= i < |b| ==> b[i] < w
    ensures var t := CanonicalItems(less, w, b) + [CLOSE_BRACKET] + q; t != [] && t[0] != CLOSE_BRACKET
  {
    ItemsSplit(less, w, b, q);
    FirstUnit(less, b[0]);
    var tail := Tail(CLOSE_BRACKET, |b| > 1, OtherItems(less, w, b), q);
    assert [] + tail == tail;
  }

  lemma NoItems(less: KeyOrder, v: Json, w: Json, b: seq<Json>, r: Text, q: Text)
    requires b != [Undefined] && forall i :: 0 <= i < |b| ==> b[i] < w
    requires [CLOSE_BRACKET] + r == CanonicalItems(less, w, b) + [CLOSE_BRACKET] + q
    ensures b == [] && r == q
  {
    assert ([CLOSE_BRACKET] + r)[0] == CLOSE_BRACKET;
    if b != [] {
      ListStart(less, w, b, q);
    } else {
      assert [] + [CLOSE_BRACKET] + q == [CLOSE_BRACKET] + q;
      CancelFirst([CLOSE_BRACKET], r, q);
    }
  }

  lemma NoMembers(less: KeyOrder, w: Json, b: seq<Member>, r: Text, q: Text)
    requires forall m :: m in b ==> m.value < w
    requires [CLOSE_BRACE] + r == CanonicalMembers(less, w, b) + [CLOSE_BRACE] + q
    ensures b == [] && r == q
  {
    assert ([CLOSE_BRACE] + r)[0] == CLOSE_BRACE;
    if b != [] {
      MembersSplit(less, w, b, q);
    } else {
      assert [] + [CLOSE_BRACE] + q == [CLOSE_BRACE] + q;
      CancelFirst([CLOSE_BRACE], r, q);
    }
  }

  lemma {:induction false} ItemsUnique(less: KeyOrder, v: Json, w: Json, a: seq<Json>, b: seq<Json>, r: Text, q: Text)
    requires forall i :: 0 <= i < |a| ==> a[i] < v && Unambiguous(a[i])
    requires forall i :: 0 <= i < |b| ==> b[i] < w && Unambiguous(b[i])
    requires CanonicalItems(less, v, a) + [CLOSE_BRACKET] + r == CanonicalItems(less, w, b) + [CLOSE_BRACKET] + q
    requires (a == [] ==> b != [Undefined]) && (b == [] ==> a != [Undefined])
    ensures |a| == |b| && (forall i :: 0 <= i < |a| ==> Same(a[i], b[i])) && r == q
    decreases v, 0, |a|
  {
    if a == [] {
      assert [] + [CLOSE_BRACKET] + r == [CLOSE_BRACKET] + r;
      NoItems(less, v, w, b, r, q);
    } else if b == [] {
      assert [] + [CLOSE_BRACKET] + q == [CLOSE_BRACKET] + q;
      NoItems(less, w, v, a, q, r);
    } else {
      ItemsSplit(less, v, a, r);
      ItemsSplit(less, w, b, q);
      var x := Tail(CLOSE_BRACKET, |a| > 1, OtherItems(less, v, a), r);
      var y := Tail(CLOSE_BRACKET, |b| > 1, OtherItems(less, w, b), q);
      ValueUnique(less, a[0], b[0], x, y);
      TailUnique(CLOSE_BRACKET, |a| > 1, OtherItems(less, v, a), r, |b| > 1, OtherItems(less, w, b), q);
      if |a| > 1 {
        ItemsUnique(less, v, w, a[1..], b[1..], r, q);
        assert forall i :: 1 <= i < |a| ==> a[i] == a[1..][i - 1] && b[i] == b[1..][i - 1];
      }
    }
  }

  lemma Regroup(a: Text, b: Text, c: Text, d: Text)
    ensures a + b + c + d == a + (b + (c + d))
  {
  }

  lemma MemberUnique(less: KeyOrder, v: Json, w: Json, m: Member, n: Member, r: Text, q: Text)
    requires m.value < v && n.value < w && Unambiguous(m.value) && Unambiguous(n.value) && Ends(r) && Ends(q)
    requires CanonicalMember(less, v, m) + r == CanonicalMember(less, w, n) + q
    ensures m.key == n.key && Same(m.value, n.value) && r == q
    decreases v, 0, 0
  {
    var x := [COLON] + (Canonicalize(less, m.value) + r);
    var y := [COLON] + (Canonicalize(less, n.value) + q);
    Regroup(Quote(m.key), [COLON], Canonicalize(less, m.value), r);
    Regroup(Quote(n.key), [COLON], Canonicalize(less, n.value), q);
    QuoteUnique(m.key, n.key, x, y);
    CancelFirst([COLON], Canonicalize(less, m.value) + r, Canonicalize(less, n.value) + q);
    ValueUnique(less, m.value, n.value, r, q);
  }

  lemma SameMembersCons(a: seq<Member>, b: seq<Member>)
    requires a != [] && b != [] && SameMembers(a[1..], b[1..])
    requires a[0].key == b[0].key && Same(a[0].value, b[0].value)
    ensures SameMembers(a, b)
  {
    forall i | 1 <= i < |a| ensures a[i].key == b[i].key && Same(a[i].value, b[i].value) {
      assert a[i] == a[1..][i - 1] && b[i] == b[1..][i - 1];
    }
  }

  lemma {:induction false} MembersUnique(less: KeyOrder, v: Json, w: Json, a: seq<Member>, b: seq<Member>, r: Text, q: Text)
    requires forall m :: m in a ==> m.value < v && Unambiguous(m.value)
    requires forall m :: m in b ==> m.value < w && Unambiguous(m.value)
    requires CanonicalMembers(less, v, a) + [CLOSE_BRACE] + r == CanonicalMembers(less, w, b) + [CLOSE_BRACE] + q
    ensures SameMembers(a, b) && r == q
    decreases v, 0, |a|
  {
    if a == [] {
      assert [] + [CLOSE_BRACE] + r == [CLOSE_BRACE] + r;
      NoMembers(less, w, b, r, q);
    } else if b == [] {
      assert [] + [CLOSE_BRACE] + q == [CLOSE_BRACE] + q;
      NoMembers(less, v, a, q, r);
    } else {
      MembersSplit(less, v, a, r);
      MembersSplit(less, w, b, q);
      var others, others' := CanonicalMembers(less, v, a[1..]), CanonicalMembers(less, w, b[1..]);
      assert a[0] in a && b[0] in b;
      MemberUnique(less, v, w, a[0], b[0], Tail(CLOSE_BRACE, |a| > 1, others, r), Tail(CLOSE_BRACE, |b| > 1, others', q));
      TailUnique(CLOSE_BRACE, |a| > 1, others, r, |b| > 1, others', q);
      if |a| > 1 {
        MembersUnique(less, v, w, a[1..], b[1..], r, q);
        SameMembersCons(a, b);
      }
    }
  }

  lemma GetIs(members: seq<Member>, m: Member)
    requires DistinctKeys(members) && m in members && m.value != Undefined
    ensures Has(members, m.key) && Get(members, m.key) == m.value
  {
    assert Has(members, m.key);
    var n :| n in members && n.key == m.key && n.value == Get(members, m.key) != Undefined;
    var i :| 0 <= i < |members| && members[i] == m;
    var j :| 0 <= j < |members| && members[j] == n;
    assert i == j;
  }

  // Pointwise equal member lists describe equal objects.
  lemma SameObject(p: seq<Member>, q: seq<Member>, a: seq<Member>, b: seq<Member>)
    requires DistinctKeys(p) && DistinctKeys(q) && SameMembers(a, b)
    requires forall m :: m in a <==> m in p && m.value != Undefined
    requires forall m :: m in b <==> m in q && m.value != Undefined
    ensures forall key :: Has(p, key) <==> Has(q, key)
    ensures forall key :: Has(p, key) && Has(q, key) ==> Same(Get(p, key), Get(q, key))
  {
    forall key ensures Has(p, key) <==> Has(q, key) {
      if Has(p, key) {
        var m :| m in p && m.key == key && m.value != Undefined;
        var i :| 0 <= i < |a| && a[i] == m;
        assert b[i] in b && b[i].key == key;
      }
      if Has(q, key) {
        var m :| m in q && m.key == key && m.value != Undefined;
        var i :| 0 <= i < |b| && b[i] == m;
        assert a[i] in a && a[i].key == key;
      }
    }
    forall key | Has(p, key) && Has(q, key) ensures Same(Get(p, key), Get(q, key)) {
      var m :| m in p && m.key == key && m.value != Undefined;
      var i :| 0 <= i < |a| && a[i] == m;
      assert b[i] in b;
      GetIs(p, a[i]);
      GetIs(q, b[i]);
    }
  }

  // ------------------------------------------------------------------------
  // Order-freeness

  ghost predicate SortedByKey(less: KeyOrder, a: seq<Member>) {
    forall i, j :: 0 <= i < j < |a| ==> less(a[i].key, a[j].key)
  }

  lemma {:induction false} InsertSorted(less: KeyOrder, m: Member, a: seq<Member>)
    requires StrictTotal(less) && SortedByKey(less, a)
    requires forall x :: x in a ==> x.key != m.key
    ensures SortedByKey(less, Insert(less, m, a))
  {
    if a != [] && less(a[0].key, m.key) {
      InsertSorted(less, m, a[1..]);
      var rest := Insert(less, m, a[1..]);
      assert forall i :: 0 <= i < |rest| ==> rest[i] in rest;
      forall i | 0 <= i < |rest| ensures less(a[0].key, rest[i].key) {
        if rest[i] != m {
          assert rest[i] in a[1..];
          var j :| 0 <= j < |a[1..]| && a[1..][j] == rest[i];
        }
      }
    } else if a != [] {
      assert a[0] in a;
      assert less(m.key, a[0].key);
      forall i | 0 <= i < |a| ensures less(m.key, a[i].key) {}
    }
  }

  lemma {:induction false} SortSorts(less: KeyOrder, members: seq<Member>)
    requires StrictTotal(less) && DistinctKeys(members)
    ensures SortedByKey(less, Sort(less, members))
  {
    if members != [] {
      var rest := members[1..];
      assert DistinctKeys(rest);
      SortSorts(less, rest);
      forall x | x in Sort(less, rest) ensures x.key != members[0].key {
        var i :| 0 <= i < |rest| && rest[i] == x;
        assert members[i + 1] == x;
      }
      InsertSorted(less, members[0], Sort(less, rest));
    }
  }

  lemma {:induction false} DefinedDistinct(members: seq<Member>)
    requires DistinctKeys(members)
    ensures DistinctKeys(Defined(members))
  {
    if members != [] {
      var rest := members[1..];
      assert DistinctKeys(rest);
      DefinedDistinct(rest);
      forall x | x in Defined(rest) ensures x.key != members[0].key {
        var i :| 0 <= i < |rest| && rest[i] == x;
        assert members[i + 1] == x;
      }
      var d := Defined(rest);
      assert forall i :: 0 <= i < |d| ==> d[i] in d;
    }
  }

  ghost predicate KeyIn(a: seq<Member>, key: Text) { exists m :: m in a && m.key == key }

  // Sorting leaves one possible order of the keys.
  lemma {:induction false} SortedKeysUnique(less: KeyOrder, a: seq<Member>, b: seq<Member>)
    requires StrictTotal(less) && SortedByKey(less, a) && SortedByKey(less, b)
    requires forall key :: KeyIn(a, key) <==> KeyIn(b, key)
    ensures |a| == |b| && forall i :: 0 <= i < |a| ==> a[i].key == b[i].key
  {
    if a == [] {
      assert b != [] ==> KeyIn(b, b[0].key);
    } else {
      assert KeyIn(a, a[0].key);
      var m :| m in b && m.key == a[0].key;
      var j :| 0 <= j < |b| && b[j] == m;
      assert KeyIn(b, b[0].key);
      var n :| n in a && n.key == b[0].key;
      var i :| 0 <= i < |a| && a[i] == n;
      assert a[0].key == b[0].key;
      forall key ensures KeyIn(a[1..], key) <==> KeyIn(b[1..], key) {
        TailKeys(less, a, key);
        TailKeys(less, b, key);
      }
      SortedKeysUnique(less, a[1..], b[1..]);
      forall k | 1 <= k < |a| ensures |a| == |b| && a[k].key == b[k].key {
        assert a[k] == a[1..][k - 1] && b[k] == b[1..][k - 1];
      }
    }
  }

  lemma TailKeys(less: KeyOrder, a: seq<Member>, key: Text)
    requires StrictTotal(less) && SortedByKey(less, a) && a != []
    ensures KeyIn(a[1..], key) <==> KeyIn(a, key) && key != a[0].key
  {
    if KeyIn(a[1..], key) {
      var m :| m in a[1..] && m.key == key;
      var i :| 0 <= i < |a[1..]| && a[1..][i] == m;
      assert a[i + 1] == m;
    }
    if KeyIn(a, key) && key != a[0].key {
      var m :| m in a && m.key == key;
      var i :| 0 <= i < |a| && a[i] == m;
      assert a[1..][i - 1] == m;
    }
  }

  lemma {:induction false} SameText(less: KeyOrder, v: Json, w: Json)
    requires StrictTotal(less) && Unambiguous(v) && Unambiguous(w) && Same(v, w)
    ensures Canonicalize(less, v) == Canonicalize(less, w)
    decreases v, 1
  {
    match v
    case Array(items) => SameItemsText(less, v, w, items, w.items);
    case Object(members) =>
      var a, b := Sort(less, Defined(members)), Sort(less, Defined(w.members));
      SortedSame(less, members, w.members);
      SameMembersText(less, v, w, a, b);
    case _ =>
  }

  lemma SortedSame(less: KeyOrder, p: seq<Member>, q: seq<Member>)
    requires StrictTotal(less) && DistinctKeys(p) && DistinctKeys(q)
    requires forall key :: Has(p, key) <==> Has(q, key)
    requires forall key :: Has(p, key) && Has(q, key) ==> Same(Get(p, key), Get(q, key))
    ensures SameMembers(Sort(less, Defined(p)), Sort(less, Defined(q)))
  {
    var a, b := Sort(less, Defined(p)), Sort(less, Defined(q));
    DefinedDistinct(p);
    DefinedDistinct(q);
    SortSorts(less, Defined(p));
    SortSorts(less, Defined(q));
    forall key ensures KeyIn(a, key) <==> KeyIn(b, key) {
      assert KeyIn(a, key) <==> Has(p, key);
      assert KeyIn(b, key) <==> Has(q, key);
    }
    SortedKeysUnique(less, a, b);
    forall i | 0 <= i < |a| ensures Same(a[i].value, b[i].value) {
      assert a[i] in a && b[i] in b;
      GetIs(p, a[i]);
      GetIs(q, b[i]);
    }
  }

  lemma {:induction false} SameItemsText(less: KeyOrder, v: Json, w: Json, a: seq<Json>, b: seq<Json>)
    requires StrictTotal(less) && |a| == |b|
    requires forall i :: 0 <= i < |a| ==> a[i] < v && Unambiguous(a[i])
    requires forall i :: 0 <= i < |b| ==> b[i] < w && Unambiguous(b[i])
    requires forall i :: 0 <= i < |a| ==> Same(a[i], b[i])
    ensures CanonicalItems(less, v, a) == CanonicalItems(less, w, b)
    decreases v, 0, |a|
  {
    if a != [] {
      SameText(less, a[0], b[0]);
      SameItemsText(less, v, w, a[1..], b[1..]);
    }
  }

  lemma SameTails(a: seq<Member>, b: seq<Member>)
    requires SameMembers(a, b) && a != []
    ensures b != [] && a[0].key == b[0].key && Same(a[0].value, b[0].value)
    ensures SameMembers(a[1..], b[1..])
    ensures forall m :: m in a[1..] ==> m in a
    ensures forall m :: m in b[1..] ==> m in b
  {
  }

  lemma {:induction false} SameMembersText(less: KeyOrder, v: Json, w: Json, a: seq<Member>, b: seq<Member>)
    requires StrictTotal(less) && SameMembers(a, b)
    requires forall m :: m in a ==> m.value < v && Unambiguous(m.value)
    requires forall m :: m in b ==> m.value < w && Unambiguous(m.value)
    ensures CanonicalMembers(less, v, a) == CanonicalMembers(less, w, b)
    decreases v, 0, |a|
  {
    if a != [] {
      assert a[0] in a && b[0] in b;
      SameText(less, a[0].value, b[0].value);
      SameTails(a, b);
      SameMembersText(less, v, w, a[1..], b[1..]);
    }
  }

  // ------------------------------------------------------------------------

  // Main result: on values without an array of a lone undefined, JSON trees among
  // them, the canonical text is injective and order-free.
  lemma CanonicalTextDecidesEquality(less: KeyOrder, v: Json, w: Json)
    requires StrictTotal(less) && Unambiguous(v) && Unambiguous(w)
    ensures Canonicalize(less, v) == Canonicalize(less, w) <==> Same(v, w)
  {
    if Canonicalize(less, v) == Canonicalize(less, w) {
      assert Canonicalize(less, v) + [] == Canonicalize(less, w) + [];
      ValueUnique(less, v, w, [], []);
    }
    if Same(v, w) {
      SameText(less, v, w);
    }
  }

  lemma LoneIsMember(items: seq<Json>)
    ensures items == [Undefined] ==> Undefined in items
  {
  }

  lemma {:induction false} TreeIsUnambiguous(v: Json)
    requires Tree(v)
    ensures Unambiguous(v)
    decreases v
  {
    match v
    case Array(items) =>
      forall i | i in items ensures Unambiguous(i) && i != Undefined { TreeIsUnambiguous(i); }
      LoneIsMember(items);
    case Object(members) =>
      forall m | m in members && m.value != Undefined ensures Unambiguous(m.value) { TreeIsUnambiguous(m.value); }
    case _ =>
  }

  // The concrete collision outside that class: an undefined element prints nothing.
  lemma UndefinedItemCollides(less: KeyOrder)
    ensures Canonicalize(less, Array([Undefined])) == Canonicalize(less, Array([]))
    ensures !Same(Array([Undefined]), Array([]))
  {
    assert CanonicalItems(less, Array([Undefined]), [Undefined]) == [];
  }

  // ------------------------------------------------------------------------
  // What the text looks like

  // Texts with a separator between them.
  function Join(texts: seq<Text>, separator: Unit): Text {
    if texts == [] then [] else if |texts| == 1 then texts[0] else texts[0] + [separator] + Join(texts[1..], separator)
  }

  function ItemTexts(less: KeyOrder, items: seq<Json>): seq<Text> {
    seq(|items|, i requires 0 <= i < |items| => Canonicalize(less, items[i]))
  }

  function MemberTexts(less: KeyOrder, members: seq<Member>): seq<Text> {
    seq(|members|, i requires 0 <= i < |members| => Quote(members[i].key) + [0x3A] + Canonicalize(less, members[i].value))
  }

  lemma {:induction false} ItemsAreJoined(less: KeyOrder, v: Json, items: seq<Json>)
    requires forall i :: 0 <= i < |items| ==> items[i] < v
    ensures CanonicalItems(less, v, items) == Join(ItemTexts(less, items), 0x2C)
    decreases |items|
  {
    if |items| > 1 {
      ItemsAreJoined(less, v, items[1..]);
      assert ItemTexts(less, items)[1..] == ItemTexts(less, items[1..]);
    }
  }

  lemma {:induction false} MembersAreJoined(less: KeyOrder, v: Json, members: seq<Member>)
    requires forall m :: m in members ==> m.value < v
    ensures CanonicalMembers(less, v, members) == Join(MemberTexts(less, members), 0x2C)
    decreases |members|
  {
    if |members| > 1 {
      MembersAreJoined(less, v, members[1..]);
      assert MemberTexts(less, members)[1..] == MemberTexts(less, members[1..]);
    }
  }

  // Brackets or braces around the parts, commas between them, and members as a quoted
  // key, a colon and a value, in the order of the keys and without undefined ones.
  lemma CanonicalForm(less: KeyOrder, v: Json)
    ensures v.Array? ==> Canonicalize(less, v) == [0x5B] + Join(ItemTexts(less, v.items), 0x2C) + [0x5D]
    ensures v.Object? ==>
              Canonicalize(less, v) == [0x7B] + Join(MemberTexts(less, Sort(less, Defined(v.members))), 0x2C) + [0x7D]
    ensures v.String? ==> Canonicalize(less, v) == [0x22] + Escape(v.chars) + [0x22]
    ensures v.Number? ==> Canonicalize(less, v) == v.text
    ensures v == Null ==> Canonicalize(less, v) == [0x6E, 0x75, 0x6C, 0x6C]
    ensures v == Bool(true) ==> Canonicalize(less, v) == [0x74, 0x72, 0x75, 0x65]
    ensures v == Bool(false) ==> Canonicalize(less, v) == [0x66, 0x61, 0x6C, 0x73, 0x65]
    ensures v == Undefined ==> Canonicalize(less, v) == []
  {
    if v.Array? { ItemsAreJoined(less, v, v.items); }
    if v.Object? { MembersAreJoined(less, v, Sort(less, Defined(v.members))); }
  }

  // Seven characters have a short escape, other controls and surrogates the long one,
  // and all others stand for themselves.
  lemma EscapeLengths(u: Unit)
    ensures |EscapeUnit(u)| == 2 <==> u in {0x08, 0x09, 0x0A, 0x0C, 0x0D, 0x22, 0x5C}
    ensures |EscapeUnit(u)| == 6 <==> 0xD800 <= u <= 0xDFFF || (u < 0x20 && u !in {0x08, 0x09, 0x0A, 0x0C, 0x0D})
    ensures |EscapeUnit(u)| == 1 ==> EscapeUnit(u) == [u]
    ensures |EscapeUnit(u)| in {1, 2, 6}
  {
  }

  // A pair of surrogates stands for itself as well.
  lemma EscapeStep(s: Text)
    requires s != []
    ensures |s| >= 2 && 0xD800 <= s[0] <= 0xDBFF && 0xDC00 <= s[1] <= 0xDFFF ==> Escape(s) == [s[0], s[1]] + Escape(s[2..])
    ensures !(|s| >= 2 && 0xD800 <= s[0] <= 0xDBFF && 0xDC00 <= s[1] <= 0xDFFF) ==> Escape(s) == EscapeUnit(s[0]) + Escape(s[1..])
  {
  }
}
