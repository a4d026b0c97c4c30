// Where canonical texts stop deciding equality: exactly at arrays of a lone
// undefined, which print like empty ones.
module CanonicalBoundary {
  import opened CanonicalJson
  import opened CanonicalTheorems

  // The value with every array of a lone undefined replaced by an empty one.
  ghost function Collapse(v: Json): Json
    decreases v, 0
  {
    match v
    case Array(items) => if items == [Undefined] then Array([]) else Array(CollapseItems(v, items))
    case Object(members) => Object(CollapseMembers(v, members))
    case _ => v
  }

  ghost function CollapseItems(context: Json, items: seq<Json>): (r: seq<Json>)
    requires forall i :: 0 <= i < |items| ==> items[i] < context
    ensures |r| == |items| && forall i :: 0 <= i < |items| ==> r[i] == Collapse(items[i])
    decreases context, 0, |items|
  {
    if items == [] then [] else [Collapse(items[0])] + CollapseItems(context, items[1..])
  }

  ghost function CollapseMembers(context: Json, members: seq<Member>): (r: seq<Member>)
    requires forall m :: m in members ==> m.value < context
    ensures |r| == |members|
    ensures forall i :: 0 <= i < |members| ==> r[i] == Member(members[i].key, Collapse(members[i].value))
    decreases context, 0, |members|
  {
    if members == [] then []
    else
      assert members[0] in members;
      [Member(members[0].key, Collapse(members[0].value))] + CollapseMembers(context, members[1..])
  }

  // ------------------------------------------------------------------------
  // Collapsing does not change the text

  lemma CollapseDefines(v: Json)
    ensures Collapse(v) == Undefined <==> v == Undefined
  {
  }

  // Members are filtered and sorted by their keys alone.
  lemma {:induction false} CollapseDefined(v: Json, w: Json, members: seq<Member>)
    requires forall m :: m in members ==> m.value < v && m.value < w
    ensures Defined(CollapseMembers(v, members)) == CollapseMembers(w, Defined(members))
    decreases |members|
  {
    if members != [] {
      assert members[0] in members;
      CollapseDefines(members[0].value);
      CollapseDefined(v, w, members[1..]);
      assert CollapseMembers(v, members)[1..] == CollapseMembers(v, members[1..]);
      if members[0].value != Undefined { CollapseCons(w, members[0], Defined(members[1..])); }
    }
  }

  lemma CollapseCons(v: Json, m: Member, rest: seq<Member>)
    requires m.value < v && forall x :: x in rest ==> x.value < v
    ensures CollapseMembers(v, [m] + rest) == [Member(m.key, Collapse(m.value))] + CollapseMembers(v, rest)
  {
    assert ([m] + rest)[1..] == rest;
  }

  lemma {:induction false} CollapseInsert(less: KeyOrder, v: Json, m: Member, sorted: seq<Member>)
    requires m.value < v && forall x :: x in sorted ==> x.value < v
    ensures Insert(less, Member(m.key, Collapse(m.value)), CollapseMembers(v, sorted)) == CollapseMembers(v, Insert(less, m, sorted))
    decreases |sorted|
  {
    if sorted == [] {
      CollapseCons(v, m, []);
      assert [m] + [] == [m];
    } else if less(sorted[0].key, m.key) {
      assert sorted[0] in sorted;
      CollapseInsert(less, v, m, sorted[1..]);
      assert CollapseMembers(v, sorted)[1..] == CollapseMembers(v, sorted[1..]);
      CollapseCons(v, sorted[0], Insert(less, m, sorted[1..]));
    } else {
      CollapseCons(v, m, sorted);
    }
  }

  lemma {:induction false} CollapseSort(less: KeyOrder, v: Json, members: seq<Member>)
    requires forall m :: m in members ==> m.value < v
    ensures Sort(less, CollapseMembers(v, members)) == CollapseMembers(v, Sort(less, members))
    decreases |members|
  {
    if members != [] {
      assert members[0] in members;
      CollapseSort(less, v, members[1..]);
      assert CollapseMembers(v, members)[1..] == CollapseMembers(v, members[1..]);
      CollapseInsert(less, v, members[0], Sort(less, members[1..]));
    }
  }

  lemma {:induction false} CollapseKeepsText(less: KeyOrder, v: Json)
    ensures Canonicalize(less, Collapse(v)) == Canonicalize(less, v)
    decreases v, 1
  {
    match v
    case Array(items) =>
      if items == [Undefined] {
        assert CanonicalItems(less, v, items) == [];
      } else {
        ItemsKeepText(less, v, Collapse(v), items);
      }
    case Object(members) =>
      CollapseDefined(v, v, members);
      CollapseSort(less, v, Defined(members));
      MembersKeepText(less, v, Collapse(v), Sort(less, Defined(members)));
    case _ =>
  }

  lemma {:induction false} ItemsKeepText(less: KeyOrder, v: Json, w: Json, items: seq<Json>)
    requires forall i :: 0 <= i < |items| ==> items[i] < v
    requires forall i :: 0 <= i < |items| ==> CollapseItems(v, items)[i] < w
    ensures CanonicalItems(less, w, CollapseItems(v, items)) == CanonicalItems(less, v, items)
    decreases v, 0, |items|
  {
    if items != [] {
      CollapseKeepsText(less, items[0]);
      var c := CollapseItems(v, items);
      assert c[1..] == CollapseItems(v, items[1..]);
      assert forall i :: 0 <= i < |c[1..]| ==> c[1..][i] == c[i + 1];
      ItemsKeepText(less, v, w, items[1..]);
    }
  }

  lemma {:induction false} MembersKeepText(less: KeyOrder, v: Json, w: Json, members: seq<Member>)
    requires forall m :: m in members ==> m.value < v
    requires forall m :: m in CollapseMembers(v, members) ==> m.value < w
    ensures CanonicalMembers(less, w, CollapseMembers(v, members)) == CanonicalMembers(less, v, members)
    decreases v, 0, |members|
  {
    if members != [] {
      assert members[0] in members;
      CollapseKeepsText(less, members[0].value);
      var c := CollapseMembers(v, members);
      assert c[0] in c;
      assert c[1..] == CollapseMembers(v, members[1..]);
      MembersKeepText(less, v, w, members[1..]);
    }
  }

  // ------------------------------------------------------------------------
  // What is left is unambiguous, and different exactly when something was collapsed

  lemma {:induction false} CollapseIsUnambiguous(v: Json)
    requires Keyed(v)
    ensures Unambiguous(Collapse(v))
    decreases v
  {
    match v
    case Array(items) =>
      if items != [Undefined] {
        var c := CollapseItems(v, items);
        forall x | x in c ensures Unambiguous(x) {
          var i :| 0 <= i < |c| && c[i] == x;
          CollapseIsUnambiguous(items[i]);
        }
        StillNotLone(v, items);
      }
    case Object(members) =>
      var c := CollapseMembers(v, members);
      forall x | x in c && x.value != Undefined ensures Unambiguous(x.value) {
        var i :| 0 <= i < |c| && c[i] == x;
        CollapseDefines(members[i].value);
        assert members[i] in members;
        CollapseIsUnambiguous(members[i].value);
      }
    case _ =>
  }

  lemma StillNotLone(v: Json, items: seq<Json>)
    requires items != [Undefined] && forall i :: 0 <= i < |items| ==> items[i] < v
    ensures CollapseItems(v, items) != [Undefined]
  {
    var c := CollapseItems(v, items);
    if |items| == 1 {
      CollapseDefines(items[0]);
      assert items == [items[0]] && c[0] != Undefined;
    }
  }

  lemma {:induction false} CollapseChanges(v: Json)
    requires Keyed(v)
    ensures Same(v, Collapse(v)) <==> Unambiguous(v)
    decreases v
  {
    match v
    case Array(items) =>
      forall i | 0 <= i < |items| ensures Same(items[i], Collapse(items[i])) <==> Unambiguous(items[i]) {
        assert items[i] in items;
        CollapseChanges(items[i]);
      }
    case Object(members) => CollapseChangesMembers(v, members);
    case _ =>
  }

  lemma CollapsedMember(v: Json, members: seq<Member>, m: Member)
    requires DistinctKeys(members) && m in members && m.value != Undefined && forall x :: x in members ==> x.value < v
    ensures var c := CollapseMembers(v, members);
            && Has(members, m.key) && Get(members, m.key) == m.value
            && Has(c, m.key) && Get(c, m.key) == Collapse(m.value)
  {
    var c := CollapseMembers(v, members);
    var i :| 0 <= i < |members| && members[i] == m;
    CollapseDefines(m.value);
    assert c[i] in c;
    GetIs(members, m);
    GetIs(c, c[i]);
  }

  lemma SameKeys(v: Json, members: seq<Member>, key: Text)
    requires DistinctKeys(members) && forall x :: x in members ==> x.value < v
    ensures Has(members, key) <==> Has(CollapseMembers(v, members), key)
  {
    var c := CollapseMembers(v, members);
    if Has(members, key) {
      var m :| m in members && m.key == key && m.value != Undefined;
      CollapsedMember(v, members, m);
    }
    if Has(c, key) {
      var x :| x in c && x.key == key && x.value != Undefined;
      var i :| 0 <= i < |c| && c[i] == x;
      CollapseDefines(members[i].value);
      assert members[i] in members;
    }
  }

  lemma {:induction false} CollapseChangesMembers(v: Json, members: seq<Member>)
    requires v == Object(members) && Keyed(v)
    ensures Same(v, Collapse(v)) <==> Unambiguous(v)
    decreases v, 0
  {
    var c := CollapseMembers(v, members);
    forall key ensures Has(members, key) <==> Has(c, key) { SameKeys(v, members, key); }
    forall m | m in members && m.value != Undefined
      ensures Has(members, m.key) && Get(members, m.key) == m.value
      ensures Has(c, m.key) && Get(c, m.key) == Collapse(m.value)
      ensures Same(m.value, Collapse(m.value)) <==> Unambiguous(m.value) {
      CollapsedMember(v, members, m);
      CollapseChanges(m.value);
    }
    forall key | Has(members, key) && Unambiguous(v) ensures Same(Get(members, key), Get(c, key)) {
      var m :| m in members && m.key == key && m.value != Undefined;
    }
  }

  // ------------------------------------------------------------------------

  // The exact boundary, for all values with distinct keys: two of them print the
  // same text exactly when they are equal up to member order once arrays of a lone
  // undefined are read as empty.
  lemma CanonicalTextDecidesCollapsed(less: KeyOrder, v: Json, w: Json)
    requires StrictTotal(less) && Keyed(v) && Keyed(w)
    ensures Canonicalize(less, v) == Canonicalize(less, w) <==> Same(Collapse(v), Collapse(w))
  {
    CollapseKeepsText(less, v);
    CollapseKeepsText(less, w);
    CollapseIsUnambiguous(v);
    CollapseIsUnambiguous(w);
    CanonicalTextDecidesEquality(less, Collapse(v), Collapse(w));
  }

  // Replacing the arrays of a lone undefined never changes the text, and changes
  // the value exactly when it holds one: every such value collides.
  lemma LoneUndefinedCollides(less: KeyOrder, v: Json)
    requires StrictTotal(less) && Keyed(v)
    ensures Canonicalize(less, Collapse(v)) == Canonicalize(less, v)
    ensures Same(v, Collapse(v)) <==> Unambiguous(v)
  {
    CollapseKeepsText(less, v);
    CollapseChanges(v);
  }
}
