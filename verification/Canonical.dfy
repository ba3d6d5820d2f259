/** Sorting object fields: the canonical text of a value does not depend on the order of its fields,
    and depends on everything else. */
module Canonical {
  import opened Json

  // ---- the order of keys: by code point ----

  predicate Less(a: string, b: string) {
    b != "" && (a == "" || a[0] < b[0] || (a[0] == b[0] && Less(a[1..], b[1..])))
  }

  lemma {:induction false} LessIsTotal(a: string, b: string)
    ensures !(Less(a, b) && Less(b, a)) && (Less(a, b) || Less(b, a) || a == b)
  {
    if a != "" && b != "" {
      LessIsTotal(a[1..], b[1..]);
      assert a == [a[0]] + a[1..] && b == [b[0]] + b[1..];
    }
  }

  lemma {:induction false} LessIsTransitive(a: string, b: string, c: string)
    requires Less(a, b) && Less(b, c)
    ensures Less(a, c)
  {
    if a != "" && a[0] == b[0] && b[0] == c[0] { LessIsTransitive(a[1..], b[1..], c[1..]); }
  }

  // The texts agree up to some place, where the first ends or has the smaller character.
  predicate DiffersAt(a: string, b: string, k: nat) {
    k <= |a| && k < |b| && a[..k] == b[..k] && (k == |a| || a[k] < b[k])
  }

  lemma {:induction false} LessIs(a: string, b: string)
    ensures Less(a, b) <==> exists k: nat :: DiffersAt(a, b, k)
  {
    if b != "" && (a == "" || a[0] < b[0]) {
      assert DiffersAt(a, b, 0);
    } else if b != "" && a[0] == b[0] {
      LessIs(a[1..], b[1..]);
      if k: nat :| DiffersAt(a[1..], b[1..], k) { assert a[..k + 1] == [a[0]] + a[1..][..k] && DiffersAt(a, b, k + 1); }
      if k: nat :| DiffersAt(a, b, k) { assert a[1..][..k - 1] == a[..k][1..] == b[..k][1..] && DiffersAt(a[1..], b[1..], k - 1); }
    } else if k: nat :| DiffersAt(a, b, k) {
      if k > 0 { FirstAgrees(a, b, k); }
    }
  }

  lemma FirstAgrees(a: string, b: string, k: nat)
    requires 0 < k <= |a| && k <= |b| && a[..k] == b[..k]
    ensures a[0] == b[0]
  {
    assert a[..k][0] == a[0] && b[..k][0] == b[0];
  }

  // ---- sorting fields ----

  function Insert(f: Field, fields: seq<Field>): seq<Field> {
    if fields == [] || Less(f.0, fields[0].0) then [f] + fields else [fields[0]] + Insert(f, fields[1..])
  }

  function Sort(fields: seq<Field>): seq<Field> {
    if fields == [] then [] else Insert(fields[0], Sort(fields[1..]))
  }

  predicate Sorted(fields: seq<Field>) {
    forall i, j :: 0 <= i < j < |fields| ==> Less(fields[i].0, fields[j].0)
  }

  predicate DistinctKeys(fields: seq<Field>) {
    forall i, j :: 0 <= i < j < |fields| ==> fields[i].0 != fields[j].0
  }

  lemma {:induction false} InsertHas(f: Field, fields: seq<Field>, x: Field)
    ensures x in Insert(f, fields) <==> x == f || x in fields
  {
    if fields != [] && !Less(f.0, fields[0].0) { InsertHas(f, fields[1..], x); }
  }

  lemma {:induction false} SortHas(fields: seq<Field>, x: Field)
    ensures x in Sort(fields) <==> x in fields
  {
    if fields != [] {
      SortHas(fields[1..], x);
      InsertHas(fields[0], Sort(fields[1..]), x);
    }
  }

  lemma {:induction false} InsertSorted(f: Field, fields: seq<Field>)
    requires Sorted(fields) && forall g :: g in fields ==> g.0 != f.0
    ensures Sorted(Insert(f, fields))
  {
    if fields != [] {
      LessIsTotal(f.0, fields[0].0);
      if Less(f.0, fields[0].0) {
        forall j | 0 <= j < |fields| ensures Less(f.0, fields[j].0) {
          if j > 0 { LessIsTransitive(f.0, fields[0].0, fields[j].0); }
        }
      } else {
        var rest := Insert(f, fields[1..]);
        InsertSorted(f, fields[1..]);
        forall j | 0 <= j < |rest| ensures Less(fields[0].0, rest[j].0) {
          InsertHas(f, fields[1..], rest[j]);
        }
      }
    }
  }

  lemma {:induction false} SortSorts(fields: seq<Field>)
    requires DistinctKeys(fields)
    ensures Sorted(Sort(fields))
  {
    if fields != [] {
      SortSorts(fields[1..]);
      forall g | g in Sort(fields[1..]) ensures g.0 != fields[0].0 { SortHas(fields[1..], g); }
      InsertSorted(fields[0], Sort(fields[1..]));
    }
  }

  lemma NothingIn(t: seq<Field>)
    ensures (forall x :: x !in t) ==> t == []
  {
    if t != [] { assert t[0] in t; }
  }

  // Sorted lists with the same fields are the same list.
  lemma {:induction false} SortedIsUnique(s: seq<Field>, t: seq<Field>)
    requires Sorted(s) && Sorted(t) && forall x :: x in s <==> x in t
    ensures s == t
  {
    if s == [] {
      NothingIn(t);
    } else {
      assert s[0] in t;
      var i :| 0 <= i < |t| && t[i] == s[0];
      assert t[0] in s;
      var j :| 0 <= j < |s| && s[j] == t[0];
      if i > 0 && j > 0 { LessIsTotal(s[0].0, t[0].0); }
      if i > 0 { LessIsTotal(t[0].0, t[0].0); }
      assert s[0] == t[0];
      forall x ensures x in s[1..] <==> x in t[1..] { TailHas(s, x); TailHas(t, x); }
      SortedIsUnique(s[1..], t[1..]);
    }
  }

  lemma TailHas(s: seq<Field>, x: Field)
    requires Sorted(s) && s != []
    ensures x in s[1..] <==> x in s && x != s[0]
  {
    LessIsTotal(s[0].0, s[0].0);
    if x in s && x != s[0] {
      var i :| 0 <= i < |s| && s[i] == x;
      assert s[1..][i - 1] == x;
    }
    if x in s[1..] {
      var i :| 0 <= i < |s[1..]| && s[1..][i] == x;
      assert s[i + 1] == x;
    }
  }

  // ---- values up to field order ----

  // What dict keys guarantee, at every depth.
  predicate WellFormed(v: Value) {
    match v
    case Arr(items) => forall i :: 0 <= i < |items| ==> WellFormed(items[i])
    case Obj(fields) => DistinctKeys(fields) && forall i :: 0 <= i < |fields| ==> WellFormed(fields[i].1)
    case _ => true
  }

  // Equality of values, with objects compared as dictionaries.
  ghost predicate Same(a: Value, b: Value)
    decreases a, 0
  {
    match a
    case Arr(items) => b.Arr? && |b.items| == |items| && forall i :: 0 <= i < |items| ==> Same(items[i], b.items[i])
    case Obj(fields) =>
      b.Obj? && SameFields(fields, b.fields)
    case _ => a == b
  }

  ghost predicate SameFields(f: seq<Field>, g: seq<Field>)
    decreases f, 1
  {
    (forall i :: 0 <= i < |f| ==> MatchedIn(f[i], g)) && (forall j :: 0 <= j < |g| ==> MatchedBy(f, g[j]))
  }

  ghost predicate MatchedIn(x: Field, g: seq<Field>)
    decreases x, 1
  {
    exists j :: 0 <= j < |g| && SameField(x, g[j])
  }

  ghost predicate MatchedBy(f: seq<Field>, y: Field)
    decreases f, 0
  {
    exists i :: 0 <= i < |f| && SameField(f[i], y)
  }

  ghost predicate SameField(f: Field, g: Field)
    decreases f, 0
  {
    f.0 == g.0 && Same(f.1, g.1)
  }

  lemma SameIs(a: Value, b: Value, f: Field, g: Field)
    ensures !a.Arr? && !a.Obj? ==> (Same(a, b) <==> a == b)
    ensures a.Obj? && b.Obj? ==> (Same(a, b) <==> SameFields(a.fields, b.fields))
    ensures SameField(f, g) <==> f.0 == g.0 && Same(f.1, g.1)
  {}

  function Normal(v: Value): Value {
    match v
    case Arr(items) => Arr(NormalItems(items))
    case Obj(fields) => Obj(Sort(NormalFields(fields)))
    case _ => v
  }

  function NormalItems(items: seq<Value>): (r: seq<Value>)
    ensures |r| == |items| && forall i :: 0 <= i < |items| ==> r[i] == Normal(items[i])
  {
    seq(|items|, i requires 0 <= i < |items| => Normal(items[i]))
  }

  function NormalFields(fields: seq<Field>): (r: seq<Field>)
    ensures |r| == |fields| && forall i :: 0 <= i < |fields| ==> r[i] == NormalField(fields[i])
  {
    seq(|fields|, i requires 0 <= i < |fields| => NormalField(fields[i]))
  }

  function NormalField(f: Field): Field { (f.0, Normal(f.1)) }

  // dumps(value, sort_keys=True, separators=(",", ":"), ensure_ascii=True)
  function Dumps(v: Value): string { Write(Normal(v)) }

  lemma {:induction false} SameIsNormalEqual(a: Value, b: Value)
    requires WellFormed(a) && WellFormed(b)
    ensures Same(a, b) <==> Normal(a) == Normal(b)
    decreases a
  {
    if a.Arr? && b.Arr? {
      forall i | 0 <= i < |a.items| && i < |b.items|
        ensures Same(a.items[i], b.items[i]) <==> Normal(a.items[i]) == Normal(b.items[i]) {
        SameIsNormalEqual(a.items[i], b.items[i]);
      }
    } else if a.Obj? && b.Obj? {
      forall i, j | 0 <= i < |a.fields| && 0 <= j < |b.fields|
        ensures SameField(a.fields[i], b.fields[j]) <==> NormalField(a.fields[i]) == NormalField(b.fields[j]) {
        SameIsNormalEqual(a.fields[i].1, b.fields[j].1);
      }
      SameObjectsSort(a.fields, b.fields);
      SortedObjectsSame(a.fields, b.fields);
    }
  }

  ghost predicate Agree(f: seq<Field>, g: seq<Field>) {
    forall i, j :: 0 <= i < |f| && 0 <= j < |g| ==> (SameField(f[i], g[j]) <==> NormalField(f[i]) == NormalField(g[j]))
  }

  lemma SameObjectsSort(f: seq<Field>, g: seq<Field>)
    requires DistinctKeys(f) && DistinctKeys(g) && Agree(f, g)
    ensures Same(Obj(f), Obj(g)) ==> Sort(NormalFields(f)) == Sort(NormalFields(g))
  {
    hide SameField, NormalField;
    var nf, ng := NormalFields(f), NormalFields(g);
    SameIs(Obj(f), Obj(g), ("", Null), ("", Null));
    hide Same, MatchedIn, MatchedBy;
    if SameFields(f, g) {
      NormalFieldsMatch(f, g);
      KeysStay(f);
      KeysStay(g);
      hide SameFields, Agree;
      SortSorts(nf);
      SortSorts(ng);
      forall x ensures x in Sort(nf) <==> x in Sort(ng) { SortHas(nf, x); SortHas(ng, x); }
      SortedIsUnique(Sort(nf), Sort(ng));
    }
  }

  lemma NormalFieldsMatch(f: seq<Field>, g: seq<Field>)
    requires Agree(f, g) && SameFields(f, g)
    ensures forall x :: x in NormalFields(f) <==> x in NormalFields(g)
  {
    hide Same, SameField, MatchedIn, MatchedBy, NormalField, Agree;
    var nf, ng := NormalFields(f), NormalFields(g);
    forall x | x in nf ensures x in ng {
      var i :| 0 <= i < |nf| && nf[i] == x;
      MatchIsNormal(f, g, i);
    }
    forall x | x in ng ensures x in nf {
      var j :| 0 <= j < |ng| && ng[j] == x;
      MatcherIsNormal(f, g, j);
    }
  }

  lemma MatchIsNormal(f: seq<Field>, g: seq<Field>, i: nat)
    requires Agree(f, g) && i < |f| && MatchedIn(f[i], g)
    ensures NormalFields(f)[i] in NormalFields(g)
  {
    hide SameField, NormalField, Same;
    var j :| 0 <= j < |g| && SameField(f[i], g[j]);
    assert NormalFields(g)[j] == NormalFields(f)[i];
  }

  lemma MatcherIsNormal(f: seq<Field>, g: seq<Field>, j: nat)
    requires Agree(f, g) && j < |g| && MatchedBy(f, g[j])
    ensures NormalFields(g)[j] in NormalFields(f)
  {
    hide SameField, NormalField, Same;
    var i :| 0 <= i < |f| && SameField(f[i], g[j]);
    assert NormalFields(f)[i] == NormalFields(g)[j];
  }

  lemma KeysStay(f: seq<Field>)
    requires DistinctKeys(f)
    ensures DistinctKeys(NormalFields(f))
  {}

  lemma SortedObjectsSame(f: seq<Field>, g: seq<Field>)
    requires Agree(f, g)
    ensures Sort(NormalFields(f)) == Sort(NormalFields(g)) ==> Same(Obj(f), Obj(g))
  {
    hide SameField, NormalField;
    var nf, ng := NormalFields(f), NormalFields(g);
    SameIs(Obj(f), Obj(g), ("", Null), ("", Null));
    hide Same;
    if Sort(nf) == Sort(ng) {
      forall x ensures x in nf <==> x in ng { SortHas(nf, x); SortHas(ng, x); }
      forall i | 0 <= i < |f| ensures MatchedIn(f[i], g) {
        assert nf[i] in ng;
        var j :| 0 <= j < |ng| && ng[j] == nf[i];
        assert SameField(f[i], g[j]);
      }
      forall j | 0 <= j < |g| ensures MatchedBy(f, g[j]) {
        assert ng[j] in nf;
        var i :| 0 <= i < |nf| && nf[i] == ng[j];
        assert SameField(f[i], g[j]);
      }
    }
  }

  // The canonical text forgets the order of fields, and nothing else.
  lemma CanonicalIdentifies(a: Value, b: Value)
    requires WellFormed(a) && WellFormed(b)
    ensures Dumps(a) == Dumps(b) <==> Same(a, b)
  {
    SameIsNormalEqual(a, b);
    if Dumps(a) == Dumps(b) {
      assert Write(Normal(a)) + "" == Write(Normal(b)) + "";
      WriteIdentifies(Normal(a), "", Normal(b), "");
    }
  }
}
