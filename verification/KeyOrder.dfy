/** The order of object members under `sort_keys=True`: strings compare code point by
    code point, and an object with distinct keys has exactly one sorted form. */
module KeyOrder {
  import opened Json

  predicate Before(a: string, b: string) {
    b != "" && (a == "" || a[0] < b[0] || (a[0] == b[0] && Before(a[1..], b[1..])))
  }

  lemma {:induction false} BeforeTrans(a: string, b: string, c: string)
    requires Before(a, b) && Before(b, c)
    ensures Before(a, c)
  {
    if a == "" || b[0] != a[0] || c[0] != b[0] {
    } else {
      BeforeTrans(a[1..], b[1..], c[1..]);
    }
  }

  lemma {:induction false} BeforeTotal(a: string, b: string)
    ensures a == b || Before(a, b) || Before(b, a)
    ensures !(Before(a, b) && Before(b, a)) && !Before(a, a)
  {
    if a == "" {
    } else {
      BeforeTotal(a[1..], a[1..]);
      if b != "" && a[0] == b[0] {
        BeforeTotal(a[1..], b[1..]);
        if a[1..] == b[1..] { assert a == [a[0]] + a[1..] == [b[0]] + b[1..] == b; }
      }
    }
  }

  ghost predicate StrictlySorted(fs: seq<Field>) {
    forall i, j :: 0 <= i < j < |fs| ==> Before(fs[i].key, fs[j].key)
  }

  function Insert(f: Field, fs: seq<Field>): (r: seq<Field>)
    ensures forall g :: g in r <==> g == f || g in fs
  {
    if fs == [] || Before(f.key, fs[0].key) then
      assert ([f] + fs)[0] == f && forall g :: g in fs ==> g in [f] + fs;
      [f] + fs
    else
      var t := Insert(f, fs[1..]);
      assert forall g :: g in fs <==> g == fs[0] || g in fs[1..];
      [fs[0]] + t
  }

  function SortFields(fs: seq<Field>): (r: seq<Field>)
    ensures forall g :: g in r <==> g in fs
  {
    if fs == [] then []
    else
      assert forall g :: g in fs <==> g == fs[0] || g in fs[1..];
      Insert(fs[0], SortFields(fs[1..]))
  }

  lemma {:induction false} InsertSorted(f: Field, fs: seq<Field>)
    requires StrictlySorted(fs) && forall g :: g in fs ==> g.key != f.key
    ensures StrictlySorted(Insert(f, fs))
  {
    if fs == [] {
    } else {
      BeforeTotal(f.key, fs[0].key);
      if Before(f.key, fs[0].key) {
        forall j | 0 < j < |fs| ensures Before(f.key, fs[j].key) { BeforeTrans(f.key, fs[0].key, fs[j].key); }
      } else {
        InsertSorted(f, fs[1..]);
        var t := Insert(f, fs[1..]);
        forall j | 0 <= j < |t| ensures Before(fs[0].key, t[j].key) { assert t[j] in t; }
      }
    }
  }

  lemma {:induction false} SortFieldsSorted(fs: seq<Field>)
    requires UniqueKeys(fs)
    ensures StrictlySorted(SortFields(fs))
  {
    if fs == [] {
    } else {
      SortFieldsSorted(fs[1..]);
      InsertSorted(fs[0], SortFields(fs[1..]));
    }
  }

  // ---------------------------------------------------------- by code points --

  /** `a` comes first: the two agree up to some place, and there `a` ends or has the
      smaller code point. */
  ghost predicate Ascends(a: string, b: string) {
    exists k: nat :: FirstDifference(a, b, k)
  }

  predicate FirstDifference(a: string, b: string, k: nat) {
    && k <= |a| && k < |b| && a[..k] == b[..k]
    && (k == |a| || a[k] as int < b[k] as int)
  }

  lemma {:induction false} BeforeExactlyWhenAscending(a: string, b: string)
    ensures Before(a, b) <==> Ascends(a, b)
  {
    if b == "" {
    } else if a == "" || a[0] != b[0] {
      assert a[..0] == b[..0];
      if Before(a, b) { assert FirstDifference(a, b, 0); }
      if Ascends(a, b) {
        var k: nat :| FirstDifference(a, b, k);
        assert k > 0 ==> a[..k][0] == b[..k][0];
      }
    } else {
      BeforeExactlyWhenAscending(a[1..], b[1..]);
      if Ascends(a[1..], b[1..]) {
        var k: nat :| FirstDifference(a[1..], b[1..], k);
        assert a[..k + 1] == [a[0]] + a[1..][..k] && b[..k + 1] == [b[0]] + b[1..][..k];
        assert FirstDifference(a, b, k + 1);
      }
      if Ascends(a, b) {
        var k: nat :| FirstDifference(a, b, k);
        assert k > 0;
        assert a[1..][..k - 1] == a[..k][1..] && b[1..][..k - 1] == b[..k][1..];
        assert FirstDifference(a[1..], b[1..], k - 1);
      }
    }
  }

  /** In every object, at every depth, the keys ascend by code point. */
  ghost predicate KeysAscend(v: Json) {
    match v
    case Arr(xs) => forall i :: 0 <= i < |xs| ==> KeysAscend(xs[i])
    case Obj(fs) =>
      && (forall i, j :: 0 <= i < j < |fs| ==> Ascends(fs[i].key, fs[j].key))
      && forall i :: 0 <= i < |fs| ==> KeysAscend(fs[i].value)
    case _ => true
  }

  lemma {:induction false} SortedKeysAscend(v: Json)
    requires WellFormed(v)
    ensures KeysAscend(SortKeys(v))
  {
    match v
    case Arr(xs) => forall i | 0 <= i < |xs| { SortedKeysAscend(xs[i]); }
    case Obj(fs) =>
      forall i | 0 <= i < |fs| { SortedKeysAscend(fs[i].value); }
      var children := SortedChildren(fs);
      var sorted := SortFields(children);
      SortFieldsSorted(children);
      forall i, j | 0 <= i < j < |sorted| ensures Ascends(sorted[i].key, sorted[j].key) {
        BeforeExactlyWhenAscending(sorted[i].key, sorted[j].key);
      }
      forall i | 0 <= i < |sorted| ensures KeysAscend(sorted[i].value) { assert sorted[i] in children; }
    case _ =>
  }

  /** A sorted object is determined by the set of its members. */
  lemma {:induction false} SortedFormUnique(xs: seq<Field>, ys: seq<Field>)
    requires StrictlySorted(xs) && StrictlySorted(ys)
    requires forall g :: g in xs <==> g in ys
    ensures xs == ys
  {
    assert ys == [] || ys[0] in ys;
    if xs == [] {
    } else {
      assert xs[0] in xs;
      var k :| 0 <= k < |ys| && ys[k] == xs[0];
      var m :| 0 <= m < |xs| && xs[m] == ys[0];
      BeforeTotal(xs[0].key, ys[0].key);
      assert k == 0;
      forall g | true ensures g in xs[1..] <==> g in ys[1..] {
        TailMembers(xs, g);
        TailMembers(ys, g);
      }
      SortedFormUnique(xs[1..], ys[1..]);
    }
  }

  lemma TailMembers(xs: seq<Field>, g: Field)
    requires StrictlySorted(xs) && xs != []
    ensures g in xs[1..] <==> g in xs && g != xs[0]
  {
    BeforeTotal(g.key, g.key);
    if g in xs && g != xs[0] {
      var i :| 0 <= i < |xs| && xs[i] == g;
      assert xs[1..][i - 1] == g;
    }
  }

  /** The value with every object, at every depth, in sorted key order. */
  function SortKeys(v: Json): Json {
    match v
    case Arr(xs) => Arr(seq(|xs|, i requires 0 <= i < |xs| => SortKeys(xs[i])))
    case Obj(fs) => Obj(SortFields(SortedChildren(fs)))
    case _ => v
  }

  function SortedChildren(fs: seq<Field>): (r: seq<Field>)
    decreases fs
    ensures |r| == |fs|
    ensures forall i :: 0 <= i < |fs| ==> r[i].key == fs[i].key && r[i].value == SortKeys(fs[i].value)
  {
    seq(|fs|, i requires 0 <= i < |fs| => Field(fs[i].key, SortKeys(fs[i].value)))
  }

  lemma SameChildrenSortAlike(xs: seq<Field>, ys: seq<Field>)
    requires UniqueKeys(xs) && UniqueKeys(ys)
    requires (forall i :: 0 <= i < |xs| ==> xs[i] in ys) && forall j :: 0 <= j < |ys| ==> ys[j] in xs
    ensures SortFields(xs) == SortFields(ys)
  {
    SortFieldsSorted(xs);
    SortFieldsSorted(ys);
    SortedFormUnique(SortFields(xs), SortFields(ys));
  }

  lemma ChildrenSortAlike(fs: seq<Field>, gs: seq<Field>)
    requires UniqueKeys(fs) && UniqueKeys(gs)
    requires forall i :: 0 <= i < |fs| ==> HasKey(gs, fs[i].key)
    requires forall j :: 0 <= j < |gs| ==> HasKey(fs, gs[j].key)
    requires forall i, j :: 0 <= i < |fs| && 0 <= j < |gs| && fs[i].key == gs[j].key ==>
               SortKeys(fs[i].value) == SortKeys(gs[j].value)
    ensures SortFields(SortedChildren(fs)) == SortFields(SortedChildren(gs))
  {
    var na, nb := SortedChildren(fs), SortedChildren(gs);
    forall i | 0 <= i < |na| ensures na[i] in nb {
      var j :| 0 <= j < |gs| && gs[j].key == fs[i].key;
      assert nb[j] == na[i];
    }
    forall j | 0 <= j < |nb| ensures nb[j] in na {
      var i :| 0 <= i < |fs| && fs[i].key == gs[j].key;
      assert na[i] == nb[j];
    }
    SameChildrenSortAlike(na, nb);
  }

  predicate HasKey(fs: seq<Field>, key: string) { exists i :: 0 <= i < |fs| && fs[i].key == key }

  lemma SameKeysOfEquiv(a: Json, b: Json)
    requires a.Obj? && Equiv(a, b)
    ensures forall i :: 0 <= i < |a.fields| ==> HasKey(b.fields, a.fields[i].key)
    ensures forall j :: 0 <= j < |b.fields| ==> HasKey(a.fields, b.fields[j].key)
  {
    forall i | 0 <= i < |a.fields| ensures HasKey(b.fields, a.fields[i].key) {
      var r := Find(b.fields, a.fields[i].key);
      var j :| 0 <= j < |b.fields| && b.fields[j] == Field(a.fields[i].key, r.value);
    }
    forall j | 0 <= j < |b.fields| ensures HasKey(a.fields, b.fields[j].key) { assert b.fields[j] in b.fields; }
  }

  lemma {:induction false} EquivSortsAlike(a: Json, b: Json)
    requires WellFormed(a) && WellFormed(b) && Equiv(a, b)
    ensures SortKeys(a) == SortKeys(b)
    decreases a
  {
    match a
    case Arr(xs) => forall i | 0 <= i < |xs| { EquivSortsAlike(xs[i], b.items[i]); }
    case Obj(fs) =>
      var gs := b.fields;
      forall i, j | 0 <= i < |fs| && 0 <= j < |gs| && fs[i].key == gs[j].key
        ensures SortKeys(fs[i].value) == SortKeys(gs[j].value)
      {
        FindHit(gs, j);
        EquivSortsAlike(fs[i].value, gs[j].value);
      }
      SameKeysOfEquiv(a, b);
      ChildrenSortAlike(fs, gs);
    case _ =>
  }

  lemma {:induction false} SortedAlikeEquiv(a: Json, b: Json)
    requires WellFormed(a) && WellFormed(b) && SortKeys(a) == SortKeys(b)
    ensures Equiv(a, b)
    decreases a
  {
    match a
    case Arr(xs) =>
      forall i | 0 <= i < |xs| ensures Equiv(xs[i], b.items[i]) {
        assert SortKeys(a).items[i] == SortKeys(b).items[i];
        SortedAlikeEquiv(xs[i], b.items[i]);
      }
    case Obj(fs) =>
      var gs := b.fields;
      var na, nb := SortedChildren(fs), SortedChildren(gs);
      assert SortFields(na) == SortFields(nb);
      assert forall f :: f in na <==> f in SortFields(na);
      forall j | 0 <= j < |gs| ensures Find(fs, gs[j].key).Some? {
        assert nb[j] in nb;
        var i :| 0 <= i < |na| && na[i] == nb[j];
        assert fs[i] in fs;
      }
      forall i | 0 <= i < |fs|
        ensures var r := Find(gs, fs[i].key); r.Some? && Equiv(fs[i].value, r.value)
      {
        assert na[i] in na;
        var j :| 0 <= j < |nb| && nb[j] == na[i];
        FindHit(gs, j);
        SortedAlikeEquiv(fs[i].value, gs[j].value);
      }
    case _ =>
  }

  lemma SortedKeysAreUnique(fs: seq<Field>)
    requires StrictlySorted(fs)
    ensures UniqueKeys(fs)
  {
    forall i, j | 0 <= i < j < |fs| ensures fs[i].key != fs[j].key { BeforeTotal(fs[i].key, fs[j].key); }
  }

  /** Sorting changes nothing but the order of the keys. */
  lemma {:induction false} SortedIsEquiv(v: Json)
    requires WellFormed(v)
    ensures WellFormed(SortKeys(v)) && Equiv(SortKeys(v), v)
  {
    match v
    case Arr(xs) => forall i | 0 <= i < |xs| { SortedIsEquiv(xs[i]); }
    case Obj(fs) =>
      var children := SortedChildren(fs);
      var sorted := SortFields(children);
      forall i | 0 <= i < |fs| { SortedIsEquiv(fs[i].value); }
      SortFieldsSorted(children);
      SortedKeysAreUnique(sorted);
      forall i | 0 <= i < |sorted|
        ensures WellFormed(sorted[i].value)
        ensures var r := Find(fs, sorted[i].key); r.Some? && Equiv(sorted[i].value, r.value)
      {
        assert sorted[i] in children;
        var j :| 0 <= j < |children| && children[j] == sorted[i];
        FindHit(fs, j);
      }
      forall g | g in fs ensures Find(sorted, g.key).Some? {
        var j :| 0 <= j < |fs| && fs[j] == g;
        assert children[j] in children;
      }
    case _ =>
  }

  /** There is one arrangement of a payload whose keys ascend, and sorting finds it. */
  lemma AscendingFormIsUnique(v: Json, w: Json)
    requires WellFormed(v) && WellFormed(w) && Equiv(w, v) && KeysAscend(w)
    ensures SortKeys(v) == w
  {
    EquivSortsAlike(w, v);
    AscendingIsSorted(w);
  }

  lemma {:induction false} AscendingIsSorted(w: Json)
    requires WellFormed(w) && KeysAscend(w)
    ensures SortKeys(w) == w
  {
    match w
    case Arr(xs) => forall i | 0 <= i < |xs| { AscendingIsSorted(xs[i]); }
    case Obj(fs) =>
      forall i | 0 <= i < |fs| { AscendingIsSorted(fs[i].value); }
      assert SortedChildren(fs) == fs;
      forall i, j | 0 <= i < j < |fs| ensures Before(fs[i].key, fs[j].key) {
        BeforeExactlyWhenAscending(fs[i].key, fs[j].key);
      }
      SortFieldsSorted(fs);
      SortedFormUnique(SortFields(fs), fs);
    case _ =>
  }
}
