/** How far the argument checker goes beyond the standard (`app/mcp/validation.py`): on
    which definitions the two agree on every value, and exactly which values are accepted
    that do not conform. */
module SchemaStandard {
  import opened Json
  import opened SchemaValidation

  const TYPE_NAMES: set<string> := {"null", "boolean", "integer", "number", "string", "array", "object"}

  // -------------------------------------------------------- equality of the language --

  /** Equality as the language of the program has it: `True == 1`, also inside lists and
      dictionaries, whose order of keys does not count. */
  predicate PythonEqual(a: Json, b: Json)
    decreases a
  {
    match a
    case Null => b.Null?
    case Bool(x) => (b.Bool? && b.b == x) || (b.Num? && b.n == if x then 1 else 0)
    case Num(n) => (b.Num? && b.n == n) || (b.Bool? && n == if b.b then 1 else 0)
    case Str(s) => b.Str? && b.s == s
    case Arr(xs) => b.Arr? && |xs| == |b.items| && forall i :: 0 <= i < |xs| ==> PythonEqual(xs[i], b.items[i])
    case Obj(fs) =>
      && b.Obj?
      && (forall g :: g in b.fields ==> Find(fs, g.key).Some?)
      && (forall i :: 0 <= i < |fs| ==>
            var r := Find(b.fields, fs[i].key); r.Some? && PythonEqual(fs[i].value, r.value))
  }

  lemma {:induction false} LooseIsPythonEqual(a: Json, b: Json)
    ensures LooselyEqual(a, b) <==> PythonEqual(a, b)
    decreases a
  {
    match a
    case Arr(xs) => if b.Arr? && |xs| == |b.items| { ListsLooselyEqual(xs, b.items); }
    case Obj(fs) => if b.Obj? { ObjectsLooselyEqual(fs, b.fields); }
    case _ =>
  }

  lemma {:induction false} ListsLooselyEqual(xs: seq<Json>, ys: seq<Json>)
    requires |xs| == |ys|
    ensures LooselyEqual(Arr(xs), Arr(ys)) <==> PythonEqual(Arr(xs), Arr(ys))
    decreases xs
  {
    forall i | 0 <= i < |xs| ensures LooselyEqual(xs[i], ys[i]) <==> PythonEqual(xs[i], ys[i]) {
      LooseIsPythonEqual(xs[i], ys[i]);
    }
    var xi, yi := BoolsAsInts(Arr(xs)).items, BoolsAsInts(Arr(ys)).items;
    assert forall i :: 0 <= i < |xs| ==> (Equiv(xi[i], yi[i]) <==> LooselyEqual(xs[i], ys[i]));
  }

  function Keys(fs: seq<Field>): set<string> { set f | f in fs :: f.key }

  lemma FoundExactlyWhenKey(fs: seq<Field>, key: string)
    ensures Find(fs, key).Some? <==> key in Keys(fs)
  {
  }

  lemma CoveredExactlyWhen(gs: seq<Field>, fs: seq<Field>)
    ensures (forall g :: g in gs ==> Find(fs, g.key).Some?) <==> Keys(gs) <= Keys(fs)
  {
    forall g | g in gs ensures Find(fs, g.key).Some? <==> g.key in Keys(fs) { FoundExactlyWhenKey(fs, g.key); }
  }

  lemma KeysAsInts(fs: seq<Field>)
    ensures Keys(FieldsAsInts(fs)) == Keys(fs)
  {
    var fi := FieldsAsInts(fs);
    forall key | key in Keys(fs) ensures key in Keys(fi) {
      var i :| 0 <= i < |fs| && fs[i].key == key;
      assert fi[i] in fi;
    }
    forall key | key in Keys(fi) ensures key in Keys(fs) {
      var i :| 0 <= i < |fi| && fi[i].key == key;
      assert fs[i] in fs;
    }
  }

  /** One member agrees. */
  predicate MemberLoose(f: Field, gs: seq<Field>) {
    var r := Find(gs, f.key); r.Some? && LooselyEqual(f.value, r.value)
  }

  predicate MemberEqual(f: Field, gs: seq<Field>)
    decreases f, 0
  {
    var r := Find(gs, f.key); r.Some? && PythonEqual(f.value, r.value)
  }

  lemma LooseObjects(fs: seq<Field>, gs: seq<Field>)
    ensures LooselyEqual(Obj(fs), Obj(gs)) <==>
              Keys(gs) <= Keys(fs) && forall i :: 0 <= i < |fs| ==> MemberLoose(fs[i], gs)
  {
    CoveredExactlyWhen(FieldsAsInts(gs), FieldsAsInts(fs));
    KeysAsInts(fs);
    KeysAsInts(gs);
    forall i | 0 <= i < |fs|
      ensures MemberLoose(fs[i], gs) <==>
                var r := Find(FieldsAsInts(gs), fs[i].key); r.Some? && Equiv(BoolsAsInts(fs[i].value), r.value)
    {
      FindAsInts(gs, fs[i].key);
    }
  }

  lemma {:induction false} ObjectsLooselyEqual(fs: seq<Field>, gs: seq<Field>)
    ensures LooselyEqual(Obj(fs), Obj(gs)) <==> PythonEqual(Obj(fs), Obj(gs))
    decreases fs
  {
    LooseObjects(fs, gs);
    CoveredExactlyWhen(gs, fs);
    forall i | 0 <= i < |fs| ensures MemberLoose(fs[i], gs) <==> MemberEqual(fs[i], gs) {
      var r := Find(gs, fs[i].key);
      if r.Some? { LooseIsPythonEqual(fs[i].value, r.value); }
    }
  }

  // --------------------------------------------------- definitions without alternatives --

  /** What the checker refuses: a wrong type, if it is given as one of the seven names; a
      size or range; a value that equals none of the enumerated ones. */
  ghost predicate Violates(v: Json, d: Schema) {
    || (d.typ.Single? && d.typ.name in TYPE_NAMES && d.typ.name !in TypesOf(v))
    || OutOfRange(v, d)
    || (d.enum.Some? && forall e :: e in d.enum.value ==> !PythonEqual(v, e))
  }

  /** What it lets pass against the standard: a value enumerated only as a boolean for an
      integer or the other way; a list of types, or a name that is none; a keyword it does
      not know; what a reference left unfollowed asks for. */
  ghost predicate PassesUnchecked(
    v: Json, d: Schema, defs: Defs, rank: map<string, nat>, others: OtherKeywords)
    requires Grounded(defs, rank)
  {
    || (d.enum.Some? && forall e :: e in d.enum.value ==> !Equiv(v, e))
    || (d.typ.Several? && forall n :: n in d.typ.names ==> n !in TypesOf(v))
    || (d.typ.Single? && d.typ.name !in TYPE_NAMES)
    || !others(d, v)
    || (d.ref.Some? && d.ref.value in defs && !Conforms(v, defs[d.ref.value], defs, rank, others))
  }

  lemma HasTypeExactlyWhen(v: Json, name: string)
    ensures HasType(v, name) <==> name !in TYPE_NAMES || name in TypesOf(v)
  {
  }

  lemma WithinBoundsExactlyWhen(v: Json, d: Schema)
    ensures WithinBounds(v, d) <==> !OutOfRange(v, d)
  {
  }

  lemma InEnumExactlyWhen(v: Json, d: Schema)
    ensures InEnum(v, d) <==> (d.enum.Some? ==> exists e :: e in d.enum.value && PythonEqual(v, e))
  {
    if d.enum.Some? {
      forall e | e in d.enum.value ensures LooselyEqual(v, e) <==> PythonEqual(v, e) { LooseIsPythonEqual(v, e); }
    }
  }

  lemma EnumeratedIsEqual(v: Json, d: Schema)
    requires d.enum.Some? && exists e :: e in d.enum.value && Equiv(v, e)
    ensures exists e :: e in d.enum.value && PythonEqual(v, e)
  {
    var e :| e in d.enum.value && Equiv(v, e);
    EquivIsLoose(v, e);
    LooseIsPythonEqual(v, e);
  }

  lemma KeywordsMetExactlyWhen(v: Json, d: Schema)
    ensures MeetsKeywords(v, d) <==> !Violates(v, d)
  {
    InEnumExactlyWhen(v, d);
    WithinBoundsExactlyWhen(v, d);
    if d.typ.Single? { HasTypeExactlyWhen(v, d.typ.name); }
  }

  /** The standard wants of the keywords of a definition that they are neither violated nor
      pass unchecked. */
  lemma OwnKeywordsExactly(v: Json, d: Schema, defs: Defs, rank: map<string, nat>, others: OtherKeywords)
    requires Grounded(defs, rank)
    ensures !Violates(v, d) && !PassesUnchecked(v, d, defs, rank, others) <==>
              && OwnKeywords(v, d, others)
              && (d.ref.Some? && d.ref.value in defs ==> Conforms(v, defs[d.ref.value], defs, rank, others))
  {
    if d.enum.Some? && exists e :: e in d.enum.value && Equiv(v, e) { EnumeratedIsEqual(v, d); }
  }

  /** For every value: the checker accepts exactly what violates nothing it checks; the
      standard wants, besides, that nothing passes unchecked. */
  lemma LeafAcceptsExactly(v: Json, d: Schema, defs: Defs, rank: map<string, nat>, others: OtherKeywords)
    requires Grounded(defs, rank) && !HasBranches(d)
    ensures Acyclic(defs, rank)
    ensures AcceptsResolved(v, d, defs, rank) <==> !Violates(v, d)
    ensures Conforms(v, d, defs, rank, others) <==>
              !Violates(v, d) && !PassesUnchecked(v, d, defs, rank, others)
  {
    GroundedIsAcyclic(defs, rank);
    KeywordsMetExactlyWhen(v, d);
    OwnKeywordsExactly(v, d, defs, rank, others);
  }

  // ------------------------------------------------------ definitions with alternatives --

  /** The alternatives that are tried: those of `anyOf` if it has any, or else those of `oneOf`. */
  predicate Tried(d: Schema, b: Schema) {
    || (d.anyOf.Listed? && b in d.anyOf.branches)
    || ((d.anyOf.Absent? || d.anyOf.branches == []) && d.oneOf.Listed? && b in d.oneOf.branches)
  }

  /** An alternative with at most two references followed. */
  function TwiceResolved(b: Schema, defs: Defs): Schema {
    var c := if b.ref.Some? && b.ref.value in defs then defs[b.ref.value] else b;
    if c.ref.Some? && c.ref.value in defs then defs[c.ref.value] else c
  }

  /** For every value: a union is accepted exactly if one of the tried alternatives is, and
      whatever else stands beside it. */
  lemma UnionAcceptsExactly(v: Json, d: Schema, defs: Defs, rank: map<string, nat>)
    requires Acyclic(defs, rank) && HasBranches(d)
    ensures AcceptsResolved(v, d, defs, rank) <==>
              exists b :: Tried(d, b) && AcceptsResolved(v, TwiceResolved(b, defs), defs, rank)
  {
    forall b ensures Tried(d, b) <==> b in Branches(d) { }
    forall b ensures TwiceResolved(b, defs) == ResolveRef(ResolveRef(b, defs), defs) { }
  }

  /** A property is accepted as the definition it refers to, one reference deep. */
  lemma PropertyAcceptsExactly(v: Json, d: Schema, defs: Defs, rank: map<string, nat>)
    requires Acyclic(defs, rank)
    ensures Accepts(v, d, defs, rank) <==>
              AcceptsResolved(v, if d.ref.Some? && d.ref.value in defs then defs[d.ref.value] else d, defs, rank)
  {
  }

  // --------------------------------------------- where the checker and the standard agree --

  /** No boolean, and no number that one counts as, at any depth. */
  ghost predicate Sharp(e: Json) {
    match e
    case Bool(_) => false
    case Num(n) => n != 0 && n != 1
    case Arr(xs) => forall i :: 0 <= i < |xs| ==> Sharp(xs[i])
    case Obj(fs) => forall i :: 0 <= i < |fs| ==> Sharp(fs[i].value)
    case _ => true
  }

  lemma {:induction false} SharpIsStrict(v: Json, e: Json)
    requires Sharp(e) && PythonEqual(v, e)
    ensures Equiv(v, e)
    decreases v
  {
    match v
    case Arr(xs) => forall i | 0 <= i < |xs| { SharpIsStrict(xs[i], e.items[i]); }
    case Obj(fs) =>
      forall i | 0 <= i < |fs| ensures var r := Find(e.fields, fs[i].key); r.Some? && Equiv(fs[i].value, r.value) {
        var r := Find(e.fields, fs[i].key);
        var j :| 0 <= j < |e.fields| && e.fields[j] == Field(fs[i].key, r.value);
        SharpIsStrict(fs[i].value, r.value);
      }
    case _ =>
  }

  /** The definition asks for nothing but what the reference it holds asks for. */
  ghost predicate RefersOnly(d: Schema, defs: Defs, others: OtherKeywords) {
    && d.ref.Some? && d.ref.value in defs && d == ANYTHING.(ref := d.ref)
    && forall v :: others(d, v)
  }

  ghost predicate PlainLeaf(d: Schema, others: OtherKeywords) {
    && d.ref.None? && !HasBranches(d) && !d.typ.Several?
    && (d.typ.Single? ==> d.typ.name in TYPE_NAMES)
    && (d.enum.Some? ==> forall e :: e in d.enum.value ==> Sharp(e))
    && forall v :: others(d, v)
  }

  /** What type hints are turned into: a single type with its ranges, an enumeration, or
      `anyOf` over such definitions or references to such, and nothing beside. */
  ghost predicate Plain(d: Schema, defs: Defs, rank: map<string, nat>, others: OtherKeywords)
    requires Grounded(defs, rank)
    decreases StandardLevel(d, defs, rank), d
  {
    || PlainLeaf(d, others)
    || (&& d.anyOf.Listed? && d == ANYTHING.(anyOf := d.anyOf) && (forall v :: others(d, v))
        && forall b :: b in d.anyOf.branches ==>
             (StandardLevelBounds(d.anyOf.branches, b, defs, rank);
              Plain(b, defs, rank, others)
              || (RefersOnly(b, defs, others) && Plain(defs[b.ref.value], defs, rank, others))))
  }

  lemma PlainLeafAgrees(v: Json, d: Schema, defs: Defs, rank: map<string, nat>, others: OtherKeywords)
    requires Grounded(defs, rank) && PlainLeaf(d, others)
    ensures Acyclic(defs, rank) && (AcceptsResolved(v, d, defs, rank) <==> Conforms(v, d, defs, rank, others))
  {
    LeafAcceptsExactly(v, d, defs, rank, others);
    if d.enum.Some? {
      forall e | e in d.enum.value && PythonEqual(v, e) ensures Equiv(v, e) { SharpIsStrict(v, e); }
    }
  }

  lemma RefersOnlyConforms(v: Json, d: Schema, defs: Defs, rank: map<string, nat>, others: OtherKeywords)
    requires Grounded(defs, rank) && RefersOnly(d, defs, others)
    ensures Conforms(v, d, defs, rank, others) <==> Conforms(v, defs[d.ref.value], defs, rank, others)
  {
  }

  lemma PlainHasNoRef(d: Schema, defs: Defs, rank: map<string, nat>, others: OtherKeywords)
    requires Grounded(defs, rank) && Plain(d, defs, rank, others)
    ensures d.ref.None?
  {
  }

  /** On such definitions the checker accepts exactly what conforms. */
  lemma {:induction false} PlainAgrees(
    v: Json, d: Schema, defs: Defs, rank: map<string, nat>, others: OtherKeywords)
    requires Grounded(defs, rank) && Plain(d, defs, rank, others)
    ensures Acyclic(defs, rank) && (AcceptsResolved(v, d, defs, rank) <==> Conforms(v, d, defs, rank, others))
    decreases StandardLevel(d, defs, rank), d, 0
  {
    GroundedIsAcyclic(defs, rank);
    if PlainLeaf(d, others) {
      PlainLeafAgrees(v, d, defs, rank, others);
    } else {
      UnionAcceptsExactly(v, d, defs, rank);
      PlainUnionConforms(v, d, defs, rank, others);
      forall b | b in d.anyOf.branches
        ensures AcceptsResolved(v, TwiceResolved(b, defs), defs, rank) <==> Conforms(v, b, defs, rank, others)
      {
        StandardLevelBounds(d.anyOf.branches, b, defs, rank);
        PlainAlternativeAgrees(v, b, defs, rank, others);
      }
    }
  }

  lemma PlainUnionConforms(v: Json, d: Schema, defs: Defs, rank: map<string, nat>, others: OtherKeywords)
    requires Grounded(defs, rank) && d.anyOf.Listed? && d == ANYTHING.(anyOf := d.anyOf) && others(d, v)
    ensures Conforms(v, d, defs, rank, others) <==>
              exists b :: b in d.anyOf.branches && Conforms(v, b, defs, rank, others)
  {
  }

  lemma PlainAlternativeAgrees(
    v: Json, b: Schema, defs: Defs, rank: map<string, nat>, others: OtherKeywords)
    requires Grounded(defs, rank)
    requires Plain(b, defs, rank, others)
             || (RefersOnly(b, defs, others) && Plain(defs[b.ref.value], defs, rank, others))
    ensures Acyclic(defs, rank)
    ensures AcceptsResolved(v, TwiceResolved(b, defs), defs, rank) <==> Conforms(v, b, defs, rank, others)
    decreases StandardLevel(b, defs, rank), b, 1
  {
    if Plain(b, defs, rank, others) {
      PlainHasNoRef(b, defs, rank, others);
      PlainAgrees(v, b, defs, rank, others);
    } else {
      PlainHasNoRef(defs[b.ref.value], defs, rank, others);
      PlainAgrees(v, defs[b.ref.value], defs, rank, others);
      RefersOnlyConforms(v, b, defs, rank, others);
    }
  }

  /** The same for a whole property, which may be a reference to such a definition. */
  lemma PlainPropertyAgrees(v: Json, d: Schema, defs: Defs, rank: map<string, nat>, others: OtherKeywords)
    requires Grounded(defs, rank)
    requires Plain(d, defs, rank, others)
             || (RefersOnly(d, defs, others) && Plain(defs[d.ref.value], defs, rank, others))
    ensures Acyclic(defs, rank) && (Accepts(v, d, defs, rank) <==> Conforms(v, d, defs, rank, others))
  {
    if Plain(d, defs, rank, others) {
      PlainHasNoRef(d, defs, rank, others);
      PlainAgrees(v, d, defs, rank, others);
    } else {
      PlainAgrees(v, defs[d.ref.value], defs, rank, others);
      RefersOnlyConforms(v, d, defs, rank, others);
    }
  }

  /** Every property is such a definition or refers to one. */
  ghost predicate PlainTool(schema: ToolSchema, rank: map<string, nat>, others: OtherKeywords)
    requires Grounded(schema.defs, rank)
  {
    forall n :: n in schema.properties ==>
      var d := schema.properties[n];
      Plain(d, schema.defs, rank, others)
      || (RefersOnly(d, schema.defs, others) && Plain(schema.defs[d.ref.value], schema.defs, rank, others))
  }

  lemma SuppliedExactlyWhen(args: seq<Field>, name: string)
    requires UniqueKeys(args)
    ensures Supplied(args, name) <==> exists f :: f in args && f.key == name && f.value != Null
  {
    if exists f :: f in args && f.key == name && f.value != Null {
      var f :| f in args && f.key == name && f.value != Null;
      var i :| 0 <= i < |args| && args[i] == f;
      FindHit(args, i);
    }
  }

  /** A whole call of a tool with such properties is accepted exactly if every required
      argument is given and not null, every argument is named if any is, and every one
      that is named and not null conforms. */
  lemma PlainCallAcceptsExactly(
    args: seq<Field>, schema: ToolSchema, rank: map<string, nat>, others: OtherKeywords)
    requires Grounded(schema.defs, rank) && PlainTool(schema, rank, others) && UniqueKeys(args)
    ensures Acyclic(schema.defs, rank)
    ensures AcceptsCall(args, schema, rank) <==>
              && (forall n :: n in schema.required ==> exists f :: f in args && f.key == n && f.value != Null)
              && (schema.properties == map[] || forall f :: f in args ==> f.key in schema.properties)
              && (forall f :: f in args && f.value != Null && f.key in schema.properties ==>
                    Conforms(f.value, schema.properties[f.key], schema.defs, rank, others))
  {
    GroundedIsAcyclic(schema.defs, rank);
    forall n | n in schema.required
      ensures Supplied(args, n) <==> exists f :: f in args && f.key == n && f.value != Null
    {
      SuppliedExactlyWhen(args, n);
    }
    forall f | f in args && f.key in schema.properties
      ensures Accepts(f.value, schema.properties[f.key], schema.defs, rank) <==>
                Conforms(f.value, schema.properties[f.key], schema.defs, rank, others)
    {
      PlainPropertyAgrees(f.value, schema.properties[f.key], schema.defs, rank, others);
    }
  }

  /** Every alternative, tried or not, is such a definition or refers to one. */
  ghost predicate PlainAlternatives(d: Schema, defs: Defs, rank: map<string, nat>, others: OtherKeywords)
    requires Grounded(defs, rank)
  {
    forall b :: (d.anyOf.Listed? && b in d.anyOf.branches) || (d.oneOf.Listed? && b in d.oneOf.branches) ==>
      Plain(b, defs, rank, others)
      || (RefersOnly(b, defs, others) && Plain(defs[b.ref.value], defs, rank, others))
  }

  /** For every value and any union of such definitions: it is accepted exactly if it
      conforms to an alternative that is tried. */
  lemma UnionOfPlainAcceptsExactly(
    v: Json, d: Schema, defs: Defs, rank: map<string, nat>, others: OtherKeywords)
    requires Grounded(defs, rank) && HasBranches(d) && PlainAlternatives(d, defs, rank, others)
    ensures Acyclic(defs, rank)
    ensures AcceptsResolved(v, d, defs, rank) <==> exists b :: Tried(d, b) && Conforms(v, b, defs, rank, others)
  {
    GroundedIsAcyclic(defs, rank);
    UnionAcceptsExactly(v, d, defs, rank);
    forall b | Tried(d, b)
      ensures AcceptsResolved(v, TwiceResolved(b, defs), defs, rank) <==> Conforms(v, b, defs, rank, others)
    {
      PlainAlternativeAgrees(v, b, defs, rank, others);
    }
  }

  function Marks(bs: seq<Schema>, fit: Schema -> bool): seq<bool> {
    seq(|bs|, i requires 0 <= i < |bs| => fit(bs[i]))
  }

  predicate OnlyAt(fits: seq<bool>, i: nat) {
    i < |fits| && fits[i] && forall j :: 0 <= j < |fits| && j != i ==> !fits[j]
  }

  /** Exactly one of the alternatives fits. */
  ghost predicate OneFits(bs: seq<Schema>, fit: Schema -> bool) { exists i :: OnlyAt(Marks(bs, fit), i) }

  predicate SomeFits(bs: seq<Schema>, fit: Schema -> bool) { exists b :: b in bs && fit(b) }

  predicate NoTwoFit(bs: seq<Schema>, fit: Schema -> bool) {
    forall i, j :: 0 <= i < j < |bs| ==> !(fit(bs[i]) && fit(bs[j]))
  }

  lemma OneFitsExactlyWhen(bs: seq<Schema>, fit: Schema -> bool)
    ensures OneFits(bs, fit) <==> SomeFits(bs, fit) && NoTwoFit(bs, fit)
  {
    var fits := Marks(bs, fit);
    if OneFits(bs, fit) {
      var i: nat :| OnlyAt(fits, i);
      assert fit(bs[i]) && bs[i] in bs;
      assert forall j :: 0 <= j < |bs| ==> fits[j] == fit(bs[j]);
    }
    if SomeFits(bs, fit) && NoTwoFit(bs, fit) {
      var b :| b in bs && fit(b);
      var i :| 0 <= i < |bs| && bs[i] == b;
      assert OnlyAt(fits, i);
    }
  }

  /** Which alternatives the value conforms to. */
  ghost function Conforming(v: Json, defs: Defs, rank: map<string, nat>, others: OtherKeywords): Schema -> bool
    requires Grounded(defs, rank)
  {
    b => Grounded(defs, rank) && Conforms(v, b, defs, rank, others)
  }

  lemma ConformsByParts(v: Json, d: Schema, defs: Defs, rank: map<string, nat>, others: OtherKeywords)
    requires Grounded(defs, rank)
    ensures var fit := Conforming(v, defs, rank, others);
            Conforms(v, d, defs, rank, others) <==>
              && (d.ref.Some? && d.ref.value in defs ==> Conforms(v, defs[d.ref.value], defs, rank, others))
              && (d.anyOf.Listed? ==> SomeFits(d.anyOf.branches, fit))
              && (d.oneOf.Listed? ==> SomeFits(d.oneOf.branches, fit) && NoTwoFit(d.oneOf.branches, fit))
              && OwnKeywords(v, d, others)
  {
  }

  /** It conforms, besides, exactly if nothing beside the union is violated or passes
      unchecked, some alternative of `anyOf` fits, and one of `oneOf` and no other. */
  lemma UnionConformsExactly(v: Json, d: Schema, defs: Defs, rank: map<string, nat>, others: OtherKeywords)
    requires Grounded(defs, rank)
    ensures var fit := Conforming(v, defs, rank, others);
            Conforms(v, d, defs, rank, others) <==>
              && !Violates(v, d) && !PassesUnchecked(v, d, defs, rank, others)
              && (d.anyOf.Listed? ==> SomeFits(d.anyOf.branches, fit))
              && (d.oneOf.Listed? ==> OneFits(d.oneOf.branches, fit))
  {
    ConformsByParts(v, d, defs, rank, others);
    OwnKeywordsExactly(v, d, defs, rank, others);
    if d.oneOf.Listed? { OneFitsExactlyWhen(d.oneOf.branches, Conforming(v, defs, rank, others)); }
  }

  // ---------------------------------------------------- accepted against the standard --

  const TEXT := ANYTHING.(typ := Single("string"))

  /** Accepted, and not conforming whatever is made of unknown keywords. */
  ghost predicate AcceptedAnyway(v: Json, d: Schema, defs: Defs, rank: map<string, nat>) {
    && Grounded(defs, rank) && Acyclic(defs, rank) && Accepts(v, d, defs, rank)
    && forall others: OtherKeywords :: !Conforms(v, d, defs, rank, others)
  }

  const NONE: map<string, nat> := map[]

  /** `true` where only the integer 1 is enumerated. */
  lemma LooseBooleanIsAccepted()
    ensures AcceptedAnyway(Bool(true), ANYTHING.(enum := Some([Num(1)])), map[], NONE)
  {
    var d := ANYTHING.(enum := Some([Num(1)]));
    assert Num(1) in d.enum.value && LooselyEqual(Bool(true), Num(1));
  }

  /** A number where a list of types names texts only. */
  lemma SeveralTypesAreNotChecked()
    ensures AcceptedAnyway(Num(5), ANYTHING.(typ := Several(["string"])), map[], NONE)
  {
  }

  /** A number beside a union that it fits, where the type beside the union is text. */
  lemma SiblingsAreNotChecked()
    ensures AcceptedAnyway(Num(5), TEXT.(anyOf := Listed([ANYTHING])), map[], NONE)
  {
    var d := TEXT.(anyOf := Listed([ANYTHING]));
    var none: Defs := map[];
    assert d.anyOf.branches[0] == ANYTHING && Tried(d, ANYTHING);
    UnionAcceptsExactly(Num(5), d, none, NONE);
    assert AcceptsResolved(Num(5), TwiceResolved(ANYTHING, none), none, NONE);
    assert d.ref.None?;
    assert ResolveRef(d, none) == d;
    forall others: OtherKeywords ensures !Conforms(Num(5), d, none, NONE, others) {
      assert !OwnKeywords(Num(5), d, others);
    }
  }

  /** A number, behind two references, where the second leads to text. */
  lemma SecondReferenceIsNotFollowed()
    ensures var defs: Defs := map["a" := ANYTHING.(ref := Some("b")), "b" := TEXT];
            AcceptedAnyway(Num(5), ANYTHING.(ref := Some("a")), defs, map["a" := 1, "b" := 0])
  {
    var defs: Defs := map["a" := ANYTHING.(ref := Some("b")), "b" := TEXT];
    var rank := map["a" := 1, "b" := 0];
    assert Grounded(defs, rank) && Acyclic(defs, rank);
    forall others: OtherKeywords ensures !Conforms(Num(5), ANYTHING.(ref := Some("a")), defs, rank, others) {
      assert !Conforms(Num(5), TEXT, defs, rank, others);
      assert !Conforms(Num(5), defs["a"], defs, rank, others);
    }
  }

  /** A value that fits both alternatives of a `oneOf`. */
  lemma TwoFitsAreAccepted(v: Json, others: OtherKeywords)
    requires others(ANYTHING, v)
    ensures var d := ANYTHING.(oneOf := Listed([ANYTHING, ANYTHING]));
            && Grounded(map[], NONE) && Acyclic(map[], NONE) && Accepts(v, d, map[], NONE)
            && !Conforms(v, d, map[], NONE, others)
  {
    var d := ANYTHING.(oneOf := Listed([ANYTHING, ANYTHING]));
    assert Conforms(v, d.oneOf.branches[0], map[], NONE, others);
    assert Conforms(v, d.oneOf.branches[1], map[], NONE, others);
    assert ANYTHING in Branches(d);
  }

  /** A value that a keyword the checker does not know excludes. */
  lemma UnknownKeywordIsNotChecked(v: Json, others: OtherKeywords)
    requires var d := ANYTHING.(others := [Field("const", Str("circle"))]); !others(d, v)
    ensures var d := ANYTHING.(others := [Field("const", Str("circle"))]);
            && Grounded(map[], NONE) && Acyclic(map[], NONE) && Accepts(v, d, map[], NONE)
            && !Conforms(v, d, map[], NONE, others)
  {
  }
}
