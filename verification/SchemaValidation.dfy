/** Pre-flight checking of tool arguments against a discovered JSON Schema
    (`app/mcp/validation.py`).  The checker is proved equivalent to a declarative
    reading of the keywords it supports, and never to refuse a value that the published
    standard accepts. */
module SchemaValidation {
  import opened Json

  datatype Alternatives = Absent | Listed(branches: seq<Schema>)

  datatype TypeKeyword = NoType | Single(name: string) | Several(names: seq<string>)

  /** A property definition.  `ref` is the name after `#/$defs/` of a local reference;
      any other reference is no reference to this checker.  `others` holds the keywords
      the checker does not know, as they stand in the schema. */
  datatype Schema = Schema(
    ref: Option<string>,
    anyOf: Alternatives,
    oneOf: Alternatives,
    enum: Option<seq<Json>>,
    typ: TypeKeyword,
    minimum: Option<int>,
    maximum: Option<int>,
    minLength: Option<int>,
    maxLength: Option<int>,
    minItems: Option<int>,
    maxItems: Option<int>,
    others: seq<Field>)

  type Defs = map<string, Schema>

  /** Finds the definition behind one level of `$ref`. */
  function ResolveRef(d: Schema, defs: Defs): Schema {
    if d.ref.Some? && d.ref.value in defs then defs[d.ref.value] else d
  }

  predicate HasBranches(d: Schema) { d.anyOf.Listed? || d.oneOf.Listed? }

  /** The alternatives tried: those of `anyOf`, or of `oneOf` when `anyOf` is absent or empty. */
  function Branches(d: Schema): (bs: seq<Schema>)
    ensures forall b :: b in bs ==> b < d
  {
    if d.anyOf.Listed? && d.anyOf.branches != [] then d.anyOf.branches
    else if d.oneOf.Listed? then d.oneOf.branches
    else []
  }

  // ------------------------------------------------------------ termination --

  ghost function MaxLevel(bs: seq<Schema>, defs: Defs, rank: map<string, nat>): nat {
    if bs == [] then 0
    else
      var l, m := BranchLevel(bs[0], defs, rank), MaxLevel(bs[1..], defs, rank);
      if l > m then l else m
  }

  /** How far the alternatives of a definition reach up the ranking of `$defs`. */
  ghost function Level(d: Schema, defs: Defs, rank: map<string, nat>): nat
    decreases d, 0
  {
    var a := if d.anyOf.Listed? then MaxLevel(d.anyOf.branches, defs, rank) else 0;
    var o := if d.oneOf.Listed? then MaxLevel(d.oneOf.branches, defs, rank) else 0;
    if a > o then a else o
  }

  ghost function BranchLevel(b: Schema, defs: Defs, rank: map<string, nat>): nat
    decreases b, 1
  {
    if b.ref.Some? && b.ref.value in defs && b.ref.value in rank then rank[b.ref.value] + 1
    else Level(b, defs, rank)
  }

  /** No cycle of the `$defs` graph passes through an alternative: `rank` does not rise
      along a plain reference and falls strictly along one inside `anyOf` or `oneOf`. */
  ghost predicate Acyclic(defs: Defs, rank: map<string, nat>) {
    forall n :: n in defs ==>
      && n in rank
      && Level(defs[n], defs, rank) <= rank[n]
      && (var r := defs[n].ref; r.Some? && r.value in defs ==> r.value in rank && rank[r.value] <= rank[n])
  }

  ghost predicate Rankable(defs: Defs) { exists rank :: Acyclic(defs, rank) }

  ghost function SomeRank(defs: Defs): (rank: map<string, nat>)
    requires Rankable(defs)
    ensures Acyclic(defs, rank)
  {
    var rank :| Acyclic(defs, rank); rank
  }

  lemma {:induction false} MaxLevelBounds(bs: seq<Schema>, b: Schema, defs: Defs, rank: map<string, nat>)
    requires b in bs
    ensures BranchLevel(b, defs, rank) <= MaxLevel(bs, defs, rank)
  {
    if b == bs[0] {
    } else {
      MaxLevelBounds(bs[1..], b, defs, rank);
    }
  }

  /** Going from a resolved definition to a resolved alternative is progress. */
  lemma BranchDescends(d: Schema, b: Schema, defs: Defs, rank: map<string, nat>)
    requires Acyclic(defs, rank) && b in Branches(d)
    ensures var t := ResolveRef(ResolveRef(b, defs), defs);
            Level(t, defs, rank) < Level(d, defs, rank) ||
            (Level(t, defs, rank) <= Level(d, defs, rank) && t < d)
  {
    MaxLevelBounds(Branches(d), b, defs, rank);
  }

  // -------------------------------------------------- declarative semantics --

  /** Equality as `in` uses it on an `enum`: a boolean equals the integer it counts as. */
  function BoolsAsInts(v: Json): Json {
    match v
    case Bool(b) => Num(if b then 1 else 0)
    case Arr(xs) => Arr(seq(|xs|, i requires 0 <= i < |xs| => BoolsAsInts(xs[i])))
    case Obj(fs) => Obj(FieldsAsInts(fs))
    case _ => v
  }

  function FieldsAsInts(fs: seq<Field>): (r: seq<Field>)
    decreases fs
    ensures |r| == |fs|
    ensures forall i :: 0 <= i < |fs| ==> r[i] == Field(fs[i].key, BoolsAsInts(fs[i].value))
  {
    seq(|fs|, i requires 0 <= i < |fs| => Field(fs[i].key, BoolsAsInts(fs[i].value)))
  }

  predicate LooselyEqual(a: Json, b: Json) { Equiv(BoolsAsInts(a), BoolsAsInts(b)) }

  predicate HasType(v: Json, name: string) {
    match name
    case "string" => v.Str?
    case "integer" => v.Num?
    case "number" => v.Num?
    case "boolean" => v.Bool?
    case "array" => v.Arr?
    case "object" => v.Obj?
    case "null" => v.Null?
    case _ => true
  }

  predicate AtLeast(bound: Option<int>, x: int) { bound.Some? ==> bound.value <= x }

  predicate AtMost(bound: Option<int>, x: int) { bound.Some? ==> x <= bound.value }

  /** The size and range keywords, each of which concerns one kind of value only. */
  predicate WithinBounds(v: Json, d: Schema) {
    match v
    case Num(n) => AtLeast(d.minimum, n) && AtMost(d.maximum, n)
    case Str(s) => AtLeast(d.minLength, |s|) && AtMost(d.maxLength, |s|)
    case Arr(xs) => AtLeast(d.minItems, |xs|) && AtMost(d.maxItems, |xs|)
    case _ => true
  }

  predicate InEnum(v: Json, d: Schema) {
    d.enum.Some? ==> exists e :: e in d.enum.value && LooselyEqual(v, e)
  }

  predicate MeetsKeywords(v: Json, d: Schema) {
    InEnum(v, d) && (d.typ.Single? ==> HasType(v, d.typ.name)) && WithinBounds(v, d)
  }

  /** What the checker asks of a value: some alternative fits, or, for a definition
      without alternatives, every supported keyword holds. */
  ghost predicate AcceptsResolved(v: Json, d: Schema, defs: Defs, rank: map<string, nat>)
    requires Acyclic(defs, rank)
    decreases Level(d, defs, rank), d
  {
    if HasBranches(d) then
      exists b :: b in Branches(d) &&
        (BranchDescends(d, b, defs, rank); AcceptsResolved(v, ResolveRef(ResolveRef(b, defs), defs), defs, rank))
    else MeetsKeywords(v, d)
  }

  ghost predicate Accepts(v: Json, d: Schema, defs: Defs, rank: map<string, nat>)
    requires Acyclic(defs, rank)
  {
    AcceptsResolved(v, ResolveRef(d, defs), defs, rank)
  }

  // ----------------------------------------------------------- the checker --

  datatype Problem =
    | MissingRequired(name: string)
    | UnknownArgument(name: string)
    | NoBranchFits(name: string)
    | NotInEnum(name: string)
    | WrongType(name: string)
    | BelowMinimum(name: string)
    | AboveMaximum(name: string)
    | TooShort(name: string)
    | TooLong(name: string)
    | TooFewItems(name: string)
    | TooManyItems(name: string)

  /** A reported problem names a keyword the value really breaks. */
  ghost predicate Breaks(p: Problem, v: Json, d: Schema) {
    match p
    case NoBranchFits(_) => HasBranches(d)
    case NotInEnum(_) => !InEnum(v, d)
    case WrongType(_) => d.typ.Single? && !HasType(v, d.typ.name)
    case BelowMinimum(_) => v.Num? && !AtLeast(d.minimum, v.n)
    case AboveMaximum(_) => v.Num? && !AtMost(d.maximum, v.n)
    case TooShort(_) => v.Str? && !AtLeast(d.minLength, |v.s|)
    case TooLong(_) => v.Str? && !AtMost(d.maxLength, |v.s|)
    case TooFewItems(_) => v.Arr? && !AtLeast(d.minItems, |v.items|)
    case TooManyItems(_) => v.Arr? && !AtMost(d.maxItems, |v.items|)
    case _ => false
  }

  method CheckKeywords(name: string, v: Json, d: Schema) returns (problems: seq<Problem>)
    ensures problems == [] <==> MeetsKeywords(v, d)
    ensures forall p :: p in problems ==> p.name == name && Breaks(p, v, d)
  {
    problems := [];
    if !InEnum(v, d) { return [NotInEnum(name)]; }
    if d.typ.Single? && !HasType(v, d.typ.name) { return [WrongType(name)]; }
    if v.Num? {
      if d.minimum.Some? && v.n < d.minimum.value { problems := problems + [BelowMinimum(name)]; }
      if d.maximum.Some? && v.n > d.maximum.value { problems := problems + [AboveMaximum(name)]; }
    }
    if v.Str? {
      if d.minLength.Some? && |v.s| < d.minLength.value { problems := problems + [TooShort(name)]; }
      if d.maxLength.Some? && |v.s| > d.maxLength.value { problems := problems + [TooLong(name)]; }
    }
    if v.Arr? {
      if d.minItems.Some? && |v.items| < d.minItems.value { problems := problems + [TooFewItems(name)]; }
      if d.maxItems.Some? && |v.items| > d.maxItems.value { problems := problems + [TooManyItems(name)]; }
    }
  }

  method CheckValue(name: string, v: Json, definition: Schema, defs: Defs, ghost rank: map<string, nat>)
    returns (problems: seq<Problem>)
    requires Acyclic(defs, rank)
    ensures problems == [] <==> Accepts(v, definition, defs, rank)
    ensures forall p :: p in problems ==> p.name == name && Breaks(p, v, ResolveRef(definition, defs))
    decreases Level(ResolveRef(definition, defs), defs, rank), ResolveRef(definition, defs)
  {
    var d := ResolveRef(definition, defs);
    if HasBranches(d) {
      var branches := Branches(d);
      for i := 0 to |branches|
        invariant forall k :: 0 <= k < i ==>
          !AcceptsResolved(v, ResolveRef(ResolveRef(branches[k], defs), defs), defs, rank)
      {
        BranchDescends(d, branches[i], defs, rank);
        var inner := CheckValue(name, v, ResolveRef(branches[i], defs), defs, rank);
        if inner == [] { return []; }
      }
      return [NoBranchFits(name)];
    }
    problems := CheckKeywords(name, v, d);
  }

  // ----------------------------------------------------- whole argument set --

  datatype ToolSchema = ToolSchema(properties: map<string, Schema>, required: seq<string>, defs: Defs)

  predicate Supplied(args: seq<Field>, name: string) {
    var r := Find(args, name);
    r.Some? && r.value != Null
  }

  /** What a call must satisfy to be dispatched: nothing required is missing or null, no
      argument is unknown to a schema that names any, and every described argument that
      is not null is accepted. */
  ghost predicate AcceptsCall(args: seq<Field>, schema: ToolSchema, rank: map<string, nat>)
    requires Acyclic(schema.defs, rank)
  {
    && (forall n :: n in schema.required ==> Supplied(args, n))
    && (schema.properties != map[] ==> forall f :: f in args ==> f.key in schema.properties)
    && (forall f :: f in args && f.value != Null && f.key in schema.properties ==>
          Accepts(f.value, schema.properties[f.key], schema.defs, rank))
  }

  ghost predicate Fits(args: seq<Field>, schema: ToolSchema)
    requires Rankable(schema.defs)
  {
    AcceptsCall(args, schema, SomeRank(schema.defs))
  }

  method ValidateArguments(schema: ToolSchema, args: seq<Field>, ghost rank: map<string, nat>)
    returns (problems: seq<Problem>)
    requires Acyclic(schema.defs, rank)
    ensures problems == [] <==> AcceptsCall(args, schema, rank)
    ensures forall n :: n in schema.required && !Supplied(args, n) ==> MissingRequired(n) in problems
    ensures schema.properties != map[] ==>
              forall f :: f in args && f.key !in schema.properties ==> UnknownArgument(f.key) in problems
  {
    problems := [];
    for i := 0 to |schema.required|
      invariant problems == [] <==> forall k :: 0 <= k < i ==> Supplied(args, schema.required[k])
      invariant forall k :: 0 <= k < i && !Supplied(args, schema.required[k]) ==>
                  MissingRequired(schema.required[k]) in problems
    {
      if !Supplied(args, schema.required[i]) { problems := problems + [MissingRequired(schema.required[i])]; }
    }
    ghost var missing := problems;
    for i := 0 to |args|
      invariant missing <= problems
      invariant problems == [] <==>
                  missing == [] &&
                  (schema.properties != map[] ==> forall k :: 0 <= k < i ==> args[k].key in schema.properties)
      invariant schema.properties != map[] ==>
                  forall k :: 0 <= k < i && args[k].key !in schema.properties ==>
                    UnknownArgument(args[k].key) in problems
    {
      if schema.properties != map[] && args[i].key !in schema.properties {
        problems := problems + [UnknownArgument(args[i].key)];
      }
    }
    ghost var unknown := problems;
    for i := 0 to |args|
      invariant unknown <= problems
      invariant problems == [] <==>
                  unknown == [] &&
                  forall k :: 0 <= k < i && args[k].value != Null && args[k].key in schema.properties ==>
                    Accepts(args[k].value, schema.properties[args[k].key], schema.defs, rank)
    {
      if args[i].key in schema.properties && args[i].value != Null {
        var found := CheckValue(args[i].key, args[i].value, schema.properties[args[i].key], schema.defs, rank);
        problems := problems + found;
      }
    }
  }

  // ------------------------------------------------------ the standard's view --

  /** A reading of the keywords this checker does not know: which values a definition
      that holds them admits.  It may look at the whole definition. */
  type OtherKeywords = (Schema, Json) -> bool

  /** The types a value has, section 6.1.1 of JSON Schema Validation 2020-12. */
  function TypesOf(v: Json): set<string> {
    match v
    case Null => {"null"}
    case Bool(_) => {"boolean"}
    case Num(_) => {"integer", "number"}
    case Str(_) => {"string"}
    case Arr(_) => {"array"}
    case Obj(_) => {"object"}
  }

  /** A number, the length of a text or of a list lies outside what is asked of it,
      sections 6.2 to 6.4. */
  predicate OutOfRange(v: Json, d: Schema) {
    || (v.Num? && d.minimum.Some? && v.n < d.minimum.value)
    || (v.Num? && d.maximum.Some? && d.maximum.value < v.n)
    || (v.Str? && d.minLength.Some? && |v.s| < d.minLength.value)
    || (v.Str? && d.maxLength.Some? && d.maxLength.value < |v.s|)
    || (v.Arr? && d.minItems.Some? && |v.items| < d.minItems.value)
    || (v.Arr? && d.maxItems.Some? && d.maxItems.value < |v.items|)
  }

  /** The keywords of a definition that concern the value itself. */
  ghost predicate OwnKeywords(v: Json, d: Schema, others: OtherKeywords) {
    && (d.enum.Some? ==> exists e :: e in d.enum.value && Equiv(v, e))
    && (d.typ.Single? ==> d.typ.name in TypesOf(v))
    && (d.typ.Several? ==> exists n :: n in d.typ.names && n in TypesOf(v))
    && !OutOfRange(v, d)
    && others(d, v)
  }

  ghost function MaxStandardLevel(bs: seq<Schema>, defs: Defs, rank: map<string, nat>): nat {
    if bs == [] then 0
    else
      var l, m := StandardLevel(bs[0], defs, rank), MaxStandardLevel(bs[1..], defs, rank);
      if l > m then l else m
  }

  ghost function StandardLevel(d: Schema, defs: Defs, rank: map<string, nat>): nat {
    var r := if d.ref.Some? && d.ref.value in defs && d.ref.value in rank then rank[d.ref.value] + 1 else 0;
    var a := if d.anyOf.Listed? then MaxStandardLevel(d.anyOf.branches, defs, rank) else 0;
    var o := if d.oneOf.Listed? then MaxStandardLevel(d.oneOf.branches, defs, rank) else 0;
    if r >= a && r >= o then r else if a >= o then a else o
  }

  /** No reference leads back to itself, so that every `$ref` can be followed to its end;
      section 9.4.1 of JSON Schema Core 2020-12 leaves other schemas undefined. */
  ghost predicate Grounded(defs: Defs, rank: map<string, nat>) {
    forall n :: n in defs ==> n in rank && StandardLevel(defs[n], defs, rank) <= rank[n]
  }

  lemma {:induction false} StandardLevelBounds(bs: seq<Schema>, b: Schema, defs: Defs, rank: map<string, nat>)
    requires b in bs
    ensures StandardLevel(b, defs, rank) <= MaxStandardLevel(bs, defs, rank)
  {
    if b == bs[0] {
    } else {
      StandardLevelBounds(bs[1..], b, defs, rank);
    }
  }

  /** Validity under sections 6.1 to 6.4 of JSON Schema Validation 2020-12 and section
      10.2.1 of JSON Schema Core 2020-12: every keyword counts, references are followed
      to the end, `oneOf` wants exactly one alternative. */
  ghost predicate Conforms(v: Json, d: Schema, defs: Defs, rank: map<string, nat>, others: OtherKeywords)
    requires Grounded(defs, rank)
    decreases StandardLevel(d, defs, rank), d
  {
    && (d.ref.Some? && d.ref.value in defs ==> Conforms(v, defs[d.ref.value], defs, rank, others))
    && (d.anyOf.Listed? ==>
          exists b :: b in d.anyOf.branches &&
            (StandardLevelBounds(d.anyOf.branches, b, defs, rank); Conforms(v, b, defs, rank, others)))
    && (d.oneOf.Listed? ==>
          && (exists b :: b in d.oneOf.branches &&
                (StandardLevelBounds(d.oneOf.branches, b, defs, rank); Conforms(v, b, defs, rank, others)))
          && (forall i, j :: 0 <= i < j < |d.oneOf.branches| ==>
                var b, c := d.oneOf.branches[i], d.oneOf.branches[j];
                StandardLevelBounds(d.oneOf.branches, b, defs, rank);
                StandardLevelBounds(d.oneOf.branches, c, defs, rank);
                !(Conforms(v, b, defs, rank, others) && Conforms(v, c, defs, rank, others))))
    && OwnKeywords(v, d, others)
  }

  lemma {:induction false} LevelBelowStandard(d: Schema, defs: Defs, rank: map<string, nat>)
    ensures Level(d, defs, rank) <= StandardLevel(d, defs, rank)
    ensures BranchLevel(d, defs, rank) <= StandardLevel(d, defs, rank)
    decreases d, 1
  {
    if d.anyOf.Listed? { MaxLevelBelowStandard(d.anyOf.branches, defs, rank); }
    if d.oneOf.Listed? { MaxLevelBelowStandard(d.oneOf.branches, defs, rank); }
  }

  lemma {:induction false} MaxLevelBelowStandard(bs: seq<Schema>, defs: Defs, rank: map<string, nat>)
    ensures MaxLevel(bs, defs, rank) <= MaxStandardLevel(bs, defs, rank)
    decreases bs, 0
  {
    if bs == [] {
    } else {
      LevelBelowStandard(bs[0], defs, rank);
      MaxLevelBelowStandard(bs[1..], defs, rank);
    }
  }

  lemma GroundedIsAcyclic(defs: Defs, rank: map<string, nat>)
    requires Grounded(defs, rank)
    ensures Acyclic(defs, rank)
  {
    forall n | n in defs ensures Level(defs[n], defs, rank) <= rank[n] { LevelBelowStandard(defs[n], defs, rank); }
  }

  lemma {:induction false} EquivIsLoose(a: Json, b: Json)
    requires Equiv(a, b)
    ensures LooselyEqual(a, b)
  {
    match a
    case Arr(xs) => forall i | 0 <= i < |xs| { EquivIsLoose(xs[i], b.items[i]); }
    case Obj(fs) =>
      var gs := b.fields;
      forall g | g in FieldsAsInts(gs) ensures Find(FieldsAsInts(fs), g.key).Some? {
        var j :| 0 <= j < |gs| && FieldsAsInts(gs)[j] == g;
        assert gs[j] in gs;
        FindAsInts(fs, g.key);
      }
      forall i | 0 <= i < |fs|
        ensures var r := Find(FieldsAsInts(gs), fs[i].key);
                r.Some? && Equiv(BoolsAsInts(fs[i].value), r.value)
      {
        FindAsInts(gs, fs[i].key);
        EquivIsLoose(fs[i].value, Find(gs, fs[i].key).value);
      }
    case _ =>
  }

  lemma {:induction false} FindAsInts(fs: seq<Field>, key: string)
    ensures Find(FieldsAsInts(fs), key) ==
            match Find(fs, key) case None => None case Some(v) => Some(BoolsAsInts(v))
  {
    if fs == [] {
    } else {
      assert FieldsAsInts(fs)[1..] == FieldsAsInts(fs[1..]);
      FindAsInts(fs[1..], key);
    }
  }

  lemma ResolvedConforms(v: Json, d: Schema, defs: Defs, rank: map<string, nat>, others: OtherKeywords)
    requires Grounded(defs, rank) && Conforms(v, d, defs, rank, others)
    ensures var t := ResolveRef(d, defs);
            && Conforms(v, t, defs, rank, others)
            && (t == d || StandardLevel(t, defs, rank) < StandardLevel(d, defs, rank))
  {
  }

  lemma SomeBranchConforms(v: Json, d: Schema, defs: Defs, rank: map<string, nat>, others: OtherKeywords)
    returns (b: Schema)
    requires Grounded(defs, rank) && Conforms(v, d, defs, rank, others) && HasBranches(d)
    ensures b in Branches(d) && b < d && Conforms(v, b, defs, rank, others)
    ensures StandardLevel(b, defs, rank) <= StandardLevel(d, defs, rank)
  {
    if d.anyOf.Listed? {
      b :| b in d.anyOf.branches && Conforms(v, b, defs, rank, others);
    } else {
      b :| b in d.oneOf.branches && Conforms(v, b, defs, rank, others);
    }
    StandardLevelBounds(Branches(d), b, defs, rank);
  }

  /** Whatever the standard accepts, under any reading of the keywords the checker does
      not know, the checker accepts too. */
  lemma NeverRefusesConforming(
    v: Json, d: Schema, defs: Defs, rank: map<string, nat>, others: OtherKeywords)
    requires Grounded(defs, rank) && Conforms(v, d, defs, rank, others)
    ensures Acyclic(defs, rank) && Accepts(v, d, defs, rank)
  {
    ResolvedConforms(v, d, defs, rank, others);
    AcceptsConforming(v, ResolveRef(d, defs), defs, rank, others);
  }

  lemma {:induction false} AcceptsConforming(
    v: Json, d: Schema, defs: Defs, rank: map<string, nat>, others: OtherKeywords)
    requires Grounded(defs, rank) && Conforms(v, d, defs, rank, others)
    ensures Acyclic(defs, rank) && AcceptsResolved(v, d, defs, rank)
    decreases StandardLevel(d, defs, rank), d
  {
    GroundedIsAcyclic(defs, rank);
    if HasBranches(d) {
      var b := SomeBranchConforms(v, d, defs, rank, others);
      BranchDescends(d, b, defs, rank);
      ResolvedConforms(v, b, defs, rank, others);
      ResolvedConforms(v, ResolveRef(b, defs), defs, rank, others);
      AcceptsConforming(v, ResolveRef(ResolveRef(b, defs), defs), defs, rank, others);
    } else if d.enum.Some? {
      var e :| e in d.enum.value && Equiv(v, e);
      EquivIsLoose(v, e);
    }
  }

  /** A call whose arguments the standard accepts for every described property. */
  ghost predicate ConformsCall(args: seq<Field>, schema: ToolSchema, rank: map<string, nat>, others: OtherKeywords)
    requires Grounded(schema.defs, rank)
  {
    && (forall n :: n in schema.required ==> Find(args, n).Some?)
    && (forall f :: f in args && f.key in schema.properties ==>
          Conforms(f.value, schema.properties[f.key], schema.defs, rank, others))
  }

  /** The two refusals beyond the standard: a required argument given as null, and an
      argument the schema does not name although it names some. */
  lemma RefusalsBeyondTheStandard(
    args: seq<Field>, schema: ToolSchema, rank: map<string, nat>, others: OtherKeywords)
    requires Grounded(schema.defs, rank) && ConformsCall(args, schema, rank, others)
    ensures Acyclic(schema.defs, rank)
    ensures !AcceptsCall(args, schema, rank) <==>
              || (exists n :: n in schema.required && Find(args, n) == Some(Null))
              || (schema.properties != map[] && exists f :: f in args && f.key !in schema.properties)
  {
    GroundedIsAcyclic(schema.defs, rank);
    forall f | f in args && f.key in schema.properties
      ensures Accepts(f.value, schema.properties[f.key], schema.defs, rank)
    {
      NeverRefusesConforming(f.value, schema.properties[f.key], schema.defs, rank, others);
    }
  }

  /** `{}`: no keyword at all. */
  const ANYTHING := Schema(None, Absent, Absent, None, NoType, None, None, None, None, None, None, [])

  /** A search with a required query that may be anything. */
  const SEARCH := ToolSchema(map["query" := ANYTHING], ["query"], map[])

  /** A call that conforms and is refused: it gives its query as null. */
  lemma NullQueryIsRefused(others: OtherKeywords)
    requires forall v :: others(ANYTHING, v)
    ensures var none: map<string, nat> := map[];
            && Grounded(SEARCH.defs, none) && Acyclic(SEARCH.defs, none)
            && ConformsCall([Field("query", Null)], SEARCH, none, others)
            && !AcceptsCall([Field("query", Null)], SEARCH, none)
  {
    assert Find([Field("query", Null)], "query") == Some(Null);
    assert SEARCH.required[0] == "query" && !Supplied([Field("query", Null)], "query");
  }

  /** Another one: it adds a limit. */
  lemma UnnamedLimitIsRefused(others: OtherKeywords)
    requires forall v :: others(ANYTHING, v)
    ensures var none: map<string, nat> := map[];
            && Grounded(SEARCH.defs, none) && Acyclic(SEARCH.defs, none)
            && ConformsCall([Field("query", Str("ana")), Field("limit", Num(5))], SEARCH, none, others)
            && !AcceptsCall([Field("query", Str("ana")), Field("limit", Num(5))], SEARCH, none)
  {
    var more := [Field("query", Str("ana")), Field("limit", Num(5))];
    assert Find(more, "query") == Some(Str("ana"));
    assert more[1].key !in SEARCH.properties && more[1] in more;
  }

  /** A union whose alternatives differ in a keyword the checker does not know: the standard
      takes exactly one of them, and the checker accepts. */
  lemma UnionOfUnknownKeywordsConforms(v: Json, others: OtherKeywords)
    requires var circle, square := ANYTHING.(others := [Field("const", Str("circle"))]),
                                   ANYTHING.(others := [Field("const", Str("square"))]);
             && others(circle, v) && !others(square, v)
             && others(ANYTHING.(oneOf := Listed([circle, square])), v)
    ensures var circle, square := ANYTHING.(others := [Field("const", Str("circle"))]),
                                  ANYTHING.(others := [Field("const", Str("square"))]);
            var union := ANYTHING.(oneOf := Listed([circle, square]));
            var none: map<string, nat> := map[];
            && Grounded(map[], none) && Conforms(v, union, map[], none, others)
            && Acyclic(map[], none) && Accepts(v, union, map[], none)
  {
    var circle, square := ANYTHING.(others := [Field("const", Str("circle"))]),
                          ANYTHING.(others := [Field("const", Str("square"))]);
    var union := ANYTHING.(oneOf := Listed([circle, square]));
    var none: map<string, nat> := map[];
    assert Conforms(v, circle, map[], none, others) && !Conforms(v, square, map[], none, others);
    assert circle in union.oneOf.branches;
    assert Conforms(v, union, map[], none, others);
    NeverRefusesConforming(v, union, map[], none, others);
  }

  // --------------------------------------------------------------- key order --

  lemma {:induction false} AcceptsIgnoresKeyOrder(v: Json, v': Json, d: Schema, defs: Defs, rank: map<string, nat>)
    requires Acyclic(defs, rank) && Equiv(v', v) && AcceptsResolved(v, d, defs, rank)
    ensures AcceptsResolved(v', d, defs, rank)
    decreases Level(d, defs, rank), d
  {
    if HasBranches(d) {
      var b :| b in Branches(d) &&
        (BranchDescends(d, b, defs, rank); AcceptsResolved(v, ResolveRef(ResolveRef(b, defs), defs), defs, rank));
      BranchDescends(d, b, defs, rank);
      AcceptsIgnoresKeyOrder(v, v', ResolveRef(ResolveRef(b, defs), defs), defs, rank);
    } else if d.enum.Some? {
      var e :| e in d.enum.value && LooselyEqual(v, e);
      EquivIsLoose(v', v);
      EquivTrans(BoolsAsInts(v'), BoolsAsInts(v), BoolsAsInts(e));
    }
  }

  /** A call accepted once is accepted again after its arguments have been stored and
      read back, in whatever key order the database returns them. */
  lemma {:induction false} AcceptedCallIsAcceptedAgain(
    args: seq<Field>, args': seq<Field>, schema: ToolSchema, rank: map<string, nat>)
    requires Acyclic(schema.defs, rank) && AcceptsCall(args, schema, rank)
    requires WellFormed(Obj(args)) && WellFormed(Obj(args')) && Equiv(Obj(args), Obj(args'))
    ensures AcceptsCall(args', schema, rank)
  {
    forall n | n in schema.required ensures Supplied(args', n) { FoundAlike(args, args', n); }
    forall f | f in args' ensures Find(args, f.key).Some? && (f.value != Null && f.key in schema.properties ==>
        Accepts(f.value, schema.properties[f.key], schema.defs, rank))
    {
      var j :| 0 <= j < |args'| && args'[j] == f;
      FindHit(args', j);
      FoundAlike(args, args', f.key);
      var v := Find(args, f.key).value;
      EquivSym(v, f.value);
      if f.value != Null && f.key in schema.properties {
        assert Field(f.key, v) in args;
        AcceptsIgnoresKeyOrder(v, f.value, ResolveRef(schema.properties[f.key], schema.defs), schema.defs, rank);
      }
    }
  }
}
