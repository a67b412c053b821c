/** JSON values as the application sees them, shared by the payload digest, the
    redactor, the schema checker and the policy engine.  Objects keep the insertion
    order of their keys, as the source's dictionaries do. */
module Json {

  datatype Option<+T> = None | Some(value: T)

  datatype Json =
    | Null
    | Bool(b: bool)
    | Num(n: int)
    | Str(s: string)
    | Arr(items: seq<Json>)
    | Obj(fields: seq<Field>)

  datatype Field = Field(key: string, value: Json)

  ghost predicate UniqueKeys(fs: seq<Field>) {
    forall i, j :: 0 <= i < j < |fs| ==> fs[i].key != fs[j].key
  }

  /** No object, at any depth, repeats a key: what a dictionary guarantees. */
  ghost predicate WellFormed(v: Json) {
    match v
    case Arr(items) => forall i :: 0 <= i < |items| ==> WellFormed(items[i])
    case Obj(fs) => UniqueKeys(fs) && forall i :: 0 <= i < |fs| ==> WellFormed(fs[i].value)
    case _ => true
  }

  /** The value stored under a key, if the object has that key. */
  function Find(fs: seq<Field>, key: string): (r: Option<Json>)
    ensures r.Some? ==> Field(key, r.value) in fs
    ensures r.None? ==> forall f :: f in fs ==> f.key != key
  {
    if fs == [] then None
    else if fs[0].key == key then Some(fs[0].value)
    else Find(fs[1..], key)
  }

  /** Two values are the same payload: lists agree position by position, objects have
      the same keys, inserted in whatever order, and agree under each of them. */
  predicate Equiv(a: Json, b: Json)
    decreases a
  {
    match a
    case Arr(xs) =>
      b.Arr? && |xs| == |b.items| && forall i :: 0 <= i < |xs| ==> Equiv(xs[i], b.items[i])
    case Obj(fs) =>
      && b.Obj?
      && (forall g :: g in b.fields ==> Find(fs, g.key).Some?)
      && (forall i :: 0 <= i < |fs| ==>
            var r := Find(b.fields, fs[i].key);
            r.Some? && Equiv(fs[i].value, r.value))
    case _ => a == b
  }

  lemma {:induction false} FindHit(fs: seq<Field>, i: nat)
    requires UniqueKeys(fs) && i < |fs|
    ensures Find(fs, fs[i].key) == Some(fs[i].value)
  {
    if i == 0 {
    } else {
      FindHit(fs[1..], i - 1);
    }
  }

  lemma {:induction false} EquivRefl(v: Json)
    requires WellFormed(v)
    ensures Equiv(v, v)
  {
    match v
    case Arr(xs) => forall i | 0 <= i < |xs| { EquivRefl(xs[i]); }
    case Obj(fs) =>
      forall i | 0 <= i < |fs| { FindHit(fs, i); }
      forall i | 0 <= i < |fs| { EquivRefl(fs[i].value); }
    case _ =>
  }

  lemma {:induction false} EquivTrans(a: Json, b: Json, c: Json)
    requires Equiv(a, b) && Equiv(b, c)
    ensures Equiv(a, c)
    decreases a
  {
    match a
    case Arr(xs) => forall i | 0 <= i < |xs| { EquivTrans(xs[i], b.items[i], c.items[i]); }
    case Obj(fs) =>
      forall i | 0 <= i < |fs|
        ensures var r := Find(c.fields, fs[i].key); r.Some? && Equiv(fs[i].value, r.value)
      {
        var r := Find(b.fields, fs[i].key);
        var j :| 0 <= j < |b.fields| && b.fields[j] == Field(fs[i].key, r.value);
        EquivTrans(fs[i].value, r.value, Find(c.fields, fs[i].key).value);
      }
    case _ =>
  }

  lemma {:induction false} EquivSym(a: Json, b: Json)
    requires Equiv(a, b) && WellFormed(b)
    ensures Equiv(b, a)
    decreases a
  {
    match a
    case Arr(xs) => forall i | 0 <= i < |xs| { EquivSym(xs[i], b.items[i]); }
    case Obj(fs) =>
      forall j | 0 <= j < |b.fields|
        ensures var r := Find(fs, b.fields[j].key); r.Some? && Equiv(b.fields[j].value, r.value)
      {
        var r := Find(fs, b.fields[j].key);
        var i :| 0 <= i < |fs| && fs[i] == Field(b.fields[j].key, r.value);
        FindHit(b.fields, j);
        EquivSym(fs[i].value, b.fields[j].value);
      }
    case _ =>
  }

  /** Equal objects hold equal values under each key. */
  lemma FoundAlike(args: seq<Field>, args': seq<Field>, key: string)
    requires WellFormed(Obj(args)) && WellFormed(Obj(args')) && Equiv(Obj(args), Obj(args'))
    ensures var r, r' := Find(args, key), Find(args', key);
            && (r.Some? <==> r'.Some?)
            && (r.Some? ==> WellFormed(r.value) && WellFormed(r'.value) && Equiv(r.value, r'.value))
  {
    if Find(args, key).Some? {
      var i :| 0 <= i < |args| && args[i] == Field(key, Find(args, key).value);
      assert Find(args', args[i].key).Some?;
      var j :| 0 <= j < |args'| && args'[j] == Field(key, Find(args', key).value);
    }
  }

}
