/** The structural scrubber that runs before anything is logged or audited
    (`app/core/security.py`).  Which keys are sensitive and how free text is scrubbed
    are parameters: the theorems hold for every choice of them. */
module Redaction {
  import opened Json

  const REDACTED := "[REDACTED]"
  const TRUNCATED := "[TRUNCATED]"
  const MAX_REDACT_DEPTH := 12

  datatype Rules = Rules(sensitive: string -> bool, scrub: string -> string)

  function Redact(v: Json, depth: nat, rules: Rules): Json
    decreases v
  {
    if depth > MAX_REDACT_DEPTH then Str(TRUNCATED)
    else
      match v
      case Str(s) => Str(rules.scrub(s))
      case Obj(fs) =>
        Obj(seq(|fs|, i requires 0 <= i < |fs| =>
          Field(fs[i].key,
                if rules.sensitive(fs[i].key) then Str(REDACTED)
                else Redact(fs[i].value, depth + 1, rules))))
      case Arr(xs) => Arr(seq(|xs|, i requires 0 <= i < |xs| => Redact(xs[i], depth + 1, rules)))
      case _ => v
  }

  // ------------------------------------------------- what a clean value is --

  /** Nothing sensitive is left: every sensitive key holds the marker, every other text
      is one the scrubber has nothing to remove from. */
  ghost predicate Clean(v: Json, rules: Rules) {
    match v
    case Str(s) => rules.scrub(s) == s
    case Arr(xs) => forall i :: 0 <= i < |xs| ==> Clean(xs[i], rules)
    case Obj(fs) =>
      forall i :: 0 <= i < |fs| ==>
        if rules.sensitive(fs[i].key) then fs[i].value == Str("[REDACTED]") else Clean(fs[i].value, rules)
    case _ => true
  }

  /** Containers are nested at most `limit` deep. */
  ghost predicate DepthAtMost(v: Json, limit: int) {
    match v
    case Arr(xs) => limit > 0 && forall i :: 0 <= i < |xs| ==> DepthAtMost(xs[i], limit - 1)
    case Obj(fs) => limit > 0 && forall i :: 0 <= i < |fs| ==> DepthAtMost(fs[i].value, limit - 1)
    case _ => true
  }

  /** `w` is `v` scrubbed, down to `levels` more levels of nesting: the same keys in the
      same order and the same list lengths, the marker under sensitive keys, every other
      text as the scrubber leaves it; at the bottom stands the truncation marker. */
  ghost predicate SameSkeleton(v: Json, w: Json, levels: int, rules: Rules)
    decreases v
  {
    if levels < 0 then w == Str("[TRUNCATED]")
    else
      match v
      case Str(s) => w == Str(rules.scrub(s))
      case Arr(xs) =>
        w.Arr? && |w.items| == |xs| &&
        forall i :: 0 <= i < |xs| ==> SameSkeleton(xs[i], w.items[i], levels - 1, rules)
      case Obj(fs) =>
        w.Obj? && |w.fields| == |fs| &&
        forall i :: 0 <= i < |fs| ==>
          && w.fields[i].key == fs[i].key
          && (if rules.sensitive(fs[i].key) then w.fields[i].value == Str("[REDACTED]")
              else SameSkeleton(fs[i].value, w.fields[i].value, levels - 1, rules))
      case _ => w == v
  }

  ghost predicate ScrubberSettles(rules: Rules) {
    && (forall s :: rules.scrub(rules.scrub(s)) == rules.scrub(s))
    && rules.scrub("[TRUNCATED]") == "[TRUNCATED]"
  }

  // ------------------------------------------------------------- theorems --

  lemma {:induction false} RedactLeavesNothingSensitive(v: Json, depth: nat, rules: Rules)
    requires ScrubberSettles(rules)
    ensures Clean(Redact(v, depth, rules), rules)
  {
    if depth > MAX_REDACT_DEPTH {
    } else {
      match v
      case Arr(xs) => forall i | 0 <= i < |xs| { RedactLeavesNothingSensitive(xs[i], depth + 1, rules); }
      case Obj(fs) => forall i | 0 <= i < |fs| { RedactLeavesNothingSensitive(fs[i].value, depth + 1, rules); }
      case _ =>
    }
  }

  /** A value that is already clean and shallow enough is left alone. */
  lemma {:induction false} RedactFixesCleanValues(v: Json, depth: nat, rules: Rules)
    requires depth <= MAX_REDACT_DEPTH
    requires Clean(v, rules) && DepthAtMost(v, MAX_REDACT_DEPTH - depth)
    ensures Redact(v, depth, rules) == v
  {
    match v
    case Arr(xs) =>
      forall i | 0 <= i < |xs| ensures Redact(xs[i], depth + 1, rules) == xs[i] {
        RedactFixesCleanValues(xs[i], depth + 1, rules);
      }
      assert Redact(v, depth, rules).items == xs;
    case Obj(fs) =>
      forall i | 0 <= i < |fs| ensures Redact(v, depth, rules).fields[i] == fs[i] {
        if !rules.sensitive(fs[i].key) { RedactFixesCleanValues(fs[i].value, depth + 1, rules); }
      }
      assert Redact(v, depth, rules).fields == fs;
    case _ =>
  }

  lemma {:induction false} RedactBoundsDepth(v: Json, depth: nat, rules: Rules)
    ensures DepthAtMost(Redact(v, depth, rules), 13 - depth)
  {
    if depth > MAX_REDACT_DEPTH {
    } else {
      match v
      case Arr(xs) => forall i | 0 <= i < |xs| { RedactBoundsDepth(xs[i], depth + 1, rules); }
      case Obj(fs) => forall i | 0 <= i < |fs| { RedactBoundsDepth(fs[i].value, depth + 1, rules); }
      case _ =>
    }
  }

  lemma {:induction false} RedactKeepsSkeleton(v: Json, depth: nat, rules: Rules)
    ensures SameSkeleton(v, Redact(v, depth, rules), 12 - depth, rules)
  {
    if depth <= MAX_REDACT_DEPTH {
      match v
      case Arr(xs) => forall i | 0 <= i < |xs| { RedactKeepsSkeleton(xs[i], depth + 1, rules); }
      case Obj(fs) => forall i | 0 <= i < |fs| { RedactKeepsSkeleton(fs[i].value, depth + 1, rules); }
      case _ =>
    }
  }

  lemma {:induction false} RedactIdempotent(v: Json, depth: nat, rules: Rules)
    requires forall s :: rules.scrub(rules.scrub(s)) == rules.scrub(s)
    ensures Redact(Redact(v, depth, rules), depth, rules) == Redact(v, depth, rules)
  {
    if depth <= MAX_REDACT_DEPTH {
      var w := Redact(v, depth, rules);
      match v
      case Arr(xs) =>
        forall i | 0 <= i < |xs| { RedactIdempotent(xs[i], depth + 1, rules); }
        assert Redact(w, depth, rules).items == w.items;
      case Obj(fs) =>
        forall i | 0 <= i < |fs| ensures Redact(w, depth, rules).fields[i] == w.fields[i] {
          RedactIdempotent(fs[i].value, depth + 1, rules);
        }
        assert Redact(w, depth, rules).fields == w.fields;
      case _ =>
    }
  }
}
