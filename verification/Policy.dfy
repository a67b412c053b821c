/** The permission registry and the policy engine: a deterministic verdict on a proposed
    tool call (`app/security/permissions.py`, `app/security/policy.py`). */
module Policy {
  import opened Json
  import opened KeyOrder

  datatype Permission = Read | Write | HighRisk

  datatype Role = Viewer | Operator | Admin

  datatype Verdict = Allow | RequireApproval | Deny

  /** What an administrator configures: the local classification of tools, and whether
      writes are gated too. */
  datatype Settings = Settings(registry: map<string, Permission>, approvalForWrites: bool)

  const MALFORMED_ARGUMENTS_KEY := "__malformed_arguments__"
  const SEND_EMAIL := "email__send_email"
  const CREATE_EVENT := "calendar__create_event"
  const MAX_EMAIL_RECIPIENTS := 50

  /** A tool absent from the registry is high risk. */
  function Classify(settings: Settings, tool: string): Permission {
    if tool in settings.registry then settings.registry[tool] else HighRisk
  }

  /** The tools that never run on the model's word alone. */
  predicate Gated(settings: Settings, tool: string) {
    var p := Classify(settings, tool);
    p.HighRisk? || (p.Write? && settings.approvalForWrites)
  }

  /** How many addresses `value or []` spreads into; none at all for a value that cannot
      be spread, where the source raises `TypeError`. */
  function Spread(v: Option<Json>): Option<nat> {
    if v.None? then Some(0)
    else
      match v.value
      case Null => Some(0)
      case Bool(b) => if b then None else Some(0)
      case Num(n) => if n == 0 then Some(0) else None
      case Str(s) => Some(if s == "" then 0 else 1)
      case Arr(xs) => Some(|xs|)
      case Obj(fs) => Some(|fs|)
  }

  /** Whether the summary shown to a human can be composed; it is composed before any
      rule is looked at. */
  predicate Summarisable(tool: string, args: seq<Field>) {
    if tool == SEND_EMAIL then Spread(Find(args, "to")).Some? && Spread(Find(args, "cc")).Some?
    else if tool == CREATE_EVENT then Spread(Find(args, "attendees")).Some?
    else true
  }

  predicate TooManyRecipients(tool: string, args: seq<Field>)
    requires Summarisable(tool, args)
  {
    tool == SEND_EMAIL &&
    Spread(Find(args, "to")).value + Spread(Find(args, "cc")).value > MAX_EMAIL_RECIPIENTS
  }

  /** The first applicable rule.  `None` stands for the `TypeError` above. */
  function Evaluate(settings: Settings, role: Role, tool: string, args: seq<Field>): Option<Verdict> {
    var permission := Classify(settings, tool);
    if !Summarisable(tool, args) then None
    else if Find(args, MALFORMED_ARGUMENTS_KEY).Some? then Some(Deny)
    else if role.Viewer? && !permission.Read? then Some(Deny)
    else if TooManyRecipients(tool, args) then Some(Deny)
    else if permission.HighRisk? then Some(RequireApproval)
    else if permission.Write? && settings.approvalForWrites then Some(RequireApproval)
    else Some(Allow)
  }

  /** A value that is neither empty, nor a text, nor a collection. */
  predicate Unspreadable(v: Option<Json>) { v == Some(Bool(true)) || (v.Some? && v.value.Num? && v.value.n != 0) }

  predicate SpreadsUnspreadable(tool: string, args: seq<Field>) {
    || (tool == "email__send_email" && (Unspreadable(Find(args, "to")) || Unspreadable(Find(args, "cc"))))
    || (tool == "calendar__create_event" && Unspreadable(Find(args, "attendees")))
  }

  /** When there is no verdict at all, but a `TypeError`. */
  lemma VerdictFailsExactlyWhen(settings: Settings, role: Role, tool: string, args: seq<Field>)
    ensures Evaluate(settings, role, tool, args).None? <==> SpreadsUnspreadable(tool, args)
  {
  }

  // ----------------------------------------------------------------- the verdicts --

  /** The addresses a value stands for: a text is one address, of a dictionary the keys count. */
  function Addresses(v: Option<Json>): seq<Json> {
    match v
    case Some(Str(text)) => if text == "" then [] else [Str(text)]
    case Some(Arr(items)) => items
    case Some(Obj(fields)) => seq(|fields|, i requires 0 <= i < |fields| => Str(fields[i].key))
    case _ => []
  }

  /** An administrator has registered the tool as this. */
  predicate Registered(settings: Settings, tool: string, permission: Permission) {
    tool in settings.registry && settings.registry[tool] == permission
  }

  /** What no approval can make up for. */
  ghost predicate Forbidden(settings: Settings, role: Role, tool: string, args: seq<Field>) {
    || (exists f :: f in args && f.key == "__malformed_arguments__")
    || (role == Viewer && !Registered(settings, tool, Read))
    || (tool == "email__send_email" && |Addresses(Find(args, "to")) + Addresses(Find(args, "cc"))| > 50)
  }

  /** What a user may have done on the model's word alone. */
  ghost predicate Permitted(settings: Settings, role: Role, tool: string, args: seq<Field>) {
    && !SpreadsUnspreadable(tool, args) && !Forbidden(settings, role, tool, args)
    && (Registered(settings, tool, Read) || (Registered(settings, tool, Write) && !settings.approvalForWrites))
  }

  lemma SpreadCountsAddresses(v: Option<Json>)
    requires !Unspreadable(v)
    ensures Spread(v) == Some(|Addresses(v)|)
  {
  }

  lemma MalformedExactlyWhenFound(args: seq<Field>)
    ensures Find(args, MALFORMED_ARGUMENTS_KEY).Some? <==> exists f :: f in args && f.key == "__malformed_arguments__"
  {
  }

  lemma RecipientsAreCounted(tool: string, args: seq<Field>)
    requires Summarisable(tool, args)
    ensures TooManyRecipients(tool, args) <==>
              tool == "email__send_email" && |Addresses(Find(args, "to")) + Addresses(Find(args, "cc"))| > 50
  {
    if tool == SEND_EMAIL {
      SpreadCountsAddresses(Find(args, "to"));
      SpreadCountsAddresses(Find(args, "cc"));
    }
  }

  /** For every configuration, role, tool and arguments: what is denied, what is allowed,
      and what needs approval. */
  lemma VerdictsExactlyWhen(settings: Settings, role: Role, tool: string, args: seq<Field>)
    ensures Evaluate(settings, role, tool, args) == Some(Deny) <==>
              !SpreadsUnspreadable(tool, args) && Forbidden(settings, role, tool, args)
    ensures Evaluate(settings, role, tool, args) == Some(Allow) <==> Permitted(settings, role, tool, args)
    ensures Evaluate(settings, role, tool, args) == Some(RequireApproval) <==>
              && !SpreadsUnspreadable(tool, args) && !Forbidden(settings, role, tool, args)
              && !Registered(settings, tool, Read)
              && (Registered(settings, tool, Write) ==> settings.approvalForWrites)
  {
    VerdictFailsExactlyWhen(settings, role, tool, args);
    MalformedExactlyWhenFound(args);
    if Summarisable(tool, args) { RecipientsAreCounted(tool, args); }
  }

  /** The gated tools are those registered as high risk, those nobody registered, and
      writes if the deployment gates them. */
  lemma GatedExactlyWhen(settings: Settings, tool: string)
    ensures Gated(settings, tool) <==>
              || tool !in settings.registry || settings.registry[tool] == HighRisk
              || (settings.registry[tool] == Write && settings.approvalForWrites)
  {
  }

  /** Reordering the keys of the arguments, at any depth, changes no verdict. */
  lemma {:induction false} VerdictIgnoresKeyOrder(
    settings: Settings, role: Role, tool: string, args: seq<Field>, args': seq<Field>)
    requires WellFormed(Obj(args)) && WellFormed(Obj(args')) && Equiv(Obj(args), Obj(args'))
    ensures Evaluate(settings, role, tool, args) == Evaluate(settings, role, tool, args')
  {
    SpreadIgnoresKeyOrder(args, args', "to");
    SpreadIgnoresKeyOrder(args, args', "cc");
    SpreadIgnoresKeyOrder(args, args', "attendees");
    FoundAlike(args, args', MALFORMED_ARGUMENTS_KEY);
  }

  lemma {:induction false} SpreadIgnoresKeyOrder(args: seq<Field>, args': seq<Field>, key: string)
    requires WellFormed(Obj(args)) && WellFormed(Obj(args')) && Equiv(Obj(args), Obj(args'))
    ensures Spread(Find(args, key)) == Spread(Find(args', key))
  {
    FoundAlike(args, args', key);
    if Find(args, key).Some? && Find(args, key).value.Obj? {
      EquivSameSize(Find(args, key).value.fields, Find(args', key).value.fields);
    }
  }

  lemma EquivSameSize(fs: seq<Field>, gs: seq<Field>)
    requires WellFormed(Obj(fs)) && WellFormed(Obj(gs)) && Equiv(Obj(fs), Obj(gs))
    ensures |fs| == |gs|
  {
    EquivSortsAlike(Obj(fs), Obj(gs));
    SortKeepsSize(SortedChildren(fs));
    SortKeepsSize(SortedChildren(gs));
  }

  lemma {:induction false} InsertKeepsSize(f: Field, fs: seq<Field>)
    ensures |Insert(f, fs)| == |fs| + 1
  {
    if fs == [] {
    } else {
      InsertKeepsSize(f, fs[1..]);
    }
  }

  lemma {:induction false} SortKeepsSize(fs: seq<Field>)
    ensures |SortFields(fs)| == |fs|
  {
    if fs == [] {
    } else {
      SortKeepsSize(fs[1..]);
      InsertKeepsSize(fs[0], SortFields(fs[1..]));
    }
  }

  /** Anyone who may approve an action is judged as its proposer was: a confirmed
      request meets the same verdict again. */
  lemma ApprovalVerdictRecurs(
    settings: Settings, proposer: Role, approver: Role, tool: string, args: seq<Field>, args': seq<Field>)
    requires WellFormed(Obj(args)) && WellFormed(Obj(args')) && Equiv(Obj(args), Obj(args'))
    requires Evaluate(settings, proposer, tool, args) == Some(RequireApproval) && !approver.Viewer?
    ensures Evaluate(settings, approver, tool, args') == Some(RequireApproval)
  {
    VerdictIgnoresKeyOrder(settings, approver, tool, args, args');
  }
}
