/** The one path to dispatch (`app/services/tool_execution_service.py`) as a step on the
    approvals table and the log of dispatched calls, and what holds over every run of
    such steps, whatever grants are presented. */
module ToolGateway {
  import opened Json
  import opened CanonicalJson
  import opened Approvals
  import opened SchemaValidation
  import Policy

  datatype Config = Config(
    settings: Policy.Settings,
    catalog: map<string, ToolSchema>,
    hash: Hash,
    ttl: nat)

  ghost predicate ValidConfig(cfg: Config) {
    Binding(cfg.hash) && forall tool :: tool in cfg.catalog ==> Rankable(cfg.catalog[tool].defs)
  }

  datatype Call = Call(tool: string, args: seq<Field>)

  /** What becomes of a call once it has left: an answer, an exception while dispatching
      counting as a failure, or an interruption (a cancelled request, a commit that fails)
      after which nothing more is done. */
  datatype Fate = Answered(success: bool) | Interrupted

  /** A call that left for its server, under an approval or without one; `marked` says
      whether its row was marked afterwards. */
  datatype Dispatch = Dispatch(approval: Option<Id>, call: Call, marked: bool)

  /** `proposed` is history: what each request was created for. */
  datatype World = World(rows: Table, next: Id, proposed: map<Id, Call>, dispatched: seq<Dispatch>)

  const EMPTY := World(map[], 0, map[], [])

  datatype Outcome =
    | Ran(success: bool)
    | AwaitsApproval(id: Id)
    | Refused
    | Raised(failure: Failure)
    | Crashed

  function OutcomeOf(fate: Fate): Outcome {
    match fate
    case Answered(success) => Ran(success)
    case Interrupted => Crashed
  }

  function Dispatched(w: World, approval: Option<Id>, call: Call, fate: Fate): World {
    w.(dispatched := w.dispatched + [Dispatch(approval, call, fate.Answered?)])
  }

  function RequestApproval(cfg: Config, w: World, call: Call, owner: UserId, now: Time): World {
    World(w.rows[w.next := NewRow(cfg.hash, owner, call.tool, call.args, now + cfg.ttl)],
          w.next + 1, w.proposed[w.next := call], w.dispatched)
  }

  /** The mark an answered call leaves on its row. */
  function Marked(rows: Table, id: Id, fate: Fate): Table
    requires id in rows
  {
    match fate
    case Answered(success) => WriteStatus(rows, id, if success then Executed else Failed)
    case Interrupted => rows
  }

  /** A dispatch under a verified approval, and the mark it leaves on the row. */
  function RunApproved(w: World, id: Id, call: Call, fate: Fate): World
    requires id in w.rows
  {
    Dispatched(w, Some(id), call, fate).(rows := Marked(w.rows, id, fate))
  }

  /** A call presented with a grant: verified against the row, then run. */
  function ExecuteGranted(cfg: Config, w: World, call: Call, g: Grant, now: Time, fate: Fate): (World, Outcome) {
    var (t, r) := VerifyGrant(cfg.hash, w.rows, g, call.tool, now);
    match r
    case Err(failure) => (w.(rows := t), Raised(failure))
    case Ok(_) => (RunApproved(w, g.id, call, fate), OutcomeOf(fate))
  }

  /** `ToolExecutionService.execute`. */
  ghost function Execute(
    cfg: Config, w: World, call: Call, role: Policy.Role, grant: Option<Grant>, owner: Option<UserId>,
    now: Time, fate: Fate): (World, Outcome)
    requires ValidConfig(cfg)
  {
    if call.tool !in cfg.catalog || !Fits(call.args, cfg.catalog[call.tool]) then (w, Refused)
    else
      match Policy.Evaluate(cfg.settings, role, call.tool, call.args)
      case None => (w, Crashed)
      case Some(Deny) => (w, Refused)
      case Some(Allow) => (Dispatched(w, None, call, fate), OutcomeOf(fate))
      case Some(RequireApproval) =>
        match grant
        case None =>
          if owner.None? then (w, Refused)
          else (RequestApproval(cfg, w, call, owner.value, now), AwaitsApproval(w.next))
        case Some(g) => ExecuteGranted(cfg, w, call, g, now, fate)
  }

  /** The four things `execute` can do to the world. */
  ghost predicate ExecutesTo(
    cfg: Config, w: World, call: Call, grant: Option<Grant>, owner: Option<UserId>, now: Time, fate: Fate, w': World)
  {
    || w' == w
    || (w' == Dispatched(w, None, call, fate) && !Policy.Gated(cfg.settings, call.tool))
    || (Policy.Gated(cfg.settings, call.tool) && grant.None? && owner.Some? &&
        w' == RequestApproval(cfg, w, call, owner.value, now))
    || (Policy.Gated(cfg.settings, call.tool) && grant.Some? &&
        w' == ExecuteGranted(cfg, w, call, grant.value, now, fate).0)
  }

  lemma ExecuteDoesOneOfFour(
    cfg: Config, w: World, call: Call, role: Policy.Role, grant: Option<Grant>, owner: Option<UserId>,
    now: Time, fate: Fate)
    requires ValidConfig(cfg)
    ensures ExecutesTo(cfg, w, call, grant, owner, now, fate, Execute(cfg, w, call, role, grant, owner, now, fate).0)
  {
  }

  /** When a call raises a `TypeError` and is neither refused nor sent: it passes the
      argument check with recipients, or attendees, that the summary cannot spread. */
  lemma CrashesUnsentExactlyWhen(
    cfg: Config, w: World, call: Call, role: Policy.Role, grant: Option<Grant>, owner: Option<UserId>,
    now: Time, fate: Fate)
    requires ValidConfig(cfg)
    ensures var (w', outcome) := Execute(cfg, w, call, role, grant, owner, now, fate);
            outcome.Crashed? && w'.dispatched == w.dispatched <==>
              && call.tool in cfg.catalog && Fits(call.args, cfg.catalog[call.tool])
              && Policy.SpreadsUnspreadable(call.tool, call.args)
  {
    Policy.VerdictFailsExactlyWhen(cfg.settings, role, call.tool, call.args);
  }

  /** A gated call that gets as far as the grant: known tool, acceptable arguments, and a
      verdict that asks for approval. */
  ghost predicate Admitted(cfg: Config, call: Call, role: Policy.Role)
    requires ValidConfig(cfg)
  {
    && call.tool in cfg.catalog && Fits(call.args, cfg.catalog[call.tool])
    && Policy.Evaluate(cfg.settings, role, call.tool, call.args) == Some(Policy.RequireApproval)
  }

  /** With a grant, an admitted call goes through the grant check; any other is refused or
      is sent without an approval because it needs none. */
  ghost predicate PresentsTo(
    cfg: Config, w: World, call: Call, role: Policy.Role, g: Grant, now: Time, fate: Fate, w': World)
    requires ValidConfig(cfg)
  {
    if Admitted(cfg, call, role)
    then Policy.Gated(cfg.settings, call.tool) && w' == ExecuteGranted(cfg, w, call, g, now, fate).0
    else w' == w || (w' == Dispatched(w, None, call, fate) && !Policy.Gated(cfg.settings, call.tool))
  }

  lemma PresentDoesOneOfThree(cfg: Config, w: World, call: Call, role: Policy.Role, g: Grant, now: Time, fate: Fate)
    requires ValidConfig(cfg)
    ensures PresentsTo(cfg, w, call, role, g, now, fate, Execute(cfg, w, call, role, Some(g), None, now, fate).0)
    ensures Admitted(cfg, call, role) ==>
              Execute(cfg, w, call, role, Some(g), None, now, fate) == ExecuteGranted(cfg, w, call, g, now, fate)
  {
  }

  /** `execute_approved`: the call is the one the grant names. */
  function CallOf(g: Grant): Call { Call(g.tool, g.args) }

  datatype Op =
    | Propose(call: Call, role: Policy.Role, owner: Option<UserId>, now: Time, fate: Fate)
    | Present(call: Call, grant: Grant, role: Policy.Role, now: Time, fate: Fate)
    | ConfirmOp(id: Id, user: User, checked: Time, moment: Time)
    | RejectOp(id: Id, user: User, moment: Time)
    | ExpireOp(moment: Time)
    | Tamper(id: Id, args: seq<Field>)

  /** Dictionaries have distinct keys; nothing else is asked of an operation.  The grant
      in `Present` may be forged, replayed or altered. */
  ghost predicate ValidOp(op: Op) {
    match op
    case Propose(call, _, _, _, _) => WellFormed(Obj(call.args))
    case Present(call, g, _, _, _) => WellFormed(Obj(call.args)) && WellFormed(Obj(g.args))
    case Tamper(_, args) => WellFormed(Obj(args))
    case _ => true
  }

  ghost function Step(cfg: Config, w: World, op: Op): World
    requires ValidConfig(cfg)
  {
    match op
    case Propose(call, role, owner, now, fate) => Execute(cfg, w, call, role, None, owner, now, fate).0
    case Present(call, g, role, now, fate) => Execute(cfg, w, call, role, Some(g), None, now, fate).0
    case ConfirmOp(id, u, checked, moment) => w.(rows := Confirm(cfg.hash, w.rows, id, u, checked, moment).0)
    case RejectOp(id, u, moment) => w.(rows := Reject(w.rows, id, u, moment).0)
    case ExpireOp(moment) => w.(rows := ExpireStale(w.rows, moment))
    case Tamper(id, args) => if id in w.rows then w.(rows := w.rows[id := w.rows[id].(args := args)]) else w
  }

  ghost function Run(cfg: Config, w: World, ops: seq<Op>): World
    requires ValidConfig(cfg)
  {
    if ops == [] then w else Step(cfg, Run(cfg, w, ops[..|ops| - 1]), ops[|ops| - 1])
  }

  // ---------------------------------------------------------------- invariant --

  /** A row still describes the call it was raised for; tampering can only have reached
      the stored arguments. */
  ghost predicate RaisedFor(cfg: Config, row: Row, call: Call) {
    && row.tool == call.tool
    && row.hash == cfg.hash(Obj(call.args))
    && WellFormed(Obj(call.args)) && WellFormed(Obj(row.args))
    && Policy.Gated(cfg.settings, call.tool)
  }

  ghost predicate RowsSound(cfg: Config, w: World) {
    && (forall id :: id in w.proposed ==> id < w.next)
    && (forall id :: id in w.rows ==> id in w.proposed && RaisedFor(cfg, w.rows[id], w.proposed[id]))
  }

  ghost predicate LogSound(cfg: Config, w: World) {
    forall i :: 0 <= i < |w.dispatched| ==> Accounted(cfg, w, w.dispatched[i])
  }

  /** Only a call whose row was left unmarked is ever followed by another under the same
      approval. */
  ghost predicate MarkedOnce(log: seq<Dispatch>) {
    forall i, j :: 0 <= i < j < |log| && log[i].approval.Some? && log[i].marked ==> log[j].approval != log[i].approval
  }

  ghost predicate Inv(cfg: Config, w: World) {
    RowsSound(cfg, w) && LogSound(cfg, w) && MarkedOnce(w.dispatched)
  }

  /** A gated tool ran under an approval that was raised for it; once the row is marked
      that approval can never be used again. */
  ghost predicate Accounted(cfg: Config, w: World, d: Dispatch) {
    match d.approval
    case None => !Policy.Gated(cfg.settings, d.call.tool)
    case Some(id) =>
      && id in w.rows && id in w.proposed
      && w.proposed[id].tool == d.call.tool
      && (d.marked ==> w.rows[id].status.Executed? || w.rows[id].status.Failed?)
  }

  lemma LegalRowStaysSound(cfg: Config, row: Row, row': Row, call: Call)
    requires RaisedFor(cfg, row, call) && SameRequest(row, row')
    ensures RaisedFor(cfg, row', call)
  {
  }

  lemma LegalTableStaysAccounted(cfg: Config, w: World, t: Table, d: Dispatch)
    requires Accounted(cfg, w, d) && LegalStep(cfg.hash, w.rows, t)
    ensures Accounted(cfg, w.(rows := t), d)
  {
    if d.approval.Some? { assert LegalRow(cfg.hash, w.rows[d.approval.value], t[d.approval.value]); }
  }

  lemma {:induction false} LegalTableKeepsInv(cfg: Config, w: World, t: Table)
    requires Inv(cfg, w) && LegalStep(cfg.hash, w.rows, t)
    ensures Inv(cfg, w.(rows := t))
  {
    forall id | id in t ensures RaisedFor(cfg, t[id], w.proposed[id]) {
      LegalRowStaysSound(cfg, w.rows[id], t[id], w.proposed[id]);
    }
    forall i | 0 <= i < |w.dispatched| ensures Accounted(cfg, w.(rows := t), w.dispatched[i]) {
      LegalTableStaysAccounted(cfg, w, t, w.dispatched[i]);
    }
  }

  lemma RequestKeepsInv(cfg: Config, w: World, call: Call, owner: UserId, now: Time)
    requires Inv(cfg, w) && WellFormed(Obj(call.args)) && Policy.Gated(cfg.settings, call.tool)
    ensures Inv(cfg, RequestApproval(cfg, w, call, owner, now))
  {
    var w' := RequestApproval(cfg, w, call, owner, now);
    forall id | id in w'.rows ensures id in w'.proposed && RaisedFor(cfg, w'.rows[id], w'.proposed[id]) {
      if id != w.next { assert RaisedFor(cfg, w.rows[id], w.proposed[id]); }
    }
    forall i | 0 <= i < |w.dispatched| ensures Accounted(cfg, w', w.dispatched[i]) {
      assert Accounted(cfg, w, w.dispatched[i]);
    }
  }

  lemma FreeRunKeepsInv(cfg: Config, w: World, call: Call, fate: Fate)
    requires Inv(cfg, w) && !Policy.Gated(cfg.settings, call.tool)
    ensures Inv(cfg, Dispatched(w, None, call, fate))
  {
    var w' := Dispatched(w, None, call, fate);
    forall i | 0 <= i < |w'.dispatched| ensures Accounted(cfg, w', w'.dispatched[i]) {
      if i < |w.dispatched| { assert Accounted(cfg, w, w.dispatched[i]); }
    }
  }

  /** Only an approved row can be run, and no marked row in the log is approved: this is
      why an approval is not used again. */
  lemma ApprovedRunKeepsInv(cfg: Config, w: World, id: Id, call: Call, fate: Fate)
    requires Inv(cfg, w) && id in w.rows && w.rows[id].status.Approved? && w.rows[id].tool == call.tool
    ensures Inv(cfg, RunApproved(w, id, call, fate))
  {
    var w' := RunApproved(w, id, call, fate);
    forall k | k in w'.rows ensures RaisedFor(cfg, w'.rows[k], w'.proposed[k]) {
      assert RaisedFor(cfg, w.rows[k], w.proposed[k]);
    }
    forall i | 0 <= i < |w.dispatched|
      ensures Accounted(cfg, w', w.dispatched[i])
      ensures w.dispatched[i].marked ==> w.dispatched[i].approval != Some(id)
    {
      assert Accounted(cfg, w, w.dispatched[i]);
    }
    assert Accounted(cfg, w', Dispatch(Some(id), call, fate.Answered?));
  }

  lemma {:induction false} GrantedKeepsInv(cfg: Config, w: World, call: Call, g: Grant, now: Time, fate: Fate)
    requires Inv(cfg, w)
    ensures Inv(cfg, ExecuteGranted(cfg, w, call, g, now, fate).0)
  {
    VerifyGrantIsLegal(cfg.hash, w.rows, g, call.tool, now);
    var (t, r) := VerifyGrant(cfg.hash, w.rows, g, call.tool, now);
    if r.Ok? { ApprovedRunKeepsInv(cfg, w, g.id, call, fate); } else { LegalTableKeepsInv(cfg, w, t); }
  }

  lemma {:induction false} ExecutedKeepsInv(
    cfg: Config, w: World, call: Call, grant: Option<Grant>, owner: Option<UserId>, now: Time, fate: Fate, w': World)
    requires Inv(cfg, w) && WellFormed(Obj(call.args))
    requires ExecutesTo(cfg, w, call, grant, owner, now, fate, w')
    ensures Inv(cfg, w')
  {
    if w' == w {
    } else if !Policy.Gated(cfg.settings, call.tool) {
      FreeRunKeepsInv(cfg, w, call, fate);
    } else if grant.None? {
      RequestKeepsInv(cfg, w, call, owner.value, now);
    } else {
      GrantedKeepsInv(cfg, w, call, grant.value, now, fate);
    }
  }

  lemma TamperKeepsInv(cfg: Config, w: World, id: Id, args: seq<Field>)
    requires Inv(cfg, w) && id in w.rows && WellFormed(Obj(args))
    ensures Inv(cfg, w.(rows := w.rows[id := w.rows[id].(args := args)]))
  {
    var w' := w.(rows := w.rows[id := w.rows[id].(args := args)]);
    forall k | k in w'.rows ensures RaisedFor(cfg, w'.rows[k], w'.proposed[k]) {
      assert RaisedFor(cfg, w.rows[k], w.proposed[k]);
    }
    forall i | 0 <= i < |w'.dispatched| ensures Accounted(cfg, w', w'.dispatched[i]) {
      assert Accounted(cfg, w, w.dispatched[i]);
    }
  }

  lemma {:induction false} StepKeepsInv(cfg: Config, w: World, op: Op)
    requires ValidConfig(cfg) && Inv(cfg, w) && ValidOp(op)
    ensures Inv(cfg, Step(cfg, w, op))
  {
    match op
    case Propose(call, role, owner, now, fate) =>
      ExecuteDoesOneOfFour(cfg, w, call, role, None, owner, now, fate);
      ExecutedKeepsInv(cfg, w, call, None, owner, now, fate, Step(cfg, w, op));
    case Present(call, g, role, now, fate) =>
      ExecuteDoesOneOfFour(cfg, w, call, role, Some(g), None, now, fate);
      ExecutedKeepsInv(cfg, w, call, Some(g), None, now, fate, Step(cfg, w, op));
    case ConfirmOp(id, u, checked, moment) =>
      ConfirmIsLegal(cfg.hash, w.rows, id, u, checked, moment);
      LegalTableKeepsInv(cfg, w, Confirm(cfg.hash, w.rows, id, u, checked, moment).0);
    case RejectOp(id, u, moment) =>
      RejectIsLegal(cfg.hash, w.rows, id, u, moment);
      LegalTableKeepsInv(cfg, w, Reject(w.rows, id, u, moment).0);
    case ExpireOp(moment) =>
      ExpireStaleIsLegal(cfg.hash, w.rows, moment);
      LegalTableKeepsInv(cfg, w, ExpireStale(w.rows, moment));
    case Tamper(id, args) => if id in w.rows { TamperKeepsInv(cfg, w, id, args); }
  }

  lemma {:induction false} RunKeepsInv(cfg: Config, w: World, ops: seq<Op>)
    requires ValidConfig(cfg) && Inv(cfg, w)
    requires forall i :: 0 <= i < |ops| ==> ValidOp(ops[i])
    ensures Inv(cfg, Run(cfg, w, ops))
  {
    if ops == [] {
    } else {
      RunKeepsInv(cfg, w, ops[..|ops| - 1]);
      StepKeepsInv(cfg, Run(cfg, w, ops[..|ops| - 1]), ops[|ops| - 1]);
    }
  }
}
