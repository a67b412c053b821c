/** A request that is raised, confirmed in time and executed goes through, whatever happens
    to other requests in between (`app/services/tool_execution_service.py`). */
module GatewayProgress {
  import opened Json
  import opened CanonicalJson
  import opened Approvals
  import opened SchemaValidation
  import opened ToolGateway
  import opened GrantAdmission
  import opened RequestLifecycle
  import Policy

  /** An operation that does nothing to a request which is not decided for good: it does not
      edit it, is not sent under it, and leaves its status alone.  All operations on other
      requests are of this kind, and on this one those of users who may not decide it, of
      grants that do not verify, and bulk expiries before its time. */
  ghost predicate Harmless(cfg: Config, row: Row, op: Op, id: Id)
    requires ValidConfig(cfg)
  {
    && (op.Tamper? ==> op.id != id)
    && NextStatus(cfg.hash, row, op, id, Reaches(cfg, op)) == row.status
    && !SentBy(cfg.hash, row, op, id, Reaches(cfg, op))
  }

  ghost predicate AllHarmless(cfg: Config, row: Row, ops: seq<Op>, id: Id)
    requires ValidConfig(cfg)
  {
    forall i :: 0 <= i < |ops| ==> Harmless(cfg, row, ops[i], id)
  }

  /** By those who may not decide the request, with grants that do not verify, or too early. */
  predicate ByStrangers(cfg: Config, row: Row, op: Op, id: Id) {
    match op
    case Propose(_, _, _, _, _) => true
    case Present(call, g, _, now, _) =>
      g.id == id && row.status.Approved? ==>
        now < row.expiresAt && Intact(cfg.hash, row) && !Verifiable(cfg, map[id := row], g, call.tool, now)
    case ConfirmOp(k, u, _, _) => k == id ==> !Entitled(u, row)
    case RejectOp(k, u, _) => k == id ==> !Entitled(u, row)
    case ExpireOp(moment) => row.status.Pending? ==> moment < row.expiresAt
    case Tamper(k, _) => k != id
  }

  lemma StrangersAreHarmless(cfg: Config, row: Row, op: Op, id: Id)
    requires ValidConfig(cfg) && (row.status.Pending? || row.status.Approved?) && ByStrangers(cfg, row, op, id)
    ensures Harmless(cfg, row, op, id)
  {
  }

  lemma GrantedHarmless(cfg: Config, w: World, op: Op, id: Id)
    requires id in w.rows && op.Present? && (w.rows[id].status.Pending? || w.rows[id].status.Approved?)
    requires NextStatus(cfg.hash, w.rows[id], op, id, true) == w.rows[id].status
    requires !SentBy(cfg.hash, w.rows[id], op, id, true)
    ensures var w' := ExecuteGranted(cfg, w, op.call, op.grant, op.now, op.fate).0;
            w'.next == w.next && id in w'.rows && w'.rows[id] == w.rows[id]
  {
  }

  lemma DecisionHarmless(cfg: Config, w: World, op: Op, id: Id)
    requires ValidConfig(cfg) && id in w.rows && !op.Present? && !op.Propose?
    requires w.rows[id].status.Pending? || w.rows[id].status.Approved?
    requires Harmless(cfg, w.rows[id], op, id)
    ensures var w' := Step(cfg, w, op); w'.next == w.next && id in w'.rows && w'.rows[id] == w.rows[id]
  {
  }

  lemma {:induction false} HarmlessLeavesRow(cfg: Config, w: World, op: Op, id: Id)
    requires ValidConfig(cfg) && id in w.rows && id < w.next && Harmless(cfg, w.rows[id], op, id)
    requires w.rows[id].status.Pending? || w.rows[id].status.Approved?
    ensures var w' := Step(cfg, w, op); id in w'.rows && id < w'.next && w'.rows[id] == w.rows[id]
  {
    if op.Propose? {
      ExecuteDoesOneOfFour(cfg, w, op.call, op.role, None, op.owner, op.now, op.fate);
    } else if op.Present? {
      PresentDoesOneOfThree(cfg, w, op.call, op.role, op.grant, op.now, op.fate);
      if Reaches(cfg, op) { GrantedHarmless(cfg, w, op, id); }
    } else {
      DecisionHarmless(cfg, w, op, id);
    }
  }

  lemma {:induction false} RunOfHarmlessLeavesRow(cfg: Config, w: World, ops: seq<Op>, id: Id)
    requires ValidConfig(cfg) && id in w.rows && id < w.next && AllHarmless(cfg, w.rows[id], ops, id)
    requires w.rows[id].status.Pending? || w.rows[id].status.Approved?
    ensures var w' := Run(cfg, w, ops); id in w'.rows && id < w'.next && w'.rows[id] == w.rows[id]
    decreases |ops|
  {
    if ops == [] {
    } else {
      var before := ops[..|ops| - 1];
      RunOfHarmlessLeavesRow(cfg, w, before, id);
      HarmlessLeavesRow(cfg, Run(cfg, w, before), ops[|ops| - 1], id);
    }
  }

  // ------------------------------------------------------------------ the three steps --

  /** The row of a request as the database returns it, its keys perhaps in another order. */
  function StoredRow(cfg: Config, call: Call, owner: UserId, raised: Time, stored: seq<Field>): Row {
    NewRow(cfg.hash, owner, call.tool, call.args, raised + cfg.ttl).(args := stored)
  }

  /** The row once it is approved. */
  function Decided(row: Row, u: User, moment: Time): Row {
    row.(status := Approved, decidedBy := Some(u.id), decidedAt := Some(moment))
  }

  lemma ProposalRaises(cfg: Config, w: World, call: Call, role: Policy.Role, owner: UserId, now: Time, fate: Fate)
    requires ValidConfig(cfg)
    requires Execute(cfg, w, call, role, None, Some(owner), now, fate).1.AwaitsApproval?
    ensures Execute(cfg, w, call, role, None, Some(owner), now, fate)
            == (RequestApproval(cfg, w, call, owner, now), AwaitsApproval(w.next))
    ensures Admitted(cfg, call, role)
  {
  }

  lemma StoredThenConfirmed(
    cfg: Config, t: Table, id: Id, call: Call, owner: UserId, raised: Time, stored: seq<Field>,
    u: User, checked: Time, moment: Time)
    requires Binding(cfg.hash) && WellFormed(Obj(call.args)) && WellFormed(Obj(stored))
    requires Equiv(Obj(call.args), Obj(stored)) && CanApprove(u) && (u.role.Admin? || u.id == owner)
    requires checked <= moment < raised + cfg.ttl && id in t && t[id] == StoredRow(cfg, call, owner, raised, stored)
    ensures var (t', r) := Confirm(cfg.hash, t, id, u, checked, moment);
            && r == Ok(GrantFor(id, t[id], u.id))
            && id in t' && t'[id] == Decided(t[id], u, moment)
  {
    HashesAgree(cfg.hash, Obj(call.args), Obj(stored));
  }

  /** The second passage through the gateway meets no obstacle before the grant. */
  lemma ApprovedCallIsAdmitted(cfg: Config, call: Call, role: Policy.Role, stored: seq<Field>, u: User)
    requires ValidConfig(cfg) && WellFormed(Obj(call.args)) && WellFormed(Obj(stored))
    requires Equiv(Obj(call.args), Obj(stored)) && !u.role.Viewer? && Admitted(cfg, call, role)
    ensures Admitted(cfg, Call(call.tool, stored), u.role)
  {
    AcceptedCallIsAcceptedAgain(call.args, stored, cfg.catalog[call.tool], SomeRank(cfg.catalog[call.tool].defs));
    Policy.ApprovalVerdictRecurs(cfg.settings, role, u.role, call.tool, call.args, stored);
  }

  lemma ApprovedRowIsRedeemed(
    cfg: Config, w: World, id: Id, call: Call, stored: seq<Field>, row: Row, u: User, now: Time, fate: Fate)
    requires ValidConfig(cfg) && Admitted(cfg, Call(call.tool, stored), u.role)
    requires id in w.rows && w.rows[id] == row && row.status.Approved? && now < row.expiresAt && row.args == stored
    requires row.tool == call.tool && row.hash == cfg.hash(Obj(stored))
    ensures var g := GrantFor(id, row, u.id);
            Step(cfg, w, Present(CallOf(g), g, u.role, now, fate)) == RunApproved(w, id, Call(call.tool, stored), fate)
  {
    var g := GrantFor(id, row, u.id);
    PresentDoesOneOfThree(cfg, w, CallOf(g), u.role, g, now, fate);
    GrantedRunsExactlyWhenVerifiable(cfg, w, CallOf(g), g, now, fate);
  }

  lemma RequestIsAsked(
    cfg: Config, w0: World, call: Call, role: Policy.Role, owner: UserId, raised: Time, any: Fate, stored: seq<Field>)
    requires ValidConfig(cfg)
    requires Execute(cfg, w0, call, role, None, Some(owner), raised, any).1.AwaitsApproval?
    ensures Admitted(cfg, call, role)
    ensures var pending := Step(cfg, w0, Propose(call, role, Some(owner), raised, any));
            var asked := Step(cfg, pending, Tamper(w0.next, stored));
            && w0.next in asked.rows && w0.next < asked.next
            && asked.rows[w0.next] == StoredRow(cfg, call, owner, raised, stored)
  {
    ProposalRaises(cfg, w0, call, role, owner, raised, any);
  }

  /** From the stored request on. */
  lemma {:induction false} AskedRequestRunsOnce(
    cfg: Config, asked: World, id: Id, call: Call, role: Policy.Role, owner: UserId, raised: Time, stored: seq<Field>,
    meanwhile: seq<Op>, u: User, checked: Time, moment: Time, waiting: seq<Op>, now: Time, fate: Fate)
    requires ValidConfig(cfg) && WellFormed(Obj(call.args)) && Admitted(cfg, call, role)
    requires WellFormed(Obj(stored)) && Equiv(Obj(call.args), Obj(stored))
    requires id in asked.rows && id < asked.next && asked.rows[id] == StoredRow(cfg, call, owner, raised, stored)
    requires CanApprove(u) && (u.role.Admin? || u.id == owner)
    requires checked <= moment < raised + cfg.ttl && now < raised + cfg.ttl
    requires var row := StoredRow(cfg, call, owner, raised, stored);
             AllHarmless(cfg, row, meanwhile, id) && AllHarmless(cfg, Decided(row, u, moment), waiting, id)
    ensures var ready := Run(cfg, asked, meanwhile);
            var confirmed := Step(cfg, ready, ConfirmOp(id, u, checked, moment));
            var due := Run(cfg, confirmed, waiting);
            var r := Confirm(cfg.hash, ready.rows, id, u, checked, moment).1;
            && r.Ok? && CallOf(r.value) == Call(call.tool, stored) && id in due.rows
            && Step(cfg, due, Present(CallOf(r.value), r.value, u.role, now, fate))
               == RunApproved(due, id, Call(call.tool, stored), fate)
  {
    RunOfHarmlessLeavesRow(cfg, asked, meanwhile, id);
    var ready := Run(cfg, asked, meanwhile);
    StoredThenConfirmed(cfg, ready.rows, id, call, owner, raised, stored, u, checked, moment);
    var confirmed := Step(cfg, ready, ConfirmOp(id, u, checked, moment));
    RunOfHarmlessLeavesRow(cfg, confirmed, waiting, id);
    ApprovedCallIsAdmitted(cfg, call, role, stored, u);
    HashesAgree(cfg.hash, Obj(call.args), Obj(stored));
    var due := Run(cfg, confirmed, waiting);
    ApprovedRowIsRedeemed(cfg, due, id, call, stored, due.rows[id], u, now, fate);
  }

  // ----------------------------------------------------------------------- progress --

  /** A request raised by `execute`, stored (the database may reorder its keys), and
      confirmed by an entitled user before it expires passes every check again, is sent
      once with the arguments that were shown, and its row is marked if an answer comes.
      Anything may happen in between that is harmless to it. */
  lemma {:induction false} ConfirmedRequestRunsOnce(
    cfg: Config, w0: World, call: Call, role: Policy.Role, owner: UserId, raised: Time, any: Fate, stored: seq<Field>,
    meanwhile: seq<Op>, u: User, checked: Time, moment: Time, waiting: seq<Op>, now: Time, fate: Fate)
    requires ValidConfig(cfg) && WellFormed(Obj(call.args))
    requires Execute(cfg, w0, call, role, None, Some(owner), raised, any).1.AwaitsApproval?
    requires WellFormed(Obj(stored)) && Equiv(Obj(call.args), Obj(stored))
    requires CanApprove(u) && (u.role.Admin? || u.id == owner)
    requires checked <= moment < raised + cfg.ttl && now < raised + cfg.ttl
    requires var row := StoredRow(cfg, call, owner, raised, stored);
             AllHarmless(cfg, row, meanwhile, w0.next) && AllHarmless(cfg, Decided(row, u, moment), waiting, w0.next)
    ensures var id := w0.next;
            var asked := Step(cfg, Step(cfg, w0, Propose(call, role, Some(owner), raised, any)), Tamper(id, stored));
            var ready := Run(cfg, asked, meanwhile);
            var confirmed := Step(cfg, ready, ConfirmOp(id, u, checked, moment));
            var due := Run(cfg, confirmed, waiting);
            var r := Confirm(cfg.hash, ready.rows, id, u, checked, moment).1;
            && r.Ok? && CallOf(r.value) == Call(call.tool, stored) && id in due.rows
            && Step(cfg, due, Present(CallOf(r.value), r.value, u.role, now, fate))
               == RunApproved(due, id, Call(call.tool, stored), fate)
  {
    RequestIsAsked(cfg, w0, call, role, owner, raised, any, stored);
    var asked := Step(cfg, Step(cfg, w0, Propose(call, role, Some(owner), raised, any)), Tamper(w0.next, stored));
    AskedRequestRunsOnce(cfg, asked, w0.next, call, role, owner, raised, stored,
                         meanwhile, u, checked, moment, waiting, now, fate);
  }
}
