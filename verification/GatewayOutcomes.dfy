/** What `execute` answers to every call, with or without a grant, and what it sends and
    stores (`app/services/tool_execution_service.py`): stated on the role, the registry,
    the arguments and the row, not on the functions that decide. */
module GatewayOutcomes {
  import opened Json
  import opened Approvals
  import opened SchemaValidation
  import opened ToolGateway
  import opened GrantAdmission
  import Policy

  /** A known tool, and arguments its schema accepts. */
  ghost predicate Acceptable(cfg: Config, call: Call)
    requires ValidConfig(cfg)
  {
    call.tool in cfg.catalog && Fits(call.args, cfg.catalog[call.tool])
  }

  /** The call may leave on the model's word alone. */
  ghost predicate GoesFreely(cfg: Config, call: Call, role: Policy.Role)
    requires ValidConfig(cfg)
  {
    Acceptable(cfg, call) && Policy.Permitted(cfg.settings, role, call.tool, call.args)
  }

  /** Its summary can be composed, nothing forbids it, and it is neither a registered
      reading tool nor a write that is not gated. */
  ghost predicate WaitsForApproval(cfg: Config, call: Call, role: Policy.Role)
    requires ValidConfig(cfg)
  {
    && Acceptable(cfg, call) && !Policy.SpreadsUnspreadable(call.tool, call.args)
    && !Policy.Forbidden(cfg.settings, role, call.tool, call.args)
    && !Policy.Registered(cfg.settings, call.tool, Policy.Read)
    && (Policy.Registered(cfg.settings, call.tool, Policy.Write) ==> cfg.settings.approvalForWrites)
  }

  lemma AdmittedExactlyWhenWaiting(cfg: Config, call: Call, role: Policy.Role)
    requires ValidConfig(cfg)
    ensures Admitted(cfg, call, role) <==> WaitsForApproval(cfg, call, role)
  {
    Policy.VerdictsExactlyWhen(cfg.settings, role, call.tool, call.args);
  }

  /** The call leaves under the approval of its grant. */
  ghost predicate Redeemed(cfg: Config, w: World, call: Call, role: Policy.Role, grant: Option<Grant>, now: Time)
    requires ValidConfig(cfg)
  {
    WaitsForApproval(cfg, call, role) && grant.Some? && Verifiable(cfg, w.rows, grant.value, call.tool, now)
  }

  /** What every call sends: itself, freely or under its approval, or nothing. */
  lemma SendsExactly(
    cfg: Config, w: World, call: Call, role: Policy.Role, grant: Option<Grant>, owner: Option<UserId>,
    now: Time, fate: Fate)
    requires ValidConfig(cfg)
    ensures var w' := Execute(cfg, w, call, role, grant, owner, now, fate).0;
            w'.dispatched == w.dispatched +
              (if GoesFreely(cfg, call, role) then [Dispatch(None, call, fate != Interrupted)]
               else if Redeemed(cfg, w, call, role, grant, now) then
                 [Dispatch(Some(grant.value.id), call, fate != Interrupted)]
               else [])
  {
    Policy.VerdictsExactlyWhen(cfg.settings, role, call.tool, call.args);
    AdmittedExactlyWhenWaiting(cfg, call, role);
    if grant.Some? { GrantedRunsExactlyWhenVerifiable(cfg, w, call, grant.value, now, fate); }
  }

  /** What every call is answered. */
  lemma AnswersExactly(
    cfg: Config, w: World, call: Call, role: Policy.Role, grant: Option<Grant>, owner: Option<UserId>,
    now: Time, fate: Fate)
    requires ValidConfig(cfg)
    ensures var outcome := Execute(cfg, w, call, role, grant, owner, now, fate).1;
            var leaves := GoesFreely(cfg, call, role) || Redeemed(cfg, w, call, role, grant, now);
            && (outcome == Ran(true) <==> leaves && fate == Answered(true))
            && (outcome == Ran(false) <==> leaves && fate == Answered(false))
            && (outcome == Crashed <==>
                  || (leaves && fate == Interrupted)
                  || (Acceptable(cfg, call) && Policy.SpreadsUnspreadable(call.tool, call.args)))
            && (outcome == Refused <==>
                  || !Acceptable(cfg, call)
                  || (!Policy.SpreadsUnspreadable(call.tool, call.args)
                      && Policy.Forbidden(cfg.settings, role, call.tool, call.args))
                  || (WaitsForApproval(cfg, call, role) && grant == None && owner == None))
            && (outcome == AwaitsApproval(w.next) <==>
                  WaitsForApproval(cfg, call, role) && grant == None && owner != None)
            && (outcome.Raised? <==>
                  WaitsForApproval(cfg, call, role) && grant != None && !Redeemed(cfg, w, call, role, grant, now))
  {
    Policy.VerdictsExactlyWhen(cfg.settings, role, call.tool, call.args);
    AdmittedExactlyWhenWaiting(cfg, call, role);
    if grant.Some? { GrantedRunsExactlyWhenVerifiable(cfg, w, call, grant.value, now, fate); }
  }

  /** What every call stores: a request that waits, a mark on the row it ran under, or the
      end of a row whose grant came too late or whose arguments were edited. */
  lemma StoresExactly(
    cfg: Config, w: World, call: Call, role: Policy.Role, grant: Option<Grant>, owner: Option<UserId>,
    now: Time, fate: Fate)
    requires ValidConfig(cfg)
    ensures var w' := Execute(cfg, w, call, role, grant, owner, now, fate).0;
            if WaitsForApproval(cfg, call, role) && grant == None && owner != None then
              && OnlyRow(w.rows, w'.rows, w.next,
                         Row(owner.value, call.tool, call.args, cfg.hash(Obj(call.args)), now + cfg.ttl, Pending,
                             None, None))
              && w'.next == w.next + 1 && w'.proposed == w.proposed[w.next := call]
            else
              && w'.next == w.next && w'.proposed == w.proposed
              && if Redeemed(cfg, w, call, role, grant, now) && fate != Interrupted then
                   var row := w.rows[grant.value.id];
                   OnlyRow(w.rows, w'.rows, grant.value.id,
                           Row(row.owner, row.tool, row.args, row.hash, row.expiresAt,
                               if fate == Answered(true) then Executed else Failed, row.decidedBy, row.decidedAt))
                 else if WaitsForApproval(cfg, call, role) && grant != None then
                   w'.rows == VerifyGrant(cfg.hash, w.rows, grant.value, call.tool, now).0
                 else
                   w'.rows == w.rows
  {
    AdmittedExactlyWhenWaiting(cfg, call, role);
    ExecuteByCases(cfg, w, call, role, grant, owner, now, fate);
    if WaitsForApproval(cfg, call, role) {
      if grant.Some? {
        GrantedStores(cfg, w, call, grant.value, now, fate);
      } else if owner.Some? {
        RequestStores(cfg, w, call, owner.value, now);
      }
    }
  }

  /** Only a call that waits for approval can change the table. */
  lemma ExecuteByCases(
    cfg: Config, w: World, call: Call, role: Policy.Role, grant: Option<Grant>, owner: Option<UserId>,
    now: Time, fate: Fate)
    requires ValidConfig(cfg)
    ensures var w' := Execute(cfg, w, call, role, grant, owner, now, fate).0;
            if !Admitted(cfg, call, role) || (grant.None? && owner.None?) then
              w'.rows == w.rows && w'.next == w.next && w'.proposed == w.proposed
            else if grant.Some? then w' == ExecuteGranted(cfg, w, call, grant.value, now, fate).0
            else w' == ToolGateway.RequestApproval(cfg, w, call, owner.value, now)
  {
  }

  lemma RequestStores(cfg: Config, w: World, call: Call, owner: UserId, now: Time)
    ensures var w' := ToolGateway.RequestApproval(cfg, w, call, owner, now);
            && OnlyRow(w.rows, w'.rows, w.next,
                       Row(owner, call.tool, call.args, cfg.hash(Obj(call.args)), now + cfg.ttl, Pending, None, None))
            && w'.next == w.next + 1 && w'.proposed == w.proposed[w.next := call]
  {
  }

  lemma GrantedStores(cfg: Config, w: World, call: Call, g: Grant, now: Time, fate: Fate)
    ensures var w' := ExecuteGranted(cfg, w, call, g, now, fate).0;
            && w'.next == w.next && w'.proposed == w.proposed
            && if Verifiable(cfg, w.rows, g, call.tool, now) && fate != Interrupted then
                 var row := w.rows[g.id];
                 OnlyRow(w.rows, w'.rows, g.id,
                         Row(row.owner, row.tool, row.args, row.hash, row.expiresAt,
                             if fate == Answered(true) then Executed else Failed, row.decidedBy, row.decidedAt))
               else
                 w'.rows == VerifyGrant(cfg.hash, w.rows, g, call.tool, now).0
  {
  }

  // ------------------------------------------------------------------------- viewers --

  /** What one operation of a viewer sends, in any world: nothing, or a call of a tool that
      is registered as reading. */
  lemma ViewerSendsReadsOnly(cfg: Config, w: World, op: Op)
    requires ValidConfig(cfg) && (op.Propose? || op.Present?) && op.role == Policy.Viewer
    ensures var w' := Step(cfg, w, op);
            && w'.rows == w.rows
            && (w'.dispatched == w.dispatched
                || (w'.dispatched == w.dispatched + [Dispatch(None, op.call, op.fate != Interrupted)]
                    && Policy.Registered(cfg.settings, op.call.tool, Policy.Read)))
  {
    var grant := if op.Present? then Some(op.grant) else None;
    var owner := if op.Propose? then op.owner else None;
    SendsExactly(cfg, w, op.call, op.role, grant, owner, op.now, op.fate);
    StoresExactly(cfg, w, op.call, op.role, grant, owner, op.now, op.fate);
    assert w.dispatched + [] == w.dispatched;
  }

  predicate ByViewer(op: Op) { (op.Propose? || op.Present?) && op.role == Policy.Viewer }

  /** The calls sent by the operations of a run that are a viewer's. */
  ghost function SentByViewers(cfg: Config, ops: seq<Op>): seq<Dispatch>
    requires ValidConfig(cfg)
  {
    if ops == [] then []
    else
      var before, op := ops[..|ops| - 1], ops[|ops| - 1];
      var w, w' := Run(cfg, EMPTY, before), Run(cfg, EMPTY, ops);
      SentByViewers(cfg, before) +
        (if ByViewer(op) && |w.dispatched| <= |w'.dispatched| then w'.dispatched[|w.dispatched|..] else [])
  }

  /** Over every run, whatever else happens in it: a viewer's calls are of reading tools. */
  lemma {:induction false} ViewersReadOnly(cfg: Config, ops: seq<Op>)
    requires ValidConfig(cfg)
    ensures forall d :: d in SentByViewers(cfg, ops) ==> Policy.Registered(cfg.settings, d.call.tool, Policy.Read)
  {
    if ops == [] {
    } else {
      var before, op := ops[..|ops| - 1], ops[|ops| - 1];
      ViewersReadOnly(cfg, before);
      if ByViewer(op) { ViewerSendsReadsOnly(cfg, Run(cfg, EMPTY, before), op); }
    }
  }
}
