/** When a call presented with a grant is sent, and with whose arguments
    (`app/services/tool_execution_service.py`, `app/services/approval_service.py`). */
module GrantAdmission {
  import opened Json
  import opened CanonicalJson
  import opened Approvals
  import opened ToolGateway
  import Policy

  /** The checks on a grant, in one condition on the row and the two digests. */
  predicate Verifiable(cfg: Config, rows: Table, g: Grant, tool: string, now: Time) {
    && g.id in rows && rows[g.id].tool == tool && g.tool == tool
    && rows[g.id].status.Approved? && now < rows[g.id].expiresAt
    && Intact(cfg.hash, rows[g.id]) && cfg.hash(Obj(g.args)) == rows[g.id].hash
  }

  lemma GrantedRunsExactlyWhenVerifiable(cfg: Config, w: World, call: Call, g: Grant, now: Time, fate: Fate)
    ensures var (w', outcome) := ExecuteGranted(cfg, w, call, g, now, fate);
            if Verifiable(cfg, w.rows, g, call.tool, now)
            then outcome == (match fate case Answered(s) => Ran(s) case Interrupted => Crashed)
                 && w' == RunApproved(w, g.id, call, fate)
            else outcome.Raised? && w'.dispatched == w.dispatched
  {
  }

  /** What a presented grant must meet before a gated call leaves, stated about the
      payloads and not about their digests. */
  ghost predicate Authorises(w: World, g: Grant, call: Call, now: Time) {
    && g.id in w.rows && g.id in w.proposed
    && w.rows[g.id].status.Approved? && now < w.rows[g.id].expiresAt
    && w.proposed[g.id].tool == call.tool && g.tool == call.tool
    && Equiv(Obj(w.rows[g.id].args), Obj(w.proposed[g.id].args))
    && Equiv(Obj(g.args), Obj(w.proposed[g.id].args))
  }

  lemma HashesAgree(hash: Hash, a: Json, b: Json)
    requires Binding(hash) && WellFormed(a) && WellFormed(b)
    ensures hash(a) == hash(b) <==> Equiv(a, b)
  {
  }

  lemma AuthorisedExactlyWhenVerifiable(cfg: Config, w: World, call: Call, g: Grant, now: Time)
    requires Binding(cfg.hash) && RowsSound(cfg, w) && WellFormed(Obj(g.args))
    ensures Authorises(w, g, call, now) <==> Verifiable(cfg, w.rows, g, call.tool, now)
  {
    if g.id in w.rows {
      assert RaisedFor(cfg, w.rows[g.id], w.proposed[g.id]);
      HashesAgree(cfg.hash, Obj(w.rows[g.id].args), Obj(w.proposed[g.id].args));
      HashesAgree(cfg.hash, Obj(g.args), Obj(w.proposed[g.id].args));
    }
  }

  lemma {:induction false} GrantAdmittedExactlyWhenAuthorised(
    cfg: Config, w: World, call: Call, g: Grant, role: Policy.Role, now: Time, fate: Fate)
    requires ValidConfig(cfg) && RowsSound(cfg, w) && WellFormed(Obj(g.args)) && Admitted(cfg, call, role)
    ensures var (w', outcome) := Execute(cfg, w, call, role, Some(g), None, now, fate);
            if Authorises(w, g, call, now)
            then outcome == (match fate case Answered(s) => Ran(s) case Interrupted => Crashed)
                 && w' == RunApproved(w, g.id, call, fate)
            else outcome.Raised? && w'.dispatched == w.dispatched
  {
    PresentDoesOneOfThree(cfg, w, call, role, g, now, fate);
    AuthorisedExactlyWhenVerifiable(cfg, w, call, g, now);
    GrantedRunsExactlyWhenVerifiable(cfg, w, call, g, now, fate);
  }

  /** For any call presented with a grant: a gated one leaves exactly when it is admitted
      and authorised, under that approval; an ungated one leaves under none. */
  lemma {:induction false} PresentSendsExactlyWhen(
    cfg: Config, w: World, call: Call, g: Grant, role: Policy.Role, now: Time, fate: Fate, w': World)
    requires ValidConfig(cfg) && RowsSound(cfg, w) && WellFormed(Obj(g.args))
    requires PresentsTo(cfg, w, call, role, g, now, fate, w')
    ensures w'.proposed == w.proposed
    ensures Policy.Gated(cfg.settings, call.tool) ==>
              w'.dispatched == w.dispatched
                + (if Admitted(cfg, call, role) && Authorises(w, g, call, now)
                   then [Dispatch(Some(g.id), call, fate.Answered?)] else [])
    ensures !Policy.Gated(cfg.settings, call.tool) ==>
              w'.dispatched == w.dispatched
              || w'.dispatched == w.dispatched + [Dispatch(None, call, fate.Answered?)]
  {
    if Admitted(cfg, call, role) { GrantedSendsExactlyWhenAuthorised(cfg, w, call, g, now, fate); }
  }

  lemma GrantedSendsExactlyWhenAuthorised(cfg: Config, w: World, call: Call, g: Grant, now: Time, fate: Fate)
    requires Binding(cfg.hash) && RowsSound(cfg, w) && WellFormed(Obj(g.args))
    ensures var w' := ExecuteGranted(cfg, w, call, g, now, fate).0;
            && w'.proposed == w.proposed
            && w'.dispatched == w.dispatched
                 + (if Authorises(w, g, call, now) then [Dispatch(Some(g.id), call, fate.Answered?)] else [])
  {
    AuthorisedExactlyWhenVerifiable(cfg, w, call, g, now);
    GrantedRunsExactlyWhenVerifiable(cfg, w, call, g, now, fate);
  }

  /** `execute` compares the arguments of the grant, not those of the call it is handed.
      The call that leaves is the one the human was shown exactly when the two agree;
      `execute_approved` builds the call from the grant, so there they do. */
  lemma {:induction false} ArgumentsBoundExactlyWhen(
    cfg: Config, w: World, call: Call, g: Grant, role: Policy.Role, now: Time, fate: Fate)
    requires ValidConfig(cfg) && RowsSound(cfg, w) && WellFormed(Obj(call.args)) && WellFormed(Obj(g.args))
    requires Policy.Gated(cfg.settings, call.tool)
    requires Execute(cfg, w, call, role, Some(g), None, now, fate).0.dispatched != w.dispatched
    ensures g.id in w.proposed
    ensures Equiv(Obj(call.args), Obj(w.proposed[g.id].args)) <==> Equiv(Obj(call.args), Obj(g.args))
  {
    SentIsAuthorised(cfg, w, call, g, role, now, fate, Execute(cfg, w, call, role, Some(g), None, now, fate).0);
    SameAsEither(Obj(call.args), Obj(g.args), Obj(w.proposed[g.id].args));
  }

  lemma SentIsAuthorised(
    cfg: Config, w: World, call: Call, g: Grant, role: Policy.Role, now: Time, fate: Fate, w': World)
    requires ValidConfig(cfg) && RowsSound(cfg, w) && WellFormed(Obj(g.args))
    requires Policy.Gated(cfg.settings, call.tool) && w'.dispatched != w.dispatched
    requires w' == Execute(cfg, w, call, role, Some(g), None, now, fate).0
    ensures Authorises(w, g, call, now) && WellFormed(Obj(w.proposed[g.id].args))
  {
    PresentDoesOneOfThree(cfg, w, call, role, g, now, fate);
    PresentSendsExactlyWhen(cfg, w, call, g, role, now, fate, w');
    assert w.dispatched + [] == w.dispatched;
    assert RaisedFor(cfg, w.rows[g.id], w.proposed[g.id]);
  }

  lemma SameAsEither(sent: Json, given: Json, shown: Json)
    requires WellFormed(shown) && Equiv(given, shown)
    ensures Equiv(sent, shown) <==> Equiv(sent, given)
  {
    if Equiv(sent, given) { EquivTrans(sent, given, shown); }
    if Equiv(sent, shown) { EquivSym(given, shown); EquivTrans(sent, shown, given); }
  }

  // --------------------------------------------------------- sent as they were shown --

  /** The operations as the application issues them: a grant only through
      `execute_approved`. */
  ghost predicate ThroughExecuteApproved(op: Op) { op.Present? ==> op.call == CallOf(op.grant) }

  ghost predicate SentAsShown(w: World) {
    forall i :: 0 <= i < |w.dispatched| ==>
      var d := w.dispatched[i];
      d.approval.Some? ==>
        d.approval.value in w.proposed && Equiv(Obj(d.call.args), Obj(w.proposed[d.approval.value].args))
  }

  lemma {:induction false} EveryApprovedCallSentAsShown(cfg: Config, ops: seq<Op>)
    requires ValidConfig(cfg) && forall i :: 0 <= i < |ops| ==> ValidOp(ops[i]) && ThroughExecuteApproved(ops[i])
    ensures SentAsShown(Run(cfg, EMPTY, ops))
  {
    if ops == [] {
    } else {
      var before := ops[..|ops| - 1];
      EveryApprovedCallSentAsShown(cfg, before);
      RunKeepsInv(cfg, EMPTY, before);
      StepSendsAsShown(cfg, Run(cfg, EMPTY, before), ops[|ops| - 1]);
    }
  }

  lemma {:induction false} StepSendsAsShown(cfg: Config, w: World, op: Op)
    requires ValidConfig(cfg) && RowsSound(cfg, w) && SentAsShown(w) && ValidOp(op) && ThroughExecuteApproved(op)
    ensures SentAsShown(Step(cfg, w, op))
  {
    match op
    case Propose(call, role, owner, now, fate) =>
      ProposalSendsUnapproved(cfg, w, call, role, owner, now, fate);
    case Present(call, g, role, now, fate) =>
      PresentSendsAsShown(cfg, w, g, role, now, fate);
    case _ =>
  }

  lemma ProposalSendsUnapproved(
    cfg: Config, w: World, call: Call, role: Policy.Role, owner: Option<UserId>, now: Time, fate: Fate)
    requires ValidConfig(cfg) && RowsSound(cfg, w)
    ensures var w' := Execute(cfg, w, call, role, None, owner, now, fate).0;
            && (w'.dispatched == w.dispatched
                || (w'.dispatched == w.dispatched + [Dispatch(None, call, fate.Answered?)]
                    && !Policy.Gated(cfg.settings, call.tool)))
            && (forall id :: id in w.proposed ==> id in w'.proposed && w'.proposed[id] == w.proposed[id])
  {
    ExecuteDoesOneOfFour(cfg, w, call, role, None, owner, now, fate);
  }

  lemma PresentSendsAsShown(cfg: Config, w: World, g: Grant, role: Policy.Role, now: Time, fate: Fate)
    requires ValidConfig(cfg) && RowsSound(cfg, w) && SentAsShown(w) && WellFormed(Obj(g.args))
    ensures SentAsShown(Execute(cfg, w, CallOf(g), role, Some(g), None, now, fate).0)
  {
    var w' := Execute(cfg, w, CallOf(g), role, Some(g), None, now, fate).0;
    PresentDoesOneOfThree(cfg, w, CallOf(g), role, g, now, fate);
    PresentSendsExactlyWhen(cfg, w, CallOf(g), g, role, now, fate, w');
    OneMoreSentAsShown(cfg, w, g, now, fate, w');
  }

  lemma OneMoreSentAsShown(cfg: Config, w: World, g: Grant, now: Time, fate: Fate, w': World)
    requires SentAsShown(w) && w'.proposed == w.proposed
    requires || w'.dispatched == w.dispatched + []
             || w'.dispatched == w.dispatched + [Dispatch(None, CallOf(g), fate.Answered?)]
             || (Authorises(w, g, CallOf(g), now)
                 && w'.dispatched == w.dispatched + [Dispatch(Some(g.id), CallOf(g), fate.Answered?)])
    ensures SentAsShown(w')
  {
  }
}
