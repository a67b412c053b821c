/** The life of a request over any run of operations: exactly when its status moves, what
    stands behind every gated call that leaves, and when an approval can be used again
    (`app/services/approval_service.py`, `app/services/tool_execution_service.py`). */
module RequestLifecycle {
  import opened Json
  import opened Approvals
  import opened ToolGateway
  import opened GrantAdmission
  import Policy

  // --------------------------------------------------------- exact transitions --

  /** The stored arguments are no longer the ones that were proposed. */
  ghost predicate Edited(w: World, id: Id)
    requires id in w.rows && id in w.proposed
  {
    !Equiv(Obj(w.rows[id].args), Obj(w.proposed[id].args))
  }

  lemma EditedExactlyWhenBroken(cfg: Config, w: World, id: Id)
    requires ValidConfig(cfg) && RowsSound(cfg, w) && id in w.rows
    ensures Edited(w, id) <==> !Intact(cfg.hash, w.rows[id])
  {
    assert RaisedFor(cfg, w.rows[id], w.proposed[id]);
    HashesAgree(cfg.hash, Obj(w.rows[id].args), Obj(w.proposed[id].args));
  }

  /** A confirmation by somebody who may decide this request. */
  predicate Confirms(row: Row, op: Op, id: Id) { op.ConfirmOp? && op.id == id && Entitled(op.user, row) }

  /** A call presented with a grant for this approved row and its tool; `admitted` says
      whether it gets as far as the grant. */
  predicate Redeems(row: Row, op: Op, id: Id, admitted: bool) {
    && op.Present? && op.grant.id == id && admitted
    && row.tool == op.call.tool && op.grant.tool == op.call.tool && row.status.Approved?
  }

  predicate ApprovedBy(hash: Hash, row: Row, op: Op, id: Id) {
    && Confirms(row, op, id) && Intact(hash, row) && row.status.Pending?
    && op.checked < row.expiresAt && op.moment < row.expiresAt
  }

  predicate RejectedBy(row: Row, op: Op, id: Id) {
    op.RejectOp? && op.id == id && Entitled(op.user, row) && row.status.Pending?
  }

  predicate ExpiredBy(hash: Hash, row: Row, op: Op, id: Id, admitted: bool) {
    || (op.ExpireOp? && row.status.Pending? && row.expiresAt <= op.moment)
    || (Confirms(row, op, id) && Intact(hash, row) && row.status.Pending? && IsExpired(row, op.checked))
    || (Redeems(row, op, id, admitted) && IsExpired(row, op.now))
  }

  /** Thrown out because the stored arguments do not match their digest. */
  predicate ThrownOutBy(hash: Hash, row: Row, op: Op, id: Id, admitted: bool) {
    && !Intact(hash, row)
    && (Confirms(row, op, id) || (Redeems(row, op, id, admitted) && !IsExpired(row, op.now)))
  }

  predicate SentBy(hash: Hash, row: Row, op: Op, id: Id, admitted: bool) {
    && Redeems(row, op, id, admitted) && !IsExpired(row, op.now)
    && Intact(hash, row) && hash(Obj(op.grant.args)) == row.hash
  }

  /** Where the status of a row goes. */
  function NextStatus(hash: Hash, row: Row, op: Op, id: Id, admitted: bool): Status {
    if ApprovedBy(hash, row, op, id) then Approved
    else if RejectedBy(row, op, id) then Rejected
    else if ExpiredBy(hash, row, op, id, admitted) then Expired
    else if ThrownOutBy(hash, row, op, id, admitted) then Failed
    else if SentBy(hash, row, op, id, admitted) && op.fate.Answered? then (if op.fate.success then Executed else Failed)
    else row.status
  }

  ghost predicate Reaches(cfg: Config, op: Op)
    requires ValidConfig(cfg)
  {
    op.Present? && Admitted(cfg, op.call, op.role)
  }

  lemma GrantedMoves(cfg: Config, w: World, op: Op, id: Id)
    requires id in w.rows && op.Present?
    ensures var w' := ExecuteGranted(cfg, w, op.call, op.grant, op.now, op.fate).0;
            id in w'.rows && w'.rows[id].status == NextStatus(cfg.hash, w.rows[id], op, id, true)
  {
  }

  lemma DecisionMoves(cfg: Config, w: World, op: Op, id: Id)
    requires ValidConfig(cfg) && id in w.rows && !op.Present? && !op.Propose?
    ensures id in Step(cfg, w, op).rows
    ensures Step(cfg, w, op).rows[id].status == NextStatus(cfg.hash, w.rows[id], op, id, false)
  {
  }

  lemma ProposalMoves(cfg: Config, w: World, op: Op, id: Id)
    requires ValidConfig(cfg) && RowsSound(cfg, w) && id in w.rows && op.Propose?
    ensures id in Step(cfg, w, op).rows && Step(cfg, w, op).rows[id] == w.rows[id]
  {
    assert id in w.proposed && id != w.next;
    ExecuteDoesOneOfFour(cfg, w, op.call, op.role, None, op.owner, op.now, op.fate);
  }

  /** Whatever the world and the operation, this is where the status of a row goes. */
  lemma {:induction false} StatusMovesExactlyTo(cfg: Config, w: World, op: Op, id: Id)
    requires ValidConfig(cfg) && RowsSound(cfg, w) && id in w.rows
    ensures id in Step(cfg, w, op).rows
    ensures Step(cfg, w, op).rows[id].status == NextStatus(cfg.hash, w.rows[id], op, id, Reaches(cfg, op))
  {
    if op.Propose? {
      ProposalMoves(cfg, w, op, id);
    } else if op.Present? {
      PresentMoves(cfg, w, op, id);
    } else {
      DecisionMoves(cfg, w, op, id);
    }
  }

  lemma PresentMoves(cfg: Config, w: World, op: Op, id: Id)
    requires ValidConfig(cfg) && id in w.rows && op.Present?
    ensures id in Step(cfg, w, op).rows
    ensures Step(cfg, w, op).rows[id].status == NextStatus(cfg.hash, w.rows[id], op, id, Reaches(cfg, op))
  {
    PresentDoesOneOfThree(cfg, w, op.call, op.role, op.grant, op.now, op.fate);
    if Reaches(cfg, op) { GrantedMoves(cfg, w, op, id); }
  }

  lemma ApprovedMoves(hash: Hash, row: Row, op: Op, id: Id, admitted: bool)
    requires row.status.Approved?
    ensures NextStatus(hash, row, op, id, admitted).Expired? <==>
              Redeems(row, op, id, admitted) && row.expiresAt <= op.now
  {
  }

  /** The first edge the documentation does not have: an approved request expires exactly
      when somebody redeems it too late. */
  lemma {:induction false} ApprovedExpiresExactlyWhen(cfg: Config, w: World, op: Op, id: Id)
    requires ValidConfig(cfg) && RowsSound(cfg, w) && id in w.rows && w.rows[id].status.Approved?
    ensures id in Step(cfg, w, op).rows
    ensures Step(cfg, w, op).rows[id].status.Expired? <==>
              Redeems(w.rows[id], op, id, Reaches(cfg, op)) && w.rows[id].expiresAt <= op.now
  {
    StatusMovesExactlyTo(cfg, w, op, id);
    ApprovedMoves(cfg.hash, w.rows[id], op, id, Reaches(cfg, op));
  }

  lemma GrantedSendsExactlyWhen(cfg: Config, w: World, op: Op, id: Id)
    requires id in w.rows && op.Present? && op.grant.id == id
    ensures ExecuteGranted(cfg, w, op.call, op.grant, op.now, op.fate).0.dispatched != w.dispatched
            <==> SentBy(cfg.hash, w.rows[id], op, id, true)
  {
  }

  /** The second one: a request fails although nothing was sent for it exactly when its
      stored arguments were edited and an entitled user confirms it, whatever its status,
      or somebody redeems it, approved, in time. */
  lemma {:induction false} FailsUnsentExactlyWhen(cfg: Config, w: World, op: Op, id: Id)
    requires ValidConfig(cfg) && RowsSound(cfg, w) && id in w.rows && !w.rows[id].status.Failed?
    ensures id in Step(cfg, w, op).rows && id in w.proposed
    ensures Step(cfg, w, op).rows[id].status.Failed? && Step(cfg, w, op).dispatched == w.dispatched <==>
              && Edited(w, id)
              && (Confirms(w.rows[id], op, id)
                  || (Redeems(w.rows[id], op, id, Reaches(cfg, op)) && op.now < w.rows[id].expiresAt))
  {
    StatusMovesExactlyTo(cfg, w, op, id);
    EditedExactlyWhenBroken(cfg, w, id);
    FailureMoves(cfg.hash, w.rows[id], op, id, Reaches(cfg, op));
    if NextStatus(cfg.hash, w.rows[id], op, id, Reaches(cfg, op)).Failed? { FailureSendsExactlyWhen(cfg, w, op, id); }
  }

  lemma FailureMoves(hash: Hash, row: Row, op: Op, id: Id, admitted: bool)
    requires !row.status.Failed?
    ensures NextStatus(hash, row, op, id, admitted).Failed? && !SentBy(hash, row, op, id, admitted) <==>
              && !Intact(hash, row)
              && (Confirms(row, op, id) || (Redeems(row, op, id, admitted) && op.now < row.expiresAt))
  {
  }

  lemma FailureSendsExactlyWhen(cfg: Config, w: World, op: Op, id: Id)
    requires ValidConfig(cfg) && id in w.rows && !w.rows[id].status.Failed?
    requires NextStatus(cfg.hash, w.rows[id], op, id, Reaches(cfg, op)).Failed?
    ensures Step(cfg, w, op).dispatched != w.dispatched <==> SentBy(cfg.hash, w.rows[id], op, id, Reaches(cfg, op))
  {
    if op.Present? { ReachingSendsExactlyWhen(cfg, w, op, id); }
  }

  lemma ReachingSendsExactlyWhen(cfg: Config, w: World, op: Op, id: Id)
    requires ValidConfig(cfg) && id in w.rows && Reaches(cfg, op) && op.grant.id == id
    ensures Step(cfg, w, op).dispatched != w.dispatched <==> SentBy(cfg.hash, w.rows[id], op, id, true)
  {
    PresentDoesOneOfThree(cfg, w, op.call, op.role, op.grant, op.now, op.fate);
    GrantedSendsExactlyWhen(cfg, w, op, id);
  }

  lemma TerminalMoves(hash: Hash, row: Row, op: Op, id: Id, admitted: bool)
    requires Terminal(row.status)
    ensures NextStatus(hash, row, op, id, admitted)
            == if Confirms(row, op, id) && !Intact(hash, row) then Failed else row.status
  {
  }

  /** A decided row moves again in one case only: an entitled user confirms a row whose
      stored arguments were edited, which throws it out to `Failed`. */
  lemma {:induction false} TerminalRowMovesExactlyWhen(cfg: Config, w: World, op: Op, id: Id)
    requires ValidConfig(cfg) && RowsSound(cfg, w) && id in w.rows && Terminal(w.rows[id].status)
    ensures id in Step(cfg, w, op).rows && id in w.proposed
    ensures Step(cfg, w, op).rows[id].status != w.rows[id].status <==>
              Confirms(w.rows[id], op, id) && Edited(w, id) && !w.rows[id].status.Failed?
  {
    StatusMovesExactlyTo(cfg, w, op, id);
    TerminalMoves(cfg.hash, w.rows[id], op, id, Reaches(cfg, op));
    EditedExactlyWhenBroken(cfg, w, id);
  }

  // ------------------------------------------------------------- what never moves --

  /** Of a row only the status, the decision and, by an edit, the arguments ever change. */
  predicate SameTerms(row: Row, row': Row) {
    row'.owner == row.owner && row'.tool == row.tool && row'.hash == row.hash && row'.expiresAt == row.expiresAt
  }

  lemma GrantedKeepsTerms(cfg: Config, w: World, op: Op, id: Id)
    requires id in w.rows && op.Present?
    ensures var w' := ExecuteGranted(cfg, w, op.call, op.grant, op.now, op.fate).0;
            && w'.proposed == w.proposed && id in w'.rows && SameTerms(w.rows[id], w'.rows[id])
            && w'.rows[id].args == w.rows[id].args
  {
  }

  lemma DecisionKeepsTerms(cfg: Config, w: World, op: Op, id: Id)
    requires ValidConfig(cfg) && id in w.rows && !op.Present? && !op.Propose?
    ensures var w' := Step(cfg, w, op);
            && w'.proposed == w.proposed && id in w'.rows && SameTerms(w.rows[id], w'.rows[id])
            && (!op.Tamper? ==> w'.rows[id].args == w.rows[id].args)
  {
  }

  lemma {:induction false} StepKeepsTerms(cfg: Config, w: World, op: Op, id: Id)
    requires ValidConfig(cfg) && RowsSound(cfg, w) && id in w.rows
    ensures var w' := Step(cfg, w, op);
            && id in w'.rows && SameTerms(w.rows[id], w'.rows[id])
            && id in w.proposed && id in w'.proposed && w'.proposed[id] == w.proposed[id]
            && (!op.Tamper? ==> w'.rows[id].args == w.rows[id].args)
  {
    assert id in w.proposed;
    if op.Propose? {
      ProposalMoves(cfg, w, op, id);
      ProposalSendsUnapproved(cfg, w, op.call, op.role, op.owner, op.now, op.fate);
    } else if op.Present? {
      PresentDoesOneOfThree(cfg, w, op.call, op.role, op.grant, op.now, op.fate);
      GrantedKeepsTerms(cfg, w, op, id);
    } else {
      DecisionKeepsTerms(cfg, w, op, id);
    }
  }

  /** Stored arguments that nobody edits: what is stored is what was proposed. */
  ghost predicate Untampered(w: World) {
    forall id :: id in w.rows ==> id in w.proposed && w.rows[id].args == w.proposed[id].args
  }

  lemma GrantedAddsNoRow(cfg: Config, w: World, op: Op, id: Id)
    requires op.Present? && id in ExecuteGranted(cfg, w, op.call, op.grant, op.now, op.fate).0.rows
    ensures id in w.rows
  {
  }

  lemma DecisionAddsNoRow(cfg: Config, w: World, op: Op, id: Id)
    requires ValidConfig(cfg) && !op.Present? && !op.Propose? && id in Step(cfg, w, op).rows
    ensures id in w.rows
  {
  }

  lemma {:induction false} StepAddsUntampered(cfg: Config, w: World, op: Op, id: Id)
    requires ValidConfig(cfg) && RowsSound(cfg, w) && id !in w.rows && id in Step(cfg, w, op).rows
    ensures id in Step(cfg, w, op).proposed
    ensures Step(cfg, w, op).rows[id].args == Step(cfg, w, op).proposed[id].args
    ensures Step(cfg, w, op).rows[id].status.Pending?
  {
    if op.Propose? {
      ExecuteDoesOneOfFour(cfg, w, op.call, op.role, None, op.owner, op.now, op.fate);
    } else if op.Present? {
      PresentDoesOneOfThree(cfg, w, op.call, op.role, op.grant, op.now, op.fate);
      if Reaches(cfg, op) { GrantedAddsNoRow(cfg, w, op, id); }
    } else {
      DecisionAddsNoRow(cfg, w, op, id);
    }
  }

  lemma {:induction false} StepKeepsUntampered(cfg: Config, w: World, op: Op)
    requires ValidConfig(cfg) && RowsSound(cfg, w) && Untampered(w) && !op.Tamper?
    ensures Untampered(Step(cfg, w, op))
  {
    var w' := Step(cfg, w, op);
    forall id | id in w'.rows ensures id in w'.proposed && w'.rows[id].args == w'.proposed[id].args {
      if id in w.rows { StepKeepsTerms(cfg, w, op, id); } else { StepAddsUntampered(cfg, w, op, id); }
    }
  }

  lemma {:induction false} UntamperedThroughout(cfg: Config, ops: seq<Op>)
    requires ValidConfig(cfg)
    requires forall i :: 0 <= i < |ops| ==> ValidOp(ops[i]) && !ops[i].Tamper?
    ensures Untampered(Run(cfg, EMPTY, ops))
  {
    if ops == [] {
    } else {
      var before := ops[..|ops| - 1];
      UntamperedThroughout(cfg, before);
      RunKeepsInv(cfg, EMPTY, before);
      StepKeepsUntampered(cfg, Run(cfg, EMPTY, before), ops[|ops| - 1]);
    }
  }

  lemma {:induction false} StepKeepsTerminal(cfg: Config, w: World, op: Op, id: Id)
    requires ValidConfig(cfg) && RowsSound(cfg, w) && Untampered(w)
    requires id in w.rows && Terminal(w.rows[id].status)
    ensures id in Step(cfg, w, op).rows && Step(cfg, w, op).rows[id].status == w.rows[id].status
  {
    TerminalRowMovesExactlyWhen(cfg, w, op, id);
    EquivRefl(Obj(w.rows[id].args));
  }

  /** While the stored arguments stay as they were shown, terminal statuses absorb. */
  lemma {:induction false} TerminalStatusesAbsorb(cfg: Config, ops: seq<Op>, k: nat, id: Id)
    requires ValidConfig(cfg) && k <= |ops|
    requires forall i :: 0 <= i < |ops| ==> ValidOp(ops[i]) && !ops[i].Tamper?
    requires id in Run(cfg, EMPTY, ops[..k]).rows && Terminal(Run(cfg, EMPTY, ops[..k]).rows[id].status)
    ensures id in Run(cfg, EMPTY, ops).rows
    ensures Run(cfg, EMPTY, ops).rows[id].status == Run(cfg, EMPTY, ops[..k]).rows[id].status
  {
    if k == |ops| {
      assert ops[..k] == ops;
    } else {
      var before := ops[..|ops| - 1];
      assert before[..k] == ops[..k];
      TerminalStatusesAbsorb(cfg, before, k, id);
      RunKeepsInv(cfg, EMPTY, before);
      UntamperedThroughout(cfg, before);
      StepKeepsTerminal(cfg, Run(cfg, EMPTY, before), ops[|ops| - 1], id);
    }
  }

  // ------------------------------------------------------- a human stands behind it --

  /** The operation at `j` was a successful confirmation of this row by an entitled user,
      strictly before it expires. */
  ghost predicate ConfirmedAt(cfg: Config, ops: seq<Op>, j: int, id: Id, row: Row)
    requires ValidConfig(cfg)
  {
    && 0 <= j < |ops| && Confirms(row, ops[j], id) && ops[j].moment < row.expiresAt
    && Confirm(cfg.hash, Run(cfg, EMPTY, ops[..j]).rows, id, ops[j].user, ops[j].checked, ops[j].moment).1.Ok?
  }

  lemma ConfirmedEarlier(cfg: Config, ops: seq<Op>, j: int, id: Id, row: Row, row': Row)
    requires ValidConfig(cfg) && ops != [] && ConfirmedAt(cfg, ops[..|ops| - 1], j, id, row) && SameTerms(row, row')
    ensures ConfirmedAt(cfg, ops, j, id, row')
  {
    assert ops[..|ops| - 1][..j] == ops[..j];
  }

  lemma NewlyApproved(hash: Hash, row: Row, op: Op, id: Id, admitted: bool)
    requires !row.status.Approved? && NextStatus(hash, row, op, id, admitted).Approved?
    ensures ApprovedBy(hash, row, op, id)
  {
  }

  lemma ApprovalSucceeds(cfg: Config, t: Table, op: Op, id: Id)
    requires id in t && ApprovedBy(cfg.hash, t[id], op, id)
    ensures Confirm(cfg.hash, t, id, op.user, op.checked, op.moment).1.Ok?
  {
  }

  /** An approved row has been confirmed. */
  lemma {:induction false} ApprovedWasConfirmed(cfg: Config, ops: seq<Op>, id: Id) returns (j: nat)
    requires ValidConfig(cfg) && forall i :: 0 <= i < |ops| ==> ValidOp(ops[i])
    requires id in Run(cfg, EMPTY, ops).rows && Run(cfg, EMPTY, ops).rows[id].status.Approved?
    ensures ConfirmedAt(cfg, ops, j, id, Run(cfg, EMPTY, ops).rows[id])
  {
    var n := |ops| - 1;
    var w, op := Run(cfg, EMPTY, ops[..n]), ops[n];
    RunKeepsInv(cfg, EMPTY, ops[..n]);
    if id !in w.rows {
      StepAddsUntampered(cfg, w, op, id);
      assert false;
    }
    StatusMovesExactlyTo(cfg, w, op, id);
    StepKeepsTerms(cfg, w, op, id);
    if w.rows[id].status.Approved? {
      j := ApprovedWasConfirmed(cfg, ops[..n], id);
      ConfirmedEarlier(cfg, ops, j, id, w.rows[id], Step(cfg, w, op).rows[id]);
    } else {
      NewlyApproved(cfg.hash, w.rows[id], op, id, Reaches(cfg, op));
      ApprovalSucceeds(cfg, w.rows, op, id);
      j := n;
    }
  }

  // -------------------------------------------------------------- safety of every run --

  /** What is behind a call that `op` sends after the run `past`. */
  ghost predicate Backed(cfg: Config, past: seq<Op>, w: World, op: Op, d: Dispatch)
    requires ValidConfig(cfg)
  {
    match d.approval
    case None => !Policy.Gated(cfg.settings, d.call.tool)
    case Some(id) =>
      && op.Present? && op.grant.id == id && op.call == d.call
      && Authorises(w, op.grant, op.call, op.now)
      && exists j :: ConfirmedAt(cfg, past, j, id, w.rows[id])
  }

  ghost predicate SendsAtMostOneBacked(cfg: Config, past: seq<Op>, w: World, op: Op, w': World)
    requires ValidConfig(cfg)
  {
    || w'.dispatched == w.dispatched
    || exists d :: w'.dispatched == w.dispatched + [d] && Backed(cfg, past, w, op, d)
  }

  /** After every run, with grants forged, replayed or altered and rows edited, every
      operation sends at most one call.  A gated one leaves only while its row is approved
      and unexpired, with the stored and the granted arguments equal to the proposed ones,
      after an entitled user confirmed that row in time. */
  lemma {:induction false} EveryDispatchIsBacked(cfg: Config, past: seq<Op>, op: Op)
    requires ValidConfig(cfg) && ValidOp(op) && forall i :: 0 <= i < |past| ==> ValidOp(past[i])
    ensures SendsAtMostOneBacked(cfg, past, Run(cfg, EMPTY, past), op, Run(cfg, EMPTY, past + [op]))
  {
    var w := Run(cfg, EMPTY, past);
    assert (past + [op])[..|past|] == past;
    RunKeepsInv(cfg, EMPTY, past);
    if op.Propose? {
      ProposalSendsUnapproved(cfg, w, op.call, op.role, op.owner, op.now, op.fate);
      var d := Dispatch(None, op.call, op.fate.Answered?);
      assert Step(cfg, w, op).dispatched != w.dispatched ==> Backed(cfg, past, w, op, d);
    } else if op.Present? {
      PresentDoesOneOfThree(cfg, w, op.call, op.role, op.grant, op.now, op.fate);
      RedemptionIsBacked(cfg, past, w, op, Step(cfg, w, op));
    }
  }

  lemma {:induction false} RedemptionIsBacked(cfg: Config, past: seq<Op>, w: World, op: Op, w': World)
    requires ValidConfig(cfg) && ValidOp(op) && forall i :: 0 <= i < |past| ==> ValidOp(past[i])
    requires w == Run(cfg, EMPTY, past) && RowsSound(cfg, w)
    requires op.Present? && PresentsTo(cfg, w, op.call, op.role, op.grant, op.now, op.fate, w')
    ensures SendsAtMostOneBacked(cfg, past, w, op, w')
  {
    PresentSendsExactlyWhen(cfg, w, op.call, op.grant, op.role, op.now, op.fate, w');
    assert w.dispatched + [] == w.dispatched;
    if w'.dispatched == w.dispatched {
    } else if Policy.Gated(cfg.settings, op.call.tool) {
      var id := op.grant.id;
      var j := ApprovedWasConfirmed(cfg, past, id);
      assert ConfirmedAt(cfg, past, j, id, w.rows[id]);
      assert Backed(cfg, past, w, op, Dispatch(Some(id), op.call, op.fate.Answered?));
    } else {
      assert Backed(cfg, past, w, op, Dispatch(None, op.call, op.fate.Answered?));
    }
  }

  ghost predicate EachApprovalOnce(log: seq<Dispatch>) {
    forall i, j :: 0 <= i < j < |log| && log[i].approval.Some? ==> log[j].approval != log[i].approval
  }

  /** Every call under an approval is of the tool it was raised for.  No approval is used
      again once its row was marked; so none is used twice in a run in which no call under
      an approval is cut off between its sending and its mark. */
  lemma {:induction false} ApprovalsAreUsedOnce(cfg: Config, ops: seq<Op>)
    requires ValidConfig(cfg) && forall i :: 0 <= i < |ops| ==> ValidOp(ops[i])
    ensures var w := Run(cfg, EMPTY, ops);
            && LogSound(cfg, w) && MarkedOnce(w.dispatched)
            && ((forall i :: 0 <= i < |w.dispatched| && w.dispatched[i].approval.Some? ==> w.dispatched[i].marked)
                ==> EachApprovalOnce(w.dispatched))
  {
    RunKeepsInv(cfg, EMPTY, ops);
  }

  /** Presenting a grant again, before the request expires, sends the call again exactly
      when the first time was interrupted before the row was marked. */
  lemma {:induction false} ReplaySendsAgainExactlyWhenInterrupted(
    cfg: Config, w: World, call: Call, g: Grant, role: Policy.Role, now: Time, fate: Fate, later: Time, fate': Fate)
    requires ValidConfig(cfg) && RowsSound(cfg, w) && WellFormed(Obj(g.args)) && Admitted(cfg, call, role)
    requires Authorises(w, g, call, now) && later < w.rows[g.id].expiresAt
    ensures var w' := Step(cfg, w, Present(call, g, role, now, fate));
            && w'.dispatched == w.dispatched + [Dispatch(Some(g.id), call, fate.Answered?)]
            && (Step(cfg, w', Present(call, g, role, later, fate')).dispatched != w'.dispatched
                <==> fate.Interrupted?)
  {
    AuthorisedExactlyWhenVerifiable(cfg, w, call, g, now);
    VerifiableGrantRuns(cfg, w, call, g, role, now, fate);
    var w' := RunApproved(w, g.id, call, fate);
    VerifiableAgainExactlyWhenInterrupted(cfg, w, call, g, now, fate, later);
    VerifiableGrantRuns(cfg, w', call, g, role, later, fate');
  }

  lemma VerifiableAgainExactlyWhenInterrupted(
    cfg: Config, w: World, call: Call, g: Grant, now: Time, fate: Fate, later: Time)
    requires Verifiable(cfg, w.rows, g, call.tool, now) && later < w.rows[g.id].expiresAt
    ensures Verifiable(cfg, RunApproved(w, g.id, call, fate).rows, g, call.tool, later) <==> fate.Interrupted?
  {
  }

  /** An admitted call with a grant runs exactly when the grant verifies. */
  lemma VerifiableGrantRuns(
    cfg: Config, w: World, call: Call, g: Grant, role: Policy.Role, now: Time, fate: Fate)
    requires ValidConfig(cfg) && Admitted(cfg, call, role)
    ensures var w' := Step(cfg, w, Present(call, g, role, now, fate));
            if Verifiable(cfg, w.rows, g, call.tool, now) then w' == RunApproved(w, g.id, call, fate)
            else w'.dispatched == w.dispatched
  {
    PresentDoesOneOfThree(cfg, w, call, role, g, now, fate);
    GrantedRunsExactlyWhenVerifiable(cfg, w, call, g, now, fate);
  }
}
