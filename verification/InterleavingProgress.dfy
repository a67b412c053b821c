/** A request handler goes through among other sessions: what the others can and cannot do
    to a confirmation under way (`app/services/approval_service.py`,
    `app/api/routes/approvals.py`). */
module InterleavingProgress {
  import opened Json
  import opened Approvals
  import opened ToolGateway
  import opened RequestLifecycle
  import opened ApprovalInterleaving
  import Policy

  ghost const ANYTHING: Shape := _ => true

  ghost function After(cfg: Config, st: State, actions: seq<Action>): State
    requires ValidConfig(cfg)
  {
    if actions == [] then st
    else Apply(cfg, After(cfg, st, actions[..|actions| - 1]), actions[|actions| - 1])
  }

  /** Anything another session, the clock, the bulk expiry or an editor of other rows does. */
  predicate ByOthers(a: Action, sid: SessionId, id: Id) {
    && (a.InSession? ==> a.sid != sid)
    && (a.Edit? ==> a.id != id)
  }

  predicate AllByOthers(actions: seq<Action>, sid: SessionId, id: Id) {
    forall i :: 0 <= i < |actions| ==> ByOthers(actions[i], sid, id)
  }

  /** No copy of this request has edited arguments. */
  ghost predicate Unedited(cfg: Config, st: State, id: Id) {
    && id in st.rows && Intact(cfg.hash, st.rows[id])
    && forall k :: k in st.sessions && id in st.sessions[k].cache ==> Intact(cfg.hash, st.sessions[k].cache[id])
  }

  /** A request of these terms, and a session that may be working on it. */
  ghost predicate Underway(cfg: Config, st: State, sid: SessionId, id: Id, terms: Row) {
    && Invariant(cfg, ANYTHING, st) && Unedited(cfg, st, id) && sid in st.sessions
    && SameTerms(terms, st.rows[id]) && st.rows[id].args == terms.args
  }

  // -------------------------------------------------------------- what others do --

  lemma RaiseSparesRow(cfg: Config, st: State, k: Id, call: Call, role: Policy.Role, owner: UserId, id: Id)
    requires ValidConfig(cfg) && id in st.rows
    ensures var st' := ApplyRaise(cfg, st, k, call, role, owner);
            id in st'.rows && st'.rows[id] == st.rows[id] && st'.sessions == st.sessions
  {
    RaiseDoesOneOfThree(cfg, st, k, call, role, owner);
  }

  /** A step of session `k` writes neither the arguments nor the terms of a row, touches
      no other session, and caches a row only as it stands. */
  ghost predicate Spares(st: State, st': State, k: SessionId, id: Id)
    requires k in st.sessions && id in st.rows
  {
    && id in st'.rows && SameTerms(st.rows[id], st'.rows[id]) && st'.rows[id].args == st.rows[id].args
    && st'.clock == st.clock && st'.sessions.Keys == st.sessions.Keys
    && (forall sid :: sid in st.sessions && sid != k ==> st'.sessions[sid] == st.sessions[sid])
    && (id in st'.sessions[k].cache ==>
          (id in st.sessions[k].cache && st'.sessions[k].cache[id] == st.sessions[k].cache[id])
          || st'.sessions[k].cache[id] == st.rows[id])
  }

  lemma AssignSpares(
    st: State, k: SessionId, p: Phase, id: Id, i: Id, copy: Row, s: Status, decidedAt: Option<Time>, kept: bool)
    requires k in st.sessions && id in st.rows
    ensures Spares(st, At(st, k, p), k, id)
    ensures Spares(st, Assign(At(st, k, p), i, copy, s, decidedAt, kept), k, id)
  {
  }

  lemma CheckConfirmSpares(cfg: Config, st: State, k: SessionId, i: Id, kept: bool, id: Id)
    requires k in st.sessions && id in st.rows
    ensures Spares(st, ApplyCheckConfirm(cfg, st, k, i, kept), k, id)
  {
    var me := st.sessions[k];
    if me.phase.Fresh? && i in me.cache {
      AssignSpares(st, k, Ended, id, i, me.cache[i], Failed, Some(st.clock), kept);
      AssignSpares(st, k, Ended, id, i, me.cache[i], Expired, Some(st.clock), kept);
      AssignSpares(st, k, ClaimReady(i, st.clock), id, i, me.cache[i], Expired, None, kept);
    }
  }

  lemma VerifyCopySpares(
    cfg: Config, st: State, k: SessionId, copy: Row, claim: nat, g: Grant, kept: bool, id: Id)
    requires k in st.sessions && id in st.rows
    ensures Spares(st, VerifyCopy(cfg, st, k, copy, claim, g, kept), k, id)
  {
    AssignSpares(st, k, Ended, id, g.id, copy, Failed, Some(st.clock), kept);
    AssignSpares(st, k, Ended, id, g.id, copy, Expired, Some(st.clock), kept);
    AssignSpares(st, k, Verified(g.id, claim, g), id, g.id, copy, Expired, None, kept);
  }

  lemma VerifySpares(cfg: Config, st: State, k: SessionId, kept: bool, id: Id)
    requires ValidConfig(cfg) && k in st.sessions && id in st.rows
    ensures Spares(st, ApplyVerify(cfg, st, k, kept), k, id)
  {
    var me := st.sessions[k];
    VerifyChecksCopyExactlyWhenAdmitted(cfg, st, k, kept);
    if me.phase.Granted? && me.phase.id in me.cache {
      VerifyCopySpares(cfg, st, k, me.cache[me.phase.id], me.phase.claim, me.phase.grant, kept, id);
    }
  }

  lemma MarkSpares(st: State, k: SessionId, success: bool, id: Id)
    requires k in st.sessions && id in st.rows
    ensures Spares(st, ApplyMark(st, k, success), k, id)
  {
    var me := st.sessions[k];
    if me.phase.Sent? && me.phase.id in me.cache {
      var status := if success then Executed else Failed;
      AssignSpares(st, k, Ended, id, me.phase.id, me.cache[me.phase.id], status, None, true);
    }
  }

  lemma DecisionSpares(st: State, k: SessionId, id: Id)
    requires k in st.sessions && id in st.rows
    ensures Spares(st, ApplyClaim(st, k), k, id) && Spares(st, ApplyReject(st, k), k, id)
  {
  }

  lemma ReadingSpares(st: State, k: SessionId, i: Id, id: Id)
    requires k in st.sessions && id in st.rows
    ensures Spares(st, ApplyLoad(st, k, i), k, id) && Spares(st, ApplyRefresh(st, k), k, id)
  {
  }

  lemma MovingOnSpares(st: State, k: SessionId, i: Id, id: Id)
    requires k in st.sessions && id in st.rows
    ensures Spares(st, ApplyCheckReject(st, k, i), k, id) && Spares(st, ApplySend(st, k), k, id)
  {
  }

  lemma StepSpares(cfg: Config, st: State, k: SessionId, step: SessionStep, id: Id)
    requires ValidConfig(cfg) && k in st.sessions && id in st.rows
    ensures Spares(st, ApplyInSession(cfg, st, k, step), k, id)
  {
    match step
    case CheckConfirm(i, kept) => CheckConfirmSpares(cfg, st, k, i, kept, id);
    case Verify(kept) => VerifySpares(cfg, st, k, kept, id);
    case Mark(success) => MarkSpares(st, k, success, id);
    case Load(i) => ReadingSpares(st, k, i, id);
    case CheckReject(i) => MovingOnSpares(st, k, i, id);
    case Refresh => ReadingSpares(st, k, id, id);
    case Send => MovingOnSpares(st, k, id, id);
    case Claim => DecisionSpares(st, k, id);
    case RejectUpdate => DecisionSpares(st, k, id);
    case Abandon => AssignSpares(st, k, Ended, id, id, st.rows[id], Failed, None, false);
  }

  /** What one action of others leaves as it was. */
  ghost predicate Undisturbed(st: State, st': State, sid: SessionId, id: Id)
    requires sid in st.sessions && id in st.rows
  {
    && sid in st'.sessions && st'.sessions[sid] == st.sessions[sid] && st.clock <= st'.clock
    && id in st'.rows && SameTerms(st.rows[id], st'.rows[id]) && st'.rows[id].args == st.rows[id].args
  }

  lemma SparedStaysUnedited(cfg: Config, st: State, st': State, k: SessionId, id: Id)
    requires k in st.sessions && Unedited(cfg, st, id) && Spares(st, st', k, id)
    ensures Unedited(cfg, st', id)
  {
  }

  lemma SessionLeavesUnderway(
    cfg: Config, st: State, k: SessionId, step: SessionStep, sid: SessionId, id: Id, terms: Row)
    requires ValidConfig(cfg) && Underway(cfg, st, sid, id, terms) && k in st.sessions && k != sid
    ensures var st' := ApplyInSession(cfg, st, k, step);
            Underway(cfg, st', sid, id, terms) && Undisturbed(st, st', sid, id)
  {
    SessionStepKeepsInvariant(cfg, ANYTHING, st, k, step);
    StepSpares(cfg, st, k, step, id);
    SparedStaysUnedited(cfg, st, ApplyInSession(cfg, st, k, step), k, id);
  }

  lemma RequestLeavesUnderway(
    cfg: Config, st: State, k: Id, call: Call, role: Policy.Role, owner: UserId, sid: SessionId, id: Id, terms: Row)
    requires ValidConfig(cfg) && Underway(cfg, st, sid, id, terms)
    ensures var st' := ApplyRaise(cfg, st, k, call, role, owner);
            Underway(cfg, st', sid, id, terms) && Undisturbed(st, st', sid, id)
  {
    RaiseKeepsInvariant(cfg, ANYTHING, st, k, call, role, owner);
    RaiseSparesRow(cfg, st, k, call, role, owner, id);
  }

  lemma ExpiryLeavesUnderway(cfg: Config, st: State, moment: Time, sid: SessionId, id: Id, terms: Row)
    requires Underway(cfg, st, sid, id, terms)
    ensures var st' := ApplyExpire(st, moment); Underway(cfg, st', sid, id, terms) && Undisturbed(st, st', sid, id)
  {
    ExpireKeepsInvariant(cfg, ANYTHING, st, moment);
  }

  lemma NoSessionLeavesUnderway(cfg: Config, st: State, a: Action, sid: SessionId, id: Id, terms: Row)
    requires ValidConfig(cfg) && Underway(cfg, st, sid, id, terms) && ByOthers(a, sid, id)
    requires a.Tick? || a.Open?
    ensures Underway(cfg, Apply(cfg, st, a), sid, id, terms) && Undisturbed(st, Apply(cfg, st, a), sid, id)
  {
    ActionKeepsInvariant(cfg, ANYTHING, st, a);
  }

  lemma EditLeavesUnderway(cfg: Config, st: State, k: Id, args: seq<Field>, sid: SessionId, id: Id, terms: Row)
    requires Underway(cfg, st, sid, id, terms) && k in st.rows && k != id
    ensures var st' := st.(rows := st.rows[k := st.rows[k].(args := args)]);
            Underway(cfg, st', sid, id, terms) && Undisturbed(st, st', sid, id)
  {
    WriteKeepsInvariant(cfg, ANYTHING, st, k, st.rows[k].(args := args));
  }

  lemma OthersLeaveUnderway(cfg: Config, st: State, a: Action, sid: SessionId, id: Id, terms: Row)
    requires ValidConfig(cfg) && Underway(cfg, st, sid, id, terms) && ByOthers(a, sid, id)
    ensures Underway(cfg, Apply(cfg, st, a), sid, id, terms) && Undisturbed(st, Apply(cfg, st, a), sid, id)
  {
    match a
    case Raise(k, call, role, owner) => RequestLeavesUnderway(cfg, st, k, call, role, owner, sid, id, terms);
    case InSession(k, step) => if k in st.sessions { SessionLeavesUnderway(cfg, st, k, step, sid, id, terms); }
    case ExpireBulk(moment) => ExpiryLeavesUnderway(cfg, st, moment, sid, id, terms);
    case Tick(_) => NoSessionLeavesUnderway(cfg, st, a, sid, id, terms);
    case Open(_, _) => NoSessionLeavesUnderway(cfg, st, a, sid, id, terms);
    case Edit(k, args) => if k in st.rows { EditLeavesUnderway(cfg, st, k, args, sid, id, terms); }
  }

  lemma SoleClaim(log: seq<Event>, k: SessionId, m: nat, sid: SessionId, n: nat, id: Id)
    requires DecidedOnce(log) && OwnsClaim(log, k, id, m) && OwnsClaim(log, sid, id, n)
    ensures k == sid
  {
    assert Decides(log[m], id) && Decides(log[n], id);
  }

  /** The session has claimed the request and not looked at it since. */
  ghost predicate Holding(cfg: Config, st: State, sid: SessionId, id: Id, terms: Row) {
    && Underway(cfg, st, sid, id, terms) && st.rows[id].status.Approved?
    && st.sessions[sid].phase.Claimed? && st.sessions[sid].phase.id == id
  }

  lemma CheckLeavesClaimed(
    cfg: Config, st: State, k: SessionId, i: Id, kept: bool, sid: SessionId, id: Id, terms: Row)
    requires Holding(cfg, st, sid, id, terms) && k in st.sessions && st.clock < terms.expiresAt
    ensures ApplyCheckConfirm(cfg, st, k, i, kept).rows[id] == st.rows[id]
  {
    assert SessionSound(cfg, ANYTHING, st, k);
    if id in st.sessions[k].cache {
      assert Depicts(cfg, ANYTHING, st.sessions[k].cache[id], st.proposed[id]);
      assert Depicts(cfg, ANYTHING, st.rows[id], st.proposed[id]);
    }
  }

  /** Nobody else holds a grant for the request, nor has sent it. */
  lemma OthersHoldNothing(cfg: Config, st: State, k: SessionId, sid: SessionId, id: Id, terms: Row)
    requires Holding(cfg, st, sid, id, terms) && k in st.sessions && k != sid
    ensures var p := st.sessions[k].phase;
            && (p.Granted? ==> p.id != id && p.grant.id != id)
            && (p.Sent? ==> p.id != id)
  {
    assert SessionSound(cfg, ANYTHING, st, k) && SessionSound(cfg, ANYTHING, st, sid);
    var p := st.sessions[k].phase;
    if (p.Granted? || p.Sent?) && p.id == id {
      SoleClaim(st.log, k, p.claim, sid, st.sessions[sid].phase.claim, id);
    }
  }

  lemma VerifyLeavesOthers(cfg: Config, st: State, k: SessionId, kept: bool, id: Id)
    requires ValidConfig(cfg) && k in st.sessions && id in st.rows
    requires st.sessions[k].phase.Granted? ==> st.sessions[k].phase.grant.id != id
    ensures id in ApplyVerify(cfg, st, k, kept).rows && ApplyVerify(cfg, st, k, kept).rows[id] == st.rows[id]
  {
    VerifyChecksCopyExactlyWhenAdmitted(cfg, st, k, kept);
    var me := st.sessions[k];
    if me.phase.Granted? && me.phase.id in me.cache {
      VerifyCopyLeavesOthers(cfg, st, k, me.cache[me.phase.id], me.phase.claim, me.phase.grant, kept, id);
    }
  }

  lemma VerifyCopyLeavesOthers(
    cfg: Config, st: State, k: SessionId, copy: Row, claim: nat, g: Grant, kept: bool, id: Id)
    requires k in st.sessions && id in st.rows && g.id != id
    ensures var st' := VerifyCopy(cfg, st, k, copy, claim, g, kept); id in st'.rows && st'.rows[id] == st.rows[id]
  {
  }

  /** Claiming and rejecting look at the row, and marking at what was sent. */
  lemma DecisionLeavesClaimed(st: State, k: SessionId, success: bool, id: Id)
    requires k in st.sessions && id in st.rows && st.rows[id].status.Approved?
    requires st.sessions[k].phase.Sent? ==> st.sessions[k].phase.id != id
    ensures var st' := ApplyClaim(st, k); id in st'.rows && st'.rows[id] == st.rows[id]
    ensures var st' := ApplyReject(st, k); id in st'.rows && st'.rows[id] == st.rows[id]
    ensures var st' := ApplyMark(st, k, success); id in st'.rows && st'.rows[id] == st.rows[id]
  {
  }

  lemma StepLeavesClaimed(
    cfg: Config, st: State, k: SessionId, step: SessionStep, sid: SessionId, id: Id, terms: Row)
    requires ValidConfig(cfg) && Holding(cfg, st, sid, id, terms) && k in st.sessions && k != sid
    requires st.clock < terms.expiresAt
    ensures var st' := ApplyInSession(cfg, st, k, step); id in st'.rows && st'.rows[id] == st.rows[id]
  {
    OthersHoldNothing(cfg, st, k, sid, id, terms);
    match step
    case CheckConfirm(i, kept) => CheckLeavesClaimed(cfg, st, k, i, kept, sid, id, terms);
    case Verify(kept) => VerifyLeavesOthers(cfg, st, k, kept, id);
    case Mark(success) => DecisionLeavesClaimed(st, k, success, id);
    case Claim => DecisionLeavesClaimed(st, k, true, id);
    case RejectUpdate => DecisionLeavesClaimed(st, k, true, id);
    case Load(_) =>
    case Refresh =>
    case Send =>
    case CheckReject(_) =>
    case Abandon =>
  }

  lemma OthersLeaveClaimed(cfg: Config, st: State, a: Action, sid: SessionId, id: Id, terms: Row)
    requires ValidConfig(cfg) && Holding(cfg, st, sid, id, terms) && ByOthers(a, sid, id)
    requires st.clock < terms.expiresAt
    ensures Holding(cfg, Apply(cfg, st, a), sid, id, terms)
  {
    OthersLeaveUnderway(cfg, st, a, sid, id, terms);
    ActionLeavesClaimed(cfg, st, a, sid, id, terms);
  }

  lemma ActionLeavesClaimed(cfg: Config, st: State, a: Action, sid: SessionId, id: Id, terms: Row)
    requires ValidConfig(cfg) && Holding(cfg, st, sid, id, terms) && ByOthers(a, sid, id)
    requires st.clock < terms.expiresAt
    ensures id in Apply(cfg, st, a).rows && Apply(cfg, st, a).rows[id] == st.rows[id]
  {
    match a
    case Raise(k, call, role, owner) => RaiseSparesRow(cfg, st, k, call, role, owner, id);
    case InSession(k, step) => if k in st.sessions { StepLeavesClaimed(cfg, st, k, step, sid, id, terms); }
    case _ =>
  }

  // -------------------------------------------------------------- whole intervals --

  lemma {:induction false} OthersPass(
    cfg: Config, st: State, actions: seq<Action>, sid: SessionId, id: Id, terms: Row)
    requires ValidConfig(cfg) && Underway(cfg, st, sid, id, terms) && AllByOthers(actions, sid, id)
    ensures var st' := After(cfg, st, actions);
            Underway(cfg, st', sid, id, terms) && st'.sessions[sid] == st.sessions[sid] && st.clock <= st'.clock
  {
    if actions == [] {
    } else {
      var before := actions[..|actions| - 1];
      OthersPass(cfg, st, before, sid, id, terms);
      OthersLeaveUnderway(cfg, After(cfg, st, before), actions[|actions| - 1], sid, id, terms);
    }
  }

  lemma {:induction false} OthersPassClaimed(
    cfg: Config, st: State, actions: seq<Action>, sid: SessionId, id: Id, terms: Row)
    requires ValidConfig(cfg) && Holding(cfg, st, sid, id, terms) && AllByOthers(actions, sid, id)
    requires After(cfg, st, actions).clock < terms.expiresAt
    ensures Holding(cfg, After(cfg, st, actions), sid, id, terms)
  {
    if actions == [] {
    } else {
      var before := actions[..|actions| - 1];
      var a := actions[|actions| - 1];
      OthersPass(cfg, st, before, sid, id, terms);
      OthersLeaveUnderway(cfg, After(cfg, st, before), a, sid, id, terms);
      OthersPassClaimed(cfg, st, before, sid, id, terms);
      OthersLeaveClaimed(cfg, After(cfg, st, before), a, sid, id, terms);
    }
  }

  // ------------------------------------------------------------------ own steps --

  /** One step of the session, and then whatever others do. */
  ghost function Own(cfg: Config, st: State, sid: SessionId, step: SessionStep, others: seq<Action>): State
    requires ValidConfig(cfg)
  {
    After(cfg, Apply(cfg, st, InSession(sid, step)), others)
  }

  lemma OwnStepLeavesUnderway(cfg: Config, st: State, sid: SessionId, step: SessionStep, id: Id, terms: Row)
    requires ValidConfig(cfg) && Underway(cfg, st, sid, id, terms)
    ensures Underway(cfg, ApplyInSession(cfg, st, sid, step), sid, id, terms)
    ensures ApplyInSession(cfg, st, sid, step).clock == st.clock
  {
    SessionStepKeepsInvariant(cfg, ANYTHING, st, sid, step);
    StepSpares(cfg, st, sid, step, id);
    SparedStaysUnedited(cfg, st, ApplyInSession(cfg, st, sid, step), sid, id);
  }

  /** A step and what follows it leave the request under way, and the session where the
      step took it. */
  lemma OwnPass(
    cfg: Config, st: State, sid: SessionId, step: SessionStep, others: seq<Action>, id: Id, terms: Row)
    requires ValidConfig(cfg) && Underway(cfg, st, sid, id, terms) && AllByOthers(others, sid, id)
    ensures Underway(cfg, ApplyInSession(cfg, st, sid, step), sid, id, terms)
    ensures var st' := Own(cfg, st, sid, step, others);
            && Underway(cfg, st', sid, id, terms) && st.clock <= st'.clock
            && st'.sessions[sid] == ApplyInSession(cfg, st, sid, step).sessions[sid]
  {
    OwnStepLeavesUnderway(cfg, st, sid, step, id, terms);
    OthersPass(cfg, ApplyInSession(cfg, st, sid, step), others, sid, id, terms);
  }

  /** The session has a current or an old copy of the pending request, which it may decide. */
  ghost predicate MayConfirm(cfg: Config, st: State, sid: SessionId, id: Id, terms: Row) {
    && Underway(cfg, st, sid, id, terms) && st.clock < terms.expiresAt
    && var me := st.sessions[sid];
       && me.phase.Fresh? && id in me.cache && me.cache[id].status.Pending? && Entitled(me.user, terms)
  }

  lemma CheckPasses(cfg: Config, st: State, sid: SessionId, id: Id, kept: bool, terms: Row)
    requires MayConfirm(cfg, st, sid, id, terms)
    ensures ApplyCheckConfirm(cfg, st, sid, id, kept) == At(st, sid, ClaimReady(id, st.clock))
  {
    assert SessionSound(cfg, ANYTHING, st, sid);
    assert Depicts(cfg, ANYTHING, st.sessions[sid].cache[id], st.proposed[id]);
    assert Depicts(cfg, ANYTHING, st.rows[id], st.proposed[id]);
  }

  lemma ClaimSettles(cfg: Config, st: State, sid: SessionId, id: Id, moment: Time, terms: Row)
    requires ValidConfig(cfg) && Underway(cfg, st, sid, id, terms) && moment < terms.expiresAt
    requires st.sessions[sid].phase == ClaimReady(id, moment)
    ensures var st' := ApplyInSession(cfg, st, sid, Claim);
            && st'.sessions[sid].user == st.sessions[sid].user
            && if st.rows[id].status.Pending? then Holding(cfg, st', sid, id, terms)
               else st'.sessions[sid].phase.Ended?
  {
    OwnStepLeavesUnderway(cfg, st, sid, Claim, id, terms);
  }

  /** The grant is minted from a copy that says approved. */
  ghost predicate Armed(cfg: Config, st: State, sid: SessionId, id: Id, terms: Row, claim: nat) {
    && Underway(cfg, st, sid, id, terms)
    && var me := st.sessions[sid];
       && me.phase == Granted(id, claim, GrantFor(id, terms, me.user.id))
       && id in me.cache && me.cache[id].status.Approved?
       && SameTerms(terms, me.cache[id]) && me.cache[id].args == terms.args
  }

  lemma RefreshArms(cfg: Config, st: State, sid: SessionId, id: Id, terms: Row)
    requires ValidConfig(cfg) && Holding(cfg, st, sid, id, terms)
    ensures ApplyInSession(cfg, st, sid, Refresh).sessions[sid].user == st.sessions[sid].user
    ensures Armed(cfg, ApplyInSession(cfg, st, sid, Refresh), sid, id, terms, st.sessions[sid].phase.claim)
  {
    OwnStepLeavesUnderway(cfg, st, sid, Refresh, id, terms);
  }

  lemma VerifyPasses(cfg: Config, st: State, sid: SessionId, id: Id, kept: bool, terms: Row, claim: nat)
    requires ValidConfig(cfg) && Armed(cfg, st, sid, id, terms, claim) && st.clock < terms.expiresAt
    requires Admitted(cfg, Call(terms.tool, terms.args), st.sessions[sid].user.role)
    ensures ApplyInSession(cfg, st, sid, Verify(kept))
            == At(st, sid, Verified(id, claim, GrantFor(id, terms, st.sessions[sid].user.id)))
  {
    VerifyChecksCopyExactlyWhenAdmitted(cfg, st, sid, kept);
  }

  predicate Ends(st: State, id: Id, success: bool) {
    id in st.rows && st.rows[id].status == if success then Executed else Failed
  }

  lemma MarkWrites(cfg: Config, st: State, sid: SessionId, id: Id, terms: Row, claim: nat, success: bool)
    requires ValidConfig(cfg) && Underway(cfg, st, sid, id, terms) && st.sessions[sid].phase == Sent(id, claim)
    requires id in st.sessions[sid].cache && st.sessions[sid].cache[id].status.Approved?
    ensures Ends(Apply(cfg, st, InSession(sid, Mark(success))), id, success)
  {
  }

  // -------------------------------------------------------------------- progress --

  /** From the check to the claim. */
  lemma CheckedReachesClaim(
    cfg: Config, st: State, sid: SessionId, id: Id, kept: bool, meanwhile: seq<Action>, terms: Row)
    requires ValidConfig(cfg) && MayConfirm(cfg, st, sid, id, terms) && AllByOthers(meanwhile, sid, id)
    ensures var st' := Own(cfg, st, sid, CheckConfirm(id, kept), meanwhile);
            && Underway(cfg, st', sid, id, terms)
            && st'.sessions[sid] == st.sessions[sid].(phase := ClaimReady(id, st.clock))
  {
    CheckPasses(cfg, st, sid, id, kept, terms);
    OwnPass(cfg, st, sid, CheckConfirm(id, kept), meanwhile, id, terms);
  }

  /** From a successful claim to the grant check. */
  lemma ClaimedReachesVerify(
    cfg: Config, st: State, sid: SessionId, id: Id, before: seq<Action>, after: seq<Action>, terms: Row)
    returns (claim: nat)
    requires ValidConfig(cfg) && Holding(cfg, st, sid, id, terms)
    requires AllByOthers(before, sid, id) && AllByOthers(after, sid, id)
    requires Own(cfg, After(cfg, st, before), sid, Refresh, after).clock < terms.expiresAt
    ensures var st' := Own(cfg, After(cfg, st, before), sid, Refresh, after);
            Armed(cfg, st', sid, id, terms, claim) && st'.sessions[sid].user == st.sessions[sid].user
  {
    var due := After(cfg, st, before);
    OthersPass(cfg, st, before, sid, id, terms);
    OwnPass(cfg, due, sid, Refresh, after, id, terms);
    OthersPassClaimed(cfg, st, before, sid, id, terms);
    claim := due.sessions[sid].phase.claim;
    RefreshThenOthers(cfg, due, sid, id, after, terms);
  }

  lemma RefreshThenOthers(cfg: Config, st: State, sid: SessionId, id: Id, others: seq<Action>, terms: Row)
    requires ValidConfig(cfg) && Holding(cfg, st, sid, id, terms) && AllByOthers(others, sid, id)
    ensures var st' := Own(cfg, st, sid, Refresh, others);
            && Armed(cfg, st', sid, id, terms, st.sessions[sid].phase.claim)
            && st'.sessions[sid].user == st.sessions[sid].user
  {
    RefreshArms(cfg, st, sid, id, terms);
    OwnPass(cfg, st, sid, Refresh, others, id, terms);
  }

  /** The grant has passed; nothing others do matters any more. */
  ghost predicate Cleared(cfg: Config, st: State, sid: SessionId, id: Id, terms: Row, claim: nat) {
    && Underway(cfg, st, sid, id, terms)
    && var me := st.sessions[sid];
       && me.phase == Verified(id, claim, GrantFor(id, terms, me.user.id))
       && id in me.cache && me.cache[id].status.Approved?
  }

  lemma ArmedIsCleared(
    cfg: Config, st: State, sid: SessionId, id: Id, kept: bool, others: seq<Action>, terms: Row, claim: nat)
    requires ValidConfig(cfg) && Armed(cfg, st, sid, id, terms, claim) && st.clock < terms.expiresAt
    requires Admitted(cfg, Call(terms.tool, terms.args), st.sessions[sid].user.role) && AllByOthers(others, sid, id)
    ensures Cleared(cfg, Own(cfg, st, sid, Verify(kept), others), sid, id, terms, claim)
  {
    VerifyPasses(cfg, st, sid, id, kept, terms, claim);
    OwnPass(cfg, st, sid, Verify(kept), others, id, terms);
  }

  /** The call leaves as stored, under the session's own claim. */
  ghost predicate SendsAsStored(cfg: Config, st: State, sid: SessionId, id: Id, terms: Row, claim: nat)
    requires ValidConfig(cfg)
  {
    && OwnsClaim(st.log, sid, id, claim)
    && Apply(cfg, st, InSession(sid, Send)).log
       == st.log + [SendEvent(sid, id, Call(terms.tool, terms.args), claim)]
  }

  lemma ClearedSends(cfg: Config, st: State, sid: SessionId, id: Id, terms: Row, claim: nat)
    requires ValidConfig(cfg) && Cleared(cfg, st, sid, id, terms, claim)
    ensures SendsAsStored(cfg, st, sid, id, terms, claim)
  {
    assert SessionSound(cfg, ANYTHING, st, sid);
  }

  lemma SendingLeavesCache(cfg: Config, st: State, sid: SessionId, id: Id, terms: Row, claim: nat)
    requires ValidConfig(cfg) && Cleared(cfg, st, sid, id, terms, claim)
    ensures ApplyInSession(cfg, st, sid, Send).sessions[sid] == st.sessions[sid].(phase := Sent(id, claim))
  {
  }

  lemma ClearedMarks(
    cfg: Config, st: State, sid: SessionId, id: Id, others: seq<Action>, success: bool, terms: Row, claim: nat)
    requires ValidConfig(cfg) && Cleared(cfg, st, sid, id, terms, claim) && AllByOthers(others, sid, id)
    ensures Ends(Apply(cfg, Own(cfg, st, sid, Send, others), InSession(sid, Mark(success))), id, success)
  {
    OwnPass(cfg, st, sid, Send, others, id, terms);
    SendingLeavesCache(cfg, st, sid, id, terms, claim);
    MarkWrites(cfg, Own(cfg, st, sid, Send, others), sid, id, terms, claim, success);
  }

  /** What others do before each further step of the session. */
  datatype Meanwhile = Meanwhile(
    claim: seq<Action>, refresh: seq<Action>, verify: seq<Action>, send: seq<Action>, mark: seq<Action>)

  predicate Others(o: Meanwhile, sid: SessionId, id: Id) {
    && AllByOthers(o.claim, sid, id) && AllByOthers(o.refresh, sid, id) && AllByOthers(o.verify, sid, id)
    && AllByOthers(o.send, sid, id) && AllByOthers(o.mark, sid, id)
  }

  ghost function AtClaim(cfg: Config, st: State, sid: SessionId, id: Id, kept: bool, o: Meanwhile): State
    requires ValidConfig(cfg)
  {
    Own(cfg, st, sid, CheckConfirm(id, kept), o.claim)
  }

  ghost function AtVerify(cfg: Config, st: State, sid: SessionId, id: Id, kept: bool, o: Meanwhile): State
    requires ValidConfig(cfg)
  {
    Own(cfg, Own(cfg, AtClaim(cfg, st, sid, id, kept, o), sid, Claim, o.refresh), sid, Refresh, o.verify)
  }

  ghost function AtSend(cfg: Config, st: State, sid: SessionId, id: Id, kept: bool, o: Meanwhile): State
    requires ValidConfig(cfg)
  {
    Own(cfg, AtVerify(cfg, st, sid, id, kept, o), sid, Verify(kept), o.send)
  }

  ghost function Marked(
    cfg: Config, st: State, sid: SessionId, id: Id, kept: bool, o: Meanwhile, success: bool): State
    requires ValidConfig(cfg)
  {
    Apply(cfg, Own(cfg, AtSend(cfg, st, sid, id, kept, o), sid, Send, o.mark), InSession(sid, Mark(success)))
  }

  /** A session confirms a request while any others do anything but edit its stored
      arguments.  If the request is still pending when its claim runs, and the clock is
      before the expiry when its grant is checked, the call leaves as stored, under that
      claim, and the row is marked.  If it is not pending, the session ends there and
      sends nothing.  Every reachable state has the invariant asked for. */
  lemma ConfirmSendsExactlyWhenPending(
    cfg: Config, st: State, sid: SessionId, id: Id, kept: bool, o: Meanwhile, success: bool, terms: Row)
    returns (claim: nat)
    requires ValidConfig(cfg) && MayConfirm(cfg, st, sid, id, terms) && Others(o, sid, id)
    requires Admitted(cfg, Call(terms.tool, terms.args), st.sessions[sid].user.role)
    requires AtVerify(cfg, st, sid, id, kept, o).clock < terms.expiresAt
    ensures var due := AtClaim(cfg, st, sid, id, kept, o);
            var verified := AtSend(cfg, st, sid, id, kept, o);
            var end := Marked(cfg, st, sid, id, kept, o, success);
            && id in due.rows
            && if due.rows[id].status.Pending? then
                 SendsAsStored(cfg, verified, sid, id, terms, claim) && Ends(end, id, success)
               else
                 EndsUnsent(cfg, verified, sid)
  {
    CheckedReachesClaim(cfg, st, sid, id, kept, o.claim, terms);
    var due := AtClaim(cfg, st, sid, id, kept, o);
    if due.rows[id].status.Pending? {
      claim := PendingIsArmed(cfg, st, sid, id, kept, o, terms);
      PendingIsSent(cfg, st, sid, id, kept, o, success, terms, claim);
    } else {
      claim := 0;
      ClaimSettles(cfg, due, sid, id, st.clock, terms);
      EndedStays(cfg, st, sid, id, kept, o, terms);
    }
  }

  /** The claim goes through, and the session comes to its grant check. */
  lemma PendingIsArmed(cfg: Config, st: State, sid: SessionId, id: Id, kept: bool, o: Meanwhile, terms: Row)
    returns (claim: nat)
    requires ValidConfig(cfg) && Others(o, sid, id) && st.clock < terms.expiresAt
    requires AtVerify(cfg, st, sid, id, kept, o).clock < terms.expiresAt
    requires var due := AtClaim(cfg, st, sid, id, kept, o);
             && Underway(cfg, due, sid, id, terms) && due.rows[id].status.Pending?
             && due.sessions[sid].phase == ClaimReady(id, st.clock)
    ensures Armed(cfg, AtVerify(cfg, st, sid, id, kept, o), sid, id, terms, claim)
    ensures AtVerify(cfg, st, sid, id, kept, o).sessions[sid].user
            == AtClaim(cfg, st, sid, id, kept, o).sessions[sid].user
  {
    var due := AtClaim(cfg, st, sid, id, kept, o);
    ClaimSettles(cfg, due, sid, id, st.clock, terms);
    claim := ClaimedReachesVerify(cfg, ApplyInSession(cfg, due, sid, Claim), sid, id, o.refresh, o.verify, terms);
  }

  lemma PendingIsSent(
    cfg: Config, st: State, sid: SessionId, id: Id, kept: bool, o: Meanwhile, success: bool, terms: Row, claim: nat)
    requires ValidConfig(cfg) && Others(o, sid, id)
    requires var due := AtVerify(cfg, st, sid, id, kept, o);
             && Armed(cfg, due, sid, id, terms, claim) && due.clock < terms.expiresAt
             && Admitted(cfg, Call(terms.tool, terms.args), due.sessions[sid].user.role)
    ensures SendsAsStored(cfg, AtSend(cfg, st, sid, id, kept, o), sid, id, terms, claim)
    ensures Ends(Marked(cfg, st, sid, id, kept, o, success), id, success)
  {
    ArmedIsCleared(cfg, AtVerify(cfg, st, sid, id, kept, o), sid, id, kept, o.send, terms, claim);
    ClearedSends(cfg, AtSend(cfg, st, sid, id, kept, o), sid, id, terms, claim);
    ClearedMarks(cfg, AtSend(cfg, st, sid, id, kept, o), sid, id, o.mark, success, terms, claim);
  }

  /** The session is over, and its sending step sends nothing. */
  ghost predicate EndsUnsent(cfg: Config, st: State, sid: SessionId)
    requires ValidConfig(cfg)
  {
    && sid in st.sessions && st.sessions[sid].phase.Ended?
    && Apply(cfg, st, InSession(sid, Send)) == st
  }

  lemma EndedStep(cfg: Config, st: State, sid: SessionId, step: SessionStep, others: seq<Action>, id: Id, terms: Row)
    requires ValidConfig(cfg) && Underway(cfg, st, sid, id, terms) && st.sessions[sid].phase.Ended?
    requires AllByOthers(others, sid, id) && (step.Refresh? || step.Verify?)
    ensures var st' := Own(cfg, st, sid, step, others);
            Underway(cfg, st', sid, id, terms) && st'.sessions[sid].phase.Ended?
  {
    OwnPass(cfg, st, sid, step, others, id, terms);
  }

  lemma EndedSendsNothing(cfg: Config, st: State, sid: SessionId)
    requires ValidConfig(cfg) && sid in st.sessions && st.sessions[sid].phase.Ended?
    ensures EndsUnsent(cfg, st, sid)
  {
  }

  lemma EndedStays(cfg: Config, st: State, sid: SessionId, id: Id, kept: bool, o: Meanwhile, terms: Row)
    requires ValidConfig(cfg) && Others(o, sid, id)
    requires var due := AtClaim(cfg, st, sid, id, kept, o);
             && Underway(cfg, due, sid, id, terms)
             && ApplyInSession(cfg, due, sid, Claim).sessions[sid].phase.Ended?
    ensures EndsUnsent(cfg, AtSend(cfg, st, sid, id, kept, o), sid)
  {
    var due := AtClaim(cfg, st, sid, id, kept, o);
    OwnPass(cfg, due, sid, Claim, o.refresh, id, terms);
    EndedStep(cfg, Own(cfg, due, sid, Claim, o.refresh), sid, Refresh, o.verify, id, terms);
    EndedStep(cfg, AtVerify(cfg, st, sid, id, kept, o), sid, Verify(kept), o.send, id, terms);
    EndedSendsNothing(cfg, AtSend(cfg, st, sid, id, kept, o), sid);
  }
}
