/** The approval protocol at statement granularity: any number of sessions, each with its
    own cached copies of rows, take turns on one shared table.

    A session's `get` answers from its cache once a row has been read, and a commit does
    not empty the cache (`app/db/session.py`), so every check below is made on a copy
    that may be stale.  Guarded updates look at the shared row; assigned statuses are
    written without looking. */
module ApprovalInterleaving {
  import opened Json
  import opened Approvals
  import opened SchemaValidation
  import opened ToolGateway
  import opened GrantAdmission
  import Policy

  type SessionId = nat

  /** How far a request handler has come.  `claim` is history: where in the log the
      session's successful claim is recorded. */
  datatype Phase =
    | Fresh
    | ClaimReady(id: Id, moment: Time)
    | Claimed(id: Id, claim: nat)
    | Granted(id: Id, claim: nat, grant: Grant)
    | Verified(id: Id, claim: nat, grant: Grant)
    | Sent(id: Id, claim: nat)
    | RejectReady(id: Id)
    | Ended

  datatype Session = Session(user: User, cache: Table, phase: Phase)

  /** `moment` is what a claim compares with the expiry, read before its statement is sent;
      `at` is history: the time at which the statement took effect. */
  datatype Event =
    | ClaimEvent(session: SessionId, id: Id, user: User, moment: Time, at: Time)
    | RejectEvent(session: SessionId, id: Id)
    | ExpireEvent(ids: set<Id>)
    | SendEvent(session: SessionId, id: Id, call: Call, claim: nat)
    | FreeSendEvent(call: Call)

  /** What a request was created for; history, never read by a step. */
  datatype Proposal = Proposal(call: Call, owner: UserId, expiresAt: Time)

  datatype State = State(
    clock: Time,
    rows: Table,
    proposed: map<Id, Proposal>,
    sessions: map<SessionId, Session>,
    log: seq<Event>)

  const START := State(0, map[], map[], map[], [])

  /** What one session does next: one statement, or one stretch of code between two of
      them.  `kept` says whether a status assigned on the way to an error survives the
      roll-back, which it does when the audit entry that follows it commits. */
  datatype SessionStep =
    | Load(id: Id)
    | CheckConfirm(id: Id, kept: bool)
    | Claim
    | Refresh
    | Verify(kept: bool)
    | Send
    | Mark(success: bool)
    | CheckReject(id: Id)
    | RejectUpdate
    | Abandon

  datatype Action =
    | Tick(elapsed: nat)
    | Raise(id: Id, call: Call, role: Policy.Role, owner: UserId)
    | Open(sid: SessionId, user: User)
    | ExpireBulk(moment: Time)
    | Edit(id: Id, args: seq<Field>)
    | InSession(sid: SessionId, step: SessionStep)

  /** A property of payloads.  Steps copy payloads and never make any, so whatever holds
      of those that come in holds of all; the theorems take it to be `WellFormed`. */
  type Shape = seq<Field> -> bool

  predicate ValidAction(ok: Shape, a: Action) {
    (a.Raise? ==> ok(a.call.args)) && (a.Edit? ==> ok(a.args))
  }

  function At(st: State, sid: SessionId, p: Phase): State
    requires sid in st.sessions
  {
    st.(sessions := st.sessions[sid := st.sessions[sid].(phase := p)])
  }

  function Logged(st: State, e: Event): State { st.(log := st.log + [e]) }

  /** Attributes assigned on a copy and flushed: written without a guard, a status only
      if it differs from the copy's. */
  function Assign(st: State, id: Id, copy: Row, s: Status, decidedAt: Option<Time>, kept: bool): State {
    if kept && id in st.rows then
      var row := st.rows[id];
      st.(rows := st.rows[id := row.(status := if copy.status == s then row.status else s,
                                     decidedAt := if decidedAt.Some? then decidedAt else row.decidedAt)])
    else st
  }

  /** A request is created. */
  function WithRequest(cfg: Config, st: State, id: Id, call: Call, owner: UserId, expiresAt: Time): State {
    st.(rows := st.rows[id := NewRow(cfg.hash, owner, call.tool, call.args, expiresAt)],
        proposed := st.proposed[id := Proposal(call, owner, expiresAt)])
  }

  ghost function ApplyRaise(cfg: Config, st: State, id: Id, call: Call, role: Policy.Role, owner: UserId): State
    requires ValidConfig(cfg)
  {
    if call.tool !in cfg.catalog || !Fits(call.args, cfg.catalog[call.tool]) then st
    else
      var verdict := Policy.Evaluate(cfg.settings, role, call.tool, call.args);
      if verdict == Some(Policy.Allow) then Logged(st, FreeSendEvent(call))
      else if verdict == Some(Policy.RequireApproval) && id !in st.rows && id !in st.proposed then
        WithRequest(cfg, st, id, call, owner, st.clock + cfg.ttl)
      else st
  }

  function ApplyLoad(st: State, sid: SessionId, id: Id): State
    requires sid in st.sessions
  {
    var me := st.sessions[sid];
    if id in me.cache || id !in st.rows then st
    else st.(sessions := st.sessions[sid := me.(cache := me.cache[id := st.rows[id]])])
  }

  /** `confirm` up to its guarded update: every check is on the cached copy. */
  function ApplyCheckConfirm(cfg: Config, st: State, sid: SessionId, id: Id, kept: bool): State
    requires sid in st.sessions
  {
    var me := st.sessions[sid];
    if !me.phase.Fresh? || id !in me.cache then st
    else
      var copy := me.cache[id];
      var out := At(st, sid, Ended);
      if !Entitled(me.user, copy) then out
      else if !Intact(cfg.hash, copy) then Assign(out, id, copy, Failed, Some(st.clock), kept)
      else if !copy.status.Pending? then out
      else if IsExpired(copy, st.clock) then Assign(out, id, copy, Expired, Some(st.clock), kept)
      else At(st, sid, ClaimReady(id, st.clock))
  }

  function ApplyClaim(st: State, sid: SessionId): State
    requires sid in st.sessions
  {
    var me := st.sessions[sid];
    if !me.phase.ClaimReady? then st
    else
      var ClaimReady(id, moment) := me.phase;
      if Claimable(st.rows, id, moment) then
        Logged(At(st, sid, Claimed(id, |st.log|)), ClaimEvent(sid, id, me.user, moment, st.clock))
          .(rows := ClaimPending(st.rows, id, me.user.id, moment))
      else At(st, sid, Ended)
  }

  /** `refresh`, then the grant is minted from the refreshed copy. */
  function ApplyRefresh(st: State, sid: SessionId): State
    requires sid in st.sessions
  {
    var me := st.sessions[sid];
    if !me.phase.Claimed? || me.phase.id !in st.rows then st
    else
      var Claimed(id, claim) := me.phase;
      var copy := st.rows[id];
      st.(sessions := st.sessions[sid :=
            Session(me.user, me.cache[id := copy], Granted(id, claim, GrantFor(id, copy, me.user.id)))])
  }

  /** `execute_approved` up to the dispatch: arguments, policy, then the grant, which is
      compared with the copy in this session's cache. */
  ghost function ApplyVerify(cfg: Config, st: State, sid: SessionId, kept: bool): State
    requires sid in st.sessions && ValidConfig(cfg)
  {
    var me := st.sessions[sid];
    if !me.phase.Granted? || me.phase.id !in me.cache then st
    else
      var Granted(id, claim, g) := me.phase;
      var out := At(st, sid, Ended);
      if g.tool !in cfg.catalog || !Fits(g.args, cfg.catalog[g.tool]) then out
      else
        var verdict := Policy.Evaluate(cfg.settings, me.user.role, g.tool, g.args);
        if verdict == Some(Policy.Allow) then Logged(out, FreeSendEvent(CallOf(g)))
        else if verdict == Some(Policy.RequireApproval) then VerifyCopy(cfg, st, sid, me.cache[id], claim, g, kept)
        else out
  }

  /** `verify_grant` on the cached copy. */
  function VerifyCopy(cfg: Config, st: State, sid: SessionId, copy: Row, claim: nat, g: Grant, kept: bool): State
    requires sid in st.sessions
  {
    var out := At(st, sid, Ended);
    if copy.tool != g.tool || !copy.status.Approved? then out
    else if IsExpired(copy, st.clock) then Assign(out, g.id, copy, Expired, Some(st.clock), kept)
    else if !Intact(cfg.hash, copy) then Assign(out, g.id, copy, Failed, Some(st.clock), kept)
    else if cfg.hash(Obj(g.args)) != copy.hash then out
    else At(st, sid, Verified(g.id, claim, g))
  }

  function ApplySend(st: State, sid: SessionId): State
    requires sid in st.sessions
  {
    var me := st.sessions[sid];
    if !me.phase.Verified? then st
    else
      var Verified(id, claim, g) := me.phase;
      Logged(At(st, sid, Sent(id, claim)), SendEvent(sid, id, CallOf(g), claim))
  }

  function ApplyMark(st: State, sid: SessionId, success: bool): State
    requires sid in st.sessions
  {
    var me := st.sessions[sid];
    if !me.phase.Sent? || me.phase.id !in me.cache then st
    else
      var status := if success then Executed else Failed;
      Assign(At(st, sid, Ended), me.phase.id, me.cache[me.phase.id], status, None, true)
  }

  function ApplyCheckReject(st: State, sid: SessionId, id: Id): State
    requires sid in st.sessions
  {
    var me := st.sessions[sid];
    if !me.phase.Fresh? || id !in me.cache then st
    else if Entitled(me.user, me.cache[id]) && me.cache[id].status.Pending? then At(st, sid, RejectReady(id))
    else At(st, sid, Ended)
  }

  function ApplyReject(st: State, sid: SessionId): State
    requires sid in st.sessions
  {
    var me := st.sessions[sid];
    if !me.phase.RejectReady? then st
    else
      var id := me.phase.id;
      if id in st.rows && st.rows[id].status.Pending? then
        Logged(At(st, sid, Ended), RejectEvent(sid, id)).(rows := RejectPending(st.rows, id, me.user.id, st.clock))
      else At(st, sid, Ended)
  }

  ghost function ApplyInSession(cfg: Config, st: State, sid: SessionId, step: SessionStep): State
    requires ValidConfig(cfg) && sid in st.sessions
  {
    match step
    case Load(id) => ApplyLoad(st, sid, id)
    case CheckConfirm(id, kept) => ApplyCheckConfirm(cfg, st, sid, id, kept)
    case Claim => ApplyClaim(st, sid)
    case Refresh => ApplyRefresh(st, sid)
    case Verify(kept) => ApplyVerify(cfg, st, sid, kept)
    case Send => ApplySend(st, sid)
    case Mark(success) => ApplyMark(st, sid, success)
    case CheckReject(id) => ApplyCheckReject(st, sid, id)
    case RejectUpdate => ApplyReject(st, sid)
    case Abandon => At(st, sid, Ended)
  }

  function ApplyExpire(st: State, moment: Time): State {
    Logged(st, ExpireEvent(set id | id in st.rows && Stale(st.rows[id], moment)))
      .(rows := ExpireStale(st.rows, moment))
  }

  ghost function Apply(cfg: Config, st: State, a: Action): State
    requires ValidConfig(cfg)
  {
    match a
    case Tick(elapsed) => st.(clock := st.clock + elapsed)
    case Raise(id, call, role, owner) => ApplyRaise(cfg, st, id, call, role, owner)
    case Open(sid, user) =>
      if sid in st.sessions then st else st.(sessions := st.sessions[sid := Session(user, map[], Fresh)])
    case ExpireBulk(moment) => ApplyExpire(st, moment)
    case Edit(id, args) => if id in st.rows then st.(rows := st.rows[id := st.rows[id].(args := args)]) else st
    case InSession(sid, step) => if sid in st.sessions then ApplyInSession(cfg, st, sid, step) else st
  }

  ghost function Run(cfg: Config, actions: seq<Action>): State
    requires ValidConfig(cfg)
  {
    if actions == [] then START
    else Apply(cfg, Run(cfg, actions[..|actions| - 1]), actions[|actions| - 1])
  }

  // ---------------------------------------------------------------- invariant --

  /** Every copy of a row, shared or cached, describes the proposal it was made for,
      up to an edit of the stored arguments. */
  predicate Depicts(cfg: Config, ok: Shape, row: Row, p: Proposal) {
    && row.owner == p.owner && row.tool == p.call.tool && row.expiresAt == p.expiresAt
    && row.hash == cfg.hash(Obj(p.call.args))
    && ok(row.args) && ok(p.call.args)
  }

  ghost predicate CopiesSound(cfg: Config, ok: Shape, proposed: map<Id, Proposal>, t: Table) {
    forall id :: id in t ==> id in proposed && Depicts(cfg, ok, t[id], proposed[id])
  }

  predicate OwnsClaim(log: seq<Event>, sid: SessionId, id: Id, claim: nat) {
    claim < |log| && log[claim].ClaimEvent? && log[claim].session == sid && log[claim].id == id
  }

  /** The session owns a claim that nothing has been sent under. */
  ghost predicate HoldsClaim(log: seq<Event>, sid: SessionId, id: Id, claim: nat) {
    OwnsClaim(log, sid, id, claim) && Unsent(log, claim)
  }

  ghost predicate Unsent(log: seq<Event>, claim: nat) {
    forall i :: 0 <= i < |log| && log[i].SendEvent? ==> log[i].claim != claim
  }

  predicate GrantSound(ok: Shape, proposed: map<Id, Proposal>, id: Id, g: Grant) {
    && g.id == id && id in proposed && ok(g.args) && ok(proposed[id].call.args)
    && g.tool == proposed[id].call.tool
  }

  /** The tool and the digest of the arguments are those of the proposal. */
  predicate AsProposed(cfg: Config, ok: Shape, proposed: map<Id, Proposal>, id: Id, call: Call) {
    && id in proposed && ok(call.args) && ok(proposed[id].call.args)
    && call.tool == proposed[id].call.tool
    && cfg.hash(Obj(call.args)) == cfg.hash(Obj(proposed[id].call.args))
  }

  predicate EntitledTo(u: User, p: Proposal) { CanApprove(u) && (u.role.Admin? || p.owner == u.id) }

  ghost predicate PhaseSound(
    cfg: Config, ok: Shape, proposed: map<Id, Proposal>, log: seq<Event>, sid: SessionId, s: Session)
  {
    match s.phase
    case ClaimReady(id, _) => id in proposed && EntitledTo(s.user, proposed[id])
    case Claimed(id, claim) => HoldsClaim(log, sid, id, claim)
    case Granted(id, claim, g) => HoldsClaim(log, sid, id, claim) && GrantSound(ok, proposed, id, g)
    case Verified(id, claim, g) =>
      && HoldsClaim(log, sid, id, claim) && AsProposed(cfg, ok, proposed, id, CallOf(g))
      && log[claim].at < proposed[id].expiresAt
    case Sent(id, claim) => OwnsClaim(log, sid, id, claim)
    case _ => true
  }

  ghost predicate SessionSound(cfg: Config, ok: Shape, st: State, sid: SessionId) {
    sid in st.sessions ==>
      && CopiesSound(cfg, ok, st.proposed, st.sessions[sid].cache)
      && PhaseSound(cfg, ok, st.proposed, st.log, sid, st.sessions[sid])
  }

  /** A request somebody has decided is no longer pending, whatever its copies say. */
  predicate Settled(t: Table, id: Id) { id in t && !t[id].status.Pending? }

  /** A claim was made by an entitled user, on a clock reading in time. */
  ghost predicate ClaimSound(st: State, e: Event)
    requires e.ClaimEvent?
  {
    && e.id in st.proposed && EntitledTo(e.user, st.proposed[e.id]) && e.moment < st.proposed[e.id].expiresAt
    && e.at <= st.clock
  }

  /** A call was sent as proposed, under its session's own earlier claim, which took effect
      before the expiry. */
  ghost predicate SendSound(cfg: Config, ok: Shape, st: State, i: nat, e: Event)
    requires e.SendEvent? && i <= |st.log|
  {
    && e.claim < i && OwnsClaim(st.log, e.session, e.id, e.claim)
    && AsProposed(cfg, ok, st.proposed, e.id, e.call)
    && st.log[e.claim].at < st.proposed[e.id].expiresAt
  }

  ghost predicate EventSound(cfg: Config, ok: Shape, st: State, i: nat)
    requires i < |st.log|
  {
    var e := st.log[i];
    match e
    case ClaimEvent(_, id, _, _, _) => Settled(st.rows, id) && ClaimSound(st, e)
    case RejectEvent(_, id) => Settled(st.rows, id)
    case ExpireEvent(ids) => forall id :: id in ids ==> Settled(st.rows, id)
    case SendEvent(_, _, _, _) => SendSound(cfg, ok, st, i, e)
    case FreeSendEvent(call) => !Policy.Gated(cfg.settings, call.tool)
  }

  predicate Decides(e: Event, id: Id) {
    || (e.ClaimEvent? && e.id == id)
    || (e.RejectEvent? && e.id == id)
    || (e.ExpireEvent? && id in e.ids)
  }

  ghost predicate DecidedOnce(log: seq<Event>) {
    forall i, j, id :: 0 <= i < j < |log| && Decides(log[i], id) ==> !Decides(log[j], id)
  }

  ghost predicate SentOnce(log: seq<Event>) {
    forall i, j :: 0 <= i < j < |log| && log[i].SendEvent? && log[j].SendEvent? ==> log[i].claim != log[j].claim
  }

  ghost predicate Invariant(cfg: Config, ok: Shape, st: State) {
    && CopiesSound(cfg, ok, st.proposed, st.rows)
    && (forall sid :: sid in st.sessions ==> SessionSound(cfg, ok, st, sid))
    && (forall i :: 0 <= i < |st.log| ==> EventSound(cfg, ok, st, i))
    && DecidedOnce(st.log) && SentOnce(st.log)
  }

  // --------------------------------------------------------- how a step moves --

  /** No write returns a row to pending: the fact the whole protocol rests on. */
  ghost predicate Onward(st: State, st': State) {
    && (forall id :: id in st.proposed ==> id in st'.proposed && st'.proposed[id] == st.proposed[id])
    && (forall id :: Settled(st.rows, id) ==> Settled(st'.rows, id))
    && |st.log| <= |st'.log| && st'.log[..|st.log|] == st.log
    && st.clock <= st'.clock
  }

  /** At most one event is added; it decides nothing already decided and sends under no
      claim already used.  `mover` is the session that takes the step, if one does. */
  ghost predicate AddsSoundEvent(cfg: Config, ok: Shape, st: State, st': State, mover: Option<SessionId>) {
    || st'.log == st.log
    || (&& |st'.log| == |st.log| + 1
        && EventSound(cfg, ok, st', |st.log|)
        && DecidesAnew(st.log, st'.log[|st.log|])
        && SendsAnew(st.log, st'.log[|st.log|], mover))
  }

  ghost predicate DecidesAnew(log: seq<Event>, e: Event) {
    forall i, id :: 0 <= i < |log| && Decides(log[i], id) ==> !Decides(e, id)
  }

  ghost predicate SendsAnew(log: seq<Event>, e: Event, mover: Option<SessionId>) {
    e.SendEvent? ==> mover == Some(e.session) && Unsent(log, e.claim)
  }

  ghost predicate OnlyMoverMoves(st: State, st': State, mover: Option<SessionId>) {
    forall k :: k in st'.sessions && Some(k) != mover ==> k in st.sessions && st'.sessions[k] == st.sessions[k]
  }

  lemma EventStaysSound(cfg: Config, ok: Shape, st: State, st': State, i: nat)
    requires i < |st.log| && EventSound(cfg, ok, st, i) && Onward(st, st')
    ensures EventSound(cfg, ok, st', i)
  {
    assert forall k :: 0 <= k < |st.log| ==> st'.log[k] == st.log[k];
  }

  lemma CopiesStaySound(cfg: Config, ok: Shape, st: State, st': State, t: Table)
    requires CopiesSound(cfg, ok, st.proposed, t) && Onward(st, st')
    ensures CopiesSound(cfg, ok, st'.proposed, t)
  {
  }

  /** Another session's claim is untouched: a call is sent under the sender's own. */
  lemma ClaimStaysHeld(
    cfg: Config, ok: Shape, st: State, st': State, mover: Option<SessionId>, sid: SessionId, id: Id, claim: nat)
    requires HoldsClaim(st.log, sid, id, claim) && Some(sid) != mover
    requires Onward(st, st') && AddsSoundEvent(cfg, ok, st, st', mover)
    ensures HoldsClaim(st'.log, sid, id, claim)
  {
    assert forall k :: 0 <= k < |st.log| ==> st'.log[k] == st.log[k];
  }

  lemma OtherSessionStaysSound(cfg: Config, ok: Shape, st: State, st': State, mover: Option<SessionId>, sid: SessionId)
    requires sid in st.sessions && SessionSound(cfg, ok, st, sid) && Some(sid) != mover
    requires Onward(st, st') && AddsSoundEvent(cfg, ok, st, st', mover) && OnlyMoverMoves(st, st', mover)
    ensures SessionSound(cfg, ok, st', sid)
  {
    var s := st.sessions[sid];
    CopiesStaySound(cfg, ok, st, st', s.cache);
    assert forall k :: 0 <= k < |st.log| ==> st'.log[k] == st.log[k];
    if s.phase.Claimed? || s.phase.Granted? || s.phase.Verified? {
      ClaimStaysHeld(cfg, ok, st, st', mover, sid, s.phase.id, s.phase.claim);
    }
  }

  lemma LogStaysSingular(cfg: Config, ok: Shape, st: State, st': State, mover: Option<SessionId>)
    requires DecidedOnce(st.log) && SentOnce(st.log)
    requires Onward(st, st') && AddsSoundEvent(cfg, ok, st, st', mover)
    ensures DecidedOnce(st'.log) && SentOnce(st'.log)
  {
    assert forall k :: 0 <= k < |st.log| ==> st'.log[k] == st.log[k];
  }

  /** The frame of every step: what is left to check is the table, the mover and the new event. */
  lemma StepKeepsInvariant(cfg: Config, ok: Shape, st: State, st': State, mover: Option<SessionId>)
    requires Invariant(cfg, ok, st) && Onward(st, st')
    requires AddsSoundEvent(cfg, ok, st, st', mover) && OnlyMoverMoves(st, st', mover)
    requires CopiesSound(cfg, ok, st'.proposed, st'.rows)
    requires mover.Some? ==> SessionSound(cfg, ok, st', mover.value)
    ensures Invariant(cfg, ok, st')
  {
    forall i | 0 <= i < |st'.log| ensures EventSound(cfg, ok, st', i) {
      if i < |st.log| { EventStaysSound(cfg, ok, st, st', i); }
    }
    forall sid | sid in st'.sessions ensures SessionSound(cfg, ok, st', sid) {
      if Some(sid) != mover { OtherSessionStaysSound(cfg, ok, st, st', mover, sid); }
    }
    LogStaysSingular(cfg, ok, st, st', mover);
  }

  // ---------------------------------------------------------------- each step --

  /** A write to one row that leaves its request alone and does not reopen it. */
  lemma WriteKeepsInvariant(cfg: Config, ok: Shape, st: State, id: Id, row: Row)
    requires Invariant(cfg, ok, st) && id in st.rows
    requires row == st.rows[id].(args := row.args, status := row.status,
                                 decidedBy := row.decidedBy, decidedAt := row.decidedAt)
    requires ok(row.args) && (!st.rows[id].status.Pending? ==> !row.status.Pending?)
    ensures Invariant(cfg, ok, st.(rows := st.rows[id := row]))
  {
    assert Depicts(cfg, ok, st.rows[id], st.proposed[id]);
    StepKeepsInvariant(cfg, ok, st, st.(rows := st.rows[id := row]), None);
  }

  /** A session moves on to a phase that is sound for it; nothing else changes. */
  lemma PhaseKeepsInvariant(cfg: Config, ok: Shape, st: State, sid: SessionId, p: Phase)
    requires Invariant(cfg, ok, st) && sid in st.sessions
    requires PhaseSound(cfg, ok, st.proposed, st.log, sid, st.sessions[sid].(phase := p))
    ensures Invariant(cfg, ok, At(st, sid, p))
  {
    assert SessionSound(cfg, ok, st, sid);
    StepKeepsInvariant(cfg, ok, st, At(st, sid, p), Some(sid));
  }

  lemma AssignKeepsInvariant(
    cfg: Config, ok: Shape, st: State, id: Id, copy: Row, s: Status, decidedAt: Option<Time>, kept: bool)
    requires Invariant(cfg, ok, st) && !s.Pending?
    ensures Invariant(cfg, ok, Assign(st, id, copy, s, decidedAt, kept))
  {
    if kept && id in st.rows {
      assert Depicts(cfg, ok, st.rows[id], st.proposed[id]);
      WriteKeepsInvariant(cfg, ok, st, id, Assign(st, id, copy, s, decidedAt, kept).rows[id]);
    }
  }

  lemma FreeSendKeepsInvariant(cfg: Config, ok: Shape, st: State, st': State, call: Call)
    requires Invariant(cfg, ok, st) && !Policy.Gated(cfg.settings, call.tool)
    requires st' == Logged(st, FreeSendEvent(call))
    ensures Invariant(cfg, ok, st')
  {
    StepKeepsInvariant(cfg, ok, st, st', None);
  }

  lemma RaisedKeepsInvariant(
    cfg: Config, ok: Shape, st: State, st': State, id: Id, call: Call, owner: UserId, expiresAt: Time)
    requires Invariant(cfg, ok, st) && ok(call.args) && id !in st.rows && id !in st.proposed
    requires st' == WithRequest(cfg, st, id, call, owner, expiresAt)
    ensures Invariant(cfg, ok, st')
  {
    CopiesStaySound(cfg, ok, st, st', st.rows);
    StepKeepsInvariant(cfg, ok, st, st', None);
  }

  lemma RaiseDoesOneOfThree(cfg: Config, st: State, id: Id, call: Call, role: Policy.Role, owner: UserId)
    requires ValidConfig(cfg)
    ensures RaisesTo(cfg, st, ApplyRaise(cfg, st, id, call, role, owner), id, call, owner)
  {
  }

  predicate RaisesTo(cfg: Config, st: State, st': State, id: Id, call: Call, owner: UserId) {
    if id !in st.rows && id in st'.rows then
      && st' == WithRequest(cfg, st, id, call, owner, st.clock + cfg.ttl) && id !in st.proposed
      && Policy.Gated(cfg.settings, call.tool)
    else if |st.log| < |st'.log| then
      st' == Logged(st, FreeSendEvent(call)) && !Policy.Gated(cfg.settings, call.tool)
    else
      st' == st
  }

  lemma OneOfThreeKeepsInvariant(
    cfg: Config, ok: Shape, st: State, st': State, id: Id, call: Call, owner: UserId)
    requires Invariant(cfg, ok, st) && ok(call.args) && RaisesTo(cfg, st, st', id, call, owner)
    ensures Invariant(cfg, ok, st')
  {
    if id !in st.rows && id in st'.rows {
      RaisedKeepsInvariant(cfg, ok, st, st', id, call, owner, st.clock + cfg.ttl);
    } else if |st.log| < |st'.log| {
      FreeSendKeepsInvariant(cfg, ok, st, st', call);
    }
  }

  lemma RaiseKeepsInvariant(
    cfg: Config, ok: Shape, st: State, id: Id, call: Call, role: Policy.Role, owner: UserId)
    requires ValidConfig(cfg) && Invariant(cfg, ok, st) && ok(call.args)
    ensures Invariant(cfg, ok, ApplyRaise(cfg, st, id, call, role, owner))
  {
    RaiseDoesOneOfThree(cfg, st, id, call, role, owner);
    OneOfThreeKeepsInvariant(cfg, ok, st, ApplyRaise(cfg, st, id, call, role, owner), id, call, owner);
  }

  lemma DecidedIsSettled(cfg: Config, ok: Shape, st: State, e: Event)
    requires Invariant(cfg, ok, st) && forall id :: Decides(e, id) ==> !Settled(st.rows, id)
    ensures DecidesAnew(st.log, e)
  {
    forall i, id | 0 <= i < |st.log| && Decides(st.log[i], id) ensures !Decides(e, id) {
      assert EventSound(cfg, ok, st, i);
    }
  }

  lemma ExpireKeepsInvariant(cfg: Config, ok: Shape, st: State, moment: Time)
    requires Invariant(cfg, ok, st)
    ensures Invariant(cfg, ok, ApplyExpire(st, moment))
  {
    var st' := ApplyExpire(st, moment);
    DecidedIsSettled(cfg, ok, st, st'.log[|st.log|]);
    forall id | id in st'.rows ensures id in st'.proposed && Depicts(cfg, ok, st'.rows[id], st'.proposed[id]) {
      assert Depicts(cfg, ok, st.rows[id], st.proposed[id]);
    }
    StepKeepsInvariant(cfg, ok, st, st', None);
  }

  lemma LoadKeepsInvariant(cfg: Config, ok: Shape, st: State, sid: SessionId, id: Id)
    requires Invariant(cfg, ok, st) && sid in st.sessions
    ensures Invariant(cfg, ok, ApplyLoad(st, sid, id))
  {
    assert SessionSound(cfg, ok, st, sid);
    StepKeepsInvariant(cfg, ok, st, ApplyLoad(st, sid, id), Some(sid));
  }

  lemma EntitledToClaim(cfg: Config, ok: Shape, st: State, sid: SessionId, id: Id)
    requires Invariant(cfg, ok, st) && sid in st.sessions && id in st.sessions[sid].cache
    requires Entitled(st.sessions[sid].user, st.sessions[sid].cache[id])
    ensures id in st.proposed && EntitledTo(st.sessions[sid].user, st.proposed[id])
  {
    assert SessionSound(cfg, ok, st, sid);
    assert Depicts(cfg, ok, st.sessions[sid].cache[id], st.proposed[id]);
  }

  lemma CheckConfirmKeepsInvariant(cfg: Config, ok: Shape, st: State, sid: SessionId, id: Id, kept: bool)
    requires Invariant(cfg, ok, st) && sid in st.sessions
    ensures Invariant(cfg, ok, ApplyCheckConfirm(cfg, st, sid, id, kept))
  {
    var me := st.sessions[sid];
    PhaseKeepsInvariant(cfg, ok, st, sid, Ended);
    if !me.phase.Fresh? || id !in me.cache {
    } else if !Entitled(me.user, me.cache[id]) {
    } else if !Intact(cfg.hash, me.cache[id]) {
      AssignKeepsInvariant(cfg, ok, At(st, sid, Ended), id, me.cache[id], Failed, Some(st.clock), kept);
    } else if me.cache[id].status.Pending? && IsExpired(me.cache[id], st.clock) {
      AssignKeepsInvariant(cfg, ok, At(st, sid, Ended), id, me.cache[id], Expired, Some(st.clock), kept);
    } else {
      EntitledToClaim(cfg, ok, st, sid, id);
      PhaseKeepsInvariant(cfg, ok, st, sid, ClaimReady(id, st.clock));
    }
  }

  /** The guarded update: it succeeds on a pending row only, so nobody decided before. */
  lemma ClaimKeepsInvariant(cfg: Config, ok: Shape, st: State, sid: SessionId)
    requires Invariant(cfg, ok, st) && sid in st.sessions
    ensures Invariant(cfg, ok, ApplyClaim(st, sid))
  {
    var me := st.sessions[sid];
    PhaseKeepsInvariant(cfg, ok, st, sid, Ended);
    if me.phase.ClaimReady? && Claimable(st.rows, me.phase.id, me.phase.moment) {
      var st' := ApplyClaim(st, sid);
      assert SessionSound(cfg, ok, st, sid);
      assert Depicts(cfg, ok, st.rows[me.phase.id], st.proposed[me.phase.id]);
      DecidedIsSettled(cfg, ok, st, st'.log[|st.log|]);
      ClaimIsUnsent(cfg, ok, st, me.phase.id, st'.log[|st.log|]);
      StepKeepsInvariant(cfg, ok, st, st', Some(sid));
    }
  }

  /** A claim just made has an index no earlier call was sent under. */
  lemma ClaimIsUnsent(cfg: Config, ok: Shape, st: State, id: Id, e: Event)
    requires Invariant(cfg, ok, st) && e.ClaimEvent?
    ensures Unsent(st.log + [e], |st.log|)
  {
    forall i | 0 <= i < |st.log| && st.log[i].SendEvent? ensures st.log[i].claim != |st.log| {
      assert EventSound(cfg, ok, st, i);
    }
  }

  lemma RefreshKeepsInvariant(cfg: Config, ok: Shape, st: State, sid: SessionId)
    requires Invariant(cfg, ok, st) && sid in st.sessions
    ensures Invariant(cfg, ok, ApplyRefresh(st, sid))
  {
    var me := st.sessions[sid];
    if me.phase.Claimed? && me.phase.id in st.rows {
      assert SessionSound(cfg, ok, st, sid);
      assert Depicts(cfg, ok, st.rows[me.phase.id], st.proposed[me.phase.id]);
      StepKeepsInvariant(cfg, ok, st, ApplyRefresh(st, sid), Some(sid));
    }
  }

  /** A grant passes when its digest is the copy's, and every copy has the proposal's. */
  lemma PassedGrantIsAsProposed(cfg: Config, ok: Shape, st: State, sid: SessionId)
    requires sid in st.sessions && SessionSound(cfg, ok, st, sid) && st.sessions[sid].phase.Granted?
    requires st.sessions[sid].phase.id in st.sessions[sid].cache && st.sessions[sid].phase.claim < |st.log|
    requires var me := st.sessions[sid]; cfg.hash(Obj(me.phase.grant.args)) == me.cache[me.phase.id].hash
    requires var me := st.sessions[sid];
             !IsExpired(me.cache[me.phase.id], st.clock) && EventSound(cfg, ok, st, me.phase.claim)
    ensures var Granted(id, claim, g) := st.sessions[sid].phase;
            var me := st.sessions[sid].(phase := Verified(id, claim, g));
            g.id == id && PhaseSound(cfg, ok, st.proposed, st.log, sid, me)
  {
    var me := st.sessions[sid];
    assert Depicts(cfg, ok, me.cache[me.phase.id], st.proposed[me.phase.id]);
  }

  lemma VerifyCopyKeepsInvariant(cfg: Config, ok: Shape, st: State, sid: SessionId, kept: bool)
    requires Invariant(cfg, ok, st) && sid in st.sessions && st.sessions[sid].phase.Granted?
    requires st.sessions[sid].phase.id in st.sessions[sid].cache
    ensures var me := st.sessions[sid];
            Invariant(cfg, ok, VerifyCopy(cfg, st, sid, me.cache[me.phase.id], me.phase.claim, me.phase.grant, kept))
  {
    var me := st.sessions[sid];
    var Granted(id, claim, g) := me.phase;
    var copy := me.cache[id];
    assert SessionSound(cfg, ok, st, sid);
    PhaseKeepsInvariant(cfg, ok, st, sid, Ended);
    if IsExpired(copy, st.clock) {
      AssignKeepsInvariant(cfg, ok, At(st, sid, Ended), id, copy, Expired, Some(st.clock), kept);
    } else if !Intact(cfg.hash, copy) {
      AssignKeepsInvariant(cfg, ok, At(st, sid, Ended), id, copy, Failed, Some(st.clock), kept);
    } else if cfg.hash(Obj(g.args)) == copy.hash {
      PassedGrantIsAsProposed(cfg, ok, st, sid);
      PhaseKeepsInvariant(cfg, ok, st, sid, Verified(id, claim, g));
    }
  }

  lemma VerifyKeepsInvariant(cfg: Config, ok: Shape, st: State, sid: SessionId, kept: bool)
    requires ValidConfig(cfg) && Invariant(cfg, ok, st) && sid in st.sessions
    ensures Invariant(cfg, ok, ApplyVerify(cfg, st, sid, kept))
  {
    var me := st.sessions[sid];
    if me.phase.Granted? && me.phase.id in me.cache {
      var g := me.phase.grant;
      PhaseKeepsInvariant(cfg, ok, st, sid, Ended);
      if Admitted(cfg, CallOf(g), me.user.role) {
        VerifyCopyKeepsInvariant(cfg, ok, st, sid, kept);
      } else if Policy.Evaluate(cfg.settings, me.user.role, g.tool, g.args) == Some(Policy.Allow) {
        var out := At(st, sid, Ended);
        FreeSendKeepsInvariant(cfg, ok, out, Logged(out, FreeSendEvent(CallOf(g))), CallOf(g));
      }
    }
  }

  lemma SendKeepsInvariant(cfg: Config, ok: Shape, st: State, sid: SessionId)
    requires Invariant(cfg, ok, st) && sid in st.sessions
    ensures Invariant(cfg, ok, ApplySend(st, sid))
  {
    var me := st.sessions[sid];
    if me.phase.Verified? {
      assert SessionSound(cfg, ok, st, sid);
      StepKeepsInvariant(cfg, ok, st, ApplySend(st, sid), Some(sid));
    }
  }

  lemma MarkKeepsInvariant(cfg: Config, ok: Shape, st: State, sid: SessionId, success: bool)
    requires Invariant(cfg, ok, st) && sid in st.sessions
    ensures Invariant(cfg, ok, ApplyMark(st, sid, success))
  {
    var me := st.sessions[sid];
    if me.phase.Sent? && me.phase.id in me.cache {
      PhaseKeepsInvariant(cfg, ok, st, sid, Ended);
      AssignKeepsInvariant(cfg, ok, At(st, sid, Ended), me.phase.id, me.cache[me.phase.id],
                           if success then Executed else Failed, None, true);
    }
  }

  lemma CheckRejectKeepsInvariant(cfg: Config, ok: Shape, st: State, sid: SessionId, id: Id)
    requires Invariant(cfg, ok, st) && sid in st.sessions
    ensures Invariant(cfg, ok, ApplyCheckReject(st, sid, id))
  {
    PhaseKeepsInvariant(cfg, ok, st, sid, Ended);
    PhaseKeepsInvariant(cfg, ok, st, sid, RejectReady(id));
  }

  lemma RejectKeepsInvariant(cfg: Config, ok: Shape, st: State, sid: SessionId)
    requires Invariant(cfg, ok, st) && sid in st.sessions
    ensures Invariant(cfg, ok, ApplyReject(st, sid))
  {
    var me := st.sessions[sid];
    PhaseKeepsInvariant(cfg, ok, st, sid, Ended);
    if me.phase.RejectReady? && me.phase.id in st.rows && st.rows[me.phase.id].status.Pending? {
      var st' := ApplyReject(st, sid);
      assert SessionSound(cfg, ok, st, sid);
      assert Depicts(cfg, ok, st.rows[me.phase.id], st.proposed[me.phase.id]);
      DecidedIsSettled(cfg, ok, st, st'.log[|st.log|]);
      StepKeepsInvariant(cfg, ok, st, st', Some(sid));
    }
  }

  lemma SessionStepKeepsInvariant(cfg: Config, ok: Shape, st: State, sid: SessionId, step: SessionStep)
    requires ValidConfig(cfg) && Invariant(cfg, ok, st) && sid in st.sessions
    ensures Invariant(cfg, ok, ApplyInSession(cfg, st, sid, step))
  {
    match step
    case Load(id) => LoadKeepsInvariant(cfg, ok, st, sid, id);
    case CheckConfirm(id, kept) => CheckConfirmKeepsInvariant(cfg, ok, st, sid, id, kept);
    case Claim => ClaimKeepsInvariant(cfg, ok, st, sid);
    case Refresh => RefreshKeepsInvariant(cfg, ok, st, sid);
    case Verify(kept) => VerifyKeepsInvariant(cfg, ok, st, sid, kept);
    case Send => SendKeepsInvariant(cfg, ok, st, sid);
    case Mark(success) => MarkKeepsInvariant(cfg, ok, st, sid, success);
    case CheckReject(id) => CheckRejectKeepsInvariant(cfg, ok, st, sid, id);
    case RejectUpdate => RejectKeepsInvariant(cfg, ok, st, sid);
    case Abandon => PhaseKeepsInvariant(cfg, ok, st, sid, Ended);
  }

  lemma ActionKeepsInvariant(cfg: Config, ok: Shape, st: State, a: Action)
    requires ValidConfig(cfg) && Invariant(cfg, ok, st) && ValidAction(ok, a)
    ensures Invariant(cfg, ok, Apply(cfg, st, a))
  {
    match a
    case Tick(_) => StepKeepsInvariant(cfg, ok, st, Apply(cfg, st, a), None);
    case Raise(id, call, role, owner) => RaiseKeepsInvariant(cfg, ok, st, id, call, role, owner);
    case Open(sid, _) =>
      StepKeepsInvariant(cfg, ok, st, Apply(cfg, st, a), if sid in st.sessions then None else Some(sid));
    case ExpireBulk(moment) => ExpireKeepsInvariant(cfg, ok, st, moment);
    case Edit(id, args) => if id in st.rows { WriteKeepsInvariant(cfg, ok, st, id, st.rows[id].(args := args)); }
    case InSession(sid, step) => if sid in st.sessions { SessionStepKeepsInvariant(cfg, ok, st, sid, step); }
  }

  lemma {:induction false} RunKeepsInvariant(cfg: Config, ok: Shape, actions: seq<Action>)
    requires ValidConfig(cfg) && forall i :: 0 <= i < |actions| ==> ValidAction(ok, actions[i])
    ensures Invariant(cfg, ok, Run(cfg, actions))
  {
    if actions == [] {
    } else {
      RunKeepsInvariant(cfg, ok, actions[..|actions| - 1]);
      ActionKeepsInvariant(cfg, ok, Run(cfg, actions[..|actions| - 1]), actions[|actions| - 1]);
    }
  }

  // ------------------------------------------------------ safety of every run --

  ghost const DICTIONARIES: Shape := args => WellFormed(Obj(args))

  /** What is behind a gated call that left: one claim, made in its own session before
      it, by a user entitled to the request, whose statement took effect strictly before
      the request expired.  The tool is the proposed one and the arguments are equal to
      the proposed ones. */
  ghost predicate Authorised(st: State, i: nat)
    requires i < |st.log| && st.log[i].SendEvent?
  {
    var e := st.log[i];
    && e.claim < i && OwnsClaim(st.log, e.session, e.id, e.claim) && e.id in st.proposed
    && var p := st.proposed[e.id];
       && EntitledTo(st.log[e.claim].user, p) && st.log[e.claim].at < p.expiresAt
       && e.call.tool == p.call.tool && Equiv(Obj(e.call.args), Obj(p.call.args))
  }

  lemma SendIsBacked(cfg: Config, ok: Shape, st: State, j: nat)
    requires Invariant(cfg, ok, st) && j < |st.log| && st.log[j].SendEvent?
    ensures var claim := st.log[j].claim;
            && claim < j && st.log[claim].ClaimEvent? && st.log[claim].id == st.log[j].id
            && Decides(st.log[claim], st.log[j].id)
  {
    assert EventSound(cfg, ok, st, j);
  }

  lemma NoSendForRefused(cfg: Config, ok: Shape, st: State, i: nat, j: nat)
    requires Invariant(cfg, ok, st) && i < |st.log| && j < |st.log|
    requires (st.log[i].RejectEvent? || st.log[i].ExpireEvent?) && st.log[j].SendEvent?
    ensures !Decides(st.log[i], st.log[j].id)
  {
    SendIsBacked(cfg, ok, st, j);
  }

  lemma NoTwoSendsForOne(cfg: Config, ok: Shape, st: State, i: nat, j: nat)
    requires Invariant(cfg, ok, st) && i < j < |st.log| && st.log[i].SendEvent? && st.log[j].SendEvent?
    ensures st.log[i].claim != st.log[j].claim && st.log[i].id != st.log[j].id
  {
    SendIsBacked(cfg, ok, st, i);
    SendIsBacked(cfg, ok, st, j);
  }

  /** In every interleaving. */
  lemma EverySendAuthorised(cfg: Config, actions: seq<Action>, i: nat)
    requires ValidConfig(cfg) && forall k :: 0 <= k < |actions| ==> ValidAction(DICTIONARIES, actions[k])
    requires i < |Run(cfg, actions).log| && Run(cfg, actions).log[i].SendEvent?
    ensures Authorised(Run(cfg, actions), i)
  {
    RunKeepsInvariant(cfg, DICTIONARIES, actions);
    var st := Run(cfg, actions);
    assert EventSound(cfg, DICTIONARIES, st, i) && EventSound(cfg, DICTIONARIES, st, st.log[i].claim);
    HashesAgree(cfg.hash, Obj(st.log[i].call.args), Obj(st.proposed[st.log[i].id].call.args));
  }

  /** Calls that left without an approval are of tools that need none. */
  lemma {:induction false} FreeSendsAreUngated(cfg: Config, actions: seq<Action>, i: nat)
    requires ValidConfig(cfg)
    requires i < |Run(cfg, actions).log| && Run(cfg, actions).log[i].FreeSendEvent?
    ensures !Policy.Gated(cfg.settings, Run(cfg, actions).log[i].call.tool)
  {
    var any: Shape := _ => true;
    RunKeepsInvariant(cfg, any, actions);
    assert EventSound(cfg, any, Run(cfg, actions), i);
  }

  /** Over a whole run at most one claim, rejection or bulk expiry of a request succeeds. */
  lemma DecidedAtMostOnce(cfg: Config, actions: seq<Action>, i: nat, j: nat, id: Id)
    requires ValidConfig(cfg) && i < j < |Run(cfg, actions).log|
    ensures !(Decides(Run(cfg, actions).log[i], id) && Decides(Run(cfg, actions).log[j], id))
  {
    RunKeepsInvariant(cfg, _ => true, actions);
  }

  /** Calls map one-to-one to claims, and so to approvals: no request is sent twice. */
  lemma {:induction false} SentAtMostOnce(cfg: Config, actions: seq<Action>, i: nat, j: nat)
    requires ValidConfig(cfg) && i < j < |Run(cfg, actions).log|
    requires Run(cfg, actions).log[i].SendEvent? && Run(cfg, actions).log[j].SendEvent?
    ensures Run(cfg, actions).log[i].claim != Run(cfg, actions).log[j].claim
    ensures Run(cfg, actions).log[i].id != Run(cfg, actions).log[j].id
  {
    var any: Shape := _ => true;
    RunKeepsInvariant(cfg, any, actions);
    NoTwoSendsForOne(cfg, any, Run(cfg, actions), i, j);
  }

  /** A request that was rejected, or expired in bulk, is sent neither before nor after. */
  lemma RefusedNeverSent(cfg: Config, actions: seq<Action>, i: nat, j: nat)
    requires ValidConfig(cfg) && i < |Run(cfg, actions).log| && j < |Run(cfg, actions).log|
    requires var log := Run(cfg, actions).log;
             (log[i].RejectEvent? || log[i].ExpireEvent?) && log[j].SendEvent?
    ensures !Decides(Run(cfg, actions).log[i], Run(cfg, actions).log[j].id)
  {
    var any: Shape := _ => true;
    RunKeepsInvariant(cfg, any, actions);
    NoSendForRefused(cfg, any, Run(cfg, actions), i, j);
  }

  // ------------------------------------------------------------------ late claims --

  /** A claim that took effect when its request had already expired. */
  predicate LateClaim(st: State, i: nat) {
    && i < |st.log| && st.log[i].ClaimEvent? && st.log[i].id in st.proposed
    && st.proposed[st.log[i].id].expiresAt <= st.log[i].at
  }

  /** The guard of the update compares with a clock reading taken before: a claim takes
      effect late exactly when the reading was in time and the statement is not. */
  lemma {:induction false} ClaimIsLateExactlyWhen(cfg: Config, ok: Shape, st: State, sid: SessionId)
    requires sid in st.sessions && Invariant(cfg, ok, st)
    ensures LateClaim(ApplyClaim(st, sid), |st.log|) <==>
              && st.sessions[sid].phase.ClaimReady?
              && var ClaimReady(id, moment) := st.sessions[sid].phase;
                 && id in st.rows && st.rows[id].status.Pending?
                 && moment < st.rows[id].expiresAt <= st.clock
  {
    var me := st.sessions[sid];
    if me.phase.ClaimReady? && me.phase.id in st.rows {
      assert Depicts(cfg, ok, st.rows[me.phase.id], st.proposed[me.phase.id]);
    }
  }

  /** Nothing ever leaves under such a claim, nor for its request. */
  lemma {:induction false} LateClaimNeverSends(cfg: Config, actions: seq<Action>, claim: nat, i: nat)
    requires ValidConfig(cfg) && LateClaim(Run(cfg, actions), claim)
    requires i < |Run(cfg, actions).log| && Run(cfg, actions).log[i].SendEvent?
    ensures Run(cfg, actions).log[i].claim != claim
    ensures Run(cfg, actions).log[i].id != Run(cfg, actions).log[claim].id
  {
    var any: Shape := _ => true;
    RunKeepsInvariant(cfg, any, actions);
    var st := Run(cfg, actions);
    assert EventSound(cfg, any, st, i);
    SendIsBacked(cfg, any, st, i);
    assert st.log[i].id == st.log[claim].id ==> Decides(st.log[claim], st.log[i].id);
  }

  // ------------------------------------------------- what stale copies can do --

  /** The copy a confirmation checks was taken before the request was decided and has
      expired since, or was edited. */
  predicate ConfirmOverwrites(cfg: Config, st: State, me: Session, row: Row, id: Id, kept: bool) {
    && kept && me.phase.Fresh? && id in me.cache && Entitled(me.user, me.cache[id])
    && (if Intact(cfg.hash, me.cache[id])
        then me.cache[id].status.Pending? && IsExpired(me.cache[id], st.clock) && !row.status.Expired?
        else !me.cache[id].status.Failed? && !row.status.Failed?)
  }

  /** The copy a grant is checked against still says approved, and has expired since or
      was edited; `admitted` says whether the call gets as far as the grant. */
  predicate VerifyOverwrites(
    cfg: Config, st: State, me: Session, row: Row, id: Id, kept: bool, admitted: bool)
  {
    && kept && me.phase.Granted? && me.phase.id == id && id in me.cache && admitted
    && me.cache[id].tool == me.phase.grant.tool && me.cache[id].status.Approved?
    && (if IsExpired(me.cache[id], st.clock) then !row.status.Expired?
        else !Intact(cfg.hash, me.cache[id]) && !row.status.Failed?)
  }

  /** The answer is marked over what has become of the row since the copy was taken. */
  predicate MarkOverwrites(me: Session, row: Row, id: Id, success: bool) {
    var status := if success then Executed else Failed;
    && me.phase.Sent? && me.phase.id == id && id in me.cache
    && me.cache[id].status != status && row.status != status
  }

  ghost predicate Overwrites(cfg: Config, st: State, sid: SessionId, step: SessionStep, id: Id)
    requires ValidConfig(cfg) && sid in st.sessions && id in st.rows
  {
    var me, row := st.sessions[sid], st.rows[id];
    match step
    case CheckConfirm(k, kept) => k == id && ConfirmOverwrites(cfg, st, me, row, id, kept)
    case Verify(kept) =>
      VerifyOverwrites(cfg, st, me, row, id, kept,
                       me.phase.Granted? && Admitted(cfg, CallOf(me.phase.grant), me.user.role))
    case Mark(success) => MarkOverwrites(me, row, id, success)
    case _ => false
  }

  lemma CheckConfirmOverwrites(cfg: Config, st: State, sid: SessionId, k: Id, id: Id, kept: bool)
    requires sid in st.sessions && id in st.rows && Terminal(st.rows[id].status)
    ensures var st' := ApplyCheckConfirm(cfg, st, sid, k, kept);
            && id in st'.rows
            && (st'.rows[id].status != st.rows[id].status <==>
                  k == id && ConfirmOverwrites(cfg, st, st.sessions[sid], st.rows[id], id, kept))
  {
  }

  lemma VerifyCopyOverwrites(cfg: Config, st: State, sid: SessionId, id: Id, kept: bool)
    requires sid in st.sessions && id in st.rows && Terminal(st.rows[id].status)
    requires st.sessions[sid].phase.Granted? && st.sessions[sid].phase.id in st.sessions[sid].cache
    requires st.sessions[sid].phase.grant.id == st.sessions[sid].phase.id
    ensures var me := st.sessions[sid];
            var st' := VerifyCopy(cfg, st, sid, me.cache[me.phase.id], me.phase.claim, me.phase.grant, kept);
            && id in st'.rows
            && (st'.rows[id].status != st.rows[id].status <==>
                  VerifyOverwrites(cfg, st, me, st.rows[id], id, kept, true))
  {
  }

  /** A verification that is not admitted writes no row. */
  lemma VerifyChecksCopyExactlyWhenAdmitted(cfg: Config, st: State, sid: SessionId, kept: bool)
    requires ValidConfig(cfg) && sid in st.sessions
    ensures var me := st.sessions[sid];
            if me.phase.Granted? && me.phase.id in me.cache && Admitted(cfg, CallOf(me.phase.grant), me.user.role)
            then ApplyVerify(cfg, st, sid, kept)
                 == VerifyCopy(cfg, st, sid, me.cache[me.phase.id], me.phase.claim, me.phase.grant, kept)
            else ApplyVerify(cfg, st, sid, kept).rows == st.rows
  {
  }

  lemma MarkOverwritesWhen(st: State, sid: SessionId, id: Id, success: bool)
    requires sid in st.sessions && id in st.rows && Terminal(st.rows[id].status)
    ensures var st' := ApplyMark(st, sid, success);
            && id in st'.rows
            && (st'.rows[id].status != st.rows[id].status <==>
                  MarkOverwrites(st.sessions[sid], st.rows[id], id, success))
  {
  }

  /** Terminal statuses do not absorb here: a step of a session overwrites one exactly when
      the session's copy is out of date, or was edited, in one of three ways. */
  lemma SessionOverwritesTerminalExactlyWhen(
    cfg: Config, ok: Shape, st: State, sid: SessionId, step: SessionStep, id: Id)
    requires ValidConfig(cfg) && sid in st.sessions && SessionSound(cfg, ok, st, sid)
    requires id in st.rows && Terminal(st.rows[id].status)
    ensures var st' := ApplyInSession(cfg, st, sid, step);
            && id in st'.rows
            && (st'.rows[id].status != st.rows[id].status <==> Overwrites(cfg, st, sid, step, id))
  {
    match step
    case CheckConfirm(k, kept) => CheckConfirmOverwrites(cfg, st, sid, k, id, kept);
    case Verify(kept) =>
      VerifyChecksCopyExactlyWhenAdmitted(cfg, st, sid, kept);
      var me := st.sessions[sid];
      if me.phase.Granted? && me.phase.id in me.cache { VerifyCopyOverwrites(cfg, st, sid, id, kept); }
    case Mark(success) => MarkOverwritesWhen(st, sid, id, success);
    case Load(_) =>
    case Claim =>
    case Refresh =>
    case Send =>
    case CheckReject(_) =>
    case RejectUpdate =>
    case Abandon =>
  }
}
