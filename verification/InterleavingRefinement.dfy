/** The interleaved protocol against the sequential one: a session whose statements run
    without another between them does to the table, and sends, what the whole operation
    does (`app/services/approval_service.py`, `app/services/tool_execution_service.py`). */
module InterleavingRefinement {
  import opened Json
  import opened Approvals
  import opened SchemaValidation
  import opened ToolGateway
  import opened ApprovalInterleaving
  import Policy

  /** A session that has done nothing yet. */
  predicate Starts(st: State, sid: SessionId) {
    sid in st.sessions && st.sessions[sid].phase.Fresh? && st.sessions[sid].cache == map[]
  }

  /** Session `sid` has come to `me`, written `rows` and logged `events`, and nothing else. */
  predicate Became(st: State, st': State, sid: SessionId, me: Session, rows: Table, events: seq<Event>) {
    && sid in st.sessions && st'.sessions.Keys == st.sessions.Keys && st'.sessions[sid] == me
    && (forall k :: k in st.sessions && k != sid ==> st'.sessions[k] == st.sessions[k])
    && st'.rows == rows && st'.log == st.log + events
    && st'.clock == st.clock && st'.proposed == st.proposed
  }

  lemma LoadCaches(st: State, sid: SessionId, id: Id)
    requires Starts(st, sid) && id in st.rows
    ensures Became(st, ApplyLoad(st, sid, id), sid, Session(st.sessions[sid].user, map[id := st.rows[id]], Fresh),
                   st.rows, [])
  {
  }

  // ---------------------------------------------------------------- confirmation --

  /** `POST /approvals/{id}/confirm` up to the grant: load, check, claim, refresh. */
  function ConfirmStatements(cfg: Config, st: State, sid: SessionId, id: Id): State
    requires sid in st.sessions
  {
    ApplyRefresh(ApplyClaim(ApplyCheckConfirm(cfg, ApplyLoad(st, sid, id), sid, id, true), sid), sid)
  }

  /** With the copy just loaded, the checks answer what confirmation answers. */
  lemma CheckAnswers(cfg: Config, st: State, sid: SessionId, id: Id, st': State)
    requires sid in st.sessions && id in st.rows && st.sessions[sid].cache == map[id := st.rows[id]]
    requires st.sessions[sid].phase.Fresh? && st' == ApplyCheckConfirm(cfg, st, sid, id, true)
    ensures var me := st.sessions[sid];
            var (t, r) := Confirm(cfg.hash, st.rows, id, me.user, st.clock, st.clock);
            if r.Ok? then Became(st, st', sid, me.(phase := ClaimReady(id, st.clock)), st.rows, [])
            else Became(st, st', sid, me.(phase := Ended), t, [])
  {
  }

  lemma ClaimTakes(st: State, sid: SessionId, id: Id, moment: Time, st': State)
    requires sid in st.sessions && st.sessions[sid].phase == ClaimReady(id, moment)
    requires Claimable(st.rows, id, moment) && st' == ApplyClaim(st, sid)
    ensures var me := st.sessions[sid];
            Became(st, st', sid, me.(phase := Claimed(id, |st.log|)), ClaimPending(st.rows, id, me.user.id, moment),
                   [ClaimEvent(sid, id, me.user, moment, st.clock)])
  {
  }

  lemma RefreshMints(st: State, sid: SessionId, id: Id, claim: nat, st': State)
    requires sid in st.sessions && st.sessions[sid].phase == Claimed(id, claim) && id in st.rows
    requires st.sessions[sid].cache.Keys == {id} && st' == ApplyRefresh(st, sid)
    ensures var me := st.sessions[sid];
            Became(st, st', sid,
                   Session(me.user, map[id := st.rows[id]], Granted(id, claim, GrantFor(id, st.rows[id], me.user.id))),
                   st.rows, [])
  {
  }

  /** Confirmation, statement by statement, is confirmation: the same table and the same
      grant, one claim in the log exactly for a grant, and otherwise the end of the session. */
  lemma ConfirmStatementsConfirm(cfg: Config, st: State, sid: SessionId, id: Id)
    requires Starts(st, sid)
    ensures var u := st.sessions[sid].user;
            var (t, r) := Confirm(cfg.hash, st.rows, id, u, st.clock, st.clock);
            var st' := ConfirmStatements(cfg, st, sid, id);
            if id !in st.rows then st' == st && r == Err(NotFound)
            else
              match r
              case Err(_) => Became(st, st', sid, Session(u, map[id := st.rows[id]], Ended), t, [])
              case Ok(g) =>
                id in t && Became(st, st', sid, Session(u, map[id := t[id]], Granted(id, |st.log|, g)), t,
                                  [ClaimEvent(sid, id, u, st.clock, st.clock)])
  {
    if id in st.rows {
      LoadCaches(st, sid, id);
      var loaded := ApplyLoad(st, sid, id);
      var checked := ApplyCheckConfirm(cfg, loaded, sid, id, true);
      CheckAnswers(cfg, loaded, sid, id, checked);
      if checked.sessions[sid].phase.ClaimReady? {
        var claimed := ApplyClaim(checked, sid);
        ClaimTakes(checked, sid, id, st.clock, claimed);
        RefreshMints(claimed, sid, id, |st.log|, ApplyRefresh(claimed, sid));
      }
    }
  }

  // ------------------------------------------------------------------- rejection --

  function RejectStatements(st: State, sid: SessionId, id: Id): State
    requires sid in st.sessions
  {
    ApplyReject(ApplyCheckReject(ApplyLoad(st, sid, id), sid, id), sid)
  }

  /** Rejection, statement by statement, is rejection. */
  lemma RejectStatementsReject(st: State, sid: SessionId, id: Id)
    requires Starts(st, sid)
    ensures var u := st.sessions[sid].user;
            var (t, r) := Reject(st.rows, id, u, st.clock);
            var st' := RejectStatements(st, sid, id);
            if id !in st.rows then st' == st && r == Err(NotFound)
            else Became(st, st', sid, Session(u, map[id := st.rows[id]], Ended), t,
                        if r.Ok? then [RejectEvent(sid, id)] else [])
  {
    if id in st.rows { LoadCaches(st, sid, id); }
  }

  // ------------------------------------------------------------------- execution --

  lemma VerifyCopyKeepsCopies(
    cfg: Config, st: State, sid: SessionId, copy: Row, claim: nat, g: Grant, kept: bool)
    requires sid in st.sessions
    ensures var st' := VerifyCopy(cfg, st, sid, copy, claim, g, kept);
            sid in st'.sessions && st'.sessions[sid].cache == st.sessions[sid].cache
  {
  }

  lemma VerifyKeepsCopies(cfg: Config, st: State, sid: SessionId, kept: bool, st': State)
    requires ValidConfig(cfg) && sid in st.sessions && st' == ApplyVerify(cfg, st, sid, kept)
    ensures sid in st'.sessions && st'.sessions[sid].cache == st.sessions[sid].cache
  {
    var me := st.sessions[sid];
    if me.phase.Granted? && me.phase.id in me.cache {
      VerifyCopyKeepsCopies(cfg, st, sid, me.cache[me.phase.id], me.phase.claim, me.phase.grant, kept);
    }
  }

  /** `execute_approved`: verify, send, and the mark of the answer unless interrupted. */
  ghost function ExecuteStatements(cfg: Config, st: State, sid: SessionId, fate: Fate): State
    requires ValidConfig(cfg) && sid in st.sessions
  {
    var verified := ApplyVerify(cfg, st, sid, true);
    VerifyKeepsCopies(cfg, st, sid, true, verified);
    var sent := ApplySend(verified, sid);
    match fate
    case Answered(success) => ApplyMark(sent, sid, success)
    case Interrupted => sent
  }

  /** A session with the grant for `id` in hand and the row as it stands in its cache. */
  predicate HoldsGrant(st: State, sid: SessionId, id: Id, claim: nat, g: Grant) {
    && sid in st.sessions && id in st.rows && st.sessions[sid].cache == map[id := st.rows[id]]
    && st.sessions[sid].phase == Granted(id, claim, g) && g.id == id
  }

  /** The grant check on the copy answers what the grant check on the row does. */
  lemma VerifyCopyAnswers(cfg: Config, st: State, sid: SessionId, id: Id, claim: nat, g: Grant, st': State)
    requires HoldsGrant(st, sid, id, claim, g) && st' == VerifyCopy(cfg, st, sid, st.rows[id], claim, g, true)
    ensures var (t, r) := VerifyGrant(cfg.hash, st.rows, g, g.tool, st.clock);
            Became(st, st', sid, st.sessions[sid].(phase := if r.Ok? then Verified(id, claim, g) else Ended), t, [])
  {
  }

  lemma SendAndMark(st: State, sid: SessionId, id: Id, claim: nat, g: Grant, fate: Fate, sent: State, st': State)
    requires sid in st.sessions && st.sessions[sid].phase == Verified(id, claim, g)
    requires id in st.rows && st.sessions[sid].cache == map[id := st.rows[id]]
    requires sent == ApplySend(st, sid)
    requires st' == match fate case Answered(success) => ApplyMark(sent, sid, success) case Interrupted => sent
    ensures Became(st, st', sid, st.sessions[sid].(phase := if fate.Answered? then Ended else Sent(id, claim)),
                   Marked(st.rows, id, fate), [SendEvent(sid, id, CallOf(g), claim)])
  {
  }

  /** Nothing more happens in a session that has ended. */
  lemma EndedStaysEnded(st: State, sid: SessionId, fate: Fate)
    requires sid in st.sessions && st.sessions[sid].phase.Ended?
    ensures ApplySend(st, sid) == st
    ensures fate.Answered? ==> ApplyMark(st, sid, fate.success) == st
  {
  }

  /** Only a call that waits for approval gets to the grant check; another leaves freely
      or not at all, as it does in the one operation. */
  lemma VerifyAdmits(
    cfg: Config, st: State, sid: SessionId, id: Id, claim: nat, g: Grant, w: World, fate: Fate, w': World, st': State)
    requires ValidConfig(cfg) && HoldsGrant(st, sid, id, claim, g)
    requires Execute(cfg, w, CallOf(g), st.sessions[sid].user.role, Some(g), None, st.clock, fate).0 == w'
    requires st' == ApplyVerify(cfg, st, sid, true)
    ensures if Admitted(cfg, CallOf(g), st.sessions[sid].user.role)
            then st' == VerifyCopy(cfg, st, sid, st.rows[id], claim, g, true)
            else Became(st, st', sid, st.sessions[sid].(phase := Ended), st.rows,
                        if w'.dispatched == w.dispatched then [] else [FreeSendEvent(CallOf(g))])
  {
  }

  lemma AdmittedExecutes(
    cfg: Config, st: State, sid: SessionId, id: Id, claim: nat, g: Grant, fate: Fate, verified: State, st': State)
    requires HoldsGrant(st, sid, id, claim, g) && verified == VerifyCopy(cfg, st, sid, st.rows[id], claim, g, true)
    requires sid in verified.sessions
    requires var sent := ApplySend(verified, sid);
             st' == match fate case Answered(success) => ApplyMark(sent, sid, success) case Interrupted => sent
    ensures var (t, r) := VerifyGrant(cfg.hash, st.rows, g, g.tool, st.clock);
            if r.Ok? then
              Became(st, st', sid, st.sessions[sid].(phase := if fate.Answered? then Ended else Sent(id, claim)),
                     Marked(st.rows, id, fate), [SendEvent(sid, id, CallOf(g), claim)])
            else Became(st, st', sid, st.sessions[sid].(phase := Ended), t, [])
  {
    VerifyCopyAnswers(cfg, st, sid, id, claim, g, verified);
    if verified.sessions[sid].phase.Verified? {
      SendAndMark(verified, sid, id, claim, g, fate, ApplySend(verified, sid), st');
    } else {
      EndedStaysEnded(verified, sid, fate);
    }
  }

  /** The session has written what the operation writes, and what left there left here: under
      the session's claim if there under the approval. */
  predicate SameEffect(
    st: State, st': State, sid: SessionId, id: Id, claim: nat, g: Grant, fate: Fate, w: World, w': World)
    requires sid in st.sessions
  {
    var me := st.sessions[sid];
    if w'.dispatched == w.dispatched + [Dispatch(Some(id), CallOf(g), fate.Answered?)] then
      Became(st, st', sid, me.(phase := if fate.Answered? then Ended else Sent(id, claim)), w'.rows,
             [SendEvent(sid, id, CallOf(g), claim)])
    else if w'.dispatched == w.dispatched + [Dispatch(None, CallOf(g), fate.Answered?)] then
      Became(st, st', sid, me.(phase := Ended), w'.rows, [FreeSendEvent(CallOf(g))])
    else
      w'.dispatched == w.dispatched && Became(st, st', sid, me.(phase := Ended), w'.rows, [])
  }

  lemma AdmittedHasSameEffect(
    cfg: Config, st: State, sid: SessionId, id: Id, claim: nat, g: Grant, fate: Fate, w: World, w': World,
    verified: State, st': State)
    requires HoldsGrant(st, sid, id, claim, g) && w.rows == st.rows
    requires w' == ExecuteGranted(cfg, w, CallOf(g), g, st.clock, fate).0
    requires verified == VerifyCopy(cfg, st, sid, st.rows[id], claim, g, true)
    requires sid in verified.sessions
    requires var sent := ApplySend(verified, sid);
             st' == match fate case Answered(success) => ApplyMark(sent, sid, success) case Interrupted => sent
    ensures SameEffect(st, st', sid, id, claim, g, fate, w, w')
  {
    var marked := fate.Answered?;
    OneMoreIsMore(w.dispatched, Dispatch(Some(id), CallOf(g), marked), Dispatch(None, CallOf(g), marked));
    OneMoreIsMore(w.dispatched, Dispatch(None, CallOf(g), marked), Dispatch(Some(id), CallOf(g), marked));
    AdmittedExecutes(cfg, st, sid, id, claim, g, fate, verified, st');
    GrantedSends(cfg, w, id, g, st.clock, fate);
  }

  lemma FreeOrNothing(cfg: Config, w: World, g: Grant, role: Policy.Role, now: Time, fate: Fate)
    requires ValidConfig(cfg) && !Admitted(cfg, CallOf(g), role)
    ensures var w' := Execute(cfg, w, CallOf(g), role, Some(g), None, now, fate).0;
            w' == w || w' == w.(dispatched := w.dispatched + [Dispatch(None, CallOf(g), fate.Answered?)])
  {
  }

  lemma UnadmittedHasSameEffect(
    st: State, sid: SessionId, id: Id, claim: nat, g: Grant, fate: Fate, w: World, w': World, st': State)
    requires sid in st.sessions && w.rows == st.rows
    requires w' == w || w' == w.(dispatched := w.dispatched + [Dispatch(None, CallOf(g), fate.Answered?)])
    requires Became(st, st', sid, st.sessions[sid].(phase := Ended), st.rows,
                    if w'.dispatched == w.dispatched then [] else [FreeSendEvent(CallOf(g))])
    ensures SameEffect(st, st', sid, id, claim, g, fate, w, w')
  {
    var marked := fate.Answered?;
    OneMoreIsMore(w.dispatched, Dispatch(Some(id), CallOf(g), marked), Dispatch(None, CallOf(g), marked));
    OneMoreIsMore(w.dispatched, Dispatch(None, CallOf(g), marked), Dispatch(Some(id), CallOf(g), marked));
  }

  /** What the grant check of a session comes to: that of the operation, or an end. */
  ghost predicate ChecksAlike(
    cfg: Config, st: State, sid: SessionId, id: Id, claim: nat, g: Grant, fate: Fate, w: World, w': World,
    verified: State)
    requires HoldsGrant(st, sid, id, claim, g)
  {
    || (w' == ExecuteGranted(cfg, w, CallOf(g), g, st.clock, fate).0
        && verified == VerifyCopy(cfg, st, sid, st.rows[id], claim, g, true))
    || ((w' == w || w' == w.(dispatched := w.dispatched + [Dispatch(None, CallOf(g), fate.Answered?)]))
        && Became(st, verified, sid, st.sessions[sid].(phase := Ended), st.rows,
                  if w'.dispatched == w.dispatched then [] else [FreeSendEvent(CallOf(g))]))
  }

  lemma AdmittedChecksAlike(
    cfg: Config, st: State, sid: SessionId, id: Id, claim: nat, g: Grant, w: World, fate: Fate, w': World,
    role: Policy.Role, verified: State)
    requires ValidConfig(cfg) && HoldsGrant(st, sid, id, claim, g) && Admitted(cfg, CallOf(g), role)
    requires Execute(cfg, w, CallOf(g), role, Some(g), None, st.clock, fate).0 == w'
    requires verified == VerifyCopy(cfg, st, sid, st.rows[id], claim, g, true)
    ensures ChecksAlike(cfg, st, sid, id, claim, g, fate, w, w', verified)
  {
    PresentDoesOneOfThree(cfg, w, CallOf(g), role, g, st.clock, fate);
  }

  lemma UnadmittedChecksAlike(
    cfg: Config, st: State, sid: SessionId, id: Id, claim: nat, g: Grant, w: World, fate: Fate, w': World,
    role: Policy.Role, verified: State)
    requires ValidConfig(cfg) && HoldsGrant(st, sid, id, claim, g) && !Admitted(cfg, CallOf(g), role)
    requires Execute(cfg, w, CallOf(g), role, Some(g), None, st.clock, fate).0 == w'
    requires Became(st, verified, sid, st.sessions[sid].(phase := Ended), st.rows,
                    if w'.dispatched == w.dispatched then [] else [FreeSendEvent(CallOf(g))])
    ensures ChecksAlike(cfg, st, sid, id, claim, g, fate, w, w', verified)
  {
    FreeOrNothing(cfg, w, g, role, st.clock, fate);
  }

  lemma VerifyChecksAlike(
    cfg: Config, st: State, sid: SessionId, id: Id, claim: nat, g: Grant, w: World, fate: Fate, w': World,
    role: Policy.Role, verified: State)
    requires ValidConfig(cfg) && HoldsGrant(st, sid, id, claim, g) && role == st.sessions[sid].user.role
    requires Execute(cfg, w, CallOf(g), role, Some(g), None, st.clock, fate).0 == w'
    requires verified == ApplyVerify(cfg, st, sid, true)
    ensures ChecksAlike(cfg, st, sid, id, claim, g, fate, w, w', verified)
  {
    VerifyAdmits(cfg, st, sid, id, claim, g, w, fate, w', verified);
    if Admitted(cfg, CallOf(g), role) {
      AdmittedChecksAlike(cfg, st, sid, id, claim, g, w, fate, w', role, verified);
    } else {
      UnadmittedChecksAlike(cfg, st, sid, id, claim, g, w, fate, w', role, verified);
    }
  }

  lemma CheckedHasSameEffect(
    cfg: Config, st: State, sid: SessionId, id: Id, claim: nat, g: Grant, fate: Fate, w: World, w': World,
    verified: State, st': State)
    requires HoldsGrant(st, sid, id, claim, g) && w.rows == st.rows
    requires ChecksAlike(cfg, st, sid, id, claim, g, fate, w, w', verified) && sid in verified.sessions
    requires var sent := ApplySend(verified, sid);
             st' == match fate case Answered(success) => ApplyMark(sent, sid, success) case Interrupted => sent
    ensures SameEffect(st, st', sid, id, claim, g, fate, w, w')
  {
    if w' == ExecuteGranted(cfg, w, CallOf(g), g, st.clock, fate).0
       && verified == VerifyCopy(cfg, st, sid, st.rows[id], claim, g, true) {
      AdmittedHasSameEffect(cfg, st, sid, id, claim, g, fate, w, w', verified, st');
    } else {
      EndedStaysEnded(verified, sid, fate);
      UnadmittedHasSameEffect(st, sid, id, claim, g, fate, w, w', st');
    }
  }

  /** Execution, statement by statement, is execution. */
  lemma ExecuteStatementsExecute(
    cfg: Config, st: State, sid: SessionId, id: Id, claim: nat, g: Grant, w: World, fate: Fate,
    w': World, st': State)
    requires ValidConfig(cfg) && HoldsGrant(st, sid, id, claim, g) && w.rows == st.rows
    requires Execute(cfg, w, CallOf(g), st.sessions[sid].user.role, Some(g), None, st.clock, fate).0 == w'
    requires st' == ExecuteStatements(cfg, st, sid, fate)
    ensures SameEffect(st, st', sid, id, claim, g, fate, w, w')
  {
    var verified := ApplyVerify(cfg, st, sid, true);
    VerifyKeepsCopies(cfg, st, sid, true, verified);
    VerifyChecksAlike(cfg, st, sid, id, claim, g, w, fate, w', st.sessions[sid].user.role, verified);
    CheckedHasSameEffect(cfg, st, sid, id, claim, g, fate, w, w', verified, st');
  }

  lemma OneMoreIsMore(log: seq<Dispatch>, d: Dispatch, e: Dispatch)
    ensures log + [d] != log
    ensures d != e ==> log + [d] != log + [e]
  {
    assert (log + [d])[|log|] == d && (log + [e])[|log|] == e;
  }

  lemma GrantedSends(cfg: Config, w: World, id: Id, g: Grant, now: Time, fate: Fate)
    requires g.id == id && id in w.rows
    ensures var (t, r) := VerifyGrant(cfg.hash, w.rows, g, g.tool, now);
            var (w', _) := ExecuteGranted(cfg, w, CallOf(g), g, now, fate);
            if r.Ok? then
              w'.rows == Marked(w.rows, id, fate)
              && w'.dispatched == w.dispatched + [Dispatch(Some(id), CallOf(g), fate.Answered?)]
            else w'.rows == t && w'.dispatched == w.dispatched
  {
  }

  // ------------------------------------------------------------------- proposals --

  /** The verdict on a call that gets as far as the policy. */
  ghost function Judged(cfg: Config, call: Call, role: Policy.Role): Option<Policy.Verdict>
    requires ValidConfig(cfg)
  {
    if call.tool in cfg.catalog && Fits(call.args, cfg.catalog[call.tool])
    then Policy.Evaluate(cfg.settings, role, call.tool, call.args) else None
  }

  lemma ProposeByVerdict(
    cfg: Config, w: World, call: Call, role: Policy.Role, owner: UserId, now: Time, fate: Fate)
    requires ValidConfig(cfg)
    ensures var v := Judged(cfg, call, role);
            Execute(cfg, w, call, role, None, Some(owner), now, fate).0 ==
              if v == Some(Policy.Allow) then Dispatched(w, None, call, fate)
              else if v == Some(Policy.RequireApproval) then RequestApproval(cfg, w, call, owner, now)
              else w
  {
  }

  lemma RaiseByVerdict(cfg: Config, st: State, id: Id, call: Call, role: Policy.Role, owner: UserId)
    requires ValidConfig(cfg) && id !in st.rows && id !in st.proposed
    ensures var v := Judged(cfg, call, role);
            Apply(cfg, st, Raise(id, call, role, owner)) ==
              if v == Some(Policy.Allow) then Logged(st, FreeSendEvent(call))
              else if v == Some(Policy.RequireApproval) then WithRequest(cfg, st, id, call, owner, st.clock + cfg.ttl)
              else st
  {
  }

  /** What a proposal has done: it has left, become a request of the same row, or neither. */
  predicate SameProposal(
    cfg: Config, st: State, st': State, id: Id, call: Call, owner: UserId, fate: Fate, w: World, w': World)
  {
    && st'.rows == w'.rows && st'.clock == st.clock && st'.sessions == st.sessions
    && if w'.next != w.next then
         && w'.proposed == w.proposed[id := call] && st'.log == st.log && w'.dispatched == w.dispatched
         && st'.proposed == st.proposed[id := Proposal(call, owner, st.clock + cfg.ttl)]
       else
         && st'.proposed == st.proposed
         && if w'.dispatched == w.dispatched then st'.log == st.log
            else w'.dispatched == w.dispatched + [Dispatch(None, call, fate.Answered?)]
                 && st'.log == st.log + [FreeSendEvent(call)]
  }

  lemma SameVerdictSameProposal(
    cfg: Config, st: State, st': State, id: Id, call: Call, owner: UserId, fate: Fate, w: World, w': World,
    v: Option<Policy.Verdict>)
    requires w.rows == st.rows && w.next == id
    requires w' == if v == Some(Policy.Allow) then Dispatched(w, None, call, fate)
                   else if v == Some(Policy.RequireApproval) then RequestApproval(cfg, w, call, owner, st.clock)
                   else w
    requires st' == if v == Some(Policy.Allow) then Logged(st, FreeSendEvent(call))
                    else if v == Some(Policy.RequireApproval) then
                      WithRequest(cfg, st, id, call, owner, st.clock + cfg.ttl)
                    else st
    ensures SameProposal(cfg, st, st', id, call, owner, fate, w, w')
  {
    var d := Dispatch(None, call, fate.Answered?);
    OneMoreIsMore(w.dispatched, d, d);
  }

  /** A proposal is one action and does what the one operation does. */
  lemma RaiseProposes(
    cfg: Config, st: State, id: Id, call: Call, role: Policy.Role, owner: UserId, w: World, fate: Fate,
    w': World, st': State)
    requires ValidConfig(cfg) && w.rows == st.rows && w.next == id && id !in st.rows && id !in st.proposed
    requires Execute(cfg, w, call, role, None, Some(owner), st.clock, fate).0 == w'
    requires st' == Apply(cfg, st, Raise(id, call, role, owner))
    ensures SameProposal(cfg, st, st', id, call, owner, fate, w, w')
  {
    ProposeByVerdict(cfg, w, call, role, owner, st.clock, fate);
    RaiseByVerdict(cfg, st, id, call, role, owner);
    SameVerdictSameProposal(cfg, st, st', id, call, owner, fate, w, w', Judged(cfg, call, role));
  }

  /** The bulk expiry is one action too, and its event names the rows it expires. */
  lemma ExpireBulkExpires(cfg: Config, st: State, moment: Time, ids: set<Id>)
    requires ValidConfig(cfg)
    requires forall id :: id in ids <==> id in st.rows && st.rows[id].status.Pending? && st.rows[id].expiresAt <= moment
    ensures Apply(cfg, st, ExpireBulk(moment)) ==
              st.(rows := ExpireStale(st.rows, moment), log := st.log + [ExpireEvent(ids)])
  {
    assert ApplyExpire(st, moment).log[|st.log|].ids == ids;
  }

  /** An edit from outside, and the passing of time, are the same in both. */
  lemma EditTampers(cfg: Config, st: State, id: Id, args: seq<Field>, elapsed: nat, w: World)
    requires ValidConfig(cfg) && w.rows == st.rows
    ensures Apply(cfg, st, Edit(id, args)) == st.(rows := ToolGateway.Step(cfg, w, Tamper(id, args)).rows)
    ensures Apply(cfg, st, Tick(elapsed)) == st.(clock := st.clock + elapsed)
  {
  }

  // ------------------------------------------------------ what only interleaving has --

  lemma ConfirmKeepsCopies(cfg: Config, st: State, sid: SessionId, id: Id, kept: bool)
    requires sid in st.sessions
    ensures var st' := ApplyCheckConfirm(cfg, st, sid, id, kept);
            sid in st'.sessions && st'.sessions[sid].cache == st.sessions[sid].cache
  {
  }

  lemma OthersKeepCopies(cfg: Config, st: State, sid: SessionId, step: SessionStep)
    requires ValidConfig(cfg) && sid in st.sessions
    requires !step.Refresh? && !step.Verify? && !step.CheckConfirm? && !step.Load?
    ensures var st' := ApplyInSession(cfg, st, sid, step);
            sid in st'.sessions && st'.sessions[sid].cache == st.sessions[sid].cache
  {
  }

  /** A copy once loaded stays as it was, however often the row is loaded again and
      whatever has become of it: only the refresh after the session's own claim replaces it. */
  lemma CopyStaysUntilRefreshed(cfg: Config, st: State, sid: SessionId, id: Id, step: SessionStep)
    requires ValidConfig(cfg) && sid in st.sessions && id in st.sessions[sid].cache && !step.Refresh?
    ensures var st' := ApplyInSession(cfg, st, sid, step);
            && sid in st'.sessions && id in st'.sessions[sid].cache
            && st'.sessions[sid].cache[id] == st.sessions[sid].cache[id]
  {
    match step
    case Verify(kept) => VerifyKeepsCopies(cfg, st, sid, kept, ApplyVerify(cfg, st, sid, kept));
    case CheckConfirm(k, kept) => ConfirmKeepsCopies(cfg, st, sid, k, kept);
    case Load(_) =>
    case _ => OthersKeepCopies(cfg, st, sid, step);
  }

  /** A decision that finds the request decided already, or a claim that finds its moment
      past, changes nothing and ends its session. */
  lemma TooLateChangesNothing(st: State, sid: SessionId, id: Id)
    requires sid in st.sessions && id in st.rows
    requires var phase := st.sessions[sid].phase;
             || (phase == RejectReady(id) && !st.rows[id].status.Pending?)
             || (phase.ClaimReady? && phase.id == id
                 && (!st.rows[id].status.Pending? || st.rows[id].expiresAt <= phase.moment))
    ensures var st' := if st.sessions[sid].phase.RejectReady? then ApplyReject(st, sid) else ApplyClaim(st, sid);
            Became(st, st', sid, st.sessions[sid].(phase := Ended), st.rows, [])
  {
  }

  /** A session can be abandoned at any point; after that it neither writes nor sends. */
  lemma AbandonedIsInert(cfg: Config, st: State, sid: SessionId, step: SessionStep)
    requires ValidConfig(cfg) && sid in st.sessions
    ensures var st' := ApplyInSession(cfg, st, sid, Abandon);
            && Became(st, st', sid, st.sessions[sid].(phase := Ended), st.rows, [])
            && var later := ApplyInSession(cfg, st', sid, step);
               later.rows == st.rows && later.log == st.log
               && sid in later.sessions && later.sessions[sid].phase == Ended
  {
  }
}
