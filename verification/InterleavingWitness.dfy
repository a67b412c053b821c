/** Schedules from the empty table in which stale copies and stale clocks show. */
module InterleavingWitness {
  import opened Approvals
  import opened ToolGateway
  import opened ApprovalInterleaving
  import opened GatewayWitnesses

  /** A request is raised, and a session of its owner reads it. */
  const READ: seq<Action> :=
    [] + [Raise(0, Call(MERGE, []), OPERATOR.role, 1)] + [Open(1, OPERATOR)] + [InSession(1, Load(0))]

  /** Another session of its owner reads it too, and rejects it. */
  const REJECTED: seq<Action> :=
    READ + [Open(2, OPERATOR)] + [InSession(2, Load(0))] + [InSession(2, CheckReject(0))] + [InSession(2, RejectUpdate)]

  /** The request expires; the first session confirms it on the copy it has kept. */
  const OVERWRITTEN: seq<Action> := REJECTED + [Tick(31)] + [InSession(1, CheckConfirm(0, true))]

  function Asked(): Row { NewRow(Deployment().hash, 1, MERGE, [], 30) }

  const PROPOSED: map<Id, Proposal> := map[0 := Proposal(Call(MERGE, []), 1, 30)]

  /** The request is there, with these sessions. */
  function With(sessions: map<SessionId, Session>): State { State(0, map[0 := Asked()], PROPOSED, sessions, []) }

  function Unread(): Session { Session(OPERATOR, map[], Fresh) }

  function Reader(): Session { Session(OPERATOR, map[0 := Asked()], Fresh) }

  lemma Next(actions: seq<Action>, a: Action, st: State)
    requires ValidConfig(Deployment()) && ApprovalInterleaving.Run(Deployment(), actions) == st
    ensures ApprovalInterleaving.Run(Deployment(), actions + [a]) == Apply(Deployment(), st, a)
  {
    assert (actions + [a])[..|actions|] == actions;
  }

  lemma RaiseReaches()
    ensures ValidConfig(Deployment())
    ensures Apply(Deployment(), ApprovalInterleaving.START, Raise(0, Call(MERGE, []), OPERATOR.role, 1)) == With(map[])
  {
    MergeIsAdmitted([]);
    var st := Apply(Deployment(), ApprovalInterleaving.START, Raise(0, Call(MERGE, []), OPERATOR.role, 1));
    assert st == WithRequest(Deployment(), ApprovalInterleaving.START, 0, Call(MERGE, []), 1, 30);
  }

  lemma OpenReaches(sessions: map<SessionId, Session>, sid: SessionId)
    requires sid !in sessions
    ensures ValidConfig(Deployment())
    ensures Apply(Deployment(), With(sessions), Open(sid, OPERATOR)) == With(sessions[sid := Unread()])
  {
    DeploymentIsValid();
  }

  lemma LoadReaches(sessions: map<SessionId, Session>, sid: SessionId)
    requires sid in sessions && sessions[sid] == Unread()
    ensures ValidConfig(Deployment())
    ensures Apply(Deployment(), With(sessions), InSession(sid, Load(0))) == With(sessions[sid := Reader()])
  {
    DeploymentIsValid();
  }

  lemma OneRead()
    ensures ValidConfig(Deployment())
    ensures ApprovalInterleaving.Run(Deployment(), READ) == With(map[1 := Reader()])
  {
    var raise := Raise(0, Call(MERGE, []), OPERATOR.role, 1);
    RaiseReaches();
    Next([], raise, ApprovalInterleaving.START);
    OpenReaches(map[], 1);
    Next([] + [raise], Open(1, OPERATOR), With(map[]));
    LoadReaches(map[1 := Unread()], 1);
    Next([] + [raise] + [Open(1, OPERATOR)], InSession(1, Load(0)), With(map[1 := Unread()]));
    assert map[1 := Unread()][1 := Reader()] == map[1 := Reader()];
  }

  lemma BothRead()
    ensures ValidConfig(Deployment())
    ensures ApprovalInterleaving.Run(Deployment(), READ + [Open(2, OPERATOR)] + [InSession(2, Load(0))])
            == With(map[1 := Reader(), 2 := Reader()])
  {
    OneRead();
    OpenReaches(map[1 := Reader()], 2);
    Next(READ, Open(2, OPERATOR), With(map[1 := Reader()]));
    var both := map[1 := Reader()][2 := Unread()];
    LoadReaches(both, 2);
    Next(READ + [Open(2, OPERATOR)], InSession(2, Load(0)), With(both));
    assert both[2 := Reader()] == map[1 := Reader(), 2 := Reader()];
  }

  /** The second session has rejected the request, the first still holds its copy. */
  predicate RejectedBySecond(st: State) {
    && st.clock == 0 && 0 in st.rows && st.rows[0].status.Rejected? && st.log == [RejectEvent(2, 0)]
    && 1 in st.sessions && st.sessions[1] == Reader()
  }

  lemma SecondRejects(st: State)
    requires st == With(map[1 := Reader(), 2 := Reader()])
    ensures ValidConfig(Deployment())
    ensures Apply(Deployment(), st, InSession(2, CheckReject(0))) == At(st, 2, RejectReady(0))
    ensures RejectedBySecond(Apply(Deployment(), At(st, 2, RejectReady(0)), InSession(2, RejectUpdate)))
  {
    DeploymentIsValid();
  }

  lemma RejectionReached()
    ensures ValidConfig(Deployment()) && RejectedBySecond(ApprovalInterleaving.Run(Deployment(), REJECTED))
  {
    BothRead();
    var st := With(map[1 := Reader(), 2 := Reader()]);
    SecondRejects(st);
    var both := READ + [Open(2, OPERATOR)] + [InSession(2, Load(0))];
    Next(both, InSession(2, CheckReject(0)), st);
    Next(both + [InSession(2, CheckReject(0))], InSession(2, RejectUpdate), At(st, 2, RejectReady(0)));
  }

  lemma LateConfirmOverwrites(st: State)
    requires ValidConfig(Deployment()) && RejectedBySecond(st)
    ensures var late := Apply(Deployment(), st.(clock := 31), InSession(1, CheckConfirm(0, true)));
            0 in late.rows && late.rows[0].status.Expired?
  {
    CheckConfirmOverwrites(Deployment(), st.(clock := 31), 1, 0, 0, true);
  }

  lemma ScheduleIsValid()
    ensures forall i :: 0 <= i < |OVERWRITTEN| ==> ValidAction(DICTIONARIES, OVERWRITTEN[i])
  {
  }

  /** The whole schedule is made of valid actions; the request is rejected, and then expired. */
  lemma RejectedRequestCanExpire()
    ensures ValidConfig(Deployment())
    ensures forall i :: 0 <= i < |OVERWRITTEN| ==> ValidAction(DICTIONARIES, OVERWRITTEN[i])
    ensures RejectedBySecond(ApprovalInterleaving.Run(Deployment(), REJECTED))
    ensures var st := ApprovalInterleaving.Run(Deployment(), OVERWRITTEN);
            0 in st.rows && st.rows[0].status.Expired?
  {
    ScheduleIsValid();
    RejectionReached();
    var st := ApprovalInterleaving.Run(Deployment(), REJECTED);
    Next(REJECTED, Tick(31), st);
    Next(REJECTED + [Tick(31)], InSession(1, CheckConfirm(0, true)), Apply(Deployment(), st, Tick(31)));
    LateConfirmOverwrites(st);
  }

  // ------------------------------------------------------------------ a late claim --

  /** The owner's session checks the request in time; its claim runs when it has expired. */
  const LATE: seq<Action> := READ + [InSession(1, CheckConfirm(0, true))] + [Tick(30)] + [InSession(1, Claim)]

  function Due(clock: Time): State {
    With(map[1 := Session(OPERATOR, map[0 := Asked()], ClaimReady(0, 0))]).(clock := clock)
  }

  lemma CheckedInTime()
    ensures ValidConfig(Deployment())
    ensures Apply(Deployment(), With(map[1 := Reader()]), InSession(1, CheckConfirm(0, true))) == Due(0)
    ensures Apply(Deployment(), Due(0), Tick(30)) == Due(30)
  {
    DeploymentIsValid();
    var st := With(map[1 := Reader()]);
    assert Apply(Deployment(), st, InSession(1, CheckConfirm(0, true))) == At(st, 1, ClaimReady(0, 0));
  }

  lemma LateClaimTakesEffect()
    ensures LateClaim(ApplyClaim(Due(30), 1), 0) && ApplyClaim(Due(30), 1).rows[0].status.Approved?
  {
  }

  lemma LateScheduleIsValid()
    ensures forall i :: 0 <= i < |LATE| ==> ValidAction(DICTIONARIES, LATE[i])
  {
  }

  /** The whole schedule is made of valid actions; its claim approves an expired request. */
  lemma ClaimCanBeLate()
    ensures ValidConfig(Deployment())
    ensures forall i :: 0 <= i < |LATE| ==> ValidAction(DICTIONARIES, LATE[i])
    ensures var st := ApprovalInterleaving.Run(Deployment(), LATE);
            LateClaim(st, 0) && 0 in st.rows && st.rows[0].status.Approved?
  {
    LateScheduleIsValid();
    OneRead();
    CheckedInTime();
    var checked := READ + [InSession(1, CheckConfirm(0, true))];
    Next(READ, InSession(1, CheckConfirm(0, true)), With(map[1 := Reader()]));
    Next(checked, Tick(30), Due(0));
    Next(checked + [Tick(30)], InSession(1, Claim), Due(30));
    LateClaimTakesEffect();
  }
}
