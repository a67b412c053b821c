/** The agent's runs joined to the gateway they call: what a run does to the approvals
    table and to the log of dispatched calls. */
module AgentGateway {
  import opened Json
  import opened Approvals
  import opened GatewayOutcomes
  import opened ToolGateway
  import Policy
  import Loop = AgentLoop
  import Transcript

  /** Who runs the agent, and what the clock and the servers say at each call. */
  datatype Caller = Caller(cfg: Config, role: Policy.Role, user: UserId, now: nat -> Time, fates: nat -> Fate)

  function AsCall(c: Transcript.ToolCall): Call { Call(c.name, c.args) }

  /** What the `n`-th call of a run does to the world. */
  type Gateway = (World, Transcript.ToolCall, nat) -> (World, Outcome)

  /** The execution service, called without a grant. */
  ghost function Service(who: Caller): Gateway
    requires ValidConfig(who.cfg)
  {
    (w: World, c: Transcript.ToolCall, n: nat) =>
      Execute(who.cfg, w, AsCall(c), who.role, None, Some(who.user), who.now(n), who.fates(n))
  }

  /** One of three things: nothing, an ungated dispatch, or a new request. */
  predicate Ungranted(who: Caller, w: World, c: Transcript.ToolCall, n: nat, w': World, outcome: Outcome) {
    if outcome.AwaitsApproval? then w' == RequestApproval(who.cfg, w, AsCall(c), who.user, who.now(n))
    else w' == w || (w' == Dispatched(w, None, AsCall(c), who.fates(n)) && !Policy.Gated(who.cfg.settings, c.name))
  }

  ghost predicate NeverGranted(who: Caller, gate: Gateway) {
    forall w, c, n :: Ungranted(who, w, c, n, gate(w, c, n).0, gate(w, c, n).1)
  }

  lemma ServiceIsNeverGranted(who: Caller)
    requires ValidConfig(who.cfg)
    ensures NeverGranted(who, Service(who))
  {
  }

  /** The worlds a run meets: `worlds(n)` is what there is when its `n`-th call is made,
      whatever the calls before it and everybody else have done to it meanwhile. */
  type Worlds = nat -> World

  /** The environment of the run is this gateway: unless the run breaks off at a call, it
      answers "needs approval" exactly when the gateway raises a request. */
  predicate ThroughGateway(gate: Gateway, worlds: Worlds, trace: seq<Loop.Executed>) {
    forall i :: 0 <= i < |trace| && !trace[i].outcome.Crash? ==>
      (trace[i].outcome.NeedsApproval? <==> gate(worlds(i), trace[i].call, i).1.AwaitsApproval?)
  }

  predicate IdsBelowNext(w: World) { forall id :: id in w.rows ==> id < w.next }

  predicate RanFreely(settings: Policy.Settings, before: seq<Dispatch>, after: seq<Dispatch>) {
    && before <= after
    && forall i :: |before| <= i < |after| ==>
         after[i].approval.None? && !Policy.Gated(settings, after[i].call.tool)
  }

  /** One new request, pending, for this call; the rest of the table is as it was. */
  predicate OneRequest(who: Caller, w: World, w': World, call: Transcript.ToolCall) {
    && w.next in w'.rows && w.next !in w.rows
    && w'.rows == w.rows[w.next := w'.rows[w.next]]
    && w'.rows[w.next] == NewRow(who.cfg.hash, who.user, call.name, call.args, w'.rows[w.next].expiresAt)
  }

  /** Whether the `i`-th call of a run may be, and is, the one that raises a request: it is
      the last, and the run paused on it; or broke off at it, and then it may be. */
  predicate RaisesAsItEnds(who: Caller, w: World, w': World, step: Loop.Step, i: nat)
    requires i < |step.state.trace|
  {
    var trace := step.state.trace;
    if i + 1 < |trace| || (step.Next? && step.state.pending.None?) then w'.rows == w.rows
    else if step.Next? then OneRequest(who, w, w', trace[i].call)
    else w'.rows == w.rows || OneRequest(who, w, w', trace[i].call)
  }

  /** What one call does to the world it meets. */
  lemma OneCall(who: Caller, gate: Gateway, w: World, c: Transcript.ToolCall, n: nat)
    requires NeverGranted(who, gate) && IdsBelowNext(w)
    ensures var (w', outcome) := gate(w, c, n);
            && RanFreely(who.cfg.settings, w.dispatched, w'.dispatched)
            && if outcome.AwaitsApproval? then OneRequest(who, w, w', c) else w'.rows == w.rows
  {
    assert Ungranted(who, w, c, n, gate(w, c, n).0, gate(w, c, n).1);
  }

  /** Which of the calls of a run can have been answered with a request. */
  lemma OnlyTheLastPauses(step: Loop.Step, i: nat)
    requires Loop.Accounted(step) && i < |step.state.trace|
    ensures var trace := step.state.trace;
            && (i + 1 < |trace| || (step.Next? && step.state.pending.None?) ==>
                  !trace[i].outcome.NeedsApproval? && !trace[i].outcome.Crash?)
            && (i + 1 == |trace| && step.Next? && step.state.pending.Some? ==> trace[i].outcome.NeedsApproval?)
  {
    var trace := step.state.trace;
    if i + 1 < |trace| { assert trace[..|trace| - 1][i] == trace[i]; }
  }

  /** A viewer's run raises no request, and sends calls of registered reading tools only. */
  lemma ViewerRunsReadOnly(who: Caller, worlds: Worlds, c: Transcript.ToolCall, n: nat)
    requires ValidConfig(who.cfg) && who.role == Policy.Viewer
    ensures var w := worlds(n);
            var w' := Service(who)(w, c, n).0;
            && w'.rows == w.rows
            && (w'.dispatched == w.dispatched
                || (w'.dispatched == w.dispatched + [Dispatch(None, AsCall(c), who.fates(n) != Interrupted)]
                    && Policy.Registered(who.cfg.settings, c.name, Policy.Read)))
  {
    ViewerSendsReadsOnly(who.cfg, worlds(n), Propose(AsCall(c), who.role, Some(who.user), who.now(n), who.fates(n)));
  }

  /** A run never sends a gated call, whatever the model proposes and whoever else works on
      the approvals at the same time.  Each of its calls leaves the table it meets alone,
      but for the one the run paused on, which adds one pending request, and the one a
      run broke off at, which may. */
  lemma RunRaisesAtMostOneRequest(
    who: Caller, worlds: Worlds, env: Loop.Environment, s: Loop.AgentState, i: nat)
    requires ValidConfig(who.cfg)
    requires Loop.AtPlan(s) && Loop.WithinBudget(s) && Loop.AllBatchesRan(s)
    requires ThroughGateway(Service(who), worlds, Loop.Cycle(env, s).state.trace)
    requires i < |Loop.Cycle(env, s).state.trace| && IdsBelowNext(worlds(i))
    ensures var step := Loop.Cycle(env, s);
            var w := worlds(i);
            var w' := Service(who)(w, step.state.trace[i].call, i).0;
            RanFreely(who.cfg.settings, w.dispatched, w'.dispatched) && RaisesAsItEnds(who, w, w', step, i)
  {
    var step := Loop.Cycle(env, s);
    Loop.RunAccounts(env, s);
    OnlyTheLastPauses(step, i);
    ServiceIsNeverGranted(who);
    OneCall(who, Service(who), worlds(i), step.state.trace[i].call, i);
  }
}
