/** One server connection and its supervisor (`app/mcp/client.py`).

    The controlling task and the supervisor take turns at their suspension points; each
    function below is the code one of them runs between two such points.  The SDK may
    fail, be slow or ignore a cancellation at will. */
module McpConnection {

  datatype ConnectionState = Disconnected | Connecting | Connected | Failed | Closed

  /** The supervisor task.  `started` is false for a task cancelled before its first step. */
  datatype Task = NoTask | NotStarted | Entering | Parked | Exiting | Done(started: bool)

  /** Where the controlling task is suspended. */
  datatype Controller = Idle | AwaitsReady | AbortsConnect | AwaitsStop | AbortsStop

  datatype Connection = Connection(
    state: ConnectionState,
    client: bool,
    supervisor: Task,
    ready: bool,
    stop: bool,
    cancelled: bool,
    controller: Controller)

  const NEW := Connection(Disconnected, false, NoTask, false, false, false, Idle)

  predicate Live(t: Task) { t.NotStarted? || t.Entering? || t.Parked? || t.Exiting? }

  predicate IsConnected(c: Connection) { c.state.Connected? && c.client }

  // ------------------------------------------------------------ controlling task --

  /** `connect` up to its wait. */
  function Connect(c: Connection): Connection {
    if !c.controller.Idle? || IsConnected(c) then c
    else c.(state := Connecting, ready := false, stop := false, cancelled := false, supervisor := NotStarted,
            controller := AwaitsReady)
  }

  /** `_abort` once the supervisor is gone. */
  function Released(c: Connection): Connection { c.(supervisor := NoTask, client := false) }

  /** `_abort`: a live supervisor is cancelled and waited for. */
  function Abort(c: Connection, waiting: Controller, finished: Connection -> Connection): Connection {
    if Live(c.supervisor) then c.(cancelled := true, controller := waiting) else finished(Released(c))
  }

  function ConnectTimedOut(c: Connection): Connection { c.(state := Failed, controller := Idle) }

  function ConnectRefused(c: Connection): Connection { c.(controller := Idle) }

  function DisconnectFinished(c: Connection): Connection {
    c.(supervisor := NoTask, client := false, state := Closed, controller := Idle)
  }

  /** The wait for `_ready` ends, by the event or by the clock. */
  function ConnectWakes(c: Connection, timedOut: bool): Connection {
    if !c.controller.AwaitsReady? || (!timedOut && !c.ready) then c
    else if timedOut then Abort(c, AbortsConnect, ConnectTimedOut)
    else if !c.state.Connected? then Abort(c, AbortsConnect, ConnectRefused)
    else c.(controller := Idle)
  }

  /** `disconnect` up to its wait. */
  function Disconnect(c: Connection): Connection {
    if !c.controller.Idle? || c.supervisor.NoTask? then c else c.(stop := true, controller := AwaitsStop)
  }

  /** The shielded wait for the supervisor ends, by its end or by the clock. */
  function DisconnectWakes(c: Connection, timedOut: bool): Connection {
    if !c.controller.AwaitsStop? || (!timedOut && Live(c.supervisor)) then c
    else Abort(c, AbortsStop, DisconnectFinished)
  }

  /** The cancelled supervisor has ended. */
  function AbortWakes(c: Connection): Connection {
    if Live(c.supervisor) then c
    else if c.controller.AbortsConnect? then ConnectTimedOut(Released(c))
    else if c.controller.AbortsStop? then DisconnectFinished(Released(c))
    else c
  }

  // ------------------------------------------------------------------ supervisor --

  /** The `finally` of the supervisor. */
  function Finish(c: Connection): Connection {
    c.(client := false, ready := true, supervisor := Done(true),
       state := if c.state.Connected? then Closed else c.state)
  }

  /** The first step, unless a cancellation came before it: then the body never runs. */
  function Begin(c: Connection, badTarget: bool): Connection {
    if !c.supervisor.NotStarted? then c
    else if c.cancelled then c.(supervisor := Done(false))
    else if badTarget then Finish(c.(state := Failed))
    else c.(supervisor := Entering)
  }

  datatype Ending = Normally | WithError | Cancelled

  function Ended(c: Connection, how: Ending): Connection {
    Finish(if how.WithError? then c.(state := Failed) else c)
  }

  /** The context manager is entered, or gives up. */
  function Entered(c: Connection): Connection {
    if !c.supervisor.Entering? then c
    else c.(client := true, state := Connected, ready := true, supervisor := if c.stop then Exiting else Parked)
  }

  function EnterFails(c: Connection, how: Ending): Connection {
    if !c.supervisor.Entering? || how.Normally? then c else Ended(c, how)
  }

  /** Told to stop, cancelled, or thrown out by a transport failure. */
  function Unparks(c: Connection): Connection {
    if !c.supervisor.Parked? then c else c.(supervisor := Exiting)
  }

  function Exits(c: Connection, how: Ending): Connection {
    if !c.supervisor.Exiting? then c else Ended(c, how)
  }

  // ------------------------------------------------------------------- schedules --

  datatype Action =
    | CallConnect
    | ConnectWake(timedOut: bool)
    | CallDisconnect
    | DisconnectWake(timedOut: bool)
    | AbortWake
    | SupervisorBegins(badTarget: bool)
    | SupervisorEntered
    | SupervisorEnterFails(how: Ending)
    | SupervisorUnparks
    | SupervisorExits(how: Ending)
    | OutsideCancel

  function Step(c: Connection, a: Action): Connection {
    match a
    case CallConnect => Connect(c)
    case ConnectWake(timedOut) => ConnectWakes(c, timedOut)
    case CallDisconnect => Disconnect(c)
    case DisconnectWake(timedOut) => DisconnectWakes(c, timedOut)
    case AbortWake => AbortWakes(c)
    case SupervisorBegins(badTarget) => Begin(c, badTarget)
    case SupervisorEntered => Entered(c)
    case SupervisorEnterFails(how) => EnterFails(c, how)
    case SupervisorUnparks => Unparks(c)
    case SupervisorExits(how) => Exits(c, how)
    case OutsideCancel => c.(cancelled := true)
  }

  function Run(schedule: seq<Action>): Connection {
    if schedule == [] then NEW else Step(Run(schedule[..|schedule| - 1]), schedule[|schedule| - 1])
  }

  lemma RunOfAppend(schedule: seq<Action>, a: Action)
    ensures Run(schedule + [a]) == Step(Run(schedule), a)
  {
    assert (schedule + [a])[..|schedule|] == schedule;
  }

  /** What holds at every suspension point. */
  predicate Inv(c: Connection) {
    && (c.client <==> c.state.Connected?)
    && (c.client <==> c.supervisor.Parked? || c.supervisor.Exiting?)
    && (c.supervisor.NotStarted? || c.supervisor.Entering? ==>
          c.state.Connecting? && !c.ready && (c.controller.AwaitsReady? || c.controller.AbortsConnect?))
    && (c.supervisor.Parked? || c.supervisor.Exiting? ==> c.ready)
    && (c.supervisor.Done? ==> (c.ready <==> c.supervisor.started))
    && (!c.controller.Idle? ==> !c.supervisor.NoTask?)
  }

  lemma StepKeepsInv(c: Connection, a: Action)
    requires Inv(c)
    ensures Inv(Step(c, a))
  {
  }

  lemma {:induction false} RunKeepsInv(schedule: seq<Action>)
    ensures Inv(Run(schedule))
  {
    if schedule == [] {
    } else {
      RunKeepsInv(schedule[..|schedule| - 1]);
      StepKeepsInv(Run(schedule[..|schedule| - 1]), schedule[|schedule| - 1]);
    }
  }

  /** Whatever the schedule: a client is published exactly while the connection says it
      is connected, and exactly while a supervisor holds the session open. */
  lemma {:induction false} ClientExactlyWhenConnected(schedule: seq<Action>)
    ensures var c := Run(schedule);
            && (c.client <==> c.state.Connected?)
            && (c.client <==> c.supervisor.Parked? || c.supervisor.Exiting?)
  {
    RunKeepsInv(schedule);
  }

  /** `connect` is not left waiting on a dead supervisor: its wait is over as soon as the
      supervisor has ended, exactly unless it was cancelled before its first step. */
  lemma {:induction false} WaitEndsExactlyWhenBodyRan(schedule: seq<Action>)
    requires Run(schedule).controller.AwaitsReady? && Run(schedule).supervisor.Done?
    ensures var c := Run(schedule);
            ConnectWakes(c, false).controller.Idle? <==> c.supervisor.started
    ensures ConnectWakes(Run(schedule), true).controller.Idle?
  {
    RunKeepsInv(schedule);
  }

  /** The exception: the wait then ends only by its timeout. */
  lemma CancelledBeforeStartLeavesWaiting()
    ensures var c := Run([CallConnect, OutsideCancel, SupervisorBegins(false)]);
            c.supervisor == Done(false) && ConnectWakes(c, false) == c && c.controller.AwaitsReady?
  {
    RunOfAppend([], CallConnect);
    RunOfAppend([] + [CallConnect], OutsideCancel);
    RunOfAppend([] + [CallConnect] + [OutsideCancel], SupervisorBegins(false));
    assert [CallConnect, OutsideCancel, SupervisorBegins(false)]
        == [] + [CallConnect] + [OutsideCancel] + [SupervisorBegins(false)];
  }

  /** What `connect` leaves when it returns: a live, connected session, or no supervisor
      and no client. */
  lemma {:induction false} ConnectLeavesConnectedOrNothing(schedule: seq<Action>, a: Action)
    requires Run(schedule).controller.AwaitsReady? || Run(schedule).controller.AbortsConnect?
    requires Step(Run(schedule), a).controller.Idle?
    ensures var c := Step(Run(schedule), a);
            (IsConnected(c) && Live(c.supervisor)) || (!c.client && c.supervisor.NoTask?)
  {
    RunKeepsInv(schedule);
  }

  /** `connect` never starts a second supervisor beside a live one: between operations a
      live supervisor means connected, and then `connect` returns at once. */
  lemma NoOrphanedSupervisor(schedule: seq<Action>)
    requires Run(schedule).controller.Idle? && Live(Run(schedule).supervisor)
    ensures IsConnected(Run(schedule)) && Connect(Run(schedule)) == Run(schedule)
  {
    RunKeepsInv(schedule);
  }

  /** Every way `connect` can come back from its wait: connected, exactly if the supervisor
      holds the session open; and failed, once it is gone, exactly if the clock ran out. */
  lemma {:induction false} ConnectSucceedsExactlyWhen(schedule: seq<Action>)
    requires Run(schedule).controller.AwaitsReady? && Run(schedule).ready
    ensures var c := Run(schedule);
            var c' := Step(c, ConnectWake(false));
            && c'.controller.Idle?
            && (IsConnected(c') <==> c.supervisor.Parked? || c.supervisor.Exiting?)
            && (IsConnected(c') ==> c' == c.(controller := Idle))
            && (!IsConnected(c') ==> c'.supervisor.NoTask? && !c'.client && c'.state == c.state)
  {
    RunKeepsInv(schedule);
  }

  predicate Unhindered(c: Connection) { c.controller.AwaitsReady? ==> !c.stop }

  lemma StepKeepsUnhindered(c: Connection, a: Action)
    requires Unhindered(c)
    ensures Unhindered(Step(c, a))
  {
  }

  /** Nobody stops a connection that is being made. */
  lemma {:induction false} NotToldToStop(schedule: seq<Action>)
    ensures Unhindered(Run(schedule))
  {
    if schedule == [] {
    } else {
      NotToldToStop(schedule[..|schedule| - 1]);
      StepKeepsUnhindered(Run(schedule[..|schedule| - 1]), schedule[|schedule| - 1]);
    }
  }

  /** What can happen to a connection that is up while `connect` has not woken yet. */
  predicate Holds(a: Action) { !a.ConnectWake? && !a.SupervisorUnparks? }

  lemma {:induction false} StaysUp(schedule: seq<Action>, others: seq<Action>)
    requires Run(schedule).controller.AwaitsReady? && Run(schedule).supervisor.Parked?
    requires forall i :: 0 <= i < |others| ==> Holds(others[i])
    ensures var c := Run(schedule + others);
            c.controller.AwaitsReady? && c.supervisor.Parked? && c.state.Connected? && c.ready
  {
    RunKeepsInv(schedule);
    if others == [] {
      assert schedule + others == schedule;
    } else {
      var before := others[..|others| - 1];
      StaysUp(schedule, before);
      assert (schedule + others)[..|schedule + others| - 1] == schedule + before;
    }
  }

  /** Progress: once the supervisor has entered, `connect` comes back connected, whatever
      else happens, unless the clock or the transport ends it first. */
  lemma {:induction false} EnteredConnects(schedule: seq<Action>, others: seq<Action>)
    requires Run(schedule).controller.AwaitsReady? && Run(schedule).supervisor.Entering?
    requires forall i :: 0 <= i < |others| ==> Holds(others[i])
    ensures var c := Run(schedule + [SupervisorEntered] + others + [ConnectWake(false)]);
            IsConnected(c) && c.controller.Idle? && c.supervisor.Parked?
  {
    NotToldToStop(schedule);
    RunOfAppend(schedule, SupervisorEntered);
    StaysUp(schedule + [SupervisorEntered], others);
    RunKeepsInv(schedule + [SupervisorEntered] + others);
    RunOfAppend(schedule + [SupervisorEntered] + others, ConnectWake(false));
  }

  /** Whatever went before, a failed or timed out attempt included: a `connect` of a target
      that can be reached comes back connected. */
  lemma {:induction false} AnyConnectCanSucceed(schedule: seq<Action>, others: seq<Action>)
    requires Run(schedule).controller.Idle? && !IsConnected(Run(schedule))
    requires forall i :: 0 <= i < |others| ==> Holds(others[i])
    ensures var c := Run(schedule + [CallConnect] + [SupervisorBegins(false)] + [SupervisorEntered] + others
                         + [ConnectWake(false)]);
            IsConnected(c) && c.controller.Idle? && c.supervisor.Parked?
  {
    RunOfAppend(schedule, CallConnect);
    RunOfAppend(schedule + [CallConnect], SupervisorBegins(false));
    EnteredConnects(schedule + [CallConnect] + [SupervisorBegins(false)], others);
  }

  /** The clock runs out on `connect`: the supervisor is cancelled, and once it has ended the
      connection has failed, without client or supervisor. */
  lemma {:induction false} TimeoutFails(schedule: seq<Action>)
    requires Run(schedule).controller.AwaitsReady?
    ensures var c := Step(Run(schedule), ConnectWake(true));
            if Live(Run(schedule).supervisor) then c == Run(schedule).(cancelled := true, controller := AbortsConnect)
            else c.state.Failed? && !c.client && c.supervisor.NoTask? && c.controller.Idle?
  {
    RunKeepsInv(schedule);
  }

  lemma {:induction false} AbortedConnectFails(schedule: seq<Action>)
    requires Run(schedule).controller.AbortsConnect?
    ensures var c := Step(Run(schedule), AbortWake);
            if Live(Run(schedule).supervisor) then c == Run(schedule)
            else c.state.Failed? && !c.client && c.supervisor.NoTask? && c.controller.Idle?
  {
    RunKeepsInv(schedule);
  }

  /** How a session ends: closed, or failed if by an error; the client is withdrawn and the
      waiting `connect` told. */
  lemma {:induction false} SessionEnds(schedule: seq<Action>, how: Ending)
    requires Run(schedule).supervisor.Exiting?
    ensures var c := Step(Run(schedule), SupervisorExits(how));
            && (if how.WithError? then c.state.Failed? else c.state.Closed?)
            && !c.client && c.ready && c.supervisor == Done(true) && c.controller == Run(schedule).controller
  {
    RunKeepsInv(schedule);
  }

  /** How an attempt fails before there is a session. */
  lemma {:induction false} AttemptFails(schedule: seq<Action>, how: Ending)
    requires Run(schedule).supervisor.Entering? && !how.Normally?
    ensures var c := Step(Run(schedule), SupervisorEnterFails(how));
            && (if how.WithError? then c.state.Failed? else c.state.Connecting?)
            && !c.client && c.ready && c.supervisor == Done(true) && c.controller == Run(schedule).controller
  {
    RunKeepsInv(schedule);
  }

  /** A target that cannot even be set up: the same, at the first step. */
  lemma {:induction false} BadTargetFails(schedule: seq<Action>)
    requires Run(schedule).supervisor.NotStarted? && !Run(schedule).cancelled
    ensures var c := Step(Run(schedule), SupervisorBegins(true));
            && c.state.Failed? && !c.client && c.ready && c.supervisor == Done(true)
            && c.controller == Run(schedule).controller
  {
    RunKeepsInv(schedule);
  }

  predicate StopAsked(c: Connection) { c.controller.AwaitsStop? || c.controller.AbortsStop? ==> c.stop }

  lemma StepKeepsStopAsked(c: Connection, a: Action)
    requires StopAsked(c)
    ensures StopAsked(Step(c, a))
  {
  }

  /** `disconnect` has told the supervisor to stop for as long as it waits. */
  lemma {:induction false} StopIsAsked(schedule: seq<Action>)
    ensures StopAsked(Run(schedule))
  {
    if schedule == [] {
    } else {
      StopIsAsked(schedule[..|schedule| - 1]);
      StepKeepsStopAsked(Run(schedule[..|schedule| - 1]), schedule[|schedule| - 1]);
    }
  }

  /** `disconnect` waits for the supervisor, then cancels it, and is done exactly when it
      has ended; without one there is nothing to do. */
  lemma {:induction false} DisconnectEnds(schedule: seq<Action>, timedOut: bool)
    ensures var c := Run(schedule);
            && (c.controller.Idle? ==>
                  (Step(c, CallDisconnect).controller.AwaitsStop? <==> !c.supervisor.NoTask?)
                  && (c.supervisor.NoTask? ==> Step(c, CallDisconnect) == c))
            && (c.controller.AwaitsStop? ==>
                  var c' := Step(c, DisconnectWake(timedOut));
                  if !Live(c.supervisor) then c'.state.Closed? && c'.controller.Idle?
                  else if timedOut then c' == c.(cancelled := true, controller := AbortsStop)
                  else c' == c)
            && (c.controller.AbortsStop? ==>
                  var c' := Step(c, AbortWake);
                  if !Live(c.supervisor) then c'.state.Closed? && c'.controller.Idle? else c' == c)
  {
    RunKeepsInv(schedule);
  }

  /** A connection that is up is closed by `disconnect`, once the supervisor has come to
      the stop it was told of and left the session, however it left. */
  lemma {:induction false} DisconnectStops(schedule: seq<Action>, how: Ending)
    requires Run(schedule).controller.Idle? && Run(schedule).supervisor.Parked?
    ensures var c := Run(schedule + [CallDisconnect] + [SupervisorUnparks] + [SupervisorExits(how)]
                         + [DisconnectWake(false)]);
            c.state.Closed? && !c.client && c.supervisor.NoTask? && c.controller.Idle?
  {
    RunOfAppend(schedule, CallDisconnect);
    RunOfAppend(schedule + [CallDisconnect], SupervisorUnparks);
    RunOfAppend(schedule + [CallDisconnect] + [SupervisorUnparks], SupervisorExits(how));
    RunOfAppend(schedule + [CallDisconnect] + [SupervisorUnparks] + [SupervisorExits(how)], DisconnectWake(false));
  }

  /** Nobody wakes who does not wait. */
  lemma OnlyTheWaitingWake(c: Connection, timedOut: bool)
    ensures !c.controller.AwaitsReady? ==> Step(c, ConnectWake(timedOut)) == c
    ensures !c.controller.AwaitsStop? ==> Step(c, DisconnectWake(timedOut)) == c
    ensures !c.controller.AbortsConnect? && !c.controller.AbortsStop? ==> Step(c, AbortWake) == c
    ensures !c.controller.Idle? ==> Step(c, CallConnect) == c && Step(c, CallDisconnect) == c
  {
  }

  /** A finished `disconnect` of a started connection leaves it closed, without client or
      supervisor, and so it stays until the next `connect`. */
  lemma {:induction false} DisconnectCloses(schedule: seq<Action>, a: Action, later: seq<Action>)
    requires Run(schedule).controller.AwaitsStop? || Run(schedule).controller.AbortsStop?
    requires Step(Run(schedule), a).controller.Idle?
    requires forall i :: 0 <= i < |later| ==> !later[i].CallConnect?
    ensures var c := Run(schedule + [a] + later);
            c.state.Closed? && !c.client && c.supervisor.NoTask? && c.controller.Idle?
  {
    var all := schedule + [a] + later;
    if later == [] {
      assert all == schedule + [a] && (schedule + [a])[..|schedule|] == schedule;
    } else {
      assert all[..|all| - 1] == schedule + [a] + later[..|later| - 1];
      assert all[|all| - 1] == later[|later| - 1];
      DisconnectCloses(schedule, a, later[..|later| - 1]);
    }
  }

  /** A supervisor cancelled from outside while it was still entering: `connect` raises,
      and the connection goes on saying that it is connecting. */
  lemma CancelledEntryLeavesConnecting()
    ensures var c := Run([CallConnect, SupervisorBegins(false), SupervisorEnterFails(Cancelled), ConnectWake(false)]);
            c.state.Connecting? && c.controller.Idle? && c.supervisor.NoTask?
  {
    RunOfAppend([], CallConnect);
    RunOfAppend([] + [CallConnect], SupervisorBegins(false));
    RunOfAppend([] + [CallConnect] + [SupervisorBegins(false)], SupervisorEnterFails(Cancelled));
    RunOfAppend([] + [CallConnect] + [SupervisorBegins(false)] + [SupervisorEnterFails(Cancelled)], ConnectWake(false));
    assert [CallConnect, SupervisorBegins(false), SupervisorEnterFails(Cancelled), ConnectWake(false)]
        == [] + [CallConnect] + [SupervisorBegins(false)] + [SupervisorEnterFails(Cancelled)] + [ConnectWake(false)];
  }
}
