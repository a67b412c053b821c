/** The connection as an object whose fields two tasks update in turns, proved to move as
    `McpConnection` says under every schedule (`app/mcp/client.py`). */
module McpClient {
  import opened McpConnection

  class MCPServerConnection {
    var state: ConnectionState
    var client: bool
    var supervisor: Task
    var ready: bool
    var stop: bool
    var cancelled: bool
    var controller: Controller

    constructor ()
      ensures Now() == NEW
    {
      state, client, supervisor, controller := Disconnected, false, NoTask, Idle;
      ready, stop, cancelled := false, false, false;
    }

    function Now(): Connection
      reads this
    {
      Connection(state, client, supervisor, ready, stop, cancelled, controller)
    }

    method Connect()
      modifies this
      ensures Now() == McpConnection.Connect(old(Now()))
    {
      if controller != Idle || (state == Connected && client) { return; }
      state := Connecting;
      ready := false;
      stop := false;
      supervisor, cancelled := NotStarted, false;
      controller := AwaitsReady;
    }

    /** Cancels a live supervisor and says whether there is one to wait for. */
    method Abort(waiting: Controller) returns (waits: bool)
      modifies this
      ensures waits == Live(old(supervisor))
      ensures Now() == if waits then old(Now()).(cancelled := true, controller := waiting) else Released(old(Now()))
    {
      if Live(supervisor) {
        cancelled := true;
        controller := waiting;
        return true;
      }
      supervisor := NoTask;
      client := false;
      return false;
    }

    method ConnectWakes(timedOut: bool)
      modifies this
      ensures Now() == McpConnection.ConnectWakes(old(Now()), timedOut)
    {
      if controller != AwaitsReady || (!timedOut && !ready) { return; }
      if timedOut {
        var waits := Abort(AbortsConnect);
        if !waits {
          state := Failed;
          controller := Idle;
        }
      } else if state != Connected {
        var waits := Abort(AbortsConnect);
        if !waits { controller := Idle; }
      } else {
        controller := Idle;
      }
    }

    method Disconnect()
      modifies this
      ensures Now() == McpConnection.Disconnect(old(Now()))
    {
      if controller != Idle || supervisor == NoTask { return; }
      stop := true;
      controller := AwaitsStop;
    }

    method FinishDisconnect()
      modifies this
      ensures Now() == DisconnectFinished(old(Now()))
    {
      supervisor := NoTask;
      client := false;
      state := Closed;
      controller := Idle;
    }

    method DisconnectWakes(timedOut: bool)
      modifies this
      ensures Now() == McpConnection.DisconnectWakes(old(Now()), timedOut)
    {
      if controller != AwaitsStop || (!timedOut && Live(supervisor)) { return; }
      var waits := Abort(AbortsStop);
      if !waits { FinishDisconnect(); }
    }

    method AbortWakes()
      modifies this
      ensures Now() == McpConnection.AbortWakes(old(Now()))
    {
      if Live(supervisor) { return; }
      if controller == AbortsConnect {
        supervisor := NoTask;
        client := false;
        state := Failed;
        controller := Idle;
      } else if controller == AbortsStop {
        FinishDisconnect();
      }
    }

    /** The supervisor's `except` and `finally`. */
    method EndSupervisor(how: Ending)
      modifies this
      ensures Now() == Ended(old(Now()), how)
    {
      if how == WithError { state := Failed; }
      client := false;
      ready := true;
      if state == Connected { state := Closed; }
      supervisor := Done(true);
    }

    method Begin(badTarget: bool)
      modifies this
      ensures Now() == McpConnection.Begin(old(Now()), badTarget)
    {
      if supervisor != NotStarted { return; }
      if cancelled {
        supervisor := Done(false);
      } else if badTarget {
        EndSupervisor(WithError);
      } else {
        supervisor := Entering;
      }
    }

    method Entered()
      modifies this
      ensures Now() == McpConnection.Entered(old(Now()))
    {
      if supervisor != Entering { return; }
      client := true;
      state := Connected;
      ready := true;
      supervisor := if stop then Exiting else Parked;
    }

    /** Any schedule of the two tasks and of cancellations from outside. */
    method Serve(schedule: seq<Action>)
      requires Now() == NEW
      modifies this
      ensures Now() == Run(schedule)
    {
      for i := 0 to |schedule|
        invariant Now() == Run(schedule[..i])
      {
        assert schedule[..i + 1][..i] == schedule[..i];
        match schedule[i]
        case CallConnect => Connect();
        case ConnectWake(timedOut) => ConnectWakes(timedOut);
        case CallDisconnect => Disconnect();
        case DisconnectWake(timedOut) => DisconnectWakes(timedOut);
        case AbortWake => AbortWakes();
        case SupervisorBegins(badTarget) => Begin(badTarget);
        case SupervisorEntered => Entered();
        case SupervisorEnterFails(how) => if supervisor == Entering && how != Normally { EndSupervisor(how); }
        case SupervisorUnparks => if supervisor == Parked { supervisor := Exiting; }
        case SupervisorExits(how) => if supervisor == Exiting { EndSupervisor(how); }
        case OutsideCancel => cancelled := true;
      }
      assert schedule[..|schedule|] == schedule;
    }
  }
}
