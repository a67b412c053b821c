/** The agent as an object: the four nodes that act, and the run that threads the state
    through them, proved to refine `AgentLoop` (`app/agents/nodes.py`,
    `app/agents/runner.py`). */
module Agent {
  import opened Json
  import opened Transcript
  import opened AgentLoop

  class AgentRun {
    const env: Environment
    var state: AgentState

    constructor (env: Environment, rows: seq<Message>, text: string, window: nat, toolsAvailable: bool,
                 maxIterations: int)
      ensures this.env == env && state == Opening(env, rows, text, window, toolsAvailable, maxIterations)
    {
      this.env := env;
      state := Opening(env, rows, text, window, toolsAvailable, maxIterations);
    }

    method Plan() returns (crashed: bool)
      modifies this
      ensures AgentLoop.Plan(env, old(state)) == if crashed then Abort(state) else Next(state)
    {
      if state.iteration >= state.maxIterations {
        state := state.(status := Running, calls := [], response := None,
                        errors := state.errors + [LimitReached(state.maxIterations)]);
        return false;
      }
      var completion := env.llm(state.completions, state.history);
      state := state.(completions := state.completions + 1);
      match completion
      case LlmCrash =>
        return true;
      case LlmError(message) =>
        state := state.(status := Failure, errors := state.errors + [message], response := Some(Unreachable));
        return false;
      case Reply(content, calls) =>
        var turn := AssistantTurn(content, calls);
        state := Append(env, state, turn);
        state := state.(
          iteration := state.iteration + 1, calls := calls,
          response := if calls == [] && content.Some? then Some(Words(content.value)) else None,
          history := state.history + [turn], batches := state.batches + [calls]);
        return false;
    }

    /** One call after the other, each result stored before the next call is made. */
    method ExecuteTools() returns (crashed: bool)
      modifies this
      ensures AgentLoop.ExecuteTools(env, old(state)) == if crashed then Abort(state) else Next(state)
    {
      ghost var start := old(state).(pending := None);
      var proposed := state.calls;
      state := state.(pending := None);
      var i := 0;
      while i < |proposed|
        invariant 0 <= i <= |proposed|
        invariant ExecuteFrom(env, start, proposed) == ExecuteFrom(env, state, proposed[i..])
      {
        assert proposed[i..][1..] == proposed[i + 1..];
        var outcome := env.gate(|state.trace|);
        if outcome.Crash? {
          state := state.(trace := state.trace + [Executed(proposed[i], outcome)]);
          return true;
        }
        state := Recorded(env, state, proposed[i], outcome);
        if outcome.NeedsApproval? {
          state := state.(pending := Some(outcome.approval), calls := []);
          return false;
        }
        i := i + 1;
      }
      state := state.(calls := []);
      return false;
    }

    method ValidateResults()
      modifies this
      ensures state == Validate(old(state))
    {
      if state.pending.Some? {
        state := state.(status := AwaitingApproval);
        return;
      }
      var failures := Failures(Recent(state));
      if failures != [] && |failures| == |Recent(state)| && state.iteration >= 2 {
        state := state.(status := Running, errors := state.errors + [STOPPING],
                        response := None);
      }
    }

    method Respond()
      modifies this
      ensures state == AgentLoop.Respond(env, old(state))
    {
      var status :=
        if state.status.Failure? then Failure else if state.pending.Some? then AwaitingApproval else Completed;
      var answer := if Blank(state.response) then WithoutModel(state) else state.response.value;
      if state.pending.Some? {
        state := Append(env, state, AssistantTurn(Some(env.notice(answer, state.pending.value)), []));
      }
      state := state.(response := Some(answer), status := status);
    }

    /** The graph: plan, execute, validate, and round again while there is more to do. */
    method Invoke() returns (crashed: bool)
      requires AtPlan(state)
      modifies this
      ensures Cycle(env, old(state)) == if crashed then Abort(state) else Next(state)
    {
      while true
        invariant Cycle(env, old(state)) == Cycle(env, state)
        decreases state.maxIterations - state.iteration
      {
        ghost var s := state;
        PassSpendsBudget(env, s);
        crashed := Plan();
        if crashed { return; }
        if !PlanLeadsToTools(state) {
          Respond();
          return;
        }
        crashed := ExecuteTools();
        if crashed { return; }
        ValidateResults();
        if !ValidationLeadsToPlan(state) {
          Respond();
          return;
        }
      }
    }
  }
}
