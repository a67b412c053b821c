/** The agent's workflow as functions on its state (`app/agents/graph.py`,
    `app/agents/nodes.py`, `app/agents/state.py`).  The model and the execution gateway
    are an arbitrary environment: what each of them answers the first time it is asked,
    the second time, and so on; the model also sees the history.  Other requests on the
    same conversation may store rows of theirs at any time. */
module AgentLoop {
  import opened Json
  import opened Transcript
  import CanonicalJson

  datatype Completion =
    | Reply(content: Option<string>, calls: seq<ToolCall>)
    | LlmError(message: string)
    | LlmCrash

  datatype Approval = Approval(id: nat, tool: string, summary: string, reason: string)

  /** What the gateway answers to one call.  `Failed` covers refusals, reported failures
      and failed dispatches; `Error` is an application error raised on the way; `Crash` is
      any other exception, while executing the call or while storing its result. */
  datatype Outcome =
    | Succeeded(content: string, structured: Option<string>)
    | Failed(message: string)
    | NeedsApproval(approval: Approval)
    | Error(message: string)
    | Crash

  /** `early` are the rows of other requests that arrive between the user's message and
      the loading of the history, `arrivals(n)` those that arrive between that and the
      `n`-th row this run stores afterwards. */
  datatype Environment = Environment(
    llm: (nat, seq<Message>) -> Completion,
    gate: nat -> Outcome,
    notice: (Answer, Approval) -> string,
    early: seq<Message>,
    arrivals: nat -> seq<Message>)

  /** No other request works on the conversation while this one runs. */
  ghost predicate Alone(env: Environment) { env.early == [] && forall n :: env.arrivals(n) == [] }

  datatype ToolResult = ToolResult(
    callId: string, toolName: string, success: bool,
    content: string, structured: Option<string>, error: Option<string>)

  datatype Status = Running | Completed | AwaitingApproval | Failure

  /** What the user is told: the model's words, or one of the fixed texts. */
  datatype Answer =
    | Words(text: string)
    | Unreachable
    | Waiting
    | CouldNot(reasons: seq<string>)
    | NothingFound
    | Found(results: seq<ToolResult>)

  datatype Executed = Executed(call: ToolCall, outcome: Outcome)

  /** The state the nodes pass along, the stored transcript, and, for the record only,
      the rows this run stored since its history was loaded, how often the model was
      asked, what it proposed and what was executed. */
  datatype AgentState = AgentState(
    history: seq<Message>,
    calls: seq<ToolCall>,
    results: seq<ToolResult>,
    response: Option<Answer>,
    pending: Option<Approval>,
    status: Status,
    errors: seq<string>,
    iteration: nat,
    maxIterations: int,
    rows: seq<Message>,
    own: seq<Message>,
    completions: nat,
    batches: seq<seq<ToolCall>>,
    trace: seq<Executed>)

  /** An exception no node catches ends the run where it stands. */
  datatype Step = Next(state: AgentState) | Abort(state: AgentState)

  // ------------------------------------------------------------------ messages --

  function AssistantTurn(content: Option<string>, calls: seq<ToolCall>): Message {
    Message(Assistant, content, calls, None, None)
  }

  function ToolTurn(r: ToolResult, content: string): Message {
    Message(Tool, Some(content), [], Some(r.callId), Some(r.toolName))
  }

  function Succeeds(call: ToolCall, content: string, structured: Option<string>): ToolResult {
    ToolResult(call.id, call.name, true, content, structured, None)
  }

  function Fails(call: ToolCall, error: string): ToolResult {
    ToolResult(call.id, call.name, false, error, None, Some(error))
  }

  function ApprovalNotice(a: Approval): string {
    "This action needs your approval before it can run: " + a.summary + " (" + a.reason + ")"
  }

  /** The result the model is shown for an outcome. */
  function ResultOf(call: ToolCall, outcome: Outcome): ToolResult
    requires !outcome.Crash?
  {
    match outcome
    case Succeeded(content, structured) => Succeeds(call, content, structured)
    case Failed(message) => Fails(call, message)
    case NeedsApproval(a) => Fails(call, ApprovalNotice(a))
    case Error(message) => Fails(call, message)
  }

  /** `_render_for_model`: what goes into the history of the running turn. */
  function Shown(r: ToolResult): string {
    if r.structured.Some? then r.structured.value
    else if r.content != "" then r.content
    else if r.error.Some? then r.error.value else ""
  }

  /** `_render_tool_content`: what goes into the transcript. */
  function Stored(r: ToolResult): string {
    if r.structured.Some? then r.structured.value
    else if r.content != "" then r.content
    else if r.success then ""
    else if r.error.Some? && r.error.value != "" then r.error.value else "The tool failed."
  }

  /** One row of this run is committed, after whatever else has arrived. */
  function Append(env: Environment, s: AgentState, m: Message): AgentState {
    s.(rows := s.rows + env.arrivals(|s.own|) + [m], own := s.own + [m])
  }

  // --------------------------------------------------------------------- nodes --

  predicate Exhausted(s: AgentState) { s.iteration >= s.maxIterations }

  function LimitReached(maxIterations: int): string {
    "Reached the " + CanonicalJson.Print(Num(maxIterations)) + "-step limit."
  }

  function Plan(env: Environment, s: AgentState): Step {
    if Exhausted(s) then
      Next(s.(status := Running, calls := [], response := None, errors := s.errors + [LimitReached(s.maxIterations)]))
    else
      var asked := s.(completions := s.completions + 1);
      match env.llm(s.completions, s.history)
      case LlmCrash => Abort(asked)
      case LlmError(message) =>
        Next(asked.(status := Failure, errors := s.errors + [message], response := Some(Unreachable)))
      case Reply(content, calls) =>
        Next(Append(env, asked, AssistantTurn(content, calls)).(
          iteration := s.iteration + 1,
          calls := calls,
          response := if calls == [] && content.Some? then Some(Words(content.value)) else None,
          history := s.history + [AssistantTurn(content, calls)],
          batches := s.batches + [calls]))
  }

  function Complaint(call: ToolCall, outcome: Outcome): seq<string> {
    match outcome
    case Failed(message) => [if message != "" then message else call.name + " failed."]
    case Error(message) => [message]
    case _ => []
  }

  function Recorded(env: Environment, s: AgentState, call: ToolCall, outcome: Outcome): AgentState
    requires !outcome.Crash?
  {
    var r := ResultOf(call, outcome);
    Append(env, s, ToolTurn(r, Stored(r))).(
       results := s.results + [r],
       history := s.history + [ToolTurn(r, Shown(r))],
       errors := s.errors + Complaint(call, outcome),
       trace := s.trace + [Executed(call, outcome)])
  }

  /** The calls of one batch, in order, until one of them needs approval. */
  function ExecuteFrom(env: Environment, s: AgentState, calls: seq<ToolCall>): Step
    decreases |calls|
  {
    if calls == [] then Next(s)
    else
      var outcome := env.gate(|s.trace|);
      if outcome.Crash? then Abort(s.(trace := s.trace + [Executed(calls[0], outcome)]))
      else if outcome.NeedsApproval? then
        Next(Recorded(env, s, calls[0], outcome).(pending := Some(outcome.approval)))
      else ExecuteFrom(env, Recorded(env, s, calls[0], outcome), calls[1..])
  }

  function ExecuteTools(env: Environment, s: AgentState): Step {
    match ExecuteFrom(env, s.(pending := None), s.calls)
    case Abort(s') => Abort(s')
    case Next(s') => Next(s'.(calls := []))
  }

  function Failures(results: seq<ToolResult>): seq<ToolResult> {
    if results == [] then []
    else (if results[0].success then [] else [results[0]]) + Failures(results[1..])
  }

  function Successes(results: seq<ToolResult>): seq<ToolResult> {
    if results == [] then []
    else (if results[0].success then [results[0]] else []) + Successes(results[1..])
  }

  /** The results of the last batch, if the calls are still there; here they never are. */
  function Recent(s: AgentState): seq<ToolResult> {
    if s.calls != [] && |s.calls| <= |s.results| then s.results[|s.results| - |s.calls|..] else s.results
  }

  const STOPPING := "Repeated tool failures; stopping."

  function Validate(s: AgentState): AgentState {
    if s.pending.Some? then s.(status := AwaitingApproval)
    else
      var failures := Failures(Recent(s));
      if failures != [] && |failures| == |Recent(s)| && s.iteration >= 2 then
        s.(status := Running, errors := s.errors + [STOPPING], response := None)
      else s
  }

  predicate Blank(a: Option<Answer>) { a.None? || a.value == Words("") }

  function LastOf<T>(s: seq<T>, n: nat): seq<T> { if n <= |s| then s[|s| - n..] else s }

  function WithoutModel(s: AgentState): Answer {
    if s.pending.Some? then Waiting
    else if Successes(s.results) == [] then
      if s.errors != [] then CouldNot(LastOf(s.errors, 2)) else NothingFound
    else Found(LastOf(Successes(s.results), 5))
  }

  function Respond(env: Environment, s: AgentState): AgentState {
    var status :=
      if s.status.Failure? then Failure else if s.pending.Some? then AwaitingApproval else Completed;
    var answer := if Blank(s.response) then WithoutModel(s) else s.response.value;
    var done := s.(response := Some(answer), status := status);
    if s.pending.Some? then Append(env, done, AssistantTurn(Some(env.notice(answer, s.pending.value)), []))
    else done
  }

  // --------------------------------------------------------------------- graph --

  predicate PlanLeadsToTools(s: AgentState) { !s.status.Failure? && s.calls != [] }

  predicate ValidationLeadsToPlan(s: AgentState) {
    s.pending.None? && Blank(s.response) && !Exhausted(s)
  }

  /** One way round the graph: to the end, or back to the planning node. */
  datatype Turn = Ended(step: Step) | Again(state: AgentState)

  function AfterTools(env: Environment, e: AgentState): Turn {
    var v := Validate(e);
    if ValidationLeadsToPlan(v) then Again(v) else Ended(Next(Respond(env, v)))
  }

  function Pass(env: Environment, s: AgentState): Turn {
    match Plan(env, s)
    case Abort(p) => Ended(Abort(p))
    case Next(p) =>
      if !PlanLeadsToTools(p) then Ended(Next(Respond(env, p)))
      else
        match ExecuteTools(env, p)
        case Abort(e) => Ended(Abort(e))
        case Next(e) => AfterTools(env, e)
  }

  /** From the planning node to the end. */
  function Cycle(env: Environment, s: AgentState): Step
    decreases s.maxIterations - s.iteration
  {
    match Pass(env, s)
    case Ended(step) => step
    case Again(s') => PassSpendsBudget(env, s); Cycle(env, s')
  }

  lemma {:induction false} ExecuteKeepsBudget(env: Environment, s: AgentState, calls: seq<ToolCall>)
    ensures var s' := ExecuteFrom(env, s, calls).state;
            && s'.iteration == s.iteration && s'.maxIterations == s.maxIterations && s'.status == s.status
            && s'.completions == s.completions && s'.batches == s.batches && s'.response == s.response
    decreases |calls|
  {
    if calls == [] {
    } else {
      var outcome := env.gate(|s.trace|);
      if !outcome.Crash? && !outcome.NeedsApproval? {
        ExecuteKeepsBudget(env, Recorded(env, s, calls[0], outcome), calls[1..]);
      }
    }
  }

  /** The cycle closes only after a planning pass that used up one unit of the budget. */
  lemma PassSpendsBudget(env: Environment, s: AgentState)
    ensures Pass(env, s).Again? ==>
              && !Exhausted(s) && Pass(env, s).state.maxIterations == s.maxIterations
              && Pass(env, s).state.iteration == s.iteration + 1
              && Pass(env, s).state.completions == s.completions + 1
  {
    var plan := Plan(env, s);
    if plan.Next? { ExecuteKeepsBudget(env, plan.state.(pending := None), plan.state.calls); }
  }

  /** `run`: the user's message is stored, the history is rebuilt from the last `window`
      rows, the tools are looked up, and the workflow starts. */
  function Opening(
    env: Environment, rows: seq<Message>, text: string, window: nat, toolsAvailable: bool,
    maxIterations: int): AgentState
  {
    var stored := rows + [Message(User, Some(text), [], None, None)] + env.early;
    var errors := if toolsAvailable then [] else ["No MCP tools are currently available."];
    AgentState(History(stored, window), [], [], None, None, Running, errors, 0, maxIterations, stored, [], 0, [], [])
  }

  function Run(
    env: Environment, rows: seq<Message>, text: string, window: nat, toolsAvailable: bool, maxIterations: int): Step
  {
    Cycle(env, Opening(env, rows, text, window, toolsAvailable, maxIterations))
  }

  // ------------------------------------------------------------ budget and status --

  /** How the planning node is entered, the first time and every time after. */
  predicate AtPlan(s: AgentState) { s.status.Running? && s.pending.None? && s.calls == [] }

  predicate WithinBudget(s: AgentState) {
    s.completions == s.iteration && (s.iteration == 0 || s.iteration <= s.maxIterations)
  }

  function Budget(maxIterations: int): nat { if maxIterations < 0 then 0 else maxIterations }

  predicate Closed(step: Step) {
    step.Next? ==>
      && !step.state.status.Running?
      && (step.state.status.AwaitingApproval? <==> step.state.pending.Some?)
      && step.state.response.Some?
  }

  lemma RespondCloses(env: Environment, s: AgentState)
    requires s.status.Failure? ==> s.pending.None?
    ensures Closed(Next(Respond(env, s))) && Respond(env, s).completions == s.completions
  {
  }

  lemma AfterToolsIsBounded(env: Environment, e: AgentState)
    requires !e.status.Failure? && e.calls == [] && WithinBudget(e) && (e.status.Running? || e.pending.Some?)
    ensures var turn := AfterTools(env, e);
            && (turn.Ended? ==> turn.step.state.completions == e.completions && Closed(turn.step))
            && (turn.Again? ==> AtPlan(turn.state) && WithinBudget(turn.state))
  {
    RespondCloses(env, Validate(e));
  }

  lemma PassIsBounded(env: Environment, s: AgentState)
    requires AtPlan(s) && WithinBudget(s)
    ensures var turn := Pass(env, s);
            && (turn.Ended? ==> turn.step.state.completions <= Budget(s.maxIterations) && Closed(turn.step))
            && (turn.Again? ==> AtPlan(turn.state) && WithinBudget(turn.state))
  {
    var plan := Plan(env, s);
    if plan.Next? {
      var p := plan.state;
      RespondCloses(env, p);
      if PlanLeadsToTools(p) {
        ExecuteKeepsBudget(env, p.(pending := None), p.calls);
        var tools := ExecuteTools(env, p);
        if tools.Next? { AfterToolsIsBounded(env, tools.state); }
      }
    }
  }

  /** Whatever the model and the tools answer: the model is asked no more often than the
      budget allows, and a run that is not broken off ends completed, failed or awaiting
      approval, the last exactly when an approval is pending. */
  lemma {:induction false} RunIsBounded(env: Environment, s: AgentState)
    requires AtPlan(s) && WithinBudget(s)
    ensures Cycle(env, s).state.completions <= Budget(s.maxIterations) && Closed(Cycle(env, s))
    decreases s.maxIterations - s.iteration
  {
    PassIsBounded(env, s);
    PassSpendsBudget(env, s);
    if Pass(env, s).Ended? {
    } else {
      RunIsBounded(env, Pass(env, s).state);
    }
  }

  predicate Increasing(ks: seq<nat>) { forall i, j :: 0 <= i < j < |ks| ==> ks[i] < ks[j] }

  /** `told` are the results at the places `ks`, in order: all of them successes, at most
      five, and no success is left out but earlier ones when there are five. */
  predicate LatestAt(results: seq<ToolResult>, told: seq<ToolResult>, ks: seq<nat>) {
    && Increasing(ks) && |ks| == |told| <= 5
    && (forall i :: 0 <= i < |ks| ==> ks[i] < |results| && results[ks[i]] == told[i] && told[i].success)
    && (forall k :: 0 <= k < |results| && results[k].success && k !in ks ==> |ks| == 5 && k < ks[0])
  }

  ghost predicate LatestSuccesses(results: seq<ToolResult>, told: seq<ToolResult>) {
    exists ks :: LatestAt(results, told, ks)
  }

  /** The last two of the errors, or the only one. */
  predicate LatestErrors(errors: seq<string>, told: seq<string>) {
    && errors != [] && |told| == (if |errors| == 1 then 1 else 2)
    && told[|told| - 1] == errors[|errors| - 1]
    && (|told| == 2 ==> told[0] == errors[|errors| - 2])
  }

  predicate SomeSucceeded(results: seq<ToolResult>) { exists i :: 0 <= i < |results| && results[i].success }

  /** What the user is told fits what happened: the apology exactly for an unreachable
      model, the notice exactly for a pending approval.  Without words of the model it is
      the latest findings, exactly if some call succeeded; or else the latest errors,
      exactly if there are any; or else that nothing was found. */
  ghost predicate Truthful(step: Step) {
    step.Next? ==>
      var s := step.state;
      && s.response.Some?
      && (s.response == Some(Unreachable) <==> s.status.Failure?)
      && (s.response == Some(Waiting) <==> s.pending.Some?)
      && (s.pending.None? && !s.status.Failure? && !s.response.value.Words? ==>
            match s.response.value
            case Found(told) => SomeSucceeded(s.results) && LatestSuccesses(s.results, told)
            case CouldNot(told) => !SomeSucceeded(s.results) && LatestErrors(s.errors, told)
            case NothingFound => !SomeSucceeded(s.results) && s.errors == []
            case _ => false)
  }

  /** `ks` are places of the results `rs`, in order. */
  predicate PlacedAt(results: seq<ToolResult>, rs: seq<ToolResult>, ks: seq<nat>) {
    && Increasing(ks) && |ks| == |rs|
    && forall i :: 0 <= i < |ks| ==> ks[i] < |results| && results[ks[i]] == rs[i]
  }

  predicate AllPlaces(results: seq<ToolResult>, ks: seq<nat>) {
    forall k :: 0 <= k < |results| && results[k].success ==> k in ks
  }

  function Moved(ks: seq<nat>): seq<nat> { seq(|ks|, i requires 0 <= i < |ks| => ks[i] + 1) }

  lemma MovedPlaces(all: seq<ToolResult>, rs: seq<ToolResult>, ks: seq<nat>)
    requires all != [] && PlacedAt(all[1..], rs, ks) && AllPlaces(all[1..], ks)
    ensures PlacedAt(all, rs, Moved(ks)) && forall i :: 0 <= i < |ks| ==> Moved(ks)[i] > 0
    ensures forall k :: 0 < k < |all| && all[k].success ==> k in Moved(ks)
  {
    forall k | 0 < k < |all| && all[k].success ensures k in Moved(ks) {
      assert all[1..][k - 1].success;
      var i :| 0 <= i < |ks| && ks[i] == k - 1;
      assert Moved(ks)[i] == k;
    }
  }

  lemma PrependedPlaces(all: seq<ToolResult>, rs: seq<ToolResult>, ks: seq<nat>)
    requires all != [] && PlacedAt(all, rs, ks) && forall i :: 0 <= i < |ks| ==> ks[i] > 0
    ensures PlacedAt(all, [all[0]] + rs, [0] + ks)
  {
    var more := [0] + ks;
    assert forall i :: 0 < i < |more| ==> more[i] == ks[i - 1] && ([all[0]] + rs)[i] == rs[i - 1];
  }

  lemma AllPlacesWithFirst(all: seq<ToolResult>, ks: seq<nat>)
    requires all != [] && forall k :: 0 < k < |all| && all[k].success ==> k in ks
    ensures AllPlaces(all, [0] + ks) && (!all[0].success ==> AllPlaces(all, ks))
  {
    assert ([0] + ks)[0] == 0;
    forall k | k in ks ensures k in [0] + ks {}
  }

  /** Where the successes are. */
  lemma {:induction false} SuccessPlaces(results: seq<ToolResult>) returns (ks: seq<nat>)
    ensures PlacedAt(results, Successes(results), ks) && AllPlaces(results, ks)
    ensures forall r :: r in Successes(results) ==> r.success
  {
    if results == [] {
      ks := [];
    } else {
      var later := SuccessPlaces(results[1..]);
      MovedPlaces(results, Successes(results[1..]), later);
      PrependedPlaces(results, Successes(results[1..]), Moved(later));
      AllPlacesWithFirst(results, Moved(later));
      ks := if results[0].success then [0] + Moved(later) else Moved(later);
    }
  }

  lemma LastOfIsTail<T>(s: seq<T>, n: nat)
    ensures var d := if n <= |s| then |s| - n else 0; LastOf(s, n) == s[d..]
  {
  }

  /** What is left out of the last `n` places comes before them. */
  lemma EarlierPlace(ks: seq<nat>, n: nat, k: nat)
    requires Increasing(ks) && k in ks && k !in LastOf(ks, n) && n > 0
    ensures |LastOf(ks, n)| == n && k < LastOf(ks, n)[0]
  {
    LastOfIsTail(ks, n);
    var d := if n <= |ks| then |ks| - n else 0;
    var i :| 0 <= i < |ks| && ks[i] == k;
    assert ks == ks[..d] + ks[d..];
    assert i < d;
  }

  lemma LastPlaces(results: seq<ToolResult>, rs: seq<ToolResult>, ks: seq<nat>, n: nat)
    requires PlacedAt(results, rs, ks) && AllPlaces(results, ks) && n > 0
    ensures PlacedAt(results, LastOf(rs, n), LastOf(ks, n))
    ensures forall k :: 0 <= k < |results| && results[k].success && k !in LastOf(ks, n) ==>
              |LastOf(ks, n)| == n && k < LastOf(ks, n)[0]
  {
    forall k | 0 <= k < |results| && results[k].success && k !in LastOf(ks, n)
      ensures |LastOf(ks, n)| == n && k < LastOf(ks, n)[0]
    {
      EarlierPlace(ks, n, k);
    }
  }

  lemma LastFiveAreLatest(results: seq<ToolResult>)
    ensures LatestSuccesses(results, LastOf(Successes(results), 5))
    ensures SomeSucceeded(results) <==> Successes(results) != []
  {
    var ks := SuccessPlaces(results);
    LastPlaces(results, Successes(results), ks, 5);
    assert LatestAt(results, LastOf(Successes(results), 5), LastOf(ks, 5));
    if Successes(results) != [] { assert Successes(results)[0] in Successes(results) && results[ks[0]].success; }
  }

  lemma LastTwoAreLatest(errors: seq<string>)
    requires errors != []
    ensures LatestErrors(errors, LastOf(errors, 2))
  {
  }

  lemma RespondIsTruthful(env: Environment, s: AgentState)
    requires Blank(s.response) || (s.response.value.Words? && s.pending.None?)
    requires !s.status.Failure?
    ensures Truthful(Next(Respond(env, s)))
  {
    LastFiveAreLatest(s.results);
    if s.errors != [] { LastTwoAreLatest(s.errors); }
  }

  lemma PassIsTruthful(env: Environment, s: AgentState)
    requires AtPlan(s)
    ensures Pass(env, s).Ended? ==> Truthful(Pass(env, s).step)
  {
    var plan := Plan(env, s);
    if plan.Next? && !plan.state.status.Failure? {
      if !PlanLeadsToTools(plan.state) {
        RespondIsTruthful(env, plan.state);
      } else {
        ExecuteKeepsBudget(env, plan.state.(pending := None), plan.state.calls);
        var tools := ExecuteTools(env, plan.state);
        if tools.Next? { RespondIsTruthful(env, Validate(tools.state)); }
      }
    }
  }

  lemma {:induction false} RunIsTruthful(env: Environment, s: AgentState)
    requires AtPlan(s) && WithinBudget(s)
    ensures Truthful(Cycle(env, s))
    decreases s.maxIterations - s.iteration
  {
    PassIsTruthful(env, s);
    PassIsBounded(env, s);
    PassSpendsBudget(env, s);
    if Pass(env, s).Ended? {
    } else {
      RunIsTruthful(env, Pass(env, s).state);
    }
  }

  /** The last row this run stored is an answer in the model's own words. */
  predicate Spoken(own: seq<Message>, text: string) {
    text != "" && own != [] && own[|own| - 1] == AssistantTurn(Some(text), [])
  }

  /** An answer reaches the transcript exactly when it is in the model's own words; one
      that is composed without it, or apologises for it, is not stored.  A paused run
      closes the transcript with the notice of what is pending. */
  ghost predicate StoresWhatItSays(env: Environment, step: Step) {
    step.Next? ==>
      var s := step.state;
      match s.pending
      case None => forall text :: s.response == Some(Words(text)) <==> Spoken(s.own, text)
      case Some(approval) =>
        && s.response == Some(Waiting) && s.own != []
        && s.own[|s.own| - 1] == Message(Assistant, Some(env.notice(Waiting, approval)), [], None, None)
  }

  /** Nothing has been stored yet, or a result last. */
  predicate Listening(own: seq<Message>) { own == [] || own[|own| - 1].speaker.Tool? }

  lemma RespondStores(env: Environment, s: AgentState)
    requires if s.response.Some? && s.response.value.Words? && s.response.value.text != ""
             then Spoken(s.own, s.response.value.text) else forall text :: !Spoken(s.own, text)
    requires s.pending.Some? ==> s.response.None?
    ensures StoresWhatItSays(env, Next(Respond(env, s)))
  {
  }

  lemma {:induction false} BatchLeavesListening(env: Environment, s: AgentState, calls: seq<ToolCall>)
    requires calls != [] || Listening(s.own)
    ensures var step := ExecuteFrom(env, s, calls);
            step.Next? ==> Listening(step.state.own) && step.state.response == s.response
    decreases |calls|
  {
    if calls == [] {
    } else if !env.gate(|s.trace|).Crash? && !env.gate(|s.trace|).NeedsApproval? {
      BatchLeavesListening(env, Recorded(env, s, calls[0], env.gate(|s.trace|)), calls[1..]);
    }
  }

  lemma AfterToolsStores(env: Environment, e: AgentState)
    requires Listening(e.own) && e.response.None?
    ensures var turn := AfterTools(env, e);
            if turn.Ended? then StoresWhatItSays(env, turn.step)
            else Listening(turn.state.own) && turn.state.response.None?
  {
    RespondStores(env, Validate(e));
  }

  lemma PassStores(env: Environment, s: AgentState)
    requires AtPlan(s) && Listening(s.own)
    ensures var turn := Pass(env, s);
            if turn.Ended? then StoresWhatItSays(env, turn.step) else Listening(turn.state.own)
  {
    var plan := Plan(env, s);
    if plan.Next? {
      var p := plan.state;
      if !PlanLeadsToTools(p) {
        RespondStores(env, p);
      } else {
        BatchLeavesListening(env, p.(pending := None), p.calls);
        var tools := ExecuteTools(env, p);
        if tools.Next? { AfterToolsStores(env, tools.state); }
      }
    }
  }

  lemma {:induction false} RunStoresWhatItSays(env: Environment, s: AgentState)
    requires AtPlan(s) && WithinBudget(s) && Listening(s.own)
    ensures StoresWhatItSays(env, Cycle(env, s))
    decreases s.maxIterations - s.iteration
  {
    PassStores(env, s);
    PassIsBounded(env, s);
    PassSpendsBudget(env, s);
    if Pass(env, s).Ended? {
    } else {
      RunStoresWhatItSays(env, Pass(env, s).state);
    }
  }

  // --------------------------------------------------------- what ends a run, and not --

  lemma OneCallExecutes(env: Environment, p: AgentState, call: ToolCall)
    requires p.calls == [call] && p.pending.None?
    ensures var outcome := env.gate(|p.trace|);
            ExecuteTools(env, p) ==
              if outcome.Crash? then Abort(p.(trace := p.trace + [Executed(call, outcome)]))
              else
                var r := Recorded(env, p, call, outcome).(calls := []);
                Next(if outcome.NeedsApproval? then r.(pending := Some(outcome.approval)) else r)
  {
    assert p.(pending := None) == p && p.calls[1..] == [];
    var outcome := env.gate(|p.trace|);
    if !outcome.Crash? {
      var r := Recorded(env, p, call, outcome);
      assert ExecuteFrom(env, r, p.calls[1..]) == Next(r);
    }
  }

  /** The state in which a single proposed call is executed. */
  function Proposed(env: Environment, s: AgentState, call: ToolCall): AgentState {
    var turn := AssistantTurn(None, [call]);
    Append(env, s, turn).(
      completions := s.completions + 1, iteration := s.iteration + 1, calls := [call], response := None,
      history := s.history + [turn], batches := s.batches + [[call]])
  }

  /** A pass with one proposed call, from the plan to the router. */
  lemma ProposalPasses(env: Environment, s: AgentState, call: ToolCall)
    requires AtPlan(s) && !Exhausted(s) && env.llm(s.completions, s.history) == Reply(None, [call])
    ensures var p := Proposed(env, s, call);
            var outcome := env.gate(|s.trace|);
            Pass(env, s) ==
              if outcome.Crash? then Ended(Abort(p.(trace := p.trace + [Executed(call, outcome)])))
              else
                var r := Recorded(env, p, call, outcome).(calls := []);
                AfterTools(env, if outcome.NeedsApproval? then r.(pending := Some(outcome.approval)) else r)
  {
    assert Plan(env, s) == Next(Proposed(env, s, call));
    OneCallExecutes(env, Proposed(env, s, call), call);
  }

  predicate SameProgress(s: AgentState, t: AgentState) {
    && s.batches == t.batches && s.completions == t.completions && s.iteration == t.iteration
    && s.pending == t.pending && s.maxIterations == t.maxIterations
  }

  /** After a batch the run goes on unless it paused or spent its budget. */
  lemma BatchLeadsOn(env: Environment, e: AgentState)
    requires e.calls == [] && e.response.None? && e.status.Running?
    ensures var turn := AfterTools(env, e);
            && (turn.Again? <==> e.pending.None? && !Exhausted(e))
            && (turn.Again? ==> AtPlan(turn.state) && SameProgress(turn.state, e) && turn.state.history == e.history)
            && (turn.Ended? ==> turn.step.Next? && SameProgress(turn.step.state, e))
  {
  }

  predicate AllFail(results: seq<ToolResult>) { forall i :: 0 <= i < |results| ==> !results[i].success }

  lemma {:induction false} FailuresOfAllFail(results: seq<ToolResult>)
    requires AllFail(results)
    ensures Failures(results) == results
  {
    if results == [] {
    } else {
      FailuresOfAllFail(results[1..]);
    }
  }

  lemma {:induction false} FailingBatch(env: Environment, s: AgentState, calls: seq<ToolCall>)
    requires AllFail(s.results) && forall n :: env.gate(n).Failed?
    ensures var step := ExecuteFrom(env, s, calls);
            && step.Next? && step.state.pending == s.pending
            && AllFail(step.state.results) && |step.state.results| == |s.results| + |calls|
    decreases |calls|
  {
    if calls == [] {
    } else {
      FailingBatch(env, Recorded(env, s, calls[0], env.gate(|s.trace|)), calls[1..]);
    }
  }

  /** The model never answers and every call fails. */
  ghost predicate Hopeless(env: Environment) {
    && (forall n, history :: env.llm(n, history).Reply? && env.llm(n, history).calls != [])
    && forall n :: env.gate(n).Failed?
  }

  /** "Repeated failures" is an entry in the errors, and the run goes on. */
  lemma FailingPassGoesOn(env: Environment, s: AgentState)
    requires Hopeless(env) && AtPlan(s) && AllFail(s.results) && !Exhausted(s)
    ensures var turn := Pass(env, s);
            && (turn.Again? <==> s.iteration + 1 < s.maxIterations)
            && var after := if turn.Again? then turn.state else turn.step.state;
               && AllFail(after.results)
               && (s.iteration >= 1 ==> STOPPING in after.errors)
               && (turn.Ended? ==> turn.step.Next? && after.completions == s.completions + 1
                                   && after.status.Completed?)
  {
    var p := Plan(env, s).state;
    ExecuteKeepsBudget(env, p.(pending := None), p.calls);
    FailingBatch(env, p.(pending := None), p.calls);
    var e := ExecuteTools(env, p).state;
    BatchLeadsOn(env, e);
    FailuresOfAllFail(e.results);
    assert s.iteration >= 1 ==> Validate(e).errors[|Validate(e).errors| - 1] == STOPPING;
  }

  /** A run in which every call fails spends its whole budget and ends completed; from the
      second failing batch on the errors say that it is stopping. */
  lemma {:induction false} FailingRunSpendsBudget(env: Environment, s: AgentState)
    requires Hopeless(env) && AtPlan(s) && WithinBudget(s) && AllFail(s.results)
    ensures var step := Cycle(env, s);
            && step.Next? && step.state.status.Completed?
            && step.state.completions == (if Exhausted(s) then s.completions else s.maxIterations)
            && (s.iteration < s.maxIterations && s.maxIterations >= 2 ==> STOPPING in step.state.errors)
    decreases s.maxIterations - s.iteration
  {
    if Exhausted(s) {
    } else {
      FailingPassGoesOn(env, s);
      PassIsBounded(env, s);
      PassSpendsBudget(env, s);
      if Pass(env, s).Again? { FailingRunSpendsBudget(env, Pass(env, s).state); }
    }
  }

  // -------------------------------------------------------- proposed and executed --

  function Flatten(batches: seq<seq<ToolCall>>): seq<ToolCall> {
    if batches == [] then [] else Flatten(batches[..|batches| - 1]) + batches[|batches| - 1]
  }

  function Calls(trace: seq<Executed>): seq<ToolCall> { seq(|trace|, i requires 0 <= i < |trace| => trace[i].call) }

  predicate Unpaused(trace: seq<Executed>) {
    forall i :: 0 <= i < |trace| ==> !trace[i].outcome.NeedsApproval?
  }

  /** One result per executed call, in order, each the one its outcome gave. */
  predicate Answered(s: AgentState) {
    && |s.results| == |s.trace|
    && forall i :: 0 <= i < |s.trace| ==> Reflects(s.results[i], s.trace[i].call, s.trace[i].outcome)
  }

  /** A result carries the call it answers; it succeeds exactly if the call did, and says
      what the gateway said. */
  predicate Reflects(r: ToolResult, call: ToolCall, outcome: Outcome) {
    && r.callId == call.id && r.toolName == call.name && (r.success <==> outcome.Succeeded?)
    && match outcome
       case Succeeded(content, structured) => r.content == content && r.structured == structured && r.error == None
       case NeedsApproval(a) =>
         && r.content == "This action needs your approval before it can run: " + a.summary + " (" + a.reason + ")"
         && r.structured == None && r.error == Some(r.content)
       case Crash => false
       case _ => r.content == outcome.message && r.structured == None && r.error == Some(outcome.message)
  }

  /** Nothing is paused unless the very last call is, and then that is what is pending. */
  predicate PausedOnlyAtEnd(s: AgentState) {
    match s.pending
    case None => Unpaused(s.trace)
    case Some(a) =>
      && s.trace != [] && s.trace[|s.trace| - 1].outcome == NeedsApproval(a)
      && Unpaused(s.trace[..|s.trace| - 1])
  }

  /** Every batch but the last was executed completely and in order, of the last one a
      prefix; nothing else was executed. */
  predicate OnlyLastBatchCut(s: AgentState) {
    && Calls(s.trace) <= Flatten(s.batches)
    && (s.batches != [] ==> Flatten(s.batches[..|s.batches| - 1]) <= Calls(s.trace))
  }

  /** A run broken off while executing: everything before the last call is in order. */
  predicate BrokenOff(s: AgentState) {
    && s.trace != [] && s.trace[|s.trace| - 1].outcome.Crash?
    && Answered(s.(trace := s.trace[..|s.trace| - 1])) && Unpaused(s.trace[..|s.trace| - 1])
  }

  lemma RecordedIsAnswered(env: Environment, s: AgentState, call: ToolCall, outcome: Outcome)
    requires Answered(s) && Unpaused(s.trace) && !outcome.Crash?
    ensures Answered(Recorded(env, s, call, outcome))
    ensures Calls(Recorded(env, s, call, outcome).trace) == Calls(s.trace) + [call]
    ensures Recorded(env, s, call, outcome).trace[..|s.trace|] == s.trace
    ensures !outcome.NeedsApproval? ==> Unpaused(Recorded(env, s, call, outcome).trace)
  {
  }

  lemma CrashedIsBrokenOff(s: AgentState, call: ToolCall)
    requires Answered(s) && Unpaused(s.trace)
    ensures BrokenOff(s.(trace := s.trace + [Executed(call, Crash)]))
    ensures Calls(s.trace + [Executed(call, Crash)]) == Calls(s.trace) + [call]
  {
    assert (s.trace + [Executed(call, Crash)])[..|s.trace|] == s.trace;
  }

  lemma {:induction false} BatchIsAnswered(env: Environment, s: AgentState, calls: seq<ToolCall>)
    requires Answered(s) && Unpaused(s.trace) && s.pending.None?
    ensures var step := ExecuteFrom(env, s, calls);
            if step.Next? then Answered(step.state) && PausedOnlyAtEnd(step.state)
            else BrokenOff(step.state) && step.state.pending.None?
    decreases |calls|
  {
    if calls == [] {
    } else if env.gate(|s.trace|).Crash? {
      CrashedIsBrokenOff(s, calls[0]);
    } else {
      RecordedIsAnswered(env, s, calls[0], env.gate(|s.trace|));
      if !env.gate(|s.trace|).NeedsApproval? {
        BatchIsAnswered(env, Recorded(env, s, calls[0], env.gate(|s.trace|)), calls[1..]);
      }
    }
  }

  /** `n` of the calls were executed: all of them, unless one paused or broke off the run. */
  lemma {:induction false} BatchRunsInOrder(env: Environment, s: AgentState, calls: seq<ToolCall>) returns (n: nat)
    requires Answered(s) && Unpaused(s.trace) && s.pending.None?
    ensures var step := ExecuteFrom(env, s, calls);
            && n <= |calls| && Calls(step.state.trace) == Calls(s.trace) + calls[..n]
            && (step.Next? && step.state.pending.None? ==> n == |calls|)
    decreases |calls|
  {
    if calls == [] {
      n := 0;
    } else if env.gate(|s.trace|).Crash? {
      CrashedIsBrokenOff(s, calls[0]);
      assert calls[..1] == [calls[0]];
      n := 1;
    } else {
      var next := Recorded(env, s, calls[0], env.gate(|s.trace|));
      RecordedIsAnswered(env, s, calls[0], env.gate(|s.trace|));
      if env.gate(|s.trace|).NeedsApproval? {
        assert calls[..1] == [calls[0]];
        n := 1;
      } else {
        var m := BatchRunsInOrder(env, next, calls[1..]);
        PrefixOfLonger(Calls(s.trace), calls, m);
        n := m + 1;
      }
    }
  }

  lemma PrefixOfLonger(before: seq<ToolCall>, calls: seq<ToolCall>, n: nat)
    requires n < |calls|
    ensures before + [calls[0]] + calls[1..][..n] == before + calls[..n + 1]
  {
  }

  lemma FlattenOfAppend(batches: seq<seq<ToolCall>>, batch: seq<ToolCall>)
    ensures Flatten(batches + [batch]) == Flatten(batches) + batch
    ensures (batches + [batch])[..|batches|] == batches
  {
  }

  /** What holds between two planning passes. */
  predicate AllBatchesRan(s: AgentState) {
    Answered(s) && Unpaused(s.trace) && Calls(s.trace) == Flatten(s.batches)
  }

  /** How a run, or a batch of it, may end. */
  predicate Accounted(step: Step) {
    && OnlyLastBatchCut(step.state)
    && (step.Next? ==>
          && Answered(step.state) && PausedOnlyAtEnd(step.state)
          && (step.state.pending.None? ==> AllBatchesRan(step.state)))
    && (step.Abort? ==> step.state.pending.None? && (AllBatchesRan(step.state) || BrokenOff(step.state)))
  }

  /** One batch, from what was proposed to what was executed. */
  lemma BatchAccounts(env: Environment, s: AgentState, batch: seq<ToolCall>)
    requires AllBatchesRan(s) && s.pending.None?
    ensures Accounted(ExecuteFrom(env, s.(batches := s.batches + [batch]), batch))
  {
    var p := s.(batches := s.batches + [batch]);
    FlattenOfAppend(s.batches, batch);
    ExecuteKeepsBudget(env, p, batch);
    BatchIsAnswered(env, p, batch);
    var n := BatchRunsInOrder(env, p, batch);
    CutIsPrefix(Flatten(s.batches), batch, n);
  }

  lemma CutIsPrefix(before: seq<ToolCall>, batch: seq<ToolCall>, n: nat)
    requires n <= |batch|
    ensures before <= before + batch[..n] <= before + batch
    ensures n == |batch| ==> batch[..n] == batch
  {
  }

  lemma RespondKeepsRecord(env: Environment, s: AgentState)
    ensures var s' := Respond(env, s);
            s'.trace == s.trace && s'.results == s.results && s'.batches == s.batches && s'.pending == s.pending
  {
  }

  lemma AfterToolsAccounts(env: Environment, e: AgentState)
    requires Accounted(Next(e)) && e.calls == []
    ensures var turn := AfterTools(env, e);
            && (turn.Ended? ==> Accounted(turn.step))
            && (turn.Again? ==> AllBatchesRan(turn.state))
  {
    RespondKeepsRecord(env, Validate(e));
    SameRecordAccounts(e, Validate(e));
    SameRecordAccounts(e, Respond(env, Validate(e)));
  }

  lemma SameRecordAccounts(s: AgentState, t: AgentState)
    requires Accounted(Next(s))
    requires s.trace == t.trace && s.results == t.results && s.batches == t.batches && s.pending == t.pending
    ensures Accounted(Next(t)) && (AllBatchesRan(s) <==> AllBatchesRan(t))
  {
  }

  lemma ToolsAccount(env: Environment, s: AgentState, p: AgentState)
    requires AllBatchesRan(s) && p.batches == s.batches + [p.calls]
    requires p.results == s.results && p.trace == s.trace
    ensures Accounted(ExecuteTools(env, p)) && (ExecuteTools(env, p).Next? ==> ExecuteTools(env, p).state.calls == [])
  {
    BatchAccounts(env, p.(pending := None, batches := s.batches), p.calls);
    assert p.(pending := None, batches := s.batches).(batches := s.batches + [p.calls]) == p.(pending := None);
  }

  /** What was proposed is recorded; an answer without calls leaves nothing to execute. */
  lemma PlanAccounts(env: Environment, s: AgentState)
    requires AtPlan(s) && AllBatchesRan(s)
    ensures var plan := Plan(env, s);
            if plan.Next? && PlanLeadsToTools(plan.state) then
              && plan.state.batches == s.batches + [plan.state.calls]
              && plan.state.results == s.results && plan.state.trace == s.trace
            else Accounted(plan)
  {
    var plan := Plan(env, s);
    if plan.state.batches != s.batches {
      if plan.state.calls == [] { EmptyBatchRan(s, plan.state); }
    } else {
      SameRecordRan(s, plan.state);
    }
    if AllBatchesRan(plan.state) { RanAccounts(plan.state); }
  }

  lemma RanAccounts(s: AgentState)
    requires AllBatchesRan(s) && s.pending.None?
    ensures Accounted(Next(s)) && Accounted(Abort(s))
  {
  }

  lemma SameRecordRan(s: AgentState, t: AgentState)
    requires AllBatchesRan(s)
    requires s.trace == t.trace && s.results == t.results && s.batches == t.batches
    ensures AllBatchesRan(t)
  {
  }

  lemma EmptyBatchRan(s: AgentState, t: AgentState)
    requires AllBatchesRan(s)
    requires s.trace == t.trace && s.results == t.results && t.batches == s.batches + [[]]
    ensures AllBatchesRan(t)
  {
    FlattenOfAppend(s.batches, []);
  }

  lemma PassAccounts(env: Environment, s: AgentState)
    requires AtPlan(s) && AllBatchesRan(s)
    ensures var turn := Pass(env, s);
            && (turn.Ended? ==> Accounted(turn.step))
            && (turn.Again? ==> AllBatchesRan(turn.state))
  {
    var plan := Plan(env, s);
    PlanAccounts(env, s);
    if plan.Next? {
      if PlanLeadsToTools(plan.state) {
        ToolsAccount(env, s, plan.state);
        var tools := ExecuteTools(env, plan.state);
        if tools.Next? { AfterToolsAccounts(env, tools.state); }
      } else {
        RespondKeepsRecord(env, plan.state);
        SameRecordAccounts(plan.state, Respond(env, plan.state));
      }
    }
  }

  /** Over a whole run: results answer executed calls one to one and in order; every
      batch but the last was executed completely; when the run pauses, the last batch
      was executed up to and including the call that needs approval and no further, so
      at most one approval is ever raised. */
  lemma {:induction false} RunAccounts(env: Environment, s: AgentState)
    requires AtPlan(s) && WithinBudget(s) && AllBatchesRan(s)
    ensures Accounted(Cycle(env, s))
    decreases s.maxIterations - s.iteration
  {
    PassAccounts(env, s);
    PassIsBounded(env, s);
    PassSpendsBudget(env, s);
    if Pass(env, s).Ended? {
    } else {
      RunAccounts(env, Pass(env, s).state);
    }
  }

  /** Every run, from its opening. */
  lemma EveryRun(
    env: Environment, rows: seq<Message>, text: string, window: nat, toolsAvailable: bool, maxIterations: int)
    ensures var step := Run(env, rows, text, window, toolsAvailable, maxIterations);
            && step.state.completions <= Budget(maxIterations)
            && Closed(step) && Accounted(step)
  {
    var start := Opening(env, rows, text, window, toolsAvailable, maxIterations);
    RunIsBounded(env, start);
    RunAccounts(env, start);
  }
}
