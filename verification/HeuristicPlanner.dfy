/** The rule-based stand-in for a model (`app/providers/llm/heuristic_provider.py`), and
    what the agent does when it is planned by it.  The patterns, the argument builders
    and the closing prose are given functions. */
module HeuristicPlanner {
  import opened Json
  import opened Transcript
  import opened AgentLoop
  import AgentTranscript
  import CanonicalJson

  /** The tool sequences of the intent table, in its order. */
  const STEPS: seq<seq<string>> := [
    ["crm__get_leads", "email__draft_email", "email__send_email"],
    ["tasks__get_overdue_tasks"],
    ["calendar__get_todays_meetings"],
    ["spreadsheets__generate_weekly_report"],
    ["spreadsheets__get_sales_summary"],
    ["crm__create_lead"],
    ["tasks__create_task"],
    ["crm__search_leads"],
    ["crm__get_leads"],
    ["tasks__get_tasks"]]

  const LONGEST := 3

  /** `intent` is the position of the first intent whose patterns match. */
  datatype Rules = Rules(
    intent: string -> Option<nat>,
    build: (string, string, map<string, string>) -> seq<Field>,
    summary: (string, map<string, string>) -> string)

  function StepsFor(rules: Rules, text: string): seq<string> {
    var k := rules.intent(text);
    if k.Some? && k.value < |STEPS| then STEPS[k.value] else []
  }

  function LatestUserText(ms: seq<Message>): string {
    if ms == [] then ""
    else
      var m := ms[|ms| - 1];
      if m.speaker.User? && m.content.Some? && m.content.value != "" then m.content.value
      else LatestUserText(ms[..|ms| - 1])
  }

  /** The messages from the latest user message on, or all of them. */
  function CurrentTurn(ms: seq<Message>): seq<Message> {
    if ms == [] then []
    else if ms[|ms| - 1].speaker.User? then [ms[|ms| - 1]]
    else CurrentTurn(ms[..|ms| - 1]) + [ms[|ms| - 1]]
  }

  predicate IsResult(m: Message) { m.speaker.Tool? && m.toolName.Some? && m.toolName.value != "" }

  function ResultText(m: Message): string {
    if m.content.Some? && m.content.value != "" then m.content.value else "null"
  }

  function Collect(ms: seq<Message>): map<string, string> {
    if ms == [] then map[]
    else
      var m := ms[|ms| - 1];
      var before := Collect(ms[..|ms| - 1]);
      if IsResult(m) then before[m.toolName.value := ResultText(m)] else before
  }

  function Gathered(ms: seq<Message>): map<string, string> { Collect(CurrentTurn(ms)) }

  function FirstMissing(steps: seq<string>, gathered: map<string, string>, available: set<string>): Option<string> {
    if steps == [] then None
    else if steps[0] in gathered || steps[0] !in available then FirstMissing(steps[1..], gathered, available)
    else Some(steps[0])
  }

  function CallFor(rules: Rules, tool: string, text: string, gathered: map<string, string>): ToolCall {
    ToolCall("heuristic_" + CanonicalJson.Decimal(|gathered|) + "_" + tool, tool, rules.build(tool, text, gathered))
  }

  function Complete(rules: Rules, available: set<string>, ms: seq<Message>): Completion {
    var text, gathered := LatestUserText(ms), Gathered(ms);
    match FirstMissing(StepsFor(rules, text), gathered, available)
    case Some(tool) => Reply(None, [CallFor(rules, tool, text, gathered)])
    case None => Reply(Some(rules.summary(text, gathered)), [])
  }

  // ------------------------------------------------------------ the provider's loops --

  method CurrentTurnOf(messages: seq<Message>) returns (turn: seq<Message>)
    ensures turn == CurrentTurn(messages)
  {
    var i := |messages|;
    assert messages[..i] == messages;
    while i > 0
      invariant 0 <= i <= |messages|
      invariant CurrentTurn(messages) == CurrentTurn(messages[..i]) + messages[i..]
    {
      assert messages[..i][..i - 1] == messages[..i - 1];
      assert messages[i - 1..] == [messages[i - 1]] + messages[i..];
      if messages[i - 1].speaker.User? { return messages[i - 1..]; }
      i := i - 1;
    }
    return messages;
  }

  method CollectToolResults(messages: seq<Message>) returns (results: map<string, string>)
    ensures results == Gathered(messages)
  {
    var turn := CurrentTurnOf(messages);
    results := map[];
    for i := 0 to |turn|
      invariant results == Collect(turn[..i])
    {
      assert turn[..i + 1][..i] == turn[..i];
      if turn[i].speaker.Tool? && turn[i].toolName.Some? && turn[i].toolName.value != "" {
        results := results[turn[i].toolName.value := ResultText(turn[i])];
      }
    }
    assert turn[..|turn|] == turn;
  }

  /** `complete`: the first step that is neither done nor missing from the catalog. */
  method CompleteTurn(rules: Rules, available: set<string>, messages: seq<Message>) returns (completion: Completion)
    ensures completion == Complete(rules, available, messages)
  {
    var text := LatestUserText(messages);
    var gathered := CollectToolResults(messages);
    var steps := StepsFor(rules, text);
    for i := 0 to |steps|
      invariant FirstMissing(steps, gathered, available) == FirstMissing(steps[i..], gathered, available)
    {
      if steps[i] !in gathered && steps[i] in available {
        return Reply(None, [CallFor(rules, steps[i], text, gathered)]);
      }
    }
    completion := Reply(Some(rules.summary(text, gathered)), []);
  }

  // ------------------------------------------------------- what the planner goes by --

  /** A user's message that says something. */
  predicate Speaks(m: Message) { m.speaker.User? && m.content.Some? && m.content.value != "" }

  /** The text the intent is taken from is that of the latest such message, or nothing. */
  lemma {:induction false} LatestUserTextExactly(ms: seq<Message>, i: nat)
    requires i < |ms| ==> Speaks(ms[i])
    requires forall j :: i < j < |ms| ==> !Speaks(ms[j])
    requires i >= |ms| ==> forall j :: 0 <= j < |ms| ==> !Speaks(ms[j])
    ensures LatestUserText(ms) == if i < |ms| then ms[i].content.value else ""
  {
    if ms == [] || i == |ms| - 1 {
    } else {
      LatestUserTextExactly(ms[..|ms| - 1], if i >= |ms| then |ms| - 1 else i);
    }
  }

  /** Message `i` is a result of `tool`, and since it neither the user has spoken nor
      another result of that tool has come. */
  predicate LatestResult(ms: seq<Message>, tool: string, i: nat) {
    && i < |ms| && ms[i].speaker.Tool? && ms[i].toolName == Some(tool) && tool != ""
    && forall j :: i < j < |ms| ==> !ms[j].speaker.User? && !(ms[j].speaker.Tool? && ms[j].toolName == Some(tool))
  }

  /** What counts as gathered is the latest result of each tool in the user's turn, */
  lemma {:induction false} LatestResultIsGathered(ms: seq<Message>, tool: string, i: nat)
    requires LatestResult(ms, tool, i)
    ensures tool in Gathered(ms)
    ensures Gathered(ms)[tool] ==
              if ms[i].content.None? || ms[i].content == Some("") then "null" else ms[i].content.value
  {
    var m := ms[|ms| - 1];
    assert ms == ms[..|ms| - 1] + [m];
    AppendToTurn(ms[..|ms| - 1], m);
    if i < |ms| - 1 { LatestResultIsGathered(ms[..|ms| - 1], tool, i); }
  }

  /** and nothing else. */
  lemma {:induction false} GatheredIsALatestResult(ms: seq<Message>, tool: string) returns (i: nat)
    requires tool in Gathered(ms)
    ensures LatestResult(ms, tool, i)
  {
    var m := ms[|ms| - 1];
    assert ms == ms[..|ms| - 1] + [m];
    if m.speaker.User? { UserStartsAfresh(ms[..|ms| - 1], m); }
    AppendToTurn(ms[..|ms| - 1], m);
    if IsResult(m) && m.toolName == Some(tool) {
      i := |ms| - 1;
    } else {
      i := GatheredIsALatestResult(ms[..|ms| - 1], tool);
    }
  }

  lemma UserStartsAfresh(ms: seq<Message>, m: Message)
    requires m.speaker.User?
    ensures Gathered(ms + [m]) == map[]
  {
    assert CurrentTurn(ms + [m]) == [m] && [m][..0] == [];
    assert Collect([]) == map[];
  }

  /** Assistant and tool messages leave the user's text alone; a named result is gathered. */
  lemma AppendToTurn(ms: seq<Message>, m: Message)
    requires !m.speaker.User?
    ensures LatestUserText(ms + [m]) == LatestUserText(ms)
    ensures Gathered(ms + [m])
            == if IsResult(m) then Gathered(ms)[m.toolName.value := ResultText(m)] else Gathered(ms)
  {
    assert (ms + [m])[..|ms|] == ms;
    assert (CurrentTurn(ms) + [m])[..|CurrentTurn(ms)|] == CurrentTurn(ms);
  }

  /** The planner's answer: the first step of the intent that is available and not gathered
      yet, built from the user's text and what is gathered, under an id that counts that;
      or, with no such step, the summary. */
  lemma {:induction false} CompletesExactly(rules: Rules, available: set<string>, ms: seq<Message>, k: nat)
    requires var steps := StepsFor(rules, LatestUserText(ms));
             && k <= |steps| && (k < |steps| ==> steps[k] !in Gathered(ms) && steps[k] in available)
             && forall i :: 0 <= i < k ==> steps[i] in Gathered(ms) || steps[i] !in available
    ensures var text, gathered := LatestUserText(ms), Gathered(ms);
            var steps := StepsFor(rules, text);
            Complete(rules, available, ms) ==
              if k == |steps| then Reply(Some(rules.summary(text, gathered)), [])
              else Reply(None, [ToolCall("heuristic_" + CanonicalJson.Decimal(|gathered|) + "_" + steps[k], steps[k],
                                         rules.build(steps[k], text, gathered))])
  {
    FirstMissingIsAt(StepsFor(rules, LatestUserText(ms)), Gathered(ms), available, k);
  }

  lemma {:induction false} FirstMissingIsAt(
    steps: seq<string>, gathered: map<string, string>, available: set<string>, k: nat)
    requires k <= |steps| && (k < |steps| ==> steps[k] !in gathered && steps[k] in available)
    requires forall i :: 0 <= i < k ==> steps[i] in gathered || steps[i] !in available
    ensures FirstMissing(steps, gathered, available) == if k == |steps| then None else Some(steps[k])
  {
    if k == 0 {
    } else {
      FirstMissingIsAt(steps[1..], gathered, available, k - 1);
    }
  }

  // ---------------------------------------------------------- planning a whole turn --

  function Available(steps: seq<string>, available: set<string>): seq<string> {
    if steps == [] then []
    else (if steps[0] in available then [steps[0]] else []) + Available(steps[1..], available)
  }

  predicate Distinct(steps: seq<string>) { forall i, j :: 0 <= i < j < |steps| ==> steps[i] != steps[j] }

  /** No sequence of the table repeats a tool, and none is longer than `LONGEST`. */
  lemma StepsAreDistinctAndShort(rules: Rules, text: string)
    ensures Distinct(StepsFor(rules, text)) && |StepsFor(rules, text)| <= LONGEST
  {
    var k := rules.intent(text);
    if k.Some? && k.value < |STEPS| {
      assert |STEPS[0]| == 3 && STEPS[0][0][0] != STEPS[0][1][0] && STEPS[0][0][0] != STEPS[0][2][0]
             && STEPS[0][1][7] != STEPS[0][2][7];
      assert k.value != 0 ==> |STEPS[k.value]| == 1;
    }
  }

  lemma {:induction false} AvailableAreSteps(steps: seq<string>, available: set<string>, t: string)
    ensures t in Available(steps, available) <==> t in steps && t in available
    ensures |Available(steps, available)| <= |steps|
  {
    if steps == [] {
    } else {
      AvailableAreSteps(steps[1..], available, t);
      assert steps == [steps[0]] + steps[1..];
    }
  }

  /** With the first `n` available steps gathered, the next one is proposed. */
  lemma {:induction false} NextStepIsProposed(
    steps: seq<string>, available: set<string>, gathered: map<string, string>, n: nat)
    requires Distinct(steps) && n <= |Available(steps, available)|
    requires forall t :: t in steps ==> (t in gathered <==> t in Available(steps, available)[..n])
    ensures FirstMissing(steps, gathered, available)
            == if n < |Available(steps, available)| then Some(Available(steps, available)[n]) else None
  {
    if steps == [] {
    } else {
      var rest := Available(steps[1..], available);
      AvailableAreSteps(steps[1..], available, steps[0]);
      if steps[0] !in available {
        assert Available(steps, available) == rest;
        AvailableAreSteps(steps, available, steps[0]);
        NextStepIsProposed(steps[1..], available, gathered, n);
      } else {
        assert Available(steps, available) == [steps[0]] + rest;
        if n > 0 {
          assert Available(steps, available)[..n] == [steps[0]] + rest[..n - 1];
          NextStepIsProposed(steps[1..], available, gathered, n - 1);
        }
      }
    }
  }

  /** The calls propose these tools in order, and their ids count on from `base`. */
  predicate Asks(calls: seq<ToolCall>, tools: seq<string>, base: nat) {
    && |calls| == |tools|
    && forall i :: 0 <= i < |calls| ==>
         calls[i].name == tools[i]
         && calls[i].id == "heuristic_" + CanonicalJson.Decimal(base + i) + "_" + tools[i]
  }

  lemma CountedIdsDiffer(a: nat, b: nat, x: string, y: string)
    requires "heuristic_" + CanonicalJson.Decimal(a) + "_" + x == "heuristic_" + CanonicalJson.Decimal(b) + "_" + y
    ensures a == b
  {
    var s := "heuristic_" + CanonicalJson.Decimal(a) + "_" + x;
    var n := |"heuristic_"|;
    assert s[n..] == CanonicalJson.Decimal(a) + ("_" + x);
    assert s[n..] == CanonicalJson.Decimal(b) + ("_" + y);
    CanonicalJson.DecimalReads(a, "_" + x);
    CanonicalJson.DecimalReads(b, "_" + y);
  }

  /** No two calls of a turn share an id, so no result can answer the wrong call. */
  lemma AskedIdsAreDistinct(calls: seq<ToolCall>, tools: seq<string>, base: nat, i: nat, j: nat)
    requires Asks(calls, tools, base) && i < |calls| && j < |calls|
    ensures calls[i].id == calls[j].id <==> i == j
  {
    if calls[i].id == calls[j].id { CountedIdsDiffer(base + i, base + j, tools[i], tools[j]); }
  }

  /** The environment is this planner: it answers from the history alone. */
  ghost predicate Planned(env: Environment, rules: Rules, available: set<string>) {
    forall n, history :: env.llm(n, history) == Complete(rules, available, history)
  }

  /** `n` of the steps to do have been proposed and answered, one in each pass.  What there
      is to do are the available steps whose results the history did not hold at the start. */
  predicate OnTrack(
    steps: seq<string>, available: set<string>, had: set<string>, text: string, s: AgentState, n: nat)
  {
    var todo := Available(steps, available - had);
    && AtPlan(s) && n <= |todo| && s.iteration == n && s.completions == n
    && LatestUserText(s.history) == text
    && had <= Gathered(s.history).Keys
    && (forall t :: t in steps ==> (t in Gathered(s.history) <==> t in had || t in todo[..n]))
    && |Gathered(s.history)| == |had| + n
    && Asks(Flatten(s.batches), todo[..n], |had|)
  }

  /** What a turn comes to: an order-preserving, duplicate-free prefix of the available
      steps was proposed, in at most one completion more than there are steps; and all of
      them were, if nothing paused or broke off the run and the budget is large enough. */
  predicate Planfully(todo: seq<string>, base: nat, maxIterations: int, step: Step) {
    var done := step.state;
    var asked := Flatten(done.batches);
    && |asked| <= |todo| && Asks(asked, todo[..|asked|], base)
    && done.completions <= |todo| + 1
    && (step.Next? && done.pending.None? && maxIterations > |todo| ==>
          |asked| == |todo| && done.batches != [] && done.batches[|done.batches| - 1] == [])
  }

  lemma OneMoreAsked(batches: seq<seq<ToolCall>>, todo: seq<string>, n: nat, base: nat, call: ToolCall)
    requires n < |todo| && Asks(Flatten(batches), todo[..n], base) && call.name == todo[n]
    requires call.id == "heuristic_" + CanonicalJson.Decimal(base + n) + "_" + todo[n]
    ensures Asks(Flatten(batches + [[call]]), todo[..n + 1], base)
  {
    FlattenOfAppend(batches, [call]);
  }

  /** A result that is already there counts for the planner like a tool that is not. */
  lemma {:induction false} GatheredStepsAreSkipped(
    steps: seq<string>, gathered: map<string, string>, available: set<string>, had: set<string>)
    requires had <= gathered.Keys
    ensures FirstMissing(steps, gathered, available) == FirstMissing(steps, gathered - had, available - had)
  {
    if steps == [] {
    } else {
      GatheredStepsAreSkipped(steps[1..], gathered, available, had);
    }
  }

  lemma AvailableAreFresh(steps: seq<string>, available: set<string>, had: set<string>)
    ensures forall t :: t in Available(steps, available - had) ==> t !in had
  {
    forall t | t in Available(steps, available - had) ensures t !in had {
      AvailableAreSteps(steps, available - had, t);
    }
  }

  /** What the planner says when it is on track. */
  lemma OnTrackCompletes(
    env: Environment, rules: Rules, available: set<string>, had: set<string>, text: string, s: AgentState,
    n: nat)
    requires Planned(env, rules, available) && OnTrack(StepsFor(rules, text), available, had, text, s, n)
    ensures var todo := Available(StepsFor(rules, text), available - had);
            var reply := env.llm(s.completions, s.history);
            && reply.Reply?
            && (if n < |todo| then
                  && |reply.calls| == 1 && reply.content.None? && reply.calls[0].name == todo[n]
                  && reply.calls[0].id == "heuristic_" + CanonicalJson.Decimal(|had| + n) + "_" + todo[n]
                else reply.calls == [])
  {
    StepsAreDistinctAndShort(rules, text);
    var steps, gathered := StepsFor(rules, text), Gathered(s.history);
    AvailableAreFresh(steps, available, had);
    GatheredStepsAreSkipped(steps, gathered, available, had);
    NextStepIsProposed(steps, available - had, gathered - had, n);
  }

  lemma {:induction false} AvailableAreDistinct(steps: seq<string>, available: set<string>)
    requires Distinct(steps)
    ensures Distinct(Available(steps, available))
  {
    if steps == [] {
    } else {
      AvailableAreDistinct(steps[1..], available);
      AvailableAreSteps(steps[1..], available, steps[0]);
    }
  }

  lemma NextIsNotGathered(
    steps: seq<string>, available: set<string>, had: set<string>, text: string, s: AgentState, n: nat)
    requires OnTrack(steps, available, had, text, s, n) && n < |Available(steps, available - had)| && Distinct(steps)
    ensures Available(steps, available - had)[n] !in Gathered(s.history)
  {
    var next := Available(steps, available - had)[n];
    AvailableAreDistinct(steps, available - had);
    AvailableAreFresh(steps, available, had);
    AvailableAreSteps(steps, available - had, next);
  }

  /** The state after the next step was executed and its result recorded. */
  lemma RecordedIsOnTrack(
    steps: seq<string>, available: set<string>, had: set<string>, text: string, s: AgentState, n: nat,
    call: ToolCall, outcome: Outcome, history: seq<Message>)
    requires OnTrack(steps, available, had, text, s, n) && n < |Available(steps, available - had)| && Distinct(steps)
    requires call.name == Available(steps, available - had)[n] && call.name != "" && !outcome.Crash?
    requires call.id == "heuristic_" + CanonicalJson.Decimal(|had| + n) + "_" + call.name
    requires var r := ResultOf(call, outcome);
             history == s.history + [AssistantTurn(None, [call])] + [ToolTurn(r, Shown(r))]
    ensures LatestUserText(history) == text
    ensures had <= Gathered(history).Keys
    ensures forall t :: t in steps ==>
              (t in Gathered(history) <==> t in had || t in Available(steps, available - had)[..n + 1])
    ensures |Gathered(history)| == |had| + n + 1
    ensures Asks(Flatten(s.batches + [[call]]), Available(steps, available - had)[..n + 1], |had|)
  {
    var turn := AssistantTurn(None, [call]);
    var result := ToolTurn(ResultOf(call, outcome), Shown(ResultOf(call, outcome)));
    AppendToTurn(s.history, turn);
    AppendToTurn(s.history + [turn], result);
    OneMoreAsked(s.batches, Available(steps, available - had), n, |had|, call);
    assert Available(steps, available - had)[..n + 1] == Available(steps, available - had)[..n] + [call.name];
    NextIsNotGathered(steps, available, had, text, s, n);
  }

  /** A proposal ends the turn on a prefix of the steps, or leads on to the next one. */
  lemma ProposalStaysOnTrack(
    env: Environment, rules: Rules, available: set<string>, had: set<string>, text: string, s: AgentState,
    n: nat)
    requires Planned(env, rules, available) && OnTrack(StepsFor(rules, text), available, had, text, s, n)
    requires !Exhausted(s) && n < |Available(StepsFor(rules, text), available - had)|
    ensures var todo := Available(StepsFor(rules, text), available - had);
            var turn := Pass(env, s);
            && (turn.Ended? ==>
                  && Asks(Flatten(turn.step.state.batches), todo[..n + 1], |had|)
                  && turn.step.state.completions == n + 1
                  && (turn.step.Next? && turn.step.state.pending.None? ==> s.maxIterations <= n + 1))
            && (turn.Again? ==> OnTrack(StepsFor(rules, text), available, had, text, turn.state, n + 1))
  {
    var steps := StepsFor(rules, text);
    OnTrackCompletes(env, rules, available, had, text, s, n);
    StepsAreDistinctAndShort(rules, text);
    StepsAreNamed(rules, text, available - had, n);
    var call := env.llm(s.completions, s.history).calls[0];
    assert env.llm(s.completions, s.history).calls == [call];
    ProposalPasses(env, s, call);
    var outcome := env.gate(|s.trace|);
    if outcome.Crash? {
      OneMoreAsked(s.batches, Available(steps, available - had), n, |had|, call);
    } else {
      var r := Recorded(env, Proposed(env, s, call), call, outcome).(calls := []);
      var e := if outcome.NeedsApproval? then r.(pending := Some(outcome.approval)) else r;
      ProposalLeaves(env, s, call, outcome, e);
      AnswerStaysOnTrack(steps, available, had, text, s, n, call, outcome, e);
      RouterStaysOnTrack(env, steps, available, had, text, e, n + 1);
    }
  }

  /** One more step has been executed and its result recorded. */
  predicate OneStepOn(
    steps: seq<string>, available: set<string>, had: set<string>, text: string, e: AgentState, n: nat)
  {
    var todo := Available(steps, available - had);
    && n <= |todo| && e.calls == [] && e.response.None? && e.status.Running?
    && e.iteration == n && e.completions == n && LatestUserText(e.history) == text
    && had <= Gathered(e.history).Keys
    && (forall t :: t in steps ==> (t in Gathered(e.history) <==> t in had || t in todo[..n]))
    && |Gathered(e.history)| == |had| + n && Asks(Flatten(e.batches), todo[..n], |had|)
  }

  lemma RouterStaysOnTrack(
    env: Environment, steps: seq<string>, available: set<string>, had: set<string>, text: string, e: AgentState,
    n: nat)
    requires OneStepOn(steps, available, had, text, e, n)
    ensures var turn := AfterTools(env, e);
            && (turn.Ended? ==>
                  && turn.step.Next? && turn.step.state.batches == e.batches && turn.step.state.completions == n
                  && turn.step.state.pending == e.pending && (e.pending.None? ==> e.maxIterations <= n))
            && (turn.Again? ==> OnTrack(steps, available, had, text, turn.state, n))
  {
    BatchLeadsOn(env, e);
  }

  /** What a proposed and executed call leaves in the state. */
  predicate Left(s: AgentState, call: ToolCall, outcome: Outcome, e: AgentState)
    requires !outcome.Crash?
  {
    var r := ResultOf(call, outcome);
    && e.history == s.history + [AssistantTurn(None, [call])] + [ToolTurn(r, Shown(r))]
    && e.batches == s.batches + [[call]] && e.calls == [] && e.response.None? && e.status == s.status
    && e.iteration == s.iteration + 1 && e.completions == s.completions + 1 && e.maxIterations == s.maxIterations
  }

  lemma ProposalLeaves(env: Environment, s: AgentState, call: ToolCall, outcome: Outcome, e: AgentState)
    requires !outcome.Crash?
    requires var r := Recorded(env, Proposed(env, s, call), call, outcome).(calls := []);
             e == if outcome.NeedsApproval? then r.(pending := Some(outcome.approval)) else r
    ensures Left(s, call, outcome, e)
  {
  }

  /** From the recorded result to the router. */
  lemma AnswerStaysOnTrack(
    steps: seq<string>, available: set<string>, had: set<string>, text: string, s: AgentState,
    n: nat, call: ToolCall, outcome: Outcome, e: AgentState)
    requires OnTrack(steps, available, had, text, s, n) && n < |Available(steps, available - had)| && Distinct(steps)
    requires call.name == Available(steps, available - had)[n] && call.name != "" && !outcome.Crash?
    requires call.id == "heuristic_" + CanonicalJson.Decimal(|had| + n) + "_" + call.name
    requires Left(s, call, outcome, e)
    ensures OneStepOn(steps, available, had, text, e, n + 1)
  {
    RecordedIsOnTrack(steps, available, had, text, s, n, call, outcome, e.history);
  }

  lemma StepsAreNamed(rules: Rules, text: string, available: set<string>, n: nat)
    requires n < |Available(StepsFor(rules, text), available)|
    ensures Available(StepsFor(rules, text), available)[n] != ""
  {
    AvailableAreSteps(StepsFor(rules, text), available, Available(StepsFor(rules, text), available)[n]);
    StepsHaveNames(rules, text);
  }

  /** Nothing left to propose: the planner answers and the run ends. */
  lemma AnswerEndsTurn(
    env: Environment, rules: Rules, available: set<string>, had: set<string>, text: string, s: AgentState,
    n: nat)
    requires Planned(env, rules, available) && OnTrack(StepsFor(rules, text), available, had, text, s, n)
    requires Exhausted(s) || n == |Available(StepsFor(rules, text), available - had)|
    ensures Pass(env, s).Ended?
    ensures Planfully(
              Available(StepsFor(rules, text), available - had), |had|, s.maxIterations, Pass(env, s).step)
  {
    OnTrackCompletes(env, rules, available, had, text, s, n);
    var todo := Available(StepsFor(rules, text), available - had);
    assert todo[..|todo|] == todo;
    if !Exhausted(s) { FlattenOfAppend(s.batches, []); }
  }

  lemma {:induction false} TurnIsPlanned(
    env: Environment, rules: Rules, available: set<string>, had: set<string>, text: string, s: AgentState,
    n: nat)
    requires Planned(env, rules, available) && OnTrack(StepsFor(rules, text), available, had, text, s, n)
    ensures Planfully(Available(StepsFor(rules, text), available - had), |had|, s.maxIterations, Cycle(env, s))
    decreases |Available(StepsFor(rules, text), available - had)| - n
  {
    if Exhausted(s) || n == |Available(StepsFor(rules, text), available - had)| {
      AnswerEndsTurn(env, rules, available, had, text, s, n);
    } else {
      ProposalStaysOnTrack(env, rules, available, had, text, s, n);
      PassSpendsBudget(env, s);
      if Pass(env, s).Again? { TurnIsPlanned(env, rules, available, had, text, Pass(env, s).state, n + 1); }
    }
  }

  /** The window always ends with the message just stored. */
  lemma HistoryEndsWithUser(rows: seq<Message>, user: Message, window: nat) returns (before: seq<Message>)
    requires window > 0 && user.speaker.User? && user.calls == []
    ensures History(rows + [user], window) == before + [user]
  {
    var stored := rows + [user];
    var kept := if window <= |stored| then rows[|stored| - window..] else rows;
    assert Last(stored, window) == kept + [user];
    assert View(kept + [user]) == View(kept) + [user];
    RepairOfAppend(View(kept), user);
    before := Repair(View(kept));
  }

  lemma FreshTurn(before: seq<Message>, user: Message, text: string)
    requires user.speaker.User? && user.content == Some(text) && text != ""
    ensures LatestUserText(before + [user]) == text && Gathered(before + [user]) == map[]
  {
    UserStartsAfresh(before, user);
  }

  lemma OpeningIsOnTrack(steps: seq<string>, available: set<string>, s: AgentState)
    requires AtPlan(s) && s.iteration == 0 && s.completions == 0 && s.batches == []
    ensures OnTrack(steps, available, Gathered(s.history).Keys, LatestUserText(s.history), s, 0)
  {
    var had := Gathered(s.history).Keys;
    assert Available(steps, available - had)[..0] == [];
  }

  /** Any request planned by the rules, from its opening to its end, whatever is loaded:
      the steps of the intent of the latest user message that are available and have no
      result in its turn yet, each once and in order, in at most one completion more than
      there are; a budget of more than `LONGEST` is never what stops it. */
  lemma AnyRequestIsPlanned(
    env: Environment, rules: Rules, available: set<string>, rows: seq<Message>, text: string, window: nat,
    toolsAvailable: bool, maxIterations: int)
    requires Planned(env, rules, available)
    ensures var h := Opening(env, rows, text, window, toolsAvailable, maxIterations).history;
            var todo := Available(StepsFor(rules, LatestUserText(h)), available - Gathered(h).Keys);
            && Planfully(
                 todo, |Gathered(h)|, maxIterations, Run(env, rows, text, window, toolsAvailable, maxIterations))
            && |todo| <= LONGEST
  {
    var start := Opening(env, rows, text, window, toolsAvailable, maxIterations);
    var asked, had := LatestUserText(start.history), Gathered(start.history).Keys;
    OpeningIsOnTrack(StepsFor(rules, asked), available, start);
    TurnIsPlanned(env, rules, available, had, asked, start, 0);
    StepsAreDistinctAndShort(rules, asked);
    AvailableAreSteps(StepsFor(rules, asked), available - had, "");
  }

  /** In particular: when nobody's row arrives between a message and the loading of the
      history, all the available steps of its intent are to do. */
  lemma RequestIsPlanned(
    env: Environment, rules: Rules, available: set<string>, rows: seq<Message>, text: string, window: nat,
    toolsAvailable: bool, maxIterations: int)
    requires Planned(env, rules, available) && window > 0 && text != "" && env.early == []
    ensures var todo := Available(StepsFor(rules, text), available);
            && Planfully(todo, 0, maxIterations, Run(env, rows, text, window, toolsAvailable, maxIterations))
            && |todo| <= LONGEST
  {
    var user := Message(User, Some(text), [], None, None);
    var before := HistoryEndsWithUser(rows, user, window);
    FreshTurn(before, user, text);
    assert rows + [user] + env.early == rows + [user];
    AnyRequestIsPlanned(env, rules, available, rows, text, window, toolsAvailable, maxIterations);
    var none: map<string, string> := map[];
    assert available - none.Keys == available;
  }

  lemma {:induction false} AllAreAvailable(steps: seq<string>, available: set<string>)
    requires forall t :: t in steps ==> t in available
    ensures Available(steps, available) == steps
  {
    if steps == [] {
    } else {
      AllAreAvailable(steps[1..], available);
    }
  }

  /** A follow-up by email, where its tools are there: leads first, then the draft, and
      the sending last and only after both; cut short, it was cut in this order. */
  lemma FollowUpIsDraftedThenSent(
    env: Environment, rules: Rules, available: set<string>, rows: seq<Message>, text: string, window: nat,
    toolsAvailable: bool, maxIterations: int, k: nat)
    requires Planned(env, rules, available) && window > 0 && text != "" && env.early == []
    requires rules.intent(text) == Some(0)
    requires {"crm__get_leads", "email__draft_email", "email__send_email"} <= available
    ensures var done := Run(env, rows, text, window, toolsAvailable, maxIterations);
            var asked := Flatten(done.state.batches);
            && |asked| <= 3
            && (k < |asked| ==> asked[k].name == ["crm__get_leads", "email__draft_email", "email__send_email"][k])
            && (done.Next? && done.state.pending.None? && maxIterations > 3 ==> |asked| == 3)
  {
    RequestIsPlanned(env, rules, available, rows, text, window, toolsAvailable, maxIterations);
    AllAreAvailable(StepsFor(rules, text), available);
  }

  /** The tools of the intents that take one step. */
  const SINGLE_TOOLS := ["tasks__get_overdue_tasks", "calendar__get_todays_meetings",
                         "spreadsheets__generate_weekly_report", "spreadsheets__get_sales_summary",
                         "crm__create_lead", "tasks__create_task", "crm__search_leads", "crm__get_leads",
                         "tasks__get_tasks"]

  lemma OneStepIsToDo(rules: Rules, available: set<string>, text: string, intent: nat)
    requires rules.intent(text) == Some(intent) && 1 <= intent <= 9
    ensures var tool := SINGLE_TOOLS[intent - 1];
            Available(StepsFor(rules, text), available) == if tool in available then [tool] else []
  {
    assert STEPS[intent] == [SINGLE_TOOLS[intent - 1]];
    assert STEPS[intent][1..] == [];
  }

  /** Every other intent comes to one call, of its own tool, where that is there. */
  lemma OtherRequestsAskOnce(
    env: Environment, rules: Rules, available: set<string>, rows: seq<Message>, text: string, window: nat,
    toolsAvailable: bool, maxIterations: int, intent: nat)
    requires Planned(env, rules, available) && window > 0 && text != "" && env.early == []
    requires rules.intent(text) == Some(intent) && 1 <= intent <= 9
    ensures var tool := SINGLE_TOOLS[intent - 1];
            var done := Run(env, rows, text, window, toolsAvailable, maxIterations);
            var asked := Flatten(done.state.batches);
            && |asked| <= (if tool in available then 1 else 0)
            && (asked != [] ==> asked[0].name == tool)
            && (done.Next? && done.state.pending.None? && maxIterations > 1 && tool in available ==> |asked| == 1)
  {
    RequestIsPlanned(env, rules, available, rows, text, window, toolsAvailable, maxIterations);
    OneStepIsToDo(rules, available, text, intent);
  }

  lemma {:induction false} FirstMissingIsAStep(
    steps: seq<string>, gathered: map<string, string>, available: set<string>)
    ensures var tool := FirstMissing(steps, gathered, available);
            tool.Some? ==> tool.value in steps && tool.value in available && tool.value !in gathered
  {
    if steps == [] {
    } else {
      FirstMissingIsAStep(steps[1..], gathered, available);
    }
  }

  lemma StepsHaveNames(rules: Rules, text: string)
    ensures "" !in StepsFor(rules, text)
  {
    assert forall i :: 0 <= i < |STEPS| ==> forall j :: 0 <= j < |STEPS[i]| ==> STEPS[i][j] != "";
  }

  lemma CompletionIsLabelled(rules: Rules, available: set<string>, history: seq<Message>)
    ensures AgentTranscript.Labelled(Complete(rules, available, history).calls)
  {
    var text, gathered := LatestUserText(history), Gathered(history);
    FirstMissingIsAStep(StepsFor(rules, text), gathered, available);
    StepsHaveNames(rules, text);
  }

  /** Every call it makes carries an id and a name, so transcripts it plans stay contiguous. */
  lemma PlannerLabelsCalls(env: Environment, rules: Rules, available: set<string>)
    requires Planned(env, rules, available)
    ensures AgentTranscript.LabelsCalls(env)
  {
    forall n: nat, history | env.llm(n, history).Reply? ensures AgentTranscript.Labelled(env.llm(n, history).calls) {
      assert env.llm(n, history) == Complete(rules, available, history);
      CompletionIsLabelled(rules, available, history);
    }
  }
}
