/** What the errors of a run say, exactly and in order (`app/agents/nodes.py`): they are what
    the user is told when nothing was found. */
module AgentReports {
  import opened Json
  import opened Transcript
  import opened AgentLoop
  import CanonicalJson

  /** What the failures among the executed calls report, in order. */
  function Reports(trace: seq<Executed>): seq<string> {
    if trace == [] then []
    else
      var e := trace[|trace| - 1];
      Reports(trace[..|trace| - 1]) +
      (if e.outcome.Error? || (e.outcome.Failed? && e.outcome.message != "") then [e.outcome.message]
       else if e.outcome.Failed? then [e.call.name + " failed."]
       else [])
  }

  predicate NothingWorked(trace: seq<Executed>) {
    forall i :: 0 <= i < |trace| ==> !trace[i].outcome.Succeeded?
  }

  lemma CallsOfEarlierBatches(batches: seq<seq<ToolCall>>, trace: seq<Executed>)
    requires batches != [] && Calls(trace) == Flatten(batches)
    ensures var before := Flatten(batches[..|batches| - 1]);
            |before| <= |trace| && Calls(trace[..|before|]) == before
  {
    var before := Flatten(batches[..|batches| - 1]);
    assert Calls(trace)[..|before|] == before;
    assert |Calls(trace)| == |trace|;
    assert Calls(trace[..|before|]) == Calls(trace)[..|before|];
  }

  /** The errors of completely executed batches: what the failing calls report, and after
      each batch from the second on a note if nothing has worked up to there. */
  function Told(batches: seq<seq<ToolCall>>, trace: seq<Executed>): seq<string>
    requires Calls(trace) == Flatten(batches)
    decreases |batches|
  {
    if batches == [] then []
    else
      var last := |batches| - 1;
      var n := |Flatten(batches[..last])|;
      CallsOfEarlierBatches(batches, trace);
      Told(batches[..last], trace[..n]) + Reports(trace[n..]) +
      (if last >= 1 && batches[last] != [] && NothingWorked(trace) then ["Repeated tool failures; stopping."] else [])
  }

  lemma {:induction false} ReportsOfConcat(a: seq<Executed>, b: seq<Executed>)
    ensures Reports(a + b) == Reports(a) + Reports(b)
  {
    if b == [] {
      assert a + b == a;
    } else {
      assert (a + b)[..|a + b| - 1] == a + b[..|b| - 1];
      ReportsOfConcat(a, b[..|b| - 1]);
    }
  }

  lemma RecordedReports(env: Environment, s: AgentState, call: ToolCall, outcome: Outcome, r: AgentState)
    requires !outcome.Crash? && r == Recorded(env, s, call, outcome)
    ensures r.trace == s.trace + [Executed(call, outcome)]
    ensures r.trace[|s.trace|..] == [Executed(call, outcome)]
    ensures r.errors == s.errors + Reports([Executed(call, outcome)])
  {
    assert [Executed(call, outcome)][..0] == [];
  }

  lemma ReportsAddUp(begun: seq<string>, trace: seq<Executed>, e: Executed, after: seq<Executed>)
    requires trace + [e] <= after
    ensures begun + Reports([e]) + Reports(after[|trace| + 1..]) == begun + Reports(after[|trace|..])
  {
    ReportsOfConcat([e], after[|trace| + 1..]);
    assert after[|trace|..] == [e] + after[|trace| + 1..];
  }

  lemma {:induction false} ExecuteReports(env: Environment, s: AgentState, calls: seq<ToolCall>)
    ensures var step := ExecuteFrom(env, s, calls);
            && s.trace <= step.state.trace
            && (step.Next? ==> step.state.errors == s.errors + Reports(step.state.trace[|s.trace|..]))
    decreases |calls|
  {
    if calls == [] {
    } else {
      var outcome := env.gate(|s.trace|);
      if !outcome.Crash? {
        var r := Recorded(env, s, calls[0], outcome);
        RecordedReports(env, s, calls[0], outcome, r);
        if !outcome.NeedsApproval? {
          ExecuteReports(env, r, calls[1..]);
          ReportsAddUp(s.errors, s.trace, Executed(calls[0], outcome), ExecuteFrom(env, r, calls[1..]).state.trace);
        }
      }
    }
  }

  /** Between two planning passes. */
  predicate OnRecord(begun: seq<string>, s: AgentState) {
    AllBatchesRan(s) && |s.batches| == s.iteration && s.errors == begun + Told(s.batches, s.trace)
  }

  /** At the end of a run: the batch cut short by an approval reports without a note, an
      unreachable model and a budget of nothing come last. */
  predicate ReportsAtEnd(env: Environment, begun: seq<string>, s: AgentState) {
    if s.pending.Some? then
      && s.batches != []
      && var before := s.batches[..|s.batches| - 1];
         var n := |Flatten(before)|;
         && n <= |s.trace| && Calls(s.trace[..n]) == Flatten(before)
         && s.errors == begun + Told(before, s.trace[..n]) + Reports(s.trace[n..])
    else
      && Calls(s.trace) == Flatten(s.batches)
      && s.errors == begun + Told(s.batches, s.trace) +
           (if s.status.Failure? then
              match env.llm(|s.batches|, s.history) case LlmError(message) => [message] case _ => []
            else if s.maxIterations <= 0 then
              ["Reached the " + CanonicalJson.Print(Num(s.maxIterations)) + "-step limit."]
            else [])
  }

  /** Without a batch to come, the errors so far and the last word are all there is. */
  lemma LastWord(env: Environment, begun: seq<string>, s: AgentState, p: AgentState, word: seq<string>)
    requires OnRecord(begun, s) && p.trace == s.trace && p.pending.None?
    requires p.batches == s.batches || p.batches == s.batches + [[]]
    requires p.errors == s.errors + word
    requires word == (if p.status.Failure? then
                        match env.llm(|p.batches|, p.history) case LlmError(message) => [message] case _ => []
                      else if p.maxIterations <= 0 then
                        ["Reached the " + CanonicalJson.Print(Num(p.maxIterations)) + "-step limit."]
                      else [])
    ensures ReportsAtEnd(env, begun, p)
  {
    if p.batches != s.batches {
      FlattenOfAppend(s.batches, []);
      ToldOfNothing(s.batches, s.trace);
    }
  }

  lemma ToldOfNothing(batches: seq<seq<ToolCall>>, trace: seq<Executed>)
    requires Calls(trace) == Flatten(batches) == Flatten(batches + [[]])
    ensures Told(batches + [[]], trace) == Told(batches, trace)
  {
    FlattenOfAppend(batches, []);
    assert |Calls(trace)| == |trace|;
    assert trace[..|trace|] == trace && trace[|trace|..] == [];
  }

  lemma PlanReports(env: Environment, begun: seq<string>, s: AgentState, p: AgentState)
    requires AtPlan(s) && WithinBudget(s) && OnRecord(begun, s) && Plan(env, s) == Next(p)
    requires !Exhausted(s) || s.iteration == 0
    requires !PlanLeadsToTools(p)
    ensures p.pending.None? && ReportsAtEnd(env, begun, p)
  {
    if Exhausted(s) {
      LastWord(env, begun, s, p, [LimitReached(s.maxIterations)]);
    } else {
      match env.llm(s.completions, s.history)
      case LlmError(message) => LastWord(env, begun, s, p, [message]);
      case Reply(_, _) => LastWord(env, begun, s, p, []);
    }
  }

  lemma PlanProposes(env: Environment, s: AgentState, p: AgentState)
    requires AtPlan(s) && Plan(env, s) == Next(p) && PlanLeadsToTools(p)
    ensures p.results == s.results && p.trace == s.trace && p.pending.None?
    ensures p.batches == s.batches + [p.calls] && p.errors == s.errors
    ensures p.maxIterations == s.maxIterations && p.iteration == s.iteration + 1
  {
  }

  lemma {:induction false} NothingWorkedExactly(results: seq<ToolResult>)
    ensures |Failures(results)| <= |results|
    ensures |Failures(results)| == |results| <==> AllFail(results)
  {
    if results == [] {
    } else {
      NothingWorkedExactly(results[1..]);
      assert AllFail(results) <==> !results[0].success && AllFail(results[1..]);
    }
  }

  lemma ToldOfOneMore(batches: seq<seq<ToolCall>>, batch: seq<ToolCall>, earlier: seq<Executed>, trace: seq<Executed>)
    requires earlier <= trace && batch != []
    requires Calls(earlier) == Flatten(batches) && Calls(trace) == Flatten(batches + [batch])
    ensures trace[..|Flatten(batches)|] == earlier && |Flatten(batches)| == |earlier|
    ensures Told(batches + [batch], trace) == Told(batches, earlier) + Reports(trace[|earlier|..]) +
              (if |batches| >= 1 && NothingWorked(trace) then [STOPPING] else [])
  {
    FlattenOfAppend(batches, batch);
    assert |Calls(earlier)| == |earlier|;
  }

  lemma ValidateNotes(e: AgentState)
    requires Answered(e) && e.trace != [] && e.pending.None? && e.calls == []
    ensures Validate(e).errors ==
              e.errors + (if e.iteration >= 2 && NothingWorked(e.trace) then [STOPPING] else [])
  {
    NothingWorkedExactly(e.results);
    assert AllFail(e.results) <==> NothingWorked(e.trace) by {
      assert forall i :: 0 <= i < |e.trace| ==> Reflects(e.results[i], e.trace[i].call, e.trace[i].outcome);
    }
  }

  /** A batch has been executed after those on record. */
  predicate OneMoreBatch(begun: seq<string>, s: AgentState, batch: seq<ToolCall>, e: AgentState) {
    && OnRecord(begun, s) && batch != [] && e.batches == s.batches + [batch] && e.iteration == |e.batches|
    && s.trace <= e.trace && e.errors == s.errors + Reports(e.trace[|s.trace|..])
    && e.calls == [] && !e.status.Failure? && Accounted(Next(e)) && e.maxIterations > 0
  }

  lemma FullBatchReports(begun: seq<string>, s: AgentState, batch: seq<ToolCall>, e: AgentState)
    requires OneMoreBatch(begun, s, batch, e) && e.pending.None?
    ensures Calls(e.trace) == Flatten(e.batches) && Validate(e).errors == begun + Told(e.batches, e.trace)
  {
    FlattenOfAppend(s.batches, batch);
    assert |Calls(e.trace)| == |e.trace|;
    ToldOfOneMore(s.batches, batch, s.trace, e.trace);
    ValidateNotes(e);
    var note := if e.iteration >= 2 && NothingWorked(e.trace) then [STOPPING] else [];
    Regroup(begun, Told(s.batches, s.trace), Reports(e.trace[|s.trace|..]), note);
  }

  lemma Regroup(a: seq<string>, b: seq<string>, c: seq<string>, d: seq<string>)
    ensures a + b + c + d == a + (b + c + d)
  {
  }

  lemma PausedBatchReports(env: Environment, begun: seq<string>, s: AgentState, batch: seq<ToolCall>, e: AgentState)
    requires OneMoreBatch(begun, s, batch, e) && e.pending.Some?
    ensures ReportsAtEnd(env, begun, e)
  {
    assert e.batches[..|e.batches| - 1] == s.batches;
    assert |Calls(s.trace)| == |s.trace|;
    assert e.trace[..|s.trace|] == s.trace;
  }

  lemma SameReports(env: Environment, begun: seq<string>, s: AgentState, t: AgentState)
    requires ReportsAtEnd(env, begun, s)
    requires s.trace == t.trace && s.errors == t.errors && s.batches == t.batches && s.pending == t.pending
    requires s.status.Failure? <==> t.status.Failure?
    requires s.maxIterations == t.maxIterations && (s.pending.None? ==> s.history == t.history)
    ensures ReportsAtEnd(env, begun, t)
  {
  }

  lemma AfterToolsReports(env: Environment, begun: seq<string>, s: AgentState, batch: seq<ToolCall>, e: AgentState)
    requires OneMoreBatch(begun, s, batch, e)
    ensures var turn := AfterTools(env, e);
            && (turn.Ended? ==> turn.step.Next? && ReportsAtEnd(env, begun, turn.step.state))
            && (turn.Again? ==> OnRecord(begun, turn.state))
  {
    var v := Validate(e);
    if e.pending.Some? {
      PausedBatchReports(env, begun, s, batch, e);
      SameReports(env, begun, e, Respond(env, v));
    } else {
      FullBatchReports(begun, s, batch, e);
      SameRecordAccounts(e, v);
      assert ReportsAtEnd(env, begun, v);
      SameReports(env, begun, v, Respond(env, v));
    }
  }

  lemma ToolsReport(env: Environment, begun: seq<string>, s: AgentState, p: AgentState, e: AgentState)
    requires AtPlan(s) && WithinBudget(s) && OnRecord(begun, s) && Plan(env, s) == Next(p) && PlanLeadsToTools(p)
    requires ExecuteTools(env, p) == Next(e)
    ensures OneMoreBatch(begun, s, p.calls, e)
  {
    PlanProposes(env, s, p);
    ToolsAccount(env, s, p);
    ExecuteKeepsBudget(env, p.(pending := None), p.calls);
    ExecuteReports(env, p.(pending := None), p.calls);
  }

  lemma ProposalReports(env: Environment, begun: seq<string>, s: AgentState, p: AgentState, e: AgentState, turn: Turn)
    requires AtPlan(s) && WithinBudget(s) && OnRecord(begun, s) && Plan(env, s) == Next(p) && PlanLeadsToTools(p)
    requires ExecuteTools(env, p) == Next(e) && turn == AfterTools(env, e)
    ensures turn.Ended? && turn.step.Next? ==> ReportsAtEnd(env, begun, turn.step.state)
    ensures turn.Again? ==> OnRecord(begun, turn.state) && !Exhausted(turn.state)
  {
    ToolsReport(env, begun, s, p, e);
    AfterToolsReports(env, begun, s, p.calls, e);
  }

  lemma PassReports(env: Environment, begun: seq<string>, s: AgentState, turn: Turn)
    requires AtPlan(s) && WithinBudget(s) && OnRecord(begun, s) && (!Exhausted(s) || s.iteration == 0)
    requires turn == Pass(env, s)
    ensures turn.Ended? && turn.step.Next? ==> ReportsAtEnd(env, begun, turn.step.state)
    ensures turn.Again? ==> OnRecord(begun, turn.state) && !Exhausted(turn.state)
  {
    var plan := Plan(env, s);
    if plan.Next? {
      var p := plan.state;
      if !PlanLeadsToTools(p) {
        PlanReports(env, begun, s, p);
        SameReports(env, begun, p, Respond(env, p));
      } else if ExecuteTools(env, p).Next? {
        ProposalReports(env, begun, s, p, ExecuteTools(env, p).state, turn);
      }
    }
  }

  lemma {:induction false} CycleReports(env: Environment, begun: seq<string>, s: AgentState)
    requires AtPlan(s) && WithinBudget(s) && OnRecord(begun, s) && (!Exhausted(s) || s.iteration == 0)
    ensures Cycle(env, s).Next? ==> ReportsAtEnd(env, begun, Cycle(env, s).state)
    decreases s.maxIterations - s.iteration
  {
    PassReports(env, begun, s, Pass(env, s));
    PassIsBounded(env, s);
    PassSpendsBudget(env, s);
    if Pass(env, s).Ended? {
    } else {
      CycleReports(env, begun, Pass(env, s).state);
    }
  }

  /** The errors of every run that ends, exactly and in order: what it was begun with,
      what the failing calls reported, the notes between the batches, and at the end the
      failure of the model or the spent budget.  A budget of nothing asks the model
      nothing. */
  lemma RunReportsExactly(
    env: Environment, rows: seq<Message>, text: string, window: nat, toolsAvailable: bool, maxIterations: int)
    ensures var step := Run(env, rows, text, window, toolsAvailable, maxIterations);
            var begun := if toolsAvailable then [] else ["No MCP tools are currently available."];
            && (step.Next? ==> ReportsAtEnd(env, begun, step.state))
            && (maxIterations <= 0 ==>
                  step.Next? && step.state.completions == 0 && step.state.own == [] && step.state.status.Completed?)
  {
    var start := Opening(env, rows, text, window, toolsAvailable, maxIterations);
    var begun := if toolsAvailable then [] else ["No MCP tools are currently available."];
    CycleReports(env, begun, start);
    RunIsBounded(env, start);
  }
}
