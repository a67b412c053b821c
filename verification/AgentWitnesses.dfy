/** Runs of the agent in which it does what it is not expected to do. */
module AgentWitnesses {
  import opened Json
  import opened Transcript
  import opened AgentLoop

  const LEADS := ToolCall("call_1", "crm__get_leads", [])

  /** A model that makes the same call over and over, and a tool that is never there. */
  function Stubborn(): Environment {
    Environment((n, history) => Reply(None, [LEADS]), n => Failed("down"), (answer, approval) => "", [], n => [])
  }

  /** Both calls fail, the errors say that the run is stopping, and the model is asked again. */
  lemma FailingRunGoesOn()
    ensures var step := Run(Stubborn(), [], "leads?", 20, true, 5);
            && step.Next? && step.state.status.Completed? && step.state.completions == 5
            && STOPPING in step.state.errors
  {
    assert Hopeless(Stubborn());
    FailingRunSpendsBudget(Stubborn(), Opening(Stubborn(), [], "leads?", 20, true, 5));
  }

  /** A model that cannot be reached. */
  function Silent(): Environment {
    Environment((n, history) => LlmError("timeout"), n => Crash, (answer, approval) => "", [], n => [])
  }

  /** The user is told so; the transcript holds the question and nothing else. */
  lemma ApologyIsNotStored()
    ensures var step := Run(Silent(), [], "leads?", 20, true, 5);
            && step.Next? && step.state.response == Some(Unreachable)
            && step.state.rows == [Message(User, Some("leads?"), [], None, None)]
  {
    assert Pass(Silent(), Opening(Silent(), [], "leads?", 20, true, 5)).Ended?;
  }

  /** A run that may ask the model once: what was found is told to the user, and not stored. */
  function Brief(): Environment {
    Environment((n, history) => Reply(None, [LEADS]), n => Succeeded("Ana", None), (answer, approval) => "",
                [], n => [])
  }

  lemma FindingIsTold(e: AgentState)
    requires e.calls == [] && e.pending.None? && e.response.None? && e.status.Running? && Exhausted(e)
    requires e.results == [Succeeds(LEADS, "Ana", None)]
    ensures var turn := AfterTools(Brief(), e);
            && turn.Ended? && turn.step.Next? && turn.step.state.rows == e.rows
            && turn.step.state.response == Some(Found(e.results))
  {
    var found := Succeeds(LEADS, "Ana", None);
    assert [found][1..] == [];
    assert Successes([found]) == [found] && Failures([found]) == [];
    assert Validate(e) == e;
  }

  lemma SummaryIsNotStored()
    ensures var step := Run(Brief(), [], "leads?", 20, true, 1);
            && step.Next? && step.state.response == Some(Found([Succeeds(LEADS, "Ana", None)]))
            && step.state.rows[|step.state.rows| - 1] == ToolTurn(Succeeds(LEADS, "Ana", None), "Ana")
  {
    var start := Opening(Brief(), [], "leads?", 20, true, 1);
    ProposalPasses(Brief(), start, LEADS);
    FindingIsTold(Recorded(Brief(), Proposed(Brief(), start, LEADS), LEADS, Succeeded("Ana", None)).(calls := []));
  }
}
