/** What a run leaves in the transcript, and how far the history it works on agrees with
    it (`app/agents/nodes.py`, `app/services/conversation_service.py`), also while other
    requests store rows in the same conversation. */
module AgentTranscript {
  import opened Json
  import opened Transcript
  import opened AgentLoop

  // ---------------------------------------------------- the history and the own rows --

  /** The same turn: speaker, calls, call id and tool name; the text may differ. */
  predicate SameTurn(a: Message, b: Message) { a == b.(content := a.content) }

  predicate SameTurns(h: seq<Message>, r: seq<Message>) {
    |h| == |r| && forall i :: 0 <= i < |h| ==> SameTurn(h[i], r[i])
  }

  /** A failure with an empty message: shown as nothing, stored as "The tool failed." */
  predicate Silent(outcome: Outcome) { (outcome.Failed? || outcome.Error?) && outcome.message == "" }

  predicate Audible(trace: seq<Executed>) { forall i :: 0 <= i < |trace| ==> !Silent(trace[i].outcome) }

  /** The two renderings of a result agree except for a silent failure. */
  lemma RenderersAgreeExactlyWhen(call: ToolCall, outcome: Outcome)
    requires !outcome.Crash?
    ensures Shown(ResultOf(call, outcome)) == Stored(ResultOf(call, outcome)) <==> !Silent(outcome)
  {
    if outcome.NeedsApproval? { assert |ApprovalNotice(outcome.approval)| > 0; }
  }

  /** What a result's turn says, as the model sees it and as it is stored, for each outcome. */
  lemma ResultTurnsSay(call: ToolCall, outcome: Outcome)
    requires !outcome.Crash?
    ensures var r := ResultOf(call, outcome);
            var said := match outcome
                        case Succeeded(content, structured) =>
                          if structured.Some? then structured.value else content
                        case NeedsApproval(a) =>
                          "This action needs your approval before it can run: " + a.summary + " (" + a.reason + ")"
                        case Failed(message) => message
                        case Error(message) => message
                        case Crash => "";
            && ToolTurn(r, Shown(r)) == Message(Tool, Some(said), [], Some(call.id), Some(call.name))
            && ToolTurn(r, Stored(r)) ==
                 Message(Tool, Some(if said == "" && !outcome.Succeeded? then "The tool failed." else said), [],
                         Some(call.id), Some(call.name))
  {
    RenderersAgreeExactlyWhen(call, outcome);
  }

  /** The history is the one loaded, followed by the turns this run stored since, in order;
      the texts agree too, exactly when no failure was silent. */
  predicate Mirrors(loaded: seq<Message>, history: seq<Message>, own: seq<Message>, trace: seq<Executed>) {
    && loaded <= history && SameTurns(history[|loaded|..], own)
    && (history[|loaded|..] == own <==> Audible(trace))
  }

  /** The rows a run has stored stand in the transcript in their order, among those that
      arrived meanwhile; and they are all there is since, if the run was alone. */
  ghost predicate AmongRows(env: Environment, stored: seq<Message>, rows: seq<Message>, own: seq<Message>) {
    && stored <= rows && Subsequence(own, rows[|stored|..])
    && (Alone(env) ==> rows == stored + own)
  }

  ghost predicate InStep(env: Environment, loaded: seq<Message>, stored: seq<Message>, s: AgentState) {
    Mirrors(loaded, s.history, s.own, s.trace) && AmongRows(env, stored, s.rows, s.own)
  }

  lemma AppendMirrors(
    loaded: seq<Message>, history: seq<Message>, own: seq<Message>, trace: seq<Executed>,
    shown: Message, kept: Message, trace': seq<Executed>)
    requires Mirrors(loaded, history, own, trace) && SameTurn(shown, kept)
    requires Audible(trace') <==> Audible(trace) && shown == kept
    ensures Mirrors(loaded, history + [shown], own + [kept], trace')
  {
    var h := history[|loaded|..];
    assert (history + [shown])[|loaded|..] == h + [shown];
    if h + [shown] == own + [kept] {
      assert (h + [shown])[..|h|] == h && (own + [kept])[..|own|] == own;
      assert (h + [shown])[|h|] == shown && (own + [kept])[|own|] == kept;
    }
  }

  lemma {:induction false} SubsequenceOfExtended(s: seq<Message>, t: seq<Message>, more: seq<Message>)
    requires Subsequence(s, t)
    ensures Subsequence(s, t + more)
  {
    if more == [] {
      assert t + more == t;
    } else {
      SubsequenceOfExtended(s, t, more[..|more| - 1]);
      assert (t + more)[..|t + more| - 1] == t + more[..|more| - 1];
    }
  }

  lemma AppendAmongRows(env: Environment, stored: seq<Message>, s: AgentState, m: Message)
    requires AmongRows(env, stored, s.rows, s.own)
    ensures AmongRows(env, stored, Append(env, s, m).rows, Append(env, s, m).own)
  {
    var since, arrived := s.rows[|stored|..], env.arrivals(|s.own|);
    SuffixOfAppended(stored, s.rows, arrived, m);
    SubsequenceOfExtended(s.own, since, arrived);
    SubsequenceOfBoth(s.own, since + arrived, m);
    if Alone(env) { AloneAppendsOwn(env, stored, s, m); }
  }

  lemma SuffixOfAppended(stored: seq<Message>, rows: seq<Message>, arrived: seq<Message>, m: Message)
    requires stored <= rows
    ensures stored <= rows + arrived + [m]
    ensures (rows + arrived + [m])[|stored|..] == rows[|stored|..] + arrived + [m]
  {
  }

  lemma SubsequenceOfBoth(s: seq<Message>, t: seq<Message>, m: Message)
    requires Subsequence(s, t)
    ensures Subsequence(s + [m], t + [m])
  {
    assert (s + [m])[..|s|] == s && (t + [m])[..|t|] == t;
  }

  lemma AloneAppendsOwn(env: Environment, stored: seq<Message>, s: AgentState, m: Message)
    requires Alone(env) && s.rows == stored + s.own
    ensures Append(env, s, m).rows == stored + Append(env, s, m).own
  {
    assert s.rows + [] + [m] == stored + (s.own + [m]);
  }

  lemma AudibleOfAppend(trace: seq<Executed>, e: Executed)
    ensures Audible(trace + [e]) <==> Audible(trace) && !Silent(e.outcome)
  {
    assert (trace + [e])[|trace|] == e;
    assert forall i :: 0 <= i < |trace| ==> (trace + [e])[i] == trace[i];
  }

  lemma RecordedInStep(
    env: Environment, loaded: seq<Message>, stored: seq<Message>, s: AgentState, call: ToolCall, outcome: Outcome)
    requires InStep(env, loaded, stored, s) && !outcome.Crash?
    ensures InStep(env, loaded, stored, Recorded(env, s, call, outcome))
  {
    var r := ResultOf(call, outcome);
    RenderersAgreeExactlyWhen(call, outcome);
    AudibleOfAppend(s.trace, Executed(call, outcome));
    AppendMirrors(loaded, s.history, s.own, s.trace, ToolTurn(r, Shown(r)), ToolTurn(r, Stored(r)),
                  Recorded(env, s, call, outcome).trace);
    AppendAmongRows(env, stored, s, ToolTurn(r, Stored(r)));
  }

  lemma {:induction false} BatchInStep(
    env: Environment, loaded: seq<Message>, stored: seq<Message>, s: AgentState, calls: seq<ToolCall>)
    requires InStep(env, loaded, stored, s)
    ensures InStep(env, loaded, stored, ExecuteFrom(env, s, calls).state)
    decreases |calls|
  {
    if calls == [] {
    } else if env.gate(|s.trace|).Crash? {
      AudibleOfAppend(s.trace, Executed(calls[0], Crash));
    } else {
      RecordedInStep(env, loaded, stored, s, calls[0], env.gate(|s.trace|));
      BatchInStep(env, loaded, stored, Recorded(env, s, calls[0], env.gate(|s.trace|)), calls[1..]);
    }
  }

  lemma PlanInStep(env: Environment, loaded: seq<Message>, stored: seq<Message>, s: AgentState)
    requires InStep(env, loaded, stored, s)
    ensures InStep(env, loaded, stored, Plan(env, s).state)
  {
    var completion := env.llm(s.completions, s.history);
    if !Exhausted(s) && completion.Reply? {
      var m := AssistantTurn(completion.content, completion.calls);
      AppendMirrors(loaded, s.history, s.own, s.trace, m, m, s.trace);
      AppendAmongRows(env, stored, s, m);
    }
  }

  /** The end of a run: in step, but for the closing notice of a paused one, which is
      stored and not added to the history. */
  ghost predicate ClosedInStep(env: Environment, loaded: seq<Message>, stored: seq<Message>, step: Step) {
    var s := step.state;
    && AmongRows(env, stored, s.rows, s.own)
    && (if step.Next? && s.pending.Some? then
          && s.own != [] && Mirrors(loaded, s.history, s.own[..|s.own| - 1], s.trace)
          && s.own[|s.own| - 1].speaker.Assistant? && s.own[|s.own| - 1].calls == []
        else Mirrors(loaded, s.history, s.own, s.trace))
  }

  lemma RespondInStep(env: Environment, loaded: seq<Message>, stored: seq<Message>, s: AgentState)
    requires InStep(env, loaded, stored, s)
    ensures ClosedInStep(env, loaded, stored, Next(Respond(env, s)))
  {
    var closed := Respond(env, s);
    if s.pending.Some? {
      AppendAmongRows(env, stored, s, closed.own[|s.own|]);
      assert closed.own[..|closed.own| - 1] == s.own;
    }
  }

  lemma PassInStep(env: Environment, loaded: seq<Message>, stored: seq<Message>, s: AgentState)
    requires AtPlan(s) && InStep(env, loaded, stored, s)
    ensures var turn := Pass(env, s);
            && (turn.Ended? ==> ClosedInStep(env, loaded, stored, turn.step))
            && (turn.Again? ==> InStep(env, loaded, stored, turn.state))
  {
    PlanInStep(env, loaded, stored, s);
    var plan := Plan(env, s);
    if plan.Next? {
      RespondInStep(env, loaded, stored, plan.state);
      if PlanLeadsToTools(plan.state) { ToolsInStep(env, loaded, stored, plan.state); }
    }
  }

  lemma ToolsInStep(env: Environment, loaded: seq<Message>, stored: seq<Message>, p: AgentState)
    requires InStep(env, loaded, stored, p)
    ensures match ExecuteTools(env, p)
            case Abort(e) => e.pending.None? && InStep(env, loaded, stored, e)
            case Next(e) =>
              var turn := AfterTools(env, e);
              && (turn.Ended? ==> ClosedInStep(env, loaded, stored, turn.step))
              && (turn.Again? ==> InStep(env, loaded, stored, turn.state))
  {
    BatchInStep(env, loaded, stored, p.(pending := None), p.calls);
    AbortLeavesNothingPending(env, p.(pending := None), p.calls);
    var tools := ExecuteTools(env, p);
    if tools.Next? { RespondInStep(env, loaded, stored, Validate(tools.state)); }
  }

  lemma {:induction false} AbortLeavesNothingPending(env: Environment, s: AgentState, calls: seq<ToolCall>)
    requires s.pending.None?
    ensures ExecuteFrom(env, s, calls).Abort? ==> ExecuteFrom(env, s, calls).state.pending.None?
    decreases |calls|
  {
    if calls == [] {
    } else if !env.gate(|s.trace|).Crash? && !env.gate(|s.trace|).NeedsApproval? {
      AbortLeavesNothingPending(env, Recorded(env, s, calls[0], env.gate(|s.trace|)), calls[1..]);
    }
  }

  lemma {:induction false} CycleInStep(
    env: Environment, loaded: seq<Message>, stored: seq<Message>, s: AgentState)
    requires AtPlan(s) && WithinBudget(s) && InStep(env, loaded, stored, s)
    ensures ClosedInStep(env, loaded, stored, Cycle(env, s))
    decreases s.maxIterations - s.iteration
  {
    PassInStep(env, loaded, stored, s);
    PassIsBounded(env, s);
    PassSpendsBudget(env, s);
    if Pass(env, s).Ended? {
    } else {
      CycleInStep(env, loaded, stored, Pass(env, s).state);
    }
  }

  /** At the end of every run, broken off or not, whoever else stores rows meanwhile, the
      history is the repaired window loaded at the start, after the user's message was
      stored, followed by the turns this run stored since, but for the closing notice of a
      paused run. */
  lemma HistoryMirrorsOwnRows(
    env: Environment, rows: seq<Message>, text: string, window: nat, toolsAvailable: bool, maxIterations: int)
    ensures var start := Opening(env, rows, text, window, toolsAvailable, maxIterations);
            && start.rows == rows + [Message(User, Some(text), [], None, None)] + env.early
            && start.history == Repair(View(Last(start.rows, window)))
            && ClosedInStep(env, start.history, start.rows, Run(env, rows, text, window, toolsAvailable, maxIterations))
  {
    var start := Opening(env, rows, text, window, toolsAvailable, maxIterations);
    assert start.history[|start.history|..] == [] && start.rows[|start.rows|..] == [];
    assert start.rows + [] == start.rows;
    CycleInStep(env, start.history, start.rows, start);
  }

  // ------------------------------------------------------- the shape that is left --

  /** The assistant row at `k` is still being answered. */
  predicate Open(rows: seq<Message>, k: int) {
    && 0 <= k < |rows| && rows[k].speaker.Assistant?
    && forall j :: k < j < |rows| ==> rows[j].speaker.Tool?
  }

  predicate Labelled(calls: seq<ToolCall>) {
    forall i :: 0 <= i < |calls| ==> calls[i].id != "" && calls[i].name != ""
  }

  /** The model labels every call it makes. */
  ghost predicate LabelsCalls(env: Environment) {
    forall n, history :: env.llm(n, history).Reply? ==> Labelled(env.llm(n, history).calls)
  }

  lemma FollowsInPrefix(rows: seq<Message>, m: Message, k: int, i: int)
    requires i < |rows|
    ensures Follows(rows + [m], k, i) <==> Follows(rows, k, i)
  {
    assert forall j :: 0 <= j < |rows| ==> (rows + [m])[j] == rows[j];
    if Follows(rows, k, i) {
      forall j | k < j <= i ensures (rows + [m])[j].speaker.Tool? { assert rows[j].speaker.Tool?; }
    }
    if Follows(rows + [m], k, i) {
      forall j | k < j <= i ensures rows[j].speaker.Tool? { assert (rows + [m])[j].speaker.Tool?; }
    }
  }

  lemma TurnKeepsLinks(rows: seq<Message>, m: Message)
    requires Linked(rows) && !m.speaker.Tool?
    ensures Linked(rows + [m])
  {
    forall k, i | Follows(rows + [m], k, i) ensures KeepsId((rows + [m])[k], (rows + [m])[i]) {
      assert (rows + [m])[i].speaker.Tool?;
      FollowsInPrefix(rows, m, k, i);
    }
  }

  lemma ResultKeepsLinks(rows: seq<Message>, m: Message, head: int)
    requires Linked(rows) && Open(rows, head) && m.speaker.Tool? && KeepsId(rows[head], m)
    ensures Linked(rows + [m]) && Open(rows + [m], head)
  {
    var longer := rows + [m];
    assert Follows(longer, head, |rows|);
    forall k, i | Follows(longer, k, i) ensures KeepsId(longer[k], longer[i]) {
      if i == |rows| { OneFollowed(longer, k, head, i); } else { FollowsInPrefix(rows, m, k, i); }
    }
  }

  lemma OneFollowed(rows: seq<Message>, k: int, l: int, i: int)
    requires Follows(rows, k, i) && Follows(rows, l, i)
    ensures k == l
  {
    assert !rows[k].speaker.Tool? && !rows[l].speaker.Tool?;
  }

  lemma {:induction false} NamedKeepsLabelled(calls: seq<ToolCall>, i: nat)
    requires i < |calls| && calls[i].id != "" && calls[i].name != ""
    ensures calls[i] in Named(calls)
  {
    if i == 0 {
    } else {
      NamedKeepsLabelled(calls[1..], i - 1);
    }
  }

  lemma AloneAppends(env: Environment, s: AgentState, m: Message)
    requires Alone(env)
    ensures Append(env, s, m).rows == s.rows + [m]
  {
  }

  lemma {:induction false} BatchKeepsLinks(env: Environment, s: AgentState, head: int, done: nat)
    requires Alone(env) && Linked(s.rows) && Open(s.rows, head)
    requires done <= |s.rows[head].calls| && Labelled(s.rows[head].calls)
    ensures Linked(ExecuteFrom(env, s, s.rows[head].calls[done..]).state.rows)
    decreases |s.rows[head].calls| - done
  {
    var calls := s.rows[head].calls;
    var outcome := env.gate(|s.trace|);
    if done == |calls| {
    } else if !outcome.Crash? {
      var call := calls[done];
      var r := ResultOf(call, outcome);
      AloneAppends(env, s, ToolTurn(r, Stored(r)));
      NamedKeepsLabelled(calls, done);
      ResultKeepsLinks(s.rows, ToolTurn(r, Stored(r)), head);
      assert calls[done..][1..] == calls[done + 1..];
      if !outcome.NeedsApproval? { BatchKeepsLinks(env, Recorded(env, s, call, outcome), head, done + 1); }
    }
  }

  lemma PlanKeepsLinks(env: Environment, s: AgentState)
    requires Alone(env) && LabelsCalls(env) && AtPlan(s) && Linked(s.rows)
    ensures var p := Plan(env, s).state;
            && Linked(p.rows)
            && (Plan(env, s).Next? && PlanLeadsToTools(p) ==>
                  Open(p.rows, |p.rows| - 1) && p.rows[|p.rows| - 1].calls == p.calls && Labelled(p.calls))
  {
    var completion := env.llm(s.completions, s.history);
    if completion.Reply? {
      var m := AssistantTurn(completion.content, completion.calls);
      AloneAppends(env, s, m);
      TurnKeepsLinks(s.rows, m);
    }
  }

  lemma RespondKeepsLinks(env: Environment, s: AgentState)
    requires Alone(env) && Linked(s.rows)
    ensures Linked(Respond(env, s).rows)
  {
    if s.pending.Some? {
      var m := Respond(env, s).own[|s.own|];
      AloneAppends(env, s, m);
      TurnKeepsLinks(s.rows, m);
    }
  }

  lemma PassKeepsLinks(env: Environment, s: AgentState)
    requires Alone(env) && LabelsCalls(env) && AtPlan(s) && Linked(s.rows)
    ensures var turn := Pass(env, s);
            && (turn.Ended? ==> Linked(turn.step.state.rows))
            && (turn.Again? ==> Linked(turn.state.rows))
  {
    PlanKeepsLinks(env, s);
    var plan := Plan(env, s);
    if plan.Next? {
      RespondKeepsLinks(env, plan.state);
      if PlanLeadsToTools(plan.state) {
        var p := plan.state;
        BatchKeepsLinks(env, p.(pending := None), |p.rows| - 1, 0);
        assert p.calls[0..] == p.calls;
        var tools := ExecuteTools(env, p);
        if tools.Next? { RespondKeepsLinks(env, Validate(tools.state)); }
      }
    }
  }

  lemma {:induction false} CycleKeepsLinks(env: Environment, s: AgentState)
    requires Alone(env) && LabelsCalls(env) && AtPlan(s) && WithinBudget(s) && Linked(s.rows)
    ensures Linked(Cycle(env, s).state.rows)
    decreases s.maxIterations - s.iteration
  {
    PassKeepsLinks(env, s);
    PassIsBounded(env, s);
    PassSpendsBudget(env, s);
    if Pass(env, s).Ended? {
    } else {
      CycleKeepsLinks(env, Pass(env, s).state);
    }
  }

  /** A run that is alone and whose model labels its calls keeps every result linked. */
  lemma RunKeepsLinks(
    env: Environment, rows: seq<Message>, text: string, window: nat, toolsAvailable: bool, maxIterations: int)
    requires Alone(env) && LabelsCalls(env) && Linked(rows)
    ensures Linked(Run(env, rows, text, window, toolsAvailable, maxIterations).state.rows)
  {
    var start := Opening(env, rows, text, window, toolsAvailable, maxIterations);
    var user := Message(User, Some(text), [], None, None);
    assert start.rows == rows + [user];
    TurnKeepsLinks(rows, user);
    CycleKeepsLinks(env, start);
  }

  // ------------------------------------------------------------ whole conversations --

  /** One request of the user, with the environment it meets. */
  datatype Request = Request(env: Environment, text: string, window: nat, toolsAvailable: bool, maxIterations: int)

  function AfterRequest(rows: seq<Message>, r: Request): seq<Message> {
    Run(r.env, rows, r.text, r.window, r.toolsAvailable, r.maxIterations).state.rows
  }

  function Conversation(requests: seq<Request>): seq<Message> {
    if |requests| == 0 then []
    else AfterRequest(Conversation(requests[..|requests| - 1]), requests[|requests| - 1])
  }

  /** Requests follow one another and every model labels its calls. */
  ghost predicate Orderly(requests: seq<Request>) {
    forall i :: 0 <= i < |requests| ==> Alone(requests[i].env) && LabelsCalls(requests[i].env)
  }

  predicate Contiguous(rows: seq<Message>, w: nat) { IsSuffix(History(rows, w), View(rows)) }

  lemma {:induction false} OrderlyConversationsAreLinked(requests: seq<Request>)
    requires Orderly(requests)
    ensures Linked(Conversation(requests))
  {
    if |requests| == 0 {
    } else {
      var before, r := requests[..|requests| - 1], requests[|requests| - 1];
      OrderlyConversationsAreLinked(before);
      RunKeepsLinks(r.env, Conversation(before), r.text, r.window, r.toolsAvailable, r.maxIterations);
    }
  }

  /** Of any conversation, also one of overlapping requests, every window is contiguous
      after its repair exactly when its rows are linked; and they are if the requests
      follow one another and every model labels its calls. */
  lemma ConversationsStayContiguous(requests: seq<Request>)
    ensures var rows := Conversation(requests);
            && (Orderly(requests) ==> Linked(rows))
            && ((forall w: nat :: w <= |rows| ==> Contiguous(rows, w)) <==> Linked(rows))
  {
    var rows := Conversation(requests);
    if Orderly(requests) { OrderlyConversationsAreLinked(requests); }
    WindowsAreSuffixesExactlyWhenLinked(rows);
    assert forall w: nat :: w <= |rows| ==> (Contiguous(rows, w) <==> IsSuffix(History(rows, w), View(rows)));
  }

  // ---------------------------------------------------------- conversations with gaps --

  /** A model that makes one call and no more, a tool that answers, and whoever else writes. */
  function OneCall(call: ToolCall, arrivals: nat -> seq<Message>): Environment {
    Environment((n, history) => Reply(None, [call]), n => Succeeded("ok", None), (answer, approval) => "",
                [], arrivals)
  }

  function Asking(text: string): Message { Message(User, Some(text), [], None, None) }

  const LEADS := "crm__get_leads"

  lemma OneCallLeaves(call: ToolCall, arrivals: nat -> seq<Message>)
    ensures Conversation([Request(OneCall(call, arrivals), "leads?", 20, true, 1)])
            == [Asking("leads?")] + arrivals(0) + [AssistantTurn(None, [call])] + arrivals(1)
               + [ToolTurn(Succeeds(call, "ok", None), "ok")]
  {
    var env := OneCall(call, arrivals);
    var r := Request(env, "leads?", 20, true, 1);
    assert [r][..0] == [];
    var s := Opening(env, [], "leads?", 20, true, 1);
    assert s.rows == [Asking("leads?")];
    ProposalPasses(env, s, call);
    var p := Proposed(env, s, call);
    BatchLeadsOn(env, Recorded(env, p, call, env.gate(0)).(calls := []));
  }

  /** A result whose nearest turn does not keep its id drops out of the last window of two. */
  lemma LastResultDrops(rows: seq<Message>, k: nat)
    requires |rows| == k + 2 && Follows(rows, k, k + 1) && !KeepsId(rows[k], rows[k + 1])
    ensures !Linked(rows) && !Contiguous(rows, 2)
  {
    HistoryRepairsTheView(rows, 2);
    LostIdBreaksTheWindow(rows, k, k + 1);
  }

  lemma OneCallIsLabelled(call: ToolCall, arrivals: nat -> seq<Message>)
    requires call.id != "" && call.name != ""
    ensures LabelsCalls(OneCall(call, arrivals))
  {
  }

  /** The rows of `OneCallLeaves`, with one row of another request before the answer. */
  function Overlapped(call: ToolCall): seq<Message> {
    [Asking("leads?"), AssistantTurn(None, [call]), Asking("and sales?"), ToolTurn(Succeeds(call, "ok", None), "ok")]
  }

  lemma OverlappedHasAGap(call: ToolCall)
    ensures !Linked(Overlapped(call)) && !Contiguous(Overlapped(call), 2)
  {
    LastResultDrops(Overlapped(call), 2);
  }

  lemma OverlapIsReached(call: ToolCall, arrivals: nat -> seq<Message>)
    requires arrivals(0) == [] && arrivals(1) == [Asking("and sales?")]
    ensures Conversation([Request(OneCall(call, arrivals), "leads?", 20, true, 1)]) == Overlapped(call)
  {
    OneCallLeaves(call, arrivals);
  }

  /** A labelled call and its answer, with another request's message between them. */
  lemma OverlapLeavesAGap() returns (request: Request)
    ensures LabelsCalls(request.env)
    ensures var rows := Conversation([request]); |rows| == 4 && !Linked(rows) && !Contiguous(rows, 2)
  {
    var call := ToolCall("call_1", LEADS, []);
    var arrivals := n => if n == 1 then [Asking("and sales?")] else [];
    request := Request(OneCall(call, arrivals), "leads?", 20, true, 1);
    OneCallIsLabelled(call, arrivals);
    OverlappedHasAGap(call);
    OverlapIsReached(call, arrivals);
  }

  /** A lone request whose model leaves the id of its call empty. */
  lemma EmptyIdLeavesAGap() returns (request: Request)
    ensures Alone(request.env)
    ensures var rows := Conversation([request]); |rows| == 3 && !Linked(rows) && !Contiguous(rows, 2)
  {
    var call := ToolCall("", LEADS, []);
    request := Request(OneCall(call, n => []), "leads?", 20, true, 1);
    OneCallLeaves(call, n => []);
    var rows := [Asking("leads?"), AssistantTurn(None, [call]), ToolTurn(Succeeds(call, "ok", None), "ok")];
    assert Conversation([request]) == rows;
    LastResultDrops(rows, 1);
  }
}
