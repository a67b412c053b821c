/** The stored transcript and the history rebuilt from a window of it
    (`app/services/conversation_service.py`).  A window can cut between an assistant's
    call and its result; the repair drops the results left behind. */
module Transcript {
  import opened Json

  datatype Speaker = System | User | Assistant | Tool

  datatype ToolCall = ToolCall(id: string, name: string, args: seq<Field>)

  datatype Message = Message(
    speaker: Speaker,
    content: Option<string>,
    calls: seq<ToolCall>,
    callId: Option<string>,
    toolName: Option<string>)

  // -------------------------------------------------------------------- views --

  /** The calls that survive the mapping from a row: both strings must be non-empty. */
  function Named(calls: seq<ToolCall>): seq<ToolCall> {
    if calls == [] then []
    else
      var rest := Named(calls[1..]);
      if calls[0].id != "" && calls[0].name != "" then [calls[0]] + rest else rest
  }

  /** Each call survives as often as it is there if it has an id and a name, and not
      otherwise; */
  lemma {:induction false} NamedExactly(calls: seq<ToolCall>, c: ToolCall)
    ensures multiset(Named(calls))[c] == if c.id == "" || c.name == "" then 0 else multiset(calls)[c]
  {
    if calls == [] {
    } else {
      NamedExactly(calls[1..], c);
      assert calls == [calls[0]] + calls[1..];
    }
  }

  /** and the order stays. */
  lemma {:induction false} NamedOfConcat(calls: seq<ToolCall>, more: seq<ToolCall>)
    ensures Named(calls + more) == Named(calls) + Named(more)
  {
    if calls == [] {
      assert calls + more == more;
    } else {
      NamedOfConcat(calls[1..], more);
      assert (calls + more)[1..] == calls[1..] + more;
    }
  }

  function ToLlm(row: Message): Message { row.(calls := Named(row.calls)) }

  function View(rows: seq<Message>): seq<Message> { seq(|rows|, i requires 0 <= i < |rows| => ToLlm(rows[i])) }

  function Ids(calls: seq<ToolCall>): set<string> { set c | c in calls :: c.id }

  // ------------------------------------------------------------------- repair --

  /** The call ids announced so far. */
  function Known(ms: seq<Message>): set<string> {
    if ms == [] then {}
    else
      var m := ms[|ms| - 1];
      Known(ms[..|ms| - 1]) + (if m.speaker.Assistant? then Ids(m.calls) else {})
  }

  predicate Answers(m: Message, known: set<string>) {
    m.speaker.Tool? ==> m.callId.Some? && m.callId.value != "" && m.callId.value in known
  }

  function Repair(ms: seq<Message>): seq<Message> {
    if ms == [] then []
    else
      var m := ms[|ms| - 1];
      Repair(ms[..|ms| - 1]) + (if Answers(m, Known(ms[..|ms| - 1])) then [m] else [])
  }

  /** `_repair_dangling_tool_messages`, as the source runs it: one pass, one growing set. */
  method RepairDangling(messages: seq<Message>) returns (repaired: seq<Message>)
    ensures repaired == Repair(messages)
  {
    var known: set<string> := {};
    repaired := [];
    for i := 0 to |messages|
      invariant known == Known(messages[..i])
      invariant repaired == Repair(messages[..i])
    {
      var m := messages[i];
      assert messages[..i + 1][..i] == messages[..i];
      match m.speaker
      case Assistant =>
        known := known + Ids(m.calls);
        repaired := repaired + [m];
      case Tool =>
        if m.callId.Some? && m.callId.value != "" && m.callId.value in known { repaired := repaired + [m]; }
      case _ =>
        repaired := repaired + [m];
    }
    assert messages[..|messages|] == messages;
  }

  // ------------------------------------------------- what the repair amounts to --

  /** The provider's rule: every tool message comes after an assistant message that
      carries its id. */
  predicate Acceptable(ms: seq<Message>) {
    forall i :: 0 <= i < |ms| && ms[i].speaker.Tool? ==>
      ms[i].callId.Some? && ms[i].callId.value != "" && AnnouncedBefore(ms, i, ms[i].callId.value)
  }

  predicate AnnouncedBefore(ms: seq<Message>, i: nat, id: string)
    requires i <= |ms|
  {
    exists j :: 0 <= j < i && Announces(ms[j], id)
  }

  predicate Announces(m: Message, id: string) { m.speaker.Assistant? && id in Ids(m.calls) }

  /** The same messages in the same order, some left out. */
  predicate Subsequence(s: seq<Message>, t: seq<Message>)
    decreases |t|
  {
    if s == [] then true
    else if t == [] then false
    else
      || (s[|s| - 1] == t[|t| - 1] && Subsequence(s[..|s| - 1], t[..|t| - 1]))
      || Subsequence(s, t[..|t| - 1])
  }

  lemma {:induction false} KnownAreAnnounced(ms: seq<Message>, id: string)
    ensures id in Known(ms) <==> AnnouncedBefore(ms, |ms|, id)
  {
    if ms == [] {
    } else {
      var init := ms[..|ms| - 1];
      KnownAreAnnounced(init, id);
      if AnnouncedBefore(init, |init|, id) {
        var j :| 0 <= j < |init| && Announces(init[j], id);
        assert Announces(ms[j], id);
      }
      if AnnouncedBefore(ms, |ms|, id) {
        var j :| 0 <= j < |ms| && Announces(ms[j], id);
        assert j < |init| ==> Announces(init[j], id);
      }
    }
  }

  lemma AcceptablePrefix(ms: seq<Message>, n: nat)
    requires Acceptable(ms) && n <= |ms|
    ensures Acceptable(ms[..n])
  {
    forall i | 0 <= i < n && ms[i].speaker.Tool? ensures AnnouncedBefore(ms[..n], i, ms[i].callId.value) {
      var j :| 0 <= j < i && Announces(ms[j], ms[i].callId.value);
      assert Announces(ms[..n][j], ms[i].callId.value);
    }
  }

  /** Leaving messages out announces nothing new; the repair keeps every announcement. */
  lemma {:induction false} SubsequenceKnowsLess(s: seq<Message>, t: seq<Message>)
    requires Subsequence(s, t)
    ensures Known(s) <= Known(t)
    decreases |t|
  {
    if s == [] {
    } else {
      if s[|s| - 1] == t[|t| - 1] && Subsequence(s[..|s| - 1], t[..|t| - 1]) {
        SubsequenceKnowsLess(s[..|s| - 1], t[..|t| - 1]);
      } else {
        SubsequenceKnowsLess(s, t[..|t| - 1]);
      }
    }
  }

  lemma {:induction false} RepairKeepsKnown(ms: seq<Message>)
    ensures Known(Repair(ms)) == Known(ms)
  {
    if ms == [] {
    } else {
      var init, m := ms[..|ms| - 1], ms[|ms| - 1];
      RepairKeepsKnown(init);
      if Answers(m, Known(init)) {
        assert Repair(ms)[..|Repair(ms)| - 1] == Repair(init);
      } else {
        assert Repair(ms) == Repair(init);
      }
    }
  }

  /** What the repair returns is acceptable and is what was there, in order. */
  lemma {:induction false} RepairIsAcceptable(ms: seq<Message>)
    ensures Acceptable(Repair(ms)) && Subsequence(Repair(ms), ms)
  {
    if ms == [] {
    } else {
      var init, m := ms[..|ms| - 1], ms[|ms| - 1];
      var r := Repair(init);
      RepairIsAcceptable(init);
      RepairKeepsKnown(init);
      if Answers(m, Known(init)) {
        assert (r + [m])[..|r|] == r;
        if m.speaker.Tool? { KnownAreAnnounced(r, m.callId.value); }
        AppendKeepsAcceptable(r, m);
      } else {
        assert Repair(ms) == r;
      }
    }
  }

  lemma AppendKeepsAcceptable(ms: seq<Message>, m: Message)
    requires Acceptable(ms)
    requires m.speaker.Tool? ==>
               m.callId.Some? && m.callId.value != "" && AnnouncedBefore(ms, |ms|, m.callId.value)
    ensures Acceptable(ms + [m])
  {
    forall i | 0 <= i <= |ms| && (ms + [m])[i].speaker.Tool?
      ensures (ms + [m])[i].callId.Some? && (ms + [m])[i].callId.value != ""
      ensures AnnouncedBefore(ms + [m], i, (ms + [m])[i].callId.value)
    {
      var id := (ms + [m])[i].callId.value;
      var j :| 0 <= j < i && Announces(ms[j], id);
      assert Announces((ms + [m])[j], id);
    }
  }

  /** Nothing is dropped needlessly: every acceptable selection is contained in the repair. */
  lemma {:induction false} RepairIsLargest(s: seq<Message>, ms: seq<Message>)
    requires Subsequence(s, ms) && Acceptable(s)
    ensures Subsequence(s, Repair(ms))
    decreases |ms|
  {
    if s == [] {
    } else {
      var init, m := ms[..|ms| - 1], ms[|ms| - 1];
      var s' := s[..|s| - 1];
      if s[|s| - 1] == m && Subsequence(s', init) {
        AcceptablePrefix(s, |s| - 1);
        RepairIsLargest(s', init);
        if m.speaker.Tool? { LastIsKnown(s, init); }
        assert (Repair(init) + [m])[..|Repair(init)|] == Repair(init);
      } else {
        RepairIsLargest(s, init);
        SubsequenceOfLonger(s, Repair(init), Repair(ms));
      }
    }
  }

  lemma LastIsKnown(s: seq<Message>, init: seq<Message>)
    requires s != [] && Acceptable(s) && s[|s| - 1].speaker.Tool? && Subsequence(s[..|s| - 1], init)
    ensures Answers(s[|s| - 1], Known(init))
  {
    var s', id := s[..|s| - 1], s[|s| - 1].callId.value;
    var j :| 0 <= j < |s| - 1 && Announces(s[j], id);
    assert Announces(s'[j], id);
    KnownAreAnnounced(s', id);
    SubsequenceKnowsLess(s', init);
  }

  lemma SubsequenceOfLonger(s: seq<Message>, t: seq<Message>, u: seq<Message>)
    requires Subsequence(s, t) && (u == t || (|u| == |t| + 1 && u[..|t|] == t))
    ensures Subsequence(s, u)
  {
  }

  lemma {:induction false} SubsequenceIsNoLonger(s: seq<Message>, t: seq<Message>)
    requires Subsequence(s, t)
    ensures |s| <= |t| && (|s| == |t| ==> s == t)
    decreases |t|
  {
    if s == [] {
    } else {
      if s[|s| - 1] == t[|t| - 1] && Subsequence(s[..|s| - 1], t[..|t| - 1]) {
        SubsequenceIsNoLonger(s[..|s| - 1], t[..|t| - 1]);
        assert s == s[..|s| - 1] + [s[|s| - 1]] && t == t[..|t| - 1] + [t[|t| - 1]];
      } else {
        SubsequenceIsNoLonger(s, t[..|t| - 1]);
      }
    }
  }

  lemma {:induction false} SubsequenceOfSelf(s: seq<Message>)
    ensures Subsequence(s, s)
  {
    if s == [] {
    } else {
      SubsequenceOfSelf(s[..|s| - 1]);
    }
  }

  /** The repair changes a history exactly when a provider would refuse it, and a second
      repair changes nothing. */
  lemma RepairFixesExactlyAcceptable(ms: seq<Message>)
    ensures Repair(ms) == ms <==> Acceptable(ms)
    ensures Repair(Repair(ms)) == Repair(ms)
  {
    RepairIsAcceptable(ms);
    if Acceptable(ms) { AcceptableIsFixed(ms); }
    AcceptableIsFixed(Repair(ms));
  }

  lemma AcceptableIsFixed(ms: seq<Message>)
    requires Acceptable(ms)
    ensures Repair(ms) == ms
  {
    SubsequenceOfSelf(ms);
    RepairIsLargest(ms, ms);
    RepairIsAcceptable(ms);
    SubsequenceIsNoLonger(ms, Repair(ms));
    SubsequenceIsNoLonger(Repair(ms), ms);
  }

  // ------------------------------------------------------------------- windows --

  /** The row at `k` is the nearest one before the tool row at `i` that is no tool row. */
  predicate Follows(rows: seq<Message>, k: int, i: int) {
    && 0 <= k < i < |rows| && !rows[k].speaker.Tool?
    && forall j :: k < j <= i ==> rows[j].speaker.Tool?
  }

  /** An assistant row keeps the id of a result: after the mapping it still announces it. */
  predicate KeepsId(call: Message, result: Message) {
    call.speaker.Assistant? && Answers(result, Ids(Named(call.calls)))
  }

  /** The nearest row before each result that is no result is an assistant row that keeps
      its id. */
  ghost predicate Linked(rows: seq<Message>) {
    forall k, i :: Follows(rows, k, i) ==> KeepsId(rows[k], rows[i])
  }

  /** `load_history` on a transcript, for a window of `w` rows. */
  function History(rows: seq<Message>, w: nat): seq<Message> { Repair(View(Last(rows, w))) }

  function Last(rows: seq<Message>, w: nat): seq<Message> {
    if w <= |rows| then rows[|rows| - w..] else rows
  }

  predicate IsSuffix(s: seq<Message>, t: seq<Message>) { |s| <= |t| && s == t[|t| - |s|..] }

  predicate AllTool(ms: seq<Message>) { forall i :: 0 <= i < |ms| ==> ms[i].speaker.Tool? }

  /** A window that opens with results has lost their call: none of them is kept. */
  lemma {:induction false} LeadingResultsAreDropped(ms: seq<Message>)
    requires AllTool(ms)
    ensures Repair(ms) == [] && Known(ms) == {}
  {
    if ms == [] {
    } else {
      LeadingResultsAreDropped(ms[..|ms| - 1]);
    }
  }

  lemma RepairOfAppend(ms: seq<Message>, m: Message)
    ensures Repair(ms + [m]) == Repair(ms) + (if Answers(m, Known(ms)) then [m] else [])
  {
    assert (ms + [m])[..|ms|] == ms;
  }

  /** From the first message that is not a result, everything is kept, if every later
      result is known. */
  lemma {:induction false} KeptFromFirstTurn(w: seq<Message>, f: nat, e: nat)
    requires f < e <= |w| && AllTool(w[..f]) && !w[f].speaker.Tool?
    requires forall i :: f < i < |w| ==> Answers(w[i], Known(w[..i]))
    ensures Repair(w[..e]) == w[f..e]
    decreases e
  {
    SlicesGrow(w, f, e);
    RepairOfAppend(w[..e - 1], w[e - 1]);
    if e - 1 == f {
      LeadingResultsAreDropped(w[..f]);
    } else {
      KeptFromFirstTurn(w, f, e - 1);
    }
  }

  lemma SlicesGrow(w: seq<Message>, f: nat, e: nat)
    requires f < e <= |w|
    ensures w[..e] == w[..e - 1] + [w[e - 1]] && w[f..e] == w[f..e - 1] + [w[e - 1]]
  {
  }

  lemma NearestTurn(rows: seq<Message>, f: nat, i: nat) returns (k: nat)
    requires f < i < |rows| && !rows[f].speaker.Tool? && rows[i].speaker.Tool?
    ensures f <= k && Follows(rows, k, i)
  {
    k := i - 1;
    while rows[k].speaker.Tool?
      invariant f <= k < i && forall j :: k < j <= i ==> rows[j].speaker.Tool?
      decreases k
    {
      k := k - 1;
    }
  }

  lemma ResultIsKnown(rows: seq<Message>, n: nat, f: nat, i: nat)
    requires Linked(rows)
    requires n <= f < i < |rows| && !rows[f].speaker.Tool? && rows[i].speaker.Tool?
    ensures Answers(View(rows)[i], Known(View(rows)[n..i]))
  {
    var v := View(rows);
    var k := NearestTurn(rows, f, i);
    assert KeepsId(rows[k], rows[i]);
    assert Announces(v[n..i][k - n], rows[i].callId.value);
    KnownAreAnnounced(v[n..i], rows[i].callId.value);
  }

  lemma FirstTurn(ms: seq<Message>) returns (f: nat)
    ensures f <= |ms| && AllTool(ms[..f]) && (f < |ms| ==> !ms[f].speaker.Tool?)
  {
    f := 0;
    while f < |ms| && ms[f].speaker.Tool?
      invariant f <= |ms| && AllTool(ms[..f])
    {
      f := f + 1;
    }
  }

  lemma SliceOfSlice<T>(s: seq<T>, n: nat, i: nat)
    requires n + i <= |s|
    ensures s[n..][..i] == s[n..n + i]
  {
  }

  lemma LaterResultIsKnown(rows: seq<Message>, n: nat, f: nat, i: nat)
    requires Linked(rows) && f < i && n + i < |rows| && !rows[n + f].speaker.Tool?
    ensures Answers(View(rows)[n..][i], Known(View(rows)[n..][..i]))
  {
    SliceOfSlice(View(rows), n, i);
    if rows[n + i].speaker.Tool? { ResultIsKnown(rows, n, n + f, n + i); }
  }

  lemma {:induction false} LaterResultsAreKnown(rows: seq<Message>, n: nat, f: nat)
    requires Linked(rows) && n + f < |rows| && !rows[n + f].speaker.Tool?
    ensures var w := View(rows)[n..]; forall i :: f < i < |w| ==> Answers(w[i], Known(w[..i]))
  {
    forall i | f < i < |rows| - n ensures Answers(View(rows)[n..][i], Known(View(rows)[n..][..i])) {
      LaterResultIsKnown(rows, n, f, i);
    }
  }

  lemma WindowKeptFromFirstTurn(w: seq<Message>, f: nat)
    requires f <= |w| && AllTool(w[..f]) && (f < |w| ==> !w[f].speaker.Tool?)
    requires forall i :: f < i < |w| ==> Answers(w[i], Known(w[..i]))
    ensures Repair(w) == w[f..]
  {
    assert w[..|w|] == w && w[f..|w|] == w[f..];
    if f == |w| { LeadingResultsAreDropped(w); } else { KeptFromFirstTurn(w, f, |w|); }
  }

  lemma {:induction false} LinkedWindowIsSuffix(rows: seq<Message>, n: nat)
    requires Linked(rows) && n <= |rows|
    ensures IsSuffix(Repair(View(rows)[n..]), View(rows))
  {
    var w := View(rows)[n..];
    var f := FirstTurn(w);
    if f < |w| { LaterResultsAreKnown(rows, n, f); }
    WindowKeptFromFirstTurn(w, f);
    assert w[f..] == View(rows)[n + f..];
  }

  function Turns(ms: seq<Message>): nat {
    if ms == [] then 0 else Turns(ms[..|ms| - 1]) + (if ms[|ms| - 1].speaker.Tool? then 0 else 1)
  }

  lemma {:induction false} RepairKeepsTurns(ms: seq<Message>)
    ensures Turns(Repair(ms)) == Turns(ms)
  {
    if ms == [] {
    } else {
      var init, m := ms[..|ms| - 1], ms[|ms| - 1];
      RepairKeepsTurns(init);
      if Answers(m, Known(init)) { assert Repair(ms)[..|Repair(ms)| - 1] == Repair(init); }
      else { assert Repair(ms) == Repair(init); }
    }
  }

  lemma {:induction false} TurnsAddUp(s: seq<Message>, t: seq<Message>)
    ensures Turns(s + t) == Turns(s) + Turns(t)
  {
    if t == [] {
      assert s + t == s;
    } else {
      TurnsAddUp(s, t[..|t| - 1]);
      assert (s + t)[..|s + t| - 1] == s + t[..|t| - 1];
    }
  }

  /** Cutting a window that opens with a turn loses that turn. */
  lemma CutLosesTurns(w: seq<Message>, a: nat)
    requires 0 < a <= |w| && !w[0].speaker.Tool?
    ensures Turns(w[a..]) < Turns(w)
  {
    assert w == [w[0]] + (w[1..a] + w[a..]);
    TurnsAddUp([w[0]], w[1..a] + w[a..]);
    TurnsAddUp(w[1..a], w[a..]);
    assert [w[0]][..0] == [];
  }

  /** A window that opens with a turn keeps every row if its repair is contiguous. */
  lemma ContiguousKeepsAll(v: seq<Message>, k: nat)
    requires k < |v| && !v[k].speaker.Tool? && IsSuffix(Repair(v[k..]), v)
    ensures Repair(v[k..]) == v[k..]
  {
    var w, r := v[k..], Repair(v[k..]);
    RepairIsAcceptable(w);
    SubsequenceIsNoLonger(r, w);
    RepairKeepsTurns(w);
    assert r == w[|w| - |r|..];
    if |r| < |w| { CutLosesTurns(w, |w| - |r|); }
  }

  lemma SuffixKeepsBlock(rows: seq<Message>, k: nat, i: nat)
    requires Follows(rows, k, i) && IsSuffix(Repair(View(rows)[k..]), View(rows))
    ensures KeepsId(rows[k], rows[i])
  {
    var w := View(rows)[k..];
    ContiguousKeepsAll(View(rows), k);
    RepairFixesExactlyAcceptable(w);
    assert w[i - k] == ToLlm(rows[i]);
    var j :| 0 <= j < i - k && Announces(w[j], rows[i].callId.value);
    assert w[j] == ToLlm(rows[k + j]);
    assert j == 0;
  }

  lemma LostIdBreaksTheWindow(rows: seq<Message>, k: nat, i: nat)
    requires Follows(rows, k, i) && !KeepsId(rows[k], rows[i])
    ensures !IsSuffix(Repair(View(rows)[k..]), View(rows))
  {
    if IsSuffix(Repair(View(rows)[k..]), View(rows)) { SuffixKeepsBlock(rows, k, i); }
  }

  lemma HistoryRepairsTheView(rows: seq<Message>, w: nat)
    requires w <= |rows|
    ensures History(rows, w) == Repair(View(rows)[|rows| - w..])
  {
    assert View(rows[|rows| - w..]) == View(rows)[|rows| - w..];
  }

  /** Every window of a transcript is contiguous after its repair exactly when every
      result is linked to the nearest turn before it. */
  lemma WindowsAreSuffixesExactlyWhenLinked(rows: seq<Message>)
    ensures (forall w: nat :: w <= |rows| ==> IsSuffix(History(rows, w), View(rows))) <==> Linked(rows)
  {
    forall w: nat | w <= |rows| ensures History(rows, w) == Repair(View(rows)[|rows| - w..]) {
      HistoryRepairsTheView(rows, w);
    }
    if Linked(rows) {
      forall w: nat | w <= |rows| ensures IsSuffix(History(rows, w), View(rows)) {
        LinkedWindowIsSuffix(rows, |rows| - w);
      }
    } else {
      var k, i :| Follows(rows, k, i) && !KeepsId(rows[k], rows[i]);
      LostIdBreaksTheWindow(rows, k, i);
      assert !IsSuffix(History(rows, |rows| - k), View(rows));
    }
  }
}
