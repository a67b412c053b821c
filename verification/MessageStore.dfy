/** The messages table of one conversation (`app/repositories/conversation_repository.py`):
    sequence numbers are read first and written later, under a unique index, by any
    number of concurrent appenders. */
module MessageStore {
  import opened Json
  import opened Transcript

  /** Rows by sequence number: the unique index. */
  type Table = map<nat, Message>

  const MAX_PAGE_SIZE := 200
  const DEFAULT_WINDOW := 50

  function ClampLimit(limit: Option<int>, default: nat): nat {
    if limit.None? then default
    else if limit.value < 1 then 1
    else if limit.value > MAX_PAGE_SIZE then MAX_PAGE_SIZE
    else limit.value
  }

  /** `max(sequence)`, or 0 for an empty conversation. */
  ghost predicate IsTop(keys: set<nat>, top: nat) {
    (forall k :: k in keys ==> k <= top) && (if keys == {} then top == 0 else top in keys)
  }

  lemma {:induction false} HasTop(keys: set<nat>)
    ensures exists top :: IsTop(keys, top)
    decreases keys
  {
    if keys == {} {
      assert IsTop(keys, 0);
    } else {
      var k :| k in keys;
      HasTop(keys - {k});
      var top :| IsTop(keys - {k}, top);
      var m := if top < k then k else top;
      assert forall j :: j in keys ==> j == k || j in keys - {k};
      assert m in keys by { if keys - {k} == {} { assert keys == {k}; } }
      assert IsTop(keys, m);
    }
  }

  ghost function Top(keys: set<nat>): (top: nat)
    ensures IsTop(keys, top)
  {
    HasTop(keys);
    var top :| IsTop(keys, top);
    top
  }

  /** `ORDER BY sequence DESC LIMIT k`. */
  ghost function Newest(t: Table, k: nat): seq<Message>
    decreases k
  {
    if k == 0 || t == map[] then [] else [t[Top(t.Keys)]] + Newest(t - {Top(t.Keys)}, k - 1)
  }

  function Reversed<T>(s: seq<T>): seq<T> { if s == [] then [] else Reversed(s[1..]) + [s[0]] }

  ghost function Listing(t: Table, limit: Option<int>): seq<Message> {
    Reversed(Newest(t, ClampLimit(limit, DEFAULT_WINDOW)))
  }

  /** `load_history`: a missing or zero limit means the configured one. */
  ghost function LoadHistory(t: Table, limit: Option<int>, configured: int): seq<Message> {
    Repair(View(Listing(t, if limit == None || limit == Some(0) then Some(configured) else limit)))
  }

  // ------------------------------------------------------ concurrent appenders --

  type Appender = nat

  /** `reading` holds the number each appender has read and not yet written. */
  datatype State = State(rows: Table, reading: map<Appender, nat>)

  datatype Action =
    | Read(who: Appender)
    | Insert(who: Appender, message: Message)

  const START := State(map[], map[])

  /** An insert that would break the unique index fails and is rolled back. */
  ghost function Apply(st: State, a: Action): State {
    match a
    case Read(who) => st.(reading := st.reading[who := Top(st.rows.Keys) + 1])
    case Insert(who, message) =>
      if who !in st.reading then st
      else
        var n := st.reading[who];
        State(if n in st.rows then st.rows else st.rows[n := message], st.reading - {who})
  }

  ghost function Run(actions: seq<Action>): State {
    if actions == [] then START else Apply(Run(actions[..|actions| - 1]), actions[|actions| - 1])
  }

  /** The numbers in use are exactly 1 .. n. */
  ghost predicate Numbered(t: Table, n: nat) { forall k :: k in t <==> 1 <= k <= n }

  /** The transcript: rows in the order of their numbers. */
  function Contents(t: Table, n: nat): seq<Message>
    requires Numbered(t, n)
  {
    seq(n, i requires 0 <= i < n => t[i + 1])
  }

  ghost predicate Inv(st: State) {
    Numbered(st.rows, |st.rows|) && forall who :: who in st.reading ==> 1 <= st.reading[who] <= |st.rows| + 1
  }

  lemma TopOfNumbered(t: Table, n: nat)
    requires Numbered(t, n)
    ensures Top(t.Keys) == n
  {
    if n > 0 { assert n in t.Keys; }
  }

  lemma {:induction false} NumberedSize(t: Table, n: nat)
    requires Numbered(t, n)
    ensures |t| == n
    decreases n
  {
    if n == 0 {
      assert t == map[];
    } else {
      NumberedSize(t - {n}, n - 1);
      assert t == (t - {n})[n := t[n]];
    }
  }

  lemma StepKeepsInv(st: State, a: Action)
    requires Inv(st)
    ensures Inv(Apply(st, a))
  {
    TopOfNumbered(st.rows, |st.rows|);
  }

  lemma {:induction false} RunKeepsInv(actions: seq<Action>)
    ensures Inv(Run(actions))
  {
    if actions == [] {
    } else {
      RunKeepsInv(actions[..|actions| - 1]);
      StepKeepsInv(Run(actions[..|actions| - 1]), actions[|actions| - 1]);
    }
  }

  /** Whoever races, the numbers of a conversation are always 1 .. n. */
  lemma SequencesHaveNoGaps(actions: seq<Action>)
    ensures Numbered(Run(actions).rows, |Run(actions).rows|)
  {
    RunKeepsInv(actions);
  }

  /** An append succeeds exactly when nobody else appended since its number was read,
      and then it becomes the last message. */
  lemma {:induction false} InsertSucceedsExactlyWhenUncontended(actions: seq<Action>, who: Appender, m: Message)
    requires who in Run(actions).reading
    ensures var st := Run(actions);
            var st' := Run(actions + [Insert(who, m)]);
            && Numbered(st.rows, |st.rows|) && Numbered(st'.rows, |st'.rows|)
            && Contents(st'.rows, |st'.rows|)
               == Contents(st.rows, |st.rows|) + (if st.reading[who] == |st.rows| + 1 then [m] else [])
            && who !in st'.reading
  {
    RunKeepsInv(actions);
    RunKeepsInv(actions + [Insert(who, m)]);
    assert (actions + [Insert(who, m)])[..|actions|] == actions;
  }

  /** Without a number there is no insert. */
  lemma {:induction false} UnnumberedInsertDoesNothing(actions: seq<Action>, who: Appender, m: Message)
    requires who !in Run(actions).reading
    ensures Run(actions + [Insert(who, m)]) == Run(actions)
  {
    assert (actions + [Insert(who, m)])[..|actions|] == actions;
  }

  /** So an append that nobody comes between becomes the last message, after any history. */
  lemma {:induction false} UndisturbedAppendIsLast(actions: seq<Action>, who: Appender, m: Message)
    ensures var st := Run(actions);
            var st' := Run(actions + [Read(who)] + [Insert(who, m)]);
            && Numbered(st.rows, |st.rows|) && Numbered(st'.rows, |st'.rows|)
            && Contents(st'.rows, |st'.rows|) == Contents(st.rows, |st.rows|) + [m]
  {
    RunKeepsInv(actions);
    TopOfNumbered(Run(actions).rows, |Run(actions).rows|);
    assert (actions + [Read(who)])[..|actions|] == actions;
    InsertSucceedsExactlyWhenUncontended(actions + [Read(who)], who, m);
  }

  /** Nothing stored is ever changed or moved. */
  lemma {:induction false} TranscriptOnlyGrows(actions: seq<Action>, k: nat)
    requires k <= |actions|
    ensures Numbered(Run(actions[..k]).rows, |Run(actions[..k]).rows|)
    ensures Numbered(Run(actions).rows, |Run(actions).rows|)
    ensures Contents(Run(actions[..k]).rows, |Run(actions[..k]).rows|)
            <= Contents(Run(actions).rows, |Run(actions).rows|)
  {
    RunKeepsInv(actions[..k]);
    RunKeepsInv(actions);
    if k == |actions| {
      assert actions[..k] == actions;
    } else {
      var before := actions[..|actions| - 1];
      assert before[..k] == actions[..k];
      TranscriptOnlyGrows(before, k);
    }
  }

  // ------------------------------------------------------------------- reading --

  lemma ContentsWithoutTop(t: Table, n: nat)
    requires Numbered(t, n) && n > 0
    ensures Numbered(t - {n}, n - 1)
    ensures Contents(t, n) == Contents(t - {n}, n - 1) + [t[n]]
  {
  }

  lemma LastOfAppend(s: seq<Message>, m: Message, k: nat)
    requires k > 0
    ensures Last(s + [m], k) == Last(s, k - 1) + [m]
  {
  }

  lemma TopIsAKey(t: Table)
    requires t != map[]
    ensures Top(t.Keys) in t
  {
    assert t.Keys != {};
  }

  lemma NewestStep(t: Table, k: nat)
    requires t != map[] && k > 0
    ensures var top := Top(t.Keys);
            top in t && Reversed(Newest(t, k)) == Reversed(Newest(t - {top}, k - 1)) + [t[top]]
  {
    TopIsAKey(t);
    var top := Top(t.Keys);
    var rest := Newest(t - {top}, k - 1);
    assert Newest(t, k) == [t[top]] + rest && ([t[top]] + rest)[1..] == rest;
  }

  lemma NewestBeginsWithTop(t: Table, n: nat, k: nat)
    requires Numbered(t, n) && n > 0 && k > 0
    ensures n in t && Numbered(t - {n}, n - 1)
    ensures Reversed(Newest(t, k)) == Reversed(Newest(t - {n}, k - 1)) + [t[n]]
    ensures Contents(t, n) == Contents(t - {n}, n - 1) + [t[n]]
  {
    assert n in t;
    TopOfNumbered(t, n);
    NewestStep(t, k);
    ContentsWithoutTop(t, n);
  }

  lemma NumberedToNothing(t: Table, k: nat)
    requires Numbered(t, 0)
    ensures Newest(t, k) == [] && Contents(t, 0) == []
  {
    assert t == map[];
  }

  lemma {:induction false} NewestOfNumbered(t: Table, n: nat, k: nat)
    requires Numbered(t, n)
    ensures Reversed(Newest(t, k)) == Last(Contents(t, n), k)
    decreases k
  {
    if n == 0 {
      NumberedToNothing(t, k);
    } else if k == 0 {
    } else {
      NewestBeginsWithTop(t, n, k);
      NewestOfNumbered(t - {n}, n - 1, k - 1);
      LastOfAppend(Contents(t - {n}, n - 1), t[n], k);
    }
  }

  /** What a reader gets after any history of appends: the last messages, oldest first, as
      many as asked for, or 50, but never fewer than 1 or more than 200. */
  lemma ListingIsTheTail(actions: seq<Action>, limit: Option<int>)
    ensures var t := Run(actions).rows;
            var n := if limit.None? then 50
                     else if limit.value < 1 then 1 else if limit.value > 200 then 200 else limit.value;
            && Numbered(t, |t|)
            && Listing(t, limit) == Last(Contents(t, |t|), ClampLimit(limit, DEFAULT_WINDOW))
            && Listing(t, limit) == Contents(t, |t|)[if n <= |t| then |t| - n else 0..]
  {
    RunKeepsInv(actions);
    var t := Run(actions).rows;
    NewestOfNumbered(t, |t|, ClampLimit(limit, DEFAULT_WINDOW));
  }

  lemma LinkedHistoryIsATail(rows: seq<Message>, w: nat)
    requires Linked(rows)
    ensures IsSuffix(History(rows, w), View(rows)) && |History(rows, w)| <= w
  {
    var k := if w <= |rows| then w else |rows|;
    assert Last(rows, w) == Last(rows, k);
    WindowsAreSuffixesExactlyWhenLinked(rows);
    assert IsSuffix(History(rows, k), View(rows));
    RepairIsAcceptable(View(Last(rows, k)));
    SubsequenceIsNoLonger(Repair(View(Last(rows, k))), View(Last(rows, k)));
  }

  /** The history a model is given is a contiguous tail of a linked transcript, of at
      most the configured size. */
  lemma HistoryIsATail(actions: seq<Action>, limit: Option<int>, configured: int)
    requires Numbered(Run(actions).rows, |Run(actions).rows|)
    requires var t := Run(actions).rows; Linked(Contents(t, |t|))
    ensures var t := Run(actions).rows;
            && IsSuffix(LoadHistory(t, limit, configured), View(Contents(t, |t|)))
            && |LoadHistory(t, limit, configured)| <= MAX_PAGE_SIZE
  {
    var t := Run(actions).rows;
    var asked := if limit == None || limit == Some(0) then Some(configured) else limit;
    ListingIsTheTail(actions, asked);
    LinkedHistoryIsATail(Contents(t, |t|), ClampLimit(asked, DEFAULT_WINDOW));
  }

  /** How many rows are asked for: what the caller says, unless that is nothing or zero,
      or else the configured number, and never fewer than 1 or more than 200. */
  function WindowSize(limit: Option<int>, configured: int): nat {
    var asked := if limit == None || limit.value == 0 then configured else limit.value;
    if asked < 1 then 1 else if asked > 200 then 200 else asked
  }

  /** `history` is the view of `rows` from place `n` on, but for the results it begins with. */
  ghost predicate TailFrom(rows: seq<Message>, history: seq<Message>, n: nat) {
    n <= |rows| && exists f: nat :: FirstTurnAt(rows, n, f) && history == View(rows)[f..]
  }

  /** From place `n` on, the first row that is no result is at `f`, if there is one. */
  predicate FirstTurnAt(rows: seq<Message>, n: nat, f: nat) {
    && n <= f <= |rows| && (forall i :: n <= i < f ==> rows[i].speaker.Tool?)
    && (f < |rows| ==> !rows[f].speaker.Tool?)
  }

  lemma LinkedWindowFromFirstTurn(rows: seq<Message>, n: nat)
    requires Linked(rows) && n <= |rows|
    ensures TailFrom(rows, Repair(View(rows)[n..]), n)
  {
    var w := View(rows)[n..];
    var f := FirstTurn(w);
    forall i | n <= i < n + f ensures rows[i].speaker.Tool? { assert w[..f][i - n] == ToLlm(rows[i]); }
    assert FirstTurnAt(rows, n, n + f);
    if n + f < |rows| { LaterResultsAreKnown(rows, n, f); }
    WindowKeptFromFirstTurn(w, f);
    assert w[f..] == View(rows)[n + f..];
  }

  lemma ViewOfLast(rows: seq<Message>, w: nat)
    ensures var n := if w <= |rows| then |rows| - w else 0; View(Last(rows, w)) == View(rows)[n..]
  {
  }

  /** Exactly which part: as many of the last rows as asked for, without the results at
      their head, whose call they have lost. */
  lemma HistoryIsExactlyTheWindow(actions: seq<Action>, limit: Option<int>, configured: int)
    requires Numbered(Run(actions).rows, |Run(actions).rows|)
    requires var t := Run(actions).rows; Linked(Contents(t, |t|))
    ensures var t := Run(actions).rows;
            var rows := Contents(t, |t|);
            var n := WindowSize(limit, configured);
            TailFrom(rows, LoadHistory(t, limit, configured), if n <= |rows| then |rows| - n else 0)
  {
    var t := Run(actions).rows;
    var rows := Contents(t, |t|);
    var asked := if limit == None || limit == Some(0) then Some(configured) else limit;
    ListingIsTheTail(actions, asked);
    var n := WindowSize(limit, configured);
    assert ClampLimit(asked, DEFAULT_WINDOW) == n;
    ViewOfLast(rows, n);
    LinkedWindowFromFirstTurn(rows, if n <= |rows| then |rows| - n else 0);
  }

  // -------------------------------------------------------------- the repository --

  class ConversationRepository {
    var rows: Table

    constructor ()
      ensures rows == map[]
    {
      rows := map[];
    }

    method NextSequence() returns (next: nat)
      ensures next == Top(rows.Keys) + 1
    {
      var top := TopOf(rows.Keys);
      next := top + 1;
    }

    /** The aggregate the database computes. */
    static method TopOf(keys: set<nat>) returns (top: nat)
      ensures top == Top(keys)
    {
      top := 0;
      var left := keys;
      while left != {}
        invariant left <= keys
        invariant forall k :: k in keys && k !in left ==> k <= top
        invariant if keys == left then top == 0 else top in keys
        decreases |left|
      {
        var k :| k in left;
        top := if k > top || keys == left then k else top;
        left := left - {k};
      }
      assert IsTop(keys, top);
    }

    /** Undisturbed, an append adds its message at the end. */
    method AddMessage(m: Message) returns (sequence: nat)
      requires Numbered(rows, |rows|)
      modifies this
      ensures Numbered(rows, |rows|) && sequence == |rows|
      ensures Contents(rows, |rows|) == old(Contents(rows, |rows|)) + [m]
    {
      sequence := NextSequence();
      TopOfNumbered(rows, |rows|);
      rows := rows[sequence := m];
    }

    /** Newest first from the database, then turned around. */
    method ListMessages(limit: Option<int>) returns (window: seq<Message>)
      ensures window == Listing(rows, limit)
    {
      var k := ClampLimit(limit, DEFAULT_WINDOW);
      window := [];
      var left, taken := rows, 0;
      while taken < k && left != map[]
        invariant taken <= k
        invariant Reversed(Newest(rows, k)) == Reversed(Newest(left, k - taken)) + window
      {
        NewestStep(left, k - taken);
        var top := TopOf(left.Keys);
        window := [left[top]] + window;
        left, taken := left - {top}, taken + 1;
      }
    }
  }
}
