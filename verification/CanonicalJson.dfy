/** The canonical payload form and the digest taken over it
    (`app/core/security.py`): compact separators, sorted keys, text escaped as in
    sections 4 to 7 of RFC 8259.  A parser that inverts the printer shows that the
    form loses nothing but key order. */
module CanonicalJson {
  import opened Json
  import opened KeyOrder

  // ---------------------------------------------------------------- printer --

  predicate IsDigit(c: char) { '0' <= c <= '9' }

  function Digit(d: nat): (c: char)
    requires d < 16
  {
    if d < 10 then '0' + d as char else 'a' + (d - 10) as char
  }

  function Decimal(n: nat): string {
    if n < 10 then [Digit(n)] else Decimal(n / 10) + [Digit(n % 10)]
  }

  /** The backslash, the quote and the control characters are escaped; every other
      character stands for itself, because `ensure_ascii` is off. */
  function Escape(c: char): string {
    if c == '"' then "\\\""
    else if c == '\\' then "\\\\"
    else if c == '\n' then "\\n"
    else if c == '\r' then "\\r"
    else if c == '\t' then "\\t"
    else if c as int == 8 then "\\b"
    else if c as int == 12 then "\\f"
    else if c as int < 0x20 then "\\u00" + [Digit(c as int / 16), Digit(c as int % 16)]
    else [c]
  }

  function EscapeAll(s: string): string {
    if s == "" then "" else Escape(s[0]) + EscapeAll(s[1..])
  }

  function Quote(s: string): string { "\"" + EscapeAll(s) + "\"" }

  function Print(v: Json): string {
    match v
    case Null => "null"
    case Bool(b) => if b then "true" else "false"
    case Num(n) => if n < 0 then "-" + Decimal(-n) else Decimal(n)
    case Str(s) => Quote(s)
    case Arr(xs) => "[" + PrintItems(xs) + "]"
    case Obj(fs) => "{" + PrintMembers(fs) + "}"
  }

  function PrintItems(xs: seq<Json>): string {
    if xs == [] then ""
    else if |xs| == 1 then Print(xs[0])
    else Print(xs[0]) + "," + PrintItems(xs[1..])
  }

  function PrintMembers(fs: seq<Field>): string {
    if fs == [] then ""
    else
      var m := Quote(fs[0].key) + ":" + Print(fs[0].value);
      if |fs| == 1 then m else m + "," + PrintMembers(fs[1..])
  }

  function Canonical(payload: Json): string { Print(SortKeys(payload)) }

  // ----------------------------------------------------------------- parser --

  function HexValue(c: char): Option<nat> {
    if IsDigit(c) then Some((c - '0') as nat)
    else if 'a' <= c <= 'f' then Some((c - 'a') as nat + 10)
    else None
  }

  /** One possibly escaped character, and what follows it. */
  function ReadChar(s: string): (r: Option<(char, string)>)
    ensures r.Some? ==> |r.value.1| < |s|
  {
    if s == "" || s[0] == '"' then None
    else if s[0] != '\\' then Some((s[0], s[1..]))
    else if |s| < 2 then None
    else if s[1] == '"' || s[1] == '\\' then Some((s[1], s[2..]))
    else if s[1] == 'n' then Some(('\n', s[2..]))
    else if s[1] == 'r' then Some(('\r', s[2..]))
    else if s[1] == 't' then Some(('\t', s[2..]))
    else if s[1] == 'b' then Some((8 as char, s[2..]))
    else if s[1] == 'f' then Some((12 as char, s[2..]))
    else if "\\u00" <= s && |s| >= 6 then
      var hi, lo := HexValue(s[4]), HexValue(s[5]);
      if hi.Some? && lo.Some? && hi.value < 16 && lo.value < 16
      then Some(((16 * hi.value + lo.value) as char, s[6..]))
      else None
    else None
  }

  /** The rest of a string literal whose opening quote has been read. */
  function ReadText(s: string): (r: Option<(string, string)>)
    ensures r.Some? ==> |r.value.1| < |s|
    decreases |s|
  {
    if s == "" then None
    else if s[0] == '"' then Some(("", s[1..]))
    else
      match ReadChar(s)
      case None => None
      case Some((c, t)) =>
        match ReadText(t)
        case None => None
        case Some((cs, u)) => Some(([c] + cs, u))
  }

  function ReadDigits(s: string, acc: nat): (r: (nat, string))
    ensures |r.1| <= |s|
  {
    if s == "" || !IsDigit(s[0]) then (acc, s)
    else ReadDigits(s[1..], 10 * acc + (s[0] - '0') as nat)
  }

  function Parse(s: string): (r: Option<(Json, string)>)
    ensures r.Some? ==> |r.value.1| < |s|
    decreases |s|, 0
  {
    if s == "" then None
    else if "null" <= s then Some((Null, s[4..]))
    else if "true" <= s then Some((Bool(true), s[4..]))
    else if "false" <= s then Some((Bool(false), s[5..]))
    else if s[0] == '"' then
      (match ReadText(s[1..])
       case None => None
       case Some((t, rest)) => Some((Str(t), rest)))
    else if IsDigit(s[0]) then
      var (n, rest) := ReadDigits(s[1..], (s[0] - '0') as nat);
      Some((Num(n), rest))
    else if s[0] == '-' && |s| > 1 && IsDigit(s[1]) then
      var (n, rest) := ReadDigits(s[1..], 0);
      Some((Num(0 - n), rest))
    else if s[0] == '[' then
      if |s| > 1 && s[1] == ']' then Some((Arr([]), s[2..]))
      else
        (match ParseItems(s[1..])
         case None => None
         case Some((xs, rest)) => Some((Arr(xs), rest)))
    else if s[0] == '{' then
      if |s| > 1 && s[1] == '}' then Some((Obj([]), s[2..]))
      else
        (match ParseMembers(s[1..])
         case None => None
         case Some((fs, rest)) => Some((Obj(fs), rest)))
    else None
  }

  /** At least one item, up to and including the closing bracket. */
  function ParseItems(s: string): (r: Option<(seq<Json>, string)>)
    ensures r.Some? ==> |r.value.1| < |s|
    decreases |s|, 1
  {
    match Parse(s)
    case None => None
    case Some((v, rest)) =>
      if rest == "" then None
      else if rest[0] == ']' then Some(([v], rest[1..]))
      else if rest[0] != ',' then None
      else
        match ParseItems(rest[1..])
        case None => None
        case Some((vs, t)) => Some(([v] + vs, t))
  }

  /** At least one member, up to and including the closing brace. */
  function ParseMembers(s: string): (r: Option<(seq<Field>, string)>)
    ensures r.Some? ==> |r.value.1| < |s|
    decreases |s|, 1
  {
    if s == "" || s[0] != '"' then None
    else
      match ReadText(s[1..])
      case None => None
      case Some((k, t)) =>
        if t == "" || t[0] != ':' then None
        else
          match Parse(t[1..])
          case None => None
          case Some((v, rest)) =>
            if rest == "" then None
            else if rest[0] == '}' then Some(([Field(k, v)], rest[1..]))
            else if rest[0] != ',' then None
            else
              match ParseMembers(rest[1..])
              case None => None
              case Some((fs, u)) => Some(([Field(k, v)] + fs, u))
  }

  // ------------------------------------------------------------- round trip --

  lemma {:induction false} DecimalReads(n: nat, rest: string)
    ensures ReadDigits(Decimal(n) + rest, 0) == ReadDigits(rest, n)
    ensures IsDigit(Decimal(n)[0])
  {
    if n < 10 {
      assert (Decimal(n) + rest)[1..] == rest;
    } else {
      var tail := [Digit(n % 10)] + rest;
      assert Decimal(n) + rest == Decimal(n / 10) + tail;
      DecimalReads(n / 10, tail);
      assert tail[1..] == rest;
    }
  }

  lemma EscapeReads(c: char, rest: string)
    ensures ReadChar(Escape(c) + rest) == Some((c, rest))
    ensures Escape(c)[0] != '"'
  {
    var s := Escape(c) + rest;
    assert s[|Escape(c)|..] == rest;
    if c as int < 0x20 && |Escape(c)| == 6 {
      assert s[4] == Digit(c as int / 16) && s[5] == Digit(c as int % 16);
      assert s[..4] == "\\u00";
    }
  }

  lemma {:induction false} TextReads(t: string, rest: string)
    ensures ReadText(EscapeAll(t) + "\"" + rest) == Some((t, rest))
  {
    var s := EscapeAll(t) + "\"" + rest;
    if t == "" {
      assert s[0] == '"' && s[1..] == rest;
    } else {
      var tail := EscapeAll(t[1..]) + "\"" + rest;
      assert s == Escape(t[0]) + tail;
      EscapeReads(t[0], tail);
      TextReads(t[1..], rest);
      assert [t[0]] + t[1..] == t;
    }
  }

  /** `rest` cannot be mistaken for the continuation of a number. */
  predicate Delimits(rest: string) { rest == "" || !IsDigit(rest[0]) }

  /** Printing then parsing gives back the value and the untouched remainder. */
  lemma {:induction false} PrintParses(v: Json, rest: string)
    requires Delimits(rest)
    ensures Parse(Print(v) + rest) == Some((v, rest))
    decreases v, 0, 0
  {
    match v
    case Null => NullParses(rest);
    case Bool(b) => BoolParses(b, rest);
    case Num(n) => NumParses(n, rest);
    case Str(t) => StrParses(t, rest);
    case Arr(xs) =>
      if xs == [] {
      } else {
        ItemsParse(xs, rest);
        PrintStarts(xs[0]);
        assert PrintItems(xs)[0] == Print(xs[0])[0];
      }
      ArrayParses(xs, rest);
    case Obj(fs) =>
      if fs == [] {
      } else {
        MembersParse(fs, rest);
      }
      ObjectParses(fs, rest);
  }

  lemma NullParses(rest: string)
    ensures Parse(Print(Null) + rest) == Some((Null, rest))
  {
    var s := "null" + rest;
    assert "null" <= s && s[0] == 'n' && s[4..] == rest;
  }

  lemma StrParses(t: string, rest: string)
    ensures Parse(Print(Str(t)) + rest) == Some((Str(t), rest))
  {
    var s := Print(Str(t)) + rest;
    assert s[0] == '"' && s[1..] == EscapeAll(t) + "\"" + rest;
    TextReads(t, rest);
  }

  lemma BoolParses(b: bool, rest: string)
    ensures Parse(Print(Bool(b)) + rest) == Some((Bool(b), rest))
  {
    var s := Print(Bool(b)) + rest;
    if b { assert "true" <= s && s[0] == 't' && s[4..] == rest; }
    else { assert "false" <= s && s[0] == 'f' && s[5..] == rest; }
  }

  lemma NumParses(n: int, rest: string)
    requires Delimits(rest)
    ensures Parse(Print(Num(n)) + rest) == Some((Num(n), rest))
  {
    var s := Print(Num(n)) + rest;
    if n < 0 {
      assert s[1..] == Decimal(-n) + rest;
      DecimalReads(-n, rest);
    } else {
      DecimalReads(n, rest);
      assert ReadDigits(s, 0) == ReadDigits(s[1..], (s[0] - '0') as nat);
    }
  }

  lemma ArrayParses(xs: seq<Json>, rest: string)
    requires xs != [] ==>
               && ParseItems(PrintItems(xs) + "]" + rest) == Some((xs, rest))
               && PrintItems(xs) != "" && PrintItems(xs)[0] != ']'
    ensures Parse(Print(Arr(xs)) + rest) == Some((Arr(xs), rest))
  {
    var body := PrintItems(xs);
    assert Print(Arr(xs)) + rest == "[" + body + "]" + rest;
    if xs == [] { BracketEmpty(rest); } else { BracketParses(body, xs, rest); }
  }

  lemma ObjectParses(fs: seq<Field>, rest: string)
    requires fs != [] ==> ParseMembers(PrintMembers(fs) + "}" + rest) == Some((fs, rest))
    ensures Parse(Print(Obj(fs)) + rest) == Some((Obj(fs), rest))
  {
    var body := PrintMembers(fs);
    assert Print(Obj(fs)) + rest == "{" + body + "}" + rest;
    if fs == [] { BraceEmpty(rest); } else { BraceParses(body, fs, rest); }
  }

  lemma BracketEmpty(rest: string)
    ensures Parse("[" + "" + "]" + rest) == Some((Arr([]), rest))
  {
    var s := "[" + "" + "]" + rest;
    assert s[0] == '[' && s[1] == ']' && s[2..] == rest;
  }

  lemma BraceEmpty(rest: string)
    ensures Parse("{" + "" + "}" + rest) == Some((Obj([]), rest))
  {
    var s := "{" + "" + "}" + rest;
    assert s[0] == '{' && s[1] == '}' && s[2..] == rest;
  }

  lemma BracketParses(body: string, xs: seq<Json>, rest: string)
    requires body != "" && body[0] != ']' && ParseItems(body + "]" + rest) == Some((xs, rest))
    ensures Parse("[" + body + "]" + rest) == Some((Arr(xs), rest))
  {
    var s := "[" + body + "]" + rest;
    assert s[0] == '[' && s[1] == body[0] && s[1..] == body + "]" + rest;
  }

  lemma BraceParses(body: string, fs: seq<Field>, rest: string)
    requires ParseMembers(body + "}" + rest) == Some((fs, rest))
    ensures Parse("{" + body + "}" + rest) == Some((Obj(fs), rest))
  {
    var s := "{" + body + "}" + rest;
    assert s[0] == '{' && s[1..] == body + "}" + rest;
  }

  lemma PrintStarts(v: Json)
    ensures |Print(v)| > 0 && Print(v)[0] != ']'
  {
    if v.Num? && v.n >= 0 { DecimalReads(v.n, ""); }
  }

  lemma ItemsText(xs: seq<Json>, rest: string)
    requires xs != []
    ensures PrintItems(xs) + "]" + rest
            == Print(xs[0]) + (if |xs| == 1 then "]" + rest else "," + (PrintItems(xs[1..]) + "]" + rest))
  {
    if |xs| == 1 {
      Associate(Print(xs[0]), "", "", "]", rest);
    } else {
      Associate(Print(xs[0]), ",", PrintItems(xs[1..]), "]", rest);
    }
  }

  lemma Associate(p: string, comma: string, more: string, d: string, e: string)
    ensures (p + comma + more) + d + e == p + (comma + (more + d + e))
    ensures (p + d) + e == p + (d + e)
  {
  }

  lemma {:induction false} ItemsParse(xs: seq<Json>, rest: string)
    requires xs != []
    ensures ParseItems(PrintItems(xs) + "]" + rest) == Some((xs, rest))
    decreases xs, 1, |xs|
  {
    ItemsText(xs, rest);
    var s := PrintItems(xs) + "]" + rest;
    if |xs| == 1 {
      PrintParses(xs[0], "]" + rest);
      ItemsEnd(s, xs[0], "]" + rest);
      assert ("]" + rest)[1..] == rest && [xs[0]] == xs;
    } else {
      var tail := PrintItems(xs[1..]) + "]" + rest;
      PrintParses(xs[0], "," + tail);
      assert ("," + tail)[1..] == tail;
      ItemsParse(xs[1..], rest);
      ItemsMore(s, xs[0], "," + tail, xs[1..], rest);
      assert [xs[0]] + xs[1..] == xs;
    }
  }

  lemma ItemsEnd(s: string, x: Json, after: string)
    requires Parse(s) == Some((x, after)) && after != "" && after[0] == ']'
    ensures ParseItems(s) == Some(([x], after[1..]))
  {
  }

  lemma ItemsMore(s: string, x: Json, after: string, xs: seq<Json>, rest: string)
    requires Parse(s) == Some((x, after)) && after != "" && after[0] == ','
    requires ParseItems(after[1..]) == Some((xs, rest))
    ensures ParseItems(s) == Some(([x] + xs, rest))
  {
  }

  lemma {:induction false} MembersParse(fs: seq<Field>, rest: string)
    requires fs != []
    ensures ParseMembers(PrintMembers(fs) + "}" + rest) == Some((fs, rest))
    decreases fs, 1, |fs|
  {
    var after := if |fs| == 1 then "}" + rest else "," + (PrintMembers(fs[1..]) + "}" + rest);
    MemberText(fs, rest, after);
    FirstMember(fs[0], after);
    var s := MemberOf(fs[0], after);
    var tail := ":" + (Print(fs[0].value) + after);
    PrintParses(fs[0].value, after);
    if |fs| > 1 {
      assert after[1..] == PrintMembers(fs[1..]) + "}" + rest;
      MembersParse(fs[1..], rest);
      MembersMore(s, fs[0], tail, after, fs[1..], rest);
      assert [fs[0]] + fs[1..] == fs;
    } else {
      MembersEnd(s, fs[0], tail, after);
      assert after[1..] == rest && [fs[0]] == fs;
    }
  }

  lemma MembersEnd(s: string, f: Field, tail: string, after: string)
    requires s != "" && s[0] == '"' && ReadText(s[1..]) == Some((f.key, tail))
    requires tail != "" && tail[0] == ':' && Parse(tail[1..]) == Some((f.value, after))
    requires after != "" && after[0] == '}'
    ensures ParseMembers(s) == Some(([f], after[1..]))
  {
  }

  lemma MembersMore(s: string, f: Field, tail: string, after: string, fs: seq<Field>, rest: string)
    requires s != "" && s[0] == '"' && ReadText(s[1..]) == Some((f.key, tail))
    requires tail != "" && tail[0] == ':' && Parse(tail[1..]) == Some((f.value, after))
    requires after != "" && after[0] == ',' && ParseMembers(after[1..]) == Some((fs, rest))
    ensures ParseMembers(s) == Some(([f] + fs, rest))
  {
  }

  function MemberOf(f: Field, after: string): string {
    "\"" + (EscapeAll(f.key) + "\"" + (":" + (Print(f.value) + after)))
  }

  lemma Regroup(a: string, q: string, c: string, p: string, after: string)
    ensures (a + q + a + (c + p)) + after == a + (q + a + (c + (p + after)))
  {
  }

  lemma {:induction false} MemberText(fs: seq<Field>, rest: string, after: string)
    requires fs != []
    requires after == if |fs| == 1 then "}" + rest else "," + (PrintMembers(fs[1..]) + "}" + rest)
    ensures PrintMembers(fs) + "}" + rest == MemberOf(fs[0], after)
  {
    var k, p := EscapeAll(fs[0].key), Print(fs[0].value);
    if |fs| == 1 {
      AppendLast("\"", k, ":", p, "}", rest);
    } else {
      AppendMore("\"", k, ":", p, ",", PrintMembers(fs[1..]), "}", rest);
    }
  }

  lemma AppendLast(a: string, q: string, c: string, p: string, d: string, e: string)
    ensures (((a + q + a) + c + p) + d) + e == a + (q + a + (c + (p + (d + e))))
    ensures q + a + (c + (p + (d + e))) == q + (a + (c + (p + (d + e))))
  {
    Regroup(a, q, c, p, d + e);
  }

  lemma AppendMore(
    a: string, q: string, c: string, p: string, comma: string, more: string, d: string, e: string)
    ensures (((a + q + a) + c + p) + comma + more) + d + e == a + (q + a + (c + (p + (comma + (more + d + e)))))
    ensures q + a + (c + (p + (comma + (more + d + e)))) == q + (a + (c + (p + (comma + (more + d + e)))))
  {
    Regroup(a, q, c, p, comma + (more + d + e));
    Flatten(a + q + a, c, p, comma, more, d, e);
  }

  lemma Flatten(m: string, c: string, p: string, comma: string, more: string, d: string, e: string)
    ensures ((m + c + p) + comma + more) + d + e == (m + (c + p)) + (comma + (more + d + e))
  {
  }

  /** Reading one member: its key, the colon, then the text of its value. */
  lemma FirstMember(f: Field, after: string)
    ensures var s := MemberOf(f, after);
            && s[0] == '"'
            && ReadText(s[1..]) == Some((f.key, ":" + (Print(f.value) + after)))
            && (":" + (Print(f.value) + after))[1..] == Print(f.value) + after
  {
    var tail := ":" + (Print(f.value) + after);
    assert MemberOf(f, after)[1..] == EscapeAll(f.key) + "\"" + tail;
    TextReads(f.key, tail);
  }

  // ---------------------------------------------------------------- digests --

  lemma {:induction false} CanonicalParses(payload: Json)
    ensures Parse(Canonical(payload)) == Some((SortKeys(payload), ""))
  {
    PrintParses(SortKeys(payload), "");
    assert Canonical(payload) + "" == Canonical(payload);
  }

  /** The canonical form can be read back: what comes out is the payload with its keys, at
      every depth, ascending by code point; and there is one such arrangement only. */
  lemma {:induction false} CanonicalReadsBack(payload: Json) returns (v: Json)
    requires WellFormed(payload)
    ensures Parse(Canonical(payload)) == Some((v, ""))
    ensures WellFormed(v) && Equiv(v, payload) && KeysAscend(v)
    ensures forall w :: WellFormed(w) && Equiv(w, payload) && KeysAscend(w) ==> w == v
  {
    v := SortKeys(payload);
    CanonicalParses(payload);
    SortedIsEquiv(payload);
    SortedKeysAscend(payload);
    forall w | WellFormed(w) && Equiv(w, payload) && KeysAscend(w) ensures w == v {
      AscendingFormIsUnique(payload, w);
    }
  }

  const A2 := Field("a", Num(2))
  const B1 := Field("b", Num(1))

  lemma TwoKeysSorted()
    ensures SortKeys(Obj([B1, A2])) == Obj([A2, B1])
  {
    assert [B1, A2][1..] == [A2] && [A2][1..] == [] && SortFields([]) == [];
    assert SortFields([A2]) == [A2] && !Before("b", "a") && KeyOrder.Insert(B1, []) == [B1];
    assert SortedChildren([B1, A2]) == [B1, A2];
  }

  lemma LettersPrinted()
    ensures Quote("a") == "\"a\"" && Quote("b") == "\"b\""
    ensures Print(Num(1)) == "1" && Print(Num(2)) == "2"
  {
    assert EscapeAll("a") == "a" && EscapeAll("b") == "b";
  }

  lemma TwoKeysPrinted()
    ensures Print(Obj([A2, B1])) == "{\"a\":2,\"b\":1}"
  {
    LettersPrinted();
    assert [A2, B1][1..] == [B1];
    assert PrintMembers([B1]) == "\"b\"" + ":" + "1";
    assert PrintMembers([A2, B1]) == "\"a\"" + ":" + "2" + "," + PrintMembers([B1]);
  }

  /** What the text looks like: keys in order, no spaces. */
  lemma KeysInOrder()
    ensures Canonical(Obj([Field("b", Num(1)), Field("a", Num(2))])) == "{\"a\":2,\"b\":1}"
  {
    TwoKeysSorted();
    TwoKeysPrinted();
  }

  lemma NegativePrinted()
    ensures Print(Num(-120)) == "-120"
  {
    assert Decimal(1) == "1" && Decimal(12) == "12" && Decimal(120) == "120";
  }

  lemma ItemsInOrder()
    ensures Print(Arr([Null, Bool(true), Bool(false)])) == "[null,true,false]"
    ensures Print(Num(-120)) == "-120" && Print(Arr([])) == "[]" && Print(Obj([])) == "{}"
  {
    NegativePrinted();
    assert [Null, Bool(true), Bool(false)][1..] == [Bool(true), Bool(false)];
    assert [Bool(true), Bool(false)][1..] == [Bool(false)];
  }

  /** Which characters are escaped, and how. */
  lemma EscapesExactly(c: char)
    ensures Escape('"') == "\\\"" && Escape('\\') == "\\\\"
    ensures Escape('\n') == "\\n" && Escape('\r') == "\\r" && Escape('\t') == "\\t"
    ensures Escape(8 as char) == "\\b" && Escape(12 as char) == "\\f"
    ensures Escape(1 as char) == "\\u0001" && Escape(31 as char) == "\\u001f"
    ensures Escape(c) == [c] <==> c != '"' && c != '\\' && 32 <= c as int
  {
  }

  /** The canonical form ignores key order and nothing else. */
  lemma CanonicalIffEquiv(a: Json, b: Json)
    requires WellFormed(a) && WellFormed(b)
    ensures Canonical(a) == Canonical(b) <==> Equiv(a, b)
  {
    if Equiv(a, b) { EquivSortsAlike(a, b); }
    if Canonical(a) == Canonical(b) {
      CanonicalParses(a);
      CanonicalParses(b);
      SortedAlikeEquiv(a, b);
    }
  }

  /** The digest is an arbitrary function of the canonical text. */
  type Digest = string -> string

  ghost predicate CollisionFree(digest: Digest) {
    forall x, y :: digest(x) == digest(y) ==> x == y
  }

  function HashPayload(digest: Digest, payload: Json): string { digest(Canonical(payload)) }

  predicate VerifyPayload(digest: Digest, payload: Json, expected: string) {
    HashPayload(digest, payload) == expected
  }

  /** A payload matches the digest of a stored one exactly when the two are the same
      payload, key order aside. */
  lemma VerifiesIffSamePayload(digest: Digest, payload: Json, stored: Json)
    requires CollisionFree(digest) && WellFormed(payload) && WellFormed(stored)
    ensures VerifyPayload(digest, payload, HashPayload(digest, stored)) <==> Equiv(payload, stored)
  {
    CanonicalIffEquiv(payload, stored);
  }

  /** A hash of payloads that tells different payloads apart and ignores key order. */
  ghost predicate Binding(hash: Json -> string) {
    forall a, b :: WellFormed(a) && WellFormed(b) ==> (hash(a) == hash(b) <==> Equiv(a, b))
  }

  lemma PayloadHashBinds(digest: Digest)
    requires CollisionFree(digest)
    ensures Binding(payload => HashPayload(digest, payload))
  {
    var hash := payload => HashPayload(digest, payload);
    forall a, b | WellFormed(a) && WellFormed(b) ensures hash(a) == hash(b) <==> Equiv(a, b) {
      VerifiesIffSamePayload(digest, a, b);
    }
  }
}
