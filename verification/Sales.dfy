/** Sales aggregation and calendar weeks (`app/repositories/sales_repository.py`,
    `app/integrations/spreadsheets/local.py`).  Money is exact, in cents; a day is its
    proleptic ordinal, so that ordinal 1 is a Monday. */
module Sales {
  import opened Json
  import MessageStore

  datatype Sale = Sale(
    day: int, customer: string, product: string, region: Option<string>, rep: Option<string>,
    quantity: int, cents: int)

  datatype Column = Product | Region | Day | SalesRep | Customer

  datatype Key = Text(text: string) | Date(day: int) | Missing

  function OptionalKey(o: Option<string>): Key { if o.Some? then Text(o.value) else Missing }

  function KeyOf(column: Column, s: Sale): Key {
    match column
    case Product => Text(s.product)
    case Region => OptionalKey(s.region)
    case Day => Date(s.day)
    case SalesRep => OptionalKey(s.rep)
    case Customer => Text(s.customer)
  }

  /** The filters of a query; an empty region filters nothing. */
  datatype Filter = Filter(start: Option<int>, end: Option<int>, region: Option<string>)

  predicate Passes(f: Filter, s: Sale) {
    && (f.start.Some? ==> f.start.value <= s.day)
    && (f.end.Some? ==> s.day <= f.end.value)
    && (f.region.Some? && f.region.value != "" ==> s.region == f.region)
  }

  function Selected(table: seq<Sale>, f: Filter): seq<Sale> {
    if table == [] then []
    else (if Passes(f, table[0]) then [table[0]] else []) + Selected(table[1..], f)
  }

  function Revenue(sales: seq<Sale>): int { if sales == [] then 0 else sales[0].cents + Revenue(sales[1..]) }

  function Units(sales: seq<Sale>): int { if sales == [] then 0 else sales[0].quantity + Units(sales[1..]) }

  /** Which sales a query selects, and each as often as it is in the table: those of the
      days asked for, and of the region if one is named. */
  lemma {:induction false} SelectsExactly(table: seq<Sale>, f: Filter, s: Sale)
    ensures multiset(Selected(table, f))[s]
            == if (f.start.Some? && s.day < f.start.value) || (f.end.Some? && f.end.value < s.day)
                  || (f.region.Some? && f.region.value != "" && s.region != f.region)
               then 0 else multiset(table)[s]
  {
    if table == [] {
    } else {
      SelectsExactly(table[1..], f, s);
      assert table == [table[0]] + table[1..];
    }
  }

  /** Under which heading a sale is counted. */
  lemma FiledExactly(s: Sale, key: Key)
    ensures KeyOf(Product, s) == key <==> key == Text(s.product)
    ensures KeyOf(Customer, s) == key <==> key == Text(s.customer)
    ensures KeyOf(Day, s) == key <==> key == Date(s.day)
    ensures KeyOf(Region, s) == key <==>
              (key == Missing && s.region == None) || (key.Text? && s.region == Some(key.text))
    ensures KeyOf(SalesRep, s) == key <==>
              (key == Missing && s.rep == None) || (key.Text? && s.rep == Some(key.text))
  {
  }

  // ------------------------------------------------------------------- average --

  /** Division rounded to the nearest integer, halves to the even one. */
  function RoundHalfEven(n: int, d: int): int
    requires d > 0
  {
    var q, r := n / d, n % d;
    if 2 * r < d then q else if 2 * r > d then q + 1 else if q % 2 == 0 then q else q + 1
  }

  /** The average order value in cents. */
  function Average(sales: seq<Sale>): int {
    if |sales| == 0 then 0 else RoundHalfEven(Revenue(sales), |sales|)
  }

  /** The average is the whole number of cents nearest to the true quotient: multiplied
      back it misses the revenue by at most half a cent per record, and a number that
      misses by less does not exist; of two equally near it is the even one.  No sales
      average to nothing. */
  lemma {:induction false} AverageIsNearest(sales: seq<Sale>, other: int)
    ensures -|sales| <= 2 * (Average(sales) * |sales| - Revenue(sales)) <= |sales|
    ensures var miss, miss' := Average(sales) * |sales| - Revenue(sales), other * |sales| - Revenue(sales);
            && (if miss < 0 then -miss else miss) <= (if miss' < 0 then -miss' else miss')
            && (2 * miss == |sales| || 2 * miss == -|sales| ==> Average(sales) % 2 == 0)
    ensures sales == [] ==> Average(sales) == 0
  {
    if |sales| > 0 {
      RoundedIsNearest(Revenue(sales), |sales|, other);
      TiesGoToEven(Revenue(sales), |sales|);
    }
  }

  lemma TiesGoToEven(n: int, d: int)
    requires d > 0
    ensures var a := RoundHalfEven(n, d);
            2 * (a * d - n) == d || 2 * (a * d - n) == -d ==> a % 2 == 0
  {
    var q, r, a := n / d, n % d, RoundHalfEven(n, d);
    assert n == q * d + r && 0 <= r < d;
    assert (q + 1) * d == q * d + d;
    assert a * d - n == if a == q then -r else d - r;
  }

  lemma {:induction false} RoundedIsNearest(n: int, d: int, other: int)
    requires d > 0
    ensures var a := RoundHalfEven(n, d);
            && -d <= 2 * (a * d - n) <= d
            && (if a * d < n then n - a * d else a * d - n) <= (if other * d < n then n - other * d else other * d - n)
  {
    var q, r := n / d, n % d;
    assert n == q * d + r && 0 <= r < d;
    assert (q + 1) * d == q * d + d;
    if other <= q { MultiplyMonotone(other, q, d); } else { MultiplyMonotone(q + 1, other, d); }
  }

  lemma MultiplyMonotone(a: int, b: int, d: int)
    requires a <= b && d > 0
    ensures a * d <= b * d
  {
    assert (b - a) * d >= 0;
  }

  // -------------------------------------------------------------------- groups --

  datatype Group = Group(key: Key, revenue: int, records: nat, units: int)

  /** `GROUP BY`, one sale at a time. */
  function AddTo(groups: seq<Group>, key: Key, s: Sale): seq<Group> {
    if groups == [] then [Group(key, s.cents, 1, s.quantity)]
    else if groups[0].key == key then
      [Group(key, groups[0].revenue + s.cents, groups[0].records + 1, groups[0].units + s.quantity)] + groups[1..]
    else [groups[0]] + AddTo(groups[1..], key, s)
  }

  function Groups(column: Column, sales: seq<Sale>): seq<Group> {
    if sales == [] then [] else AddTo(Groups(column, sales[1..]), KeyOf(column, sales[0]), sales[0])
  }

  /** `ORDER BY revenue DESC`. */
  function Insert(g: Group, sorted: seq<Group>): seq<Group> {
    if sorted == [] || g.revenue >= sorted[0].revenue then [g] + sorted
    else [sorted[0]] + Insert(g, sorted[1..])
  }

  function Sort(groups: seq<Group>): seq<Group> {
    if groups == [] then [] else Insert(groups[0], Sort(groups[1..]))
  }

  function Breakdown(column: Column, sales: seq<Sale>, limit: int): seq<Group> {
    var sorted := Sort(Groups(column, sales));
    var n := MessageStore.ClampLimit(Some(limit), 0);
    if n <= |sorted| then sorted[..n] else sorted
  }

  function GroupRevenue(groups: seq<Group>): int {
    if groups == [] then 0 else groups[0].revenue + GroupRevenue(groups[1..])
  }

  function GroupRecords(groups: seq<Group>): int {
    if groups == [] then 0 else groups[0].records + GroupRecords(groups[1..])
  }

  /** The sales that belong under a key. */
  function Under(column: Column, sales: seq<Sale>, key: Key): seq<Sale> {
    if sales == [] then []
    else (if KeyOf(column, sales[0]) == key then [sales[0]] else []) + Under(column, sales[1..], key)
  }

  function Find(groups: seq<Group>, key: Key): Option<Group> {
    if groups == [] then None else if groups[0].key == key then Some(groups[0]) else Find(groups[1..], key)
  }

  predicate DistinctKeys(groups: seq<Group>) {
    groups == [] || (Find(groups[1..], groups[0].key).None? && DistinctKeys(groups[1..]))
  }

  function Grown(g: Option<Group>, key: Key, s: Sale): Group {
    if g.None? then Group(key, s.cents, 1, s.quantity)
    else Group(key, g.value.revenue + s.cents, g.value.records + 1, g.value.units + s.quantity)
  }

  lemma {:induction false} AddToGrowsOneGroup(groups: seq<Group>, key: Key, s: Sale, k: Key)
    ensures var r := AddTo(groups, key, s);
            && Find(r, k) == (if k == key then Some(Grown(Find(groups, key), key, s)) else Find(groups, k))
            && GroupRevenue(r) == GroupRevenue(groups) + s.cents && GroupRecords(r) == GroupRecords(groups) + 1
  {
    if groups == [] {
    } else {
      AddToGrowsOneGroup(groups[1..], key, s, k);
    }
  }

  lemma {:induction false} AddToKeepsDistinct(groups: seq<Group>, key: Key, s: Sale)
    requires DistinctKeys(groups)
    ensures DistinctKeys(AddTo(groups, key, s))
  {
    if groups == [] || groups[0].key == key {
    } else {
      AddToKeepsDistinct(groups[1..], key, s);
      AddToGrowsOneGroup(groups[1..], key, s, groups[0].key);
    }
  }

  lemma SumsOfCons(s: Sale, rest: seq<Sale>)
    ensures Revenue([s] + rest) == s.cents + Revenue(rest) && Units([s] + rest) == s.quantity + Units(rest)
  {
    assert ([s] + rest)[1..] == rest;
  }

  lemma UnderStep(column: Column, sales: seq<Sale>, key: Key)
    requires sales != []
    ensures var rest := Under(column, sales[1..], key);
            if KeyOf(column, sales[0]) != key then Under(column, sales, key) == rest
            else && Revenue(Under(column, sales, key)) == sales[0].cents + Revenue(rest)
                 && Units(Under(column, sales, key)) == sales[0].quantity + Units(rest)
                 && |Under(column, sales, key)| == 1 + |rest|
  {
    var rest := Under(column, sales[1..], key);
    SumsOfCons(sales[0], rest);
    if KeyOf(column, sales[0]) != key { assert Under(column, sales, key) == rest; }
  }

  /** Each key that occurs has one group, and it sums exactly the sales under that key. */
  lemma {:induction false} GroupsSumTheirOwn(column: Column, sales: seq<Sale>, key: Key)
    ensures var own := Under(column, sales, key);
            Find(Groups(column, sales), key)
            == if own == [] then None else Some(Group(key, Revenue(own), |own|, Units(own)))
  {
    if sales == [] {
    } else {
      GroupsSumTheirOwn(column, sales[1..], key);
      UnderStep(column, sales, key);
      AddToGrowsOneGroup(Groups(column, sales[1..]), KeyOf(column, sales[0]), sales[0], key);
    }
  }

  /** Nothing is lost or counted twice. */
  lemma {:induction false} GroupsAddUp(column: Column, sales: seq<Sale>)
    ensures var groups := Groups(column, sales);
            DistinctKeys(groups) && GroupRevenue(groups) == Revenue(sales) && GroupRecords(groups) == |sales|
  {
    if sales == [] {
    } else {
      GroupsAddUp(column, sales[1..]);
      AddToKeepsDistinct(Groups(column, sales[1..]), KeyOf(column, sales[0]), sales[0]);
      AddToGrowsOneGroup(Groups(column, sales[1..]), KeyOf(column, sales[0]), sales[0], Missing);
    }
  }

  predicate Descending(groups: seq<Group>) {
    forall i, j :: 0 <= i < j < |groups| ==> groups[i].revenue >= groups[j].revenue
  }

  lemma MultisetOfCons(g: Group, groups: seq<Group>)
    ensures multiset([g] + groups) == multiset{g} + multiset(groups)
  {
  }

  lemma {:induction false} InsertAddsOne(g: Group, sorted: seq<Group>)
    ensures multiset(Insert(g, sorted)) == multiset{g} + multiset(sorted)
    ensures GroupRevenue(Insert(g, sorted)) == g.revenue + GroupRevenue(sorted)
    ensures |Insert(g, sorted)| == |sorted| + 1
  {
    if sorted == [] || g.revenue >= sorted[0].revenue {
      MultisetOfCons(g, sorted);
      assert ([g] + sorted)[1..] == sorted;
    } else {
      var rest := sorted[1..];
      InsertAddsOne(g, rest);
      assert sorted == [sorted[0]] + rest;
      MultisetOfCons(sorted[0], rest);
      MultisetOfCons(sorted[0], Insert(g, rest));
      assert ([sorted[0]] + Insert(g, rest))[1..] == Insert(g, rest);
    }
  }

  predicate AtMost(groups: seq<Group>, revenue: int) {
    forall j :: 0 <= j < |groups| ==> groups[j].revenue <= revenue
  }

  lemma {:induction false} InsertKeepsBound(g: Group, sorted: seq<Group>, revenue: int)
    requires AtMost(sorted, revenue) && g.revenue <= revenue
    ensures AtMost(Insert(g, sorted), revenue)
  {
    if sorted == [] || g.revenue >= sorted[0].revenue {
    } else {
      InsertKeepsBound(g, sorted[1..], revenue);
    }
  }

  lemma {:induction false} InsertSorts(g: Group, sorted: seq<Group>)
    requires Descending(sorted)
    ensures Descending(Insert(g, sorted))
  {
    if sorted == [] || g.revenue >= sorted[0].revenue {
    } else {
      InsertSorts(g, sorted[1..]);
      InsertKeepsBound(g, sorted[1..], sorted[0].revenue);
    }
  }

  lemma {:induction false} SortSorts(groups: seq<Group>)
    ensures Descending(Sort(groups)) && multiset(Sort(groups)) == multiset(groups)
    ensures GroupRevenue(Sort(groups)) == GroupRevenue(groups) && |Sort(groups)| == |groups|
  {
    if groups == [] {
    } else {
      SortSorts(groups[1..]);
      InsertSorts(groups[0], Sort(groups[1..]));
      InsertAddsOne(groups[0], Sort(groups[1..]));
      MultisetOfCons(groups[0], groups[1..]);
      assert groups == [groups[0]] + groups[1..];
    }
  }

  lemma AllAreReturned(column: Column, sales: seq<Sale>, limit: int)
    requires |Groups(column, sales)| <= MessageStore.ClampLimit(Some(limit), 0)
    ensures Breakdown(column, sales, limit) == Sort(Groups(column, sales))
  {
    SortSorts(Groups(column, sales));
    WholeIsAll(Sort(Groups(column, sales)));
  }

  lemma WholeIsAll(groups: seq<Group>)
    ensures groups[..|groups|] == groups
  {
  }

  lemma SortKeepsNumber(groups: seq<Group>)
    ensures |Sort(groups)| == |groups|
  {
    SortSorts(groups);
    assert |multiset(Sort(groups))| == |multiset(groups)|;
  }

  lemma FrontIsTheTop(sorted: seq<Group>, n: nat, top: seq<Group>)
    requires Descending(sorted) && top == if n <= |sorted| then sorted[..n] else sorted
    ensures |top| == (if n <= |sorted| then n else |sorted|) && Descending(top) && top <= sorted
    ensures forall i, j :: 0 <= i < |top| <= j < |sorted| ==> top[i].revenue >= sorted[j].revenue
  {
  }

  /** The breakdown is the front of the sorted groups: the returned ones are groups of the
      sales, as many as the limit, between 1 and 200, allows, in descending order, no
      omitted one earned more, and when all of them fit the limit they add up to the revenue
      of the period. */
  lemma {:induction false} BreakdownIsTheTop(column: Column, sales: seq<Sale>, limit: int)
    ensures var top := Breakdown(column, sales, limit);
            var groups := Groups(column, sales);
            var n := if limit < 1 then 1 else if limit > 200 then 200 else limit;
            && |top| == (if n <= |groups| then n else |groups|)
            && Descending(top) && top <= Sort(groups) && multiset(Sort(groups)) == multiset(groups)
            && (forall i, j :: 0 <= i < |top| <= j < |Sort(groups)| ==> top[i].revenue >= Sort(groups)[j].revenue)
            && (|groups| <= MessageStore.ClampLimit(Some(limit), 0) ==> GroupRevenue(top) == Revenue(sales))
  {
    SortSorts(Groups(column, sales));
    SortKeepsNumber(Groups(column, sales));
    FrontIsTheTop(
      Sort(Groups(column, sales)), MessageStore.ClampLimit(Some(limit), 0), Breakdown(column, sales, limit));
    GroupsAddUp(column, sales);
    if |Groups(column, sales)| <= MessageStore.ClampLimit(Some(limit), 0) { AllAreReturned(column, sales, limit); }
  }

  // -------------------------------------------------------------------- labels --

  const UNKNOWN := "unknown"

  /** What a group is called in a report; `dateText` writes a day. */
  function Label(key: Key, dateText: int -> string): string {
    match key
    case Text(text) => text
    case Date(day) => dateText(day)
    case Missing => UNKNOWN
  }

  predicate HasKey(groups: seq<Group>, key: Key) { exists i :: 0 <= i < |groups| && groups[i].key == key }

  predicate OneKeyEach(groups: seq<Group>) {
    forall i, j :: 0 <= i < j < |groups| ==> groups[i].key != groups[j].key
  }

  lemma {:induction false} FoundExactlyWhenThere(groups: seq<Group>, key: Key)
    ensures Find(groups, key).Some? <==> HasKey(groups, key)
  {
    if groups == [] {
    } else {
      FoundExactlyWhenThere(groups[1..], key);
      assert groups == [groups[0]] + groups[1..];
      if HasKey(groups[1..], key) {
        var i :| 0 <= i < |groups| - 1 && groups[1..][i].key == key;
        assert groups[i + 1].key == key;
      }
    }
  }

  lemma {:induction false} DistinctMeansOneEach(groups: seq<Group>)
    requires DistinctKeys(groups)
    ensures OneKeyEach(groups)
  {
    if groups == [] {
    } else {
      DistinctMeansOneEach(groups[1..]);
      FoundExactlyWhenThere(groups[1..], groups[0].key);
      assert forall j :: 0 < j < |groups| ==> groups[j] == groups[1..][j - 1];
    }
  }

  lemma {:induction false} InsertKeepsOneEach(g: Group, sorted: seq<Group>)
    requires OneKeyEach(sorted) && !HasKey(sorted, g.key)
    ensures OneKeyEach(Insert(g, sorted))
    ensures forall key :: HasKey(Insert(g, sorted), key) <==> key == g.key || HasKey(sorted, key)
  {
    if sorted == [] || g.revenue >= sorted[0].revenue {
      forall key ensures HasKey([g] + sorted, key) <==> key == g.key || HasKey(sorted, key) {
        ConsHasKey(g, sorted, key);
      }
    } else {
      var rest := sorted[1..];
      assert sorted == [sorted[0]] + rest;
      forall key ensures HasKey(sorted, key) <==> key == sorted[0].key || HasKey(rest, key) {
        ConsHasKey(sorted[0], rest, key);
      }
      InsertKeepsOneEach(g, rest);
      forall key
        ensures HasKey([sorted[0]] + Insert(g, rest), key) <==> key == sorted[0].key || HasKey(Insert(g, rest), key)
      {
        ConsHasKey(sorted[0], Insert(g, rest), key);
      }
      ConsKeepsOneEach(sorted[0], rest, Insert(g, rest), g.key);
    }
  }

  lemma ConsHasKey(g: Group, rest: seq<Group>, key: Key)
    ensures HasKey([g] + rest, key) <==> key == g.key || HasKey(rest, key)
  {
    if key == g.key { assert ([g] + rest)[0].key == key; }
    if HasKey(rest, key) {
      var i :| 0 <= i < |rest| && rest[i].key == key;
      assert ([g] + rest)[i + 1].key == key;
    }
  }

  lemma ConsKeepsOneEach(first: Group, rest: seq<Group>, longer: seq<Group>, key: Key)
    requires OneKeyEach([first] + rest) && OneKeyEach(longer) && first.key != key
    requires forall k :: HasKey(longer, k) <==> k == key || HasKey(rest, k)
    ensures OneKeyEach([first] + longer)
  {
    forall j | 0 <= j < |longer| ensures longer[j].key != first.key {
      assert HasKey(longer, longer[j].key);
      if HasKey(rest, longer[j].key) {
        var i :| 0 <= i < |rest| && rest[i].key == longer[j].key;
        assert ([first] + rest)[0].key != ([first] + rest)[i + 1].key;
      }
    }
  }

  lemma {:induction false} SortKeepsOneEach(groups: seq<Group>)
    requires OneKeyEach(groups)
    ensures OneKeyEach(Sort(groups)) && forall key :: HasKey(Sort(groups), key) <==> HasKey(groups, key)
  {
    if groups == [] {
    } else {
      var rest := groups[1..];
      assert groups == [groups[0]] + rest;
      assert forall j :: 0 < j < |groups| ==> groups[j] == rest[j - 1];
      SortKeepsOneEach(rest);
      InsertKeepsOneEach(groups[0], Sort(rest));
      forall key ensures HasKey(groups, key) <==> key == groups[0].key || HasKey(rest, key) {
        ConsHasKey(groups[0], rest, key);
      }
    }
  }

  lemma {:induction false} UnderExactlyWhenSold(column: Column, sales: seq<Sale>, key: Key)
    ensures Under(column, sales, key) != [] <==> exists s :: s in sales && KeyOf(column, s) == key
  {
    if sales == [] {
    } else {
      UnderExactlyWhenSold(column, sales[1..], key);
      assert sales == [sales[0]] + sales[1..];
      if KeyOf(column, sales[0]) == key { assert sales[0] in sales; }
    }
  }

  /** The keys of the sorted groups are those of the sales. */
  lemma SortedKeysAreSold(column: Column, sales: seq<Sale>, key: Key)
    ensures OneKeyEach(Sort(Groups(column, sales)))
    ensures HasKey(Sort(Groups(column, sales)), key) <==> exists s :: s in sales && KeyOf(column, s) == key
  {
    GroupsAddUp(column, sales);
    DistinctMeansOneEach(Groups(column, sales));
    SortKeepsOneEach(Groups(column, sales));
    FoundExactlyWhenThere(Groups(column, sales), key);
    GroupsSumTheirOwn(column, sales, key);
    UnderExactlyWhenSold(column, sales, key);
  }

  ghost predicate Injective(f: int -> string) { forall a, b :: f(a) == f(b) ==> a == b }

  predicate SharedLabel(groups: seq<Group>, dateText: int -> string) {
    exists i, j :: 0 <= i < j < |groups| && Label(groups[i].key, dateText) == Label(groups[j].key, dateText)
  }

  lemma KeyIsOfColumn(column: Column, sales: seq<Sale>, limit: int, i: nat)
    requires i < |Breakdown(column, sales, limit)|
    ensures Breakdown(column, sales, limit)[i].key.Date? <==> column.Day?
  {
    var key := Breakdown(column, sales, limit)[i].key;
    assert Sort(Groups(column, sales))[i].key == key;
    SortedKeysAreSold(column, sales, key);
  }

  /** Two returned groups are called the same exactly when both the group without a value
      and the group whose value is the word "unknown" are returned. */
  lemma LabelsCollideExactlyWhen(column: Column, sales: seq<Sale>, limit: int, dateText: int -> string)
    requires Injective(dateText)
    ensures var top := Breakdown(column, sales, limit);
            SharedLabel(top, dateText) <==> HasKey(top, Missing) && HasKey(top, Text("unknown"))
  {
    var top := Breakdown(column, sales, limit);
    SortedKeysAreSold(column, sales, Missing);
    assert OneKeyEach(top);
    forall i | 0 <= i < |top| ensures top[i].key.Date? <==> column.Day? { KeyIsOfColumn(column, sales, limit, i); }
    if SharedLabel(top, dateText) {
      var i, j :| 0 <= i < j < |top| && Label(top[i].key, dateText) == Label(top[j].key, dateText);
      assert top[i].key != top[j].key;
    }
    if HasKey(top, Missing) && HasKey(top, Text("unknown")) {
      var i :| 0 <= i < |top| && top[i].key == Missing;
      var j :| 0 <= j < |top| && top[j].key == Text("unknown");
      assert Label(top[i].key, dateText) == Label(top[j].key, dateText);
      if i < j { assert SharedLabel(top, dateText); } else { assert SharedLabel(top, dateText); }
    }
  }

  /** When all groups are returned: exactly when some selected row has no value and some
      other has the word for one. */
  lemma AllLabelsCollideExactlyWhen(column: Column, sales: seq<Sale>, limit: int, dateText: int -> string)
    requires Injective(dateText) && |Groups(column, sales)| <= MessageStore.ClampLimit(Some(limit), 0)
    ensures SharedLabel(Breakdown(column, sales, limit), dateText) <==>
              && (exists s :: s in sales && KeyOf(column, s) == Missing)
              && (exists s :: s in sales && KeyOf(column, s) == Text("unknown"))
  {
    LabelsCollideExactlyWhen(column, sales, limit, dateText);
    AllAreReturned(column, sales, limit);
    SortedKeysAreSold(column, sales, Missing);
    SortedKeysAreSold(column, sales, Text("unknown"));
  }

  /** Two sales, one without a region and one in the region "unknown". */
  lemma TwoGroupsCalledUnknown(dateText: int -> string)
    ensures var sales := [Sale(1, "Ana", "Pro", None, None, 1, 500),
                          Sale(1, "Bo", "Pro", Some("unknown"), None, 1, 300)];
            var top := Breakdown(Region, sales, 20);
            && top == [Group(Missing, 500, 1, 1), Group(Text("unknown"), 300, 1, 1)]
            && Label(top[0].key, dateText) == Label(top[1].key, dateText) == "unknown"
  {
    var first, second := Sale(1, "Ana", "Pro", None, None, 1, 500), Sale(1, "Bo", "Pro", Some("unknown"), None, 1, 300);
    var a, b := Group(Missing, 500, 1, 1), Group(Text("unknown"), 300, 1, 1);
    assert [first, second][1..] == [second] && [second][1..] == [];
    assert Groups(Region, [second]) == [b];
    assert [b][1..] == [] && AddTo([], Missing, first) == [a];
    assert AddTo([b], Missing, first) == [b] + [a] == [b, a];
    assert Groups(Region, [first, second]) == [b, a];
    assert [b, a][1..] == [a] && [a][1..] == [];
    assert Sort([a]) == [a];
    assert Insert(b, [a]) == [a, b];
  }

  // --------------------------------------------------------------------- weeks --

  function Weekday(day: int): int { (day + 6) % 7 }

  function WeekBounds(day: int): (int, int) { (day - Weekday(day), day - Weekday(day) + 6) }

  /** Weeks run from Monday to Sunday, counted from day 1, a Monday, and tile the calendar:
      each day lies in exactly one, and the next begins where one ends. */
  lemma WeeksTileTheCalendar(day: int, other: int)
    ensures var (monday, sunday) := WeekBounds(day);
            && monday <= day <= sunday && Weekday(monday) == 0 && Weekday(sunday) == 6
            && monday % 7 == 1 && sunday % 7 == 0
            && (monday <= other <= sunday <==> WeekBounds(other) == (monday, sunday))
            && WeekBounds(sunday + 1) == (sunday + 1, sunday + 7)
            && WeekBounds(monday - 1) == (monday - 7, monday - 1)
  {
  }

  function Between(start: int, end: int, region: Option<string>): Filter { Filter(Some(start), Some(end), region) }

  /** A range split in two: revenue, units and records all add up. */
  lemma {:induction false} RangesAddUp(table: seq<Sale>, a: int, b: int, c: int, region: Option<string>)
    requires a <= b + 1 && b <= c
    ensures var first, second, whole := Selected(table, Between(a, b, region)),
                Selected(table, Between(b + 1, c, region)), Selected(table, Between(a, c, region));
            && Revenue(first) + Revenue(second) == Revenue(whole)
            && Units(first) + Units(second) == Units(whole)
            && |first| + |second| == |whole|
  {
    if table == [] {
    } else {
      RangesAddUp(table[1..], a, b, c, region);
      SelectedStep(table, Between(a, b, region));
      SelectedStep(table, Between(b + 1, c, region));
      SelectedStep(table, Between(a, c, region));
    }
  }

  lemma {:induction false} SelectedStep(table: seq<Sale>, f: Filter)
    requires table != []
    ensures var rest := Selected(table[1..], f);
            var hit := Passes(f, table[0]);
            && Revenue(Selected(table, f)) == (if hit then table[0].cents else 0) + Revenue(rest)
            && Units(Selected(table, f)) == (if hit then table[0].quantity else 0) + Units(rest)
            && |Selected(table, f)| == (if hit then 1 else 0) + |rest|
  {
    var rest := Selected(table[1..], f);
    SumsOfCons(table[0], rest);
    if !Passes(f, table[0]) { assert Selected(table, f) == rest; }
  }

  function RangeRevenue(table: seq<Sale>, start: int, end: int, region: Option<string>): int {
    Revenue(Selected(table, Between(start, end, region)))
  }

  /** Revenue of `n` weeks, one report after the other. */
  function WeeklyRevenue(table: seq<Sale>, monday: int, n: nat, region: Option<string>): int {
    if n == 0 then 0
    else
      var (start, end) := WeekBounds(monday + 7 * (n - 1));
      WeeklyRevenue(table, monday, n - 1, region) + RangeRevenue(table, start, end, region)
  }

  /** Consecutive weekly reports add up to the report of the whole range. */
  lemma {:induction false} WeeksAddUp(table: seq<Sale>, monday: int, n: nat, region: Option<string>)
    requires Weekday(monday) == 0
    ensures WeeklyRevenue(table, monday, n, region) == RangeRevenue(table, monday, monday + 7 * n - 1, region)
  {
    if n == 0 {
      EmptyRange(table, monday, region);
    } else {
      WeeksAddUp(table, monday, n - 1, region);
      WeekAddsUp(table, monday, n, monday + 7 * (n - 1) - 1, monday + 7 * (n - 1), monday + 7 * n - 1, region);
    }
  }

  lemma WeekAddsUp(
    table: seq<Sale>, monday: int, n: nat, before: int, start: int, last: int, region: Option<string>)
    requires Weekday(monday) == 0 && n > 0
    requires start == before + 1 == monday + 7 * (n - 1) && last == start + 6
    requires WeeklyRevenue(table, monday, n - 1, region) == RangeRevenue(table, monday, before, region)
    ensures WeeklyRevenue(table, monday, n, region) == RangeRevenue(table, monday, last, region)
  {
    OneWeekMore(table, monday, n, start, last, region);
    AdjacentRanges(table, monday, before, start, last, region);
  }

  lemma OneWeekMore(table: seq<Sale>, monday: int, n: nat, start: int, last: int, region: Option<string>)
    requires Weekday(monday) == 0 && n > 0 && start == monday + 7 * (n - 1) && last == start + 6
    ensures WeeklyRevenue(table, monday, n, region)
            == WeeklyRevenue(table, monday, n - 1, region) + RangeRevenue(table, start, last, region)
  {
    MondaysAWeekApart(monday, n - 1);
  }

  lemma AdjacentRanges(table: seq<Sale>, a: int, b: int, c: int, d: int, region: Option<string>)
    requires a <= c == b + 1 && b <= d
    ensures RangeRevenue(table, a, b, region) + RangeRevenue(table, c, d, region) == RangeRevenue(table, a, d, region)
  {
    RangesAddUp(table, a, b, d, region);
  }

  lemma MondaysAWeekApart(monday: int, n: nat)
    requires Weekday(monday) == 0
    ensures WeekBounds(monday + 7 * n) == (monday + 7 * n, monday + 7 * n + 6)
  {
  }

  lemma {:induction false} EmptyRange(table: seq<Sale>, day: int, region: Option<string>)
    ensures Selected(table, Between(day, day - 1, region)) == []
  {
    if table == [] {
    } else {
      EmptyRange(table[1..], day, region);
    }
  }

  // ------------------------------------------------------------------- reports --

  /** A range handed over in reverse is turned around. */
  function SummaryRevenue(table: seq<Sale>, start: int, end: int, region: Option<string>): int {
    Revenue(Selected(table, if end < start then Between(end, start, region) else Between(start, end, region)))
  }

  /** The weekly report compares two adjacent weeks that do not overlap: together they are
      the fortnight. */
  lemma ReportedWeeksAreAFortnight(table: seq<Sale>, day: int)
    ensures var (monday, sunday) := WeekBounds(day);
            SummaryRevenue(table, monday, sunday, None) + SummaryRevenue(table, monday - 7, monday - 1, None)
            == SummaryRevenue(table, sunday, monday - 7, None)
  {
    var (monday, sunday) := WeekBounds(day);
    RangesAddUp(table, monday - 7, monday - 1, sunday, None);
  }
}
