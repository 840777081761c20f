/** The history view of src/pages/History.tsx: its filter state, the effect
    that narrows the loaded list stage by stage and sorts it newest first, the
    two completed-amount totals, and the page state that holds them. */
module HistoryView {
  import opened Optional
  import opened TransactionData

  datatype TypeFilter = AllTypes | OnlyType(direction: Direction)
  datatype StatusFilter = AllStatuses | OnlyStatus(status: Status)
  /** `'custom'` is declared by the source but no branch handles it. */
  datatype DateRange = AllDates | Today | Week | Month | Custom
  datatype Category = Food | Transport | Shopping | Bills | Entertainment | Other
  datatype CategoryFilter = AllCategories | OnlyCategory(category: Category)

  /** `FilterState`: one value per filter axis. */
  datatype FilterState = FilterState(
    kind: TypeFilter,
    status: StatusFilter,
    dateRange: DateRange,
    category: CategoryFilter)

  /** The state the page starts in and the one "clear filters" restores. */
  const DefaultFilters := FilterState(AllTypes, AllStatuses, AllDates, AllCategories)

  const MsPerDay: int := 24 * 60 * 60 * 1000

  const LoadErrorMessage: string := "ไม่สามารถโหลดประวัติการทำธุรกรรมได้"

  /** The string value of a category option, compared with `t.category`. */
  function CategoryName(c: Category): string {
    match c
    case Food => "food"
    case Transport => "transport"
    case Shopping => "shopping"
    case Bills => "bills"
    case Entertainment => "entertainment"
    case Other => "other"
  }

  // ---------------------------------------------------------------------
  // The predicates of the individual stages

  predicate MatchesType(f: TypeFilter, t: Transaction) {
    f.OnlyType? ==> t.kind == f.direction
  }

  predicate MatchesStatus(f: StatusFilter, t: Transaction) {
    f.OnlyStatus? ==> t.status == f.status
  }

  predicate MatchesCategory(f: CategoryFilter, t: Transaction) {
    f.OnlyCategory? ==> t.category == Some(CategoryName(f.category))
  }

  /** The date stage. `day` is the calendar day `toDateString` names. */
  predicate InDateRange(r: DateRange, t: Transaction, now: int, day: int -> int) {
    match r
    case Today => day(t.timestamp) == day(now)
    case Week => t.timestamp >= now - 7 * MsPerDay
    case Month => t.timestamp >= now - 30 * MsPerDay
    case AllDates => true
    case Custom => true
  }

  /** `hay.includes(needle)`. */
  predicate Contains(hay: string, needle: string) {
    exists i :: 0 <= i <= |hay| && needle <= hay[i..]
  }

  /** `field?.toLowerCase().includes(q)`: an absent field never matches. */
  predicate FieldContains(field: Option<string>, q: string, lower: string -> string) {
    field.Some? && Contains(lower(field.value), q)
  }

  /** The search stage. An empty query keeps everything; otherwise the
      lowercased query must occur in one of five lowercased fields. */
  predicate MatchesQuery(query: string, t: Transaction, lower: string -> string) {
    var q := lower(query);
    query == [] ||
      FieldContains(t.recipient, q, lower) ||
      FieldContains(t.sender, q, lower) ||
      Contains(lower(t.payTag), q) ||
      FieldContains(t.memo, q, lower) ||
      FieldContains(t.reference, q, lower)
  }

  /** A record is displayed iff it passes every stage. */
  predicate Passes(f: FilterState, query: string, now: int, day: int -> int, lower: string -> string, t: Transaction) {
    && MatchesType(f.kind, t)
    && MatchesStatus(f.status, t)
    && MatchesCategory(f.category, t)
    && InDateRange(f.dateRange, t, now, day)
    && MatchesQuery(query, t, lower)
  }

  /** The stage predicates as values, for `Filter`. */
  function KeepsType(k: TypeFilter): Transaction -> bool { t => MatchesType(k, t) }
  function KeepsStatus(k: StatusFilter): Transaction -> bool { t => MatchesStatus(k, t) }
  function KeepsCategory(k: CategoryFilter): Transaction -> bool { t => MatchesCategory(k, t) }
  function KeepsDate(r: DateRange, now: int, day: int -> int): Transaction -> bool { t => InDateRange(r, t, now, day) }
  function KeepsQuery(query: string, lower: string -> string): Transaction -> bool { t => MatchesQuery(query, t, lower) }
  function KeepsAll(f: FilterState, query: string, now: int, day: int -> int, lower: string -> string): Transaction -> bool {
    t => Passes(f, query, now, day, lower, t)
  }

  /** True when no stage of the effect applies; the effect then sorts the
      loaded array itself instead of a filtered copy. */
  predicate NarrowsNothing(f: FilterState, query: string) {
    && f.kind == AllTypes
    && f.status == AllStatuses
    && f.category == AllCategories
    && (f.dateRange == AllDates || f.dateRange == Custom)
    && query == []
  }

  // ---------------------------------------------------------------------
  // Filtering, as `Array.prototype.filter` does it

  function Filter(s: seq<Transaction>, p: Transaction -> bool): seq<Transaction>
  {
    if s == [] then []
    else if p(s[|s| - 1]) then Filter(s[..|s| - 1], p) + [s[|s| - 1]]
    else Filter(s[..|s| - 1], p)
  }

  /** Filtering keeps each passing record with its multiplicity and drops
      every other one: nothing is invented or duplicated. */
  lemma {:induction false} FilterCounts(s: seq<Transaction>, p: Transaction -> bool)
    ensures forall x :: multiset(Filter(s, p))[x] == if p(x) then multiset(s)[x] else 0
  {
    if s != [] {
      var init, last := s[..|s| - 1], s[|s| - 1];
      FilterCounts(init, p);
      assert s == init + [last];
    }
  }

  lemma {:induction false} FilterMembers(s: seq<Transaction>, p: Transaction -> bool)
    ensures forall x :: x in Filter(s, p) <==> x in s && p(x)
  {
    FilterCounts(s, p);
    forall x ensures x in Filter(s, p) <==> x in s && p(x) {
      assert x in Filter(s, p) <==> x in multiset(Filter(s, p));
      assert x in s <==> x in multiset(s);
    }
  }

  /** Filtering preserves the relative order of the records it keeps, so it
      keeps a newest-first list newest first. */
  lemma {:induction false} FilterKeepsNewestFirst(s: seq<Transaction>, p: Transaction -> bool)
    requires NewestFirst(s)
    ensures NewestFirst(Filter(s, p))
  {
    if s != [] {
      var init, last := s[..|s| - 1], s[|s| - 1];
      assert NewestFirst(init);
      FilterKeepsNewestFirst(init, p);
      if p(last) {
        var r := Filter(init, p);
        FilterMembers(init, p);
        forall k | 0 <= k < |r| ensures r[k].timestamp >= last.timestamp {
          assert r[k] in init;
          var m :| 0 <= m < |init| && init[m] == r[k];
          assert s[m] == init[m];
        }
      }
    }
  }

  /** Filtering with a predicate every record satisfies changes nothing. */
  lemma {:induction false} FilterKeepsAll(s: seq<Transaction>, p: Transaction -> bool)
    requires forall k :: 0 <= k < |s| ==> p(s[k])
    ensures Filter(s, p) == s
  {
    if s != [] {
      FilterKeepsAll(s[..|s| - 1], p);
    }
  }

  /** Only the predicate's values on the list matter. */
  lemma {:induction false} FilterAgrees(s: seq<Transaction>, p: Transaction -> bool, q: Transaction -> bool)
    requires forall k :: 0 <= k < |s| ==> p(s[k]) == q(s[k])
    ensures Filter(s, p) == Filter(s, q)
  {
    if s != [] {
      FilterAgrees(s[..|s| - 1], p, q);
    }
  }

  /** Two stages in a row are one stage with the conjunction. */
  lemma {:induction false} FilterFuses(s: seq<Transaction>, p: Transaction -> bool, q: Transaction -> bool, pq: Transaction -> bool)
    requires forall x :: pq(x) == (p(x) && q(x))
    ensures Filter(Filter(s, p), q) == Filter(s, pq)
  {
    if s != [] {
      var init, last := s[..|s| - 1], s[|s| - 1];
      FilterFuses(init, p, q, pq);
      if p(last) {
        var r := Filter(init, p) + [last];
        assert r[..|r| - 1] == Filter(init, p);
      }
    }
  }

  /** The order in which two axis filters are applied does not matter. */
  lemma {:induction false} FilterCommutes(s: seq<Transaction>, p: Transaction -> bool, q: Transaction -> bool)
    ensures Filter(Filter(s, p), q) == Filter(Filter(s, q), p)
  {
    var both := x => p(x) && q(x);
    FilterFuses(s, p, q, both);
    FilterFuses(s, q, p, both);
  }

  /** Filtering twice with one predicate is filtering once. */
  lemma {:induction false} FilterIdempotent(s: seq<Transaction>, p: Transaction -> bool)
    ensures Filter(Filter(s, p), p) == Filter(s, p)
  {
    FilterFuses(s, p, p, p);
  }

  // ---------------------------------------------------------------------
  // Stability of the sort

  /** The records with timestamp `t`, as a predicate for `Filter`. */
  function AtTime(t: int): Transaction -> bool { (x: Transaction) => x.timestamp == t }

  /** One insertion step keeps the records of each timestamp in their order:
      the records it moves past are strictly older than the inserted one. */
  lemma {:induction false} InsertNewestKeepsTies(x: Transaction, s: seq<Transaction>, t: int)
    ensures Filter(InsertNewest(x, s), AtTime(t)) ==
            if x.timestamp == t then Filter(s, AtTime(t)) + [x] else Filter(s, AtTime(t))
  {
    var p := AtTime(t);
    if s == [] {
      assert [x][..0] == [];
    } else if s[|s| - 1].timestamp >= x.timestamp {
      assert (s + [x])[..|s|] == s;
    } else {
      var init, last := s[..|s| - 1], s[|s| - 1];
      InsertNewestKeepsTies(x, init, t);
      var r := InsertNewest(x, init);
      assert (r + [last])[..|r|] == r;
      assert Filter(s, p) == if p(last) then Filter(init, p) + [last] else Filter(init, p);
    }
  }

  /** The sort is stable: the records sharing any one timestamp appear in
      the sorted list in the order they had in the input. */
  lemma {:induction false} SortNewestFirstStable(s: seq<Transaction>, t: int)
    ensures Filter(SortNewestFirst(s), AtTime(t)) == Filter(s, AtTime(t))
  {
    if s != [] {
      var init, last := s[..|s| - 1], s[|s| - 1];
      SortNewestFirstStable(init, t);
      InsertNewestKeepsTies(last, SortNewestFirst(init), t);
    }
  }

  // ---------------------------------------------------------------------
  // The whole effect, as a reference definition

  /** What the effect stores in `filteredTransactions`: the records that pass
      every stage, sorted newest first. */
  function Pipeline(s: seq<Transaction>, f: FilterState, query: string, now: int,
                    day: int -> int, lower: string -> string): seq<Transaction>
  {
    SortNewestFirst(Filter(s, KeepsAll(f, query, now, day, lower)))
  }

  /** The displayed list is a permutation of exactly the loaded records that
      pass every predicate. */
  lemma PipelineCounts(s: seq<Transaction>, f: FilterState, query: string, now: int,
                       day: int -> int, lower: string -> string)
    ensures forall x :: multiset(Pipeline(s, f, query, now, day, lower))[x] ==
              if Passes(f, query, now, day, lower, x) then multiset(s)[x] else 0
  {
    var p := KeepsAll(f, query, now, day, lower);
    FilterCounts(s, p);
    SortNewestFirstPermutes(Filter(s, p));
  }

  lemma PipelineMembers(s: seq<Transaction>, f: FilterState, query: string, now: int,
                        day: int -> int, lower: string -> string)
    ensures forall x :: x in Pipeline(s, f, query, now, day, lower) <==>
              x in s && Passes(f, query, now, day, lower, x)
  {
    PipelineCounts(s, f, query, now, day, lower);
    forall x ensures x in Pipeline(s, f, query, now, day, lower) <==>
                     x in s && Passes(f, query, now, day, lower, x) {
      assert x in Pipeline(s, f, query, now, day, lower) <==>
             x in multiset(Pipeline(s, f, query, now, day, lower));
      assert x in s <==> x in multiset(s);
    }
  }

  /** The displayed list is non-increasing by timestamp. */
  lemma PipelineNewestFirst(s: seq<Transaction>, f: FilterState, query: string, now: int,
                            day: int -> int, lower: string -> string)
    ensures NewestFirst(Pipeline(s, f, query, now, day, lower))
  {
    SortNewestFirstOrders(Filter(s, KeepsAll(f, query, now, day, lower)));
  }

  /** Running the effect on its own output with the same inputs changes
      nothing. */
  lemma PipelineIdempotent(s: seq<Transaction>, f: FilterState, query: string, now: int,
                           day: int -> int, lower: string -> string)
    ensures Pipeline(Pipeline(s, f, query, now, day, lower), f, query, now, day, lower) ==
            Pipeline(s, f, query, now, day, lower)
  {
    var p := KeepsAll(f, query, now, day, lower);
    var once := Pipeline(s, f, query, now, day, lower);
    PipelineMembers(s, f, query, now, day, lower);
    assert forall k :: 0 <= k < |once| ==> once[k] in once;
    FilterKeepsAll(once, p);
    SortNewestFirstIdempotent(Filter(s, p));
  }

  /** With every axis at `'all'` and no query, the effect only sorts. */
  lemma {:induction false} PipelineWithoutFilters(s: seq<Transaction>, f: FilterState, query: string, now: int,
                               day: int -> int, lower: string -> string)
    requires NarrowsNothing(f, query)
    ensures Pipeline(s, f, query, now, day, lower) == SortNewestFirst(s)
  {
    FilterKeepsAll(s, KeepsAll(f, query, now, day, lower));
  }

  /** With a non-empty query, a record without any optional text field is
      found only through its PayTag. */
  lemma QueryIgnoresAbsentFields(query: string, t: Transaction, lower: string -> string)
    requires query != []
    requires t.recipient.None? && t.sender.None? && t.memo.None? && t.reference.None?
    ensures MatchesQuery(query, t, lower) <==> Contains(lower(t.payTag), lower(query))
  {
  }

  // ---------------------------------------------------------------------
  // The effect as the source runs it

  method ToArray(s: seq<Transaction>) returns (a: array<Transaction>)
    ensures fresh(a) && a[..] == s
  {
    a := new Transaction[|s|](i requires 0 <= i < |s| => s[i]);
  }

  /** Each stage narrows the working list by its predicate, or, when the
      stage does not apply, passes the very same array on. */
  method TypeStage(filtered: array<Transaction>, kind: TypeFilter) returns (r: array<Transaction>)
    ensures r[..] == Filter(filtered[..], KeepsType(kind))
    ensures kind == AllTypes ==> r == filtered
    ensures kind != AllTypes ==> fresh(r)
  {
    r := filtered;
    if kind != AllTypes {
      var keep := (t: Transaction) => t.kind == kind.direction;
      r := ToArray(Filter(filtered[..], keep));
      FilterAgrees(filtered[..], keep, KeepsType(kind));
    } else {
      FilterKeepsAll(filtered[..], KeepsType(kind));
    }
  }

  method StatusStage(filtered: array<Transaction>, status: StatusFilter) returns (r: array<Transaction>)
    ensures r[..] == Filter(filtered[..], KeepsStatus(status))
    ensures status == AllStatuses ==> r == filtered
    ensures status != AllStatuses ==> fresh(r)
  {
    r := filtered;
    if status != AllStatuses {
      var keep := (t: Transaction) => t.status == status.status;
      r := ToArray(Filter(filtered[..], keep));
      FilterAgrees(filtered[..], keep, KeepsStatus(status));
    } else {
      FilterKeepsAll(filtered[..], KeepsStatus(status));
    }
  }

  method CategoryStage(filtered: array<Transaction>, category: CategoryFilter) returns (r: array<Transaction>)
    ensures r[..] == Filter(filtered[..], KeepsCategory(category))
    ensures category == AllCategories ==> r == filtered
    ensures category != AllCategories ==> fresh(r)
  {
    r := filtered;
    if category != AllCategories {
      var name := CategoryName(category.category);
      var keep := (t: Transaction) => t.category == Some(name);
      r := ToArray(Filter(filtered[..], keep));
      FilterAgrees(filtered[..], keep, KeepsCategory(category));
    } else {
      FilterKeepsAll(filtered[..], KeepsCategory(category));
    }
  }

  /** The `switch` on the date range; `'all'` and `'custom'` fall through. */
  method DateStage(filtered: array<Transaction>, range: DateRange, now: int, day: int -> int)
    returns (r: array<Transaction>)
    ensures r[..] == Filter(filtered[..], KeepsDate(range, now, day))
    ensures (range == AllDates || range == Custom) ==> r == filtered
    ensures !(range == AllDates || range == Custom) ==> fresh(r)
  {
    r := filtered;
    match range {
      case Today =>
        var keep := (t: Transaction) => day(t.timestamp) == day(now);
        r := ToArray(Filter(filtered[..], keep));
        FilterAgrees(filtered[..], keep, KeepsDate(range, now, day));
      case Week =>
        var weekAgo := now - 7 * 24 * 60 * 60 * 1000;
        var keep := (t: Transaction) => t.timestamp >= weekAgo;
        r := ToArray(Filter(filtered[..], keep));
        FilterAgrees(filtered[..], keep, KeepsDate(range, now, day));
      case Month =>
        var monthAgo := now - 30 * 24 * 60 * 60 * 1000;
        var keep := (t: Transaction) => t.timestamp >= monthAgo;
        r := ToArray(Filter(filtered[..], keep));
        FilterAgrees(filtered[..], keep, KeepsDate(range, now, day));
      case _ =>
        FilterKeepsAll(filtered[..], KeepsDate(range, now, day));
    }
  }

  method SearchStage(filtered: array<Transaction>, searchQuery: string, lower: string -> string)
    returns (r: array<Transaction>)
    ensures r[..] == Filter(filtered[..], KeepsQuery(searchQuery, lower))
    ensures searchQuery == [] ==> r == filtered
    ensures searchQuery != [] ==> fresh(r)
  {
    r := filtered;
    if searchQuery != [] {
      var query := lower(searchQuery);
      var keep := (t: Transaction) =>
        FieldContains(t.recipient, query, lower) ||
        FieldContains(t.sender, query, lower) ||
        Contains(lower(t.payTag), query) ||
        FieldContains(t.memo, query, lower) ||
        FieldContains(t.reference, query, lower);
      r := ToArray(Filter(filtered[..], keep));
      FilterAgrees(filtered[..], keep, KeepsQuery(searchQuery, lower));
    } else {
      FilterKeepsAll(filtered[..], KeepsQuery(searchQuery, lower));
    }
  }

  /** The five stages in a row keep exactly what one filter by `Passes` keeps. */
  lemma {:induction false} StagesCompose(s: seq<Transaction>, f: FilterState, query: string, now: int,
                      day: int -> int, lower: string -> string)
    ensures Filter(Filter(Filter(Filter(Filter(s, KeepsType(f.kind)), KeepsStatus(f.status)),
              KeepsCategory(f.category)), KeepsDate(f.dateRange, now, day)), KeepsQuery(query, lower))
            == Filter(s, KeepsAll(f, query, now, day, lower))
  {
    var k1 := KeepsType(f.kind);
    var k2 := (t: Transaction) => k1(t) && KeepsStatus(f.status)(t);
    var k3 := (t: Transaction) => k2(t) && KeepsCategory(f.category)(t);
    var k4 := (t: Transaction) => k3(t) && KeepsDate(f.dateRange, now, day)(t);
    FilterFuses(s, k1, KeepsStatus(f.status), k2);
    FilterFuses(s, k2, KeepsCategory(f.category), k3);
    FilterFuses(s, k3, KeepsDate(f.dateRange, now, day), k4);
    FilterFuses(s, k4, KeepsQuery(query, lower), KeepsAll(f, query, now, day, lower));
  }

  /** The filter effect: reassigns `filtered` stage by stage and then sorts
      `filtered` in place. When no stage applies, `filtered` is the loaded
      array itself and that array is the one sorted. */
  method ApplyFilters(transactions: array<Transaction>, filters: FilterState, searchQuery: string,
                      now: int, day: int -> int, lower: string -> string)
    returns (filtered: array<Transaction>)
    modifies transactions
    ensures filtered[..] == Pipeline(old(transactions[..]), filters, searchQuery, now, day, lower)
    ensures NarrowsNothing(filters, searchQuery) ==> filtered == transactions
    ensures !NarrowsNothing(filters, searchQuery) ==>
              fresh(filtered) && transactions[..] == old(transactions[..])
  {
    StagesCompose(transactions[..], filters, searchQuery, now, day, lower);
    filtered := transactions;
    filtered := TypeStage(filtered, filters.kind);
    filtered := StatusStage(filtered, filters.status);
    filtered := CategoryStage(filtered, filters.category);
    filtered := DateStage(filtered, filters.dateRange, now, day);
    filtered := SearchStage(filtered, searchQuery, lower);
    SortInPlace(filtered);
  }

  // ---------------------------------------------------------------------
  // The summary cards

  /** `reduce((sum, t) => sum + t.amount, 0)`. */
  function SumAmounts(s: seq<Transaction>): real
  {
    if s == [] then 0.0 else SumAmounts(s[..|s| - 1]) + s[|s| - 1].amount
  }

  predicate CompletedIncoming(t: Transaction) { t.kind == Incoming && t.status == Completed }
  predicate CompletedOutgoing(t: Transaction) { t.kind == Outgoing && t.status == Completed }

  /** The "money in" card over the displayed list: the running sum of the
      completed incoming amounts. */
  function IncomingTotal(shown: seq<Transaction>): (total: real)
    ensures total == SumWhere(shown, CompletedIncoming)
  {
    FilteredSumIsSumWhere(shown, CompletedIncoming);
    SumAmounts(Filter(shown, CompletedIncoming))
  }

  /** The "money out" card over the displayed list: the running sum of the
      completed outgoing amounts. */
  function OutgoingTotal(shown: seq<Transaction>): (total: real)
    ensures total == SumWhere(shown, CompletedOutgoing)
  {
    FilteredSumIsSumWhere(shown, CompletedOutgoing);
    SumAmounts(Filter(shown, CompletedOutgoing))
  }

  lemma {:induction false} SumAmountsAppend(a: seq<Transaction>, b: seq<Transaction>)
    ensures SumAmounts(a + b) == SumAmounts(a) + SumAmounts(b)
  {
    if b != [] {
      var ab := a + b;
      SumAmountsAppend(a, b[..|b| - 1]);
      assert ab[..|ab| - 1] == a + b[..|b| - 1];
      assert ab[|ab| - 1] == b[|b| - 1];
      assert SumAmounts(ab) == SumAmounts(ab[..|ab| - 1]) + ab[|ab| - 1].amount;
    } else {
      assert a + b == a;
    }
  }

  /** Taking one term out of a sum. */
  lemma {:induction false} SumAmountsRemove(b: seq<Transaction>, k: nat)
    requires k < |b|
    ensures SumAmounts(b) == SumAmounts(b[..k] + b[k + 1..]) + b[k].amount
  {
    var init := b[..|b| - 1];
    if k == |b| - 1 {
      assert b[..k] + b[k + 1..] == init;
    } else {
      SumAmountsRemove(init, k);
      var rest := init[..k] + init[k + 1..];
      assert b[..k] + b[k + 1..] == rest + [b[|b| - 1]];
      assert (rest + [b[|b| - 1]])[..|rest|] == rest;
    }
  }

  lemma MultisetRemove(b: seq<Transaction>, k: nat)
    requires k < |b|
    ensures multiset(b[..k] + b[k + 1..]) == multiset(b) - multiset{b[k]}
  {
    assert b == b[..k] + [b[k]] + b[k + 1..];
  }

  /** A sum does not depend on the order of its terms. */
  lemma {:induction false} SumAmountsPermutation(a: seq<Transaction>, b: seq<Transaction>)
    requires multiset(a) == multiset(b)
    ensures SumAmounts(a) == SumAmounts(b)
    decreases |a|
  {
    if a != [] {
      var init, last := a[..|a| - 1], a[|a| - 1];
      assert a == init + [last];
      assert last in multiset(b);
      var k :| 0 <= k < |b| && b[k] == last;
      SumAmountsRemove(b, k);
      MultisetRemove(b, k);
      SumAmountsPermutation(init, b[..k] + b[k + 1..]);
    } else {
      assert |multiset(b)| == 0;
    }
  }

  /** A total over a sorted list equals the total over the unsorted one. */
  lemma SortKeepsTotal(kept: seq<Transaction>, p: Transaction -> bool)
    ensures SumAmounts(Filter(SortNewestFirst(kept), p)) == SumAmounts(Filter(kept, p))
  {
    var shown := SortNewestFirst(kept);
    SortNewestFirstPermutes(kept);
    FilterCounts(shown, p);
    FilterCounts(kept, p);
    assert multiset(Filter(shown, p)) == multiset(Filter(kept, p));
    SumAmountsPermutation(Filter(shown, p), Filter(kept, p));
  }

  /** Each total is the sum of `amount` over exactly the completed records of
      its direction among those that pass the filters, in table order: the
      sort does not change it. */
  lemma TotalsOverPassing(s: seq<Transaction>, f: FilterState, query: string, now: int,
                          day: int -> int, lower: string -> string)
    ensures IncomingTotal(Pipeline(s, f, query, now, day, lower)) ==
            SumAmounts(Filter(s, t => Passes(f, query, now, day, lower, t) && CompletedIncoming(t)))
    ensures OutgoingTotal(Pipeline(s, f, query, now, day, lower)) ==
            SumAmounts(Filter(s, t => Passes(f, query, now, day, lower, t) && CompletedOutgoing(t)))
  {
    var p := KeepsAll(f, query, now, day, lower);
    SortKeepsTotal(Filter(s, p), CompletedIncoming);
    FilterFuses(s, p, CompletedIncoming, t => Passes(f, query, now, day, lower, t) && CompletedIncoming(t));
    SortKeepsTotal(Filter(s, p), CompletedOutgoing);
    FilterFuses(s, p, CompletedOutgoing, t => Passes(f, query, now, day, lower, t) && CompletedOutgoing(t));
  }

  /** Showing only outgoing records zeroes the "money in" card, and showing
      only incoming ones zeroes the "money out" card. */
  lemma {:induction false} TotalOfExcludedDirection(s: seq<Transaction>)
    ensures (forall k :: 0 <= k < |s| ==> s[k].kind == Outgoing) ==> IncomingTotal(s) == 0.0
    ensures (forall k :: 0 <= k < |s| ==> s[k].kind == Incoming) ==> OutgoingTotal(s) == 0.0
  {
    if s != [] {
      TotalOfExcludedDirection(s[..|s| - 1]);
    }
  }

  /** A reference reading of either card that never builds the filtered
      list: the running sum of `amount` over the records `p` accepts. */
  function SumWhere(s: seq<Transaction>, p: Transaction -> bool): real {
    if s == [] then 0.0
    else SumWhere(s[..|s| - 1], p) + if p(s[|s| - 1]) then s[|s| - 1].amount else 0.0
  }

  /** Filtering then reducing, as the cards do, is the running sum over the
      accepted records. */
  lemma {:induction false} FilteredSumIsSumWhere(s: seq<Transaction>, p: Transaction -> bool)
    ensures SumAmounts(Filter(s, p)) == SumWhere(s, p)
  {
    if s != [] {
      var init, last := s[..|s| - 1], s[|s| - 1];
      FilteredSumIsSumWhere(init, p);
      if p(last) {
        var f := Filter(init, p) + [last];
        assert f[..|f| - 1] == Filter(init, p);
      }
    }
  }

  /** The fields the cards read, for each record of the shipped table. */
  lemma MockLedger()
    ensures |MockTransactions()| == 8
    ensures MockTransactions()[0].kind == Outgoing && MockTransactions()[0].status == Completed && MockTransactions()[0].amount == 500.0
    ensures MockTransactions()[1].kind == Incoming && MockTransactions()[1].status == Completed && MockTransactions()[1].amount == 1200.0
    ensures MockTransactions()[2].kind == Outgoing && MockTransactions()[2].status == Completed && MockTransactions()[2].amount == 2500.0
    ensures MockTransactions()[3].kind == Outgoing && MockTransactions()[3].status == Completed && MockTransactions()[3].amount == 850.0
    ensures MockTransactions()[4].kind == Incoming && MockTransactions()[4].status == Completed && MockTransactions()[4].amount == 25000.0
    ensures MockTransactions()[5].kind == Outgoing && MockTransactions()[5].status == Failed && MockTransactions()[5].amount == 120.0
    ensures MockTransactions()[6].kind == Outgoing && MockTransactions()[6].status == Completed && MockTransactions()[6].amount == 1580.0
    ensures MockTransactions()[7].kind == Outgoing && MockTransactions()[7].status == Pending && MockTransactions()[7].amount == 349.0
  {
  }

  /** The money in card over any eight records with the shipped
      table's directions, statuses and amounts, summed one record at a time. */
  lemma LedgerIncoming(m: seq<Transaction>)
    requires |m| == 8
    requires m[0].kind == Outgoing && m[0].status == Completed && m[0].amount == 500.0
    requires m[1].kind == Incoming && m[1].status == Completed && m[1].amount == 1200.0
    requires m[2].kind == Outgoing && m[2].status == Completed && m[2].amount == 2500.0
    requires m[3].kind == Outgoing && m[3].status == Completed && m[3].amount == 850.0
    requires m[4].kind == Incoming && m[4].status == Completed && m[4].amount == 25000.0
    requires m[5].kind == Outgoing && m[5].status == Failed && m[5].amount == 120.0
    requires m[6].kind == Outgoing && m[6].status == Completed && m[6].amount == 1580.0
    requires m[7].kind == Outgoing && m[7].status == Pending && m[7].amount == 349.0
    ensures IncomingTotal(m) == 26200.0
  {
    assert SumWhere(m, CompletedIncoming) == 26200.0 by {
      assert m[..0] == [];
      assert m[..1][..0] == m[..0];
      assert SumWhere(m[..1], CompletedIncoming) == 0.0;
      assert m[..2][..1] == m[..1];
      assert SumWhere(m[..2], CompletedIncoming) == 1200.0;
      assert m[..3][..2] == m[..2];
      assert SumWhere(m[..3], CompletedIncoming) == 1200.0;
      assert m[..4][..3] == m[..3];
      assert SumWhere(m[..4], CompletedIncoming) == 1200.0;
      assert m[..5][..4] == m[..4];
      assert SumWhere(m[..5], CompletedIncoming) == 26200.0;
      assert m[..6][..5] == m[..5];
      assert SumWhere(m[..6], CompletedIncoming) == 26200.0;
      assert m[..7][..6] == m[..6];
      assert SumWhere(m[..7], CompletedIncoming) == 26200.0;
      assert m[..8][..7] == m[..7];
      assert SumWhere(m[..8], CompletedIncoming) == 26200.0;
      assert m[..8] == m;
    }
    FilteredSumIsSumWhere(m, CompletedIncoming);
  }

  /** The money out card over any eight records with the shipped
      table's directions, statuses and amounts, summed one record at a time. */
  lemma LedgerOutgoing(m: seq<Transaction>)
    requires |m| == 8
    requires m[0].kind == Outgoing && m[0].status == Completed && m[0].amount == 500.0
    requires m[1].kind == Incoming && m[1].status == Completed && m[1].amount == 1200.0
    requires m[2].kind == Outgoing && m[2].status == Completed && m[2].amount == 2500.0
    requires m[3].kind == Outgoing && m[3].status == Completed && m[3].amount == 850.0
    requires m[4].kind == Incoming && m[4].status == Completed && m[4].amount == 25000.0
    requires m[5].kind == Outgoing && m[5].status == Failed && m[5].amount == 120.0
    requires m[6].kind == Outgoing && m[6].status == Completed && m[6].amount == 1580.0
    requires m[7].kind == Outgoing && m[7].status == Pending && m[7].amount == 349.0
    ensures OutgoingTotal(m) == 5430.0
  {
    assert SumWhere(m, CompletedOutgoing) == 5430.0 by {
      assert m[..0] == [];
      assert m[..1][..0] == m[..0];
      assert SumWhere(m[..1], CompletedOutgoing) == 500.0;
      assert m[..2][..1] == m[..1];
      assert SumWhere(m[..2], CompletedOutgoing) == 500.0;
      assert m[..3][..2] == m[..2];
      assert SumWhere(m[..3], CompletedOutgoing) == 3000.0;
      assert m[..4][..3] == m[..3];
      assert SumWhere(m[..4], CompletedOutgoing) == 3850.0;
      assert m[..5][..4] == m[..4];
      assert SumWhere(m[..5], CompletedOutgoing) == 3850.0;
      assert m[..6][..5] == m[..5];
      assert SumWhere(m[..6], CompletedOutgoing) == 3850.0;
      assert m[..7][..6] == m[..6];
      assert SumWhere(m[..7], CompletedOutgoing) == 5430.0;
      assert m[..8][..7] == m[..7];
      assert SumWhere(m[..8], CompletedOutgoing) == 5430.0;
      assert m[..8] == m;
    }
    FilteredSumIsSumWhere(m, CompletedOutgoing);
  }

  /** For the shipped table with no filters the cards show 26200 in and
      5430 out. */
  lemma ShippedTotals(now: int, day: int -> int, lower: string -> string)
    ensures IncomingTotal(Pipeline(MockTransactions(), DefaultFilters, "", now, day, lower)) == 26200.0
    ensures OutgoingTotal(Pipeline(MockTransactions(), DefaultFilters, "", now, day, lower)) == 5430.0
  {
    PipelineWithoutFilters(MockTransactions(), DefaultFilters, "", now, day, lower);
    MockIsNewestFirst();
    SortNewestFirstFixesSorted(MockTransactions());
    MockLedger();
    LedgerIncoming(MockTransactions());
    LedgerOutgoing(MockTransactions());
  }

  /** Two completed records, an outgoing 500 and an incoming 1200, in
      either order of time, with no filters: the cards show 1200 in and 500
      out. */
  lemma TwoRecordTotals(a: Transaction, b: Transaction, now: int, day: int -> int, lower: string -> string)
    requires a.kind == Outgoing && a.status == Completed && a.amount == 500.0
    requires b.kind == Incoming && b.status == Completed && b.amount == 1200.0
    ensures IncomingTotal(Pipeline([a, b], DefaultFilters, "", now, day, lower)) == 1200.0
    ensures OutgoingTotal(Pipeline([a, b], DefaultFilters, "", now, day, lower)) == 500.0
  {
    var s := [a, b];
    PipelineWithoutFilters(s, DefaultFilters, "", now, day, lower);
    SortKeepsTotal(s, CompletedIncoming);
    SortKeepsTotal(s, CompletedOutgoing);
    assert s[..1] == [a] && [a][..0] == [];
    assert CompletedIncoming(b) && !CompletedIncoming(a);
    assert CompletedOutgoing(a) && !CompletedOutgoing(b);
    assert SumWhere([a], CompletedIncoming) == 0.0;
    assert SumWhere([a], CompletedOutgoing) == 500.0;
    assert SumWhere(s, CompletedIncoming) == 1200.0;
    assert SumWhere(s, CompletedOutgoing) == 500.0;
    FilteredSumIsSumWhere(s, CompletedIncoming);
    FilteredSumIsSumWhere(s, CompletedOutgoing);
  }

  // ---------------------------------------------------------------------
  // The page state

  class HistoryPage {
    var transactions: array<Transaction>
    var filteredTransactions: array<Transaction>
    var searchQuery: string
    var filters: FilterState
    var isLoading: bool
    var error: Option<string>

    /** The state on mount, after the filter effect has run over the empty
        initial list: no stage applies, so the displayed list is the loaded
        array itself. */
    constructor ()
      ensures transactions.Length == 0 && filteredTransactions == transactions
      ensures searchQuery == [] && filters == DefaultFilters
      ensures isLoading && error == None
    {
      transactions := new Transaction[0];
      filteredTransactions := transactions;
      searchQuery := [];
      filters := DefaultFilters;
      isLoading := true;
      error := None;
    }

    /** The filter effect, run whenever `transactions`, `filters` or
        `searchQuery` change. When no stage applies it sorts the loaded array
        in place and displays that array; otherwise it displays a new array
        and leaves the loaded one as it was. */
    method RefreshFiltered(now: int, day: int -> int, lower: string -> string)
      modifies this`filteredTransactions, transactions
      ensures filteredTransactions[..] == Pipeline(old(transactions[..]), filters, searchQuery, now, day, lower)
      ensures NarrowsNothing(filters, searchQuery) ==>
                filteredTransactions == transactions && transactions[..] == SortNewestFirst(old(transactions[..]))
      ensures !NarrowsNothing(filters, searchQuery) ==>
                fresh(filteredTransactions) && transactions[..] == old(transactions[..])
    {
      filteredTransactions := ApplyFilters(transactions, filters, searchQuery, now, day, lower);
      if NarrowsNothing(filters, searchQuery) {
        PipelineWithoutFilters(old(transactions[..]), filters, searchQuery, now, day, lower);
      }
    }

    /** The load on mount, with the simulated outcome as `fails`. On success
        the page holds the store's shared array, and the effect that follows
        sorts that very array when no stage applies. React skips the effect
        when the array is the one already held. */
    method Load(store: TransactionStore, fails: bool, now: int, day: int -> int, lower: string -> string)
      modifies this, store.mock
      ensures !isLoading
      ensures searchQuery == old(searchQuery) && filters == old(filters)
      ensures fails ==> error == Some(LoadErrorMessage)
      ensures fails ==> transactions == old(transactions) && filteredTransactions == old(filteredTransactions)
      ensures fails ==> store.mock[..] == old(store.mock[..])
      ensures !fails ==> error == None && transactions == store.mock
      ensures !fails && old(transactions) != store.mock ==>
                filteredTransactions[..] == Pipeline(old(store.mock[..]), filters, searchQuery, now, day, lower)
      ensures !fails && old(transactions) != store.mock && NarrowsNothing(filters, searchQuery) ==>
                filteredTransactions == store.mock && store.mock[..] == SortNewestFirst(old(store.mock[..]))
      ensures !fails && old(transactions) != store.mock && !NarrowsNothing(filters, searchQuery) ==>
                fresh(filteredTransactions) && store.mock[..] == old(store.mock[..])
      ensures !fails && old(transactions) == store.mock ==>
                filteredTransactions == old(filteredTransactions) && store.mock[..] == old(store.mock[..])
    {
      isLoading := true;
      if fails {
        error := Some(LoadErrorMessage);
      } else {
        var all := store.GetAllTransactions();
        var changed := all != transactions;
        transactions := all;
        error := None;
        if changed {
          RefreshFiltered(now, day, lower);
        }
      }
      isLoading := false;
    }

    /** Typing in the search box. An unchanged value does not re-run the
        effect. */
    method SetSearchQuery(query: string, now: int, day: int -> int, lower: string -> string)
      modifies this`searchQuery, this`filteredTransactions, transactions
      ensures searchQuery == query
      ensures query != old(searchQuery) ==>
                filteredTransactions[..] == Pipeline(old(transactions[..]), filters, query, now, day, lower)
      ensures query != old(searchQuery) && NarrowsNothing(filters, query) ==>
                filteredTransactions == transactions && transactions[..] == SortNewestFirst(old(transactions[..]))
      ensures query != old(searchQuery) && !NarrowsNothing(filters, query) ==>
                fresh(filteredTransactions) && transactions[..] == old(transactions[..])
      ensures query == old(searchQuery) ==>
                filteredTransactions == old(filteredTransactions) && transactions[..] == old(transactions[..])
    {
      if query != searchQuery {
        searchQuery := query;
        RefreshFiltered(now, day, lower);
      }
    }

    /** Choosing an option on one of the four selects: a new filter object,
        so the effect always re-runs. */
    method SetFilters(f: FilterState, now: int, day: int -> int, lower: string -> string)
      modifies this`filters, this`filteredTransactions, transactions
      ensures filters == f && searchQuery == old(searchQuery)
      ensures filteredTransactions[..] == Pipeline(old(transactions[..]), f, searchQuery, now, day, lower)
      ensures NarrowsNothing(f, searchQuery) ==>
                filteredTransactions == transactions && transactions[..] == SortNewestFirst(old(transactions[..]))
      ensures !NarrowsNothing(f, searchQuery) ==>
                fresh(filteredTransactions) && transactions[..] == old(transactions[..])
    {
      filters := f;
      RefreshFiltered(now, day, lower);
    }

    /** "Clear filters": every axis back to `'all'`; the search query is kept,
        so the loaded array is sorted in place and displayed exactly when the
        query is empty. */
    method ClearFilters(now: int, day: int -> int, lower: string -> string)
      modifies this`filters, this`filteredTransactions, transactions
      ensures filters == DefaultFilters && searchQuery == old(searchQuery)
      ensures filteredTransactions[..] == Pipeline(old(transactions[..]), DefaultFilters, searchQuery, now, day, lower)
      ensures searchQuery == [] ==>
                filteredTransactions == transactions && transactions[..] == SortNewestFirst(old(transactions[..]))
      ensures searchQuery != [] ==>
                fresh(filteredTransactions) && transactions[..] == old(transactions[..])
    {
      SetFilters(DefaultFilters, now, day, lower);
    }
  }
}
