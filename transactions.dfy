/** The shared transaction data source of src/data/transactions.ts: the
    `Transaction` record, the mock table, and the two read operations, one of
    which sorts the shared array in place. */
module TransactionData {
  import opened Optional

  datatype Direction = Incoming | Outgoing
  datatype Status = Completed | Pending | Failed

  /** One historical money movement. `timestamp` is the JavaScript `Date`
      as milliseconds since the epoch; `amount` is the JavaScript number as
      an exact real. Optional properties are `Option`s. */
  datatype Transaction = Transaction(
    id: string,
    kind: Direction,
    recipient: Option<string>,
    sender: Option<string>,
    payTag: string,
    amount: real,
    memo: Option<string>,
    date: string,
    timestamp: int,
    status: Status,
    category: Option<string>,
    reference: Option<string>)

  /** The structural invariant the mock records keep: the counterparty field
      that matches the direction is present, the other is absent, and the
      amount is positive. */
  predicate WellFormed(t: Transaction) {
    && (t.kind == Outgoing ==> t.recipient.Some? && t.sender.None?)
    && (t.kind == Incoming ==> t.sender.Some? && t.recipient.None?)
    && t.amount > 0.0
  }

  predicate UniqueIds(s: seq<Transaction>) {
    forall i, j :: 0 <= i < j < |s| ==> s[i].id != s[j].id
  }

  /** Non-increasing by timestamp: the order the comparator
      `(a, b) => b.timestamp - a.timestamp` sorts into. */
  predicate NewestFirst(s: seq<Transaction>) {
    forall i, j :: 0 <= i < j < |s| ==> s[i].timestamp >= s[j].timestamp
  }

  function Min(a: int, b: int): int { if a <= b then a else b }

  /** The contents of `mockTransactions` at load time (timestamps are the
      `new Date(2025, m, d, h, min)` values read as UTC). */
  function MockTransactions(): seq<Transaction> {
    [ Transaction("TXN001", Outgoing, Some("สมชาย ใจดี"), None, "@somchai123", 500.0,
        Some("ค่าอาหารเที่ยง"), "วันนี้ 14:30", 1750343400000, Completed, Some("food"), Some("REF001234567")),
      Transaction("TXN002", Incoming, None, Some("นิดา สวยงาม"), "@nida456", 1200.0,
        Some("คืนเงินค่าหนัง"), "เมื่อวาน 19:45", 1750275900000, Completed, Some("entertainment"), Some("REF001234568")),
      Transaction("TXN003", Outgoing, Some("ประยุทธ์ มั่นคง"), None, "@prayuth789", 2500.0,
        Some("ค่าเช่าบ้าน"), "2 วันที่แล้ว", 1750154400000, Completed, Some("bills"), Some("REF001234569")),
      Transaction("TXN004", Outgoing, Some("มาลี ใจงาม"), None, "@malee999", 850.0,
        Some("ค่าแท็กซี่"), "3 วันที่แล้ว", 1750061700000, Completed, Some("transport"), Some("REF001234570")),
      Transaction("TXN005", Incoming, None, Some("บริษัท ABC จำกัด"), "@abc_company", 25000.0,
        Some("เงินเดือนเดือนมิถุนายน"), "1 สัปดาห์ที่แล้ว", 1749718800000, Completed, Some("other"), Some("REF001234571")),
      Transaction("TXN006", Outgoing, Some("ร้านกาแฟดี"), None, "@coffee_dee", 120.0,
        Some("กาแฟเอสเปรสโซ"), "1 สัปดาห์ที่แล้ว", 1749713400000, Failed, Some("food"), Some("REF001234572")),
      Transaction("TXN007", Outgoing, Some("โลตัส"), None, "@lotus_store", 1580.0,
        Some("ซื้อของใช้ในบ้าน"), "2 สัปดาห์ที่แล้ว", 1749140400000, Completed, Some("shopping"), Some("REF001234573")),
      Transaction("TXN008", Outgoing, Some("Netflix"), None, "@netflix_th", 349.0,
        Some("ค่าสมาชิก Netflix"), "3 สัปดาห์ที่แล้ว", 1748520000000, Pending, Some("entertainment"), Some("REF001234574"))
    ]
  }

  lemma MockWellFormed()
    ensures |MockTransactions()| == 8
    ensures forall t :: t in MockTransactions() ==> WellFormed(t)
  {
  }

  /** The ids of the table differ in their last digit. */
  lemma MockUniqueIds()
    ensures UniqueIds(MockTransactions())
  {
    var m := MockTransactions();
    var digits := seq(8, k requires 0 <= k < 8 => m[k].id[5]);
    assert digits == "12345678";
    forall i, j | 0 <= i < j < |m| ensures m[i].id != m[j].id {
      assert digits[i] != digits[j];
    }
  }

  lemma MockIsNewestFirst()
    ensures NewestFirst(MockTransactions())
  {
  }

  // ---------------------------------------------------------------------
  // The sort. ECMAScript requires Array.prototype.sort to be stable, so a
  // comparator sort by descending timestamp has exactly one outcome: the
  // stable insertion sort below.

  /** Inserts `x` after every element of `s` whose timestamp is at least
      `x`'s, scanning from the right. */
  function InsertNewest(x: Transaction, s: seq<Transaction>): seq<Transaction>
  {
    if s == [] then [x]
    else if s[|s| - 1].timestamp >= x.timestamp then s + [x]
    else InsertNewest(x, s[..|s| - 1]) + [s[|s| - 1]]
  }

  /** Stable sort by descending timestamp: later positions of `s` are
      inserted into the sorted prefix. */
  function SortNewestFirst(s: seq<Transaction>): seq<Transaction>
  {
    if s == [] then [] else InsertNewest(s[|s| - 1], SortNewestFirst(s[..|s| - 1]))
  }

  lemma {:induction false} InsertNewestPermutes(x: Transaction, s: seq<Transaction>)
    ensures multiset(InsertNewest(x, s)) == multiset(s) + multiset{x}
  {
    if s != [] && s[|s| - 1].timestamp < x.timestamp {
      var init, last := s[..|s| - 1], s[|s| - 1];
      InsertNewestPermutes(x, init);
      assert s == init + [last];
    }
  }

  lemma {:induction false} InsertNewestKeepsOrder(x: Transaction, s: seq<Transaction>)
    requires NewestFirst(s)
    ensures NewestFirst(InsertNewest(x, s))
  {
    if s != [] && s[|s| - 1].timestamp < x.timestamp {
      var init, last := s[..|s| - 1], s[|s| - 1];
      InsertNewestKeepsOrder(x, init);
      InsertNewestPermutes(x, init);
      var r := InsertNewest(x, init);
      forall k | 0 <= k < |r| ensures r[k].timestamp >= last.timestamp {
        assert r[k] in multiset(r);
        if r[k] != x {
          assert r[k] in multiset(init);
          var m :| 0 <= m < |init| && init[m] == r[k];
          assert s[m] == init[m];
        }
      }
    }
  }

  lemma MultisetOfSnoc<T>(s: seq<T>)
    requires s != []
    ensures multiset(s) == multiset(s[..|s| - 1]) + multiset{s[|s| - 1]}
  {
    assert s == s[..|s| - 1] + [s[|s| - 1]];
  }

  /** The sort result is a permutation of its input. */
  lemma {:induction false} SortNewestFirstPermutes(s: seq<Transaction>)
    ensures multiset(SortNewestFirst(s)) == multiset(s)
  {
    if s != [] {
      var init, last := s[..|s| - 1], s[|s| - 1];
      var sorted := SortNewestFirst(init);
      assert SortNewestFirst(s) == InsertNewest(last, sorted);
      SortNewestFirstPermutes(init);
      InsertNewestPermutes(last, sorted);
      MultisetOfSnoc(s);
    }
  }

  /** The sort result is non-increasing by timestamp. */
  lemma {:induction false} SortNewestFirstOrders(s: seq<Transaction>)
    ensures NewestFirst(SortNewestFirst(s))
  {
    if s != [] {
      SortNewestFirstOrders(s[..|s| - 1]);
      InsertNewestKeepsOrder(s[|s| - 1], SortNewestFirst(s[..|s| - 1]));
    }
  }

  /** Sorting a list that is already newest first leaves it unchanged. */
  lemma {:induction false} SortNewestFirstFixesSorted(s: seq<Transaction>)
    requires NewestFirst(s)
    ensures SortNewestFirst(s) == s
  {
    if s != [] {
      var init := s[..|s| - 1];
      assert NewestFirst(init);
      SortNewestFirstFixesSorted(init);
      assert s == init + [s[|s| - 1]];
    }
  }

  /** Sorting twice is sorting once. */
  lemma SortNewestFirstIdempotent(s: seq<Transaction>)
    ensures SortNewestFirst(SortNewestFirst(s)) == SortNewestFirst(s)
  {
    SortNewestFirstOrders(s);
    SortNewestFirstFixesSorted(SortNewestFirst(s));
  }

  lemma SortNewestFirstLength(s: seq<Transaction>)
    ensures |SortNewestFirst(s)| == |s|
  {
    SortNewestFirstPermutes(s);
    assert |multiset(SortNewestFirst(s))| == |multiset(s)|;
  }

  /** Where `InsertNewest` puts `x`: after position `j - 1` when everything
      from `j` on is strictly older than `x` and `s[j - 1]` is not. */
  lemma {:induction false} InsertNewestAt(x: Transaction, s: seq<Transaction>, j: nat)
    requires j <= |s|
    requires j == 0 || s[j - 1].timestamp >= x.timestamp
    requires forall k :: j <= k < |s| ==> s[k].timestamp < x.timestamp
    ensures InsertNewest(x, s) == s[..j] + [x] + s[j..]
  {
    if j < |s| {
      var init, last := s[..|s| - 1], s[|s| - 1];
      InsertNewestAt(x, init, j);
      assert init[..j] == s[..j];
      assert init[j..] + [last] == s[j..];
    }
  }

  lemma SortNewestFirstPrefix(s: seq<Transaction>, i: nat)
    requires i < |s|
    ensures SortNewestFirst(s[..i + 1]) == InsertNewest(s[i], SortNewestFirst(s[..i]))
  {
    assert s[..i + 1][..i] == s[..i];
  }

  /** The array contents after the shifting loop of `InsertInPlace`, read
      as a sequence: the sorted prefix with `x` placed at `j`. */
  lemma {:induction false} ShiftedIsInsert(cur: seq<Transaction>, pre: seq<Transaction>, x: Transaction, j: nat)
    requires |cur| == |pre| + 1 && j <= |pre|
    requires forall k :: 0 <= k < j ==> cur[k] == pre[k]
    requires cur[j] == x
    requires forall k :: j < k < |cur| ==> cur[k] == pre[k - 1]
    ensures cur == pre[..j] + [x] + pre[j..]
  {
    var want := pre[..j] + [x] + pre[j..];
    forall k | 0 <= k < |cur| ensures cur[k] == want[k] {
      if k > j { assert want[k] == pre[k - 1]; }
    }
  }

  /** One pass of the insertion sort: moves `a[i]` left past the later
      elements of the sorted prefix `a[..i]`. */
  method InsertInPlace(a: array<Transaction>, i: nat)
    requires i < a.Length
    modifies a
    ensures a[..i + 1] == InsertNewest(old(a[i]), old(a[..i]))
    ensures a[i + 1..] == old(a[i + 1..])
  {
    ghost var orig := a[..];
    ghost var pre := a[..i];
    var x := a[i];
    var j := i;
    while j > 0 && a[j - 1].timestamp < x.timestamp
      invariant 0 <= j <= i
      invariant forall k :: 0 <= k < j ==> a[k] == pre[k]
      invariant forall k :: j < k <= i ==> a[k] == pre[k - 1]
      invariant forall k :: i < k < a.Length ==> a[k] == orig[k]
      invariant forall k :: j <= k < i ==> pre[k].timestamp < x.timestamp
    {
      a[j] := a[j - 1];
      j := j - 1;
    }
    a[j] := x;
    InsertNewestAt(x, pre, j);
    ShiftedIsInsert(a[..i + 1], pre, x, j);
    assert a[i + 1..] == orig[i + 1..];
  }

  /** The in-place sort `mockTransactions.sort(...)` (and `filtered.sort(...)`
      in the history view): afterwards the array holds the stable sort of its
      old contents. */
  method SortInPlace(a: array<Transaction>)
    modifies a
    ensures a[..] == SortNewestFirst(old(a[..]))
  {
    ghost var orig := a[..];
    var i := 0;
    while i < a.Length
      invariant 0 <= i <= a.Length
      invariant a[..i] == SortNewestFirst(orig[..i])
      invariant a[i..] == orig[i..]
    {
      assert a[i] == orig[i];
      InsertInPlace(a, i);
      SortNewestFirstPrefix(orig, i);
      i := i + 1;
    }
    assert orig[..a.Length] == orig;
  }

  /** What `getRecentTransactions` returns for a table `s`: the first three
      of the sorted table, or all of it when it is shorter. */
  function RecentOf(s: seq<Transaction>): (r: seq<Transaction>)
    ensures |r| == Min(3, |s|)
  {
    SortNewestFirstLength(s);
    SortNewestFirst(s)[..Min(3, |s|)]
  }

  lemma {:induction false} PrefixOfNewestFirst(s: seq<Transaction>, n: nat)
    requires NewestFirst(s) && n <= |s|
    ensures NewestFirst(s[..n])
    ensures forall x, y :: x in s[..n] && y in s[n..] ==> x.timestamp >= y.timestamp
  {
    forall x, y | x in s[..n] && y in s[n..] ensures x.timestamp >= y.timestamp {
      var i :| 0 <= i < n && s[..n][i] == x;
      var j :| 0 <= j < |s| - n && s[n..][j] == y;
      assert s[i] == x && s[n + j] == y;
    }
  }

  /** The recent list is newest first, is drawn from the table without
      duplication, and no record left out is later than a returned one. */
  lemma RecentIsLatest(s: seq<Transaction>)
    ensures NewestFirst(RecentOf(s))
    ensures multiset(RecentOf(s)) <= multiset(s)
    ensures forall x, y :: x in RecentOf(s) && y in multiset(s) - multiset(RecentOf(s)) ==>
              x.timestamp >= y.timestamp
  {
    var sorted := SortNewestFirst(s);
    SortNewestFirstOrders(s);
    SortNewestFirstPermutes(s);
    SortNewestFirstLength(s);
    var n := Min(3, |s|);
    PrefixOfNewestFirst(sorted, n);
    assert sorted == sorted[..n] + sorted[n..];
    assert multiset(s) - multiset(RecentOf(s)) == multiset(sorted[n..]);
  }

  /** For the shipped table the recent three are TXN001, TXN002, TXN003. */
  lemma ShippedRecent()
    ensures |RecentOf(MockTransactions())| == 3
    ensures RecentOf(MockTransactions())[0].id == "TXN001"
    ensures RecentOf(MockTransactions())[1].id == "TXN002"
    ensures RecentOf(MockTransactions())[2].id == "TXN003"
  {
    MockIsNewestFirst();
    SortNewestFirstFixesSorted(MockTransactions());
  }

  /** The module's shared state: the one `mockTransactions` array. The
      reference never changes (`export const`); its elements do. */
  class TransactionStore {
    const mock: array<Transaction>

    constructor ()
      ensures fresh(mock)
      ensures mock[..] == MockTransactions()
    {
      var m := MockTransactions();
      mock := new Transaction[|m|](i requires 0 <= i < |m| => m[i]);
    }

    /** `getRecentTransactions`: sorts the shared array in place and returns
        a copy of its first three elements. */
    method GetRecentTransactions() returns (recent: seq<Transaction>)
      modifies mock
      ensures mock[..] == SortNewestFirst(old(mock[..]))
      ensures recent == RecentOf(old(mock[..]))
    {
      SortInPlace(mock);
      SortNewestFirstLength(old(mock[..]));
      recent := mock[..Min(3, mock.Length)];
    }

    /** `getAllTransactions`: the shared array itself, not a copy. */
    method GetAllTransactions() returns (all: array<Transaction>)
      ensures all == mock
    {
      all := mock;
    }
  }

  /** Reading all transactions after the recent ones sees the sorted order,
      because both operations share one array. */
  method RecentThenAll(store: TransactionStore) returns (recent: seq<Transaction>, all: array<Transaction>)
    modifies store.mock
    ensures all == store.mock
    ensures all[..] == SortNewestFirst(old(store.mock[..]))
    ensures recent == all[..Min(3, all.Length)]
  {
    recent := store.GetRecentTransactions();
    all := store.GetAllTransactions();
    SortNewestFirstLength(old(store.mock[..]));
  }

  /** A freshly loaded store hands out TXN001, TXN002, TXN003 as its recent
      transactions. */
  method FirstRecentIds() returns (ids: seq<string>)
    ensures ids == ["TXN001", "TXN002", "TXN003"]
  {
    var store := new TransactionStore();
    var recent := store.GetRecentTransactions();
    ShippedRecent();
    ids := [recent[0].id, recent[1].id, recent[2].id];
  }
}
