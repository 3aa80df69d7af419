/** The ledger's records and the pure operations and specifications over a
    list of them. */
module Transactions {
  import opened Wrappers
  import opened PhpStrings
  import opened Dates

  /** One ledger record. `amount` is a PHP float, modelled as an exact real. */
  datatype Transaction = Transaction(
    id: int,
    date: WellFormedDate,
    amount: real,
    description: string,
    merchant: string)

  /** The two records every request starts from. */
  function Initial(): seq<Transaction> {
    [ Transaction(1, Date(2019, 1, 1), 100.0, "Payment for groceries", "SuperMart"),
      Transaction(2, Date(2020, 2, 15), 75.5, "Dinner with friends", "Local Restaurant") ]
  }

  // ---------------------------------------------------------------- lookup

  /** The first record in list order whose id is `id`, or None when there is none. */
  function LookupById(s: seq<Transaction>, id: int): (r: Option<Transaction>)
    ensures r.None? <==> forall k :: 0 <= k < |s| ==> s[k].id != id
    ensures r.Some? ==> exists k :: 0 <= k < |s| && s[k] == r.value
                                    && (forall j :: 0 <= j < k ==> s[j].id != id)
    ensures r.Some? ==> r.value.id == id
  {
    if s == [] then None
    else if s[0].id == id then Some(s[0])
    else
      var r := LookupById(s[1..], id);
      assert forall k :: 1 <= k < |s| ==> s[k] == s[1..][k - 1];
      r
  }

  /** Whatever position holds the first record with id `id`, the lookup returns that record. */
  lemma LookupFindsFirst(s: seq<Transaction>, id: int, k: nat)
    requires k < |s| && s[k].id == id
    requires forall j :: 0 <= j < k ==> s[j].id != id
    ensures LookupById(s, id) == Some(s[k])
  {
  }

  // ---------------------------------------------------------------- filter

  /** `stripos($t["description"], $p) !== false`. */
  predicate Matches(t: Transaction, p: string) {
    StrIPos(t.description, p).Some?
  }

  /** `r` is `s` with some of its elements removed and the rest in their order. */
  predicate IsSubsequence(r: seq<Transaction>, s: seq<Transaction>)
    decreases |s|
  {
    if r == [] then true
    else if s == [] then false
    else if r[0] == s[0] then IsSubsequence(r[1..], s[1..])
    else IsSubsequence(r, s[1..])
  }

  /** `array_filter` over the ledger with the description predicate: every
      matching record, each as often as it occurs, in list order, and nothing else. */
  function FilterByDescription(s: seq<Transaction>, p: string): (r: seq<Transaction>)
    ensures IsSubsequence(r, s)
    ensures forall t :: multiset(r)[t] == if Matches(t, p) then multiset(s)[t] else 0
    ensures forall k :: 0 <= k < |r| ==> Matches(r[k], p)
  {
    if s == [] then []
    else
      var rest := FilterByDescription(s[1..], p);
      assert s == [s[0]] + s[1..];
      if Matches(s[0], p) then [s[0]] + rest else
        assert rest == [] || rest[0] != s[0];
        rest
  }

  /** A subsequence never holds a record more often than the list it is taken from. */
  lemma {:induction false} SubsequenceMultiset(r: seq<Transaction>, s: seq<Transaction>)
    requires IsSubsequence(r, s)
    ensures multiset(r) <= multiset(s)
    decreases |s|
  {
    if r != [] {
      assert s == [s[0]] + s[1..];
      if r[0] == s[0] {
        assert r == [r[0]] + r[1..];
        SubsequenceMultiset(r[1..], s[1..]);
      } else {
        SubsequenceMultiset(r, s[1..]);
      }
    }
  }

  /** A subsequence of `s` that holds `s[0]` as often as `s` does must start with it. */
  lemma HeadMustBeKept(r: seq<Transaction>, s: seq<Transaction>)
    requires r != [] && IsSubsequence(r, s)
    requires multiset(r)[s[0]] == multiset(s)[s[0]]
    ensures r[0] == s[0]
  {
    assert s == [s[0]] + s[1..];
    if r[0] != s[0] {
      SubsequenceMultiset(r, s[1..]);
    }
  }

  /** The filter is the only order-preserving selection from `s` that keeps
      exactly the matching records. */
  lemma {:induction false} FilterIsUnique(s: seq<Transaction>, p: string, r: seq<Transaction>)
    requires IsSubsequence(r, s)
    requires forall t :: multiset(r)[t] == if Matches(t, p) then multiset(s)[t] else 0
    ensures r == FilterByDescription(s, p)
    decreases |s|
  {
    if s == [] {
      assert r == [];
    } else {
      var x := s[0];
      assert s == [x] + s[1..];
      if Matches(x, p) {
        assert r != [] by { assert multiset(r)[x] >= 1; }
        HeadMustBeKept(r, s);
        assert r == [x] + r[1..];
        FilterIsUnique(s[1..], p, r[1..]);
      } else {
        assert r != [] ==> r[0] != x by {
          if r != [] { assert r[0] in multiset(r); }
        }
        assert forall t :: Matches(t, p) ==> multiset(s)[t] == multiset(s[1..])[t];
        FilterIsUnique(s[1..], p, r);
      }
    }
  }

  /** An empty search term matches every description (PHP 8 `stripos`
      finds "" at position 0), so the filter keeps the whole ledger. */
  lemma {:induction false} EmptySearchKeepsAll(s: seq<Transaction>)
    ensures FilterByDescription(s, "") == s
  {
    if s != [] {
      EmptyNeedleFound(s[0].description);
      EmptySearchKeepsAll(s[1..]);
    }
  }

  /** Searching the literal ledger for "GROCER" finds the groceries payment
      and only it, whatever the case of the search term. */
  lemma SearchGrocerExample()
    ensures FilterByDescription(Initial(), "GROCER") == [Initial()[0]]
  {
    var s := Initial();
    GrocerInGroceries();
    GrocerNotInDinner();
    assert s[1..] == [s[1]];
    assert s[1..][1..] == [];
  }

  lemma GrocerInGroceries()
    ensures Matches(Initial()[0], "GROCER")
  {
    var needle := Lower("GROCER");
    assert needle == "grocer";
    var d := Lower(Initial()[0].description);
    assert d[12..18] == "grocer";
    assert OccursAt(d, needle, 12);
  }

  lemma GrocerNotInDinner()
    ensures !Matches(Initial()[1], "GROCER")
  {
    var needle := Lower("GROCER");
    assert needle[0] == 'g';
    var d := Lower(Initial()[1].description);
    assert forall i :: 0 <= i < |d| ==> d[i] != 'g';
    forall i | 0 <= i ensures !OccursAt(d, needle, i) {
      if i + |needle| <= |d| {
        assert d[i..i + |needle|][0] == d[i];
      }
    }
  }

  // ----------------------------------------------------------------- order

  /** The two comparators the ledger sorts with. */
  datatype SortKey = ByDate | ByAmount

  /** The value a comparator compares: `usort` puts larger values first. */
  function Key(k: SortKey, t: Transaction): real {
    match k
    case ByDate => DayOrdinal(t.date) as real
    case ByAmount => t.amount
  }

  predicate SortedBy(k: SortKey, s: seq<Transaction>) {
    forall i, j :: 0 <= i < j < |s| ==> Key(k, s[i]) >= Key(k, s[j])
  }

  /** Newest date first: no record is dated before one that follows it. */
  predicate NewestFirst(s: seq<Transaction>) {
    forall i, j :: 0 <= i < j < |s| ==> NotBefore(s[i].date, s[j].date)
  }

  /** Largest amount first: amounts do not increase from first to last. */
  predicate LargestAmountFirst(s: seq<Transaction>) {
    forall i, j :: 0 <= i < j < |s| ==> s[i].amount >= s[j].amount
  }

  lemma SortedByDateIsNewestFirst(s: seq<Transaction>)
    ensures SortedBy(ByDate, s) <==> NewestFirst(s)
  {
  }

  lemma SortedByAmountIsLargestFirst(s: seq<Transaction>)
    ensures SortedBy(ByAmount, s) <==> LargestAmountFirst(s)
  {
  }

  // ------------------------------------------------------------------- ids

  /** The id column of the ledger. */
  function Ids(s: seq<Transaction>): (r: seq<int>)
    ensures |r| == |s|
  {
    if s == [] then [] else [s[0].id] + Ids(s[1..])
  }

  lemma {:induction false} IdsAt(s: seq<Transaction>, i: nat)
    requires i < |s|
    ensures Ids(s)[i] == s[i].id
  {
    if i > 0 {
      IdsAt(s[1..], i - 1);
    }
  }

  /** 1, 2, ..., n. */
  function OneTo(n: nat): (r: seq<int>)
    ensures |r| == n
  {
    if n == 0 then [] else OneTo(n - 1) + [n]
  }

  /** The ids are exactly 1..n for a ledger of n records: the id column is a
      rearrangement of 1, 2, ..., n. */
  predicate DenseIds(s: seq<Transaction>) {
    multiset(Ids(s)) == multiset(OneTo(|s|))
  }

  lemma {:induction false} OneToCounts(n: nat)
    ensures forall v :: multiset(OneTo(n))[v] == if 1 <= v <= n then 1 else 0
  {
    if n > 0 {
      OneToCounts(n - 1);
    }
  }

  lemma {:induction false} IdsConcat(u: seq<Transaction>, v: seq<Transaction>)
    ensures Ids(u + v) == Ids(u) + Ids(v)
    decreases |u|
  {
    if u == [] {
      assert u + v == v;
    } else {
      assert (u + v)[0] == u[0];
      assert (u + v)[1..] == u[1..] + v;
      IdsConcat(u[1..], v);
    }
  }

  /** In a rearrangement `b` of `a`, some position holds `a[0]`; taking it
      out leaves a rearrangement of the rest of `a`. */
  lemma MatchHead(a: seq<Transaction>, b: seq<Transaction>) returns (k: nat)
    requires a != [] && multiset(a) == multiset(b)
    ensures k < |b| && b[k] == a[0]
    ensures b == b[..k] + [b[k]] + b[k + 1..]
    ensures multiset(a[1..]) == multiset(b[..k] + b[k + 1..])
  {
    assert a[0] in multiset(b);
    k :| 0 <= k < |b| && b[k] == a[0];
    assert a == [a[0]] + a[1..];
    assert b == b[..k] + [b[k]] + b[k + 1..];
    assert multiset(a) == multiset{a[0]} + multiset(a[1..]);
    assert multiset(b) == multiset(b[..k]) + multiset{b[k]} + multiset(b[k + 1..]);
    assert multiset(b[..k] + b[k + 1..]) == multiset(b[..k]) + multiset(b[k + 1..]);
    assert multiset(a[1..]) == multiset(a) - multiset{a[0]};
    assert multiset(b[..k] + b[k + 1..]) == multiset(b) - multiset{b[k]};
  }

  /** Reordering the records reorders the id column the same way. */
  lemma {:induction false} IdsOfPermutation(a: seq<Transaction>, b: seq<Transaction>)
    requires multiset(a) == multiset(b)
    ensures multiset(Ids(a)) == multiset(Ids(b))
    decreases |a|
  {
    if a == [] {
      assert |b| == |multiset(b)| == 0;
    } else {
      var x := a[0];
      var k := MatchHead(a, b);
      var rest := b[..k] + b[k + 1..];
      assert a == [x] + a[1..];
      IdsOfPermutation(a[1..], rest);
      var pre, post := b[..k], b[k + 1..];
      IdsConcat(pre, post);
      IdsConcat(pre + [x], post);
      IdsConcat(pre, [x]);
      IdsConcat([x], a[1..]);
      assert Ids([x]) == [x.id] by { assert [x][1..] == []; }
      MultisetSplice(Ids(a[1..]), Ids(pre), Ids(post), x.id);
    }
  }

  lemma MultisetSplice(tail: seq<int>, pre: seq<int>, post: seq<int>, y: int)
    requires multiset(tail) == multiset(pre + post)
    ensures multiset([y] + tail) == multiset(pre + [y] + post)
  {
  }

  /** The literal ledger has ids 1 and 2. */
  lemma InitialIdsDense()
    ensures DenseIds(Initial())
  {
  }

  /** The add handler's `count + 1` keeps the ids exactly 1..n+1. */
  lemma AppendNextIdKeepsDense(s: seq<Transaction>, t: Transaction)
    requires DenseIds(s) && t.id == |s| + 1
    ensures DenseIds(s + [t])
  {
    IdsConcat(s, [t]);
    assert Ids([t]) == [t.id];
    assert OneTo(|s + [t]|) == OneTo(|s|) + [|s| + 1];
  }

  /** Reordering records, as either sort does, neither makes nor breaks dense ids. */
  lemma PermutationKeepsDense(a: seq<Transaction>, b: seq<Transaction>)
    requires multiset(a) == multiset(b)
    ensures DenseIds(a) <==> DenseIds(b)
  {
    IdsOfPermutation(a, b);
    assert |a| == |multiset(a)| == |multiset(b)| == |b|;
  }

  /** Dense ids: each of 1..n occurs once in the id column and nothing else occurs. */
  lemma DenseIdCounts(s: seq<Transaction>)
    requires DenseIds(s)
    ensures forall v :: multiset(Ids(s))[v] == if 1 <= v <= |s| then 1 else 0
  {
    OneToCounts(|s|);
  }

  /** Dense ids are distinct, and each lies in 1..n. */
  lemma DenseIdsDistinct(s: seq<Transaction>)
    requires DenseIds(s)
    ensures forall i :: 0 <= i < |s| ==> 1 <= s[i].id <= |s|
    ensures forall i, j :: 0 <= i < j < |s| ==> s[i].id != s[j].id
  {
    var ids := Ids(s);
    forall i | 0 <= i < |s| ensures 1 <= s[i].id <= |s| && multiset(ids)[s[i].id] == 1 {
      IdsAt(s, i);
      assert ids[i] in multiset(ids);
      DenseIdCounts(s);
    }
    forall i, j | 0 <= i < j < |s| ensures s[i].id != s[j].id {
      IdsAt(s, i);
      IdsAt(s, j);
      SingleCopyDistinct(ids, i, j);
    }
  }

  /** A value the multiset holds only once cannot sit at two positions. */
  lemma SingleCopyDistinct(x: seq<int>, i: nat, j: nat)
    requires i < j < |x| && multiset(x)[x[i]] <= 1
    ensures x[i] != x[j]
  {
    assert x == x[..j] + x[j..];
    assert x[..j][i] == x[i];
    assert x[j..][0] == x[j];
    assert multiset(x[..j])[x[i]] >= 1;
  }

  // ----------------------------------------------------------------- total

  /** `array_sum` of the amount column, in exact arithmetic. */
  function Total(s: seq<Transaction>): real {
    if s == [] then 0.0 else s[0].amount + Total(s[1..])
  }

  lemma {:induction false} TotalConcat(u: seq<Transaction>, v: seq<Transaction>)
    ensures Total(u + v) == Total(u) + Total(v)
    decreases |u|
  {
    if u == [] {
      assert u + v == v;
    } else {
      assert (u + v)[0] == u[0];
      assert (u + v)[1..] == u[1..] + v;
      TotalConcat(u[1..], v);
    }
  }

  /** Sorting does not change the total. */
  lemma {:induction false} TotalOfPermutation(a: seq<Transaction>, b: seq<Transaction>)
    requires multiset(a) == multiset(b)
    ensures Total(a) == Total(b)
    decreases |a|
  {
    if a == [] {
      assert |b| == |multiset(b)| == 0;
    } else {
      var x := a[0];
      var k := MatchHead(a, b);
      var rest := b[..k] + b[k + 1..];
      assert a == [x] + a[1..];
      TotalOfPermutation(a[1..], rest);
      TotalConcat(b[..k] + [x], b[k + 1..]);
      TotalConcat(b[..k], [x]);
      TotalConcat(b[..k], b[k + 1..]);
      assert Total([x]) == x.amount;
    }
  }

  /** Appending a record adds its amount to the total. */
  lemma AppendTotal(s: seq<Transaction>, t: Transaction)
    ensures Total(s + [t]) == Total(s) + t.amount
  {
    TotalConcat(s, [t]);
    assert Total([t]) == t.amount;
  }
}
