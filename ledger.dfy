/** The request-local ledger of index.php: the array `$transactions`, the
    functions that search, sort and extend it, and the script that runs them
    for one request. */
module Ledger {
  import opened Wrappers
  import opened Dates
  import opened Transactions

  /** The global array of records the page works on. Each request builds a
      new one from the literal data. */
  class Ledger {
    var transactions: seq<Transaction>

    constructor ()
      ensures transactions == Initial()
    {
      transactions := Initial();
    }

    /** `findTransactionById`: scan in list order and return the first record
        with the given id, or None. It has no `modifies` clause, so the ledger
        is left as it was. */
    method FindById(id: int) returns (r: Option<Transaction>)
      ensures r == LookupById(transactions, id)
    {
      var i := 0;
      while i < |transactions|
        invariant 0 <= i <= |transactions|
        invariant forall j :: 0 <= j < i ==> transactions[j].id != id
      {
        if transactions[i].id == id {
          LookupFindsFirst(transactions, id, i);
          return Some(transactions[i]);
        }
        i := i + 1;
      }
      return None;
    }

    /** `findTransactionByDescription`: the records whose description contains
        `part`, ignoring case, in list order. */
    function FindByDescription(part: string): (r: seq<Transaction>)
      reads this
      ensures IsSubsequence(r, transactions)
      ensures forall t :: multiset(r)[t] == if Matches(t, part) then multiset(transactions)[t] else 0
    {
      FilterByDescription(transactions, part)
    }

    /** `usort` with a comparator that puts larger keys first. Ties may end up
        in any order. */
    method SortBy(k: SortKey)
      modifies this
      ensures multiset(transactions) == multiset(old(transactions))
      ensures SortedBy(k, transactions)
    {
      var s := transactions;
      var i := 0;
      while i < |s|
        invariant i <= |s| == |old(transactions)|
        invariant multiset(s) == multiset(old(transactions))
        invariant SortedBy(k, s[..i])
      {
        s := InsertAt(k, s, i);
        i := i + 1;
      }
      transactions := s;
    }

    /** `sortTransactionsByDate`: newest first. */
    method SortByDate()
      modifies this
      ensures multiset(transactions) == multiset(old(transactions))
      ensures NewestFirst(transactions)
    {
      SortBy(ByDate);
      SortedByDateIsNewestFirst(transactions);
    }

    /** `sortTransactionsByAmount`: largest amount first. */
    method SortByAmount()
      modifies this
      ensures multiset(transactions) == multiset(old(transactions))
      ensures LargestAmountFirst(transactions)
    {
      SortBy(ByAmount);
      SortedByAmountIsLargestFirst(transactions);
    }

    /** `addTransaction`: append one record built from the arguments. */
    method AddTransaction(id: int, date: WellFormedDate, amount: real, description: string, merchant: string)
      modifies this
      ensures |transactions| == |old(transactions)| + 1
      ensures forall i :: 0 <= i < |old(transactions)| ==> transactions[i] == old(transactions)[i]
      ensures transactions[|old(transactions)|] == Transaction(id, date, amount, description, merchant)
    {
      transactions := transactions + [Transaction(id, date, amount, description, merchant)];
    }

    /** The `sort` query parameter: "date" or "amount" picks a sort; any other
        value, or no parameter, leaves the ledger as it is. */
    method ApplySort(sort: Option<string>)
      modifies this
      ensures sort == Some("date") ==>
        multiset(transactions) == multiset(old(transactions)) && NewestFirst(transactions)
      ensures sort == Some("amount") ==>
        multiset(transactions) == multiset(old(transactions)) && LargestAmountFirst(transactions)
      ensures sort != Some("date") && sort != Some("amount") ==> transactions == old(transactions)
    {
      if sort.Some? {
        if sort.value == "date" {
          SortByDate();
        } else if sort.value == "amount" {
          SortByAmount();
        }
      }
    }

    /** The add handler: the new record's id is the current count plus one. */
    method AddFromForm(form: NewTransaction)
      modifies this
      ensures transactions == old(transactions)
        + [Transaction(|old(transactions)| + 1, form.date, form.amount, form.description, form.merchant)]
      ensures DenseIds(old(transactions)) ==> DenseIds(transactions)
    {
      var id := |transactions| + 1;
      ghost var before := transactions;
      AddTransaction(id, form.date, form.amount, form.description, form.merchant);
      assert transactions == before + [Transaction(id, form.date, form.amount, form.description, form.merchant)];
      if DenseIds(before) {
        AppendNextIdKeepsDense(before, transactions[|before|]);
      }
    }

    /** The part of the request script that changes the ledger: the `sort`
        dispatch, then the add handler when the form was posted. */
    method SortThenAdd(sort: Option<string>, add: Option<NewTransaction>)
      modifies this
      ensures var n := |old(transactions)|;
        |transactions| == (if add.Some? then n + 1 else n)
        && multiset(transactions[..n]) == multiset(old(transactions))
        && (sort == Some("date") ==> NewestFirst(transactions[..n]))
        && (sort == Some("amount") ==> LargestAmountFirst(transactions[..n]))
        && (sort != Some("date") && sort != Some("amount") ==> transactions[..n] == old(transactions))
      ensures add.Some? ==>
        var n, f := |old(transactions)|, add.value;
        transactions[n] == Transaction(n + 1, f.date, f.amount, f.description, f.merchant)
      ensures DenseIds(old(transactions)) ==> DenseIds(transactions)
      ensures Total(transactions) == Total(old(transactions)) + if add.Some? then add.value.amount else 0.0
    {
      ApplySort(sort);
      var sorted := transactions;
      PermutationKeepsDense(old(transactions), sorted);
      TotalOfPermutation(old(transactions), sorted);
      assert |sorted| == |old(transactions)| by {
        assert |multiset(sorted)| == |multiset(old(transactions))|;
      }
      if add.Some? {
        AddFromForm(add.value);
        AppendTotal(sorted, transactions[|sorted|]);
      }
      assert transactions[..|sorted|] == sorted;
    }
  }

  /** One pass of the sort: move `s[i]` left past the smaller keys, so that
      the first `i + 1` records end up in order. */
  method InsertAt(k: SortKey, s: seq<Transaction>, i: nat) returns (t: seq<Transaction>)
    requires i < |s| && SortedBy(k, s[..i])
    ensures |t| == |s| && multiset(t) == multiset(s)
    ensures SortedBy(k, t[..i + 1])
  {
    t := s;
    var j := i;
    while 0 < j && Key(k, t[j - 1]) < Key(k, t[j])
      invariant 0 <= j <= i < |t| == |s|
      invariant multiset(t) == multiset(s)
      invariant SortedExcept(k, t, i, j)
    {
      SwapKeepsMultiset(t, j);
      SwapKeepsOrder(k, t, i, j);
      t := SwapDown(t, j);
      j := j - 1;
    }
    SortedExceptDone(k, t, i, j);
  }

  /** Among the first `i + 1` records, every pair is in order except those
      whose later member is at `j`, the record being moved. */
  predicate SortedExcept(k: SortKey, t: seq<Transaction>, i: nat, j: nat)
    requires i < |t|
  {
    forall a, b :: 0 <= a < b <= i && b != j ==> Key(k, t[a]) >= Key(k, t[b])
  }

  lemma SwapKeepsOrder(k: SortKey, t: seq<Transaction>, i: nat, j: nat)
    requires 0 < j <= i < |t| && SortedExcept(k, t, i, j)
    requires Key(k, t[j - 1]) < Key(k, t[j])
    ensures SortedExcept(k, SwapDown(t, j), i, j - 1)
  {
    var u := SwapDown(t, j);
    forall a, b | 0 <= a < b <= i && b != j - 1
      ensures Key(k, u[a]) >= Key(k, u[b])
    {
      if b == j {
        assert u[b] == t[j - 1];
        if a < j - 1 { assert Key(k, t[a]) >= Key(k, t[j - 1]); }
      } else if a == j - 1 {
        assert u[a] == t[j] && u[b] == t[b];
      } else if a == j {
        assert u[a] == t[j - 1] && u[b] == t[b];
      } else {
        assert u[a] == t[a] && u[b] == t[b];
      }
    }
  }

  lemma SortedExceptDone(k: SortKey, t: seq<Transaction>, i: nat, j: nat)
    requires j <= i < |t| && SortedExcept(k, t, i, j)
    requires j == 0 || Key(k, t[j - 1]) >= Key(k, t[j])
    ensures SortedBy(k, t[..i + 1])
  {
    forall a, b | 0 <= a < b <= i
      ensures Key(k, t[a]) >= Key(k, t[b])
    {
      if b == j && a < j - 1 {
        assert Key(k, t[a]) >= Key(k, t[j - 1]);
      }
    }
  }

  /** `t` with the records at `j - 1` and `j` exchanged. */
  function SwapDown(t: seq<Transaction>, j: nat): (u: seq<Transaction>)
    requires 0 < j < |t|
    ensures |u| == |t|
  {
    t[j - 1 := t[j]][j := t[j - 1]]
  }

  lemma SwapKeepsMultiset(t: seq<Transaction>, j: nat)
    requires 0 < j < |t|
    ensures multiset(SwapDown(t, j)) == multiset(t)
  {
    assert t == t[..j - 1] + [t[j - 1], t[j]] + t[j + 1..];
    assert SwapDown(t, j) == t[..j - 1] + [t[j], t[j - 1]] + t[j + 1..];
  }

  /** The fields of the "Add New Transaction" form, already parsed. */
  datatype NewTransaction = NewTransaction(date: WellFormedDate, amount: real, description: string, merchant: string)

  /** What one request carries: whether it is a POST, the `search`,
      `search_id` and `add` form fields, and the `sort` query parameter
      (None where the field is not set). */
  datatype Request = Request(
    isPost: bool,
    search: Option<string>,
    searchId: Option<int>,
    sort: Option<string>,
    add: Option<NewTransaction>)

  /** What the page shows: the ledger's rows, their total, the description
      search results and the record found by id. */
  datatype Page = Page(
    rows: seq<Transaction>,
    total: real,
    searchResults: seq<Transaction>,
    found: Option<Transaction>)

  /** The request script of index.php, top to bottom: the two searches run on
      the literal data, then the sort, then the add handler. */
  method HandleRequest(req: Request) returns (page: Page)
    ensures page.searchResults
      == if req.isPost && req.search.Some? then FilterByDescription(Initial(), req.search.value) else []
    ensures page.found
      == if req.isPost && req.searchId.Some? then LookupById(Initial(), req.searchId.value) else None
    ensures |page.rows| == if req.isPost && req.add.Some? then 3 else 2
    ensures multiset(page.rows[..2]) == multiset(Initial())
    ensures req.sort == Some("date") ==> NewestFirst(page.rows[..2])
    ensures req.sort == Some("amount") ==> LargestAmountFirst(page.rows[..2])
    ensures req.sort != Some("date") && req.sort != Some("amount") ==> page.rows[..2] == Initial()
    ensures req.isPost && req.add.Some? ==>
      var f := req.add.value;
      page.rows[2] == Transaction(3, f.date, f.amount, f.description, f.merchant)
    ensures DenseIds(page.rows)
    ensures forall i, j :: 0 <= i < j < |page.rows| ==> page.rows[i].id != page.rows[j].id
    ensures page.total
      == Total(Initial()) + if req.isPost && req.add.Some? then req.add.value.amount else 0.0
  {
    var ledger := new Ledger();
    var searchResults, found := RunSearches(ledger, req);
    InitialIdsDense();
    ledger.SortThenAdd(req.sort, if req.isPost then req.add else None);
    var rows := ledger.transactions;
    DenseIdsDistinct(rows);
    page := Page(rows, Total(rows), searchResults, found);
  }

  /** The two search handlers, which only read the ledger. */
  method RunSearches(ledger: Ledger, req: Request) returns (searchResults: seq<Transaction>, found: Option<Transaction>)
    ensures searchResults
      == if req.isPost && req.search.Some? then FilterByDescription(ledger.transactions, req.search.value) else []
    ensures found
      == if req.isPost && req.searchId.Some? then LookupById(ledger.transactions, req.searchId.value) else None
  {
    searchResults := [];
    if req.isPost && req.search.Some? {
      searchResults := ledger.FindByDescription(req.search.value);
    }
    found := None;
    if req.isPost && req.searchId.Some? {
      found := ledger.FindById(req.searchId.value);
    }
  }
}
