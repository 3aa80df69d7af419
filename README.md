# Transaction ledger of PHP_lab03, modelled in Dafny

`index.php` keeps a list of bank transactions. Each record has an `id`, a `date`, an `amount`, a `description` and a `merchant`. The list lives in the global array `$transactions` and is rebuilt from two literal records on every request. The page can look a record up by id, filter the records by description, sort them newest first or largest amount first (`?sort=date`, `?sort=amount`), and append a record from a form. The new record's id is the current count plus one.

The model has five modules:

- `Wrappers`: `Option`, standing for PHP's "record or `null`".
- `PhpStrings`: PHP's `stripos`. A search is ASCII case-insensitive, gives the first position or `None` (PHP's `false`), and finds an empty needle at position 0.
- `Dates`: dates as well-formed (year, month, day) values. `DayOrdinal` is a day number that stands in for `strtotime`. The date comparator uses only the sign of a timestamp difference, and on well-formed dates the day number orders dates the same way as the calendar does.
- `Transactions`: the record datatype, the literal data, and the pure specifications. These cover first-match lookup, the description filter, the two sort orders, the id column and the exact-real total, with the lemmas about them.
- `Ledger`: the class `Ledger`, whose field `transactions` is the global array. Its methods are the functions of `index.php` that read or change it. The request script is `HandleRequest`, which creates a fresh ledger, runs both searches on the literal data, applies the `sort` dispatch, and then runs the add handler.

The order of the script shows up in the model. The searches see the unsorted literal data. The add handler runs after the sort, so a record added on a `?sort=...` URL ends up last whatever its date or amount. Within one request the ids are always exactly 1..n, so they are distinct.

The searches do not change the ledger. `FindById` and `RunSearches` have no `modifies` clause, and `FindByDescription` is a function.

## Model

| member | source | states |
|---|---|---|
| `PhpStrings.StrIPos` | index.php:44 | Returns the first position where the lower-cased needle occurs in the lower-cased haystack. Returns `None` exactly when it occurs nowhere. |
| `PhpStrings.IndexFrom` | index.php:44 | Returns the first occurrence of the needle at or after a start position, or `None` exactly when there is none after it. |
| `PhpStrings.StrIPosIgnoresCase` | index.php:44 | Lower-casing the haystack or the needle first does not change the result: the search ignores case. |
| `PhpStrings.EmptyNeedleFound` | index.php:44 | An empty search term is found at position 0 of any description. |
| `Dates.DayOrdinalOrder` | index.php:53 | On well-formed dates, the day number is at least as large exactly when the date is the same day or a later one. |
| `Transactions.LookupById` | index.php:28-34 | Gives `None` exactly when no record has the id. Otherwise gives a record at a position holding that id, with no earlier position holding it. |
| `Transactions.LookupFindsFirst` | index.php:28-34 | If position k holds the first record with the id, the lookup returns exactly that record. |
| `Ledger.Ledger.FindById` | index.php:28-34 | The early-return loop returns what `LookupById` specifies for the current ledger, and it changes nothing. |
| `Transactions.FilterByDescription` | index.php:42-45 | The result is an order-preserving subsequence of the ledger. A matching record occurs in it as often as in the ledger, a non-matching record never occurs, and every element matches. |
| `Transactions.FilterIsUnique` | index.php:42-45 | Every order-preserving selection that keeps exactly the matching records equals the filter's result. |
| `Transactions.EmptySearchKeepsAll` | index.php:44 | Searching for the empty string keeps the whole ledger unchanged. |
| `Transactions.SearchGrocerExample` | index.php:42-45 | On the literal data, searching for "GROCER" gives exactly the groceries payment. |
| `Ledger.Ledger.FindByDescription` | index.php:42-45 | The same subsequence and exact-count guarantee, stated for the ledger's current records. |
| `Ledger.RunSearches` | index.php:90-105 | A description search runs only for a POST with `search`, and an id search only for a POST with `search_id`. Otherwise the results are empty and `None`. |
| `Transactions.SortedByDateIsNewestFirst` | index.php:51-54 | Being ordered by descending day number is the same as no record being dated before a later record. |
| `Transactions.SortedByAmountIsLargestFirst` | index.php:60-63 | Being ordered by descending amount key is the same as amounts not increasing from first to last. |
| `Ledger.InsertAt` | index.php:51-63 | One insertion pass keeps the same records and leaves the first i+1 records ordered by the key. |
| `Ledger.Ledger.SortBy` | index.php:51-63 | The `usort` stand-in: the new list is a permutation of the old one and is ordered by the chosen key, larger first. |
| `Ledger.Ledger.SortByDate` | index.php:51-54 | The new list is a permutation of the old one, newest date first. |
| `Ledger.Ledger.SortByAmount` | index.php:60-63 | The new list is a permutation of the old one, largest amount first. |
| `Ledger.Ledger.AddTransaction` | index.php:128-137 | The length grows by one, every earlier record stays at its position, and the last record holds exactly the given fields. |
| `Ledger.Ledger.ApplySort` | index.php:111-117 | "date" gives the date sort and "amount" gives the amount sort. Any other value, or no parameter, leaves the list exactly as it was. |
| `Ledger.Ledger.AddFromForm` | index.php:147-150 | Appends the form's record with id equal to the old count plus one. If the ids were exactly 1..n, they become exactly 1..n+1. |
| `Ledger.Ledger.SortThenAdd` | index.php:111-150 | After the sort dispatch and the optional add: the old records, permuted as the dispatch says, come first; the new record is at position n with id n+1; dense ids are kept; the total grows by the new amount. |
| `Ledger.Ledger.constructor` | index.php:5-20 | A fresh ledger holds the two literal records. |
| `Ledger.HandleRequest` | index.php:5-150 | The search results and the id lookup are computed on the literal data. The first two rows are the literal records, permuted and ordered as `sort` says. A posted record is third with id 3. The ids are exactly 1..n and distinct. The total is the literal total plus the posted amount. |
| `Transactions.InitialIdsDense` | index.php:5-20 | The literal records have ids exactly 1..2. |
| `Transactions.AppendNextIdKeepsDense` | index.php:147-150 | Appending a record with id count+1 to a ledger whose ids are exactly 1..n gives ids exactly 1..n+1. |
| `Transactions.IdsOfPermutation` | index.php:51-63 | Reordering the records reorders the id column the same way, as a multiset. |
| `Transactions.PermutationKeepsDense` | index.php:51-63 | A permutation of the records has ids exactly 1..n if and only if the original does. |
| `Transactions.DenseIdCounts` | index.php:147-150 | If the ids are exactly 1..n, each of 1..n occurs exactly once in the id column and no other value occurs. |
| `Transactions.DenseIdsDistinct` | index.php:147-150 | If the ids are exactly 1..n, every id lies in 1..n and no two records share an id. |
| `Transactions.TotalOfPermutation` | index.php:70-72 | In exact arithmetic, sorting does not change the sum of the amounts. |
| `Transactions.AppendTotal` | index.php:70-72 | In exact arithmetic, appending a record adds its amount to the sum. |

## Left out

- HTML output (index.php:154-312), including `number_format`, is rendering, not logic.
- Reading `$_SERVER`, `$_POST` and `$_GET` is not modelled. The `(int)` and `(float)` casts and `trim` (index.php:92, 103 and 149) are not modelled either. The parsed values are parameters of `HandleRequest`, and the search term arrives already trimmed.
- `daysSinceTransaction` (index.php:79-83) reads the wall clock and depends on the DateTime library's calendar and time zones.
- `strtotime` parsing and its handling of malformed dates are not modelled. Dates are a subset type of well-formed dates, which the form's `type="date"` field submits, and `DayOrdinal` replaces the timestamp in the comparator. A request crafted to bypass the form with a malformed date is outside the model.
- Amounts are exact reals, not IEEE doubles. NaN, infinities and rounding are not modelled.
- `Transactions.TotalOfPermutation`: `calculateTotalAmount` (index.php:70-72) is a floating-point `array_sum`. `Transactions.Total` is only its exact-real idealisation, so this lemma is stated for exact sums and says nothing about float rounding.
- `Transactions.AppendTotal`: stated for the same exact-real idealisation, so rounding of the float sum is not covered.
- `usort`'s own algorithm and its order of equal elements are not modelled. The model sorts by insertion, and the contracts promise only that the result is a permutation in the required order, which is all the source relies on.
- `Transactions.FilterByDescription`: `array_filter` keeps the original array keys. The model returns the kept records in order without their keys. The page only iterates over the values.
- `PhpStrings.StrIPos`: PHP strings are byte strings. The model works on characters and folds only ASCII letters, which is what `stripos` does from PHP 8.2 on. Multi-byte text and the locale-dependent folding of earlier PHP versions are not modelled.
- `global $transactions` is modelled as the `transactions` field of one `Ledger` object per request. The array does not outlive the request, so nothing persists between requests.
- gallery.php (a `scandir` directory listing and HTML output) is not part of this model.
