# Data-loading and choice helpers of the retail analytics dashboard, and the shopping cart

This project models, in Dafny, the non-UI core of the Streamlit retail
dashboard `streamlit/app3.py` and the small `Cart` class of `tests/`.
It then proves properties of that model.

- **Ingest** (`ingest.dfy`): `read_table_safely`, the loader for uploaded files.
  - It routes a file by its first bytes (ZIP signature `PK`, PDF signature `%PDF`) or by its `.xlsx`/`.xls` name.
  - Otherwise it sniffs a delimiter from the first 8192 bytes. It then tries `pd.read_csv` over (encoding, separator) pairs: encodings in the outer loop, separators in the inner loop. The primary round comes first, then a fixed fallback round.
  - It returns the first table with at least one column, or a fixed message.
  - pandas and `csv.Sniffer` are arbitrary functions held in a `Library` value. A ghost log `tried` records the order of the CSV attempts.
- **Text** (`text.dfy`): `norm`, the column-name normaliser. It is modelled as the chain of Python string operations the source writes, and as a one-pass function proved equal to it.
- **KeySuggestion** (`keys.dfy`): `suggest_key`, which guesses the customer-identifier column.
- **Categoricals** (`categoricals.dfy`):
  - `candidate_categoricals`: object columns with between 2 and `max_uniques` distinct values, then an allow-list.
  - The filter-field list `cat_fields`.
  - The default index of the "Category column" choice.
- **Shop** (`cart.dfy`): `Cart`, a class whose `items` field `add_item` grows in place, with its two totals. The two unit tests of `tests/test_cart.py` are methods whose `ensures` are the tests' assertions.
- `wrappers.dfy` holds `Option` and `Result`.

The encoding candidates `[encoding_choice, "utf-8-sig", "utf-8", "cp1252", "latin-1"]` are not deduplicated (streamlit/app3.py:100). `Ingest.PrimaryRepeatsChosenEncoding` proves that choosing "utf-8" repeats the first round's attempts.

Fixed name lists are the default values of parameters: the key candidates, the segment fields, the common transaction fields and the preferred category names. With no argument, a call uses the source's list.

## Model

| member | source | states |
|---|---|---|
| Text.NormSteps | streamlit/app3.py:120-122 | definition: `norm` as the source's chain of `strip`, `lower`, `replace` and `split`/`join`; related to `Norm` by `NormMatchesSteps` |
| Text.Norm | streamlit/app3.py:120-122 | definition: one pass that drops whitespace and underscores and lower-cases the rest; its properties are in `NormMatchesSteps`, `NormShape` and `NormIdempotent` |
| Text.NormMatchesSteps | streamlit/app3.py:120-122 | the one-pass `Norm` equals `"".join(s.strip().lower().replace("_", "").split())` for every string |
| Text.NormShape | streamlit/app3.py:120-122 | a normalised name holds no underscore, no whitespace and no upper-case letter |
| Text.NormIdempotent | streamlit/app3.py:120-122 | normalising twice gives the same result as normalising once |
| KeySuggestion.LastWithNorm | streamlit/app3.py:126 | finds the last column with a given normalised name, and no later column has that name |
| KeySuggestion.NormIndex | streamlit/app3.py:126 | the dict `{norm(c): c}` has a key exactly for each normalised name present, and maps it to the last column with that name (later entries overwrite earlier ones) |
| KeySuggestion.FirstMatchingCandidate | streamlit/app3.py:127-129 | the earliest candidate that some column normalises to; no earlier candidate matches any column |
| KeySuggestion.EndsWithId | streamlit/app3.py:131 | definition: the normalised name ends in "id"; used by `FirstIdColumn` and `SuggestedKey` |
| KeySuggestion.FirstIdColumn | streamlit/app3.py:130-132 | the first column whose normalised name ends in "id"; no earlier column does |
| KeySuggestion.SuggestedKey | streamlit/app3.py:124-133 | no key exactly when there are no columns, otherwise a column of the input. If some column matches a candidate, the key is the last column normalising to the earliest matching candidate. Else, if some column ends in "id", the key is the first such column. Else the key is the first column |
| KeySuggestion.SuggestKey | streamlit/app3.py:124-133 | the two loops with early return compute `SuggestedKey` |
| KeySuggestion.UnderscoredCandidatesNeverMatch | streamlit/app3.py:125-128 | candidates containing `_` are never keys of the normalised-name dict, so they never match |
| Categoricals.Qualifies | streamlit/app3.py:140-143 | definition: an object column whose distinct count could be taken and lies in `(1, max_uniques]`; its use is stated by `AutoDetectedSpec` |
| Categoricals.AutoDetected | streamlit/app3.py:139-146 | definition: the first loop's list; its properties are in `AutoDetectedSpec` and `AutoDetectedNoDuplicates` |
| Categoricals.AppendUnseen | streamlit/app3.py:147-150 | definition: the append-if-unseen loop as a function; its properties are in `AppendUnseenSpec` |
| Categoricals.Categoricals | streamlit/app3.py:139-151 | definition: the result for a non-empty frame; its properties are in `CategoricalsSpec` |
| Categoricals.AutoDetectedSpec | streamlit/app3.py:139-144 | a name is auto-detected iff it names an object column with `1 < nunique <= max_uniques`; the detected names keep frame order |
| Categoricals.AutoDetectedNoDuplicates | streamlit/app3.py:139-144 | with distinct column names, the auto-detected list has no repeats |
| Categoricals.AppendUnseenSpec | streamlit/app3.py:147-150 | the append-if-unseen loop keeps the list so far as a prefix. It adds exactly the pool members of the allow-list not yet listed, in the order of their first occurrence in the allow-list, and never creates a repeat |
| Categoricals.Extend | streamlit/app3.py:147-150 | the loop computes the append-if-unseen function |
| Categoricals.CandidateCategoricals | streamlit/app3.py:135-151 | a missing or empty frame gives `[]`; otherwise the result is the auto-detected columns followed by the unseen allow-list columns present |
| Categoricals.CategoricalsSpec | streamlit/app3.py:135-151 | the result has no repeats and lists only frame columns. It includes every qualifying column and every allow-listed column of the frame; any other entry is a qualifying column. Auto-detected columns come first in frame order, then allow-listed ones in the order of their first occurrence in the allow-list |
| Categoricals.CatFieldList | streamlit/app3.py:307-320 | definition: the filter-field list; its properties are in `CatFieldListShape` and `CatFieldListMembers` |
| Categoricals.CatFields | streamlit/app3.py:307-320 | the three append loops compute `CatFieldList` |
| Categoricals.CatFieldListShape | streamlit/app3.py:307-320 | the filter fields have no repeats. The segment fields present come first, in their listed order. Next come the auto-detected columns not yet listed, in frame order. Last come the common transaction fields present and not yet listed, in their listed order |
| Categoricals.CatFieldListMembers | streamlit/app3.py:307-320 | a name is a filter field iff the frame has it and it is a segment field, a common transaction field, or a column `candidate_categoricals` detects |
| Categoricals.AutoMembers | streamlit/app3.py:313 | `candidate_categoricals(merged, extra=None, max_uniques=50)` lists exactly the qualifying columns of a non-empty frame |
| Categoricals.FirstPresent | streamlit/app3.py:409-410 | the first preferred name present among the choices; no earlier preferred name is present |
| Categoricals.IndexOf | streamlit/app3.py:411 | `list.index`: the position of the first occurrence |
| Categoricals.DefaultCategoryIndex | streamlit/app3.py:408-412 | the index of the first occurrence of the first preferred name present among the choices, else 0 |
| Categoricals.DefaultIsPreferredWhenPresent | streamlit/app3.py:406-412 | for a non-empty frame with a preferred column, the choice list built with the preferred names as allow-list makes the default come from a preferred name: the first preferred name the frame has |
| Ingest.RouteOf | streamlit/app3.py:44-58 | definition: the branch a file takes (ZIP signature, PDF signature, spreadsheet name, else delimited text); its consequences are stated by `ReadTableSafely` |
| Ingest.SeparatorFor | streamlit/app3.py:60-61 | definition: the separator a choice maps to, an unknown choice reading as "auto"; used by `ReadTableSafely` |
| Ingest.HeaderRow | streamlit/app3.py:62 | definition: row 0 holds the header for "first row is header", else none; used by `ReadTableSafely` |
| Ingest.SeparatorCandidates | streamlit/app3.py:99 | definition: the chosen separator alone, else the sniffed one then pandas' own detection; its consequence is in `ConcreteSeparatorOnly` |
| Ingest.PrimaryEncodings | streamlit/app3.py:100 | definition: the primary encoding list, not deduplicated; its consequence is in `PrimaryRepeatsChosenEncoding` |
| Ingest.Cross | streamlit/app3.py:102-103 | definition: the attempt order of a nested sweep; its properties are in `CrossLength`, `CrossAt` and `CrossMembers` |
| Ingest.Accepts | streamlit/app3.py:105 | definition: the acceptance test, no error and more than zero columns; used by `FirstAccepted` |
| Ingest.AllAttempts | streamlit/app3.py:99-113 | definition: the primary attempts then the fallback attempts; the search over it is stated by `ReadDelimited` |
| Ingest.InitialDiagnostics | streamlit/app3.py:35-41 | definition: the diagnostics before any reader runs; stated by `ReadTableSafely` |
| Ingest.Try | streamlit/app3.py:78-96 | an attempt yields a table or an error message, never both and never neither |
| Ingest.FirstAccepted | streamlit/app3.py:102-106 | the first attempt with no error and more than zero columns; every earlier attempt is rejected |
| Ingest.CrossLength | streamlit/app3.py:102-103 | the nested sweep makes one attempt per (encoding, separator) pair |
| Ingest.CrossAt | streamlit/app3.py:102-103 | attempt number i × (number of separators) + j uses encoding i and separator j: encodings outer, separators inner |
| Ingest.CrossMembers | streamlit/app3.py:102-103 | a pair is attempted iff its encoding and its separator are both candidates |
| Ingest.ConcreteSeparatorOnly | streamlit/app3.py:99-103 | with a concrete separator chosen, the primary round makes five attempts, all with that separator |
| Ingest.PrimaryRepeatsChosenEncoding | streamlit/app3.py:100 | with "utf-8" chosen, the third encoding round repeats the first round attempt for attempt |
| Ingest.SearchFound | streamlit/app3.py:102-113 | a search finds a table iff some attempt is accepted, and a found table has at least one column |
| Ingest.FirstAcceptedAppend | streamlit/app3.py:102-113 | searching a concatenation finds the first part's accepted attempt, else searches the second part |
| Ingest.SearchStopsInFirst | streamlit/app3.py:102-106 | a success in the primary round is the result of the whole search |
| Ingest.SearchContinues | streamlit/app3.py:108-113 | once the primary round rejects every attempt, the fallback round decides, after all primary attempts |
| Ingest.Sweep | streamlit/app3.py:102-106 | the nested loops return `SearchFound`, the table of the first accepted attempt, and make exactly the attempts up to it; with no acceptance they make every attempt and return nothing |
| Ingest.SweepAll | streamlit/app3.py:99-113 | the primary and then the fallback sweep return `SearchFound` of the concatenated attempt order, and make the attempts up to the accepted one |
| Ingest.ReadDelimited | streamlit/app3.py:60-115 | the delimited branch. It returns the first accepted attempt's table in primary-then-fallback order, or the "Unable to parse" message; never both. The diagnostics record the name, the size and the first 2048 bytes. The sniffed values are recorded exactly when there are bytes, no separator was chosen and both sniffer calls on the first 8192 bytes succeed, and then they are those calls' answers |
| Ingest.ReadTableSafely | streamlit/app3.py:22-115 | table xor message. No file gives "No file provided." with no diagnostics. A `PK` file yields only the in-memory Excel result and makes no CSV attempt. Otherwise a `%PDF` file yields the PDF message. Otherwise an Excel name yields only the Excel result. Every other file gets the delimited search over the separator the choice maps to. A delimited table has at least one column. The sniffed values are recorded exactly when the file is delimited text with bytes, no separator was chosen and both sniffer calls succeed |
| Shop.Cart.constructor | tests/cart.py:2-3 | a new cart has no items |
| Shop.Cart.AddItem | tests/cart.py:5-6 | appends exactly one item (name, price, quantity) at the end; earlier items are unchanged; quantity defaults to 1 |
| Shop.Cart.TotalItems | tests/cart.py:8-9 | returns the sum of the quantities, without changing the cart |
| Shop.Cart.TotalPrice | tests/cart.py:11-12 | returns the sum of price times quantity, without changing the cart |
| Shop.TotalsAfterAdd | tests/cart.py:5-12 | after adding (n, p, q), the unit count grows by exactly `q` and the amount due by exactly `p * q` |
| Shop.QuantitySumPermutation | tests/cart.py:8-9 | the unit count does not depend on the order of the items |
| Shop.PriceSumPermutation | tests/cart.py:11-12 | the amount due does not depend on the order of the items |
| Shop.TotalsNonNegative | tests/cart.py:8-12 | with non-negative prices and quantities both totals are non-negative |
| Shop.CartStartsEmpty | tests/test_cart.py:3-6 | a new cart totals 0 units and 0.0 |
| Shop.AddItemIncreasesCountAndPrice | tests/test_cart.py:8-13 | two shirts at 25.0 total 2 units and 50.0 |
| Shop.AddItemDefaultsToOneUnit | tests/cart.py:5-12 | an item added without a quantity counts as one unit at its price |

## Left out

- Streamlit UI code, KPIs, merges, date handling and charts in streamlit/app3.py are not modelled: they are widgets, pandas arithmetic and plotting. The `cat_fields` list and the default category index are the exceptions.
- streamlit/app2.py, streamlit/app4.py (a Snowflake client) and the ai-shopper demo (file and JSON cache I/O, LLM calls) are not part of this model.
- pandas (`read_csv`, `read_excel`) and `csv.Sniffer` are not modelled. They are arbitrary functions of the arguments the loader passes them. `engine="python"` and `on_bad_lines="skip"` are properties of those functions.
- Ingest.Library: decoding the 8192-byte sample with `errors="ignore"` is folded into the sniffer functions. They receive the bytes and the encoding name and return nothing when the source's `try` block would raise.
- Ingest.Upload: an upload without `getvalue`, or whose `getvalue` returns something other than bytes, has no raw bytes. Reading from the upload object itself is a `Handle` source.
- Ingest.CsvSource: without raw bytes every attempt reads from the same upload object, whose read position the earlier attempts move. The model treats each read as a pure function of its arguments, so every attempt sees the same input and repeated calls give identical outcomes.
- Ingest.ReadTableSafely: with no file the source returns an empty dict as diagnostics. The model returns no diagnostics.
- Ingest.ReadTableSafely: the `diag` dictionary is a value that the method rebuilds, not a shared object mutated in place.
- Ingest.ReadTableSafely: a spreadsheet result is not checked for columns, as in the source. Only the delimited branch promises at least one column.
- Ingest.Try: exception texts are strings the library functions return. Only the fixed prefixes and messages are modelled.
- Text.Norm: `str.lower` is modelled for ASCII letters only. Other cased characters are left unchanged. Python's full whitespace set is modelled.
- Text.Norm: `str(s)` on non-string column labels is not modelled; column names are strings.
- Categoricals.CandidateCategoricals: column names are required to be distinct. With a repeated name, `df[c].dtype` in the source raises outside its `try`.
- Categoricals.CandidateCategoricals: `extra=None` and `extra=[]` are both the empty sequence, which the source treats alike.
- Categoricals.Column: a column's dtype is reduced to "is object", and its distinct count to a number or, when counting raises, none.
- Shop.Item: prices are exact reals, not binary floats. The totals are exact sums.
- Shop.PriceSumPermutation: holds for exact reals. With floats, adding in another order can round differently.
- Shop.Item: the item dictionaries become a datatype. Prices or quantities that are not numbers are not modelled.
