# PatentsView API wrapper: query runner model

A Dafny model of `query` in `api_wrapper.py`, the loop that runs each query
section of a configuration file against the PatentsView search API. For one
section, it models:

- how the optional `sort` option is turned into sort keys and directions, and
  how the directions become the `ascending` flags used to sort the final table;
- the body of every request: the worklist item bound to `input_type`, ANDed with
  all `criteria*` fragments, the requested fields, and a window of 1000 records
  at offset `(page - 1) * 1000`;
- the per-item offset paging loop: one resend on HTTP 429, classification of
  the final status as 4xx, 5xx or success, and continuation only while a page
  comes back with exactly 1000 records;
- the `results_found` counter, which numbers the saved page files
  `{query}_{n}.json` consecutively from 0 and decides whether the saved pages
  are reshaped or the query is reported as empty;
- the worklist: the string `read()` returns for the input file (text mode
  has already turned `\r\n` and `\r` into `\n`), with trailing newlines
  stripped, split into lines, and duplicates removed.

The search server is a parameter: a function from a request and an attempt
number (0 for the first sending, 1 for the resend) to a status code, a `count`
and whether an `X-Status-Reason` header is present. Python's `while count ==
per_page` loop has no bound. The model pages under an explicit bound (`fuel`),
and `Paging.PagingStopsAtFirstShortPage` and `Paging.FuelIrrelevant` show that
the bound only matters when the server answers full pages forever.

Modules: `Wrappers` (Option/Result), `Json` (decoded JSON values), `Sorting`,
`Requests`, `Paging`, `Worklist`, `Decimal` (Python's `str` on page indices) and
`Query` (one section end to end).

The code pages by offset. A client or server error is printed and ends only
that item's paging.

Two exceptions that end the run are modelled. First, an empty `fields` list
makes `fields[0]` on line 47 raise `IndexError` before any request is sent.
`Sorting.Resolve` and `Query.RunQuery` return None in that case. Second, a 4xx
other than 403 without an `X-Status-Reason` header makes line 94 raise
`KeyError`. The model reports that case as `Raised`, and the section stops
(`End.Aborted`). The exceptions raised on every 429 by line 82 are not modelled
(see "Left out").

## Model

| member | source | states |
|---|---|---|
| Sorting.Resolve | api_wrapper.py:31-48 | Sort resolution succeeds exactly when `fields` is non-empty (otherwise `fields[0]` raises IndexError). The result has one direction per key, at least one key, and every key is a requested field. With no usable `sort` option it is ascending on `fields[0]`. |
| Sorting.ResolveListOfDicts | api_wrapper.py:35-45 | For a sort option that is a list of dicts, the resolved keys are exactly the dict keys that are requested fields, in list order and then dict order, each paired with its own direction. If no key survives, the result is `([fields[0]], ["asc"])`. |
| Sorting.MalformedFallsBack | api_wrapper.py:46-48 | A sort option that raises while being iterated or subscripted resolves to ascending on the first field, whatever valid keys came before the error. |
| Sorting.StringElementFallsBack | api_wrapper.py:37-48 | For any sort list and any string element in it, if one of that string's characters is a requested field, `dct[field]` on the string raises. The whole option then falls back to ascending on the first field, whatever the other elements hold. |
| Sorting.AscendingFlags | api_wrapper.py:115-116 | There is one flag per direction, and a flag is false exactly when its direction is the string "desc". |
| Sorting.OnlyExactDescDescends | api_wrapper.py:116 | "asc", "ASC", "DESC", a typo and a non-string all sort ascending. Only "desc" sorts descending. |
| Requests.Encode | api_wrapper.py:66-70 | The posted body `{q, f, o}` decodes back to exactly the request it was built from. `q` is the item binding ANDed with the conjunction of all criteria fragments (built on lines 50-51), `f` is the fields, and `o` is the size and offset. |
| Requests.EncodeInjective | api_wrapper.py:66-70 | Two request bodies are equal exactly when the requests are equal. |
| Paging.Send | api_wrapper.py:78-83 | A request is posted once, or twice exactly when the first answer is 429. Both postings send the identical request, and the answer kept is the last one received. |
| Paging.Classify | api_wrapper.py:86-98 | An answer is read as a success exactly when its status is below 400, and then its `count` is kept. A 4xx other than 403 without `X-Status-Reason` raises. Any other 4xx is a reported client error, and 500 and above is a server error. |
| Paging.Fetch | api_wrapper.py:65-98 | One pass of the loop body for page k sends at least one request for the item at offset (k-1)*1000. Its outcome is the classification of the answer kept. |
| Paging.PagesFrom | api_wrapper.py:64-98 | The loop fetches at most `fuel` pages and at least one when `fuel` is positive. Reaching the bound means exactly `fuel` pages were fetched. |
| Paging.PagingShape | api_wrapper.py:62-98 | The k-th page of an item is the loop body applied to page k. Every page but the last came back a success with count 1000. Paging that ends normally ends on a page that does not continue. An abort ends on the KeyError page. Hitting the bound means every page was full. |
| Paging.RequestsOfItem | api_wrapper.py:62-70 | Built by `Requests.PageRequest`, the k-th request of an item (from 0) has the item's filter and fields, size 1000 and offset k*1000, and is sent once or twice unchanged. |
| Paging.PagingStopsAtFirstShortPage | api_wrapper.py:64 | If the first page that does not continue is page `page + k`, paging takes exactly k+1 pages and ends, given a bound above k. So the loop ends whenever the server eventually answers other than a full success. |
| Paging.FuelIrrelevant | api_wrapper.py:64-98 | Once paging ends within a bound, any larger bound gives the same pages and the same end. |
| Paging.ErrorEndsItem | api_wrapper.py:86-96 | A 4xx carrying its reason header, or a 5xx, sets count to 0. The item's paging then ends normally after that page. |
| Paging.ThrottledTwice | api_wrapper.py:81-96 | A request throttled twice is sent exactly twice, and paging does not continue. The second 429 is reported as a client error when its answer carries X-Status-Reason. Without that header it raises `KeyError` (line 94), which stops the run. |
| Paging.ThreePagesForTwentyFiveHundred | api_wrapper.py:59-98 | With 2500 matches, an item takes exactly three requests. The third asks for offset 2000 and gets count 500. |
| Worklist.StripTrailingNewlines | api_wrapper.py:54 | `rstrip('\n')` returns a prefix of the text that does not end in a newline. Everything it removed was newlines. |
| Worklist.Split | api_wrapper.py:54 | `split('\n')` yields at least one piece, and no piece contains a newline. |
| Worklist.JoinSplit | api_wrapper.py:54 | Joining the split pieces with newlines restores the text. |
| Worklist.SplitJoin | api_wrapper.py:54 | Splitting newline-free pieces joined by newlines gives the pieces back. |
| Worklist.Dedup | api_wrapper.py:54 | The deduplicated list has no repeated element and the same set of elements as the lines. |
| Worklist.WorklistExists | api_wrapper.py:54 | Every input text has a worklist, and it holds at least one item, the empty line for an empty file. |
| Decimal.ParseDigits | api_wrapper.py:100-101 | Reading back the decimal text of a page index gives the index. |
| Decimal.DigitsInjective | api_wrapper.py:100-101 | Different page indices have different decimal texts. |
| Query.ItemsAreIndependent | api_wrapper.py:61-98 | The worklist loop ends normally exactly when every item's paging does. Its pages are then each item's own pages, item after item, so an error on one item does not affect the others. |
| Query.PageAll | api_wrapper.py:61-98 | The worklist loop fetches at most `fuel` times as many pages as there are items, in total. When it gets through a non-empty worklist, it has fetched at least as many pages as there are items. |
| Query.StoppedAtFirstUnfinished | api_wrapper.py:61-98 | When the k-th item is the first whose paging does not end normally, the loop stops there, ending the same way. Its pages are each earlier item's own pages in turn, followed by the k-th item's pages. |
| Query.Record | api_wrapper.py:99-104 | Folding the counter over pages keeps the files already written. It adds one per successful non-empty page, and writes that page under the counter value it had then. |
| Query.Count | api_wrapper.py:99-104 | One page's bookkeeping never drops a file and writes at most one. It writes a file exactly when the page is a success with a non-zero count, under the counter's current value. The counter goes up by one exactly then and the file count moves with it. |
| Query.FilesNumberedFromZero | api_wrapper.py:55 | Starting from `results_found = 0`, the written files are numbered 0..results_found-1 and hold exactly the successful non-empty pages, in arrival order. |
| Query.SavedEventsAreSaved | api_wrapper.py:97-104 | Every page chosen for a file was a success with a non-zero count. |
| Query.FileNamesDistinct | api_wrapper.py:100-101 | Two page files of a query have the same name exactly when their indices are equal, so no saved page overwrites another. |
| Query.FileName | api_wrapper.py:100-101 | A page file name is the query name, `_`, a run of decimal digits that reads back as the page index, and `.json`. |
| Decimal.Digits | api_wrapper.py:100-101 | `str` of a page index is a non-empty run of decimal digits that starts with `0` only for the index 0. |
| Query.RunQuery | api_wrapper.py:31-118 | A section runs exactly when `fields` is non-empty. It completes exactly when the worklist loop gets through every item. Otherwise it stops with the loop's own ending (an exception or the page bound). Its files are exactly the loop's successful non-empty pages, in arrival order, the i-th under index i. A completed section is reshaped exactly when at least one file was written. The reshape reads every written file, keeps the requested fields as columns, and sorts by the resolved sort keys with `AscendingFlags` of the resolved directions. |
| Query.CompletedFileCount | api_wrapper.py:61-104 | A completed section writes as many files as its items have successful non-empty pages in total. |
| Query.NothingFoundReportsNoResults | api_wrapper.py:106-107 | When the server matches nothing, no file is written and the section is reported as having no results. |

## Left out

- Paging.Send: the wait on a 429 is not modelled, and the model assumes it returns. As written, line 82 passes the `Retry-After` header text to `time.sleep`, which accepts only numbers. A missing header would also raise `KeyError`. Both would end the run rather than resend.
- Paging.ThrottledTwice: it proves what happens on the second sending of a throttled request. As written, that second sending never happens, because line 82 already raises on the first 429 (see Paging.Send).
- Paging.PagesFrom: the loop is bounded by `fuel`. Python's loop has no bound, so a server that answers full pages forever makes it run forever. The model reports that case as `OutOfFuel` instead.
- Reading the configuration file (`configparser`, `json.loads` of each option) is left out. A section is taken already parsed: the fields, the sort value (None when absent or not JSON), the criteria fragments in option order, and `input_type`.
- The loop over sections and the `__main__` checks are left out. One section is modelled. An exception in a section also ends all later sections.
- Opening and reading the worklist file is left out. The model starts from the string `read()` returns, after text mode's newline translation and decoding in the locale's encoding. A missing file (`FileNotFoundError`) or undecodable bytes (`UnicodeDecodeError`) would end the run.
- Python's set order for the worklist is arbitrary. `RunQuery` takes the worklist in whatever order it is given, `Worklist.IsWorklist` says which orders are possible, and `Worklist.Dedup` is one of them.
- Reading the response body with `json.loads(r.text)['count']` is not modelled. The server's answer carries `count` directly, so a body that is not JSON or has no `count` is outside the model.
- JSON numbers are integers. Floats in a sort or criteria value are not represented.
- Objects with repeated keys can be written in the model but never come from `json.loads`. On such an object `Sorting.Resolve` walks the repeated key twice and takes its first value, while a Python dict keeps the key once with the last value. `Sorting.ResolveListOfDicts` assumes distinct keys.
- The URL, the request headers, the printed diagnostics and the file contents are left out. These are HTTP transport and console I/O.
- `json_to_csv.main` and the pandas pipeline (read, project, drop duplicates, sort, write) are left out. They are foreign libraries and file I/O. Only the decision to reshape, its page count, its columns, its sort keys and its `ascending` flags are modelled.
