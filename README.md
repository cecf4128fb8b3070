# Bulk product-list aggregator: a Dafny model

This project models the one operation with real logic in the axesso Amazon data
service: `get_full_product_list` in `server.py`. The operation fetches result
pages 1 to 13 of one keyword search, in consecutive batches of 5. Each page gets
a bounded retry loop. Each page's item list is found by probing four candidate
fields, and the lists are concatenated in page order into `{'all_items': ...}`.

The upstream HTTP service is replaced by an oracle for the search at hand. An
oracle is a function from (page number, attempt number) to the outcome of that
GET: a response with a status and a body that may or may not decode, a read
timeout, or any other client error. The GET for page `p` carries the query
`Query.PageParams(req, p)`. Different pages always send different queries
(`Query.PageParamsInjective`), so an oracle keyed by page can describe any
upstream that answers by query.

Modules:

- `Wrappers`: `Option`.
- `Query`: the null-stripping comprehension shared by every tool, Python's
  `str(page)`, and the query dictionary of one page.
- `Documents`: decoded bodies, the `or`-chain field probe, and what one page
  result adds to the merge.
- `PageFetch`: `fetch_page_with_retry` as a method with a loop, proved against
  the recursive specification `RetryFrom`/`FetchSpec`.
- `Aggregator`: `range` and the batches, the fan-out of one batch, the merge
  loop, and `gather_all`.

The code and the function's docstring disagree: the docstring says "batches of
3", while the code sets `batch_size = 5` (server.py:135). The model follows the
code.

The `or`-chain takes the first *truthy* value, not the first present one, so an
empty list under an earlier key falls through to the next key
(`ProbeSkipsEmptyList`).

## Model

| member | source | states |
|---|---|---|
| `Query.StripNulls` | server.py:96 | The stripped dictionary is no longer than the input and holds no None value. |
| `Query.StripNullsMembers` | server.py:96 | The stripped dictionary holds exactly the input entries whose value is not None, unchanged. |
| `Query.StripNullsAppend` | server.py:96 | Stripping distributes over concatenation, so the kept entries keep their original relative order. |
| `Query.StripNullsKeepsPresent` | server.py:96 | A dictionary without None values is returned unchanged. |
| `Query.StripNullsIdempotent` | server.py:96 | Stripping twice gives the same dictionary as stripping once. |
| `Query.StripNullsDistinct` | server.py:96 | Stripping a dictionary with distinct keys keeps its keys distinct. |
| `Query.Lookup` | server.py:96 | Key lookup is None exactly when `k` is not a key, and otherwise `Some(v)` for an entry `(k, v)` stored under `k`. A key stored with value None gives `Some(NoneValue)`, unlike `dict.get`. |
| `Query.LookupAt` | server.py:85-95 | With distinct keys, looking up any entry's key yields that entry's value. |
| `Query.LookupStripNulls` | server.py:96 | After stripping, a key maps to its original value, or is absent when that value was None. |
| `Query.NatToDecimal` | server.py:88 | `str(n)` for a natural number is a non-empty run of digits, with a leading `0` only for `n == 0`, so it is the shortest spelling. |
| `Query.IntToDecimal` | server.py:88 | `str(n)` starts with `-` exactly when `n` is negative, followed by the digits of `abs(n)`. |
| `Query.DecimalRoundTrip` | server.py:88 | Reading back the digits of `str(n)` gives `n`. |
| `Query.DecimalInjective` | server.py:88 | Different page numbers never produce the same `page` string. |
| `Query.IntToDecimalInjective` | server.py:88 | `str` spells different integers, negative ones included, differently. |
| `Query.PageParamsInjective` | server.py:85-96 | Two pages of one search with the same query are the same page. |
| `Query.PageParams` | server.py:85-96 | The query sent for a page holds no None value. |
| `Query.PageParamsRequired` | server.py:85-96 | A page query is `domainCode`, `keyword` and `page = str(page)`, in that order, followed by the given optional filters in literal order. |
| `Query.PageParamsDistinct` | server.py:85-96 | A page query never has the same key twice. |
| `Query.PageParamsOptional` | server.py:85-96 | Each optional filter is in the page query exactly when the caller gave it, with its value. No key outside the literal is present. |
| `Documents.FirstTruthy` | server.py:111-117 | The result is the list under the first key, in order, whose list is non-empty. It is empty exactly when no key has a non-empty list. |
| `Documents.Probe` | server.py:111-117 | The `or`-chain equals the first-non-empty rule `FirstTruthy` over `searchProductDetails`, `searchResults`, `products`, `items`. |
| `Documents.ProbeSpec` | server.py:142-148 | The probe returns the list under the first of the four keys whose list is non-empty, in priority order. It returns [] exactly when all four are absent or empty. |
| `Documents.ProbeSkipsEmptyList` | server.py:142-148 | An empty list under `searchProductDetails` falls through to a non-empty `products` list. |
| `Documents.Contribution` | server.py:141-149 | A non-dict result adds nothing to the merge. A dict adds its first-non-empty probed list. |
| `Documents.EmptyDocumentContributesNothing` | server.py:131 | The `{}` returned after retries run out adds nothing to the merge. |
| `PageFetch.FetchPageWithRetry` | server.py:97-131 | The loop's result and request count are exactly those of the retry specification for this page. The query it sends is modelled separately by `Query.PageParams`. |
| `PageFetch.RetryStep` | server.py:103-129 | One attempt within the budget, outcome by outcome. A 429, a body that does not decode, a read timeout or any other client error moves on to the next attempt. Any other response, whatever its status, ends the loop with its decoded body after `attempt + 1` requests. |
| `PageFetch.ServerErrorIsKept` | server.py:103-121 | A first response with status 500 and a decoding body is returned after 1 request: only 429 is retried. |
| `PageFetch.AttemptBound` | server.py:97-129 | At most `max(0, max_retries)` requests are made, and at least one when `max_retries >= 1`. |
| `PageFetch.FirstSuccess` | server.py:100-121 | If attempt k < `max_retries` is the first non-failing attempt, the result is its decoded body, whatever its status, after k + 1 requests. |
| `PageFetch.Exhausted` | server.py:97-131 | If every attempt within the budget fails, the result is `{}` after `max(0, max_retries)` requests. With a budget of 0 or less, no request is made. |
| `PageFetch.TwoRateLimitsThenSuccess` | server.py:103-108 | Two 429 responses followed by a decoded non-429 body give that body, after exactly 3 requests. |
| `PageFetch.ThreeTimeouts` | server.py:122-131 | Three read timeouts give `{}` after exactly 3 requests, and the page adds nothing to the merge. |
| `Aggregator.Range` | server.py:138 | `range(a, b)` holds `a, a+1, ..., b-1`, and nothing when `b <= a`. |
| `Aggregator.RangeStep` | server.py:137 | `range(a, b, step)` starts at `a`, rises by `step`, and stays within `[a, b)`. |
| `Aggregator.RangeStepComplete` | server.py:137 | `range(a, b, step)` is complete: element i is `a + i * step`, and when `a < b` it is non-empty and its last element plus `step` reaches `b`. |
| `Aggregator.BatchesOf` | server.py:137-138 | There is one batch per start, and batch i is `range(start_i, min(start_i + size, total + 1))`. |
| `Aggregator.Batches` | server.py:137-138 | Batch i is `range(1 + i * size, min(1 + (i + 1) * size, total + 1))`. When there is at least one page, there is at least one batch, and the batches' starts reach past `total`. |
| `Aggregator.BatchPartition` | server.py:135-138 | Concatenated, the batches are exactly pages 1..total in ascending order. Each batch holds between 1 and `batch_size` pages. |
| `Aggregator.TheBatches` | server.py:135-138 | With the source's constants, the batches are [1..5], [6..10] and [11..13]. |
| `Aggregator.EachPageInOneBatch` | server.py:135-138 | Every page 1..13 lies in exactly one batch. |
| `Aggregator.ResultsInOrder` | server.py:138-139 | `asyncio.gather` keeps task order: result i is the body page i yields under the retry specification. |
| `Aggregator.MergedItemsAppend` | server.py:140-149 | The merged items of a page sequence split at any page boundary into the merged items of the two parts. |
| `Aggregator.TotalAttemptsBounds` | server.py:97-138 | A sequence of n pages issues between n and 3n requests. |
| `Aggregator.ExhaustedPageMergesEmpty` | server.py:130-149 | A page whose every attempt fails adds an empty slice to the merge. |
| `Aggregator.TwoRateLimitsThenSuccessMerges` | server.py:140-149 | A page answered by two 429s and then a decoded body adds that body's probed list to the merge, after 3 requests. |
| `Aggregator.EmptyPageAddsNothing` | server.py:140-149 | A page that adds an empty slice leaves the other pages' items, in order, as they are. |
| `Aggregator.FetchBatch` | server.py:138-139 | The gathered results are the pages' results in task order, and the requests issued are the sum over the batch. |
| `Aggregator.MergeResults` | server.py:140-149 | The result is the accumulator followed by every result's contribution, in result order. |
| `Aggregator.GatherPages` | server.py:133-151 | For any positive batch size, the loop over batches yields the merged items and requests of the flattened batches, with one pause per batch. |
| `Aggregator.GatherAll` | server.py:133-153 | `all_items` is the concatenation of the probed item lists of pages 1..13 in ascending page order. The run issues between 13 and 39 requests and pauses 3 times. It completes for every upstream, so a failing page never stops the run. |

## Left out

- HTTP I/O (`httpx.AsyncClient`, `requests.get`), status codes beyond the 429 test, and JSON decoding: each attempt's outcome is supplied by the oracle.
- The fixed URL, the two headers and the API key from the environment: they do not change any decision the code makes.
- The 60-second per-attempt timeout, the 2-second backoff after each failed attempt and the 1-second pause after each batch: no time is modelled. Only the inter-batch pauses are counted.
- The concurrency of `asyncio.gather`: a batch is modelled as a sequential loop over its pages. `gather` returns results in task order, and merging starts only after the whole batch is in, so the merged list is the same. No page of batch N+1 is started before batch N is merged, because the model is sequential.
- Logging calls (server.py:99, 104, 120, 123, 127, 130): they have no effect on results. The message at server.py:118 is the exception: its `len(items)` can raise (next line).
- Heterogeneous JSON under the probed keys: a dictionary body maps keys to item lists only. In the source, a truthy non-list value (such as a number) makes `len(items)` at server.py:118 raise inside the `try`, which would retry a response that decoded. The model does not capture that path.
- `Aggregator.RangeStep`: only positive steps are modelled, because the source's only step is the constant 5.
- FastMCP registration, pydantic `Field` metadata, `load_dotenv` and the `__main__` entry point: they are plumbing.
- The pass-through tools (`product_details`, `search_products`, `reviews`, `deals`, ...): apart from the stripping rule `Query.StripNulls`, which they share, they are one-line GET wrappers.
- Query-string encoding of values (for example, how a boolean `withCache` is spelled on the wire): that is done by the HTTP client.
