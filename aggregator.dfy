/**
 * `gather_all`: the pages 1..13 of one search, fetched in consecutive batches,
 * each page's probed item list appended in page order.
 */
module Aggregator {
  import opened Wrappers
  import opened Documents
  import opened PageFetch

  const BATCH_SIZE: int := 5
  const TOTAL_PAGES: int := 13

  /** The run's result `{'all_items': all_items}`. */
  datatype Aggregate = Aggregate(allItems: seq<Item>)

  function Min(a: int, b: int): int
  {
    if a < b then a else b
  }

  /** Python's `range(a, b)`. */
  function Range(a: int, b: int): (r: seq<int>)
    ensures |r| == if a < b then b - a else 0
    ensures forall i :: 0 <= i < |r| ==> r[i] == a + i
    decreases b - a
  {
    if a >= b then [] else [a] + Range(a + 1, b)
  }

  /** Python's `range(a, b, step)` for a positive step. */
  function RangeStep(a: int, b: int, step: int): (r: seq<int>)
    requires step > 0
    ensures forall i :: 0 <= i < |r| ==> a <= r[i] < b
    ensures r != [] ==> r[0] == a
    ensures forall i :: 0 <= i < |r| - 1 ==> r[i + 1] == r[i] + step
    decreases b - a
  {
    if a >= b then [] else [a] + RangeStep(a + step, b, step)
  }

  /** `range(a, b, step)` is complete: element i is `a + i * step`, and the next one would reach `b`. */
  lemma {:induction false} RangeStepComplete(a: int, b: int, step: int)
    requires step > 0
    ensures forall i :: 0 <= i < |RangeStep(a, b, step)| ==> RangeStep(a, b, step)[i] == a + i * step
    ensures a < b ==> RangeStep(a, b, step) != [] && RangeStep(a, b, step)[|RangeStep(a, b, step)| - 1] + step >= b
    decreases b - a
  {
    if a < b {
      RangeStepComplete(a + step, b, step);
    }
  }

  /** The pages of the batch starting at `start`: `range(start, min(start + size, total + 1))`. */
  function Batch(start: int, size: int, total: int): seq<int>
  {
    Range(start, Min(start + size, total + 1))
  }

  /** One batch per start. */
  function BatchesOf(starts: seq<int>, size: int, total: int): (bs: seq<seq<int>>)
    ensures |bs| == |starts|
    ensures forall i :: 0 <= i < |bs| ==> bs[i] == Batch(starts[i], size, total)
  {
    if starts == [] then [] else [Batch(starts[0], size, total)] + BatchesOf(starts[1..], size, total)
  }

  /** Batching distributes over concatenation of the starts; it follows from `BatchesOf`'s element-wise contract. */
  lemma BatchesOfAppend(a: seq<int>, b: seq<int>, size: int, total: int)
    ensures BatchesOf(a + b, size, total) == BatchesOf(a, size, total) + BatchesOf(b, size, total)
  {
  }

  /** The batches of a run: one per start in `range(1, total + 1, size)`. */
  function Batches(total: int, size: int): (bs: seq<seq<int>>)
    requires size > 0
    ensures forall i :: 0 <= i < |bs| ==> bs[i] == Range(1 + i * size, Min(1 + (i + 1) * size, total + 1))
    ensures total >= 1 ==> bs != [] && 1 + |bs| * size > total
  {
    RangeStepComplete(1, total + 1, size);
    BatchesOf(RangeStep(1, total + 1, size), size, total)
  }

  function Flatten(bs: seq<seq<int>>): seq<int>
  {
    if bs == [] then [] else bs[0] + Flatten(bs[1..])
  }

  lemma {:induction false} FlattenAppend(a: seq<seq<int>>, b: seq<seq<int>>)
    ensures Flatten(a + b) == Flatten(a) + Flatten(b)
  {
    if a == [] {
      assert a + b == b;
    } else {
      assert (a + b)[1..] == a[1..] + b;
      FlattenAppend(a[1..], b);
    }
  }

  lemma RangeConcat(a: int, m: int, b: int)
    requires a <= m <= b
    ensures Range(a, m) + Range(m, b) == Range(a, b)
  {
  }

  lemma {:induction false} BatchesFromCover(start: int, size: int, total: int)
    requires size > 0 && start >= 1
    ensures Flatten(BatchesOf(RangeStep(start, total + 1, size), size, total)) == Range(start, total + 1)
    decreases total + 1 - start
  {
    var starts := RangeStep(start, total + 1, size);
    if start < total + 1 {
      assert starts[1..] == RangeStep(start + size, total + 1, size);
      BatchesFromCover(start + size, size, total);
      var m := Min(start + size, total + 1);
      if start + size <= total + 1 {
        RangeConcat(start, m, total + 1);
      } else {
        assert RangeStep(start + size, total + 1, size) == [];
      }
    }
  }

  /**
   * The batches partition the pages: concatenated they are exactly 1..total in
   * ascending order, and each holds between 1 and `size` pages.
   */
  lemma BatchPartition(total: int, size: int)
    requires size > 0
    ensures Flatten(Batches(total, size)) == Range(1, total + 1)
    ensures forall i :: 0 <= i < |Batches(total, size)| ==> 1 <= |Batches(total, size)[i]| <= size
  {
    BatchesFromCover(1, size, total);
  }

  /** With the source's constants the batches are [1..5], [6..10] and [11..13]. */
  lemma TheBatches()
    ensures Batches(TOTAL_PAGES, BATCH_SIZE) == [[1, 2, 3, 4, 5], [6, 7, 8, 9, 10], [11, 12, 13]]
  {
    var starts := RangeStep(1, 14, 5);
    assert starts == [1, 6, 11] by {
      assert RangeStep(16, 14, 5) == [];
      assert RangeStep(11, 14, 5) == [11];
      assert RangeStep(6, 14, 5) == [6, 11];
    }
    assert Batch(1, 5, 13) == [1, 2, 3, 4, 5];
    assert Batch(6, 5, 13) == [6, 7, 8, 9, 10];
    assert Batch(11, 5, 13) == [11, 12, 13];
  }

  /** Every page 1..13 lies in exactly one batch. */
  lemma EachPageInOneBatch(p: int)
    requires 1 <= p <= TOTAL_PAGES
    ensures exists i :: 0 <= i < |Batches(TOTAL_PAGES, BATCH_SIZE)| && p in Batches(TOTAL_PAGES, BATCH_SIZE)[i]
    ensures forall i, j :: 0 <= i < j < |Batches(TOTAL_PAGES, BATCH_SIZE)| ==>
              !(p in Batches(TOTAL_PAGES, BATCH_SIZE)[i] && p in Batches(TOTAL_PAGES, BATCH_SIZE)[j])
  {
    TheBatches();
    var bs := Batches(TOTAL_PAGES, BATCH_SIZE);
    var i := (p - 1) / 5;
    assert p in bs[i];
  }

  /** The body each page of `pages` yields, in page order. */
  function Results(o: Oracle, pages: seq<int>): (rs: seq<Body>)
    ensures |rs| == |pages|
  {
    if pages == [] then [] else [FetchSpec(o, pages[0], MAX_RETRIES).body] + Results(o, pages[1..])
  }

  /** `asyncio.gather` keeps task order: result i is page i's body. */
  lemma {:induction false} ResultsInOrder(o: Oracle, pages: seq<int>)
    ensures forall i :: 0 <= i < |pages| ==> Results(o, pages)[i] == FetchSpec(o, pages[i], MAX_RETRIES).body
  {
    if pages != [] {
      ResultsInOrder(o, pages[1..]);
    }
  }

  /** `f` applied to each element of `xs`, the resulting lists concatenated in order. */
  function ConcatMap<T, U>(f: T -> seq<U>, xs: seq<T>): seq<U>
  {
    if xs == [] then [] else f(xs[0]) + ConcatMap(f, xs[1..])
  }

  lemma {:induction false} ConcatMapAppend<T, U>(f: T -> seq<U>, a: seq<T>, b: seq<T>)
    ensures ConcatMap(f, a + b) == ConcatMap(f, a) + ConcatMap(f, b)
  {
    if a == [] {
      assert a + b == b;
    } else {
      assert (a + b)[1..] == a[1..] + b;
      ConcatMapAppend(f, a[1..], b);
    }
  }

  /** The probed lists of the given results, concatenated in order. */
  function Contributions(rs: seq<Body>): seq<Item>
  {
    ConcatMap(Contribution, rs)
  }

  /** The merged items of the given pages, in the given order. */
  function MergedItems(o: Oracle, pages: seq<int>): seq<Item>
  {
    Contributions(Results(o, pages))
  }

  lemma ContributionsAppend(a: seq<Body>, b: seq<Body>)
    ensures Contributions(a + b) == Contributions(a) + Contributions(b)
  {
    ConcatMapAppend(Contribution, a, b);
  }

  lemma ContributionsSingle(x: Body)
    ensures Contributions([x]) == Contribution(x)
  {
    assert ConcatMap(Contribution, [x]) == Contribution(x) + ConcatMap(Contribution, []);
  }

  /** The requests issued for the given pages. */
  function TotalAttempts(o: Oracle, pages: seq<int>): nat
  {
    if pages == [] then 0
    else FetchSpec(o, pages[0], MAX_RETRIES).attempts + TotalAttempts(o, pages[1..])
  }

  lemma {:induction false} ResultsAppend(o: Oracle, a: seq<int>, b: seq<int>)
    ensures Results(o, a + b) == Results(o, a) + Results(o, b)
  {
    if a == [] {
      assert a + b == b;
    } else {
      assert (a + b)[1..] == a[1..] + b;
      ResultsAppend(o, a[1..], b);
    }
  }

  lemma {:induction false} TotalAttemptsAppend(o: Oracle, a: seq<int>, b: seq<int>)
    ensures TotalAttempts(o, a + b) == TotalAttempts(o, a) + TotalAttempts(o, b)
  {
    if a == [] {
      assert a + b == b;
    } else {
      assert (a + b)[1..] == a[1..] + b;
      TotalAttemptsAppend(o, a[1..], b);
    }
  }

  /** Merging is concatenation: the items of a run split at any page boundary. */
  lemma MergedItemsAppend(o: Oracle, a: seq<int>, b: seq<int>)
    ensures MergedItems(o, a + b) == MergedItems(o, a) + MergedItems(o, b)
  {
    ResultsAppend(o, a, b);
    ContributionsAppend(Results(o, a), Results(o, b));
  }

  /** Every page makes between one and `MAX_RETRIES` requests. */
  lemma {:induction false} TotalAttemptsBounds(o: Oracle, pages: seq<int>)
    ensures |pages| <= TotalAttempts(o, pages) <= MAX_RETRIES * |pages|
  {
    if pages != [] {
      AttemptBound(o, pages[0], MAX_RETRIES);
      TotalAttemptsBounds(o, pages[1..]);
    }
  }

  /** A page whose every attempt fails yields `{}`, which merges as nothing. */
  lemma ExhaustedPageMergesEmpty(o: Oracle, p: int)
    requires forall j :: 0 <= j < MAX_RETRIES ==> IsFailure(o(p, j))
    ensures MergedItems(o, [p]) == []
  {
    Exhausted(o, p, MAX_RETRIES);
    EmptyDocumentContributesNothing();
    assert Results(o, [p]) == [EmptyDocument] by {
      assert Results(o, [p]) == [EmptyDocument] + Results(o, []);
    }
    ContributionsSingle(EmptyDocument);
  }

  /** Two 429 responses and then a decoded body: the page adds that body's probed list to the merge. */
  lemma TwoRateLimitsThenSuccessMerges(o: Oracle, page: int, status: int, b: Body)
    requires o(page, 0).Responded? && o(page, 0).status == 429
    requires o(page, 1).Responded? && o(page, 1).status == 429
    requires o(page, 2) == Responded(status, Some(b)) && status != 429
    ensures MergedItems(o, [page]) == Contribution(b)
    ensures TotalAttempts(o, [page]) == 3
  {
    TwoRateLimitsThenSuccess(o, page, status, b);
    assert Results(o, [page]) == [b] by {
      assert Results(o, [page]) == [FetchSpec(o, page, MAX_RETRIES).body] + Results(o, []);
    }
    assert TotalAttempts(o, [page]) == FetchSpec(o, page, MAX_RETRIES).attempts + TotalAttempts(o, []);
    ContributionsSingle(b);
  }

  /** A page that merges as nothing leaves the rest of the run's items, in order, as they are. */
  lemma EmptyPageAddsNothing(o: Oracle, before: seq<int>, p: int, after: seq<int>)
    requires MergedItems(o, [p]) == []
    ensures MergedItems(o, before + [p] + after) == MergedItems(o, before) + MergedItems(o, after)
  {
    var x, z := MergedItems(o, before), MergedItems(o, after);
    assert MergedItems(o, before + [p]) == x by {
      MergedItemsAppend(o, before, [p]);
    }
    assert MergedItems(o, before + [p] + after) == x + z by {
      MergedItemsAppend(o, before + [p], after);
    }
  }

  /**
   * `await asyncio.gather(*[fetch_page_with_retry(page) for page in batch])`:
   * one fetch per page, its results in task order whatever order they finish in.
   */
  method FetchBatch(o: Oracle, batch: seq<int>) returns (results: seq<Body>, attempts: nat)
    ensures results == Results(o, batch)
    ensures attempts == TotalAttempts(o, batch)
  {
    results, attempts := [], 0;
    for j := 0 to |batch|
      invariant results == Results(o, batch[..j])
      invariant attempts == TotalAttempts(o, batch[..j])
    {
      var r, made := FetchPageWithRetry(o, batch[j], MAX_RETRIES);
      assert batch[..j + 1] == batch[..j] + [batch[j]];
      ResultsAppend(o, batch[..j], [batch[j]]);
      TotalAttemptsAppend(o, batch[..j], [batch[j]]);
      results := results + [r];
      attempts := attempts + made;
    }
    assert batch[..|batch|] == batch;
  }

  /** `for result in results: if isinstance(result, dict): all_items.extend(<probe>)`. */
  method MergeResults(allItems: seq<Item>, results: seq<Body>) returns (merged: seq<Item>)
    ensures merged == allItems + Contributions(results)
  {
    merged := allItems;
    for j := 0 to |results|
      invariant merged == allItems + Contributions(results[..j])
    {
      ghost var before := merged;
      if results[j].Dict? {
        merged := merged + Probe(results[j].fields);
      }
      assert merged == before + Contribution(results[j]);
      assert Contributions(results[..j + 1]) == Contributions(results[..j]) + Contribution(results[j]) by {
        assert results[..j + 1] == results[..j] + [results[j]];
        ContributionsAppend(results[..j], [results[j]]);
        ContributionsSingle(results[j]);
      }
    }
    assert results[..|results|] == results;
  }

  /**
   * The loop of `gather_all` over `batch_size` and `total_pages`: for each
   * batch start in `range(1, total_pages + 1, batch_size)`, fetch the batch's
   * pages, append each dictionary result's probed list to `all_items` in task
   * order, then pause once. `attempts` counts the requests issued, `delays`
   * the inter-batch pauses.
   */
  method GatherPages(o: Oracle, totalPages: int, batchSize: int)
    returns (allItems: seq<Item>, attempts: nat, delays: nat)
    requires batchSize > 0
    ensures allItems == MergedItems(o, Flatten(Batches(totalPages, batchSize)))
    ensures attempts == TotalAttempts(o, Flatten(Batches(totalPages, batchSize)))
    ensures delays == |Batches(totalPages, batchSize)|
  {
    allItems, attempts, delays := [], 0, 0;
    var starts := RangeStep(1, totalPages + 1, batchSize);
    for bi := 0 to |starts|
      invariant allItems == MergedItems(o, Flatten(BatchesOf(starts[..bi], batchSize, totalPages)))
      invariant attempts == TotalAttempts(o, Flatten(BatchesOf(starts[..bi], batchSize, totalPages)))
      invariant delays == bi
    {
      var batch := Batch(starts[bi], batchSize, totalPages);
      ghost var done := Flatten(BatchesOf(starts[..bi], batchSize, totalPages));
      var results, made := FetchBatch(o, batch);
      MergedItemsAppend(o, done, batch);
      TotalAttemptsAppend(o, done, batch);
      attempts := attempts + made;
      allItems := MergeResults(allItems, results);
      delays := delays + 1;
      assert Flatten(BatchesOf(starts[..bi + 1], batchSize, totalPages)) == done + batch by {
        assert starts[..bi + 1] == starts[..bi] + [starts[bi]];
        BatchesOfAppend(starts[..bi], [starts[bi]], batchSize, totalPages);
        assert BatchesOf([starts[bi]], batchSize, totalPages) == [batch];
        FlattenAppend(BatchesOf(starts[..bi], batchSize, totalPages), [batch]);
        assert Flatten([batch]) == batch + Flatten([]);
      }
    }
    assert starts[..|starts|] == starts;
  }

  /**
   * `gather_all` with its constants (13 pages, batches of 5): the merged items
   * of pages 1..13 in ascending page order, between 13 and 39 requests, and
   * one pause after each of the three batches.
   */
  method GatherAll(o: Oracle) returns (agg: Aggregate, attempts: nat, delays: nat)
    ensures agg.allItems == MergedItems(o, Range(1, TOTAL_PAGES + 1))
    ensures attempts == TotalAttempts(o, Range(1, TOTAL_PAGES + 1))
    ensures TOTAL_PAGES <= attempts <= TOTAL_PAGES * MAX_RETRIES
    ensures delays == 3
  {
    var allItems;
    allItems, attempts, delays := GatherPages(o, TOTAL_PAGES, BATCH_SIZE);
    BatchPartition(TOTAL_PAGES, BATCH_SIZE);
    TheBatches();
    TotalAttemptsBounds(o, Range(1, TOTAL_PAGES + 1));
    agg := Aggregate(allItems);
  }
}
