/**
 * `fetch_page_with_retry`: one page of the bulk search, with a bounded retry
 * loop over an upstream whose answer to each attempt is given by an oracle.
 */
module PageFetch {
  import opened Wrappers
  import opened Documents

  /** The retry budget every page of the bulk search gets. */
  const MAX_RETRIES: int := 3

  /** What one GET attempt yields. */
  datatype Outcome =
    | Responded(status: int, decoded: Option<Body>)  // an HTTP response; decoded is None when `resp.json()` raises
    | ReadTimeout                                      // `httpx.ReadTimeout`
    | TransportError                                   // any other exception the client raises

  /**
   * The upstream, for one search: the outcome of attempt `j` (0-based) of the
   * GET for page `p`, which carries the query `PageParams(req, p)`. As that
   * query differs from page to page (`Query.PageParamsInjective`), keying the
   * oracle by page is as general as keying it by query.
   */
  type Oracle = (int, nat) -> Outcome

  /** An attempt the loop retries: a 429, a timeout, a client error, or a body that does not decode. */
  predicate IsFailure(out: Outcome)
  {
    match out
    case Responded(status, decoded) => status == 429 || decoded.None?
    case ReadTimeout => true
    case TransportError => true
  }

  /** The result a non-failing attempt returns, whatever its status. */
  function DecodedBody(out: Outcome): Body
    requires !IsFailure(out)
  {
    out.decoded.value
  }

  /** A page's result and the number of GET requests issued for it. */
  datatype Fetched = Fetched(body: Body, attempts: nat)

  /** The retry loop, from attempt number `attempt` on. */
  function RetryFrom(o: Oracle, page: int, maxRetries: int, attempt: nat): Fetched
    decreases maxRetries - attempt
  {
    if attempt >= maxRetries then Fetched(EmptyDocument, attempt)
    else if IsFailure(o(page, attempt)) then RetryFrom(o, page, maxRetries, attempt + 1)
    else Fetched(DecodedBody(o(page, attempt)), attempt + 1)
  }

  /** What fetching `page` yields. */
  function FetchSpec(o: Oracle, page: int, maxRetries: int): Fetched
  {
    RetryFrom(o, page, maxRetries, 0)
  }

  function Max(a: int, b: int): int
  {
    if a < b then b else a
  }

  lemma {:induction false} RetryFromBounds(o: Oracle, page: int, maxRetries: int, attempt: nat)
    ensures var r := RetryFrom(o, page, maxRetries, attempt);
      attempt <= r.attempts <= Max(attempt, maxRetries) && (attempt < maxRetries ==> attempt < r.attempts)
    decreases maxRetries - attempt
  {
    if attempt < maxRetries && IsFailure(o(page, attempt)) {
      RetryFromBounds(o, page, maxRetries, attempt + 1);
    }
  }

  /** At most `max_retries` requests are made, and at least one when `max_retries` is positive. */
  lemma AttemptBound(o: Oracle, page: int, maxRetries: int)
    ensures FetchSpec(o, page, maxRetries).attempts <= Max(0, maxRetries)
    ensures maxRetries >= 1 ==> FetchSpec(o, page, maxRetries).attempts >= 1
  {
    RetryFromBounds(o, page, maxRetries, 0);
  }

  lemma {:induction false} RetryFromFirstSuccess(o: Oracle, page: int, maxRetries: int, attempt: nat, k: nat)
    requires attempt <= k < maxRetries
    requires forall j :: attempt <= j < k ==> IsFailure(o(page, j))
    requires !IsFailure(o(page, k))
    ensures RetryFrom(o, page, maxRetries, attempt) == Fetched(DecodedBody(o(page, k)), k + 1)
    decreases k - attempt
  {
    if attempt < k {
      RetryFromFirstSuccess(o, page, maxRetries, attempt + 1, k);
    }
  }

  /**
   * When attempt k (0-based, within the budget) is the first that does not
   * fail, the page's result is that attempt's decoded body, whatever its status,
   * after k + 1 requests.
   */
  lemma FirstSuccess(o: Oracle, page: int, maxRetries: int, k: nat)
    requires k < maxRetries
    requires forall j :: 0 <= j < k ==> IsFailure(o(page, j))
    requires !IsFailure(o(page, k))
    ensures FetchSpec(o, page, maxRetries) == Fetched(DecodedBody(o(page, k)), k + 1)
  {
    RetryFromFirstSuccess(o, page, maxRetries, 0, k);
  }

  lemma {:induction false} RetryFromExhausted(o: Oracle, page: int, maxRetries: int, attempt: nat)
    requires forall j :: attempt <= j < maxRetries ==> IsFailure(o(page, j))
    ensures RetryFrom(o, page, maxRetries, attempt) == Fetched(EmptyDocument, Max(attempt, maxRetries))
    decreases maxRetries - attempt
  {
    if attempt < maxRetries {
      RetryFromExhausted(o, page, maxRetries, attempt + 1);
    }
  }

  /**
   * When every attempt within the budget fails, the page yields `{}` after
   * `max_retries` requests; with a budget of zero or less, no request is made.
   */
  lemma Exhausted(o: Oracle, page: int, maxRetries: int)
    requires forall j :: 0 <= j < maxRetries ==> IsFailure(o(page, j))
    ensures FetchSpec(o, page, maxRetries) == Fetched(EmptyDocument, Max(0, maxRetries))
  {
    RetryFromExhausted(o, page, maxRetries, 0);
  }

  /**
   * One step of the loop, outcome by outcome: a 429, an undecodable body, a
   * read timeout or any other client error moves on to the next attempt; any
   * other response ends the loop with its decoded body.
   */
  lemma RetryStep(o: Oracle, page: int, maxRetries: int, attempt: nat)
    requires attempt < maxRetries
    ensures o(page, attempt).Responded? && o(page, attempt).status == 429 ==>
              RetryFrom(o, page, maxRetries, attempt) == RetryFrom(o, page, maxRetries, attempt + 1)
    ensures o(page, attempt).Responded? && o(page, attempt).decoded.None? ==>
              RetryFrom(o, page, maxRetries, attempt) == RetryFrom(o, page, maxRetries, attempt + 1)
    ensures o(page, attempt) == ReadTimeout ==>
              RetryFrom(o, page, maxRetries, attempt) == RetryFrom(o, page, maxRetries, attempt + 1)
    ensures o(page, attempt) == TransportError ==>
              RetryFrom(o, page, maxRetries, attempt) == RetryFrom(o, page, maxRetries, attempt + 1)
    ensures forall s, b :: o(page, attempt) == Responded(s, Some(b)) && s != 429 ==>
              RetryFrom(o, page, maxRetries, attempt) == Fetched(b, attempt + 1)
  {
  }

  /** A server error whose body decodes is not retried: the loop only looks at 429. */
  lemma ServerErrorIsKept(o: Oracle, page: int, b: Body)
    requires o(page, 0) == Responded(500, Some(b))
    ensures FetchSpec(o, page, MAX_RETRIES) == Fetched(b, 1)
  {
  }

  /** Two 429 responses and then a decoded body: the body is kept, after exactly three requests. */
  lemma TwoRateLimitsThenSuccess(o: Oracle, page: int, status: int, b: Body)
    requires o(page, 0).Responded? && o(page, 0).status == 429
    requires o(page, 1).Responded? && o(page, 1).status == 429
    requires o(page, 2) == Responded(status, Some(b)) && status != 429
    ensures RetryFrom(o, page, MAX_RETRIES, 0) == Fetched(b, 3)
  {
    assert IsFailure(o(page, 0)) && IsFailure(o(page, 1)) && !IsFailure(o(page, 2));
    RetryFromFirstSuccess(o, page, MAX_RETRIES, 0, 2);
  }

  /** Three timeouts: the page yields `{}`, contributes nothing, after exactly three requests. */
  lemma ThreeTimeouts(o: Oracle, page: int)
    requires forall j :: 0 <= j < 3 ==> o(page, j) == ReadTimeout
    ensures FetchSpec(o, page, MAX_RETRIES) == Fetched(EmptyDocument, 3)
    ensures Contribution(FetchSpec(o, page, MAX_RETRIES).body) == []
  {
    Exhausted(o, page, MAX_RETRIES);
    EmptyDocumentContributesNothing();
  }

  /**
   * `fetch_page_with_retry(page, max_retries)`: loops while `attempt <
   * max_retries`; a 429, a timeout, any other client error or an undecodable
   * body bumps `attempt` and retries; anything else is returned as decoded; an
   * exhausted budget returns `{}`. `made` counts the requests issued.
   */
  method FetchPageWithRetry(o: Oracle, page: int, maxRetries: int) returns (result: Body, made: nat)
    ensures Fetched(result, made) == FetchSpec(o, page, maxRetries)
  {
    var attempt: nat := 0;
    made := 0;
    while attempt < maxRetries
      invariant made == attempt
      invariant RetryFrom(o, page, maxRetries, attempt) == FetchSpec(o, page, maxRetries)
      decreases maxRetries - attempt
    {
      var outcome := o(page, attempt);
      made := made + 1;
      match outcome {
        case Responded(status, decoded) =>
          if status == 429 {
            attempt := attempt + 1;
            continue;
          }
          if decoded.None? {
            // `resp.json()` raised: caught by the generic handler
            attempt := attempt + 1;
          } else {
            return decoded.value, made;
          }
        case ReadTimeout =>
          attempt := attempt + 1;
        case TransportError =>
          attempt := attempt + 1;
      }
    }
    return EmptyDocument, made;
  }
}
