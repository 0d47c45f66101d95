/**
 * The paginated fetch engine of `PolicyApiService`: one page request and its
 * envelope, the batched loop over all pages, the ranking of the merged list,
 * and the user-profile request.
 *
 * Network I/O is abstracted: page `n` of the listing answers with
 * `replies[n - 1]`, and every page beyond `|replies|` answers with a
 * successful, empty envelope (the dataset has an end).
 */
module PolicyApi {
  import opened Wrappers
  import opened Text
  import opened Types

  const API_BASE_URL := "https://api.policyvoter.com/v1"
  const CONSTITUENT_ID := "UNE079UK"
  const POLICIES_ENDPOINT := "/policy/top/list"
  const MAX_CONCURRENT_REQUESTS: nat := 5

  /** What `fetch` produced: a rejected promise, or a response with its status and body. */
  datatype HttpReply<B> = NetworkError(message: string) | Reply(ok: bool, status: nat, body: B)

  /** The `data` member of a listing envelope, as far as `fetchPage` inspects it. */
  datatype ListingData =
    | Missing                                // absent or falsy
    | WithPolicies(policies: seq<Policy>)    // an object whose `policies` member is an array
    | ArrayData(items: seq<Policy>)          // `data` is itself an array
    | OtherData                              // any other truthy value

  /** The parsed body: `response.json()` threw, a falsy value, or an object with a truthy-or-not `success`. */
  datatype ListingBody =
    | UnparsableListing(message: string)
    | FalsyListing
    | Listing(success: bool, data: ListingData)

  type ListingReply = HttpReply<ListingBody>

  function HttpError(status: nat): string {
    "HTTP error! status: " + NatToString(status)
  }

  /**
   * `fetchPage`: a non-OK status, a network failure or an unparsable body is an
   * error; otherwise the policies of a `{success, data: {policies}}` envelope,
   * the array of a `{success, data: [...]}` envelope, and `[]` for anything else.
   */
  function FetchPage(reply: ListingReply): (r: Result<seq<Policy>>)
    ensures r.Err? <==> reply.NetworkError? || !reply.ok || reply.body.UnparsableListing?
    ensures reply.NetworkError? ==> r == Err(reply.message)
    ensures reply.Reply? && !reply.ok ==> r == Err(HttpError(reply.status))
    ensures reply.Reply? && reply.ok && reply.body.Listing? && reply.body.success ==>
              (reply.body.data.WithPolicies? ==> r == Ok(reply.body.data.policies)) &&
              (reply.body.data.ArrayData? ==> r == Ok(reply.body.data.items))
    ensures r.Ok? && r.value != [] ==>
              reply.body.Listing? && reply.body.success &&
              (reply.body.data.WithPolicies? || reply.body.data.ArrayData?)
  {
    match reply
    case NetworkError(message) => Err(message)
    case Reply(ok, status, body) =>
      if !ok then Err(HttpError(status))
      else
        match body
        case UnparsableListing(message) => Err(message)
        case FalsyListing => Ok([])
        case Listing(success, data) =>
          if !success then Ok([])
          else
            match data
            case WithPolicies(policies) => Ok(policies)
            case ArrayData(items) => Ok(items)
            case _ => Ok([])
  }

  /** The reply of a page past the end of the dataset. */
  const EMPTY_PAGE: ListingReply := Reply(true, 200, Listing(true, WithPolicies([])))

  function PageReply(replies: seq<ListingReply>, n: nat): ListingReply {
    if 1 <= n <= |replies| then replies[n - 1] else EMPTY_PAGE
  }

  /** What fetching one page yields: its policies, or the error `fetchPage` throws. */
  type PageOutcome = Result<seq<Policy>>

  /** The outcome of fetching every page of the replies, page 1 first. */
  function Outcomes(replies: seq<ListingReply>): (pages: seq<PageOutcome>)
    ensures |pages| == |replies| && forall i :: 0 <= i < |replies| ==> pages[i] == FetchPage(replies[i])
  {
    seq(|replies|, i requires 0 <= i < |replies| => FetchPage(replies[i]))
  }

  /** The outcome of page `n`; a page past the end is successful and empty. */
  function PageResult(pages: seq<PageOutcome>, n: nat): PageOutcome {
    if 1 <= n <= |pages| then pages[n - 1] else Ok([])
  }

  /** Fetching page `n` of the replies gives that page's outcome. */
  lemma FetchPageOfPage(replies: seq<ListingReply>, n: nat)
    ensures FetchPage(PageReply(replies, n)) == PageResult(Outcomes(replies), n)
  {
  }

  /** A page the loop keeps: fulfilled and non-empty. */
  predicate IsNonEmptyPage(r: Result<seq<Policy>>) {
    r.Ok? && |r.value| > 0
  }

  /** The `filter(...).map(result => result.value)` over one settled batch, in request order. */
  function ValidPages(rs: seq<Result<seq<Policy>>>): (vs: seq<seq<Policy>>)
    ensures |vs| <= |rs|
    ensures forall k :: 0 <= k < |vs| ==> |vs[k]| > 0
  {
    if rs == [] then []
    else (if IsNonEmptyPage(rs[0]) then [rs[0].value] else []) + ValidPages(rs[1..])
  }

  function Flatten(ss: seq<seq<Policy>>): seq<Policy> {
    if ss == [] then [] else ss[0] + Flatten(ss[1..])
  }

  /** The outcomes of pages `start .. start + 4`, as one batch requests them. */
  function Batch(pages: seq<PageOutcome>, start: nat): (b: seq<Result<seq<Policy>>>)
    ensures |b| == MAX_CONCURRENT_REQUESTS
  {
    seq(MAX_CONCURRENT_REQUESTS, i requires 0 <= i < MAX_CONCURRENT_REQUESTS => PageResult(pages, start + i))
  }

  /** The non-empty pages among `lo .. hi - 1`, in page order. */
  function NonEmptyPagesIn(pages: seq<PageOutcome>, lo: nat, hi: nat): (v: seq<seq<Policy>>)
    ensures lo <= hi ==> |v| <= hi - lo
    decreases hi - lo
  {
    if lo >= hi then []
    else (if IsNonEmptyPage(PageResult(pages, lo)) then [PageResult(pages, lo).value] else [])
         + NonEmptyPagesIn(pages, lo + 1, hi)
  }

  /** An empty or rejected page among `lo .. hi - 1` leaves fewer non-empty pages than pages. */
  lemma {:induction false} EmptyPageShortensRange(pages: seq<PageOutcome>, lo: nat, hi: nat, k: nat)
    requires lo <= k < hi && !IsNonEmptyPage(PageResult(pages, k))
    ensures |NonEmptyPagesIn(pages, lo, hi)| < hi - lo
    decreases hi - lo
  {
    if lo < k {
      EmptyPageShortensRange(pages, lo + 1, hi, k);
    }
  }

  /** A batch that keeps all five pages has only non-empty pages. */
  lemma FullBatchAllNonEmpty(pages: seq<PageOutcome>, start: nat)
    requires |NonEmptyPagesIn(pages, start, start + MAX_CONCURRENT_REQUESTS)| == MAX_CONCURRENT_REQUESTS
    ensures forall n :: start <= n < start + MAX_CONCURRENT_REQUESTS ==> IsNonEmptyPage(PageResult(pages, n))
  {
    forall n | start <= n < start + MAX_CONCURRENT_REQUESTS
      ensures IsNonEmptyPage(PageResult(pages, n))
    {
      if !IsNonEmptyPage(PageResult(pages, n)) {
        EmptyPageShortensRange(pages, start, start + MAX_CONCURRENT_REQUESTS, n);
      }
    }
  }

  /** A full batch lies entirely inside the pages, so the loop ends. */
  lemma FullBatchInRange(pages: seq<PageOutcome>, start: nat)
    requires |NonEmptyPagesIn(pages, start, start + MAX_CONCURRENT_REQUESTS)| == MAX_CONCURRENT_REQUESTS
    ensures 1 <= start && start + 4 <= |pages|
  {
    FullBatchAllNonEmpty(pages, start);
    assert IsNonEmptyPage(PageResult(pages, start));
    assert IsNonEmptyPage(PageResult(pages, start + 4));
  }

  /**
   * The pages the loop appends from batch `start` on: each batch contributes
   * its non-empty pages in page order; a batch with fewer than five of them is
   * the last one requested.
   */
  function Collect(pages: seq<PageOutcome>, start: nat): seq<Policy>
    decreases |pages| + 5 - start
  {
    var valid := NonEmptyPagesIn(pages, start, start + MAX_CONCURRENT_REQUESTS);
    if |valid| < MAX_CONCURRENT_REQUESTS then Flatten(valid)
    else
      FullBatchInRange(pages, start);
      Flatten(valid) + Collect(pages, start + MAX_CONCURRENT_REQUESTS)
  }

  function PaginatedFailure(endpoint: string): string {
    "Failed to fetch data from " + endpoint + ". Please try again later."
  }

  /**
   * The value `fetchAllPaginated` resolves to: page 1 failing is the only
   * error; an empty page 1 is an empty listing; otherwise page 1 followed by
   * what the batches collect from page 2 on.
   */
  function Paginated(endpoint: string, pages: seq<PageOutcome>): (r: Result<seq<Policy>>)
    ensures r.Err? <==> PageResult(pages, 1).Err?
    ensures r.Err? ==> r.error == PaginatedFailure(endpoint)
    ensures PageResult(pages, 1) == Ok([]) ==> r == Ok([])
    ensures IsNonEmptyPage(PageResult(pages, 1)) ==>
              r.Ok? && |PageResult(pages, 1).value| <= |r.value| &&
              r.value[..|PageResult(pages, 1).value|] == PageResult(pages, 1).value
  {
    var first := PageResult(pages, 1);
    if first.Err? then Err(PaginatedFailure(endpoint))
    else if |first.value| == 0 then Ok([])
    else Ok(first.value + Collect(pages, 2))
  }

  lemma {:induction false} FlattenAppend(a: seq<seq<Policy>>, b: seq<seq<Policy>>)
    ensures Flatten(a + b) == Flatten(a) + Flatten(b)
  {
    if a == [] {
      assert a + b == b;
    } else {
      assert (a + b)[1..] == a[1..] + b;
      FlattenAppend(a[1..], b);
    }
  }

  /** The `for` loop of one iteration: request pages `currentPage .. currentPage + 4` in order. */
  method RequestBatch(replies: seq<ListingReply>, currentPage: nat) returns (promises: seq<PageOutcome>)
    ensures promises == Batch(Outcomes(replies), currentPage)
  {
    ghost var pages := Outcomes(replies);
    promises := [];
    for i := 0 to MAX_CONCURRENT_REQUESTS
      invariant promises == Batch(pages, currentPage)[..i]
    {
      assert Batch(pages, currentPage)[..i + 1] == Batch(pages, currentPage)[..i] + [PageResult(pages, currentPage + i)];
      FetchPageOfPage(replies, currentPage + i);
      promises := promises + [FetchPage(PageReply(replies, currentPage + i))];
    }
  }

  /** The `forEach` of one iteration: push every valid page's items, in order. */
  method AppendPages(items: seq<Policy>, validResults: seq<seq<Policy>>) returns (allItems: seq<Policy>)
    ensures allItems == items + Flatten(validResults)
  {
    allItems := items;
    for k := 0 to |validResults|
      invariant allItems == items + Flatten(validResults[..k])
    {
      assert validResults[..k + 1] == validResults[..k] + [validResults[k]];
      FlattenAppend(validResults[..k], [validResults[k]]);
      assert Flatten([validResults[k]]) == validResults[k] + Flatten([]);
      allItems := allItems + validResults[k];
    }
    assert validResults[..|validResults|] == validResults;
  }

  /** `fetchAllPaginated`: page 1 alone, then batches of five until a batch is short. */
  method FetchAllPaginated(endpoint: string, replies: seq<ListingReply>) returns (r: Result<seq<Policy>>)
    ensures r == Paginated(endpoint, Outcomes(replies))
  {
    ghost var pages := Outcomes(replies);
    var firstPage := FetchPage(PageReply(replies, 1));
    FetchPageOfPage(replies, 1);
    if firstPage.Err? {
      return Err(PaginatedFailure(endpoint));
    }
    if |firstPage.value| == 0 {
      return Ok([]);
    }
    var allItems := firstPage.value;
    var currentPage: nat := 2;
    while true
      invariant allItems + Collect(pages, currentPage) == firstPage.value + Collect(pages, 2)
      decreases |replies| + 5 - currentPage
    {
      var promises := RequestBatch(replies, currentPage);
      var validResults := ValidPages(promises);
      BatchKeepsNonEmpty(pages, currentPage);
      if |validResults| == 0 {
        assert Collect(pages, currentPage) == Flatten([]) == [];
        assert allItems == allItems + Collect(pages, currentPage);
        break;
      }
      allItems := AppendPages(allItems, validResults);
      if |validResults| < MAX_CONCURRENT_REQUESTS {
        assert Collect(pages, currentPage) == Flatten(validResults);
        break;
      }
      FullBatchInRange(pages, currentPage);
      currentPage := currentPage + MAX_CONCURRENT_REQUESTS;
    }
    assert allItems == firstPage.value + Collect(pages, 2);
    return Ok(allItems);
  }

  // ---------------------------------------------------------------------
  // What the batches collect, characterised page by page.

  /** The first page number after the last batch that the loop requests when it starts at `start`. */
  function StopPage(pages: seq<PageOutcome>, start: nat): nat
    decreases |pages| + 5 - start
  {
    if |NonEmptyPagesIn(pages, start, start + MAX_CONCURRENT_REQUESTS)| < MAX_CONCURRENT_REQUESTS then start + MAX_CONCURRENT_REQUESTS
    else
      FullBatchInRange(pages, start);
      StopPage(pages, start + MAX_CONCURRENT_REQUESTS)
  }

  lemma {:induction false} ValidPagesOfRange(pages: seq<PageOutcome>, lo: nat, n: nat)
    ensures ValidPages(seq(n, i requires 0 <= i < n => PageResult(pages, lo + i))) == NonEmptyPagesIn(pages, lo, lo + n)
    decreases n
  {
    var rs := seq(n, i requires 0 <= i < n => PageResult(pages, lo + i));
    if n > 0 {
      var tail := seq(n - 1, i requires 0 <= i < n - 1 => PageResult(pages, lo + 1 + i));
      assert rs[1..] == tail;
      ValidPagesOfRange(pages, lo + 1, n - 1);
    }
  }

  /** One settled batch keeps exactly the non-empty pages of its five, in page order. */
  lemma BatchKeepsNonEmpty(pages: seq<PageOutcome>, start: nat)
    ensures ValidPages(Batch(pages, start)) == NonEmptyPagesIn(pages, start, start + MAX_CONCURRENT_REQUESTS)
  {
    ValidPagesOfRange(pages, start, MAX_CONCURRENT_REQUESTS);
    assert Batch(pages, start) == seq(MAX_CONCURRENT_REQUESTS, i requires 0 <= i < MAX_CONCURRENT_REQUESTS => PageResult(pages, start + i));
  }

  lemma {:induction false} NonEmptyPagesSplit(pages: seq<PageOutcome>, lo: nat, mid: nat, hi: nat)
    requires lo <= mid <= hi
    ensures NonEmptyPagesIn(pages, lo, hi) == NonEmptyPagesIn(pages, lo, mid) + NonEmptyPagesIn(pages, mid, hi)
    decreases mid - lo
  {
    if lo < mid {
      NonEmptyPagesSplit(pages, lo + 1, mid, hi);
    }
  }

  /** From batch `start` on, the loop requests whole batches of five, at least one. */
  lemma {:induction false} StopPageWholeBatches(pages: seq<PageOutcome>, start: nat)
    ensures start + MAX_CONCURRENT_REQUESTS <= StopPage(pages, start)
    ensures (StopPage(pages, start) - start) % MAX_CONCURRENT_REQUESTS == 0
    decreases |pages| + 5 - start
  {
    var next := start + MAX_CONCURRENT_REQUESTS;
    if |NonEmptyPagesIn(pages, start, next)| == MAX_CONCURRENT_REQUESTS {
      FullBatchInRange(pages, start);
      StopPageWholeBatches(pages, next);
      assert StopPage(pages, start) == StopPage(pages, next);
    }
  }

  /** The last batch the loop requests has fewer than five non-empty pages. */
  lemma {:induction false} StopPageEndsShortBatch(pages: seq<PageOutcome>, start: nat)
    ensures start + MAX_CONCURRENT_REQUESTS <= StopPage(pages, start)
    ensures |NonEmptyPagesIn(pages, StopPage(pages, start) - MAX_CONCURRENT_REQUESTS, StopPage(pages, start))| < MAX_CONCURRENT_REQUESTS
    decreases |pages| + 5 - start
  {
    var next := start + MAX_CONCURRENT_REQUESTS;
    if |NonEmptyPagesIn(pages, start, next)| == MAX_CONCURRENT_REQUESTS {
      FullBatchInRange(pages, start);
      StopPageEndsShortBatch(pages, next);
      assert StopPage(pages, start) == StopPage(pages, next);
    }
  }

  /** Every page before the last batch the loop requests is non-empty. */
  lemma {:induction false} StopPageAfterFullBatches(pages: seq<PageOutcome>, start: nat)
    ensures forall n :: start <= n < StopPage(pages, start) - MAX_CONCURRENT_REQUESTS ==> IsNonEmptyPage(PageResult(pages, n))
    decreases |pages| + 5 - start
  {
    var next := start + MAX_CONCURRENT_REQUESTS;
    if |NonEmptyPagesIn(pages, start, next)| == MAX_CONCURRENT_REQUESTS {
      FullBatchInRange(pages, start);
      FullBatchAllNonEmpty(pages, start);
      StopPageAfterFullBatches(pages, next);
      assert StopPage(pages, start) == StopPage(pages, next);
    }
  }

  /**
   * What the batches collect is exactly the non-empty pages up to `StopPage`,
   * in page order: rejected and empty pages are skipped.
   */
  lemma {:induction false} CollectCharacterised(pages: seq<PageOutcome>, start: nat)
    ensures Collect(pages, start) == Flatten(NonEmptyPagesIn(pages, start, StopPage(pages, start)))
    decreases |pages| + 5 - start
  {
    var next := start + MAX_CONCURRENT_REQUESTS;
    if |NonEmptyPagesIn(pages, start, next)| == MAX_CONCURRENT_REQUESTS {
      FullBatchInRange(pages, start);
      CollectCharacterised(pages, next);
      StopPageEndsShortBatch(pages, next);
      var stop := StopPage(pages, next);
      assert StopPage(pages, start) == stop;
      NonEmptyPagesSplit(pages, start, next, stop);
      FlattenAppend(NonEmptyPagesIn(pages, start, next), NonEmptyPagesIn(pages, next, stop));
    }
  }

  /** The policies of page `n`, or none when the page failed. */
  function PageItems(pages: seq<PageOutcome>, n: nat): seq<Policy> {
    var r := PageResult(pages, n);
    if r.Ok? then r.value else []
  }

  /** The policies of pages `lo .. hi - 1`, page by page. */
  function PagesContents(pages: seq<PageOutcome>, lo: nat, hi: nat): seq<seq<Policy>>
    decreases hi - lo
  {
    if lo >= hi then [] else [PageItems(pages, lo)] + PagesContents(pages, lo + 1, hi)
  }

  lemma {:induction false} AllNonEmpty(pages: seq<PageOutcome>, lo: nat, hi: nat)
    requires forall n :: lo <= n < hi ==> IsNonEmptyPage(PageResult(pages, n))
    ensures NonEmptyPagesIn(pages, lo, hi) == PagesContents(pages, lo, hi)
    decreases hi - lo
  {
    if lo < hi {
      AllNonEmpty(pages, lo + 1, hi);
    }
  }

  lemma {:induction false} NoneNonEmpty(pages: seq<PageOutcome>, lo: nat, hi: nat)
    requires forall n :: lo <= n < hi ==> !IsNonEmptyPage(PageResult(pages, n))
    ensures NonEmptyPagesIn(pages, lo, hi) == []
    decreases hi - lo
  {
    if lo < hi {
      NoneNonEmpty(pages, lo + 1, hi);
    }
  }

  /**
   * When pages 1..n are all non-empty and every later page is empty or
   * rejected, `fetchAllPaginated` returns exactly their concatenation.
   */
  lemma ContiguousPagesFetchedExactly(pages: seq<PageOutcome>, n: nat)
    requires n >= 1
    requires forall k :: 1 <= k <= n ==> IsNonEmptyPage(PageResult(pages, k))
    requires forall k :: n < k <= |pages| ==> !IsNonEmptyPage(PageResult(pages, k))
    ensures forall endpoint :: Paginated(endpoint, pages) == Ok(Flatten(PagesContents(pages, 1, n + 1)))
  {
    CollectCharacterised(pages, 2);
    StopPageWholeBatches(pages, 2);
    StopPageEndsShortBatch(pages, 2);
    StopPageAfterFullBatches(pages, 2);
    var stop := StopPage(pages, 2);
    forall k | n < k
      ensures !IsNonEmptyPage(PageResult(pages, k))
    {
      if k > |pages| {
        assert PageResult(pages, k) == Ok([]);
      }
    }
    // The last batch is short, so it cannot lie inside pages 2..n.
    var short := ShortRangeHasEmptyPage(pages, stop - MAX_CONCURRENT_REQUESTS, stop);
    assert stop > n;
    // Page n + 1 is empty, so it is not before the last batch.
    assert !IsNonEmptyPage(PageResult(pages, n + 1));
    NonEmptyPagesSplit(pages, 1, n + 1, stop);
    NonEmptyPagesSplit(pages, 1, 2, stop);
    AllNonEmpty(pages, 1, n + 1);
    NoneNonEmpty(pages, n + 1, stop);
    var first := PageResult(pages, 1).value;
    assert NonEmptyPagesIn(pages, 1, stop) == PagesContents(pages, 1, n + 1) + [];
    assert PagesContents(pages, 1, n + 1) + [] == PagesContents(pages, 1, n + 1);
    assert NonEmptyPagesIn(pages, 1, 2) == [first];
    FlattenAppend([first], NonEmptyPagesIn(pages, 2, stop));
    calc {
      Flatten(PagesContents(pages, 1, n + 1));
      Flatten(NonEmptyPagesIn(pages, 1, stop));
      Flatten([first] + NonEmptyPagesIn(pages, 2, stop));
      Flatten([first]) + Flatten(NonEmptyPagesIn(pages, 2, stop));
      { assert Flatten([first]) == first + Flatten([]); }
      first + Collect(pages, 2);
    }
  }

  /** A range with fewer non-empty pages than pages holds an empty or rejected page. */
  lemma {:induction false} ShortRangeHasEmptyPage(pages: seq<PageOutcome>, lo: nat, hi: nat) returns (k: nat)
    requires |NonEmptyPagesIn(pages, lo, hi)| < hi - lo
    ensures lo <= k < hi && !IsNonEmptyPage(PageResult(pages, k))
    decreases hi - lo
  {
    if IsNonEmptyPage(PageResult(pages, lo)) {
      k := ShortRangeHasEmptyPage(pages, lo + 1, hi);
    } else {
      k := lo;
    }
  }


  /** A reply carrying `policies` in the listing envelope: how a server answers one page. */
  function ServePage(policies: seq<Policy>): ListingReply {
    Reply(true, 200, Listing(true, WithPolicies(policies)))
  }

  /**
   * A failed page inside a batch does not end the listing, and it does not
   * keep the listing whole either: with page 3 rejected, pages 4..6 are still
   * appended, and page 7, although non-empty, is never requested.
   */
  lemma TransientFailureSkipsAndTruncates(pages: seq<PageOutcome>)
    requires |pages| == 7
    requires forall k :: 1 <= k <= 7 && k != 3 ==> IsNonEmptyPage(PageResult(pages, k))
    requires PageResult(pages, 3).Err?
    ensures forall endpoint :: (Paginated(endpoint, pages) ==
      Ok(PageItems(pages, 1) + PageItems(pages, 2) + PageItems(pages, 4) + PageItems(pages, 5) + PageItems(pages, 6)))
  {
    var v := NonEmptyPagesIn(pages, 2, 7);
    assert v == [PageItems(pages, 2), PageItems(pages, 4), PageItems(pages, 5), PageItems(pages, 6)];
    assert Collect(pages, 2) == Flatten(v);
    assert Flatten(v) == PageItems(pages, 2) + PageItems(pages, 4) + PageItems(pages, 5) + PageItems(pages, 6) by {
      assert Flatten(v[3..]) == PageItems(pages, 6) + Flatten([]);
      assert Flatten(v[2..]) == PageItems(pages, 5) + Flatten(v[3..]);
      assert Flatten(v[1..]) == PageItems(pages, 4) + Flatten(v[2..]);
    }
    assert PageResult(pages, 1).value == PageItems(pages, 1);
    var expected := PageItems(pages, 1) + PageItems(pages, 2) + PageItems(pages, 4) + PageItems(pages, 5) + PageItems(pages, 6);
    assert PageItems(pages, 1) + Collect(pages, 2) == expected;
    forall endpoint
      ensures Paginated(endpoint, pages) == Ok(expected)
    {
      assert IsNonEmptyPage(PageResult(pages, 1));
    }
  }

  // ---------------------------------------------------------------------
  // fetchAllPolicies

  const FETCH_POLICIES_FAILURE := "Failed to fetch policies. Please try again later."

  /** The listing with `rank` set to the 1-based position; nothing else changes. */
  function Ranked(ps: seq<Policy>): (r: seq<Policy>)
    ensures |r| == |ps|
    ensures forall i :: 0 <= i < |r| ==> r[i].rank == Some(i + 1) && r[i].(rank := ps[i].rank) == ps[i]
  {
    seq(|ps|, i requires 0 <= i < |ps| => ps[i].(rank := Some(i + 1)))
  }

  /** What `fetchAllPolicies` resolves to: the whole listing, ranked; its own message on failure. */
  function AllPolicies(pages: seq<PageOutcome>): (r: Result<seq<Policy>>)
    ensures r.Err? <==> PageResult(pages, 1).Err?
    ensures r.Err? ==> r.error == FETCH_POLICIES_FAILURE
    ensures r.Ok? ==> r.value == Ranked(Paginated(POLICIES_ENDPOINT, pages).value)
  {
    match Paginated(POLICIES_ENDPOINT, pages)
    case Ok(policies) => Ok(Ranked(policies))
    case Err(_) => Err(FETCH_POLICIES_FAILURE)
  }

  /** `fetchAllPolicies`: the paginated listing of the policies endpoint, ranked. */
  method FetchAllPolicies(replies: seq<ListingReply>) returns (r: Result<seq<Policy>>)
    ensures r == AllPolicies(Outcomes(replies))
  {
    var policies := FetchAllPaginated(POLICIES_ENDPOINT, replies);
    if policies.Err? {
      return Err(FETCH_POLICIES_FAILURE);
    }
    return Ok(Ranked(policies.value));
  }

  lemma {:induction false} ContentsTotal(pages: seq<PageOutcome>, lo: nat, hi: nat, m: nat)
    requires lo <= hi
    requires forall k :: lo <= k < hi ==> |PageItems(pages, k)| == m
    ensures |Flatten(PagesContents(pages, lo, hi))| == (hi - lo) * m
    decreases hi - lo
  {
    if lo < hi {
      ContentsTotal(pages, lo + 1, hi, m);
      var rest := PagesContents(pages, lo + 1, hi);
      assert PagesContents(pages, lo, hi) == [PageItems(pages, lo)] + rest;
      assert ([PageItems(pages, lo)] + rest)[1..] == rest;
    }
  }

  /** Six full pages of five and an empty seventh give 30 policies ranked 1 to 30 in fetch order. */
  lemma SixFullPagesGiveThirtyRanked(pages: seq<PageOutcome>)
    requires |pages| == 7
    requires forall k :: 1 <= k <= 6 ==> PageResult(pages, k).Ok? && |PageResult(pages, k).value| == 5
    requires PageResult(pages, 7) == Ok([])
    ensures AllPolicies(pages).Ok?
    ensures |AllPolicies(pages).value| == 30
    ensures forall i :: 0 <= i < 30 ==> AllPolicies(pages).value[i].rank == Some(i + 1)
  {
    ContiguousPagesFetchedExactly(pages, 6);
    ContentsTotal(pages, 1, 7, 5);
  }

  // ---------------------------------------------------------------------
  // fetchUserProfile

  /** The parsed profile body: unparsable, JSON `null`, or an object with `success` and `data`. */
  datatype ProfileBody =
    | UnparsableProfile
    | NullProfile
    | ProfileObject(success: bool, data: Option<UserData>, whole: UserData)

  type ProfileReply = HttpReply<ProfileBody>

  /** The profile endpoint, answering a request that carries a wallet address and a signature. */
  type ProfileApi = (string, string) -> ProfileReply

  const PROFILE_FAILURE := "Failed to fetch user profile from PolicyVoter API"

  /**
   * `fetchUserProfile`: sends the address and signature headers; `data` of a
   * successful envelope, otherwise the whole payload (`None` for JSON `null`);
   * every failure becomes one message.
   */
  function FetchUserProfile(walletAddress: string, signature: string, api: ProfileApi): (r: Result<Option<UserData>>)
    ensures var reply := api(walletAddress, signature);
      && (r.Err? <==> reply.NetworkError? || !reply.ok || reply.body.UnparsableProfile?)
      && (r.Err? ==> r.error == PROFILE_FAILURE)
      && (r.Ok? && reply.body.ProfileObject? ==>
            r.value == Some(if reply.body.success && reply.body.data.Some? then reply.body.data.value else reply.body.whole))
      && (r.Ok? && reply.body.NullProfile? ==> r.value == None)
  {
    match api(walletAddress, signature)
    case NetworkError(_) => Err(PROFILE_FAILURE)
    case Reply(ok, _, body) =>
      if !ok then Err(PROFILE_FAILURE)
      else
        match body
        case UnparsableProfile => Err(PROFILE_FAILURE)
        case NullProfile => Ok(None)
        case ProfileObject(success, data, whole) =>
          if success && data.Some? then Ok(Some(data.value)) else Ok(Some(whole))
  }
}
