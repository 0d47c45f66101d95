/**
 * The listing provider: `policies`, `loading` and `error`, and the fetch that
 * every mount and every poll runs. The fetch is split at its `await` into
 * `BeginFetch` and `CompleteFetch`; `FetchPolicies` runs both around the
 * listing fetch.
 */
module ApiProvider {
  import opened Wrappers
  import opened Types
  import opened PolicyApi

  /** Every held policy carries its 1-based position as its rank. */
  predicate RanksAreSequential(ps: seq<Policy>) {
    forall i :: 0 <= i < |ps| ==> ps[i].rank == Some(i + 1)
  }

  /** Whatever the page outcomes are, a successful fetch yields sequentially ranked policies. */
  lemma {:induction false} FetchedListIsRanked(pages: seq<PageOutcome>)
    requires AllPolicies(pages).Ok?
    ensures RanksAreSequential(AllPolicies(pages).value)
    ensures |AllPolicies(pages).value| == |Paginated(POLICIES_ENDPOINT, pages).value|
  {
    var ps := Paginated(POLICIES_ENDPOINT, pages).value;
    assert AllPolicies(pages).value == Ranked(ps);
  }

  class ApiStore {
    var policies: seq<Policy>
    var loading: bool
    var error: Option<string>

    predicate Valid()
      reads this
    {
      RanksAreSequential(policies)
    }

    constructor()
      ensures policies == [] && loading && error == None
      ensures Valid()
    {
      policies := [];
      loading := true;
      error := None;
    }

    /** Before the `await`: loading, with the error cleared and the list kept. */
    method BeginFetch()
      modifies this`loading, this`error
      ensures loading && error == None
    {
      loading := true;
      error := None;
    }

    /** After the `await`: a success replaces the list, a failure records its message; loading ends either way. */
    method CompleteFetch(result: Result<seq<Policy>>)
      modifies this`policies, this`error, this`loading
      ensures result.Ok? ==> policies == result.value && error == old(error)
      ensures result.Err? ==> policies == old(policies) && error == Some(result.error)
      ensures !loading
    {
      match result {
        case Ok(ps) => policies := ps;
        case Err(e) => error := Some(e);
      }
      loading := false;
    }

    /** `fetchPolicies`: one full fetch of the listing. */
    method FetchPolicies(replies: seq<ListingReply>)
      requires Valid()
      modifies this
      ensures Valid() && !loading
      ensures AllPolicies(Outcomes(replies)).Ok? ==> policies == AllPolicies(Outcomes(replies)).value && error == None
      ensures AllPolicies(Outcomes(replies)).Err? ==> policies == old(policies) && error == Some(FETCH_POLICIES_FAILURE)
    {
      BeginFetch();
      var result := FetchAllPolicies(replies);
      if result.Ok? {
        FetchedListIsRanked(Outcomes(replies));
      }
      CompleteFetch(result);
    }
  }

  /** A failed poll keeps the list an earlier poll fetched and reports why. */
  method FailedPollKeepsList(store: ApiStore, good: seq<ListingReply>, bad: seq<ListingReply>)
    requires store.Valid() && AllPolicies(Outcomes(good)).Ok? && AllPolicies(Outcomes(bad)).Err?
    modifies store
    ensures store.policies == AllPolicies(Outcomes(good)).value
    ensures store.error == Some(FETCH_POLICIES_FAILURE) && !store.loading
  {
    store.FetchPolicies(good);
    store.FetchPolicies(bad);
  }
}
