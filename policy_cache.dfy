/**
 * `PolicyCacheService`: one local-storage slot holding a timestamped snapshot
 * of the merged listing, valid for five minutes and refused above 2 MiB.
 *
 * The clock is an explicit `now` argument (milliseconds). JSON encoding is
 * abstracted: a slot holds either the empty string, text that does not parse
 * into a cache record, or a record; `serializedLength` is the length of
 * `JSON.stringify` of a record.
 */
module PolicyCache {
  import opened Wrappers
  import opened Types

  const CACHE_KEY := "restore-vote-policies-cache"
  const CACHE_EXPIRY_MS: int := 5 * 60 * 1000
  const MAX_CACHE_SIZE: int := 2 * 1024 * 1024

  datatype CacheData = CacheData(policies: seq<Policy>, timestamp: int)

  /** What `localStorage.getItem(CACHE_KEY)` may return when it is not `null`. */
  datatype Blob = EmptyText | Unparsable | Stored(data: CacheData)

  /** What `localStorage.setItem` did: stored, threw a quota `DOMException`, or threw anything else. */
  datatype WriteOutcome = Written | QuotaExceeded | OtherWriteError

  /** `isValidCache`: the entry is younger than the expiry window. */
  predicate IsValidCache(data: CacheData, now: int) {
    now - data.timestamp < CACHE_EXPIRY_MS
  }

  class PolicyCacheService {
    const serializedLength: CacheData -> nat
    var slot: Option<Blob>

    constructor(serializedLength: CacheData -> nat)
      ensures this.serializedLength == serializedLength && slot == None
    {
      this.serializedLength := serializedLength;
      slot := None;
    }

    /**
     * `getCachedPolicies`: nothing stored (or an empty string) gives `None`
     * and touches nothing; an unparsable or expired entry is removed and
     * gives `None`; a valid entry gives its policies unchanged.
     */
    method GetCachedPolicies(now: int) returns (r: Option<seq<Policy>>)
      modifies this`slot
      ensures old(slot) == None || old(slot) == Some(EmptyText) ==> r == None && slot == old(slot)
      ensures old(slot) == Some(Unparsable) ==> r == None && slot == None
      ensures old(slot).Some? && old(slot).value.Stored? ==>
                if IsValidCache(old(slot).value.data, now)
                then r == Some(old(slot).value.data.policies) && slot == old(slot)
                else r == None && slot == None
    {
      if slot == None || slot == Some(EmptyText) {
        return None;
      }
      if slot == Some(Unparsable) {
        ClearCache();
        return None;
      }
      var data := slot.value.data;
      if !IsValidCache(data, now) {
        ClearCache();
        return None;
      }
      return Some(data.policies);
    }

    /**
     * `setCachedPolicies`: replaces the entry with `{policies, timestamp: now}`
     * unless its serialised length exceeds the cap; a quota failure removes the
     * entry, any other write failure leaves the slot as it was.
     */
    method SetCachedPolicies(policies: seq<Policy>, now: int, outcome: WriteOutcome)
      modifies this`slot
      ensures var data := CacheData(policies, now);
        if serializedLength(data) > MAX_CACHE_SIZE then slot == old(slot)
        else match outcome
          case Written => slot == Some(Stored(data))
          case QuotaExceeded => slot == None
          case OtherWriteError => slot == old(slot)
    {
      var data := CacheData(policies, now);
      var size := serializedLength(data);
      if size > MAX_CACHE_SIZE {
        return;
      }
      match outcome
      case Written => slot := Some(Stored(data));
      case QuotaExceeded => ClearCache();
      case OtherWriteError =>
    }

    /** `getCacheAge`: the age of a parsable entry; `None` otherwise. Never changes storage. */
    function GetCacheAge(now: int): (age: Option<int>)
      reads this
      ensures age.Some? <==> slot.Some? && slot.value.Stored?
      ensures age.Some? ==> age.value == now - slot.value.data.timestamp
    {
      if slot.Some? && slot.value.Stored? then Some(now - slot.value.data.timestamp) else None
    }

    /** `clearCache`: removes the slot. */
    method ClearCache()
      modifies this`slot
      ensures slot == None
    {
      slot := None;
    }

    /** `isCacheExpired`: no age, or an age of at least the expiry window. */
    function IsCacheExpired(now: int): (expired: bool)
      reads this
      ensures expired <==> GetCacheAge(now).None? || GetCacheAge(now).value >= CACHE_EXPIRY_MS
      ensures slot.Some? && slot.value.Stored? ==> (expired <==> !IsValidCache(slot.value.data, now))
    {
      var age := GetCacheAge(now);
      if age.None? then true else age.value >= CACHE_EXPIRY_MS
    }
  }

  /**
   * Round trip: a write that was accepted is read back unchanged at any time
   * inside the expiry window, and the entry is then reported not expired.
   */
  method SetThenGet(cache: PolicyCacheService, policies: seq<Policy>, t: int, t': int) returns (r: Option<seq<Policy>>)
    requires cache.serializedLength(CacheData(policies, t)) <= MAX_CACHE_SIZE
    requires t' - t < CACHE_EXPIRY_MS
    modifies cache
    ensures r == Some(policies)
    ensures !cache.IsCacheExpired(t')
  {
    cache.SetCachedPolicies(policies, t, Written);
    r := cache.GetCachedPolicies(t');
  }

  /**
   * At exactly the expiry age the entry is expired, a read returns nothing and
   * the slot is cleared; one millisecond earlier it is still served.
   */
  method ExpiryBoundary(cache: PolicyCacheService, policies: seq<Policy>, t: int) returns (before: Option<seq<Policy>>, at: Option<seq<Policy>>)
    requires cache.serializedLength(CacheData(policies, t)) <= MAX_CACHE_SIZE
    modifies cache
    ensures before == Some(policies) && at == None
    ensures cache.slot == None && cache.IsCacheExpired(t + CACHE_EXPIRY_MS)
  {
    cache.SetCachedPolicies(policies, t, Written);
    assert !cache.IsCacheExpired(t + CACHE_EXPIRY_MS - 1);
    assert cache.IsCacheExpired(t + CACHE_EXPIRY_MS);
    before := cache.GetCachedPolicies(t + CACHE_EXPIRY_MS - 1);
    at := cache.GetCachedPolicies(t + CACHE_EXPIRY_MS);
  }

  /** An oversized snapshot is refused and the previous entry survives, even one that is still served. */
  method OversizedWriteKeepsPrevious(cache: PolicyCacheService, kept: seq<Policy>, larger: seq<Policy>, t: int) returns (r: Option<seq<Policy>>)
    requires cache.serializedLength(CacheData(kept, t)) <= MAX_CACHE_SIZE
    requires cache.serializedLength(CacheData(larger, t + 1)) > MAX_CACHE_SIZE
    modifies cache
    ensures r == Some(kept)
  {
    cache.SetCachedPolicies(kept, t, Written);
    cache.SetCachedPolicies(larger, t + 1, Written);
    r := cache.GetCachedPolicies(t + 2);
  }
}
