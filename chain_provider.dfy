/**
 * The chain provider's session and vote-status store: the wallet state, the
 * user profile, the per-policy vote-status cache with its version counter,
 * the set of checks in flight and the stored encoded mnemonic.
 *
 * React state becomes fields, updated in the order the callbacks set them.
 * `checkUserVote` is split into the step before its `await` (`BeginCheck`)
 * and the step after it (`CompleteCheck`); `CheckUserVote` runs both with no
 * other step in between. The stored mnemonic stands for the local-storage
 * key "restore-vote-mnemonic"; `storageWritable` says whether writing it
 * succeeds.
 */
module ChainProvider {
  import opened Wrappers
  import opened Types
  import opened MnemonicCodec
  import opened ChainApi
  import opened PolicyApi
  import opened Analytics

  const MNEMONIC_STORAGE_KEY := "restore-vote-mnemonic"
  const AUTH_FAILED_RETRY := "Failed to authenticate with PolicyVoter. Please try again."
  const AUTH_FAILED := "Failed to authenticate with PolicyVoter"

  const DISCONNECTED := WalletState(false, None, false, None)

  /** The members of the context value the provider hands to its consumers. */
  const CONTEXT_MEMBERS: set<string> :=
    {"walletState", "userProfile", "login", "logout", "checkUserVote", "getVoteStatus", "isCheckingVote",
     "voteStatusCacheVersion"}

  /** The disconnected state `login` ends in after `message`. */
  function Failed(message: string): (w: WalletState)
    ensures !w.isConnected && w.address.None? && !w.isLoading && w.error == Some(message)
  {
    WalletState(false, None, false, Some(message))
  }

  /** What signing the welcome message and fetching the profile yield for a freshly derived account. */
  function ProfileFor(account: Account, signer: (Account, string) -> Option<string>, api: ProfileApi): (r: Result<Option<UserData>>)
    ensures signer(account, AuthMessage(account.address)).None? ==> r == Err(SIGN_FAILED)
    ensures signer(account, AuthMessage(account.address)).Some? ==>
      r == FetchUserProfile(account.address, signer(account, AuthMessage(account.address)).value, api)
  {
    match signer(account, AuthMessage(account.address))
    case None => Err(SIGN_FAILED)
    case Some(sig) => FetchUserProfile(account.address, sig, api)
  }

  class ChainStore {
    const chain: ChainApiService
    const analytics: AnalyticsService
    var walletState: WalletState
    var userProfile: Option<UserProfile>
    var voteStatusCache: map<string, bool>
    var voteStatusCacheVersion: nat
    var checkingVotes: set<string>
    var storedMnemonic: Option<string>

    /**
     * An address is shown exactly when connected, and a connected session's
     * address is the gateway's account.
     */
    predicate Valid()
      reads this, chain
    {
      chain.Valid() &&
      (walletState.isConnected <==> walletState.address.Some?) &&
      (walletState.isConnected ==> chain.account == Some(Account(walletState.address.value)))
    }

    constructor(chain: ChainApiService, analytics: AnalyticsService, storedMnemonic: Option<string>)
      requires chain.Valid()
      ensures this.chain == chain && this.analytics == analytics && this.storedMnemonic == storedMnemonic
      ensures walletState == DISCONNECTED && userProfile == None
      ensures voteStatusCache == map[] && voteStatusCacheVersion == 0 && checkingVotes == {}
      ensures Valid()
    {
      this.chain := chain;
      this.analytics := analytics;
      this.storedMnemonic := storedMnemonic;
      walletState := DISCONNECTED;
      userProfile := None;
      voteStatusCache := map[];
      voteStatusCacheVersion := 0;
      checkingVotes := {};
    }

    /** Whether `checkUserVote(policyId)` would start a check now. */
    predicate CanCheck(policyId: string)
      reads this
    {
      walletState.isConnected && Truthy(walletState.address) && policyId !in checkingVotes
    }

    /** The part of `checkUserVote` before its `await`: the guard, then joining the in-flight set. */
    method BeginCheck(policyId: string) returns (started: bool)
      modifies this`checkingVotes
      ensures started == old(CanCheck(policyId))
      ensures checkingVotes == if started then old(checkingVotes) + {policyId} else old(checkingVotes)
    {
      if !CanCheck(policyId) {
        return false;
      }
      checkingVotes := checkingVotes + {policyId};
      started := true;
    }

    /**
     * The part of `checkUserVote` after its `await`: a success records the
     * answer and bumps the version by one, a failure records nothing, and the
     * policy leaves the in-flight set either way.
     */
    method CompleteCheck(policyId: string, outcome: Result<bool>)
      modifies this`voteStatusCache, this`voteStatusCacheVersion, this`checkingVotes
      ensures outcome.Ok? ==>
        voteStatusCache == old(voteStatusCache)[policyId := outcome.value] &&
        voteStatusCacheVersion == old(voteStatusCacheVersion) + 1
      ensures outcome.Err? ==>
        voteStatusCache == old(voteStatusCache) && voteStatusCacheVersion == old(voteStatusCacheVersion)
      ensures checkingVotes == old(checkingVotes) - {policyId}
    {
      if outcome.Ok? {
        voteStatusCache := voteStatusCache[policyId := outcome.value];
        voteStatusCacheVersion := voteStatusCacheVersion + 1;
      }
      checkingVotes := checkingVotes - {policyId};
    }

    /**
     * `checkUserVote` with nothing interleaved: a started check asks the
     * gateway for the connected address, caches its answer, bumps the
     * version and leaves the in-flight set as it found it.
     */
    method CheckUserVote(policyId: string, env: RpcEnv)
      modifies this`voteStatusCache, this`voteStatusCacheVersion, this`checkingVotes, chain`rpcLog
      ensures !old(CanCheck(policyId)) ==>
        voteStatusCache == old(voteStatusCache) && voteStatusCacheVersion == old(voteStatusCacheVersion) &&
        checkingVotes == old(checkingVotes) && chain.rpcLog == old(chain.rpcLog)
      ensures old(CanCheck(policyId)) ==>
        var params := [AbiParam("user", "address", walletState.address.value), AbiParam("policyId", "string", policyId)];
        var voted := chain.encodeParams(params).Ok? && env.call.Ok? && DecodeVoted(env.call.value);
        voteStatusCache == old(voteStatusCache)[policyId := voted] &&
        voteStatusCacheVersion == old(voteStatusCacheVersion) + 1 &&
        checkingVotes == old(checkingVotes) &&
        chain.rpcLog == old(chain.rpcLog) +
          if chain.encodeParams(params).Ok?
          then [ContractCall(chain.contractAddress, Calldata(HAS_USER_VOTED_FUNCTION, chain.encodeParams(params).value))]
          else []
    {
      var started := BeginCheck(policyId);
      if !started {
        return;
      }
      var voted := chain.HasUserVoted(walletState.address.value, policyId, env);
      CompleteCheck(policyId, Ok(voted));
    }

    /** `getVoteStatus`: the cached answer, `None` for a policy never checked. */
    function GetVoteStatus(policyId: string): (status: Option<bool>)
      reads this
      ensures status.Some? <==> policyId in voteStatusCache
      ensures status.Some? ==> status.value == voteStatusCache[policyId]
    {
      if policyId in voteStatusCache then Some(voteStatusCache[policyId]) else None
    }

    /** `isCheckingVote`: membership of the in-flight set. */
    function IsCheckingVote(policyId: string): (checking: bool)
      reads this
      ensures checking <==> policyId in checkingVotes
    {
      policyId in checkingVotes
    }

    /**
     * What `login(mnemonic)` leaves behind, relative to the state it started
     * in. A rejected mnemonic ends disconnected with "Invalid mnemonic
     * phrase" and nothing else changed. Otherwise the encoded mnemonic is
     * stored (a failing `btoa` or storage write is ignored) and the session
     * connects only once the welcome message is signed and the profile
     * fetched; the user is identified when the username is truthy. A failure
     * there disconnects the gateway. A JSON `null` profile connects, records
     * the profile, and then fails on reading its username, ending
     * disconnected with that profile still recorded.
     */
    twostate predicate LoginOutcome(mnemonic: string, derive: string -> Option<Account>, storageWritable: bool,
                                    signer: (Account, string) -> Option<string>, profileApi: ProfileApi)
      reads this, chain, analytics
    {
      match derive(mnemonic)
      case None =>
        walletState == Failed(INVALID_MNEMONIC) && userProfile == old(userProfile) &&
        storedMnemonic == old(storedMnemonic) && chain.account == old(chain.account) &&
        analytics.identified == old(analytics.identified)
      case Some(acct) =>
        var profile := ProfileFor(acct, signer, profileApi);
        storedMnemonic == (if storageWritable && EncodeMnemonic(mnemonic).Ok?
                           then Some(EncodeMnemonic(mnemonic).value) else old(storedMnemonic)) &&
        if profile.Ok? && profile.value.Some? then
          walletState == WalletState(true, Some(acct.address), false, None) &&
          userProfile == Some(UserProfile(acct.address, profile.value)) &&
          chain.account == Some(acct) &&
          analytics.identified == old(analytics.identified) +
            if Truthy(profile.value.value.username) && analytics.initialized
            then [Identity(profile.value.value.username.value, profile.value.value.username.value, acct.address)]
            else []
        else
          walletState == Failed(AUTH_FAILED) && chain.account == None &&
          userProfile == (if profile.Ok? then Some(UserProfile(acct.address, None)) else old(userProfile)) &&
          analytics.identified == old(analytics.identified)
    }

    /** The first step of `login`: loading starts and the error is cleared; connection and address are kept. */
    method BeginLogin()
      modifies this`walletState
      ensures walletState == WalletState(old(walletState).isConnected, old(walletState).address, true, None)
      ensures old(Valid()) ==> Valid()
    {
      walletState := walletState.(isLoading := true, error := None);
    }

    /**
     * `login`: `BeginLogin`, then deriving the wallet, storing the encoded
     * mnemonic and authenticating, with the outcome `LoginOutcome` states.
     * The message set in the inner handler is replaced by the outer one.
     */
    method Login(mnemonic: string, derive: string -> Option<Account>, storageWritable: bool,
                 signer: (Account, string) -> Option<string>, profileApi: ProfileApi)
      requires Valid()
      modifies this`walletState, this`userProfile, this`storedMnemonic,
               chain`account, chain`walletClient, analytics`identified
      ensures Valid()
      ensures LoginOutcome(mnemonic, derive, storageWritable, signer, profileApi)
    {
      BeginLogin();
      var generated := chain.GenerateWalletFromMnemonic(mnemonic, derive);
      if generated.Err? {
        walletState := Failed(generated.error);
        return;
      }
      var address := generated.value;
      var encoded := EncodeMnemonic(mnemonic);
      if encoded.Ok? && storageWritable {
        storedMnemonic := Some(encoded.value);
      }
      Authenticate(derive(mnemonic).value, signer, profileApi);
    }

    /**
     * The part of `login` after the wallet is derived: sign the welcome
     * message, fetch the profile, and either connect the session or
     * disconnect the gateway and report the failure.
     */
    method Authenticate(acct: Account, signer: (Account, string) -> Option<string>, profileApi: ProfileApi)
      requires chain.Valid() && chain.account == Some(acct)
      modifies this`walletState, this`userProfile, chain`account, chain`walletClient, analytics`identified
      ensures Valid()
      ensures
        var profile := ProfileFor(acct, signer, profileApi);
        if profile.Ok? && profile.value.Some? then
          walletState == WalletState(true, Some(acct.address), false, None) &&
          userProfile == Some(UserProfile(acct.address, profile.value)) &&
          chain.account == Some(acct) &&
          analytics.identified == old(analytics.identified) +
            if Truthy(profile.value.value.username) && analytics.initialized
            then [Identity(profile.value.value.username.value, profile.value.value.username.value, acct.address)]
            else []
        else
          walletState == Failed(AUTH_FAILED) && chain.account == None &&
          userProfile == (if profile.Ok? then Some(UserProfile(acct.address, None)) else old(userProfile)) &&
          analytics.identified == old(analytics.identified)
    {
      var address := acct.address;
      var auth := chain.SignPolicyVoterAuth(signer);
      var profile := if auth.Ok? then FetchUserProfile(auth.value.address, auth.value.signature, profileApi)
                     else Err(auth.error);
      assert profile == ProfileFor(acct, signer, profileApi);
      if profile.Ok? {
        walletState := WalletState(true, Some(address), false, None);
        userProfile := Some(UserProfile(address, profile.value));
      }
      if profile.Ok? && profile.value.Some? {
        var username := profile.value.value.username;
        if Truthy(username) {
          analytics.SetUser(username.value, address);
        }
        return;
      }
      chain.Disconnect();
      walletState := Failed(AUTH_FAILED_RETRY);
      walletState := Failed(AUTH_FAILED);
    }

    /**
     * `initializeWallet`: with a truthy stored value, decodes it and logs in;
     * a value that does not decode is removed instead.
     */
    method InitializeWallet(derive: string -> Option<Account>, storageWritable: bool,
                            signer: (Account, string) -> Option<string>, profileApi: ProfileApi)
      requires Valid()
      modifies this`walletState, this`userProfile, this`storedMnemonic,
               chain`account, chain`walletClient, analytics`identified
      ensures Valid()
      ensures !Truthy(old(storedMnemonic)) ==>
        walletState == old(walletState) && userProfile == old(userProfile) &&
        storedMnemonic == old(storedMnemonic) && chain.account == old(chain.account) &&
        analytics.identified == old(analytics.identified)
      ensures Truthy(old(storedMnemonic)) && DecodeMnemonic(old(storedMnemonic).value).Err? ==>
        storedMnemonic == None && walletState == old(walletState) && userProfile == old(userProfile) &&
        chain.account == old(chain.account) && analytics.identified == old(analytics.identified)
      ensures Truthy(old(storedMnemonic)) && DecodeMnemonic(old(storedMnemonic).value).Ok? ==>
        LoginOutcome(DecodeMnemonic(old(storedMnemonic).value).value, derive, storageWritable, signer, profileApi)
    {
      if !Truthy(storedMnemonic) {
        return;
      }
      var decoded := DecodeMnemonic(storedMnemonic.value);
      if decoded.Err? {
        storedMnemonic := None;
        return;
      }
      Login(decoded.value, derive, storageWritable, signer, profileApi);
    }

    /** `logout`: forgets the stored mnemonic, the gateway's account and every per-session record. */
    method Logout()
      requires Valid()
      modifies this`walletState, this`userProfile, this`voteStatusCache, this`voteStatusCacheVersion,
               this`checkingVotes, this`storedMnemonic, chain`account, chain`walletClient
      ensures Valid()
      ensures storedMnemonic == None && chain.account == None && chain.walletClient == None
      ensures walletState == DISCONNECTED && userProfile == None
      ensures voteStatusCache == map[] && voteStatusCacheVersion == 0 && checkingVotes == {}
    {
      storedMnemonic := None;
      chain.Disconnect();
      walletState := DISCONNECTED;
      userProfile := None;
      voteStatusCache := map[];
      voteStatusCacheVersion := 0;
      checkingVotes := {};
    }
  }

  /**
   * A check that finishes after a logout still writes its answer: the
   * completion step has no guard, so the emptied cache gains an entry and
   * the version restarts from one.
   */
  method CheckOutlivesLogout(store: ChainStore, policyId: string, voted: bool)
    requires store.Valid() && store.CanCheck(policyId)
    modifies store, store.chain
    ensures store.walletState == DISCONNECTED
    ensures store.voteStatusCache == map[policyId := voted] && store.voteStatusCacheVersion == 1
    ensures store.checkingVotes == {}
  {
    var started := store.BeginCheck(policyId);
    store.Logout();
    store.CompleteCheck(policyId, Ok(voted));
  }

  /**
   * A second `checkUserVote` for a policy already in flight makes no request:
   * only one answer is recorded and the version rises by one.
   */
  method DuplicateCheckDeduplicated(store: ChainStore, policyId: string, voted: bool)
    requires store.Valid() && store.CanCheck(policyId)
    modifies store
    ensures store.voteStatusCacheVersion == old(store.voteStatusCacheVersion) + 1
    ensures store.voteStatusCache == old(store.voteStatusCache)[policyId := voted]
    ensures store.checkingVotes == old(store.checkingVotes)
  {
    var first := store.BeginCheck(policyId);
    var second := store.BeginCheck(policyId);
    assert !second;
    store.CompleteCheck(policyId, Ok(voted));
  }

  /**
   * A login that stores its mnemonic is restored on the next page load: a
   * new gateway and store start from the stored value alone and reach the
   * same connected address.
   */
  method ReloadRestoresSession(store: ChainStore, mnemonic: string, derive: string -> Option<Account>,
                               signer: (Account, string) -> Option<string>, profileApi: ProfileApi)
    returns (reloaded: ChainStore)
    requires store.Valid() && derive(mnemonic).Some? && Latin1(mnemonic) && mnemonic != ""
    requires var p := ProfileFor(derive(mnemonic).value, signer, profileApi); p.Ok? && p.value.Some?
    modifies store, store.chain, store.analytics
    ensures store.walletState.isConnected && reloaded.walletState == store.walletState
    ensures reloaded.storedMnemonic == store.storedMnemonic
  {
    store.Login(mnemonic, derive, true, signer, profileApi);
    assert Btoa(mnemonic).Ok? && |Sextets(mnemonic)| > 0;
    assert Truthy(store.storedMnemonic);
    StoredMnemonicRoundTrip(mnemonic);
    var gateway := new ChainApiService(store.chain.contractAddress, store.chain.encodeParams);
    reloaded := new ChainStore(gateway, store.analytics, store.storedMnemonic);
    reloaded.InitializeWallet(derive, true, signer, profileApi);
  }
}
