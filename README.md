# restore-vote: the client data and session engine, in Dafny

This project models the browser-side engine of restore-vote, the policy-voting front end for PolicyVoter, and proves properties of it. The model covers:

- **Listing fetch** (`PolicyApi`). One page request and its response envelope. The batched loop over all pages: page 1 alone, then five pages per batch until a batch keeps fewer than five non-empty pages. The 1-based ranking of the merged list. The user-profile request.
- **Listing provider** (`ApiProvider`). The `policies`/`loading`/`error` state that each fetch, initial or polled, steps through.
- **Policy cache** (`PolicyCache`). One local-storage slot holding a timestamped snapshot. It stays valid for five minutes, refuses writes above 2 MiB, and clears itself on a parse failure or on expiry.
- **Stored-mnemonic codec** (`MnemonicCodec`). `btoa` on writing the mnemonic and `atob` (the forgiving-base64 decode of the WHATWG Infra standard) on reading it back.
- **Contract gateway** (`ChainApi`). Covers:
  - the account and its wallet client;
  - the authentication message;
  - calldata assembly;
  - the guards and request order of a contract write;
  - the decoding of `hasUserVoted`;
  - the toasts of vote and undo-vote.
- **Session and vote-status store** (`ChainProvider`). Covers:
  - the wallet state and the user profile;
  - the per-policy vote-status map with its version counter;
  - the set of checks in flight;
  - login, auto-login from storage, and logout.
- **Policies table** (`PoliciesTable`). The search filter and the vote filter, the stable sort on one key, and the column-click state machine.
- **Login dialog** (`LoginModal`). The 12-word check with `trim().split(/\s+/)`, the submit and close handlers, the error shown, and the disabled state of the submit button.
- **Analytics start-up** (`Analytics`). Local-host detection, the cookie-consent gate, the Matomo queue and the LogRocket calls.
- **Policy details dialog** (`PolicyDetails`). The description normaliser `replace(/\n\s*\n\s*\n+/g, "\n\n")` and the render guards.

Shared pieces:

- `Text`: ECMAScript whitespace, `trim`, `includes`, `startsWith`, and ASCII `toLowerCase`.
- `Types`: the records of `src/types/Policy.ts` and `src/types/Chain.ts`.
- `Wrappers`: `Option` and `Result`. A thrown `Error` becomes `Err(message)`.

How the source's constructs map into Dafny:

- Stateful services and React state become classes. Their fields are the state, and their methods change exactly what their `modifies` clauses name.
- Pure computations become functions, with lemmas about them.
- The two loops of `fetchAllPaginated` become a `while` loop and a `for` loop. They are proved equal to the function `Paginated`, and what that function collects is then characterised page by page.

How I/O enters the model:

- Network answers, storage outcomes and the clock are parameters.
  - A listing page is an HTTP reply.
  - A contract call's node answers are an `RpcEnv`.
  - The time is a `now` argument in milliseconds.
  - JSON serialisation length is a function fixed at construction.
- Key derivation (`mnemonicToAccount`), signing and ABI encoding are function parameters.
- Requests made and toasts shown are appended to sequence fields, so their order can be observed.

## Where the specification and the code differ

The model follows the code in each of these cases:

- **Pagination is tolerant, but not exact.** The specification says the merged list is pages 1..k-1, where k is the first empty or failed page. The code behaves differently:
  - It skips a rejected or empty page inside a batch.
  - It still appends the later non-empty pages of that batch.
  - It stops after that batch, even when later pages are non-empty.

  `PolicyApi.TransientFailureSkipsAndTruncates` proves this for seven pages with page 3 rejected.
- **Page 1 with an unsuccessful envelope.** The specification says a page 1 whose envelope has no `success` fails the fetch. In the code it yields an empty page, so the fetch yields an empty list. Only a network failure, a non-OK status or an unparsable body fails page 1.
- **Login is not atomic with respect to storage.** The encoded mnemonic is stored before the profile is verified. A failed verification does not remove it (`ChainProvider.ChainStore.Login`).
- **Background refresh failures are not swallowed.** Every failed polled fetch sets `error`, just as the first one does (`ApiProvider.FailedPollKeepsList`).
- **The details dialog throws for every policy.** The specification describes a dialog that shows the selected policy. The dialog calls `isVoting(policy.policyId)` before it returns any content. The context value built in `src/providers/ChainProvider.tsx:210-219` (typed by `src/types/Chain.ts:21-30`) has no `isVoting`, so that call throws a `TypeError` for every policy a row click selects (`PolicyDetails.SelectedPolicyThrows`). `PolicyDetails.Render` is the intended dialog.
- **Functionality the specification describes but the code does not contain:**
  - the vote/unvote de-duplication set;
  - cache-first loading with a three-minute freshness threshold;
  - merging vote status into the listing.

  None of these is modelled. `src/providers/ApiProvider.tsx` never uses the policy cache, and the vote controls of the details dialog are switched off.

## Model

| member | source | states |
|---|---|---|
| PolicyApi.FetchPage | src/services/policyApi.ts:18-45 | Error exactly on a network failure, a non-OK status or an unparsable body. A non-OK status gives "HTTP error! status: N". A successful envelope yields `data.policies` when that is an array, or `data` when `data` is itself an array. A non-empty page comes only from those two shapes; anything else is `[]`. |
| PolicyApi.ValidPages | src/services/policyApi.ts:76-83 | The filtered batch is no longer than the batch, and every page it keeps is non-empty. |
| PolicyApi.BatchKeepsNonEmpty | src/services/policyApi.ts:71-83 | A settled batch keeps exactly the fulfilled non-empty pages among `currentPage..currentPage+4`, in page order. |
| PolicyApi.RequestBatch | src/services/policyApi.ts:71-73 | The five requests are pages `currentPage..currentPage+4`, in that order. |
| PolicyApi.AppendPages | src/services/policyApi.ts:89-93 | The items of every valid page are appended after the items already collected, in order. |
| PolicyApi.FullBatchInRange | src/services/policyApi.ts:95-99 | A batch that keeps all five pages lies inside the dataset, so advancing by five eventually ends the loop. |
| PolicyApi.Paginated | src/services/policyApi.ts:59-108 | Error iff page 1 fails, with "Failed to fetch data from <endpoint>. Please try again later.". An empty page 1 gives `[]`, not an error. Otherwise the result starts with page 1's items. |
| PolicyApi.FetchAllPaginated | src/services/policyApi.ts:51-110 | The `while`/`for`/`forEach` loop returns exactly `Paginated` of the page outcomes. |
| PolicyApi.StopPageWholeBatches | src/services/policyApi.ts:85-99 | From page 2 on, the loop requests at least one batch, and `currentPage` advances by exactly 5 per batch. |
| PolicyApi.StopPageEndsShortBatch | src/services/policyApi.ts:85-97 | The last batch requested holds fewer than five non-empty pages, zero included. |
| PolicyApi.StopPageAfterFullBatches | src/services/policyApi.ts:95-99 | Every page before the last batch requested is non-empty. |
| PolicyApi.CollectCharacterised | src/services/policyApi.ts:65-101 | What the batches append is exactly the non-empty pages from page 2 up to the end of the last batch, in page order. Rejected and empty pages are skipped. |
| PolicyApi.ContiguousPagesFetchedExactly | src/services/policyApi.ts:59-103 | When pages 1..n are non-empty and every later page is empty or rejected, the result is exactly the concatenation of pages 1..n. |
| PolicyApi.TransientFailureSkipsAndTruncates | src/services/policyApi.ts:70-101 | Seven non-empty pages with page 3 rejected give pages 1, 2, 4, 5, 6. The rejected page is skipped, and page 7 is never requested. |
| PolicyApi.Ranked | src/services/policyApi.ts:121-124 | Same length. Element i has rank i+1, and apart from its rank it equals input element i. |
| PolicyApi.AllPolicies | src/services/policyApi.ts:112-129 | Error iff page 1 fails, with "Failed to fetch policies. Please try again later.". Otherwise the paginated listing of the policies endpoint, ranked. |
| PolicyApi.FetchAllPolicies | src/services/policyApi.ts:112-129 | The method's result is `AllPolicies` of the page outcomes. |
| PolicyApi.SixFullPagesGiveThirtyRanked | src/services/policyApi.ts:112-124 | Six pages of five policies and an empty seventh give 30 policies ranked 1 to 30. |
| PolicyApi.FetchUserProfile | src/services/policyApi.ts:134-165 | Any network failure, non-OK status or unparsable body gives "Failed to fetch user profile from PolicyVoter API". A successful envelope with data yields `data`. Any other object yields the whole payload, and JSON `null` yields none. |
| ApiProvider.FetchedListIsRanked | src/services/policyApi.ts:121-124 | A successful fetch holds policies ranked exactly 1..n, one per fetched policy. |
| ApiProvider.ApiStore.constructor | src/providers/ApiProvider.tsx:19-21 | Starts with no policies, loading, and no error. |
| ApiProvider.ApiStore.BeginFetch | src/providers/ApiProvider.tsx:25-26 | Every fetch first sets loading and clears the error. |
| ApiProvider.ApiStore.CompleteFetch | src/providers/ApiProvider.tsx:27-33 | A success replaces the list wholesale. A failure keeps the list and records the message. Loading ends either way. |
| ApiProvider.ApiStore.FetchPolicies | src/providers/ApiProvider.tsx:23-34 | After one fetch, loading is over and the held ranks stay sequential. A success holds exactly the fetched ranked list with no error. A failure keeps the old list and reports the listing failure message. |
| ApiProvider.FailedPollKeepsList | src/providers/ApiProvider.tsx:23-49 | A failed poll after a successful one keeps the earlier list and reports the failure. |
| PolicyCache.PolicyCacheService.GetCachedPolicies | src/services/policyCache.ts:27-47 | An absent or empty slot gives none and leaves storage alone. An unparsable or expired entry is removed and gives none. An entry younger than five minutes gives its policies unchanged. |
| PolicyCache.PolicyCacheService.SetCachedPolicies | src/services/policyCache.ts:49-72 | Above 2·1024·1024 serialised characters nothing is written. Otherwise a successful write stores `{policies, now}`. A quota failure clears the slot, and any other write failure leaves it unchanged. |
| PolicyCache.PolicyCacheService.GetCacheAge | src/services/policyCache.ts:74-86 | The age is present iff a parsable entry is stored, and then equals `now - timestamp`. It reads without changing storage. |
| PolicyCache.PolicyCacheService.ClearCache | src/services/policyCache.ts:88-94 | The slot is empty afterwards. |
| PolicyCache.PolicyCacheService.IsCacheExpired | src/services/policyCache.ts:96-100 | Expired iff there is no age or the age is at least 300000 ms. For a stored entry this is exactly the negation of `isValidCache`. |
| PolicyCache.SetThenGet | src/services/policyCache.ts:27-62 | Round trip: an accepted write at t is read back unchanged at any t' with t' - t < 300000, and is not expired then. |
| PolicyCache.ExpiryBoundary | src/services/policyCache.ts:13-47 | At age 299999 ms the entry is served. At exactly 300000 ms it is expired: the read gives none and the slot is cleared. |
| PolicyCache.OversizedWriteKeepsPrevious | src/services/policyCache.ts:49-62 | An oversized write is refused, and the previous entry is still served. |
| MnemonicCodec.Btoa | src/providers/ChainProvider.tsx:16-18 | Fails, with InvalidCharacterError, exactly when some code unit exceeds 0xFF. |
| MnemonicCodec.Atob | src/providers/ChainProvider.tsx:20-26 | After ASCII whitespace and one or two final `=` are dropped, fails exactly on a length of 4k+1 or a character outside the alphabet. A decoded string is Latin-1. |
| MnemonicCodec.DecodeMnemonic | src/providers/ChainProvider.tsx:20-26 | Any `atob` failure becomes "Invalid stored mnemonic". Otherwise it gives the decoded string. |
| MnemonicCodec.AtobInvertsBtoa | src/providers/ChainProvider.tsx:16-26 | `atob(btoa(s)) == s` for every string `btoa` accepts. |
| MnemonicCodec.StoredMnemonicRoundTrip | src/providers/ChainProvider.tsx:16-26 | `decodeMnemonic(encodeMnemonic(m)) == m` whenever encoding succeeds. |
| ChainApi.Calldata | src/services/chainApi.ts:130-137 | The calldata starts with the selector, followed by the encoding minus its first two characters. |
| ChainApi.CalldataOfHexEncoding | src/services/chainApi.ts:133-137 | An encoding `0x` + body contributes exactly its body. |
| ChainApi.AuthMessage | src/services/chainApi.ts:79-80 | The signed message is the welcome prefix followed by the address. |
| ChainApi.AuthMessageInjective | src/services/chainApi.ts:79-80 | Different addresses give different authentication messages. |
| ChainApi.DecodeVoted | src/services/chainApi.ts:193-200 | Voted iff data is present, has at least two characters, and ends in "01". |
| ChainApi.DecodeVotedAbiBool | src/services/chainApi.ts:194-197 | On an ABI-encoded `bool` word, the decoding returns the contract's answer. |
| ChainApi.ChainApiService.constructor | src/services/chainApi.ts:22-27 | A new gateway has no account, no wallet client, and no requests or toasts. |
| ChainApi.ChainApiService.GenerateWalletFromMnemonic | src/services/chainApi.ts:32-49 | On success the account and its wallet client are set, and the address is returned. A rejected mnemonic gives "Invalid mnemonic phrase" and changes neither. |
| ChainApi.ChainApiService.SignMessage | src/services/chainApi.ts:54-69 | Without a wallet client or account: "Wallet not connected". Otherwise the signer's signature, or "Failed to sign message". |
| ChainApi.ChainApiService.SignPolicyVoterAuth | src/services/chainApi.ts:74-88 | Without an account: "Wallet not connected". Otherwise it signs exactly the welcome message for the account's own address and returns that address with the signature. |
| ChainApi.ChainApiService.CallContractFunction | src/services/chainApi.ts:107-170 | Guards and request order, with a write's result and requests exactly those of `WriteResult` and `WriteRequests`: <br>• A write without a wallet client gives "Wallet client not initialized"; a write without an account gives "Account not connected for write operation". Neither makes a request. <br>• A write asks for the chain id first, then encodes, estimates gas, and sends to the contract with that chain id and gas. <br>• A read makes one plain call. <br>• Every failure is returned as is, and no further requests follow it. |
| ChainApi.ChainApiService.WriteResult | src/services/chainApi.ts:107-170 | A write succeeds iff the wallet client, the account, the chain id, the encoding, the gas estimate and the send all succeed. It then returns the node's transaction hash. Without a wallet client it gives "Wallet client not initialized". |
| ChainApi.ChainApiService.WriteRequests | src/services/chainApi.ts:124-157 | A write makes no request without a wallet client or an account, starts with the chain id, and makes at most three requests. All three are made iff the chain id, the encoding and the gas estimate succeed. Every request after the chain id goes to the contract with calldata that starts with the write's selector. |
| ChainApi.ChainApiService.HasUserVoted | src/services/chainApi.ts:175-205 | True iff encoding and the call succeed and the returned data ends in "01". Every failure gives false. Exactly one read request is made when encoding succeeds. |
| ChainApi.ChainApiService.VoteForPolicy | src/services/chainApi.ts:210-227 | One write of the vote selector `0x5f907d08` with the policy id as a `string` parameter. Its requests are exactly that write's. A sent transaction gives its hash and one "Vote submitted successfully!" toast. A failure gives back exactly the write's error and one "Vote failed: " toast with that error. |
| ChainApi.ChainApiService.UndoVoteForPolicy | src/services/chainApi.ts:232-249 | One write of the undo selector `0x4cc764c6` with the policy id as a `string` parameter. Its requests are exactly that write's. A sent transaction gives its hash and one "Vote removed successfully!" toast. A failure gives back exactly the write's error and one "Remove vote failed: " toast with that error. |
| ChainApi.ChainApiService.GetCurrentAddress | src/services/chainApi.ts:254-256 | The account's address, or none when there is no account or its address is empty. |
| ChainApi.ChainApiService.IsConnected | src/services/chainApi.ts:261-263 | Connected iff an account is set. A connected gateway also has its wallet client. |
| ChainApi.ChainApiService.Disconnect | src/services/chainApi.ts:275-278 | Clears the account and the wallet client. |
| ChainApi.VoteAfterDisconnect | src/services/chainApi.ts:210-227 | After a disconnect, a vote makes no request and fails with the missing-wallet-client message and its error toast. |
| ChainApi.VoteAndUndoSendDifferentCalldata | src/services/chainApi.ts:210-249 | With a wallet and a successful chain id and encoding, a vote and an undo of the same policy make the same number of requests. Each request after the chain id carries different calldata in the two. |
| ChainApi.WriteOrder | src/services/chainApi.ts:124-157 | A write appends exactly three requests: chain id, gas estimate, then send. The send carries the estimated calldata, the contract address, the node's chain id and its gas. |
| ChainProvider.ProfileFor | src/providers/ChainProvider.tsx:120-125 | Login's verification step. The welcome message is signed for the derived address; a signing failure gives "Failed to sign message". Otherwise the profile is fetched with that address and signature. |
| ChainProvider.ChainStore.constructor | src/providers/ChainProvider.tsx:33-45 | Starts disconnected, with no profile, an empty vote map, version 0 and no checks in flight. |
| ChainProvider.ChainStore.BeginCheck | src/providers/ChainProvider.tsx:49-58 | A check starts iff connected with an address and the policy is not in flight. A started check adds the policy to the in-flight set; otherwise nothing changes. |
| ChainProvider.ChainStore.CompleteCheck | src/providers/ChainProvider.tsx:60-86 | A success records the answer and bumps the version by exactly 1. A failure changes neither. The policy leaves the in-flight set either way. |
| ChainProvider.ChainStore.CheckUserVote | src/providers/ChainProvider.tsx:47-89 | A check that does not start changes nothing and makes no request. A started check caches the gateway's decoded answer for the connected address, bumps the version by one, and leaves the in-flight set as it was. It makes exactly the one `hasUserVoted` read of `HasUserVoted`, none when encoding fails. |
| ChainProvider.ChainStore.GetVoteStatus | src/providers/ChainProvider.tsx:91-96 | A plain map lookup, none for a policy never checked. |
| ChainProvider.ChainStore.IsCheckingVote | src/providers/ChainProvider.tsx:98-103 | Membership of the in-flight set. |
| ChainProvider.ChainStore.BeginLogin | src/providers/ChainProvider.tsx:106 | Loading starts and the error is cleared. The connection flag and the address are kept. The session invariant is preserved. |
| ChainProvider.ChainStore.Login | src/providers/ChainProvider.tsx:105-168 | Starts with `BeginLogin`; its outcome is `LoginOutcome`: <br>• A rejected mnemonic ends disconnected with "Invalid mnemonic phrase", and nothing is stored. <br>• Otherwise the encoded mnemonic is stored when encoding and storage succeed. <br>• The session connects with the derived address and the profile only after signing and the profile fetch succeed. The user is identified when the username is truthy and analytics is initialised. <br>• A failed verification disconnects the gateway and ends with "Failed to authenticate with PolicyVoter". The stored mnemonic is kept. <br>• A JSON `null` profile is recorded, and the session then ends disconnected. <br>• The session invariant (address shown iff connected, and equal to the gateway's account) holds afterwards. |
| ChainProvider.ChainStore.Authenticate | src/providers/ChainProvider.tsx:119-159 | The verification part of login, with the same connected and failed outcomes. |
| ChainProvider.ChainStore.InitializeWallet | src/providers/ChainProvider.tsx:170-182 | With no truthy stored value, nothing changes: wallet state, profile, stored value, gateway account and analytics identity. A value that does not decode is removed and nothing else changes. Otherwise the outcome is exactly `LoginOutcome` of the decoded mnemonic, profile, gateway account and analytics identity included. |
| ChainProvider.ChainStore.Logout | src/providers/ChainProvider.tsx:184-203 | Removes the stored mnemonic and disconnects the gateway. Resets the wallet state with no error, clears the profile, empties the vote map and the in-flight set, and sets the version to 0. |
| ChainProvider.CheckOutlivesLogout | src/providers/ChainProvider.tsx:58-86 | A check that completes after a logout still writes its answer into the emptied map, with version 1. |
| ChainProvider.DuplicateCheckDeduplicated | src/providers/ChainProvider.tsx:49-58 | A second check of a policy in flight does not start. One answer is recorded and the version rises by one. |
| ChainProvider.ReloadRestoresSession | src/providers/ChainProvider.tsx:105-182 | A successful login with writable storage is restored on the next load. A fresh gateway and store that start from the stored value alone reach the same connected wallet state. |
| PoliciesTable.SearchFiltered | src/components/PoliciesTable.tsx:66-74 | Applied only when the trimmed term is non-empty. It then keeps exactly the policies whose lowered title, creator username or category name contains the lowered, untrimmed term. Every copy of a kept policy stays, no other stays, and the kept ones keep their order (an in-order subsequence). |
| PoliciesTable.VoteFiltered | src/components/PoliciesTable.tsx:77-79 | "voted" keeps exactly the policies with `hasUserVoted === true`, every copy of each, in their order (an in-order subsequence). "all" keeps everything. |
| PoliciesTable.SortPolicies | src/components/PoliciesTable.tsx:81-100 | The result is a permutation of the input and is ordered by the key (rank, 0 when absent; `createdAt`; or `totalVotes`): non-decreasing ascending, non-increasing descending. |
| PoliciesTable.SortStable | src/components/PoliciesTable.tsx:81-100 | Stability: the policies sharing any key keep their input order. |
| PoliciesTable.FilteredAndSorted | src/components/PoliciesTable.tsx:62-101 | The rows are a sorted permutation of the doubly filtered list. A policy is shown iff it passes both filters, and the shown count never exceeds the total. |
| PoliciesTable.ShownTiesKeepOrder | src/components/PoliciesTable.tsx:62-101 | Shown rows with equal keys appear in their filtered input order. |
| PoliciesTable.TableState.constructor | src/components/PoliciesTable.tsx:36-40 | Starts with no search term, sorted by rank ascending, showing all. |
| PoliciesTable.TableState.HandleColumnClick | src/components/PoliciesTable.tsx:42-49 | A click on the current column flips its direction. A click on another column selects it, descending. |
| PoliciesTable.TableState.Rows | src/components/PoliciesTable.tsx:193 | The shown rows never outnumber the policies, and are sorted by the current column and direction. |
| PoliciesTable.ClickTwiceRestores | src/components/PoliciesTable.tsx:42-49 | Two clicks on the current column restore the direction. Two clicks on a new column leave it ascending. |
| LoginModal.SplitPiecesHaveNoSpace | src/components/LoginModal.tsx:20 | No piece of `split(/\s+/)` holds whitespace. |
| LoginModal.SplitJoin | src/components/LoginModal.tsx:20 | Splitting words joined by any non-empty whitespace runs gives back exactly the words. |
| LoginModal.WordCountOfJoin | src/components/LoginModal.tsx:20 | Leading and trailing whitespace is ignored, and each whitespace run counts as one separator. |
| LoginModal.BlankIsOneWord | src/components/LoginModal.tsx:20 | Whitespace-only input, the empty string included, counts as 1 word. |
| LoginModal.SplitPhrase | src/components/LoginModal.tsx:19 | `trim().split(/\s+/)` of the typed phrase: as many pieces as `WordCount` counts, and no piece holds whitespace. |
| LoginModal.LoginDialog.constructor | src/components/LoginModal.tsx:11-12 | Starts with an empty field and no local error. |
| LoginModal.LoginDialog.HandleSubmit | src/components/LoginModal.tsx:15-33 | Splits the phrase with `SplitPhrase`. Anything but 12 words sets "Please enter exactly 12 words" and does not log in. Twelve words clear the local error, pass the untrimmed text to `login` once, clear the field and close. |
| LoginModal.LoginDialog.HandleClose | src/components/LoginModal.tsx:35-39 | Clears the field and the local error, then closes once. |
| LoginModal.LoginDialog.DisplayedError | src/components/LoginModal.tsx:73-77 | A truthy local error is shown, otherwise a truthy wallet error, otherwise nothing. |
| LoginModal.LoginDialog.SubmitDisabled | src/components/LoginModal.tsx:92 | Disabled iff loading or the trimmed field is empty. A 12-word phrase is never disabled when not loading. |
| LoginModal.SubmitTwelveWords | src/components/LoginModal.tsx:15-29 | Any twelve words, however they are spaced, reach `login` exactly as typed, and the dialog closes. |
| Analytics.LocalhostExamples | src/analytics.ts:55-61 | "localhost:5173" is local. "localhost.example.org" and "127.0.0.2" are not. |
| Analytics.IsLocalhostCharacterised | src/analytics.ts:55-61 | For every hostname: local iff it is "localhost", "127.0.0.1", or its first ten characters are "localhost:". |
| Analytics.AnalyticsService.NeedsConsent | src/analytics.ts:75-77 | Needed iff no consent value is stored. Needing consent means there is none. |
| Analytics.AnalyticsService.Init | src/analytics.ts:13-53 | Cases: <br>• Initialised: nothing happens. <br>• Local host: the flag is set and nothing starts. <br>• No "accepted" consent: nothing happens. <br>• Otherwise: LogRocket starts once, the four Matomo commands are queued after any existing entries and in order, and the loader script is inserted. |
| Analytics.AnalyticsService.SetConsent | src/analytics.ts:68-73 | Stores "accepted" or "rejected". Starts analytics only on an acceptance before initialisation, exactly as `Init` does: LogRocket, the Matomo queue and the loader script. |
| Analytics.AnalyticsService.SetUser | src/analytics.ts:79-89 | Identifies the user once, with name and wallet, iff initialised, the local-host path included. |
| Analytics.InitTwiceStartsOnce | src/analytics.ts:13-32 | Two starts on a consenting public page start LogRocket once and queue the Matomo commands once. |
| PolicyDetails.CollapseRun | src/components/PolicyDetailsModal.tsx:78 | A whitespace run with fewer than three line feeds is unchanged. A run with three or more keeps its whitespace before the first and after the last line feed, with two line feeds in between. |
| PolicyDetails.NormalizeIsCalm | src/components/PolicyDetailsModal.tsx:78 | After normalisation, no whitespace run holds three or more line feeds. |
| PolicyDetails.CalmIsFixed | src/components/PolicyDetailsModal.tsx:78 | A description with no such run is left unchanged. |
| PolicyDetails.NormalizeIdempotent | src/components/PolicyDetailsModal.tsx:78 | Normalising twice is the same as normalising once. |
| PolicyDetails.NormalizeKeepsVisible | src/components/PolicyDetailsModal.tsx:78 | The non-whitespace text is unchanged, in order. |
| PolicyDetails.RenderAsWritten | src/components/PolicyDetailsModal.tsx:17-29 | Without a policy: nothing. With a policy it fails with "isVoting is not a function" iff the context has no `isVoting`. Otherwise it gives the intended view. |
| PolicyDetails.SelectedPolicyThrows | src/components/PolicyDetailsModal.tsx:17-29 | With the provider's context, every selected policy makes the dialog fail, where the intended render shows its title and normalised description. |
| PolicyDetails.Render | src/components/PolicyDetailsModal.tsx:26-137 | The intended content: <br>• Nothing without a policy. <br>• The "You voted" banner appears iff logged in and the status is exactly true. <br>• The external link is "https://policyvoter.com/" + policyId. <br>• The description is normalised. <br>• The vote controls never show. <br>• The rank and the vote count are the policy's own. |
| Text.TrimIgnoresPadding | src/components/LoginModal.tsx:20 | `trim` ignores whitespace added on either side. |
| Text.ContainsHasOffset | src/components/PoliciesTable.tsx:70-72 | `includes` holds only when the term occurs at some offset. |
| Text.ContainsAt | src/components/PoliciesTable.tsx:70-72 | A term occurring at an offset is included. |
| Text.ToLower | src/components/PoliciesTable.tsx:67 | Same length, and each character is lowered on its own (ASCII letters only). |

## Left out

- I/O (`fetch`, `response.json`, `localStorage`, the DOM, `console`) is modelled as inputs and fields. JSON parsing is represented by the shapes a body may take. React rendering, JSX and styling are left out.
- PolicyApi.PageReply: every page past the given replies answers with an empty successful envelope. A server whose pages never end, which would keep the loop running forever, is not modelled.
- `Promise.allSettled` is modelled as five independent outcomes taken in request order. The overlap of in-flight requests, React's batched `setState` and stale closures are left out. Completion order among concurrent operations is modelled only where a client method calls the split steps explicitly (`ChainProvider.CheckOutlivesLogout`).
- ChainProvider.ChainStore.CheckUserVote: it runs its two steps with nothing in between. `BeginCheck` and `CompleteCheck` are the steps an interleaving would use. The closure read of `checkingVotes` is modelled as the current set.
- The 60-second polling interval and the mount effects are left out; each poll is one `ApiStore.FetchPolicies`. `refreshPolicies` is the same call.
- `mnemonicToAccount` (BIP-39/BIP-32/BIP-44 derivation), message signing, `encodeAbiParameters`, `getChainId`, `estimateGas`, `call` and `sendTransaction` are parameters, not implementations.
- `src/constants` is not part of this model. `VOTING_CONTRACT_ADDRESS` is a constructor parameter of `ChainApiService`, and `RPC_URL` does not appear.
- ChainApi.ChainApiService.CallContractFunction: the "Public client not initialized" branch is not modelled, because the constructor always creates the public client. The "Failed to submit vote" / "Failed to remove vote" fallbacks for non-`Error` throws are unreachable and are not modelled either.
- ChainApi.ChainApiService: `getWalletClient` is a plain getter of the `walletClient` field and has no member of its own.
- ChainProvider.ChainStore.Login: the "Login failed" fallback for non-`Error` throws is unreachable. The inner "…Please try again." message is written and then replaced by the outer handler in the same step, as in the source.
- LoginModal.LoginDialog.HandleSubmit: the `catch` branch is not modelled, because `login` reports every failure through the wallet state and never rejects. `e.preventDefault()` is left out.
- PolicyCache.PolicyCacheService.GetCacheAge: a parsed record with a non-numeric timestamp, whose age in JavaScript is `NaN`, is not modelled. A stored record always has an integer timestamp.
- PolicyCache.PolicyCacheService.SetCachedPolicies: the `catch` of `getCacheSize`, which yields 0 for data that cannot be serialised, is not modelled. The serialised length is a total function.
- Text.ToLower: only ASCII letters are lowered. Full Unicode `toLowerCase` is not modelled.
- PolicyDetails.Render: `voteForPolicy` and `undoVoteForPolicy` are not part of the chain context, and the block that would use them is switched off with `false &&`. The handlers `handleVote`/`handleUndoVote` are therefore not modelled. `isVoting` is missing from the context as well, but it is called outside that block; `PolicyDetails.RenderAsWritten` models that call.
- Date and number formatting (`toLocaleDateString`, `toLocaleString`, `formatDistanceToNow`) is left out. The details dialog's rank and vote count are modelled as the numbers shown, not as formatted text.
- Analytics.IsLocalhost: the `startsWith("localhost:")` test is modelled as written. A browser hostname never carries a port, so that test can only hold for a hostname value the browser does not produce.
- Analytics.AnalyticsService.Init: LogRocket and Matomo are modelled by the calls made to them. `pageHasScript` stands for whether the page already holds a `<script>` element. Without one, inserting the loader throws and the flag stays unset.

## Findings

| source | as written | input that shows it | evidently intended | confidence | as-written member | corrected member |
|---|---|---|---|---|---|---|
| src/components/PolicyDetailsModal.tsx:29 | `isVoting(policy.policyId)` is called outside the switched-off vote block, but the chain context provided by `src/providers/ChainProvider.tsx:210-219` has no `isVoting` member, so the call throws a `TypeError` before any content is returned | any policy selected by a row click, for example the first row of the table | the dialog shows the title, category, creator, normalised description and external link of the selected policy | not executed | PolicyDetails.RenderAsWritten and PolicyDetails.SelectedPolicyThrows | PolicyDetails.Render |
