/** The records of the policy listing and of the wallet session. */
module Types {
  import opened Wrappers

  datatype PolicyCategory = PolicyCategory(id: string, name: string, description: string)

  datatype PolicyCreator = PolicyCreator(walletAddress: string, username: string)

  /**
   * One policy as the listing API returns it. `rank` is assigned after a full
   * fetch; `hasUserVoted` is the optional flag the table's vote filter reads.
   */
  datatype Policy = Policy(
    contractAddress: string,
    chain: string,
    policyId: string,
    partnerId: string,
    constituentId: string,
    category: PolicyCategory,
    title: string,
    description: string,
    titleHash: string,
    descriptionHash: string,
    totalVotes: int,
    creator: PolicyCreator,
    votedAt: Option<int>,
    createdAt: int,
    updatedAt: int,
    rank: Option<int>,
    hasUserVoted: Option<bool>)

  /** `{ isConnected, address, isLoading, error }`. */
  datatype WalletState = WalletState(
    isConnected: bool,
    address: Option<string>,
    isLoading: bool,
    error: Option<string>)

  /** Opaque profile data; only a truthy `username` is ever inspected. */
  datatype UserData = UserData(username: Option<string>, fields: map<string, string>)

  /** `{ address, data }`; `data` is `None` when the profile API answered with JSON `null`. */
  datatype UserProfile = UserProfile(address: string, data: Option<UserData>)

  /** JavaScript truthiness of an optional string: present and non-empty. */
  predicate Truthy(s: Option<string>) {
    s.Some? && s.value != ""
  }
}
