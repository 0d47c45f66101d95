/**
 * `ChainApiService`: the contract gateway. It holds the derived account and
 * the wallet client bound to it, assembles calldata, orders the RPC requests
 * of a write, decodes the `hasUserVoted` answer and emits toasts for votes.
 *
 * Key derivation, signing, ABI encoding and the RPC node are abstract: the
 * derivation and the signer are function parameters, the encoder is a
 * constructor parameter, and the answers of the node are an `RpcEnv`. The
 * requests the service makes are appended to `rpcLog` and the toasts it
 * shows to `toasts`, so their order is part of the observable state.
 */
module ChainApi {
  import opened Wrappers

  const HAS_USER_VOTED_FUNCTION := "0x982702a8"
  const VOTE_FOR_POLICY_FUNCTION := "0x5f907d08"
  const UNDO_VOTE_FOR_POLICY_FUNCTION := "0x4cc764c6"

  const INVALID_MNEMONIC := "Invalid mnemonic phrase"
  const WALLET_NOT_CONNECTED := "Wallet not connected"
  const SIGN_FAILED := "Failed to sign message"
  const WALLET_CLIENT_MISSING := "Wallet client not initialized"
  const ACCOUNT_MISSING := "Account not connected for write operation"
  const CHAIN_ID_FAILED := "Failed to fetch chain ID"
  const AUTH_PREFIX := "Welcome to PolicyVoter. I am signing my wallet address: "
  const VOTE_OK := "Vote submitted successfully!"
  const UNDO_OK := "Vote removed successfully!"
  const VOTE_FAILED_PREFIX := "Vote failed: "
  const UNDO_FAILED_PREFIX := "Remove vote failed: "

  /** A derived account; only its address is observable here. */
  datatype Account = Account(address: string)

  /** One ABI parameter as handed to the encoder. */
  datatype AbiParam = AbiParam(name: string, typ: string, value: string)

  /** The node requests the service makes, in the order made. */
  datatype RpcRequest =
    | GetChainId
    | EstimateGas(from: Account, to: string, data: string)
    | SendTransaction(from: Account, to: string, data: string, chainId: int, gas: nat)
    | ContractCall(to: string, data: string)

  /** The node's answers to one contract function call. */
  datatype RpcEnv = RpcEnv(chainId: Result<int>, gas: Result<nat>, send: Result<string>, call: Result<Option<string>>)

  datatype CallResult = TxHash(hash: string) | ReturnData(data: Option<string>)

  datatype Toast = SuccessToast(message: string) | ErrorToast(message: string)

  datatype AuthData = AuthData(address: string, signature: string)

  /** `s.slice(2)`. */
  function DropTwo(s: string): (t: string)
    ensures |s| >= 2 ==> s == s[..2] + t
    ensures |s| < 2 ==> t == ""
  {
    if |s| >= 2 then s[2..] else ""
  }

  /** `s.slice(-2)`: the last two characters, or the whole of a shorter string. */
  function LastTwo(s: string): (t: string)
    ensures |s| >= 2 ==> |t| == 2 && s == s[..|s| - 2] + t
    ensures |s| < 2 ==> t == s
  {
    if |s| >= 2 then s[|s| - 2..] else s
  }

  /** The calldata of a call: the selector followed by the encoding without its leading two characters. */
  function Calldata(selector: string, encoded: string): (data: string)
    ensures |encoded| >= 2 ==> |data| == |selector| + |encoded| - 2
    ensures |data| >= |selector| && data[..|selector|] == selector
  {
    selector + DropTwo(encoded)
  }

  /** An encoding `0x`+body contributes exactly its body to the calldata. */
  lemma CalldataOfHexEncoding(selector: string, body: string)
    ensures Calldata(selector, "0x" + body) == selector + body
  {
    assert ("0x" + body)[2..] == body;
  }

  /** The message signed for authentication. */
  function AuthMessage(address: string): (m: string)
    ensures |m| == |AUTH_PREFIX| + |address| && m[..|AUTH_PREFIX|] == AUTH_PREFIX && m[|AUTH_PREFIX|..] == address
  {
    AUTH_PREFIX + address
  }

  /** Different addresses sign different authentication messages. */
  lemma {:induction false} AuthMessageInjective(a: string, b: string)
    requires AuthMessage(a) == AuthMessage(b)
    ensures a == b
  {
    assert a == AuthMessage(a)[|AUTH_PREFIX|..];
    assert b == AuthMessage(b)[|AUTH_PREFIX|..];
  }

  /** How `hasUserVoted` reads the returned data: present, non-empty and ending in "01". */
  function DecodeVoted(data: Option<string>): (voted: bool)
    ensures voted <==> data.Some? && |data.value| >= 2 && data.value[|data.value| - 2..] == "01"
  {
    data.Some? && data.value != "" && LastTwo(data.value) == "01"
  }

  function Zeros(n: nat): (z: string)
    ensures |z| == n && forall i :: 0 <= i < n ==> z[i] == '0'
  {
    if n == 0 then "" else Zeros(n - 1) + "0"
  }

  /** The ABI encoding of a `bool` return word: `0x` and 64 hex digits, the last one 0 or 1. */
  function AbiBool(b: bool): (w: string)
    ensures |w| == 66
  {
    "0x" + Zeros(63) + (if b then "1" else "0")
  }

  /** On a well-formed `bool` word the decoding gives back the contract's answer. */
  lemma {:induction false} DecodeVotedAbiBool(b: bool)
    ensures DecodeVoted(Some(AbiBool(b))) == b
  {
    var w := AbiBool(b);
    assert w[64] == '0' by { assert w[64] == Zeros(63)[62]; }
    assert w[64..] == [w[64], w[65]];
  }

  class ChainApiService {
    /** The voting contract's address; its definition is not part of this model. */
    const contractAddress: string
    /** `encodeAbiParameters`, which may throw. */
    const encodeParams: seq<AbiParam> -> Result<string>
    var account: Option<Account>
    /** The account the wallet client was created for, if one exists. */
    var walletClient: Option<Account>
    var rpcLog: seq<RpcRequest>
    var toasts: seq<Toast>

    /** The wallet client always belongs to the current account. */
    predicate Valid()
      reads this
    {
      walletClient == account
    }

    constructor(contractAddress: string, encodeParams: seq<AbiParam> -> Result<string>)
      ensures this.contractAddress == contractAddress && this.encodeParams == encodeParams
      ensures account == None && walletClient == None && rpcLog == [] && toasts == []
      ensures Valid()
    {
      this.contractAddress := contractAddress;
      this.encodeParams := encodeParams;
      account := None;
      walletClient := None;
      rpcLog := [];
      toasts := [];
    }

    /**
     * `generateWalletFromMnemonic`: on success the account and its wallet
     * client are replaced; a rejected mnemonic leaves both as they were.
     */
    method GenerateWalletFromMnemonic(mnemonic: string, derive: string -> Option<Account>) returns (r: Result<string>)
      modifies this`account, this`walletClient
      ensures derive(mnemonic).Some? ==>
        account == walletClient == derive(mnemonic) && r == Ok(derive(mnemonic).value.address)
      ensures derive(mnemonic).None? ==>
        r == Err(INVALID_MNEMONIC) && account == old(account) && walletClient == old(walletClient)
      ensures old(Valid()) ==> Valid()
    {
      var derived := derive(mnemonic);
      if derived.None? {
        return Err(INVALID_MNEMONIC);
      }
      account := derived;
      walletClient := account;
      r := Ok(derived.value.address);
    }

    /** `signMessage`: needs both the wallet client and the account. */
    function SignMessage(message: string, signer: (Account, string) -> Option<string>): (r: Result<string>)
      reads this
      ensures walletClient.None? || account.None? ==> r == Err(WALLET_NOT_CONNECTED)
      ensures walletClient.Some? && account.Some? ==>
        (r.Ok? <==> signer(account.value, message).Some?) &&
        (r.Ok? ==> r.value == signer(account.value, message).value) &&
        (r.Err? ==> r.error == SIGN_FAILED)
    {
      if walletClient.None? || account.None? then Err(WALLET_NOT_CONNECTED)
      else match signer(account.value, message)
        case Some(sig) => Ok(sig)
        case None => Err(SIGN_FAILED)
    }

    /** `signPolicyVoterAuth`: signs the welcome message naming the account's own address. */
    function SignPolicyVoterAuth(signer: (Account, string) -> Option<string>): (r: Result<AuthData>)
      reads this
      ensures account.None? ==> r == Err(WALLET_NOT_CONNECTED)
      ensures Valid() && account.Some? ==>
        var addr := account.value.address;
        match signer(account.value, AuthMessage(addr))
        case Some(sig) => r == Ok(AuthData(addr, sig))
        case None => r == Err(SIGN_FAILED)
    {
      if account.None? then Err(WALLET_NOT_CONNECTED)
      else
        var addr := account.value.address;
        match SignMessage(AuthMessage(addr), signer)
        case Ok(sig) => Ok(AuthData(addr, sig))
        case Err(e) => Err(e)
    }

    /**
     * The outcome of a write of `selector` with `params`: the first guard or
     * node answer that fails decides the error, and a write that gets
     * through every step returns the node's transaction hash.
     */
    function WriteResult(selector: string, params: seq<AbiParam>, env: RpcEnv): (r: Result<CallResult>)
      reads this`walletClient, this`account
      ensures r.Ok? <==>
        walletClient.Some? && account.Some? && env.chainId.Ok? && encodeParams(params).Ok? && env.gas.Ok? && env.send.Ok?
      ensures r.Ok? ==> r.value == TxHash(env.send.value)
      ensures walletClient.None? ==> r == Err(WALLET_CLIENT_MISSING)
    {
      if walletClient.None? then Err(WALLET_CLIENT_MISSING)
      else if account.None? then Err(ACCOUNT_MISSING)
      else if env.chainId.Err? then Err(CHAIN_ID_FAILED)
      else if encodeParams(params).Err? then Err(encodeParams(params).error)
      else if env.gas.Err? then Err(env.gas.error)
      else if env.send.Err? then Err(env.send.error)
      else Ok(TxHash(env.send.value))
    }

    /**
     * The node requests a write of `selector` makes before it stops: none
     * without a wallet, then the chain id, then the gas estimate and the
     * send, both carrying calldata that starts with `selector`.
     */
    function WriteRequests(selector: string, params: seq<AbiParam>, env: RpcEnv): (log: seq<RpcRequest>)
      reads this`walletClient, this`account
      ensures |log| <= 3
      ensures log == [] <==> walletClient.None? || account.None?
      ensures log != [] ==> log[0] == GetChainId
      ensures |log| == 3 <==> log != [] && env.chainId.Ok? && encodeParams(params).Ok? && env.gas.Ok?
      ensures forall i :: 0 < i < |log| ==>
        !log[i].GetChainId? && !log[i].ContractCall? && log[i].to == contractAddress &&
        |log[i].data| >= |selector| && log[i].data[..|selector|] == selector
    {
      if walletClient.None? || account.None? then []
      else if env.chainId.Err? || encodeParams(params).Err? then [GetChainId]
      else
        var data := Calldata(selector, encodeParams(params).value);
        if env.gas.Err? then [GetChainId, EstimateGas(account.value, contractAddress, data)]
        else [GetChainId, EstimateGas(account.value, contractAddress, data),
              SendTransaction(account.value, contractAddress, data, env.chainId.value, env.gas.value)]
    }

    /**
     * `callContractFunction`. A write needs the wallet client and the
     * account, asks the node for the chain id before anything else, then
     * estimates gas for the calldata and sends it to the contract with that
     * chain id and gas; a read makes one plain call. Any failure is returned
     * unchanged and stops the requests there.
     */
    method CallContractFunction(selector: string, params: seq<AbiParam>, isWrite: bool, env: RpcEnv)
      returns (r: Result<CallResult>)
      modifies this`rpcLog
      ensures isWrite && walletClient.None? ==> r == Err(WALLET_CLIENT_MISSING) && rpcLog == old(rpcLog)
      ensures isWrite && walletClient.Some? && account.None? ==> r == Err(ACCOUNT_MISSING) && rpcLog == old(rpcLog)
      ensures isWrite && walletClient.Some? && account.Some? ==>
        var acct := account.value;
        if env.chainId.Err? then r == Err(CHAIN_ID_FAILED) && rpcLog == old(rpcLog) + [GetChainId]
        else if encodeParams(params).Err? then r == Err(encodeParams(params).error) && rpcLog == old(rpcLog) + [GetChainId]
        else
          var data := Calldata(selector, encodeParams(params).value);
          if env.gas.Err? then
            r == Err(env.gas.error) && rpcLog == old(rpcLog) + [GetChainId, EstimateGas(acct, contractAddress, data)]
          else
            rpcLog == old(rpcLog) + [GetChainId, EstimateGas(acct, contractAddress, data),
                                     SendTransaction(acct, contractAddress, data, env.chainId.value, env.gas.value)] &&
            r == (if env.send.Ok? then Ok(TxHash(env.send.value)) else Err(env.send.error))
      ensures isWrite ==>
        r == WriteResult(selector, params, env) && rpcLog == old(rpcLog) + WriteRequests(selector, params, env)
      ensures !isWrite ==>
        if encodeParams(params).Err? then r == Err(encodeParams(params).error) && rpcLog == old(rpcLog)
        else
          rpcLog == old(rpcLog) + [ContractCall(contractAddress, Calldata(selector, encodeParams(params).value))] &&
          r == (if env.call.Ok? then Ok(ReturnData(env.call.value)) else Err(env.call.error))
    {
      if isWrite && walletClient.None? {
        return Err(WALLET_CLIENT_MISSING);
      }
      if isWrite && account.None? {
        return Err(ACCOUNT_MISSING);
      }
      var chainId := 0;
      if isWrite {
        rpcLog := rpcLog + [GetChainId];
        if env.chainId.Err? {
          return Err(CHAIN_ID_FAILED);
        }
        chainId := env.chainId.value;
      }
      var encoded := encodeParams(params);
      if encoded.Err? {
        return Err(encoded.error);
      }
      var data := Calldata(selector, encoded.value);
      if isWrite {
        var acct := account.value;
        rpcLog := rpcLog + [EstimateGas(acct, contractAddress, data)];
        if env.gas.Err? {
          return Err(env.gas.error);
        }
        rpcLog := rpcLog + [SendTransaction(acct, contractAddress, data, chainId, env.gas.value)];
        if env.send.Err? {
          return Err(env.send.error);
        }
        r := Ok(TxHash(env.send.value));
      } else {
        rpcLog := rpcLog + [ContractCall(contractAddress, data)];
        if env.call.Err? {
          return Err(env.call.error);
        }
        r := Ok(ReturnData(env.call.value));
      }
    }

    /** `hasUserVoted`: a read of `(user, policyId)`; any failure reads as "not voted". */
    method HasUserVoted(walletAddress: string, policyId: string, env: RpcEnv) returns (voted: bool)
      modifies this`rpcLog
      ensures var params := [AbiParam("user", "address", walletAddress), AbiParam("policyId", "string", policyId)];
        voted <==> encodeParams(params).Ok? && env.call.Ok? && DecodeVoted(env.call.value)
      ensures var params := [AbiParam("user", "address", walletAddress), AbiParam("policyId", "string", policyId)];
        rpcLog == old(rpcLog) +
          if encodeParams(params).Ok?
          then [ContractCall(contractAddress, Calldata(HAS_USER_VOTED_FUNCTION, encodeParams(params).value))]
          else []
    {
      var params := [AbiParam("user", "address", walletAddress), AbiParam("policyId", "string", policyId)];
      var result := CallContractFunction(HAS_USER_VOTED_FUNCTION, params, false, env);
      if result.Ok? && result.value.ReturnData? && result.value.data.Some? && result.value.data.value != "" {
        voted := LastTwo(result.value.data.value) == "01";
      } else {
        voted := false;
      }
    }

    /** `voteForPolicy`: one write; a success toast and the hash, or an error toast and the error. */
    method VoteForPolicy(policyId: string, env: RpcEnv) returns (r: Result<string>)
      modifies this`rpcLog, this`toasts
      ensures var sent := walletClient.Some? && account.Some? && env.chainId.Ok? &&
                          encodeParams([AbiParam("policyId", "string", policyId)]).Ok? && env.gas.Ok? && env.send.Ok?;
        if sent then r == Ok(env.send.value) && toasts == old(toasts) + [SuccessToast(VOTE_OK)]
        else r.Err? && toasts == old(toasts) + [ErrorToast(VOTE_FAILED_PREFIX + r.error)]
      ensures var w := WriteResult(VOTE_FOR_POLICY_FUNCTION, [AbiParam("policyId", "string", policyId)], env);
        rpcLog == old(rpcLog) + WriteRequests(VOTE_FOR_POLICY_FUNCTION, [AbiParam("policyId", "string", policyId)], env) &&
        if w.Ok? then r == Ok(w.value.hash) && toasts == old(toasts) + [SuccessToast(VOTE_OK)]
        else r == Err(w.error) && toasts == old(toasts) + [ErrorToast(VOTE_FAILED_PREFIX + w.error)]
      ensures walletClient.None? ==> r == Err(WALLET_CLIENT_MISSING) && rpcLog == old(rpcLog)
      ensures walletClient.Some? && account.Some? ==> |rpcLog| > |old(rpcLog)| && rpcLog[|old(rpcLog)|] == GetChainId
    {
      var result := CallContractFunction(VOTE_FOR_POLICY_FUNCTION, [AbiParam("policyId", "string", policyId)], true, env);
      match result {
        case Ok(c) =>
          toasts := toasts + [SuccessToast(VOTE_OK)];
          r := Ok(c.hash);
        case Err(e) =>
          toasts := toasts + [ErrorToast(VOTE_FAILED_PREFIX + e)];
          r := Err(e);
      }
    }

    /** `undoVoteForPolicy`: as `voteForPolicy` with the undo selector and messages. */
    method UndoVoteForPolicy(policyId: string, env: RpcEnv) returns (r: Result<string>)
      modifies this`rpcLog, this`toasts
      ensures var sent := walletClient.Some? && account.Some? && env.chainId.Ok? &&
                          encodeParams([AbiParam("policyId", "string", policyId)]).Ok? && env.gas.Ok? && env.send.Ok?;
        if sent then r == Ok(env.send.value) && toasts == old(toasts) + [SuccessToast(UNDO_OK)]
        else r.Err? && toasts == old(toasts) + [ErrorToast(UNDO_FAILED_PREFIX + r.error)]
      ensures var w := WriteResult(UNDO_VOTE_FOR_POLICY_FUNCTION, [AbiParam("policyId", "string", policyId)], env);
        rpcLog == old(rpcLog) + WriteRequests(UNDO_VOTE_FOR_POLICY_FUNCTION, [AbiParam("policyId", "string", policyId)], env) &&
        if w.Ok? then r == Ok(w.value.hash) && toasts == old(toasts) + [SuccessToast(UNDO_OK)]
        else r == Err(w.error) && toasts == old(toasts) + [ErrorToast(UNDO_FAILED_PREFIX + w.error)]
      ensures walletClient.None? ==> r == Err(WALLET_CLIENT_MISSING) && rpcLog == old(rpcLog)
      ensures walletClient.Some? && account.Some? ==> |rpcLog| > |old(rpcLog)| && rpcLog[|old(rpcLog)|] == GetChainId
    {
      var result := CallContractFunction(UNDO_VOTE_FOR_POLICY_FUNCTION, [AbiParam("policyId", "string", policyId)], true, env);
      match result {
        case Ok(c) =>
          toasts := toasts + [SuccessToast(UNDO_OK)];
          r := Ok(c.hash);
        case Err(e) =>
          toasts := toasts + [ErrorToast(UNDO_FAILED_PREFIX + e)];
          r := Err(e);
      }
    }

    /** `getCurrentAddress`: the account's address, an empty one counting as none. */
    function GetCurrentAddress(): (a: Option<string>)
      reads this
      ensures a.Some? <==> account.Some? && account.value.address != ""
      ensures a.Some? ==> a.value == account.value.address
    {
      if account.Some? && account.value.address != "" then Some(account.value.address) else None
    }

    /** `isConnected`. */
    function IsConnected(): (connected: bool)
      reads this
      ensures connected <==> account.Some?
      ensures connected && Valid() ==> walletClient.Some?
    {
      account.Some?
    }

    /** `disconnect`: forgets the account and its wallet client. */
    method Disconnect()
      modifies this`account, this`walletClient
      ensures account == None && walletClient == None
      ensures Valid()
    {
      account := None;
      walletClient := None;
    }
  }

  /** After a disconnect a vote makes no request and reports the missing wallet client. */
  method VoteAfterDisconnect(api: ChainApiService, policyId: string, env: RpcEnv) returns (r: Result<string>)
    modifies api
    ensures r == Err(WALLET_CLIENT_MISSING)
    ensures api.rpcLog == old(api.rpcLog)
    ensures api.toasts == old(api.toasts) + [ErrorToast(VOTE_FAILED_PREFIX + WALLET_CLIENT_MISSING)]
  {
    api.Disconnect();
    r := api.VoteForPolicy(policyId, env);
  }

  /**
   * A vote and an undo of the same policy send different calldata: every
   * request past the chain id carries its own operation's selector.
   */
  lemma VoteAndUndoSendDifferentCalldata(api: ChainApiService, policyId: string, env: RpcEnv)
    requires api.walletClient.Some? && api.account.Some? && env.chainId.Ok?
    requires api.encodeParams([AbiParam("policyId", "string", policyId)]).Ok?
    ensures var params := [AbiParam("policyId", "string", policyId)];
      var vote := api.WriteRequests(VOTE_FOR_POLICY_FUNCTION, params, env);
      var undo := api.WriteRequests(UNDO_VOTE_FOR_POLICY_FUNCTION, params, env);
      |vote| == |undo| >= 2 && forall i :: 0 < i < |vote| ==> vote[i].data != undo[i].data
  {
    var params := [AbiParam("policyId", "string", policyId)];
    var vote := api.WriteRequests(VOTE_FOR_POLICY_FUNCTION, params, env);
    var undo := api.WriteRequests(UNDO_VOTE_FOR_POLICY_FUNCTION, params, env);
    forall i | 0 < i < |vote| ensures vote[i].data != undo[i].data {
      assert vote[i].data[..10] == VOTE_FOR_POLICY_FUNCTION;
      assert undo[i].data[..10] == UNDO_VOTE_FOR_POLICY_FUNCTION;
      assert VOTE_FOR_POLICY_FUNCTION[2] != UNDO_VOTE_FOR_POLICY_FUNCTION[2];
    }
  }

  /** With a wallet the order of a write is chain id, gas estimate, send, and the send carries the node's chain id and gas. */
  method WriteOrder(api: ChainApiService, selector: string, params: seq<AbiParam>, env: RpcEnv)
    returns (r: Result<CallResult>)
    requires api.Valid() && api.account.Some?
    requires env.chainId.Ok? && env.gas.Ok? && api.encodeParams(params).Ok?
    modifies api
    ensures |api.rpcLog| >= |old(api.rpcLog)| && api.rpcLog[..|old(api.rpcLog)|] == old(api.rpcLog)
    ensures var added := api.rpcLog[|old(api.rpcLog)|..];
      |added| == 3 && added[0] == GetChainId && added[1].EstimateGas? && added[2].SendTransaction? &&
      added[1].data == added[2].data && added[2].to == api.contractAddress &&
      added[2].chainId == env.chainId.value && added[2].gas == env.gas.value
  {
    r := api.CallContractFunction(selector, params, true, env);
  }
}
