/**
 * `src/utils/blockchainService.js`: the `BlockchainService` object (wallet
 * connection state and the registry of contract event filters), the input
 * guards and gas arithmetic of `registerDocument`, the receipt check of
 * `waitForTransaction`, the network switch of `ensureCorrectNetwork` and the
 * error mapper `parseContractError`. Every call into the wallet, the
 * provider or the contract is an input: its result is given, not computed.
 */
module Service {
  import opened Wrappers
  import opened Text
  import opened Errors

  /** The Filecoin Calibration test network. */
  const CalibrationChainId: int := 314159
  const NetworkName: string := "Filecoin Calibration Testnet"
  /** The contract address configured in the service (a placeholder in the source). */
  const ContractAddress: string := "0x0000000000000000000000000000000000000000"

  /** The keys under which the event filters are stored. */
  const RegisteredEvent: string := "DocumentRegistered"
  const VerifiedEvent: string := "DocumentVerified"

  const NotInstalledMessage: string := "MetaMask is not installed. Please install MetaMask to continue."
  const LockedMessage: string := "MetaMask appears to be locked or having issues. Please unlock MetaMask and try again."
  const NoAccountsMessage: string := "No accounts found. Please connect your wallet."
  const NotInitializedMessage: string := "Contract not initialized. Please connect your wallet."
  const NotConnectedMessage: string := "Wallet not connected. Please connect your wallet first."
  const RequiredMessage: string := "CID and tag are required."
  const InvalidCidMessage: string := "Invalid CID provided."
  const InvalidTagMessage: string := "Invalid tag provided."
  const TransactionFailedMessage: string := "Transaction failed"

  const GasFailureMessage: string := "Transaction would fail. Please check if the document is already registered or if you have sufficient balance."
  const FundsMessage: string := "Insufficient FIL balance to complete the transaction."
  const RejectedMessage: string := "Transaction was rejected by user."
  const NetworkMessage: string := "Network error. Please check your connection and try again."
  const UnknownMessage: string := "An unknown error occurred while interacting with the blockchain."

  /** The objects ethers creates on connection, identified by the connection that made them. */
  datatype ProviderHandle = Web3Provider(session: nat)
  datatype SignerHandle = ProviderSigner(session: nat)
  datatype ContractHandle = ProofVaultContract(address: string, session: nat)

  /** The two event filters the service can register. */
  datatype EventFilter = DocumentRegisteredFilter | DocumentVerifiedFilter

  /** Requests sent to the injected wallet (`window.ethereum.request`). */
  datatype WalletRequest = ChainIdQuery | RequestAccounts | SwitchChain(chainId: int) | AddChain(chainId: int)

  /** The requests `ensureCorrectNetwork` sends and the error it throws, if any. */
  datatype NetworkStep = NetworkStep(requests: seq<WalletRequest>, error: Option<JsError>)

  /** The wallet error code meaning "this chain is unknown to the wallet". */
  const UnrecognizedChainCode: int := 4902

  /**
   * `ensureCorrectNetwork`, given the chain the provider reports and the
   * answers of the wallet to the switch and add requests.
   */
  function EnsureCorrectNetwork(chainId: int, switchError: Option<JsError>, addError: Option<JsError>): (r: NetworkStep)
    // A switch is requested only away from the Calibration network.
    ensures r.requests == [] <==> chainId == CalibrationChainId
    ensures chainId != CalibrationChainId ==> r.requests[0] == SwitchChain(CalibrationChainId)
    // The chain is added only when the switch failed because the wallet does not know it.
    ensures AddChain(CalibrationChainId) in r.requests <==>
      chainId != CalibrationChainId && switchError.Some? && switchError.value.code == Numeric(UnrecognizedChainCode)
    // Any other switch failure is rethrown unchanged.
    ensures chainId != CalibrationChainId && switchError.Some? && switchError.value.code != Numeric(UnrecognizedChainCode) ==>
      r.error == switchError
    ensures r.error.Some? <==>
      chainId != CalibrationChainId && switchError.Some?
      && (switchError.value.code != Numeric(UnrecognizedChainCode) || addError.Some?)
    // After an unknown-chain failure, the add request's own error (if any) is rethrown as is.
    ensures chainId != CalibrationChainId && switchError.Some? && switchError.value.code == Numeric(UnrecognizedChainCode) ==>
      r.error == addError
    // At most a switch and an add are sent.
    ensures |r.requests| <= 2
  {
    if chainId == CalibrationChainId then NetworkStep([], None)
    else match switchError
      case None => NetworkStep([SwitchChain(CalibrationChainId)], None)
      case Some(e) =>
        if e.code == Numeric(UnrecognizedChainCode) then
          NetworkStep([SwitchChain(CalibrationChainId), AddChain(CalibrationChainId)], addError)
        else NetworkStep([SwitchChain(CalibrationChainId)], Some(e))
  }

  /**
   * What the wallet answers during `connectWallet`: whether it is injected,
   * whether it answers `eth_chainId`, its answer to `eth_requestAccounts`, the
   * chain the provider reports, its answers to the switch and add requests,
   * and a number identifying the provider, signer and contract objects built.
   */
  datatype WalletEnv = WalletEnv(
    installed: bool,
    ready: bool,
    accounts: Result<seq<string>, JsError>,
    chainId: int,
    switchError: Option<JsError>,
    addError: Option<JsError>,
    session: nat)

  /** `connectWallet` gets far enough to store the first account. */
  predicate ReachesAccount(env: WalletEnv) {
    env.installed && env.ready && env.accounts.Ok? && env.accounts.value != []
  }

  function NetworkOf(env: WalletEnv): NetworkStep {
    EnsureCorrectNetwork(env.chainId, env.switchError, env.addError)
  }

  datatype ConnectInfo = ConnectInfo(account: string, network: string)

  /** `parseContractError`: the first matching rule names the message of the error thrown. */
  function ParseContractError(e: JsError): (r: JsError)
    ensures r == PlainError(r.message) && r.message != []
    ensures e.code == Named("UNPREDICTABLE_GAS_LIMIT") ==> r.message == GasFailureMessage
    ensures e.code == Named("INSUFFICIENT_FUNDS") ==> r.message == FundsMessage
    ensures e.code == Named("USER_REJECTED") ==> r.message == RejectedMessage
    ensures e.code == Named("NETWORK_ERROR") ==> r.message == NetworkMessage
    ensures !IsMappedCode(e.code) && e.reason != [] ==> r.message == e.reason
    ensures !IsMappedCode(e.code) && e.reason == [] && e.message != [] ==> r.message == e.message
    ensures !IsMappedCode(e.code) && e.reason == [] && e.message == [] ==> r.message == UnknownMessage
  {
    if e.code == Named("UNPREDICTABLE_GAS_LIMIT") then PlainError(GasFailureMessage)
    else if e.code == Named("INSUFFICIENT_FUNDS") then PlainError(FundsMessage)
    else if e.code == Named("USER_REJECTED") then PlainError(RejectedMessage)
    else if e.code == Named("NETWORK_ERROR") then PlainError(NetworkMessage)
    else if e.reason != [] then PlainError(e.reason)
    else if e.message != [] then PlainError(e.message)
    else PlainError(UnknownMessage)
  }

  /** The four error codes `parseContractError` translates. */
  predicate IsMappedCode(c: ErrorCode) {
    c == Named("UNPREDICTABLE_GAS_LIMIT") || c == Named("INSUFFICIENT_FUNDS")
    || c == Named("USER_REJECTED") || c == Named("NETWORK_ERROR")
  }

  /** An error the service throws itself passes through `parseContractError` unchanged. */
  lemma ParseKeepsPlainErrors(message: string)
    requires message != []
    ensures ParseContractError(PlainError(message)) == PlainError(message)
  {}

  /** Parsing is idempotent: a parsed error parses to itself. */
  lemma ParseIdempotent(e: JsError)
    ensures ParseContractError(ParseContractError(e)) == ParseContractError(e)
  {}

  /** The gas limit sent with a registration: the estimate plus 20%, in integer arithmetic. */
  function GasLimit(estimate: nat): (r: nat)
    ensures estimate <= r
    ensures 100 * r <= 120 * estimate < 100 * (r + 1)
  {
    estimate * 120 / 100
  }

  /** Calls the service makes on the contract and provider while registering. */
  datatype ContractCall =
    | EstimateRegisterGas(cid: string, tag: string)
    | GetGasPrice
    | SendRegister(cid: string, tag: string, gasLimit: nat, gasPrice: nat)

  /** The `options` argument of `registerDocument`; what it names overrides the computed values. */
  datatype TxOverrides = TxOverrides(gasLimit: Option<nat>, gasPrice: Option<nat>)

  /** The value `registerDocument` resolves with; gas price in wei (formatting is not modelled). */
  datatype Submission = Submission(transactionHash: string, estimatedGas: nat, gasPrice: nat)

  /** The calls made by one `registerDocument` and how it ends. */
  datatype Registration = Registration(calls: seq<ContractCall>, outcome: Result<Submission, JsError>)

  /** A transaction receipt as the provider returns it. */
  datatype Receipt = Receipt(transactionHash: string, status: int, blockNumber: nat, gasUsed: nat)

  datatype Confirmation = Confirmation(receipt: Receipt, blockNumber: nat, gasUsed: nat)

  /** The error JavaScript throws when a method is called on `null`. */
  function NullDereference(member: string): JsError {
    JsError("TypeError", "Cannot read properties of null (reading '" + member + "')", NoCode, "", None)
  }

  class BlockchainService {
    var provider: Option<ProviderHandle>
    var signer: Option<SignerHandle>
    var contract: Option<ContractHandle>
    var isConnected: bool
    var account: Option<string>
    var eventListeners: map<string, EventFilter>

    /**
     * What every operation keeps: a connected service has all its handles and
     * an account; filters are registered only while a contract exists, each
     * under its own event name.
     */
    ghost predicate Valid()
      reads this
    {
      && (isConnected ==> provider.Some? && signer.Some? && contract.Some? && account.Some?)
      && (eventListeners != map[] ==> contract.Some?)
      && (forall name :: name in eventListeners ==>
            (name == RegisteredEvent && eventListeners[name] == DocumentRegisteredFilter)
            || (name == VerifiedEvent && eventListeners[name] == DocumentVerifiedFilter))
    }

    /** A service with nothing connected and no filters. */
    ghost predicate Disconnected()
      reads this
    {
      provider == None && signer == None && contract == None && !isConnected
      && account == None && eventListeners == map[]
    }

    constructor ()
      ensures Valid() && Disconnected()
    {
      provider, signer, contract := None, None, None;
      isConnected, account := false, None;
      eventListeners := map[];
    }

    /**
     * `connectWallet`. Returns how it ends and the wallet requests it sent.
     * Registering the wallet's own event handlers is not modelled.
     */
    method ConnectWallet(env: WalletEnv) returns (r: Result<ConnectInfo, JsError>, requests: seq<WalletRequest>)
      requires Valid()
      modifies this
      ensures Valid()
      ensures eventListeners == old(eventListeners)
      // Failures before the accounts are known change nothing.
      ensures !ReachesAccount(env) ==> r.Err? && unchanged(this)
      ensures !env.installed ==> r == Err(PlainError(NotInstalledMessage)) && requests == []
      ensures env.installed && !env.ready ==> r == Err(PlainError(LockedMessage)) && requests == [ChainIdQuery]
      ensures env.installed && env.ready && env.accounts.Err? ==>
        r == Err(env.accounts.error) && requests == [ChainIdQuery, RequestAccounts]
      ensures env.installed && env.ready && env.accounts == Ok([]) ==>
        r == Err(PlainError(NoAccountsMessage)) && requests == [ChainIdQuery, RequestAccounts]
      // Once accounts are known, provider, signer and account are replaced even if the network step fails.
      ensures ReachesAccount(env) ==>
        && provider == Some(Web3Provider(env.session))
        && signer == Some(ProviderSigner(env.session))
        && account == Some(env.accounts.value[0])
        && requests == [ChainIdQuery, RequestAccounts] + NetworkOf(env).requests
      ensures ReachesAccount(env) && NetworkOf(env).error.Some? ==>
        r == Err(NetworkOf(env).error.value) && contract == old(contract) && isConnected == old(isConnected)
      ensures ReachesAccount(env) && NetworkOf(env).error.None? ==>
        && r == Ok(ConnectInfo(env.accounts.value[0], NetworkName))
        && contract == Some(ProofVaultContract(ContractAddress, env.session))
        && isConnected
    {
      if !env.installed {
        return Err(PlainError(NotInstalledMessage)), [];
      }
      requests := [ChainIdQuery];
      if !env.ready {
        return Err(PlainError(LockedMessage)), requests;
      }
      requests := requests + [RequestAccounts];
      if env.accounts.Err? {
        return Err(env.accounts.error), requests;
      }
      var accounts := env.accounts.value;
      if |accounts| == 0 {
        return Err(PlainError(NoAccountsMessage)), requests;
      }
      provider := Some(Web3Provider(env.session));
      signer := Some(ProviderSigner(env.session));
      account := Some(accounts[0]);
      var network := EnsureCorrectNetwork(env.chainId, env.switchError, env.addError);
      requests := requests + network.requests;
      if network.error.Some? {
        return Err(network.error.value), requests;
      }
      contract := Some(ProofVaultContract(ContractAddress, env.session));
      isConnected := true;
      r := Ok(ConnectInfo(accounts[0], NetworkName));
    }

    /** `disconnectWallet`: every handle dropped and every event filter forgotten. */
    method DisconnectWallet()
      modifies this
      ensures Valid() && Disconnected()
    {
      provider, signer, contract := None, None, None;
      isConnected := false;
      account := None;
      eventListeners := map[];
    }

    /**
     * `handleAccountsChanged`: no account left disconnects; a new first
     * account is stored and a reconnection started; the same account changes
     * nothing. The reconnection is not awaited, and its failure is not reported.
     */
    method HandleAccountsChanged(accounts: seq<string>, env: WalletEnv)
      requires Valid()
      modifies this
      ensures Valid()
      ensures accounts == [] ==> Disconnected()
      ensures accounts != [] && Some(accounts[0]) == old(account) ==> unchanged(this)
      ensures accounts != [] && Some(accounts[0]) != old(account) ==>
        && eventListeners == old(eventListeners)
        && account == (if ReachesAccount(env) then Some(env.accounts.value[0]) else Some(accounts[0]))
      // The reconnection has the effects of `connectWallet`: new handles once the accounts are known,
      // a new contract only when the network step succeeds.
      ensures accounts != [] && Some(accounts[0]) != old(account) && ReachesAccount(env) ==>
        && provider == Some(Web3Provider(env.session))
        && signer == Some(ProviderSigner(env.session))
      ensures accounts != [] && Some(accounts[0]) != old(account) && ReachesAccount(env) && NetworkOf(env).error.None? ==>
        contract == Some(ProofVaultContract(ContractAddress, env.session)) && isConnected
      ensures accounts != [] && Some(accounts[0]) != old(account) && ReachesAccount(env) && NetworkOf(env).error.Some? ==>
        contract == old(contract) && isConnected == old(isConnected)
      // A reconnection that fails before the accounts are known keeps every handle.
      ensures accounts != [] && Some(accounts[0]) != old(account) && !ReachesAccount(env) ==>
        && provider == old(provider) && signer == old(signer)
        && contract == old(contract) && isConnected == old(isConnected)
    {
      if |accounts| == 0 {
        DisconnectWallet();
      } else if Some(accounts[0]) != account {
        account := Some(accounts[0]);
        var _, _ := ConnectWallet(env);
      }
    }

    /** `handleDisconnect`: the wallet went away. */
    method HandleDisconnect()
      modifies this
      ensures Valid() && Disconnected()
    {
      DisconnectWallet();
    }

    /** `listenForDocumentRegistered`: stores the filter, replacing an earlier one. */
    method ListenForDocumentRegistered() returns (err: Option<JsError>)
      requires Valid()
      modifies this`eventListeners
      ensures Valid()
      ensures contract.None? ==> err == Some(PlainError(NotInitializedMessage)) && eventListeners == old(eventListeners)
      ensures contract.Some? ==> err == None && eventListeners == old(eventListeners)[RegisteredEvent := DocumentRegisteredFilter]
    {
      if contract.None? {
        return Some(PlainError(NotInitializedMessage));
      }
      eventListeners := eventListeners[RegisteredEvent := DocumentRegisteredFilter];
      err := None;
    }

    /** `listenForDocumentVerified`: stores the filter, replacing an earlier one. */
    method ListenForDocumentVerified() returns (err: Option<JsError>)
      requires Valid()
      modifies this`eventListeners
      ensures Valid()
      ensures contract.None? ==> err == Some(PlainError(NotInitializedMessage)) && eventListeners == old(eventListeners)
      ensures contract.Some? ==> err == None && eventListeners == old(eventListeners)[VerifiedEvent := DocumentVerifiedFilter]
    {
      if contract.None? {
        return Some(PlainError(NotInitializedMessage));
      }
      eventListeners := eventListeners[VerifiedEvent := DocumentVerifiedFilter];
      err := None;
    }

    /**
     * `stopListening`: returns the filter whose listeners are removed from the
     * contract, if one was registered under `eventName`. The invariant
     * guarantees a contract exists whenever a filter does, so the call on
     * `this.contract` never meets `null`.
     */
    method StopListening(eventName: string) returns (detached: Option<EventFilter>)
      requires Valid()
      modifies this`eventListeners
      ensures Valid()
      ensures eventName !in old(eventListeners) ==> detached == None && eventListeners == old(eventListeners)
      ensures eventName in old(eventListeners) ==>
        detached == Some(old(eventListeners)[eventName]) && eventListeners == old(eventListeners) - {eventName}
    {
      if eventName in eventListeners {
        assert contract.Some?;
        detached := Some(eventListeners[eventName]);
        eventListeners := eventListeners - {eventName};
      } else {
        detached := None;
      }
    }

    /**
     * `registerDocument`, given the gas estimate, the gas price and the
     * answer to the transaction that the contract and provider return. Every
     * failure, the service's own guards included, is thrown through
     * `parseContractError`.
     */
    function RegisterDocument(
      cid: string, tag: string, overrides: TxOverrides,
      estimate: Result<nat, JsError>, price: Result<nat, JsError>, send: Result<string, JsError>): (r: Registration)
      reads this
      // A disconnected service is refused before its inputs are looked at.
      ensures !isConnected || contract.None? ==> r == Registration([], Err(PlainError(NotConnectedMessage)))
      ensures isConnected && contract.Some? && (cid == [] || tag == []) ==>
        r == Registration([], Err(PlainError(RequiredMessage)))
      // Present but blank inputs are refused with their own messages, the CID first.
      ensures isConnected && contract.Some? && cid != [] && tag != [] && IsBlank(cid) ==>
        r == Registration([], Err(PlainError(InvalidCidMessage)))
      ensures isConnected && contract.Some? && tag != [] && !IsBlank(cid) && IsBlank(tag) ==>
        r == Registration([], Err(PlainError(InvalidTagMessage)))
      // Nothing reaches the chain unless connected and both inputs are non-blank.
      ensures r.calls != [] <==> isConnected && contract.Some? && !IsBlank(cid) && !IsBlank(tag)
      ensures r.calls != [] ==> r.calls[0] == EstimateRegisterGas(cid, tag)
      // The transaction goes out with the 20% buffer unless the caller fixed the limit.
      ensures |r.calls| == 3 ==>
        && estimate.Ok? && price.Ok?
        && r.calls[2] == SendRegister(cid, tag, overrides.gasLimit.GetOr(GasLimit(estimate.value)),
                                      overrides.gasPrice.GetOr(price.value))
      // Whichever chain call throws first is reported through `parseContractError`.
      ensures r.calls != [] && estimate.Err? ==>
        r == Registration([EstimateRegisterGas(cid, tag)], Err(ParseContractError(estimate.error)))
      ensures r.calls != [] && estimate.Ok? && price.Err? ==>
        r == Registration([EstimateRegisterGas(cid, tag), GetGasPrice], Err(ParseContractError(price.error)))
      ensures |r.calls| == 3 && send.Err? ==> r.outcome == Err(ParseContractError(send.error))
      // Once the estimate and the price are known, the transaction is sent.
      ensures isConnected && contract.Some? && !IsBlank(cid) && !IsBlank(tag) && estimate.Ok? && price.Ok? ==>
        r.calls == [EstimateRegisterGas(cid, tag), GetGasPrice,
                    SendRegister(cid, tag, overrides.gasLimit.GetOr(GasLimit(estimate.value)),
                                 overrides.gasPrice.GetOr(price.value))]
      ensures r.outcome.Ok? <==> |r.calls| == 3 && send.Ok?
      ensures r.outcome.Ok? ==> r.outcome.value == Submission(send.value, estimate.value, price.value)
      ensures r.outcome.Err? ==> r.outcome.error == PlainError(r.outcome.error.message) && r.outcome.error.message != []
    {
      if !isConnected || contract.None? then Registration([], Err(ParseContractError(PlainError(NotConnectedMessage))))
      else if cid == [] || tag == [] then Registration([], Err(ParseContractError(PlainError(RequiredMessage))))
      else if IsBlank(cid) then Registration([], Err(ParseContractError(PlainError(InvalidCidMessage))))
      else if IsBlank(tag) then Registration([], Err(ParseContractError(PlainError(InvalidTagMessage))))
      else
        var estimateCall := EstimateRegisterGas(cid, tag);
        match estimate
        case Err(e) => Registration([estimateCall], Err(ParseContractError(e)))
        case Ok(gas) =>
          match price
          case Err(e) => Registration([estimateCall, GetGasPrice], Err(ParseContractError(e)))
          case Ok(p) =>
            var sendCall := SendRegister(cid, tag, overrides.gasLimit.GetOr(GasLimit(gas)), overrides.gasPrice.GetOr(p));
            match send
            case Err(e) => Registration([estimateCall, GetGasPrice, sendCall], Err(ParseContractError(e)))
            case Ok(hash) => Registration([estimateCall, GetGasPrice, sendCall], Ok(Submission(hash, gas, p)))
    }

    /**
     * `waitForTransaction`, given what `provider.waitForTransaction` returns
     * or throws. Only a receipt with status 1 is a success.
     */
    function WaitForTransaction(receipt: Result<Receipt, JsError>): (r: Result<Confirmation, JsError>)
      reads this
      ensures r.Ok? <==> provider.Some? && receipt.Ok? && receipt.value.status == 1
      ensures r.Ok? ==> r.value == Confirmation(receipt.value, receipt.value.blockNumber, receipt.value.gasUsed)
      ensures provider.Some? && receipt.Ok? && receipt.value.status != 1 ==> r == Err(PlainError(TransactionFailedMessage))
      ensures provider.Some? && receipt.Err? ==> r == Err(receipt.error)
    {
      if provider.None? then Err(NullDereference("waitForTransaction"))
      else match receipt
        case Err(e) => Err(e)
        case Ok(rc) =>
          if rc.status == 1 then Ok(Confirmation(rc, rc.blockNumber, rc.gasUsed))
          else Err(PlainError(TransactionFailedMessage))
    }
  }
}
