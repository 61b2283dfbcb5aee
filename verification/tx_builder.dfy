/**
  * Envelope building and submission of the fee-payer relay (`buildTx`, `sendMsg`).
  * The ledger-native envelope is an abstract record of the fields the relay sets;
  * signing, encoding and broadcasting are opaque library and network calls whose
  * outcomes are given as inputs.
  */
module TxBuilder {
  import opened Common
  import opened FeeEstimation

  /** A secp256k1 public key. */
  datatype PubKey = PubKey(bytes: seq<bv8>)

  /** The account address derived from a public key (the hashing itself is not modelled). */
  datatype Address = AddressOf(pubKey: PubKey)

  /** The relay's fixed identity and the chain it signs for. */
  datatype Relay = Relay(pubKey: PubKey, chainId: string) {
    /** `sdk.AccAddress(pubKey.Address())`, the paying account. */
    function FeePayerAddress(): (a: Address) {
      AddressOf(pubKey)
    }
  }

  /** The embedded Ethereum transaction message, as far as the relay touches it. */
  datatype EthereumMsg = EthereumMsg(gas: nat, from: string, ethTx: seq<bv8>)

  /** A Keccak-256 transaction hash, kept symbolic. */
  datatype Hash = Keccak256(preimage: seq<bv8>)

  /** `AsTransaction().Hash()`: a function of the Ethereum transaction, not of `From`. */
  function TxHash(m: EthereumMsg): (h: Hash) {
    Keccak256(m.ethTx)
  }

  datatype Coin = Coin(denom: string, amount: int)

  datatype ExtensionOption = ExtensionOptionsEthereumTx

  datatype SignMode = SignModeDirect

  /** What the signature commits to besides the envelope. */
  datatype SignerData = SignerData(chainId: string, accountNumber: nat, sequence: nat)

  /** The fee payer's signature; the signature bytes themselves are not modelled. */
  datatype Signature = Signature(pubKey: PubKey, mode: SignMode, sequence: nat, signerData: SignerData)

  /** The signed ledger-native envelope: exactly the fields `buildTx` sets. */
  datatype CosmosTx = CosmosTx(
    extensionOptions: seq<ExtensionOption>,
    gasLimit: nat,
    fees: seq<Coin>,
    msgs: seq<EthereumMsg>,
    feePayer: Address,
    signatures: seq<Signature>)

  /** The opaque library calls of `buildTx` and `sendMsg`, in the order they are made. */
  datatype LibraryCall =
    | NewTxBuilder             // the builder is not an extension-options builder
    | NewAnyWithValue          // packing the Ethereum extension option
    | SetMsgs
    | SetPlaceholderSignature  // the first SetSignatures, before signing
    | SignWithPrivKey
    | SetSignatures            // the second SetSignatures, with the real signature
    | TxEncoder

  /** The node's answer to a synchronous broadcast. */
  datatype TxResponse = TxResponse(codespace: string, code: nat, rawLog: string)

  /** What `BroadcastTx` returns: a response, or an error possibly alongside a response. */
  datatype BroadcastAnswer = Accepted(resp: TxResponse) | Failed(partial: Option<TxResponse>)

  /** The answers of every external collaborator that one `sendMsg` may consult. */
  datatype Collaborators = Collaborators(
    fees: FeeQueries,                // the fee estimator's ledger queries
    failing: Option<LibraryCall>,    // the first library call that fails, if any
    broadcast: BroadcastAnswer)      // the broadcaster's answer

  datatype SendError = FeeQueryFailed(cause: FeeError) | LibraryFailed(call: LibraryCall) | BroadcastFailed

  /**
    * The result of `sendMsg` as Go's pair (txResp, err), together with the envelope that
    * was handed to the broadcaster, if one was.
    */
  datatype SendResult = SendResult(resp: Option<TxResponse>, err: Option<SendError>, broadcast: Option<CosmosTx>)

  predicate FailsBeforeFee(failing: Option<LibraryCall>) {
    failing == Some(NewTxBuilder) || failing == Some(NewAnyWithValue)
  }

  predicate FailsAfterFee(failing: Option<LibraryCall>) {
    failing.Some? && failing.value in {SetMsgs, SetPlaceholderSignature, SignWithPrivKey, SetSignatures}
  }

  /** The fee list of the envelope: no entry at all unless the amount is positive. */
  function FeeLine(evmDenom: string, amount: int): (coins: seq<Coin>)
    ensures |coins| <= 1
    ensures coins == [] <==> amount <= 0
    ensures forall c :: c in coins ==> c.denom == evmDenom && c.amount == amount && c.amount > 0
  {
    if amount > 0 then [Coin(evmDenom, amount)] else []
  }

  /**
    * The fee list as written: `feeAmt.Sign()` on an `sdkmath.Int` whose big integer is
    * nil dereferences nil (None here: the worker goroutine panics).
    */
  function FeeLineAsWritten(evmDenom: string, amount: SdkInt): (coins: Option<seq<Coin>>)
    ensures coins.None? <==> amount.NilInt?
    ensures amount.SdkInt? ==> coins == Some(FeeLine(evmDenom, amount.value))
  {
    match amount
    case NilInt => None
    case SdkInt(v) => Some(FeeLine(evmDenom, v))
  }

  /**
    * `buildTx`: the envelope for message `m`, paid for and signed by the relay with the
    * given account number and sequence.
    */
  function BuildTx(relay: Relay, m: EthereumMsg, evmDenom: string, accountNumber: nat, accountSequence: nat,
                   fees: FeeQueries, failing: Option<LibraryCall>): (r: Result<CosmosTx, SendError>)
    requires !DividesByZero(fees)
    ensures r.Ok? <==> !FailsBeforeFee(failing) && CalculateFeePayerFees(m.gas, fees).Fee? && !FailsAfterFee(failing)
    ensures FailsBeforeFee(failing) ==> r == Err(LibraryFailed(failing.value))
    ensures !FailsBeforeFee(failing) && CalculateFeePayerFees(m.gas, fees).FeeFailure? ==>
      r == Err(FeeQueryFailed(CalculateFeePayerFees(m.gas, fees).error))
    ensures !FailsBeforeFee(failing) && CalculateFeePayerFees(m.gas, fees).Fee? && FailsAfterFee(failing) ==>
      r == Err(LibraryFailed(failing.value))
    ensures r.Err? && r.error.LibraryFailed? ==> failing == Some(r.error.call)
    ensures r.Ok? ==>
      var tx := r.value;
      && tx.extensionOptions == [ExtensionOptionsEthereumTx]
      && tx.gasLimit == m.gas
      && tx.fees == FeeLine(evmDenom, CalculateFeePayerFees(m.gas, fees).amount)
      && tx.msgs == [m.(from := "")]
      && tx.feePayer == relay.FeePayerAddress()
      && |tx.signatures| == 1
      && tx.signatures[0].pubKey == relay.pubKey
      && tx.signatures[0].sequence == accountSequence
      && tx.signatures[0].signerData == SignerData(relay.chainId, accountNumber, accountSequence)
  {
    if FailsBeforeFee(failing) then Err(LibraryFailed(failing.value))
    else match CalculateFeePayerFees(m.gas, fees)
      case FeeFailure(e) => Err(FeeQueryFailed(e))
      case Fee(amount) =>
        if FailsAfterFee(failing) then Err(LibraryFailed(failing.value))
        else
          var signerData := SignerData(relay.chainId, accountNumber, accountSequence);
          Ok(CosmosTx(
            [ExtensionOptionsEthereumTx],
            m.gas,
            FeeLine(evmDenom, amount),
            [m.(from := "")],
            relay.FeePayerAddress(),
            [Signature(relay.pubKey, SignModeDirect, accountSequence, signerData)]))
  }

  /** With a zero base fee a successfully built envelope carries no fee entry at all. */
  lemma ZeroBaseFeeOmitsFeeLine(relay: Relay, m: EthereumMsg, evmDenom: string, accountNumber: nat,
                                accountSequence: nat, fees: FeeQueries, failing: Option<LibraryCall>)
    requires fees.latestHeight.Some? && fees.baseFee == BaseFeeIs(0)
    requires failing.None? || failing == Some(TxEncoder)
    ensures BuildTx(relay, m, evmDenom, accountNumber, accountSequence, fees, failing).Ok?
    ensures BuildTx(relay, m, evmDenom, accountNumber, accountSequence, fees, failing).value.fees == []
  {
  }

  /**
    * As written, the zero-base-fee path crashes instead: the estimate reports no error but
    * its amount holds a nil big integer, which the fee-list step dereferences.
    */
  lemma ZeroBaseFeeDereferencesNil(gas: nat, evmDenom: string, fees: FeeQueries)
    requires fees.latestHeight.Some? && fees.baseFee == BaseFeeIs(0)
    ensures CalculateFeePayerFeesAsWritten(gas, fees).1.None?
    ensures FeeLineAsWritten(evmDenom, CalculateFeePayerFeesAsWritten(gas, fees).0).None?
    ensures FeeLine(evmDenom, CalculateFeePayerFees(gas, fees).amount) == []
  {
  }

  /**
    * `sendMsg`: build the envelope, encode it and broadcast it synchronously.
    * Nothing is broadcast unless the envelope was built and encoded.
    */
  function SendMsg(relay: Relay, m: EthereumMsg, evmDenom: string, accountNumber: nat, accountSequence: nat,
                   world: Collaborators): (r: SendResult)
    requires !DividesByZero(world.fees)
    ensures r.err.None? ==> r.resp.Some? && r.broadcast.Some?
    ensures r.broadcast.Some? <==>
      BuildTx(relay, m, evmDenom, accountNumber, accountSequence, world.fees, world.failing).Ok? &&
      world.failing != Some(TxEncoder)
    ensures r.broadcast.Some? ==>
      r.broadcast.value == BuildTx(relay, m, evmDenom, accountNumber, accountSequence, world.fees, world.failing).value
    ensures r.broadcast.None? ==> r.resp.None? && r.err.Some?
    // Nothing broadcast: the error is buildTx's error unchanged, or the encoder's.
    ensures BuildTx(relay, m, evmDenom, accountNumber, accountSequence, world.fees, world.failing).Err? ==>
      r == SendResult(None, Some(BuildTx(relay, m, evmDenom, accountNumber, accountSequence, world.fees, world.failing).error), None)
    ensures BuildTx(relay, m, evmDenom, accountNumber, accountSequence, world.fees, world.failing).Ok? &&
            world.failing == Some(TxEncoder) ==>
      r == SendResult(None, Some(LibraryFailed(TxEncoder)), None)
    ensures r.broadcast.Some? ==>
      match world.broadcast
      case Accepted(resp) => r.resp == Some(resp) && r.err.None?
      case Failed(partial) => r.resp == partial && r.err == Some(BroadcastFailed)
    ensures CalculateFeePayerFees(m.gas, world.fees).FeeFailure? ==> r.broadcast.None? && r.err.Some?
  {
    match BuildTx(relay, m, evmDenom, accountNumber, accountSequence, world.fees, world.failing)
    case Err(e) => SendResult(None, Some(e), None)
    case Ok(tx) =>
      if world.failing == Some(TxEncoder) then SendResult(None, Some(LibraryFailed(TxEncoder)), None)
      else match world.broadcast
        case Accepted(resp) => SendResult(Some(resp), None, Some(tx))
        case Failed(partial) => SendResult(partial, Some(BroadcastFailed), Some(tx))
  }
}
