/** The account's build function for outgoing transactions: it validates the
    request against the balance and fills in an unsigned transaction. The
    balance and the nonce are fetched by collaborators; the model takes what
    they returned (a value or the error they raised) as inputs. */
module TransactionBuilder {
  import opened EthTypes

  /** EthereumLikeTransactionBuildRequest: absent fields are `None`. */
  datatype BuildRequest = BuildRequest(
    toAddress: string,
    value: Option<int>,
    gasLimit: Option<int>,
    gasPrice: Option<int>,
    wipe: bool,
    inputData: seq<uint8>)

  /** The unsigned transaction the builder returns. */
  datatype UnsignedTransaction = UnsignedTransaction(
    value: int,
    inputData: seq<uint8>,
    gasLimit: int,
    gasPrice: int,
    receiver: string,
    sender: string,
    nonce: int)

  /** The request names a gas limit, a gas price, and a value unless it
      wipes the account. */
  predicate WellFormed(request: BuildRequest) {
    request.gasLimit.Some? && request.gasPrice.Some? && (request.value.Some? || request.wipe)
  }

  /** The most the balance can send once the worst-case fee is paid. */
  function MaxSendable(balance: int, request: BuildRequest): int
    requires WellFormed(request)
  {
    balance - request.gasLimit.value * request.gasPrice.value
  }

  /** What the request asks to send: nothing is reserved for a wipe. */
  function AmountToSend(request: BuildRequest): int
    requires WellFormed(request)
  {
    if request.wipe then 0 else request.value.value
  }

  predicate Funded(balance: int, request: BuildRequest)
    requires WellFormed(request)
  {
    AmountToSend(request) <= MaxSendable(balance, request)
  }

  /** The build function. The balance is fetched first, so its failure is
      the one reported; then a malformed request is INVALID_ARGUMENT, an
      unaffordable one NOT_ENOUGH_FUNDS; only then is the nonce fetched. A
      wipe sends everything left after the worst-case fee. */
  function Build(request: BuildRequest, balance: Result<int, ErrorCode>, nonce: Result<int, ErrorCode>, address: string)
    : (r: Result<UnsignedTransaction, ErrorCode>)
    ensures balance.Failure? ==> r == Failure(balance.error)
    ensures balance.Success? && !WellFormed(request) ==> r == Failure(INVALID_ARGUMENT)
    ensures balance.Success? && WellFormed(request) && !Funded(balance.value, request) ==> r == Failure(NOT_ENOUGH_FUNDS)
    ensures balance.Success? && WellFormed(request) && Funded(balance.value, request) && nonce.Failure?
            ==> r == Failure(nonce.error)
  {
    if balance.Failure? then Failure(balance.error)
    else if request.gasLimit.None? || request.gasPrice.None? || (request.value.None? && !request.wipe) then
      Failure(INVALID_ARGUMENT)
    else
      var maxPossibleAmountToSend := balance.value - request.gasLimit.value * request.gasPrice.value;
      var amountToSend := if request.wipe then 0 else request.value.value;
      if maxPossibleAmountToSend < amountToSend then Failure(NOT_ENOUGH_FUNDS)
      else if nonce.Failure? then Failure(nonce.error)
      else
        Success(UnsignedTransaction(
          if request.wipe then maxPossibleAmountToSend else request.value.value,
          request.inputData,
          request.gasLimit.value,
          request.gasPrice.value,
          request.toAddress,
          address,
          nonce.value))
  }

  // ---------------------------------------------------------------------
  // Lemmas

  /** A transaction is built exactly when every fetch succeeded and the
      request is well formed and affordable. */
  lemma BuildSucceedsIff(request: BuildRequest, balance: Result<int, ErrorCode>, nonce: Result<int, ErrorCode>, address: string)
    ensures Build(request, balance, nonce, address).Success?
            <==> balance.Success? && nonce.Success? && WellFormed(request) && Funded(balance.value, request)
  {
  }

  /** A built transaction goes from the account's address to the requested
      receiver with the requested gas, data and the fetched nonce; it never
      spends more than the balance, worst-case fee included. */
  lemma BuiltTransactionFields(request: BuildRequest, balance: Result<int, ErrorCode>, nonce: Result<int, ErrorCode>, address: string)
    requires Build(request, balance, nonce, address).Success?
    ensures var tx := Build(request, balance, nonce, address).value;
            && WellFormed(request)
            && tx.sender == address && tx.receiver == request.toAddress
            && tx.gasLimit == request.gasLimit.value && tx.gasPrice == request.gasPrice.value
            && tx.inputData == request.inputData && tx.nonce == nonce.value
            && tx.value + tx.gasLimit * tx.gasPrice <= balance.value
  {
  }

  /** A wipe sends exactly what is left once the worst-case fee is paid, so
      value plus worst-case fee is the whole balance; a non-wipe sends the
      requested value. */
  lemma WipeSendsEverything(request: BuildRequest, balance: Result<int, ErrorCode>, nonce: Result<int, ErrorCode>, address: string)
    requires Build(request, balance, nonce, address).Success?
    ensures var tx := Build(request, balance, nonce, address).value;
            && (request.wipe ==> tx.value + tx.gasLimit * tx.gasPrice == balance.value && tx.value >= 0)
            && (!request.wipe ==> tx.value == request.value.value)
  {
  }

  /** A request whose value is ignored by the wipe flag builds the same
      transaction whatever value it names. */
  lemma WipeIgnoresValue(request: BuildRequest, v: Option<int>, balance: Result<int, ErrorCode>, nonce: Result<int, ErrorCode>, address: string)
    requires request.wipe
    ensures Build(request, balance, nonce, address) == Build(request.(value := v), balance, nonce, address)
  {
  }
}
