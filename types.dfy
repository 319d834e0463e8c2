/** Shared vocabulary of the Ethereum account model: the explorer's transaction
    record, ledger operations, ERC20 transfers and sub-accounts, uids and the
    error codes the account raises. Amounts, fees and gas are unbounded
    integers (the library's BigInt); dates are integer timestamps. */
module EthTypes {

  datatype Option<+T> = None | Some(value: T) {
    /** The value, or `default` when absent (the library's getValueOr). */
    function GetOr(default: T): T {
      if Some? then value else default
    }
  }

  datatype Result<+T, +E> = Success(value: T) | Failure(error: E)

  /** The api::ErrorCode values this account raises or forwards; a code passed
      through from a collaborator (storage, explorer) is kept by its name. */
  datatype ErrorCode =
    | RUNTIME_ERROR
    | INVALID_ARGUMENT
    | NOT_ENOUGH_FUNDS
    | INVALID_DATE_FORMAT
    | FUTURE_WAS_SUCCESSFULL
    | ForwardedError(name: string)

  /** api::to_string of an error code: the enumerator's own name. */
  function ErrorCodeName(e: ErrorCode): string {
    match e
    case RUNTIME_ERROR => "RUNTIME_ERROR"
    case INVALID_ARGUMENT => "INVALID_ARGUMENT"
    case NOT_ENOUGH_FUNDS => "NOT_ENOUGH_FUNDS"
    case INVALID_DATE_FORMAT => "INVALID_DATE_FORMAT"
    case FUTURE_WAS_SUCCESSFULL => "FUTURE_WAS_SUCCESSFULL"
    case ForwardedError(name) => name
  }

  /** api::OperationType. */
  datatype OperationType = SEND | RECEIVE | NONE

  newtype uint8 = x: int | 0 <= x < 256

  datatype Block = Block(hash: string, height: int, time: int)

  /** One ERC20 transfer event attached to an explorer transaction. */
  datatype ERC20Transaction = ERC20Transaction(
    from: string,
    to: string,
    value: int,
    contractAddress: string,
    kind: OperationType)

  /** An internal (contract-call) transaction; only whether the list is empty
      matters to the interpreter. */
  datatype InternalTransaction = InternalTransaction(
    kind: OperationType,
    value: int,
    sender: string,
    receiver: string)

  /** EthereumLikeBlockchainExplorerTransaction. `status` is the execution
      status (0 = failed); `gasUsed` is absent while the transaction is not
      mined; `block` is absent while it is unconfirmed. */
  datatype ExplorerTransaction = ExplorerTransaction(
    hash: string,
    sender: string,
    receiver: string,
    value: int,
    gasPrice: int,
    gasLimit: int,
    gasUsed: Option<int>,
    status: int,
    block: Option<Block>,
    receivedAt: int,
    inputData: seq<uint8>,
    erc20Transactions: seq<ERC20Transaction>,
    internalTransactions: seq<InternalTransaction>)

  /** Deterministic identifiers. The library derives them by hashing; the
      model keeps the hashed fields as a symbolic term, so two uids are equal
      exactly when they are derived from equal fields. */
  datatype Uid =
    | OperationUid(accountUid: string, txHash: string, kind: OperationType)
    | Erc20OperationUid(parent: Uid, contractAddress: string, kind: OperationType)
    | Erc20AccountUid(ownerUid: string, contractAddress: string)
    | StoredUid(text: string)

  datatype ERC20Token = ERC20Token(
    name: string,
    symbol: string,
    contractAddress: string,
    decimals: int)

  /** A token sub-account, one per (contract, owner address). */
  datatype ERC20LikeAccount = ERC20LikeAccount(
    uid: Uid,
    token: ERC20Token,
    address: string)

  /** A token sub-operation derived from a parent operation and one transfer. */
  datatype ERC20LikeOperation = ERC20LikeOperation(
    uid: Uid,
    accountAddress: string,
    parentUid: Uid,
    transfer: ERC20Transaction)

  /** A sub-operation together with the uid of the sub-account it was put in. */
  datatype SubOperation = SubOperation(accountUid: Uid, operation: ERC20LikeOperation)

  /** EthereumOperationAttachedData: the sub-accounts created while
      interpreting a transaction and the sub-operations recorded for it. */
  datatype AttachedData = AttachedData(
    accounts: seq<ERC20LikeAccount>,
    erc20Operations: seq<SubOperation>)

  const EMPTY_ATTACHED_DATA := AttachedData([], [])

  /** A ledger operation built from one explorer transaction. */
  datatype Operation = Operation(
    uid: Uid,
    accountUid: string,
    kind: OperationType,
    amount: int,
    fees: Option<int>,
    senders: seq<string>,
    recipients: seq<string>,
    date: int,
    block: Option<Block>,
    transaction: ExplorerTransaction,
    attachedData: Option<AttachedData>)
}
