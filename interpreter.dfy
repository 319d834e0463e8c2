/** The transaction interpreter as a specification: which ledger operations
    one explorer transaction yields for the watched address, with which
    amounts and fees, and which of them carries the ERC20 attachment. The
    account class (account.dfy) implements it with the source's mutable
    `operation`/`result` flag and is proved equal to `Interpret`. */
module Interpreter {
  import opened EthTypes
  import opened Erc20Registry

  /** The kinds of the operations emitted, in order: SEND when the address
      sent the transaction, then RECEIVE when it received it; when it did
      neither, one NONE carrier, but only if the transaction has token
      transfers or internal transactions. */
  function OperationKinds(address: string, tx: ExplorerTransaction): (r: seq<OperationType>)
    ensures (SEND in r <==> address == tx.sender) && (RECEIVE in r <==> address == tx.receiver)
    ensures NONE in r ==> r == [NONE]
    ensures |r| <= 2 && forall j, k :: 0 <= j < k < |r| ==> r[j] != r[k]
  {
    (if address == tx.sender then [SEND] else [])
    + (if address == tx.receiver then [RECEIVE] else [])
    + (if address != tx.sender && address != tx.receiver
          && (|tx.erc20Transactions| > 0 || |tx.internalTransactions| > 0)
       then [NONE] else [])
  }

  /** True when the transaction failed on chain and is confirmed. */
  predicate FailedOnChain(tx: ExplorerTransaction) {
    tx.status == 0 && tx.block.Some?
  }

  /** The operation of kind `kind` before any ERC20 attachment. */
  function BaseOperation(accountUid: string, tx: ExplorerTransaction, kind: OperationType): (r: Operation)
    ensures r.kind == kind && r.uid == OperationUid(accountUid, tx.hash, kind) && r.attachedData.None?
    ensures FailedOnChain(tx) ==> r.amount == 0
    ensures !FailedOnChain(tx) ==> r.amount == tx.value
  {
    Operation(
      OperationUid(accountUid, tx.hash, kind),
      accountUid,
      kind,
      if FailedOnChain(tx) then 0 else tx.value,
      Some(tx.gasPrice * tx.gasUsed.GetOr(0)),
      [tx.sender],
      [tx.receiver],
      tx.receivedAt,
      tx.block,
      tx,
      None)
  }

  datatype Interpretation = Interpretation(operations: seq<Operation>, registry: seq<ERC20LikeAccount>)

  /** The operations emitted for `tx` and the sub-account registry after
      interpreting it: the first operation carries the attached data built by
      the ERC20 passes; the later ones carry none. */
  function Interpret(address: string, accountUid: string, registry: seq<ERC20LikeAccount>, tx: ExplorerTransaction): (r: Interpretation)
    ensures |r.operations| == |OperationKinds(address, tx)|
    ensures |registry| <= |r.registry| && r.registry[..|registry|] == registry
    ensures r.operations == [] ==> r.registry == registry
  {
    var kinds := OperationKinds(address, tx);
    if kinds == [] then Interpretation([], registry)
    else
      var first := BaseOperation(accountUid, tx, kinds[0]);
      var st := ApplyAll(Erc20State(registry, EMPTY_ATTACHED_DATA), address, accountUid, first.uid, tx.erc20Transactions);
      Interpretation(
        [first.(attachedData := Some(st.data))]
          + seq(|kinds| - 1, i requires 0 <= i < |kinds| - 1 => BaseOperation(accountUid, tx, kinds[i + 1])),
        st.registry)
  }

  // ---------------------------------------------------------------------
  // Lemmas

  /** Operation `i` of the interpretation: the base operation of the `i`-th
      kind, with the attached data on the first one only. */
  lemma InterpretAt(address: string, accountUid: string, registry: seq<ERC20LikeAccount>, tx: ExplorerTransaction, i: nat)
    requires i < |OperationKinds(address, tx)|
    ensures var kinds := OperationKinds(address, tx);
            var ops := Interpret(address, accountUid, registry, tx).operations;
            && |ops| == |kinds|
            && ops[i].(attachedData := None) == BaseOperation(accountUid, tx, kinds[i])
            && (i > 0 ==> ops[i].attachedData.None?)
            && (i == 0 ==> ops[i].attachedData.Some?)
  {
    var kinds := OperationKinds(address, tx);
    var first := BaseOperation(accountUid, tx, kinds[0]);
    var st := ApplyAll(Erc20State(registry, EMPTY_ATTACHED_DATA), address, accountUid, first.uid, tx.erc20Transactions);
    var rest := seq(|kinds| - 1, j requires 0 <= j < |kinds| - 1 => BaseOperation(accountUid, tx, kinds[j + 1]));
    var ops := [first.(attachedData := Some(st.data))] + rest;
    assert Interpret(address, accountUid, registry, tx).operations == ops;
    if i > 0 {
      assert ops[i] == rest[i - 1];
    }
  }

  /** The emitted kinds, case by case: SEND then RECEIVE for a
      self-transfer; the one side that matches otherwise; a NONE carrier
      exactly when neither side matches and there are side effects; else
      nothing. */
  lemma OperationKindsCases(address: string, tx: ExplorerTransaction)
    ensures var kinds := OperationKinds(address, tx);
            var sideEffects := |tx.erc20Transactions| > 0 || |tx.internalTransactions| > 0;
            && (address == tx.sender && address == tx.receiver ==> kinds == [SEND, RECEIVE])
            && (address == tx.sender && address != tx.receiver ==> kinds == [SEND])
            && (address != tx.sender && address == tx.receiver ==> kinds == [RECEIVE])
            && (address != tx.sender && address != tx.receiver && sideEffects ==> kinds == [NONE])
            && (kinds == [] <==> address != tx.sender && address != tx.receiver && !sideEffects)
  {
  }

  /** Every emitted operation pays gasPrice × gasUsed (0 when gasUsed is
      unknown) in fees, and carries amount 0 when the transaction failed on
      chain and its value otherwise; its kinds are `OperationKinds`. */
  lemma InterpretAmountsAndFees(address: string, accountUid: string, registry: seq<ERC20LikeAccount>, tx: ExplorerTransaction)
    ensures var ops := Interpret(address, accountUid, registry, tx).operations;
            var kinds := OperationKinds(address, tx);
            && |ops| == |kinds|
            && forall i :: 0 <= i < |ops| ==>
                 && ops[i].kind == kinds[i]
                 && ops[i].uid == OperationUid(accountUid, tx.hash, kinds[i])
                 && ops[i].fees == Some(tx.gasPrice * tx.gasUsed.GetOr(0))
                 && ops[i].amount == (if tx.status == 0 && tx.block.Some? then 0 else tx.value)
                 && ops[i].senders == [tx.sender] && ops[i].recipients == [tx.receiver]
                 && ops[i].date == tx.receivedAt
  {
    forall i | 0 <= i < |OperationKinds(address, tx)| {
      InterpretAt(address, accountUid, registry, tx, i);
    }
  }

  /** Only the first emitted operation carries ERC20 attached data; with a
      registry whose keys are unique, that data holds exactly the reference
      passes over the transaction's transfers (one per transfer, plus a
      forced RECEIVE for each transfer received by the address), and the
      registry keeps unique keys. */
  lemma InterpretAttachesOnce(address: string, accountUid: string, registry: seq<ERC20LikeAccount>, tx: ExplorerTransaction)
    requires UniqueKeys(registry)
    ensures var r := Interpret(address, accountUid, registry, tx);
            && UniqueKeys(r.registry)
            && (forall i :: 1 <= i < |r.operations| ==> r.operations[i].attachedData.None?)
            && (|r.operations| > 0 ==>
                  && r.operations[0].attachedData.Some?
                  && Transfers(r.operations[0].attachedData.value.erc20Operations)
                     == TransferPasses(address, tx.erc20Transactions)
                  && |r.operations[0].attachedData.value.erc20Operations|
                     == |tx.erc20Transactions| + CountTo(address, tx.erc20Transactions))
            && (|r.operations| == 0 ==> r.registry == registry)
  {
    var kinds := OperationKinds(address, tx);
    forall i | 0 <= i < |kinds| {
      InterpretAt(address, accountUid, registry, tx, i);
    }
    if kinds != [] {
      var first := BaseOperation(accountUid, tx, kinds[0]);
      var init := Erc20State(registry, EMPTY_ATTACHED_DATA);
      ApplyAllPasses(init, address, accountUid, first.uid, tx.erc20Transactions);
      ApplyAllKeepsKeysUnique(init, address, accountUid, first.uid, tx.erc20Transactions);
      assert Transfers(init.data.erc20Operations) == [];
      TransferPassesCount(address, tx.erc20Transactions);
    }
  }

  /** A transaction the watched address sent to itself yields two
      operations for the same transaction: SEND first, then RECEIVE. */
  lemma SelfTransferYieldsSendThenReceive(address: string, accountUid: string, registry: seq<ERC20LikeAccount>, tx: ExplorerTransaction)
    requires tx.sender == address && tx.receiver == address
    ensures var ops := Interpret(address, accountUid, registry, tx).operations;
            && |ops| == 2
            && ops[0].kind == SEND && ops[1].kind == RECEIVE
            && ops[0].transaction == tx && ops[1].transaction == tx
  {
    InterpretAt(address, accountUid, registry, tx, 0);
    InterpretAt(address, accountUid, registry, tx, 1);
  }

  /** A confirmed, successful transfer from the watched address to another
      address, with no token or internal side effect, yields one SEND
      operation with the transaction's value and fee. */
  lemma PlainSendScenario(address: string, accountUid: string, registry: seq<ERC20LikeAccount>, tx: ExplorerTransaction)
    requires tx.sender == address && tx.receiver != address
    requires tx.status == 1 && tx.block.Some? && tx.erc20Transactions == []
    ensures var r := Interpret(address, accountUid, registry, tx);
            && |r.operations| == 1
            && r.operations[0].kind == SEND
            && r.operations[0].amount == tx.value
            && r.operations[0].fees == Some(tx.gasPrice * tx.gasUsed.GetOr(0))
            && r.operations[0].senders == [address] && r.operations[0].recipients == [tx.receiver]
            && r.operations[0].attachedData == Some(EMPTY_ATTACHED_DATA)
            && r.registry == registry
  {
  }
}
