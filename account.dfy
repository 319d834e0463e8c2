/** The Ethereum account object: its ERC20 sub-account registry, the
    single-flight synchronization marker, the coalesced ERC20 event, the
    balance read-through cache and the interpretation and broadcast paths
    that update them. Storage, the explorer and the synchronizer are
    collaborators: what they return is passed in. */
module EthereumAccount {
  import opened EthTypes
  import opened Erc20Registry
  import opened Interpreter
  import opened RawTransaction
  import opened SyncEvents
  import TransactionBuilder

  /** The values of the interpreter's `result` flag; only "ignored is 0"
      matters, the other two are any distinct non-zero values. */
  const FLAG_TRANSACTION_IGNORED: int := 0
  const FLAG_TRANSACTION_CREATED_SENDING_OPERATION: int := 1
  const FLAG_TRANSACTION_CREATED_RECEPTION_OPERATION: int := 2

  /** The owning wallet: its name and its balance cache, keyed by account
      index. */
  class Wallet {
    const name: string
    var balanceCache: map<int, int>

    constructor (name: string)
      ensures this.name == name && balanceCache == map[]
    {
      this.name := name;
      balanceCache := map[];
    }
  }

  /** A synchronization event bus, with the sticky events posted on it. */
  class EventBus {
    var events: seq<SyncEvent>

    constructor ()
      ensures events == []
    {
      events := [];
    }
  }

  /** A stored sub-account row: its uid and its token's contract. */
  datatype ERC20AccountEntry = ERC20AccountEntry(uid: Uid, contractAddress: string)

  /** The pending UPDATE_ERC20_OPERATIONS event: operation uids and, at the
      same positions, the uid of the sub-account each went to. */
  datatype Erc20Batch = Erc20Batch(opUids: seq<Uid>, accountUids: seq<Uid>, walletName: string, accountIndex: int)

  // ---------------------------------------------------------------------
  // Specification functions

  /** The batch after appending the sub-operations `subs`, in order. */
  function AppendSubOperations(b: Erc20Batch, subs: seq<SubOperation>): (r: Erc20Batch)
    ensures |r.opUids| == |b.opUids| + |subs| && |r.accountUids| == |b.accountUids| + |subs|
    ensures r.walletName == b.walletName && r.accountIndex == b.accountIndex
  {
    if subs == [] then b
    else
      var prev := AppendSubOperations(b, subs[..|subs| - 1]);
      var last := subs[|subs| - 1];
      prev.(opUids := prev.opUids + [last.operation.uid], accountUids := prev.accountUids + [last.accountUid])
  }

  /** The pending event after emitting `subs`: nothing changes for an empty
      list; otherwise the pending batch (a fresh one for this wallet and
      account when there is none) grows by `subs`. */
  function Emitted(pending: Option<Erc20Batch>, walletName: string, index: int, subs: seq<SubOperation>): (r: Option<Erc20Batch>)
    ensures subs == [] ==> r == pending
    ensures subs != [] ==> r.Some? && |r.value.opUids| == |pending.GetOr(Erc20Batch([], [], walletName, index)).opUids| + |subs|
    ensures pending.Some? ==> r.Some? && r.value.walletName == pending.value.walletName && r.value.accountIndex == pending.value.accountIndex
    ensures pending.None? && subs != [] ==> r.Some? && r.value.walletName == walletName && r.value.accountIndex == index
  {
    if subs == [] then pending
    else Some(AppendSubOperations(pending.GetOr(Erc20Batch([], [], walletName, index)), subs))
  }

  /** The sub-operations `ops`, all put in sub-account `accountUid`. */
  function Tagged(ops: seq<ERC20LikeOperation>, accountUid: Uid): (r: seq<SubOperation>)
    ensures |r| == |ops|
    ensures forall k :: 0 <= k < |ops| ==> r[k] == SubOperation(accountUid, ops[k])
  {
    if ops == [] then [] else Tagged(ops[..|ops| - 1], accountUid) + [SubOperation(accountUid, ops[|ops| - 1])]
  }

  lemma TaggedSnoc(ops: seq<ERC20LikeOperation>, i: nat, accountUid: Uid)
    requires i < |ops|
    ensures Tagged(ops[..i + 1], accountUid) == Tagged(ops[..i], accountUid) + [SubOperation(accountUid, ops[i])]
  {
    assert ops[..i + 1][..i] == ops[..i];
  }

  /** Every sub-operation attached to `ops`, operation by operation. */
  function AttachedSubOperations(ops: seq<Operation>): (r: seq<SubOperation>)
    ensures forall s :: s in r ==> exists i :: 0 <= i < |ops| && ops[i].attachedData.Some? && s in ops[i].attachedData.value.erc20Operations
    ensures forall i, s :: 0 <= i < |ops| && ops[i].attachedData.Some? && s in ops[i].attachedData.value.erc20Operations ==> s in r
  {
    if ops == [] then []
    else
      var init, last := ops[..|ops| - 1], ops[|ops| - 1];
      assert forall i :: 0 <= i < |init| ==> init[i] == ops[i];
      AttachedSubOperations(init) + AttachedTo(last)
  }

  /** The sub-operations attached to one operation, none when it has no
      attached data. */
  function AttachedTo(op: Operation): seq<SubOperation> {
    if op.attachedData.Some? then op.attachedData.value.erc20Operations else []
  }

  /** The records of two runs of operations are those of the first run,
      then those of the second. */
  lemma {:induction false} AttachedSubOperationsConcat(a: seq<Operation>, b: seq<Operation>)
    ensures AttachedSubOperations(a + b) == AttachedSubOperations(a) + AttachedSubOperations(b)
  {
    if b == [] {
      assert a + b == a;
    } else {
      var init, ab := b[..|b| - 1], a + b;
      AttachedSubOperationsConcat(a, init);
      assert ab[..|ab| - 1] == a + init && ab[|ab| - 1] == b[|b| - 1];
      assert AttachedSubOperations(ab) == AttachedSubOperations(a + init) + AttachedTo(b[|b| - 1]);
    }
  }

  /** The sub-accounts rebuilt from stored rows, owned by `address`, each
      with the token the lookup returns for its contract. */
  function LoadedSubAccounts(entries: seq<ERC20AccountEntry>, tokenOf: string -> ERC20Token, address: string): (r: seq<ERC20LikeAccount>)
    ensures |r| == |entries|
    ensures forall k :: 0 <= k < |entries| ==>
              r[k] == ERC20LikeAccount(entries[k].uid, tokenOf(entries[k].contractAddress), address)
  {
    if entries == [] then []
    else
      var e := entries[|entries| - 1];
      LoadedSubAccounts(entries[..|entries| - 1], tokenOf, address) + [ERC20LikeAccount(e.uid, tokenOf(e.contractAddress), address)]
  }

  /** The fields `inflateOperation` and the interpreter set once per
      transaction. */
  predicate InflatedFrom(op: Operation, accountUid: string, tx: ExplorerTransaction) {
    && op.accountUid == accountUid
    && op.fees == Some(tx.gasPrice * tx.gasUsed.GetOr(0))
    && op.senders == [tx.sender] && op.recipients == [tx.receiver]
    && op.date == tx.receivedAt && op.block == tx.block && op.transaction == tx
    && op.attachedData.None?
  }

  // ---------------------------------------------------------------------
  // Lemmas about the event batch and the loaded sub-accounts

  lemma AppendOne(b: Erc20Batch, subs: seq<SubOperation>, x: SubOperation)
    ensures AppendSubOperations(b, subs + [x])
            == AppendSubOperations(b, subs).(opUids := AppendSubOperations(b, subs).opUids + [x.operation.uid],
                                            accountUids := AppendSubOperations(b, subs).accountUids + [x.accountUid])
  {
    assert (subs + [x])[..|subs|] == subs;
  }

  /** The batch keeps what it had and gains, at matching positions, each
      sub-operation's uid and the uid of its sub-account. */
  lemma {:induction false} AppendSubOperationsContents(b: Erc20Batch, subs: seq<SubOperation>)
    ensures var r := AppendSubOperations(b, subs);
            && r.opUids[..|b.opUids|] == b.opUids && r.accountUids[..|b.accountUids|] == b.accountUids
            && (forall k :: 0 <= k < |subs| ==> r.opUids[|b.opUids| + k] == subs[k].operation.uid)
            && (forall k :: 0 <= k < |subs| ==> r.accountUids[|b.accountUids| + k] == subs[k].accountUid)
  {
    if subs != [] {
      var init := subs[..|subs| - 1];
      AppendSubOperationsContents(b, init);
      var prev := AppendSubOperations(b, init);
      var r := AppendSubOperations(b, subs);
      assert r.opUids == prev.opUids + [subs[|subs| - 1].operation.uid];
      assert r.accountUids == prev.accountUids + [subs[|subs| - 1].accountUid];
      forall k | 0 <= k < |subs|
        ensures r.opUids[|b.opUids| + k] == subs[k].operation.uid
        ensures r.accountUids[|b.accountUids| + k] == subs[k].accountUid
      {
        if k < |subs| - 1 {
          assert init[k] == subs[k];
        }
      }
    }
  }

  /** Appending in two steps is appending everything at once. */
  lemma {:induction false} AppendSubOperationsConcat(b: Erc20Batch, s1: seq<SubOperation>, s2: seq<SubOperation>)
    ensures AppendSubOperations(AppendSubOperations(b, s1), s2) == AppendSubOperations(b, s1 + s2)
  {
    if s2 == [] {
      assert s1 + s2 == s1;
    } else {
      var init, x := s2[..|s2| - 1], s2[|s2| - 1];
      AppendSubOperationsConcat(b, s1, init);
      assert s2 == init + [x];
      AppendOne(AppendSubOperations(b, s1), init, x);
      assert s1 + s2 == (s1 + init) + [x];
      AppendOne(b, s1 + init, x);
    }
  }

  /** Coalescing: emitting `s1` and then `s2` leaves the same pending event
      as emitting `s1 + s2` in one call. */
  lemma EmittedConcat(pending: Option<Erc20Batch>, walletName: string, index: int, s1: seq<SubOperation>, s2: seq<SubOperation>)
    ensures Emitted(Emitted(pending, walletName, index, s1), walletName, index, s2) == Emitted(pending, walletName, index, s1 + s2)
  {
    if s1 == [] {
      assert s1 + s2 == s2;
    } else if s2 == [] {
      assert s1 + s2 == s1;
    } else {
      AppendSubOperationsConcat(pending.GetOr(Erc20Batch([], [], walletName, index)), s1, s2);
    }
  }

  /** Position k of a batch started by emission pairs the k-th operation uid
      with the uid of the sub-account it went to. */
  lemma EmittedPairsUids(walletName: string, index: int, subs: seq<SubOperation>)
    requires subs != []
    ensures var b := Emitted(None, walletName, index, subs).value;
            && |b.opUids| == |b.accountUids| == |subs|
            && (forall k :: 0 <= k < |subs| ==> b.opUids[k] == subs[k].operation.uid && b.accountUids[k] == subs[k].accountUid)
            && b.walletName == walletName && b.accountIndex == index
  {
    var b := Emitted(None, walletName, index, subs).value;
    AppendSubOperationsContents(Erc20Batch([], [], walletName, index), subs);
    forall k | 0 <= k < |subs|
      ensures b.opUids[k] == subs[k].operation.uid && b.accountUids[k] == subs[k].accountUid
    {
      assert b.opUids[0 + k] == subs[k].operation.uid;
      assert b.accountUids[0 + k] == subs[k].accountUid;
    }
  }

  /** A sub-account loaded from storage is owned by the EIP-55 form of the
      address, while find-or-create looks for the plain form: when the two
      differ, a loaded sub-account is never found again and the first
      transfer of its contract creates a second one. */
  lemma LoadedSubAccountsNotFoundUnderOtherAddress(entries: seq<ERC20AccountEntry>, tokenOf: string -> ERC20Token,
                                                   eip55Address: string, accountAddress: string, contract: string)
    requires eip55Address != accountAddress
    ensures !HasMatch(LoadedSubAccounts(entries, tokenOf, eip55Address), contract, accountAddress)
  {
  }

  // ---------------------------------------------------------------------
  // The account

  class EthereumLikeAccount {
    const accountUid: string
    const index: int
    /** The keychain address as text (`_accountAddress`). */
    const accountAddress: string
    /** The keychain address in EIP-55 form. */
    const eip55Address: string
    /** The owning wallet; null once it is gone. */
    const wallet: Wallet?

    var erc20Accounts: seq<ERC20LikeAccount>
    var currentSyncEventBus: EventBus?
    var currentBlockHeight: int
    var batchedErc20Event: Option<Erc20Batch>
    /** Events handed to the account's event publisher, oldest first. */
    var pushedEvents: seq<Erc20Batch>
    /** How many synchronizer passes were started. */
    ghost var syncPassesStarted: nat

    /** The pending event's two arrays stay parallel. */
    predicate Valid()
      reads this
    {
      batchedErc20Event.Some? ==> |batchedErc20Event.value.opUids| == |batchedErc20Event.value.accountUids|
    }

    constructor (wallet: Wallet?, index: int, accountUid: string, accountAddress: string, eip55Address: string)
      ensures this.wallet == wallet && this.index == index && this.accountUid == accountUid
      ensures this.accountAddress == accountAddress && this.eip55Address == eip55Address
      ensures erc20Accounts == [] && currentSyncEventBus == null && batchedErc20Event.None? && pushedEvents == []
      ensures syncPassesStarted == 0 && Valid()
    {
      this.wallet := wallet;
      this.index := index;
      this.accountUid := accountUid;
      this.accountAddress := accountAddress;
      this.eip55Address := eip55Address;
      erc20Accounts := [];
      currentSyncEventBus := null;
      currentBlockHeight := 0;
      batchedErc20Event := None;
      pushedEvents := [];
      syncPassesStarted := 0;
    }

    // -------------------------------------------------------------------
    // Interpretation

    /** Find-or-create for one transfer: put the sub-operation in every
        sub-account of the transfer's contract owned by the account, or
        create a placeholder sub-account when there is none. Fails when the
        operation carries no attached data. */
    method UpdateERC20Operation(operation: Operation, erc20Tx: ERC20Transaction) returns (r: Result<Operation, ErrorCode>)
      modifies this`erc20Accounts
      ensures operation.attachedData.None? ==> r == Failure(RUNTIME_ERROR) && erc20Accounts == old(erc20Accounts)
      ensures operation.attachedData.Some? ==>
                var st := UpdateOne(Erc20State(old(erc20Accounts), operation.attachedData.value), accountAddress, accountUid, operation.uid, erc20Tx);
                && r == Success(operation.(attachedData := Some(st.data)))
                && erc20Accounts == st.registry
    {
      if operation.attachedData.None? {
        return Failure(RUNTIME_ERROR);
      }
      var data := operation.attachedData.value;
      var erc20ContractAddress := erc20Tx.contractAddress;
      var erc20Operation := SubOperationFor(accountAddress, operation.uid, erc20Tx);
      var erc20AccountUid := Erc20AccountUid(accountUid, erc20ContractAddress);
      var needNewAccount := true;
      var i := 0;
      while i < |erc20Accounts|
        invariant 0 <= i <= |erc20Accounts| && erc20Accounts == old(erc20Accounts)
        invariant data.accounts == operation.attachedData.value.accounts
        invariant data.erc20Operations == operation.attachedData.value.erc20Operations + Puts(erc20Accounts[..i], accountAddress, erc20Operation)
        invariant needNewAccount <==> Puts(erc20Accounts[..i], accountAddress, erc20Operation) == []
      {
        var account := erc20Accounts[i];
        assert erc20Accounts[..i + 1][..i] == erc20Accounts[..i];
        if account.token.contractAddress == erc20ContractAddress && account.address == accountAddress {
          // putOperation: record the sub-operation in this sub-account
          data := data.(erc20Operations := data.erc20Operations + [SubOperation(account.uid, erc20Operation)]);
          needNewAccount := false;
        }
        i := i + 1;
      }
      assert erc20Accounts[..i] == erc20Accounts;
      if needNewAccount {
        var erc20Token := ERC20Token("UNKNOWN_TOKEN", "UNKNOWN", erc20ContractAddress, 0);
        var newAccount := ERC20LikeAccount(erc20AccountUid, erc20Token, accountAddress);
        data := data.(accounts := data.accounts + [newAccount]);
        erc20Accounts := erc20Accounts + [newAccount];
        data := data.(erc20Operations := data.erc20Operations + [SubOperation(newAccount.uid, erc20Operation)]);
      }
      r := Success(operation.(attachedData := Some(data)));
    }

    /** Both passes for every token transfer of the operation's transaction:
        the classified kind, then a forced RECEIVE when the account is the
        recipient. */
    method UpdateERC20Accounts(operation: Operation) returns (updated: Operation)
      requires operation.attachedData.Some?
      modifies this`erc20Accounts
      ensures var st := ApplyAll(Erc20State(old(erc20Accounts), operation.attachedData.value), accountAddress, accountUid,
                                 operation.uid, operation.transaction.erc20Transactions);
              && updated == operation.(attachedData := Some(st.data))
              && erc20Accounts == st.registry
    {
      var transfers := operation.transaction.erc20Transactions;
      var init := Erc20State(erc20Accounts, operation.attachedData.value);
      updated := operation;
      for i := 0 to |transfers|
        invariant var st := ApplyAll(init, accountAddress, accountUid, operation.uid, transfers[..i]);
                  updated == operation.(attachedData := Some(st.data)) && erc20Accounts == st.registry
      {
        ApplyAllStep(init, accountAddress, accountUid, operation.uid, transfers, i);
        var erc20Tx := transfers[i];
        erc20Tx := erc20Tx.(kind := if erc20Tx.from == accountAddress then SEND
                                    else if erc20Tx.to == accountAddress then RECEIVE
                                    else NONE);
        var r := UpdateERC20Operation(updated, erc20Tx);
        updated := r.value;
        if erc20Tx.to == accountAddress {
          erc20Tx := erc20Tx.(kind := RECEIVE);
          r := UpdateERC20Operation(updated, erc20Tx);
          updated := r.value;
        }
      }
      assert transfers[..|transfers|] == transfers;
    }

    /** The interpreter's `updateOperation` step: set the amount (0 for a
        transaction that failed on chain), the kind and the uid; give the
        attached data to the first operation only (while `result` is still
        ignored); emit the operation and drop the attachment from the
        working copy. */
    method UpdateOperation(tx: ExplorerTransaction, operation: Operation, ty: OperationType, result: int, out: seq<Operation>)
      returns (out': seq<Operation>, operation': Operation)
      requires InflatedFrom(operation, accountUid, tx)
      modifies this`erc20Accounts
      ensures InflatedFrom(operation', accountUid, tx)
      ensures result != FLAG_TRANSACTION_IGNORED ==>
                out' == out + [BaseOperation(accountUid, tx, ty)] && erc20Accounts == old(erc20Accounts)
      ensures result == FLAG_TRANSACTION_IGNORED ==>
                var st := ApplyAll(Erc20State(old(erc20Accounts), EMPTY_ATTACHED_DATA), accountAddress, accountUid,
                                   OperationUid(accountUid, tx.hash, ty), tx.erc20Transactions);
                && out' == out + [BaseOperation(accountUid, tx, ty).(attachedData := Some(st.data))]
                && erc20Accounts == st.registry
    {
      operation' := operation;
      if tx.status == 0 && tx.block.Some? {
        operation' := operation'.(amount := 0);
      } else {
        operation' := operation'.(amount := tx.value);
      }
      operation' := operation'.(kind := ty);
      operation' := operation'.(uid := OperationUid(accountUid, tx.hash, ty));
      assert operation' == BaseOperation(accountUid, tx, ty);
      if result == FLAG_TRANSACTION_IGNORED {
        operation' := operation'.(attachedData := Some(EMPTY_ATTACHED_DATA));
        operation' := UpdateERC20Accounts(operation');
      }
      out' := out + [operation'];
      operation' := operation'.(attachedData := None);
    }

    /** interpretTransaction: RUNTIME_ERROR once the wallet is gone;
        otherwise the operations and registry `Interpret` specifies. */
    method InterpretTransaction(tx: ExplorerTransaction) returns (r: Result<seq<Operation>, ErrorCode>)
      modifies this`erc20Accounts
      ensures wallet == null ==> r == Failure(RUNTIME_ERROR) && erc20Accounts == old(erc20Accounts)
      ensures wallet != null ==>
                && r == Success(Interpret(accountAddress, accountUid, old(erc20Accounts), tx).operations)
                && erc20Accounts == Interpret(accountAddress, accountUid, old(erc20Accounts), tx).registry
    {
      if wallet == null {
        return Failure(RUNTIME_ERROR);
      }
      var result := FLAG_TRANSACTION_IGNORED;
      // inflateOperation and the per-transaction fields; uid, kind and
      // amount are set by each UpdateOperation
      var operation := Operation(StoredUid(""), accountUid, NONE, 0, Some(tx.gasPrice * tx.gasUsed.GetOr(0)),
                                 [tx.sender], [tx.receiver], tx.receivedAt, tx.block, tx, None);
      var out: seq<Operation> := [];
      ghost var registry := erc20Accounts;
      ghost var emitted: seq<OperationType> := [];
      if accountAddress == tx.sender {
        out, operation := UpdateOperation(tx, operation, SEND, result, out);
        emitted := [SEND];
        result := FLAG_TRANSACTION_CREATED_SENDING_OPERATION;
      }
      assert EmittedSoFar(registry, tx, out, emitted);
      if accountAddress == tx.receiver {
        ghost var before := out;
        out, operation := UpdateOperation(tx, operation, RECEIVE, result, out);
        if emitted == [] {
          emitted := [RECEIVE];
        } else {
          EmittedStep(registry, tx, before, emitted, RECEIVE);
          emitted := emitted + [RECEIVE];
        }
        result := FLAG_TRANSACTION_CREATED_RECEPTION_OPERATION;
      }
      assert result == FLAG_TRANSACTION_IGNORED <==> emitted == [];
      if result == FLAG_TRANSACTION_IGNORED && (|tx.erc20Transactions| > 0 || |tx.internalTransactions| > 0) {
        out, operation := UpdateOperation(tx, operation, NONE, result, out);
        emitted := [NONE];
      }
      assert emitted == OperationKinds(accountAddress, tx);
      InterpretMatches(registry, tx, out, emitted);
      r := Success(out);
    }

    /** The operations emitted so far for `tx`, of kinds `emitted`: the first
        one carries the attached data of the ERC20 passes, whose registry is
        the current one; the others carry none. */
    ghost predicate EmittedSoFar(registry: seq<ERC20LikeAccount>, tx: ExplorerTransaction, out: seq<Operation>, emitted: seq<OperationType>)
      reads this
    {
      && |out| == |emitted|
      && (emitted == [] ==> erc20Accounts == registry)
      && (emitted != [] ==>
            var st := ApplyAll(Erc20State(registry, EMPTY_ATTACHED_DATA), accountAddress, accountUid,
                               OperationUid(accountUid, tx.hash, emitted[0]), tx.erc20Transactions);
            out[0] == BaseOperation(accountUid, tx, emitted[0]).(attachedData := Some(st.data)) && erc20Accounts == st.registry)
      && (forall i :: 1 <= i < |emitted| ==> out[i] == BaseOperation(accountUid, tx, emitted[i]))
    }

    /** A later operation carries no attached data and leaves the registry. */
    lemma EmittedStep(registry: seq<ERC20LikeAccount>, tx: ExplorerTransaction, out: seq<Operation>, emitted: seq<OperationType>,
                      kind: OperationType)
      requires emitted != [] && EmittedSoFar(registry, tx, out, emitted)
      ensures EmittedSoFar(registry, tx, out + [BaseOperation(accountUid, tx, kind)], emitted + [kind])
    {
    }

    /** The operations the three steps emit, and the registry they leave,
        are those `Interpret` gives. */
    lemma InterpretMatches(registry: seq<ERC20LikeAccount>, tx: ExplorerTransaction, out: seq<Operation>, kinds: seq<OperationType>)
      requires kinds == OperationKinds(accountAddress, tx)
      requires EmittedSoFar(registry, tx, out, kinds)
      ensures out == Interpret(accountAddress, accountUid, registry, tx).operations
      ensures erc20Accounts == Interpret(accountAddress, accountUid, registry, tx).registry
    {
      if kinds != [] {
        var ops := Interpret(accountAddress, accountUid, registry, tx).operations;
        forall i | 0 <= i < |kinds|
          ensures ops[i] == out[i]
        {
          InterpretAt(accountAddress, accountUid, registry, tx, i);
        }
      }
    }

    /** addERC20Accounts: the stored sub-accounts are appended, owned by the
        EIP-55 form of the address. */
    method AddERC20Accounts(entries: seq<ERC20AccountEntry>, tokenOf: string -> ERC20Token)
      modifies this`erc20Accounts
      ensures erc20Accounts == old(erc20Accounts) + LoadedSubAccounts(entries, tokenOf, eip55Address)
    {
      for i := 0 to |entries|
        invariant erc20Accounts == old(erc20Accounts) + LoadedSubAccounts(entries[..i], tokenOf, eip55Address)
      {
        assert entries[..i + 1][..i] == entries[..i];
        var entry := entries[i];
        var newERC20Account := ERC20LikeAccount(entry.uid, tokenOf(entry.contractAddress), eip55Address);
        erc20Accounts := erc20Accounts + [newERC20Account];
      }
      assert entries[..|entries|] == entries;
    }

    // -------------------------------------------------------------------
    // Balance

    /** getBalance: the cached balance for this account's index when there
        is one; otherwise the explorer's answer, which is then cached. An
        explorer failure is passed on and caches nothing. */
    method GetBalance(remote: Result<int, ErrorCode>) returns (r: Result<int, ErrorCode>)
      requires wallet != null
      modifies wallet`balanceCache
      ensures index in old(wallet.balanceCache) ==>
                r == Success(old(wallet.balanceCache)[index]) && wallet.balanceCache == old(wallet.balanceCache)
      ensures index !in old(wallet.balanceCache) && remote.Failure? ==>
                r == Failure(remote.error) && wallet.balanceCache == old(wallet.balanceCache)
      ensures index !in old(wallet.balanceCache) && remote.Success? ==>
                r == remote && wallet.balanceCache == old(wallet.balanceCache)[index := remote.value]
      ensures r.Success? ==> index in wallet.balanceCache && wallet.balanceCache[index] == r.value
    {
      if index in wallet.balanceCache {
        return Success(wallet.balanceCache[index]);
      }
      if remote.Failure? {
        return Failure(remote.error);
      }
      wallet.balanceCache := wallet.balanceCache[index := remote.value];
      r := Success(remote.value);
    }

    /** buildTransaction's build function: the balance comes through
        `GetBalance` (so the wallet's cache is read, or filled, first), and
        the transaction is built from this account's address. `remote` is
        the explorer's balance, `nonce` its answer for the account address. */
    method BuildTransaction(request: TransactionBuilder.BuildRequest, remote: Result<int, ErrorCode>, nonce: Result<int, ErrorCode>)
      returns (r: Result<TransactionBuilder.UnsignedTransaction, ErrorCode>)
      requires wallet != null
      modifies wallet`balanceCache
      ensures var balance := if index in old(wallet.balanceCache) then Success(old(wallet.balanceCache)[index]) else remote;
              r == TransactionBuilder.Build(request, balance, nonce, accountAddress)
      ensures index !in old(wallet.balanceCache) && remote.Success? ==>
                wallet.balanceCache == old(wallet.balanceCache)[index := remote.value]
      ensures index in old(wallet.balanceCache) || remote.Failure? ==> wallet.balanceCache == old(wallet.balanceCache)
      ensures r.Success? ==> r.value.sender == accountAddress && index in wallet.balanceCache
                             && r.value.value + r.value.gasLimit * r.value.gasPrice <= wallet.balanceCache[index]
    {
      var balance := GetBalance(remote);
      r := TransactionBuilder.Build(request, balance, nonce, accountAddress);
      if r.Success? {
        TransactionBuilder.BuiltTransactionFields(request, balance, nonce, accountAddress);
      }
    }

    // -------------------------------------------------------------------
    // Synchronization

    method IsSynchronizing() returns (b: bool)
      ensures b <==> currentSyncEventBus != null
    {
      b := currentSyncEventBus != null;
    }

    /** synchronize: the running pass's bus when there is one (no new pass
        starts); otherwise a fresh bus, installed as the marker, on which
        SYNCHRONIZATION_STARTED is posted as a new pass starts. */
    method Synchronize() returns (bus: EventBus)
      modifies this`currentSyncEventBus, this`syncPassesStarted
      ensures old(currentSyncEventBus) != null ==>
                bus == old(currentSyncEventBus) && currentSyncEventBus == bus && syncPassesStarted == old(syncPassesStarted)
      ensures old(currentSyncEventBus) == null ==>
                fresh(bus) && currentSyncEventBus == bus && bus.events == [STARTED_EVENT]
                && syncPassesStarted == old(syncPassesStarted) + 1
    {
      if currentSyncEventBus != null {
        return currentSyncEventBus;
      }
      bus := new EventBus();
      currentSyncEventBus := bus;
      syncPassesStarted := syncPassesStarted + 1;
      bus.events := bus.events + [STARTED_EVENT];
    }

    /** The current-block callback: a fetched block sets the height; a
        failed fetch changes nothing. */
    method OnCurrentBlock(block: Result<Block, ErrorCode>)
      modifies this`currentBlockHeight
      ensures block.Success? ==> currentBlockHeight == block.value.height
      ensures block.Failure? ==> currentBlockHeight == old(currentBlockHeight)
    {
      if block.Success? {
        currentBlockHeight := block.value.height;
      }
    }

    /** The completion callback: post the outcome on the pass's bus, then
        clear the marker, whichever pass it belongs to. */
    method CompleteSynchronization(bus: EventBus, outcome: SyncOutcome, durationMs: int, codeNumber: ErrorCode -> int)
      modifies bus, this`currentSyncEventBus
      ensures bus.events == old(bus.events) + [CompletionEvent(outcome, durationMs, codeNumber)]
      ensures currentSyncEventBus == null
    {
      bus.events := bus.events + [CompletionEvent(outcome, durationMs, codeNumber)];
      currentSyncEventBus := null;
    }

    /** eraseDataSince: clears the marker and always reports success. */
    method EraseDataSince(date: int) returns (code: ErrorCode)
      modifies this`currentSyncEventBus
      ensures code == FUTURE_WAS_SUCCESSFULL && currentSyncEventBus == null
    {
      currentSyncEventBus := null;
      code := FUTURE_WAS_SUCCESSFULL;
    }

    /** Two requests in a row share one bus and start at most one pass. */
    method SynchronizeTwice() returns (first: EventBus, second: EventBus)
      modifies this`currentSyncEventBus, this`syncPassesStarted
      ensures first == second && currentSyncEventBus == first
      ensures syncPassesStarted == old(syncPassesStarted) + (if old(currentSyncEventBus) == null then 1 else 0)
    {
      first := Synchronize();
      second := Synchronize();
    }

    /** A pass interrupted by eraseDataSince still clears the marker when it
        completes, even though a newer pass has started since: the account
        then reports that it is not synchronizing while that pass runs. */
    method StaleCompletionClearsNewerPass(outcome: SyncOutcome, durationMs: int, codeNumber: ErrorCode -> int, date: int) returns (older: EventBus, newer: EventBus)
      requires currentSyncEventBus == null
      modifies this`currentSyncEventBus, this`syncPassesStarted
      ensures older != newer && syncPassesStarted == old(syncPassesStarted) + 2
      ensures newer.events == [STARTED_EVENT] && currentSyncEventBus == null
    {
      older := Synchronize();
      var _ := EraseDataSince(date);
      newer := Synchronize();
      CompleteSynchronization(older, outcome, durationMs, codeNumber);
    }

    // -------------------------------------------------------------------
    // ERC20 events

    /** emitNewERC20Operations: nothing for an empty list; otherwise the
        pending event (created for this wallet and account if needed) gets
        each operation's uid and, alongside, the sub-account uid. */
    method EmitNewERC20Operations(ops: seq<ERC20LikeOperation>, subAccountUid: Uid)
      requires wallet != null && Valid()
      modifies this`batchedErc20Event
      ensures batchedErc20Event == Emitted(old(batchedErc20Event), wallet.name, index, Tagged(ops, subAccountUid))
      ensures Valid()
    {
      if ops == [] {
        return;
      }
      if batchedErc20Event.None? {
        batchedErc20Event := Some(Erc20Batch([], [], wallet.name, index));
      }
      ghost var base := batchedErc20Event.value;
      assert |base.opUids| == |base.accountUids|;
      for i := 0 to |ops|
        invariant batchedErc20Event == Some(AppendSubOperations(base, Tagged(ops[..i], subAccountUid)))
      {
        ghost var done := Tagged(ops[..i], subAccountUid);
        TaggedSnoc(ops, i, subAccountUid);
        AppendOne(base, done, SubOperation(subAccountUid, ops[i]));
        var b := batchedErc20Event.value;
        batchedErc20Event := Some(b.(opUids := b.opUids + [ops[i].uid], accountUids := b.accountUids + [subAccountUid]));
      }
      assert ops[..|ops|] == ops;
    }

    method EmitNewERC20Operation(op: ERC20LikeOperation, subAccountUid: Uid)
      requires wallet != null && Valid()
      modifies this`batchedErc20Event
      ensures batchedErc20Event == Emitted(old(batchedErc20Event), wallet.name, index, [SubOperation(subAccountUid, op)])
      ensures Valid()
    {
      EmitNewERC20Operations([op], subAccountUid);
      assert Tagged([op], subAccountUid) == [SubOperation(subAccountUid, op)];
    }

    /** The inner loop of bulkInsert's emission: each sub-operation of one
        operation's attached data is emitted to its sub-account. */
    method EmitSubOperations(subs: seq<SubOperation>)
      requires wallet != null && Valid()
      modifies this`batchedErc20Event
      ensures batchedErc20Event == Emitted(old(batchedErc20Event), wallet.name, index, subs)
      ensures Valid()
    {
      ghost var start := batchedErc20Event;
      for j := 0 to |subs|
        invariant Valid()
        invariant batchedErc20Event == Emitted(start, wallet.name, index, subs[..j])
      {
        EmitNewERC20Operation(subs[j].operation, subs[j].accountUid);
        EmittedConcat(start, wallet.name, index, subs[..j], [subs[j]]);
        assert subs[..j] + [subs[j]] == subs[..j + 1];
      }
      assert subs[..|subs|] == subs;
    }

    /** The emission half of bulkInsert: every sub-operation attached to the
        inserted operations is emitted, in order, to the sub-account it was
        put in. */
    method EmitInsertedOperations(operations: seq<Operation>)
      requires wallet != null && Valid()
      modifies this`batchedErc20Event
      ensures batchedErc20Event == Emitted(old(batchedErc20Event), wallet.name, index, AttachedSubOperations(operations))
      ensures Valid()
    {
      ghost var start := batchedErc20Event;
      for i := 0 to |operations|
        invariant Valid()
        invariant batchedErc20Event == Emitted(start, wallet.name, index, AttachedSubOperations(operations[..i]))
      {
        assert operations[..i + 1][..i] == operations[..i];
        var op := operations[i];
        ghost var prefix := AttachedSubOperations(operations[..i]);
        if op.attachedData.Some? {
          EmitSubOperations(op.attachedData.value.erc20Operations);
          EmittedConcat(start, wallet.name, index, prefix, op.attachedData.value.erc20Operations);
        } else {
          assert AttachedSubOperations(operations[..i + 1]) == prefix + [];
          assert prefix + [] == prefix;
        }
      }
      assert operations[..|operations|] == operations;
    }

    /** emitEventsNow, for the ERC20 part: the pending event, if any, is
        pushed and cleared. */
    method EmitEventsNow()
      modifies this`batchedErc20Event, this`pushedEvents
      ensures pushedEvents == old(pushedEvents) + (if old(batchedErc20Event).Some? then [old(batchedErc20Event).value] else [])
      ensures batchedErc20Event.None? && Valid()
    {
      if batchedErc20Event.Some? {
        pushedEvents := pushedEvents + [batchedErc20Event.value];
        batchedErc20Event := None;
      }
    }

    // -------------------------------------------------------------------
    // Broadcast

    /** broadcastRawTransaction: the push's answer is the result. After a
        successful push, the optimistic record of the transaction (decoded
        with the `transfer` detector as the code writes it) is interpreted;
        when storage accepts the operations their sub-operations are
        emitted, and the pending event is flushed. A failure anywhere in the
        optimistic update (an undecodable transaction, a recipient the
        address renderer rejects) is swallowed. The source reads the
        wallet's currency before the optimistic update's guard, so the wallet
        must still be alive. */
    method BroadcastRawTransaction(pushed: Result<string, ErrorCode>, decoded: Option<ParsedRawTx>, now: int,
                                   addressOf: nat -> Option<string>, stored: bool)
      returns (r: Result<string, ErrorCode>)
      requires Valid() && wallet != null
      modifies this`erc20Accounts, this`batchedErc20Event, this`pushedEvents
      ensures r == pushed && Valid()
      ensures pushed.Failure? || decoded.None?
              || ExplorerTxFromRawTxAsWritten(accountAddress, pushed.value, decoded.value, now, addressOf).None? ==>
                erc20Accounts == old(erc20Accounts) && batchedErc20Event == old(batchedErc20Event) && pushedEvents == old(pushedEvents)
      ensures pushed.Success? && decoded.Some?
              && ExplorerTxFromRawTxAsWritten(accountAddress, pushed.value, decoded.value, now, addressOf).Some? ==>
                var i := Interpret(accountAddress, accountUid, old(erc20Accounts),
                                   ExplorerTxFromRawTxAsWritten(accountAddress, pushed.value, decoded.value, now, addressOf).value);
                var pending := Emitted(old(batchedErc20Event), wallet.name, index,
                                       if stored then AttachedSubOperations(i.operations) else []);
                && erc20Accounts == i.registry
                && batchedErc20Event.None?
                && pushedEvents == old(pushedEvents) + (if pending.Some? then [pending.value] else [])
    {
      r := pushed;
      if pushed.Failure? || decoded.None? {
        return;
      }
      var record := ExplorerTxFromRawTxAsWritten(accountAddress, pushed.value, decoded.value, now, addressOf);
      if record.None? {
        return;
      }
      var txExplorer := record.value;
      var interpreted := InterpretTransaction(txExplorer);
      assert interpreted.Success?;
      if stored {
        EmitInsertedOperations(interpreted.value);
      }
      EmitEventsNow();
    }
  }
}
