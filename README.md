# Ethereum account core of lib-ledger-core, in Dafny

This project models `EthereumLikeAccount`, the object that holds one Ethereum account of a
wallet. It covers:

- how one explorer transaction becomes ledger operations: SEND, RECEIVE or a NONE carrier;
  the failed-transaction rule; fees of gasPrice × gasUsed;
- how ERC20 token transfers are attributed to sub-operations, with find-or-create over the
  sub-account registry, including the forced second RECEIVE pass;
- the balance history: internal-operation rows mapped to operations, sorted by date, and
  walked in fixed-width buckets with a running signed sum;
- validation of outgoing-transaction build requests: the worst-case fee, the wipe flag,
  INVALID_ARGUMENT and NOT_ENOUGH_FUNDS;
- the optimistic explorer record built from a raw signed transaction after a broadcast,
  including the decoding of an ERC20 `transfer(address,uint256)` call: the 4-byte selector
  `0xa9059cbb`, then two 32-byte big-endian ABI words;
- the single-flight synchronization marker and the payload of the completion event;
- the coalesced `UPDATE_ERC20_OPERATIONS` event, whose two uid arrays grow in step and are
  flushed by `emitEventsNow`;
- the read-through balance cache.

Layout, one module per component:

| file | module | contents |
|---|---|---|
| `types.dfy` | `EthTypes` | explorer transactions, operations, ERC20 records, uids, error codes |
| `erc20_registry.dfy` | `Erc20Registry` | the sub-account registry and transfer passes as functions over values |
| `interpreter.dfy` | `Interpreter` | `Interpret`, the reference for `interpretTransaction` |
| `balance_history.dfy` | `BalanceHistory` | the row mapping, the date sort, `HistoryFrom` and the bucket-walk method |
| `transaction_builder.dfy` | `TransactionBuilder` | the build function's validation |
| `raw_transaction.dfy` | `RawTransaction` | hex text, substring search, big-endian words, the optimistic record |
| `sync_events.dfy` | `SyncEvents` | the 32-bit cast and the completion-event payload |
| `account.dfy` | `EthereumAccount` | the `EthereumLikeAccount` class, its fields and its methods |

The class keeps the fields the source updates in place:

- `erc20Accounts` (`_erc20LikeAccounts`);
- `currentSyncEventBus` (`_currentSyncEventBus`);
- `currentBlockHeight`;
- `batchedErc20Event` (`_batchedErc20Event`);
- the events pushed to the publisher;
- the wallet's balance cache.

Its methods are loops and assignments, as in the source. The methods that interpret a
transaction or emit events have their new state proved equal to a specification function, and
the properties are proved about those functions:

- `UpdateERC20Operation` equals `UpdateOne`, and `UpdateERC20Accounts` equals `ApplyAll`;
- `UpdateOperation` equals `BaseOperation` and, while the transaction is ignored, `ApplyAll`;
- `InterpretTransaction` equals `Interpret`;
- `AddERC20Accounts` equals `LoadedSubAccounts`;
- `BuildTransaction` equals `Build`, applied to the balance `GetBalance` reads;
- `EmitNewERC20Operations`, `EmitNewERC20Operation`, `EmitSubOperations` and
  `EmitInsertedOperations` equal `Emitted`, the last one of `AttachedSubOperations`;
- `BroadcastRawTransaction` equals `Interpret` and `Emitted` of `ExplorerTxFromRawTxAsWritten`.

The other methods (`GetBalance`, `IsSynchronizing`, `Synchronize`, `OnCurrentBlock`,
`CompleteSynchronization`, `EraseDataSince` and `EmitEventsNow`) state their new fields
directly in their ensures; `CompleteSynchronization` posts `CompletionEvent`. Outside the class,
the loop `BalanceHistory.Accumulate` is proved equal to `HistoryFrom` and
`BalanceHistory.GetInternalOperations` to `InternalOperations`.

Collaborators are not modelled. What they return is passed in as a parameter:

- storage and the explorer: a balance, a nonce, a block, the push result, whether storage
  accepted the operations;
- the synchronizer's outcome;
- the RLP decoder's parsed transaction;
- the address renderer;
- clocks: the current time, the duration of a pass.

Dates are integer timestamps. A balance-history period is a fixed positive step.

Where the code and its comments or its design description differ, the model follows the code:

- The forced RECEIVE pass of `updateERC20Accounts` (lines 193-196) sits under the comment
  "Handle ERC20 self-transactions" (line 192), but its guard tests only the recipient. It
  runs for every transfer the account receives, not only for self-transfers. A plain incoming
  transfer therefore gets two sub-operations with the same uid (`ForcedReceiveRepeatsUid`),
  and `bulkInsert` (lines 172-174) emits that uid twice.
- The build function fetches the balance before it validates the request (line 661). A
  balance failure therefore wins over INVALID_ARGUMENT.

## Model

| member | source | states |
|---|---|---|
| `Erc20Registry.Classify` | core/src/wallet/ethereum/EthereumLikeAccount.cpp:187-189 | a transfer is SEND iff the account sent it, RECEIVE iff the account did not send it but received it, NONE otherwise |
| `Erc20Registry.Puts` | core/src/wallet/ethereum/EthereumLikeAccount.cpp:214-223 | the scan records the sub-operation at most once per sub-account, and every record carries that sub-operation |
| `Erc20Registry.UpdateOne` | core/src/wallet/ethereum/EthereumLikeAccount.cpp:201-241 | find-or-create records at least one sub-operation and drops none; the registry keeps its sub-accounts in place and gains at most one |
| `Erc20Registry.ApplyTransfer` | core/src/wallet/ethereum/EthereumLikeAccount.cpp:186-197 | the passes over one transfer record at least one sub-operation and drop none; the registry keeps its sub-accounts and gains at most two |
| `Erc20Registry.ApplyAll` | core/src/wallet/ethereum/EthereumLikeAccount.cpp:181-199 | the transfer loop records at least one sub-operation per transfer and drops none; the registry keeps its sub-accounts in place |
| `Erc20Registry.PutsEmptyIff` | core/src/wallet/ethereum/EthereumLikeAccount.cpp:214-223 | the registry scan records the sub-operation nowhere iff no sub-account matches (contract, account address) |
| `Erc20Registry.UniquePutsAtMostOne` | core/src/wallet/ethereum/EthereumLikeAccount.cpp:214-223 | when no two sub-accounts share a key, the scan records the sub-operation at most once |
| `Erc20Registry.PutsFromMatch` | core/src/wallet/ethereum/EthereumLikeAccount.cpp:214-221 | every record the scan leaves names a sub-account that matches the transfer's contract and the account address |
| `Erc20Registry.PutsCount` | core/src/wallet/ethereum/EthereumLikeAccount.cpp:214-221 | the scan has no early exit: it leaves exactly as many records as there are matching sub-accounts |
| `Erc20Registry.PutsEveryMatch` | core/src/wallet/ethereum/EthereumLikeAccount.cpp:214-221 | every matching sub-account receives the sub-operation |
| `Erc20Registry.PutsConcat` | core/src/wallet/ethereum/EthereumLikeAccount.cpp:214-221 | the records of a split registry are those of the first part followed by those of the second, so the scan keeps registry order |
| `Erc20Registry.PutsOne` | core/src/wallet/ethereum/EthereumLikeAccount.cpp:215-220 | a single sub-account receives one record when it matches the key and none otherwise |
| `Erc20Registry.FindOrCreate` | core/src/wallet/ethereum/EthereumLikeAccount.cpp:213-240 | afterwards a matching sub-account exists; exactly when none matched before, one placeholder is appended to the registry and to the attached data and receives the sub-operation; otherwise both lists keep their length |
| `Erc20Registry.UpdateKeepsKeysUnique` | core/src/wallet/ethereum/EthereumLikeAccount.cpp:226-236 | find-or-create never gives two sub-accounts the same (contract, address) key |
| `Erc20Registry.UpdateAppendsOne` | core/src/wallet/ethereum/EthereumLikeAccount.cpp:213-240 | with unique keys, one step appends exactly one record, for this transfer, in a matching sub-account, and keeps the earlier records |
| `Erc20Registry.ApplyTransferKeepsKeysUnique` | core/src/wallet/ethereum/EthereumLikeAccount.cpp:186-197 | both passes over one transfer keep registry keys unique |
| `Erc20Registry.ApplyAllKeepsKeysUnique` | core/src/wallet/ethereum/EthereumLikeAccount.cpp:185-198 | interpreting a whole transfer list keeps registry keys unique |
| `Erc20Registry.ApplyTransferPasses` | core/src/wallet/ethereum/EthereumLikeAccount.cpp:187-196 | one transfer appends its classified record, then a RECEIVE record when the account is its recipient, as the reference `TransferPasses` lists |
| `Erc20Registry.ApplyAllPasses` | core/src/wallet/ethereum/EthereumLikeAccount.cpp:185-198 | the records appended for a transfer list are exactly the reference passes, in order |
| `Erc20Registry.TransferPassesCount` | core/src/wallet/ethereum/EthereumLikeAccount.cpp:186-197 | the passes number one per transfer plus one per transfer received by the account |
| `Erc20Registry.ForcedReceiveRepeatsUid` | core/src/wallet/ethereum/EthereumLikeAccount.cpp:193-195 | for a transfer received but not sent by the account, the forced pass builds a sub-operation with the same uid as the first pass |
| `Interpreter.OperationKinds` | core/src/wallet/ethereum/EthereumLikeAccount.cpp:143-157 | SEND is emitted iff the account sent the transaction, RECEIVE iff it received it; a NONE carrier is emitted alone; at most two kinds, none twice |
| `Interpreter.BaseOperation` | core/src/wallet/ethereum/EthereumLikeAccount.cpp:124-134 | the operation has the requested kind, the uid of (account, hash, kind) and no attachment; its amount is 0 for a transaction that failed in a block, else the transaction's value |
| `Interpreter.Interpret` | core/src/wallet/ethereum/EthereumLikeAccount.cpp:104-158 | one operation per emitted kind; the registry only grows, keeping its earlier sub-accounts in place; with no operation it is unchanged |
| `Interpreter.InterpretAt` | core/src/wallet/ethereum/EthereumLikeAccount.cpp:135-157 | operation i is the base operation of the i-th kind; only operation 0 carries attached data |
| `Interpreter.OperationKindsCases` | core/src/wallet/ethereum/EthereumLikeAccount.cpp:143-157 | SEND then RECEIVE for a self-transfer; the one matching side otherwise; one NONE iff neither side matches and there are token or internal transactions; nothing iff neither side matches and there are none |
| `Interpreter.InterpretAmountsAndFees` | core/src/wallet/ethereum/EthereumLikeAccount.cpp:114-134 | every operation pays fees gasPrice × (gasUsed or 0), has amount 0 when the transaction failed and is in a block, else its value, and takes sender, recipient, date and uid from the transaction |
| `Interpreter.InterpretAttachesOnce` | core/src/wallet/ethereum/EthereumLikeAccount.cpp:135-140 | only the first operation gets attached data; with unique registry keys, its records are exactly the reference passes (one per transfer plus one per received transfer) and the keys stay unique; when no operation is emitted the registry is unchanged |
| `Interpreter.SelfTransferYieldsSendThenReceive` | core/src/wallet/ethereum/EthereumLikeAccount.cpp:143-151 | a transaction from the account to itself yields a SEND and then a RECEIVE for that transaction |
| `Interpreter.PlainSendScenario` | core/src/wallet/ethereum/EthereumLikeAccount.cpp:143-147 | a successful confirmed transfer to another address, with no side effects, yields one SEND with its value and fee and an empty attachment |
| `BalanceHistory.RowToOperation` | core/src/wallet/ethereum/EthereumLikeAccount.cpp:262-286 | a NONE row is skipped; any other row keeps its kind and date, pays fees 0, and has amount 0 when its status is 0, else its value |
| `BalanceHistory.InternalOperations` | core/src/wallet/ethereum/EthereumLikeAccount.cpp:258-295 | at most one operation per row, none of kind NONE, all with fees 0; each comes from a row, and every non-NONE row yields one |
| `BalanceHistory.InternalOperationsConcat` | core/src/wallet/ethereum/EthereumLikeAccount.cpp:258-295 | the operations of two runs of rows are those of the first run followed by those of the second, so the mapping keeps row order |
| `BalanceHistory.InternalOperationsSnoc` | core/src/wallet/ethereum/EthereumLikeAccount.cpp:258-295 | appending a row appends its operation, or nothing when the row is NONE |
| `BalanceHistory.InternalOperationsOne` | core/src/wallet/ethereum/EthereumLikeAccount.cpp:262-294 | a single row yields exactly its own operation, or nothing when it is NONE; with the concatenation lemma this fixes the count and order for any rows |
| `BalanceHistory.GetInternalOperations` | core/src/wallet/ethereum/EthereumLikeAccount.cpp:258-297 | the row loop returns exactly `InternalOperations` of the rows |
| `BalanceHistory.Insert` | core/src/wallet/ethereum/EthereumLikeAccount.cpp:388-390 | inserting into a date-sorted list keeps it sorted and adds exactly that operation to its multiset |
| `BalanceHistory.SortByDate` | core/src/wallet/ethereum/EthereumLikeAccount.cpp:388-390 | the result is sorted by date and a permutation of the input |
| `BalanceHistory.InsertKeepsSums` | core/src/wallet/ethereum/EthereumLikeAccount.cpp:388-390 | inserting an operation adds its signed amount to every sum up to a date at or after its own, and nothing to the others |
| `BalanceHistory.SortKeepsSums` | core/src/wallet/ethereum/EthereumLikeAccount.cpp:388-390 | sorting changes no sum up to any date |
| `BalanceHistory.HistoryIgnoresOrder` | core/src/wallet/ethereum/EthereumLikeAccount.cpp:384-390 | the history of the sorted operations is the history of the operations in any order |
| `BalanceHistory.Delta` | core/src/wallet/ethereum/EthereumLikeAccount.cpp:409-422 | NONE changes nothing; for non-negative amounts and fees a RECEIVE never lowers the sum and a SEND lowers it by at least its amount |
| `BalanceHistory.HistoryFrom` | core/src/wallet/ethereum/EthereumLikeAccount.cpp:392-434 | the reference history is empty exactly when start ≥ end; `HistoryLength` and `HistoryEntry` give its length and entries |
| `BalanceHistory.HistoryLength` | core/src/wallet/ethereum/EthereumLikeAccount.cpp:392-434 | there are ceil((end − start) / step) entries: none when start ≥ end, otherwise the least count of steps that reaches end |
| `BalanceHistory.HistoryEntry` | core/src/wallet/ethereum/EthereumLikeAccount.cpp:392-434 | entry k is the signed sum of every operation dated at or before start + (k+1)·step, earlier ones included |
| `BalanceHistory.HistoryWithoutOperations` | core/src/wallet/ethereum/EthereumLikeAccount.cpp:392-434 | without operations every entry is 0 |
| `BalanceHistory.HistoryTrailing` | core/src/wallet/ethereum/EthereumLikeAccount.cpp:428-434 | an entry whose bound is past every operation is the final balance, so trailing entries repeat it |
| `BalanceHistory.Accumulate` | core/src/wallet/ethereum/EthereumLikeAccount.cpp:392-436 | the two-level bucket walk and the padding loop over date-sorted operations return exactly `HistoryFrom(start, end, step, ops)` |
| `BalanceHistory.GetBalanceHistory` | core/src/wallet/ethereum/EthereumLikeAccount.cpp:358-437 | INVALID_DATE_FORMAT when start ≥ end; otherwise the history of the account's operations merged with the internal operations of the rows |
| `TransactionBuilder.Build` | core/src/wallet/ethereum/EthereumLikeAccount.cpp:661-683 | a balance failure is reported first; then INVALID_ARGUMENT when gas limit or gas price is missing or value is missing without wipe; then NOT_ENOUGH_FUNDS when balance − gasLimit·gasPrice < (wipe ? 0 : value); then a nonce failure |
| `TransactionBuilder.BuildSucceedsIff` | core/src/wallet/ethereum/EthereumLikeAccount.cpp:661-683 | a transaction is built iff both fetches succeed and the request is well formed and affordable |
| `TransactionBuilder.BuiltTransactionFields` | core/src/wallet/ethereum/EthereumLikeAccount.cpp:672-681 | a built transaction goes from the account address to the requested receiver, with the requested gas and data and the fetched nonce, and never spends more than the balance, worst-case fee included |
| `TransactionBuilder.WipeSendsEverything` | core/src/wallet/ethereum/EthereumLikeAccount.cpp:667-673 | a wipe sends exactly balance − gasLimit·gasPrice, which is non-negative; otherwise the requested value is sent |
| `TransactionBuilder.WipeIgnoresValue` | core/src/wallet/ethereum/EthereumLikeAccount.cpp:668-673 | with wipe set, the requested value does not affect the outcome |
| `RawTransaction.Hex` | core/src/wallet/ethereum/EthereumLikeAccount.cpp:541 | the hex text has two characters per byte (`HexAt` and `HexRoundTrip` give them) |
| `RawTransaction.HexAt` | core/src/wallet/ethereum/EthereumLikeAccount.cpp:541 | characters 2i and 2i+1 of the hex text are the high and low digit of byte i |
| `RawTransaction.HexRoundTrip` | core/src/wallet/ethereum/EthereumLikeAccount.cpp:541 | reading the hex text back gives the bytes |
| `RawTransaction.FindFrom` | core/src/wallet/ethereum/EthereumLikeAccount.cpp:543 | the search returns the first occurrence at or after the start, or none when there is none |
| `RawTransaction.Find` | core/src/wallet/ethereum/EthereumLikeAccount.cpp:543 | the search succeeds iff the pattern occurs somewhere |
| `RawTransaction.BigEndian` | core/src/wallet/ethereum/EthereumLikeAccount.cpp:558 | the integer of n bytes is below 256^n |
| `RawTransaction.WordRoundTrip` | core/src/wallet/ethereum/EthereumLikeAccount.cpp:553-558 | reading back the n-byte big-endian word of a number below 256^n gives the number |
| `RawTransaction.BigEndianRoundTrip` | core/src/wallet/ethereum/EthereumLikeAccount.cpp:553-558 | encoding the number read from n bytes as an n-byte word gives the bytes back |
| `RawTransaction.SelectorHex` | core/src/wallet/ethereum/EthereumLikeAccount.cpp:543 | the hex text of the selector bytes a9 05 9c bb is the method id "a9059cbb" |
| `RawTransaction.IsTransferCallAsWritten` | core/src/wallet/ethereum/EthereumLikeAccount.cpp:541-543 | data that passes the detector as written is 68 bytes long |
| `RawTransaction.DecodeTransfer` | core/src/wallet/ethereum/EthereumLikeAccount.cpp:544-561 | none exactly when the renderer rejects the number of bytes 4..35; otherwise a SEND from the account on the transaction's receiver contract, to the rendered recipient, whose value is the big-endian integer of bytes 36..67 |
| `RawTransaction.Record` | core/src/wallet/ethereum/EthereumLikeAccount.cpp:527-539 | the record has status 1, gasUsed 0, no block, the account as sender, the raw transaction's receiver, value, gas and data, and the current time |
| `RawTransaction.ExplorerTxFromRawTxAsWritten` | core/src/wallet/ethereum/EthereumLikeAccount.cpp:541-562 | as written: no record exactly when the detector passes and the renderer rejects the recipient; otherwise one token transfer iff the hex text has 136 characters and contains the method id anywhere, else none |
| `RawTransaction.ExplorerTxFromRawTx` | core/src/wallet/ethereum/EthereumLikeAccount.cpp:541-562 | as intended: no record exactly when the call is a `transfer` and the renderer rejects the recipient; otherwise one token transfer iff the data is 68 bytes starting with the selector, else none |
| `RawTransaction.TransferCallPassesAsWritten` | core/src/wallet/ethereum/EthereumLikeAccount.cpp:543 | every real `transfer` call passes the detector as written |
| `RawTransaction.RecordsAgreeOnTransferCalls` | core/src/wallet/ethereum/EthereumLikeAccount.cpp:541-562 | on a real `transfer` call both records are equal |
| `RawTransaction.DecodeTransferCall` | core/src/wallet/ethereum/EthereumLikeAccount.cpp:548-558 | a call built from the selector, a receiver word and an amount word is detected and decodes to that receiver, rendered, and that amount; it decodes to nothing when the renderer rejects the receiver |
| `RawTransaction.ApproveMistakenForTransfer` | core/src/wallet/ethereum/EthereumLikeAccount.cpp:543 | the 68-byte call `approve(spender, 0xa9059cbb)`, whose spender is a 20-byte address with a nonzero first hex digit, passes the detector as written but is not a `transfer` call; when the spender renders, the code's record carries a transfer of 0xa9059cbb tokens to the spender, and the intended record carries none |
| `SyncEvents.ToInt32` | core/src/wallet/ethereum/EthereumLikeAccount.cpp:496-505 | the 32-bit cast lies in [−2^31, 2^31), differs from its argument by a multiple of 2^32, and is the identity in range |
| `SyncEvents.ToInt32Unique` | core/src/wallet/ethereum/EthereumLikeAccount.cpp:496-505 | the cast is the only in-range value congruent to its argument modulo 2^32 |
| `SyncEvents.CompletionEvent` | core/src/wallet/ethereum/EthereumLikeAccount.cpp:487-507 | SUCCEED or FAILED by outcome; the duration is always present; a success has exactly the block height and new-operation keys plus the reorg key when there was a reorganisation; a failure has exactly the three error keys, whose name and number both come from the one error code |
| `SyncEvents.SucceededPayloadValues` | core/src/wallet/ethereum/EthereumLikeAccount.cpp:491-501 | a success reports each context value cast to 32 bits, unchanged when it fits |
| `SyncEvents.FailedPayloadValues` | core/src/wallet/ethereum/EthereumLikeAccount.cpp:502-507 | a failure reports the error code's name, the number of that same code cast to 32 bits, and the message |
| `EthereumAccount.AttachedSubOperations` | core/src/wallet/ethereum/EthereumLikeAccount.cpp:169-176 | a sub-operation is listed iff it is in the attached data of one of the operations |
| `EthereumAccount.AttachedSubOperationsConcat` | core/src/wallet/ethereum/EthereumLikeAccount.cpp:169-176 | the records of two runs of operations are those of the first run followed by those of the second, so the operations' order is kept |
| `EthereumAccount.LoadedSubAccounts` | core/src/wallet/ethereum/EthereumLikeAccount.cpp:646-654 | one sub-account per stored entry, with the entry's uid and the looked-up token, owned by the given address |
| `EthereumAccount.AppendSubOperations` | core/src/wallet/ethereum/EthereumLikeAccount.cpp:726-735 | the two uid arrays each grow by one entry per sub-operation; the wallet name and index are kept |
| `EthereumAccount.Emitted` | core/src/wallet/ethereum/EthereumLikeAccount.cpp:712-736 | an empty list leaves the pending event; otherwise there is a pending event whose arrays grow by the list; an existing event keeps its wallet name and index, and a new one takes the account's |
| `EthereumAccount.Tagged` | core/src/wallet/ethereum/EthereumLikeAccount.cpp:726-735 | the k-th sub-operation pairs the k-th operation with the given sub-account uid |
| `EthereumAccount.AppendSubOperationsContents` | core/src/wallet/ethereum/EthereumLikeAccount.cpp:726-735 | the batch keeps its earlier uids and gains, at matching positions, each operation uid and its sub-account uid |
| `EthereumAccount.AppendSubOperationsConcat` | core/src/wallet/ethereum/EthereumLikeAccount.cpp:726-735 | appending in two steps is appending everything at once |
| `EthereumAccount.EmittedConcat` | core/src/wallet/ethereum/EthereumLikeAccount.cpp:712-736 | coalescing: emitting two lists one after the other leaves the same pending event as emitting their concatenation |
| `EthereumAccount.EmittedPairsUids` | core/src/wallet/ethereum/EthereumLikeAccount.cpp:718-735 | a batch created by emission has arrays of equal length; position k pairs the k-th operation uid with its sub-account uid; the batch carries the wallet name and account index |
| `EthereumAccount.LoadedSubAccountsNotFoundUnderOtherAddress` | core/src/wallet/ethereum/EthereumLikeAccount.cpp:643-655 | sub-accounts loaded under the EIP-55 address never match a lookup by a different plain address |
| `EthereumAccount.EthereumLikeAccount.constructor` | core/src/wallet/ethereum/EthereumLikeAccount.cpp:65-74 | a new account has no sub-accounts, no running synchronization and no pending event |
| `EthereumAccount.EthereumLikeAccount.UpdateERC20Operation` | core/src/wallet/ethereum/EthereumLikeAccount.cpp:201-241 | RUNTIME_ERROR without attached data, registry unchanged; otherwise the operation and registry are those of `UpdateOne` |
| `EthereumAccount.EthereumLikeAccount.UpdateERC20Accounts` | core/src/wallet/ethereum/EthereumLikeAccount.cpp:181-199 | the transfer loop leaves the operation's data and the registry as `ApplyAll` specifies |
| `EthereumAccount.EthereumLikeAccount.UpdateOperation` | core/src/wallet/ethereum/EthereumLikeAccount.cpp:124-141 | emits the base operation of the kind; it carries the ERC20 attachment only while `result` is still ignored; the working copy keeps the inflated fields |
| `EthereumAccount.EthereumLikeAccount.InterpretTransaction` | core/src/wallet/ethereum/EthereumLikeAccount.cpp:104-158 | RUNTIME_ERROR once the wallet is gone; otherwise exactly the operations and registry of `Interpret` |
| `EthereumAccount.EthereumLikeAccount.InterpretMatches` | core/src/wallet/ethereum/EthereumLikeAccount.cpp:143-157 | the three steps' output, first one attached, is `Interpret`'s operation list, and the registry is `Interpret`'s |
| `EthereumAccount.EthereumLikeAccount.AddERC20Accounts` | core/src/wallet/ethereum/EthereumLikeAccount.cpp:643-655 | the registry gains the loaded sub-accounts, owned by the EIP-55 address, in entry order |
| `EthereumAccount.EthereumLikeAccount.GetBalance` | core/src/wallet/ethereum/EthereumLikeAccount.cpp:318-331 | a cached balance is returned without a fetch; otherwise the fetched balance is returned and cached; a fetch failure is passed on and caches nothing |
| `EthereumAccount.EthereumLikeAccount.BuildTransaction` | core/src/wallet/ethereum/EthereumLikeAccount.cpp:658-682 | the outcome is `Build` of the request, the balance `GetBalance` reads through the wallet's cache, the nonce and the account's own address; a built transaction is sent from the account address and, with its worst-case fee, spends no more than the cached balance; the cache changes as `GetBalance` changes it |
| `EthereumAccount.EthereumLikeAccount.IsSynchronizing` | core/src/wallet/ethereum/EthereumLikeAccount.cpp:460-463 | true iff the marker is set |
| `EthereumAccount.EthereumLikeAccount.Synchronize` | core/src/wallet/ethereum/EthereumLikeAccount.cpp:465-485 | with the marker set, returns that bus and starts no pass; otherwise installs a fresh bus carrying SYNCHRONIZATION_STARTED and starts one pass |
| `EthereumAccount.EthereumLikeAccount.OnCurrentBlock` | core/src/wallet/ethereum/EthereumLikeAccount.cpp:476-482 | a fetched block sets the current height; a failed fetch leaves it |
| `EthereumAccount.EthereumLikeAccount.CompleteSynchronization` | core/src/wallet/ethereum/EthereumLikeAccount.cpp:486-511 | posts the completion event on the pass's bus and clears the marker |
| `EthereumAccount.EthereumLikeAccount.EraseDataSince` | core/src/wallet/ethereum/EthereumLikeAccount.cpp:440-458 | clears the marker and returns FUTURE_WAS_SUCCESSFULL |
| `EthereumAccount.EthereumLikeAccount.SynchronizeTwice` | core/src/wallet/ethereum/EthereumLikeAccount.cpp:465-471 | two requests in a row return the same bus and start at most one pass |
| `EthereumAccount.EthereumLikeAccount.StaleCompletionClearsNewerPass` | core/src/wallet/ethereum/EthereumLikeAccount.cpp:509-510 | after an erase and a new pass, the old pass's completion clears the marker while the new pass runs |
| `EthereumAccount.EthereumLikeAccount.EmitNewERC20Operations` | core/src/wallet/ethereum/EthereumLikeAccount.cpp:712-736 | nothing for an empty list; otherwise the pending event, created for this wallet and index when absent, gains each operation uid paired with the sub-account uid |
| `EthereumAccount.EthereumLikeAccount.EmitNewERC20Operation` | core/src/wallet/ethereum/EthereumLikeAccount.cpp:698-701 | one operation is emitted as a one-element list |
| `EthereumAccount.EthereumLikeAccount.EmitSubOperations` | core/src/wallet/ethereum/EthereumLikeAccount.cpp:172-174 | each record of one attached data is emitted to its sub-account, in order |
| `EthereumAccount.EthereumLikeAccount.EmitInsertedOperations` | core/src/wallet/ethereum/EthereumLikeAccount.cpp:168-176 | every record attached to the inserted operations is emitted, in order |
| `EthereumAccount.EthereumLikeAccount.EmitEventsNow` | core/src/wallet/ethereum/EthereumLikeAccount.cpp:703-710 | the pending event, if any, is pushed and cleared |
| `EthereumAccount.EthereumLikeAccount.BroadcastRawTransaction` | core/src/wallet/ethereum/EthereumLikeAccount.cpp:566-583 | requires a live wallet, whose currency the source reads unguarded; returns the push result; after a successful push with a decodable transaction and a rendered recipient, the optimistic record built with the detector as written is interpreted, its records are emitted when storage accepts them, and the event is flushed; otherwise no state changes |

## Left out

- Storage: SQL sessions, queries and commits. This covers `bulkInsert`'s storage, the
  internal-operations SELECT, `getTransaction`, `putBlock`, `eraseDataSince`'s row deletion,
  `queryOperations` and the synchronizer's data. Whether `bulkInsert` succeeded is the
  `stored` parameter of `BroadcastRawTransaction`.
- Network calls are parameters: the explorer's balance, current block, nonce and push result.
  Gas-price, gas-limit and ERC20-balance queries only forward the explorer's answer and are
  not modelled.
- Futures, execution contexts, mutexes and event-bus transport are not modelled. Callbacks are
  methods called in sequence. Interleavings beyond the one in `StaleCompletionClearsNewerPass`
  are not explored.
- Uid hashing (`refreshUid`, `createUid`, `createERC20AccountUid`) is a symbolic,
  injective `Uid` term.
- RLP parsing of the raw transaction (`parseRawSignedTransaction`) is not modelled: the parsed
  transaction, or its absence, is an input.
- EIP-55 checksum casing is not modelled. The rendering of the recipient word's number (leading
  zeros dropped) is the `addressOf` parameter. It may reject the text; the optimistic update
  then records nothing, as the swallowing `Try` of line 571 does.
- `DateUtils`: JSON date parsing and calendar steps (months and years have varying lengths).
  Dates are integers and a period is a fixed positive step, which is why
  `BalanceHistory.GetBalanceHistory` requires `step > 0`.
- Amount and currency formatting, and the logger, are not modelled.
- `EthereumAccount.EthereumLikeAccount.BroadcastRawTransaction` requires a live wallet. The
  source reads the wallet's currency (line 526) before `interpretTransaction`'s guard, so a lost
  wallet there is a null dereference, which the model does not describe.
- The numeric values of `api::ErrorCode` come from a generated header that is not part of this
  model. They are the `codeNumber` parameter of `SyncEvents.CompletionEvent`, applied to the
  same code whose name is reported.
- The gas-limit, gas-used and gas-price columns of internal rows are read but unused by the
  source, so they are not modelled.
- `ERC20LikeAccount` internals are not part of this model. `putOperation` is modelled as
  recording (sub-account uid, sub-operation) in the parent operation's attached data, which is
  what `bulkInsert` reads back.
- `emitNewOperationsEvent`, the base `AbstractAccount::emitEventsNow` and `emitNewBlockEvent`
  belong to the base account and are not part of this model.
- The JNI transaction-builder glue is generated marshalling code with no logic of its own.
- Registry entries are values. The account list and the attached data's account list do not
  alias, so a later update to a shared sub-account object is not modelled.

## Findings

| source | as written | input that shows it | evidently intended | confidence | as-written member | corrected member |
|---|---|---|---|---|---|---|
| core/src/wallet/ethereum/EthereumLikeAccount.cpp:543 | the call data counts as an ERC20 `transfer` when its 136-character hex text contains `a9059cbb` anywhere | the 68-byte call `approve(0x7a250d5630b4cf539739df2c5dacb4c659f2488d, 0xa9059cbb)`: selector 0x095ea7b3, a word holding a 20-byte spender address whose first hex digit is 7, then the amount word, which ends in a9 05 9c bb. When the address renderer accepts the spender, it is recorded as a token transfer of 0xa9059cbb tokens to the spender | recognise only data of 68 bytes whose first four bytes are the `transfer` selector | not executed | `RawTransaction.ApproveMistakenForTransfer` | `RawTransaction.ExplorerTxFromRawTx` |
