/** ERC20 sub-operation attribution and the sub-account registry, as
    specification functions over values: the registry (`_erc20LikeAccounts`)
    and the attached data of the operation being interpreted are threaded
    through an `Erc20State`. The account class in account.dfy runs the same
    steps imperatively and is proved equal to these functions. */
module Erc20Registry {
  import opened EthTypes

  /** Kind of a token transfer as seen from `address`: its sender wins over
      its recipient. */
  function Classify(address: string, t: ERC20Transaction): (k: OperationType)
    ensures k == SEND <==> t.from == address
    ensures k == RECEIVE <==> t.from != address && t.to == address
    ensures k == NONE <==> t.from != address && t.to != address
  {
    if t.from == address then SEND else if t.to == address then RECEIVE else NONE
  }

  /** A sub-account matches when it is for `contract` and owned by `address`. */
  predicate Matches(account: ERC20LikeAccount, contract: string, address: string) {
    account.token.contractAddress == contract && account.address == address
  }

  predicate HasMatch(registry: seq<ERC20LikeAccount>, contract: string, address: string) {
    exists i :: 0 <= i < |registry| && Matches(registry[i], contract, address)
  }

  /** No two sub-accounts share a (contract, owner address) key. */
  predicate UniqueKeys(registry: seq<ERC20LikeAccount>) {
    forall i, j :: 0 <= i < j < |registry| ==>
      !Matches(registry[j], registry[i].token.contractAddress, registry[i].address)
  }

  /** The placeholder sub-account created on the first transfer of a contract. */
  function NewSubAccount(accountUid: string, contract: string, address: string): ERC20LikeAccount {
    ERC20LikeAccount(
      Erc20AccountUid(accountUid, contract),
      ERC20Token("UNKNOWN_TOKEN", "UNKNOWN", contract, 0),
      address)
  }

  /** The sub-operation for transfer `t` of the parent operation `parentUid`. */
  function SubOperationFor(address: string, parentUid: Uid, t: ERC20Transaction): ERC20LikeOperation {
    ERC20LikeOperation(Erc20OperationUid(parentUid, t.contractAddress, t.kind), address, parentUid, t)
  }

  /** The sub-operation records left by the scan of `registry`: one per
      matching sub-account, in registry order. */
  function Puts(registry: seq<ERC20LikeAccount>, address: string, op: ERC20LikeOperation): (r: seq<SubOperation>)
    ensures |r| <= |registry|
    ensures forall k :: 0 <= k < |r| ==> r[k].operation == op
  {
    if registry == [] then []
    else
      var last := registry[|registry| - 1];
      Puts(registry[..|registry| - 1], address, op)
        + (if Matches(last, op.transfer.contractAddress, address) then [SubOperation(last.uid, op)] else [])
  }

  datatype Erc20State = Erc20State(registry: seq<ERC20LikeAccount>, data: AttachedData)

  /** One find-or-create step for transfer `t`: put the sub-operation in every
      matching sub-account, or, when none matches, create a placeholder
      sub-account, register it in both the registry and the attached data,
      and put the sub-operation in it. */
  function UpdateOne(st: Erc20State, address: string, accountUid: string, parentUid: Uid, t: ERC20Transaction): (r: Erc20State)
    ensures |st.registry| <= |r.registry| <= |st.registry| + 1 && r.registry[..|st.registry|] == st.registry
    ensures |st.data.erc20Operations| < |r.data.erc20Operations|
    ensures r.data.erc20Operations[..|st.data.erc20Operations|] == st.data.erc20Operations
  {
    var op := SubOperationFor(address, parentUid, t);
    var puts := Puts(st.registry, address, op);
    if puts == [] then
      var account := NewSubAccount(accountUid, t.contractAddress, address);
      Erc20State(
        st.registry + [account],
        AttachedData(st.data.accounts + [account], st.data.erc20Operations + [SubOperation(account.uid, op)]))
    else
      Erc20State(st.registry, st.data.(erc20Operations := st.data.erc20Operations + puts))
  }

  /** Both passes for one transfer: once with its classified kind, and once
      more forced to RECEIVE when its recipient is `address`. */
  function ApplyTransfer(st: Erc20State, address: string, accountUid: string, parentUid: Uid, t: ERC20Transaction): (r: Erc20State)
    ensures |st.registry| <= |r.registry| <= |st.registry| + 2 && r.registry[..|st.registry|] == st.registry
    ensures |st.data.erc20Operations| < |r.data.erc20Operations|
    ensures r.data.erc20Operations[..|st.data.erc20Operations|] == st.data.erc20Operations
  {
    var classified := t.(kind := Classify(address, t));
    var first := UpdateOne(st, address, accountUid, parentUid, classified);
    if t.to == address then UpdateOne(first, address, accountUid, parentUid, classified.(kind := RECEIVE))
    else first
  }

  /** All transfers of a transaction, in order. */
  function ApplyAll(st: Erc20State, address: string, accountUid: string, parentUid: Uid, ts: seq<ERC20Transaction>): (r: Erc20State)
    ensures |st.registry| <= |r.registry| && r.registry[..|st.registry|] == st.registry
    ensures |st.data.erc20Operations| + |ts| <= |r.data.erc20Operations|
    ensures r.data.erc20Operations[..|st.data.erc20Operations|] == st.data.erc20Operations
  {
    if ts == [] then st
    else ApplyTransfer(ApplyAll(st, address, accountUid, parentUid, ts[..|ts| - 1]), address, accountUid, parentUid, ts[|ts| - 1])
  }

  /** Reference definition: the transfers, with their kinds, that the passes
      over `ts` attribute — one or two per transfer. */
  function TransferPasses(address: string, ts: seq<ERC20Transaction>): seq<ERC20Transaction> {
    if ts == [] then []
    else
      var t := ts[|ts| - 1];
      TransferPasses(address, ts[..|ts| - 1])
        + [t.(kind := Classify(address, t))]
        + (if t.to == address then [t.(kind := RECEIVE)] else [])
  }

  /** How many recipients in `ts` are `address`. */
  function CountTo(address: string, ts: seq<ERC20Transaction>): nat {
    if ts == [] then 0
    else CountTo(address, ts[..|ts| - 1]) + (if ts[|ts| - 1].to == address then 1 else 0)
  }

  /** The transfers carried by a list of sub-operation records. */
  function Transfers(subs: seq<SubOperation>): (r: seq<ERC20Transaction>)
    ensures |r| == |subs|
    ensures forall k :: 0 <= k < |subs| ==> r[k] == subs[k].operation.transfer
  {
    if subs == [] then [] else Transfers(subs[..|subs| - 1]) + [subs[|subs| - 1].operation.transfer]
  }

  // ---------------------------------------------------------------------
  // Lemmas

  /** The scan finds nothing exactly when no sub-account matches. */
  lemma {:induction false} PutsEmptyIff(registry: seq<ERC20LikeAccount>, address: string, op: ERC20LikeOperation)
    ensures Puts(registry, address, op) == [] <==> !HasMatch(registry, op.transfer.contractAddress, address)
  {
    var c := op.transfer.contractAddress;
    if registry != [] {
      var init := registry[..|registry| - 1];
      PutsEmptyIff(init, address, op);
      if HasMatch(init, c, address) {
        var i :| 0 <= i < |init| && Matches(init[i], c, address);
        assert registry[i] == init[i];
      }
      if HasMatch(registry, c, address) && !Matches(registry[|registry| - 1], c, address) {
        var i :| 0 <= i < |registry| && Matches(registry[i], c, address);
        assert init[i] == registry[i];
      }
    }
  }

  /** The positions of the sub-accounts that match the key. */
  function MatchIndices(registry: seq<ERC20LikeAccount>, contract: string, address: string): set<int> {
    set i | 0 <= i < |registry| && Matches(registry[i], contract, address)
  }

  /** The scan has no `break`: it records the sub-operation once for every
      matching sub-account. */
  lemma {:induction false} PutsCount(registry: seq<ERC20LikeAccount>, address: string, op: ERC20LikeOperation)
    ensures |Puts(registry, address, op)| == |MatchIndices(registry, op.transfer.contractAddress, address)|
  {
    var c := op.transfer.contractAddress;
    if registry != [] {
      var n := |registry| - 1;
      var init := registry[..n];
      PutsCount(init, address, op);
      var before, after := MatchIndices(init, c, address), MatchIndices(registry, c, address);
      assert n !in before;
      if Matches(registry[n], c, address) {
        assert after == before + {n};
      } else {
        assert after == before;
      }
    }
  }

  /** Every matching sub-account receives the sub-operation. */
  lemma {:induction false} PutsEveryMatch(registry: seq<ERC20LikeAccount>, address: string, op: ERC20LikeOperation, i: nat)
    requires i < |registry| && Matches(registry[i], op.transfer.contractAddress, address)
    ensures SubOperation(registry[i].uid, op) in Puts(registry, address, op)
    decreases |registry|
  {
    var n := |registry| - 1;
    if i < n {
      PutsEveryMatch(registry[..n], address, op, i);
    }
  }

  /** The records of two parts of the registry are those of the first part,
      then those of the second: the scan keeps registry order. */
  lemma {:induction false} PutsConcat(a: seq<ERC20LikeAccount>, b: seq<ERC20LikeAccount>, address: string, op: ERC20LikeOperation)
    ensures Puts(a + b, address, op) == Puts(a, address, op) + Puts(b, address, op)
  {
    if b == [] {
      assert a + b == a;
    } else {
      var init, ab := b[..|b| - 1], a + b;
      PutsConcat(a, init, address, op);
      assert ab[..|ab| - 1] == a + init && ab[|ab| - 1] == b[|b| - 1];
    }
  }

  /** One sub-account gets the record exactly when it matches. */
  lemma PutsOne(account: ERC20LikeAccount, address: string, op: ERC20LikeOperation)
    ensures Puts([account], address, op)
            == if Matches(account, op.transfer.contractAddress, address) then [SubOperation(account.uid, op)] else []
  {
    assert [account][..0] == [];
  }

  /** With unique keys, the scan finds at most one sub-account. */
  lemma {:induction false} UniquePutsAtMostOne(registry: seq<ERC20LikeAccount>, address: string, op: ERC20LikeOperation)
    requires UniqueKeys(registry)
    ensures |Puts(registry, address, op)| <= 1
  {
    if registry != [] {
      var n := |registry| - 1;
      var init := registry[..n];
      assert UniqueKeys(init) by {
        forall i, j | 0 <= i < j < |init|
          ensures !Matches(init[j], init[i].token.contractAddress, init[i].address)
        {
          assert init[i] == registry[i] && init[j] == registry[j];
        }
      }
      UniquePutsAtMostOne(init, address, op);
      if Matches(registry[n], op.transfer.contractAddress, address) {
        PutsEmptyIff(init, address, op);
      }
    }
  }

  /** Find-or-create: afterwards some sub-account matches; a new placeholder
      is appended to both the registry and the attached data exactly when
      none matched before, and otherwise both are unchanged. */
  lemma FindOrCreate(st: Erc20State, address: string, accountUid: string, parentUid: Uid, t: ERC20Transaction)
    ensures var st' := UpdateOne(st, address, accountUid, parentUid, t);
            var created := NewSubAccount(accountUid, t.contractAddress, address);
            && HasMatch(st'.registry, t.contractAddress, address)
            && (!HasMatch(st.registry, t.contractAddress, address) ==>
                  && st'.registry == st.registry + [created]
                  && st'.data.accounts == st.data.accounts + [created]
                  && st'.data.erc20Operations == st.data.erc20Operations + [SubOperation(created.uid, SubOperationFor(address, parentUid, t))])
            && (HasMatch(st.registry, t.contractAddress, address) ==>
                  && st'.registry == st.registry
                  && st'.data.accounts == st.data.accounts
                  && |st'.data.erc20Operations| > |st.data.erc20Operations|)
  {
    var st' := UpdateOne(st, address, accountUid, parentUid, t);
    PutsEmptyIff(st.registry, address, SubOperationFor(address, parentUid, t));
    if !HasMatch(st.registry, t.contractAddress, address) {
      var n := |st.registry|;
      assert Matches(st'.registry[n], t.contractAddress, address);
    }
  }

  /** Find-or-create never introduces a second sub-account for a key. */
  lemma UpdateKeepsKeysUnique(st: Erc20State, address: string, accountUid: string, parentUid: Uid, t: ERC20Transaction)
    requires UniqueKeys(st.registry)
    ensures UniqueKeys(UpdateOne(st, address, accountUid, parentUid, t).registry)
  {
    var op := SubOperationFor(address, parentUid, t);
    PutsEmptyIff(st.registry, address, op);
    var st' := UpdateOne(st, address, accountUid, parentUid, t);
    if !HasMatch(st.registry, t.contractAddress, address) {
      var n := |st.registry|;
      forall i, j | 0 <= i < j < |st'.registry|
        ensures !Matches(st'.registry[j], st'.registry[i].token.contractAddress, st'.registry[i].address)
      {
        if j == n {
          assert st'.registry[i] == st.registry[i];
        }
      }
    }
  }

  /** With unique keys, one find-or-create step records exactly one
      sub-operation, for the given transfer, in a matching sub-account. */
  lemma UpdateAppendsOne(st: Erc20State, address: string, accountUid: string, parentUid: Uid, t: ERC20Transaction)
    requires UniqueKeys(st.registry)
    ensures var st' := UpdateOne(st, address, accountUid, parentUid, t);
            var n := |st.data.erc20Operations|;
            && |st'.data.erc20Operations| == n + 1
            && st'.data.erc20Operations[..n] == st.data.erc20Operations
            && st'.data.erc20Operations[n].operation == SubOperationFor(address, parentUid, t)
            && NamesMatch(st'.registry, st'.data.erc20Operations[n].accountUid, t.contractAddress, address)
  {
    var op := SubOperationFor(address, parentUid, t);
    var puts := Puts(st.registry, address, op);
    var st' := UpdateOne(st, address, accountUid, parentUid, t);
    var n := |st.data.erc20Operations|;
    PutsEmptyIff(st.registry, address, op);
    UniquePutsAtMostOne(st.registry, address, op);
    if puts == [] {
      assert Matches(st'.registry[|st.registry|], t.contractAddress, address);
    } else {
      assert |puts| == 1;
      PutsFromMatch(st.registry, address, op);
      assert st'.data.erc20Operations[n] == puts[0];
    }
  }

  /** `uid` names a sub-account of `registry` that matches the key. */
  predicate NamesMatch(registry: seq<ERC20LikeAccount>, uid: Uid, contract: string, address: string) {
    exists i :: 0 <= i < |registry| && Matches(registry[i], contract, address) && registry[i].uid == uid
  }

  /** Every record of the scan names a matching sub-account. */
  lemma {:induction false} PutsFromMatch(registry: seq<ERC20LikeAccount>, address: string, op: ERC20LikeOperation)
    ensures forall k :: 0 <= k < |Puts(registry, address, op)| ==>
              NamesMatch(registry, Puts(registry, address, op)[k].accountUid, op.transfer.contractAddress, address)
  {
    var c := op.transfer.contractAddress;
    if registry != [] {
      var n := |registry| - 1;
      var init := registry[..n];
      PutsFromMatch(init, address, op);
      var p := Puts(registry, address, op);
      var q := Puts(init, address, op);
      assert forall k :: 0 <= k < |q| ==> NamesMatch(init, q[k].accountUid, c, address);
      assert p == q + (if Matches(registry[n], c, address) then [SubOperation(registry[n].uid, op)] else []);
      forall k | 0 <= k < |p|
        ensures NamesMatch(registry, p[k].accountUid, c, address)
      {
        if k < |q| {
          var i :| 0 <= i < |init| && Matches(init[i], c, address) && init[i].uid == q[k].accountUid;
          assert registry[i] == init[i];
          assert p[k] == q[k];
        } else {
          assert registry[n].uid == p[k].accountUid;
        }
      }
    }
  }

  /** The two passes over one transfer keep the keys unique. */
  lemma ApplyTransferKeepsKeysUnique(st: Erc20State, address: string, accountUid: string, parentUid: Uid, t: ERC20Transaction)
    requires UniqueKeys(st.registry)
    ensures UniqueKeys(ApplyTransfer(st, address, accountUid, parentUid, t).registry)
  {
    var classified := t.(kind := Classify(address, t));
    UpdateKeepsKeysUnique(st, address, accountUid, parentUid, classified);
    var first := UpdateOne(st, address, accountUid, parentUid, classified);
    UpdateKeepsKeysUnique(first, address, accountUid, parentUid, classified.(kind := RECEIVE));
  }

  /** Interpreting a transfer list keeps the keys unique. */
  lemma {:induction false} ApplyAllKeepsKeysUnique(st: Erc20State, address: string, accountUid: string, parentUid: Uid, ts: seq<ERC20Transaction>)
    requires UniqueKeys(st.registry)
    ensures UniqueKeys(ApplyAll(st, address, accountUid, parentUid, ts).registry)
  {
    if ts != [] {
      ApplyAllKeepsKeysUnique(st, address, accountUid, parentUid, ts[..|ts| - 1]);
      ApplyTransferKeepsKeysUnique(ApplyAll(st, address, accountUid, parentUid, ts[..|ts| - 1]), address, accountUid, parentUid, ts[|ts| - 1]);
    }
  }

  /** With unique keys, the two passes over one transfer record exactly the
      transfers `TransferPasses` lists for it. */
  lemma ApplyTransferPasses(st: Erc20State, address: string, accountUid: string, parentUid: Uid, t: ERC20Transaction)
    requires UniqueKeys(st.registry)
    ensures Transfers(ApplyTransfer(st, address, accountUid, parentUid, t).data.erc20Operations)
            == Transfers(st.data.erc20Operations) + TransferPasses(address, [t])
  {
    var classified := t.(kind := Classify(address, t));
    var first := UpdateOne(st, address, accountUid, parentUid, classified);
    UpdateAppendsOne(st, address, accountUid, parentUid, classified);
    TransfersSnoc(st.data.erc20Operations, first.data.erc20Operations);
    assert [t][..0] == [];
    if t.to == address {
      var second := classified.(kind := RECEIVE);
      var last := UpdateOne(first, address, accountUid, parentUid, second);
      UpdateKeepsKeysUnique(st, address, accountUid, parentUid, classified);
      UpdateAppendsOne(first, address, accountUid, parentUid, second);
      TransfersSnoc(first.data.erc20Operations, last.data.erc20Operations);
      assert TransferPasses(address, [t]) == [classified] + [second];
    } else {
      assert TransferPasses(address, [t]) == [classified];
    }
  }

  /** One more record carries one more transfer. */
  lemma TransfersSnoc(subs: seq<SubOperation>, subs': seq<SubOperation>)
    requires |subs'| == |subs| + 1 && subs'[..|subs|] == subs
    ensures Transfers(subs') == Transfers(subs) + [subs'[|subs|].operation.transfer]
  {
  }

  /** With unique keys, interpreting the transfer list records exactly the
      reference passes, in order. */
  lemma {:induction false} ApplyAllPasses(st: Erc20State, address: string, accountUid: string, parentUid: Uid, ts: seq<ERC20Transaction>)
    requires UniqueKeys(st.registry)
    ensures Transfers(ApplyAll(st, address, accountUid, parentUid, ts).data.erc20Operations)
            == Transfers(st.data.erc20Operations) + TransferPasses(address, ts)
  {
    if ts != [] {
      var init := ts[..|ts| - 1];
      ApplyAllPasses(st, address, accountUid, parentUid, init);
      ApplyLastPasses(st, address, accountUid, parentUid, ts);
      TransferPassesSnoc(address, ts);
      AppendStep(Transfers(ApplyAll(st, address, accountUid, parentUid, ts).data.erc20Operations),
                 Transfers(ApplyAll(st, address, accountUid, parentUid, init).data.erc20Operations),
                 Transfers(st.data.erc20Operations), TransferPasses(address, init),
                 TransferPasses(address, [ts[|ts| - 1]]), TransferPasses(address, ts));
    }
  }

  /** The step of `ApplyAllPasses`: the last transfer's passes. */
  lemma ApplyLastPasses(st: Erc20State, address: string, accountUid: string, parentUid: Uid, ts: seq<ERC20Transaction>)
    requires ts != [] && UniqueKeys(st.registry)
    ensures Transfers(ApplyAll(st, address, accountUid, parentUid, ts).data.erc20Operations)
            == Transfers(ApplyAll(st, address, accountUid, parentUid, ts[..|ts| - 1]).data.erc20Operations)
               + TransferPasses(address, [ts[|ts| - 1]])
  {
    var mid := ApplyAll(st, address, accountUid, parentUid, ts[..|ts| - 1]);
    ApplyAllKeepsKeysUnique(st, address, accountUid, parentUid, ts[..|ts| - 1]);
    ApplyTransferPasses(mid, address, accountUid, parentUid, ts[|ts| - 1]);
  }

  /** One more transfer of the list is one more `ApplyTransfer`. */
  lemma ApplyAllStep(st: Erc20State, address: string, accountUid: string, parentUid: Uid, ts: seq<ERC20Transaction>, i: nat)
    requires i < |ts|
    ensures ApplyAll(st, address, accountUid, parentUid, ts[..i + 1])
            == ApplyTransfer(ApplyAll(st, address, accountUid, parentUid, ts[..i]), address, accountUid, parentUid, ts[i])
  {
    assert ts[..i + 1][..i] == ts[..i];
  }

  lemma AppendStep<T>(whole: seq<T>, mid: seq<T>, before: seq<T>, passes: seq<T>, last: seq<T>, all: seq<T>)
    requires whole == mid + last && mid == before + passes && all == passes + last
    ensures whole == before + all
  {
  }

  lemma TransferPassesSnoc(address: string, ts: seq<ERC20Transaction>)
    requires ts != []
    ensures TransferPasses(address, ts)
            == TransferPasses(address, ts[..|ts| - 1]) + TransferPasses(address, [ts[|ts| - 1]])
  {
    var t := ts[|ts| - 1];
    assert [t][..0] == [];
    assert TransferPasses(address, [t]) == [t.(kind := Classify(address, t))]
             + (if t.to == address then [t.(kind := RECEIVE)] else []);
  }

  /** Each transfer yields one pass, plus one more when it is received by
      `address`. */
  lemma {:induction false} TransferPassesCount(address: string, ts: seq<ERC20Transaction>)
    ensures |TransferPasses(address, ts)| == |ts| + CountTo(address, ts)
  {
    if ts != [] {
      TransferPassesCount(address, ts[..|ts| - 1]);
    }
  }

  /** The forced RECEIVE pass of a transfer that was already classified
      RECEIVE yields a sub-operation with the same uid as the first pass, so
      the uid-keyed store keeps one of them. */
  lemma ForcedReceiveRepeatsUid(address: string, parentUid: Uid, t: ERC20Transaction)
    requires t.from != address && t.to == address
    ensures var classified := t.(kind := Classify(address, t));
            SubOperationFor(address, parentUid, classified).uid
              == SubOperationFor(address, parentUid, classified.(kind := RECEIVE)).uid
  {
  }
}
