/** The optimistic explorer record built from a raw signed transaction right
    after it is broadcast: the fields the account can know before the
    transaction is mined, and, for an ERC20 `transfer` call, the token
    transfer decoded from the call data. RLP decoding and EIP-55 rendering
    are collaborators: the decoded transaction and the address renderer are
    inputs. */
module RawTransaction {
  import opened EthTypes

  // ---------------------------------------------------------------------
  // Lower-case hex text, as the library's hex::toString writes it

  /** The digit of a nibble: '0'..'9', then 'a'..'f'. */
  function HexDigit(n: int): char
    requires 0 <= n < 16
  {
    if n < 10 then ('0' as int + n) as char else ('a' as int + n - 10) as char
  }

  /** The value of a lower-case hex digit, if it is one. */
  function DigitValue(c: char): (r: Option<int>)
    ensures r.Some? ==> 0 <= r.value < 16 && HexDigit(r.value) == c
  {
    if '0' <= c <= '9' then Some(c as int - '0' as int)
    else if 'a' <= c <= 'f' then Some(c as int - 'a' as int + 10)
    else None
  }

  lemma DigitValueOfHexDigit(n: int)
    requires 0 <= n < 16
    ensures DigitValue(HexDigit(n)) == Some(n)
  {
  }

  /** Two hex digits per byte, high nibble first. */
  function Hex(data: seq<uint8>): (r: string)
    ensures |r| == 2 * |data|
  {
    if data == [] then []
    else
      var b := data[|data| - 1] as int;
      Hex(data[..|data| - 1]) + [HexDigit(b / 16), HexDigit(b % 16)]
  }

  lemma {:induction false} HexAppend(a: seq<uint8>, b: seq<uint8>)
    ensures Hex(a + b) == Hex(a) + Hex(b)
  {
    if b != [] {
      HexAppend(a, b[..|b| - 1]);
      assert (a + b)[..|a + b| - 1] == a + b[..|b| - 1];
      assert (a + b)[|a + b| - 1] == b[|b| - 1];
    } else {
      assert a + b == a;
    }
  }

  /** Characters 2i and 2i+1 spell byte i. */
  lemma {:induction false} HexAt(data: seq<uint8>, i: nat)
    requires i < |data|
    ensures Hex(data)[2 * i] == HexDigit(data[i] as int / 16)
    ensures Hex(data)[2 * i + 1] == HexDigit(data[i] as int % 16)
  {
    if i < |data| - 1 {
      HexAt(data[..|data| - 1], i);
    }
  }

  /** Reads hex text back into bytes; `None` on an odd length or a
      character that is not a lower-case hex digit. */
  function UnHex(s: string): Option<seq<uint8>>
    decreases |s|
  {
    if s == [] then Some([])
    else if |s| == 1 then None
    else
      var hi, lo, rest := DigitValue(s[|s| - 2]), DigitValue(s[|s| - 1]), UnHex(s[..|s| - 2]);
      if hi.None? || lo.None? || rest.None? then None
      else Some(rest.value + [(hi.value * 16 + lo.value) as uint8])
  }

  /** Reading the hex text gives the bytes back. */
  lemma {:induction false} HexRoundTrip(data: seq<uint8>)
    ensures UnHex(Hex(data)) == Some(data)
  {
    if data != [] {
      var init, x := data[..|data| - 1], data[|data| - 1];
      HexRoundTrip(init);
      HexSnoc(data);
      UnHexSnoc(Hex(init), init, x);
      assert init + [x] == data;
    }
  }

  lemma HexSnoc(data: seq<uint8>)
    requires data != []
    ensures var x := data[|data| - 1] as int;
            Hex(data) == Hex(data[..|data| - 1]) + [HexDigit(x / 16), HexDigit(x % 16)]
  {
  }

  /** The step of `HexRoundTrip`: the two digits of one more byte are read
      as that byte. */
  lemma UnHexSnoc(s: string, bytes: seq<uint8>, x: uint8)
    requires UnHex(s) == Some(bytes)
    ensures UnHex(s + [HexDigit(x as int / 16), HexDigit(x as int % 16)]) == Some(bytes + [x])
  {
    var hi, lo := x as int / 16, x as int % 16;
    DigitValueOfHexDigit(hi);
    DigitValueOfHexDigit(lo);
    var t := s + [HexDigit(hi), HexDigit(lo)];
    assert t[..|t| - 2] == s && t[|t| - 2] == HexDigit(hi) && t[|t| - 1] == HexDigit(lo);
    assert (hi * 16 + lo) as uint8 == x;
  }

  // ---------------------------------------------------------------------
  // Substring search, as std::string::find

  predicate OccursAt(s: string, pattern: string, i: int) {
    0 <= i && i + |pattern| <= |s| && s[i..i + |pattern|] == pattern
  }

  /** The first position at or after `from` where `pattern` occurs. */
  function FindFrom(s: string, pattern: string, from: nat): (r: Option<nat>)
    ensures r.Some? ==> from <= r.value && OccursAt(s, pattern, r.value)
    ensures r.Some? ==> forall j :: from <= j < r.value ==> !OccursAt(s, pattern, j)
    ensures r.None? ==> forall j :: from <= j ==> !OccursAt(s, pattern, j)
    decreases |s| - from
  {
    if from + |pattern| > |s| then None
    else if s[from..from + |pattern|] == pattern then Some(from)
    else FindFrom(s, pattern, from + 1)
  }

  function Find(s: string, pattern: string): (r: Option<nat>)
    ensures r.Some? <==> exists j :: OccursAt(s, pattern, j)
  {
    var r := FindFrom(s, pattern, 0);
    if r.Some? then r
    else
      assert forall j :: !OccursAt(s, pattern, j) by {
        forall j ensures !OccursAt(s, pattern, j) {
          if 0 <= j {
            assert !OccursAt(s, pattern, j);
          }
        }
      }
      r
  }

  // ---------------------------------------------------------------------
  // Big-endian words

  function Pow256(n: nat): (r: nat)
    ensures r > 0
  {
    if n == 0 then 1 else 256 * Pow256(n - 1)
  }

  /** The unsigned big-endian integer of the bytes (BigInt::fromHex of
      their hex text). */
  function BigEndian(bytes: seq<uint8>): (r: nat)
    ensures r < Pow256(|bytes|)
  {
    if bytes == [] then 0
    else 256 * BigEndian(bytes[..|bytes| - 1]) + bytes[|bytes| - 1] as nat
  }

  /** The `len`-byte big-endian encoding of `n` modulo 256^len. */
  function Word(n: nat, len: nat): (r: seq<uint8>)
    ensures |r| == len
  {
    if len == 0 then [] else Word(n / 256, len - 1) + [(n % 256) as uint8]
  }

  /** Reading a word back gives the number it encodes. */
  lemma {:induction false} WordRoundTrip(n: nat, len: nat)
    requires n < Pow256(len)
    ensures BigEndian(Word(n, len)) == n
  {
    if len > 0 {
      WordRoundTrip(n / 256, len - 1);
      assert Word(n, len)[..len - 1] == Word(n / 256, len - 1);
    }
  }

  /** Encoding what was read gives the bytes back. */
  lemma {:induction false} BigEndianRoundTrip(bytes: seq<uint8>)
    ensures Word(BigEndian(bytes), |bytes|) == bytes
  {
    if bytes != [] {
      var init := bytes[..|bytes| - 1];
      BigEndianRoundTrip(init);
      var n := BigEndian(bytes);
      assert n / 256 == BigEndian(init);
      assert n % 256 == bytes[|bytes| - 1] as int;
    }
  }

  // ---------------------------------------------------------------------
  // The optimistic record

  /** The ERC20 `transfer(address,uint256)` method id. */
  const TRANSFER_SELECTOR: seq<uint8> := [0xa9, 0x05, 0x9c, 0xbb]
  const TRANSFER_METHOD_ID: string := "a9059cbb"

  /** A `transfer` call is the selector, a 32-byte receiver and a 32-byte
      amount: 68 bytes, 136 hex characters. */
  const TRANSFER_CALL_SIZE: nat := 68

  lemma SelectorHex()
    ensures Hex(TRANSFER_SELECTOR) == TRANSFER_METHOD_ID
  {
    var s0: seq<uint8> := [];
    var s1, s2, s3 := s0 + [0xa9], s0 + [0xa9, 0x05], s0 + [0xa9, 0x05, 0x9c];
    assert s1[..0] == s0 && s2[..1] == s1 && s3[..2] == s2 && TRANSFER_SELECTOR[..3] == s3;
    assert Hex(s1) == "a9";
    assert Hex(s2) == "a905";
    assert Hex(s3) == "a9059c";
  }

  /** A raw signed transaction as the RLP decoder returns it; `receiver` is
      already in EIP-55 form. */
  datatype ParsedRawTx = ParsedRawTx(
    gasLimit: int,
    gasPrice: int,
    value: int,
    receiver: string,
    data: Option<seq<uint8>>)

  /** The detector as written: the hex text has 136 characters and contains
      the method id anywhere. */
  predicate IsTransferCallAsWritten(data: seq<uint8>)
    ensures IsTransferCallAsWritten(data) ==> |data| == TRANSFER_CALL_SIZE
  {
    var text := Hex(data);
    |text| == 2 * TRANSFER_CALL_SIZE && Find(text, TRANSFER_METHOD_ID).Some?
  }

  /** The detector as intended: 68 bytes that start with the selector. */
  predicate IsTransferCall(data: seq<uint8>) {
    |data| == TRANSFER_CALL_SIZE && data[..4] == TRANSFER_SELECTOR
  }

  /** The token transfer a 68-byte call encodes: the sender is the account,
      the recipient the address rendered from the number in the first word
      (leading zeros dropped), the value the second word, the contract the
      transaction's receiver. `None` when the renderer rejects the
      recipient. */
  function DecodeTransfer(sender: string, contract: string, data: seq<uint8>, addressOf: nat -> Option<string>): (t: Option<ERC20Transaction>)
    requires |data| == TRANSFER_CALL_SIZE
    ensures t.Some? <==> addressOf(BigEndian(data[4..36])).Some?
    ensures t.Some? ==> t.value.from == sender && t.value.to == addressOf(BigEndian(data[4..36])).value
    ensures t.Some? ==> t.value.contractAddress == contract && t.value.kind == SEND
    ensures t.Some? ==> 0 <= t.value.value < Pow256(32) && Word(t.value.value, 32) == data[36..68]
  {
    BigEndianRoundTrip(data[36..68]);
    var to := addressOf(BigEndian(data[4..36]));
    if to.None? then None
    else Some(ERC20Transaction(sender, to.value, BigEndian(data[36..68]), contract, SEND))
  }

  /** The record shared by both detectors: status 1 (optimistically
      successful), no gas used and no block yet, the account's address as
      sender, received now. */
  function Record(sender: string, txHash: string, tx: ParsedRawTx, now: int, transfers: seq<ERC20Transaction>): (r: ExplorerTransaction)
    ensures r.hash == txHash && r.sender == sender && r.receiver == tx.receiver
    ensures r.status == 1 && r.gasUsed == Some(0) && r.block.None? && r.receivedAt == now
    ensures r.value == tx.value && r.gasLimit == tx.gasLimit && r.gasPrice == tx.gasPrice
    ensures r.inputData == tx.data.GetOr([]) && r.erc20Transactions == transfers && r.internalTransactions == []
  {
    ExplorerTransaction(txHash, sender, tx.receiver, tx.value, tx.gasPrice, tx.gasLimit, Some(0), 1, None, now,
                        tx.data.GetOr([]), transfers, [])
  }

  /** The record as the code builds it, with the detector as written.
      `None` when the renderer rejects the decoded recipient: the exception
      escapes and the caller records nothing. */
  function ExplorerTxFromRawTxAsWritten(sender: string, txHash: string, tx: ParsedRawTx, now: int, addressOf: nat -> Option<string>): (r: Option<ExplorerTransaction>)
    ensures var data := tx.data.GetOr([]);
            r.None? <==> IsTransferCallAsWritten(data) && addressOf(BigEndian(data[4..36])).None?
    ensures r.Some? ==> |r.value.erc20Transactions| <= 1
    ensures r.Some? ==> (|r.value.erc20Transactions| == 1 <==> IsTransferCallAsWritten(tx.data.GetOr([])))
  {
    var data := tx.data.GetOr([]);
    if !IsTransferCallAsWritten(data) then Some(Record(sender, txHash, tx, now, []))
    else
      var t := DecodeTransfer(sender, tx.receiver, data, addressOf);
      if t.None? then None else Some(Record(sender, txHash, tx, now, [t.value]))
  }

  /** The record with the intended detector: a token transfer is recorded
      exactly for a call of `transfer`. */
  function ExplorerTxFromRawTx(sender: string, txHash: string, tx: ParsedRawTx, now: int, addressOf: nat -> Option<string>): (r: Option<ExplorerTransaction>)
    ensures var data := tx.data.GetOr([]);
            r.None? <==> IsTransferCall(data) && addressOf(BigEndian(data[4..36])).None?
    ensures r.Some? ==> |r.value.erc20Transactions| <= 1
    ensures r.Some? ==> (|r.value.erc20Transactions| == 1 <==> IsTransferCall(tx.data.GetOr([])))
  {
    var data := tx.data.GetOr([]);
    if !IsTransferCall(data) then Some(Record(sender, txHash, tx, now, []))
    else
      var t := DecodeTransfer(sender, tx.receiver, data, addressOf);
      if t.None? then None else Some(Record(sender, txHash, tx, now, [t.value]))
  }

  // ---------------------------------------------------------------------
  // Lemmas

  /** Every `transfer` call passes the detector as written, and both records
      then agree. */
  lemma TransferCallPassesAsWritten(data: seq<uint8>)
    requires IsTransferCall(data)
    ensures IsTransferCallAsWritten(data)
  {
    assert data == data[..4] + data[4..];
    HexAppend(data[..4], data[4..]);
    SelectorHex();
    assert OccursAt(Hex(data), TRANSFER_METHOD_ID, 0);
  }

  lemma RecordsAgreeOnTransferCalls(sender: string, txHash: string, tx: ParsedRawTx, now: int, addressOf: nat -> Option<string>)
    requires IsTransferCall(tx.data.GetOr([]))
    ensures ExplorerTxFromRawTxAsWritten(sender, txHash, tx, now, addressOf)
            == ExplorerTxFromRawTx(sender, txHash, tx, now, addressOf)
  {
    TransferCallPassesAsWritten(tx.data.GetOr([]));
  }

  /** The decoded transfer round-trips: a call built from the selector, a
      receiver word and an amount word decodes to that receiver, rendered,
      and that amount. */
  lemma DecodeTransferCall(sender: string, contract: string, receiver: nat, amount: nat, addressOf: nat -> Option<string>)
    requires receiver < Pow256(32) && amount < Pow256(32)
    ensures var data := TRANSFER_SELECTOR + Word(receiver, 32) + Word(amount, 32);
            && IsTransferCall(data)
            && DecodeTransfer(sender, contract, data, addressOf)
               == (if addressOf(receiver).Some?
                   then Some(ERC20Transaction(sender, addressOf(receiver).value, amount, contract, SEND))
                   else None)
  {
    CallWords(TRANSFER_SELECTOR, Word(receiver, 32), Word(amount, 32));
    WordRoundTrip(receiver, 32);
    WordRoundTrip(amount, 32);
  }

  /** The selector and the two words of a call, read back by position. */
  lemma CallWords(selector: seq<uint8>, first: seq<uint8>, second: seq<uint8>)
    requires |selector| == 4 && |first| == 32 && |second| == 32
    ensures var data := selector + first + second;
            && |data| == TRANSFER_CALL_SIZE
            && data[..4] == selector && data[4..36] == first && data[36..68] == second
  {
    var data := selector + first + second;
    assert data[..4] == selector;
    assert data[4..36] == first;
    assert data[36..68] == second;
  }

  /** The `approve(address,uint256)` method id. */
  const APPROVE_SELECTOR: seq<uint8> := [0x09, 0x5e, 0xa7, 0xb3]

  /** A spender: a 20-byte address whose first hex digit is not zero, so
      its number renders to all 40 digits. */
  const APPROVE_SPENDER: nat := 0x7a250d5630b4cf539739df2c5dacb4c659f2488d

  /** The call data of `approve(APPROVE_SPENDER, 0xa9059cbb)`. */
  function ApproveCall(): seq<uint8> {
    APPROVE_SELECTOR + Word(APPROVE_SPENDER, 32) + Word(0xa9059cbb, 32)
  }

  /** The amount word 0xa9059cbb ends in the bytes of the transfer selector. */
  lemma AmountWordEndsInSelector()
    ensures Word(0xa9059cbb, 32) == Word(0, 28) + TRANSFER_SELECTOR
  {
    assert Word(0xa9, 29) == Word(0, 28) + [0xa9];
    assert Word(0xa905, 30) == Word(0xa9, 29) + [0x05];
    assert Word(0xa9059c, 31) == Word(0xa905, 30) + [0x9c];
    assert Word(0xa9059cbb, 32) == Word(0xa9059c, 31) + [0xbb];
  }

  /** The spender is a 20-byte number with a nonzero first hex digit. */
  lemma SpenderBounds()
    ensures 16 * Pow256(19) <= APPROVE_SPENDER < Pow256(20) && Pow256(20) < Pow256(32)
  {
    assert Pow256(5) == 0x10000000000;
    PowAdd(5, 5);
    PowAdd(10, 10);
    assert Pow256(20) == 256 * Pow256(19) == 0x10000000000000000000000000000000000000000;
    PowMonotone(20, 32);
  }

  lemma {:induction false} PowAdd(m: nat, n: nat)
    ensures Pow256(m + n) == Pow256(m) * Pow256(n)
  {
    if m > 0 {
      PowAdd(m - 1, n);
    }
  }

  lemma {:induction false} PowMonotone(m: nat, n: nat)
    requires m < n
    ensures Pow256(m) < Pow256(n)
    decreases n - m
  {
    if m + 1 < n {
      PowMonotone(m + 1, n);
    }
  }

  /** The approve call's words, and its hex text, which holds the method id
      of `transfer` at character 128. */
  lemma ApproveCallShape()
    ensures var data := ApproveCall();
            && |data| == TRANSFER_CALL_SIZE && data[..4] == APPROVE_SELECTOR
            && BigEndian(data[4..36]) == APPROVE_SPENDER && BigEndian(data[36..68]) == 0xa9059cbb
            && OccursAt(Hex(data), TRANSFER_METHOD_ID, 128)
  {
    var data := ApproveCall();
    var spender, amount := Word(APPROVE_SPENDER, 32), Word(0xa9059cbb, 32);
    SpenderBounds();
    CallWords(APPROVE_SELECTOR, spender, amount);
    WordRoundTrip(APPROVE_SPENDER, 32);
    WordRoundTrip(0xa9059cbb, 32);
    AmountWordEndsInSelector();
    var head := APPROVE_SELECTOR + spender + Word(0, 28);
    assert data == head + TRANSFER_SELECTOR;
    HexAppend(head, TRANSFER_SELECTOR);
    SelectorHex();
    assert Hex(data)[128..136] == TRANSFER_METHOD_ID;
  }

  /** The detector as written takes this `approve` call for a token
      transfer: when the spender renders, the code records a transfer of
      0xa9059cbb tokens to the spender. The intended detector records no
      transfer. */
  lemma ApproveMistakenForTransfer(sender: string, txHash: string, tx: ParsedRawTx, now: int, addressOf: nat -> Option<string>)
    requires tx.data == Some(ApproveCall())
    ensures 16 * Pow256(19) <= APPROVE_SPENDER < Pow256(20)
    ensures IsTransferCallAsWritten(ApproveCall()) && !IsTransferCall(ApproveCall())
    ensures addressOf(APPROVE_SPENDER).Some? ==>
              ExplorerTxFromRawTxAsWritten(sender, txHash, tx, now, addressOf)
              == Some(Record(sender, txHash, tx, now,
                             [ERC20Transaction(sender, addressOf(APPROVE_SPENDER).value, 0xa9059cbb, tx.receiver, SEND)]))
    ensures ExplorerTxFromRawTx(sender, txHash, tx, now, addressOf) == Some(Record(sender, txHash, tx, now, []))
  {
    SpenderBounds();
    ApproveCallShape();
    var data := ApproveCall();
    assert data[0] == 0x09;
    assert IsTransferCallAsWritten(data);
  }
}
