/** The events a synchronization pass posts on its bus: SYNCHRONIZATION_STARTED
    when it begins, then SYNCHRONIZATION_SUCCEED or SYNCHRONIZATION_FAILED
    with a payload that reports the outcome. Integer payload entries are
    written with a 32-bit signed cast, modelled as two's-complement
    wrap-around. */
module SyncEvents {
  import opened EthTypes

  const TWO_32: int := 0x1_0000_0000
  const INT32_MIN: int := -0x8000_0000
  const INT32_MAX: int := 0x7fff_ffff

  /** static_cast<int32_t>: the representative of `x` modulo 2^32 in
      [-2^31, 2^31). */
  function ToInt32(x: int): (r: int)
    ensures INT32_MIN <= r <= INT32_MAX
    ensures (x - r) % TWO_32 == 0
    ensures INT32_MIN <= x <= INT32_MAX ==> r == x
  {
    var m := x % TWO_32;
    if m > INT32_MAX then m - TWO_32 else m
  }

  /** Only one value in range is congruent to `x`: the cast is the unique
      32-bit value that differs from `x` by a multiple of 2^32. */
  lemma ToInt32Unique(x: int, y: int)
    requires INT32_MIN <= y <= INT32_MAX && (x - y) % TWO_32 == 0
    ensures ToInt32(x) == y
  {
    var r := ToInt32(x);
    assert (r - y) % TWO_32 == 0 by {
      var a, b := (x - y) / TWO_32, (x - r) / TWO_32;
      assert x - y == a * TWO_32;
      assert x - r == b * TWO_32;
      assert r - y == (a - b) * TWO_32;
    }
  }

  datatype EventCode =
    | SYNCHRONIZATION_STARTED
    | SYNCHRONIZATION_SUCCEED
    | SYNCHRONIZATION_FAILED

  /** The payload keys api::Account defines for synchronization events. */
  datatype PayloadKey =
    | EV_SYNC_DURATION_MS
    | EV_SYNC_LAST_BLOCK_HEIGHT
    | EV_SYNC_NEW_OPERATIONS
    | EV_SYNC_REORG_BLOCK_HEIGHT
    | EV_SYNC_ERROR_CODE
    | EV_SYNC_ERROR_CODE_INT
    | EV_SYNC_ERROR_MESSAGE

  datatype PayloadValue = PLong(long: int) | PInt(int32: int) | PString(text: string)

  datatype SyncEvent = SyncEvent(code: EventCode, payload: map<PayloadKey, PayloadValue>)

  /** What the synchronizer reports on success. */
  datatype SyncContext = SyncContext(lastBlockHeight: int, newOperations: int, reorgBlockHeight: Option<int>)

  /** The outcome of a pass: its context, or the error it failed with. */
  datatype SyncOutcome =
    | Succeeded(context: SyncContext)
    | Failed(error: ErrorCode, message: string)

  const STARTED_EVENT: SyncEvent := SyncEvent(SYNCHRONIZATION_STARTED, map[])

  /** The event the completion callback posts: the duration always; on
      success the last block height, the new-operation count and, only after
      a reorganisation, its height; on failure the code's name, its number
      and the message. Both error entries come from the same code:
      `codeNumber` gives each api::ErrorCode its enumerator value. */
  function CompletionEvent(outcome: SyncOutcome, durationMs: int, codeNumber: ErrorCode -> int): (e: SyncEvent)
    ensures e.code == (if outcome.Succeeded? then SYNCHRONIZATION_SUCCEED else SYNCHRONIZATION_FAILED)
    ensures EV_SYNC_DURATION_MS in e.payload && e.payload[EV_SYNC_DURATION_MS] == PLong(durationMs)
    ensures outcome.Succeeded? ==>
              e.payload.Keys == {EV_SYNC_DURATION_MS, EV_SYNC_LAST_BLOCK_HEIGHT, EV_SYNC_NEW_OPERATIONS}
                                + (if outcome.context.reorgBlockHeight.Some? then {EV_SYNC_REORG_BLOCK_HEIGHT} else {})
    ensures outcome.Failed? ==>
              e.payload.Keys == {EV_SYNC_DURATION_MS, EV_SYNC_ERROR_CODE, EV_SYNC_ERROR_CODE_INT, EV_SYNC_ERROR_MESSAGE}
  {
    var base := map[EV_SYNC_DURATION_MS := PLong(durationMs)];
    match outcome
    case Succeeded(context) =>
      var payload := base[EV_SYNC_LAST_BLOCK_HEIGHT := PInt(ToInt32(context.lastBlockHeight))]
                         [EV_SYNC_NEW_OPERATIONS := PInt(ToInt32(context.newOperations))];
      SyncEvent(SYNCHRONIZATION_SUCCEED,
                if context.reorgBlockHeight.Some?
                then payload[EV_SYNC_REORG_BLOCK_HEIGHT := PInt(ToInt32(context.reorgBlockHeight.value))]
                else payload)
    case Failed(error, message) =>
      SyncEvent(SYNCHRONIZATION_FAILED,
                base[EV_SYNC_ERROR_CODE := PString(ErrorCodeName(error))]
                    [EV_SYNC_ERROR_CODE_INT := PInt(ToInt32(codeNumber(error)))]
                    [EV_SYNC_ERROR_MESSAGE := PString(message)])
  }

  /** On success, every integer entry is the context's value cast to 32 bits:
      exact when it fits, otherwise wrapped, never out of range. */
  lemma SucceededPayloadValues(context: SyncContext, durationMs: int, codeNumber: ErrorCode -> int)
    ensures var p := CompletionEvent(Succeeded(context), durationMs, codeNumber).payload;
            && p[EV_SYNC_LAST_BLOCK_HEIGHT] == PInt(ToInt32(context.lastBlockHeight))
            && p[EV_SYNC_NEW_OPERATIONS] == PInt(ToInt32(context.newOperations))
            && (context.reorgBlockHeight.Some? ==>
                  p[EV_SYNC_REORG_BLOCK_HEIGHT] == PInt(ToInt32(context.reorgBlockHeight.value)))
            && (INT32_MIN <= context.lastBlockHeight <= INT32_MAX ==>
                  p[EV_SYNC_LAST_BLOCK_HEIGHT] == PInt(context.lastBlockHeight))
  {
  }

  /** A failure reports the error code by its api::to_string name and by its
      number, cast to 32 bits, both of the same code, and the message
      unchanged. */
  lemma FailedPayloadValues(error: ErrorCode, message: string, durationMs: int, codeNumber: ErrorCode -> int)
    ensures var p := CompletionEvent(Failed(error, message), durationMs, codeNumber).payload;
            && p[EV_SYNC_ERROR_CODE] == PString(ErrorCodeName(error))
            && p[EV_SYNC_ERROR_CODE_INT] == PInt(ToInt32(codeNumber(error)))
            && p[EV_SYNC_ERROR_MESSAGE] == PString(message)
  {
  }
}
