/** Balance history: the mapping of internal-operation rows to operations,
    the date sort, and the bucket walk that turns the account's operations
    into one running balance per period. Dates are integer timestamps and a
    period is a fixed positive step. */
module BalanceHistory {
  import opened EthTypes

  /** An operation as the history reads it. */
  datatype BalanceOperation = BalanceOperation(kind: OperationType, amount: int, fees: Option<int>, date: int)

  /** One row of the internal-operations query, its hex columns already
      read as integers and its date as a timestamp. */
  datatype InternalRow = InternalRow(kind: OperationType, value: int, date: int, status: int)

  // ---------------------------------------------------------------------
  // Internal operations

  /** A NONE row is skipped; any other row becomes an operation without fees
      (the parent transaction pays them) whose amount is 0 when the parent
      transaction failed. */
  function RowToOperation(row: InternalRow): (r: Option<BalanceOperation>)
    ensures r.None? <==> row.kind == NONE
    ensures r.Some? ==> r.value.kind == row.kind && r.value.fees == Some(0) && r.value.date == row.date
    ensures r.Some? ==> r.value.amount == (if row.status == 0 then 0 else row.value)
  {
    if row.kind == NONE then None
    else Some(BalanceOperation(row.kind, if row.status == 0 then 0 else row.value, Some(0), row.date))
  }

  /** The operations of the non-NONE rows, in row order. */
  function InternalOperations(rows: seq<InternalRow>): (ops: seq<BalanceOperation>)
    ensures |ops| <= |rows|
    ensures forall op :: op in ops ==> op.kind != NONE && op.fees == Some(0)
    ensures forall op :: op in ops ==> exists row :: row in rows && RowToOperation(row) == Some(op)
    ensures forall row :: row in rows && row.kind != NONE ==> RowToOperation(row).value in ops
  {
    if rows == [] then []
    else
      var init := rows[..|rows| - 1];
      var last := rows[|rows| - 1];
      assert forall row :: row in rows ==> row in init || row == last;
      assert forall row :: row in init ==> row in rows;
      var r := RowToOperation(last);
      InternalOperations(init) + (if r.Some? then [r.value] else [])
  }

  /** The operations of two runs of rows are those of the first run, then
      those of the second: the mapping keeps row order. */
  lemma {:induction false} InternalOperationsConcat(a: seq<InternalRow>, b: seq<InternalRow>)
    ensures InternalOperations(a + b) == InternalOperations(a) + InternalOperations(b)
  {
    if b == [] {
      assert a + b == a;
    } else {
      var init, last := b[..|b| - 1], b[|b| - 1];
      assert b == init + [last];
      assert a + b == (a + init) + [last];
      InternalOperationsConcat(a, init);
      InternalOperationsSnoc(a + init, last);
      InternalOperationsSnoc(init, last);
    }
  }

  /** Appending one row appends its operation, if it has one. */
  lemma InternalOperationsSnoc(rows: seq<InternalRow>, row: InternalRow)
    ensures InternalOperations(rows + [row])
            == InternalOperations(rows) + (if row.kind == NONE then [] else [RowToOperation(row).value])
  {
    assert (rows + [row])[..|rows|] == rows;
  }

  /** One row yields its own operation, or nothing when it is NONE; so every
      non-NONE row, repeated or not, yields exactly one operation. */
  lemma InternalOperationsOne(row: InternalRow)
    ensures InternalOperations([row]) == if row.kind == NONE then [] else [RowToOperation(row).value]
  {
    assert [row][..0] == [];
  }

  method GetInternalOperations(rows: seq<InternalRow>) returns (ops: seq<BalanceOperation>)
    ensures ops == InternalOperations(rows)
  {
    ops := [];
    for i := 0 to |rows|
      invariant ops == InternalOperations(rows[..i])
    {
      assert rows[..i + 1][..i] == rows[..i];
      var row := rows[i];
      if row.kind == NONE {
        continue;
      }
      var amount := if row.status == 0 then 0 else row.value;
      ops := ops + [BalanceOperation(row.kind, amount, Some(0), row.date)];
    }
    assert rows[..|rows|] == rows;
  }

  // ---------------------------------------------------------------------
  // Signed sums

  /** What an operation does to the balance: RECEIVE adds its amount, SEND
      takes away its amount and its fees (0 when absent), NONE nothing. */
  function Delta(op: BalanceOperation): (r: int)
    ensures op.kind == NONE ==> r == 0
    ensures op.amount >= 0 && op.fees.GetOr(0) >= 0 ==>
              (op.kind == RECEIVE ==> r >= 0) && (op.kind == SEND ==> r <= -op.amount)
  {
    match op.kind
    case RECEIVE => op.amount
    case SEND => -(op.amount + op.fees.GetOr(0))
    case NONE => 0
  }

  /** The balance change of the operations dated at or before `t`. */
  function SumUpTo(ops: seq<BalanceOperation>, t: int): int {
    if ops == [] then 0
    else
      var last := ops[|ops| - 1];
      SumUpTo(ops[..|ops| - 1], t) + (if last.date <= t then Delta(last) else 0)
  }

  /** The balance change of all the operations. */
  function Total(ops: seq<BalanceOperation>): int {
    if ops == [] then 0 else Total(ops[..|ops| - 1]) + Delta(ops[|ops| - 1])
  }

  lemma {:induction false} SumUpToAppend(a: seq<BalanceOperation>, b: seq<BalanceOperation>, t: int)
    ensures SumUpTo(a + b, t) == SumUpTo(a, t) + SumUpTo(b, t)
  {
    if b == [] {
      assert a + b == a;
    } else {
      var init := b[..|b| - 1];
      SumUpToAppend(a, init, t);
      assert (a + b)[..|a + b| - 1] == a + init;
    }
  }

  /** Once every operation is dated at or before `t`, the sum up to `t` is
      the whole sum. */
  lemma {:induction false} SumUpToAllBefore(ops: seq<BalanceOperation>, t: int)
    requires forall j :: 0 <= j < |ops| ==> ops[j].date <= t
    ensures SumUpTo(ops, t) == Total(ops)
  {
    if ops != [] {
      SumUpToAllBefore(ops[..|ops| - 1], t);
    }
  }

  lemma {:induction false} SumUpToAllAfter(ops: seq<BalanceOperation>, t: int)
    requires forall j :: 0 <= j < |ops| ==> ops[j].date > t
    ensures SumUpTo(ops, t) == 0
  {
    if ops != [] {
      SumUpToAllAfter(ops[..|ops| - 1], t);
    }
  }

  // ---------------------------------------------------------------------
  // Sorting by date

  predicate SortedByDate(ops: seq<BalanceOperation>) {
    forall i, j :: 0 <= i < j < |ops| ==> ops[i].date <= ops[j].date
  }

  /** Insert `x` into a date-sorted list, before the first later-or-equal
      operation. */
  function Insert(x: BalanceOperation, s: seq<BalanceOperation>): (r: seq<BalanceOperation>)
    requires SortedByDate(s)
    ensures SortedByDate(r)
    ensures multiset(r) == multiset(s) + multiset{x}
    ensures r[0] == x || (s != [] && r[0] == s[0])
  {
    if s == [] then [x]
    else if x.date <= s[0].date then
      ConsSorted(x, s);
      [x] + s
    else
      assert s == [s[0]] + s[1..];
      var rest := Insert(x, s[1..]);
      ConsSorted(s[0], rest);
      [s[0]] + rest
  }

  /** Putting an operation no later than the head in front keeps a list sorted. */
  lemma ConsSorted(a: BalanceOperation, s: seq<BalanceOperation>)
    requires SortedByDate(s) && (s != [] ==> a.date <= s[0].date)
    ensures SortedByDate([a] + s)
  {
    var r := [a] + s;
    forall i, j | 0 <= i < j < |r|
      ensures r[i].date <= r[j].date
    {
      if i > 0 {
        assert r[i] == s[i - 1] && r[j] == s[j - 1];
      } else {
        assert r[j] == s[j - 1] && s[0].date <= s[j - 1].date;
      }
    }
  }

  /** The operations sorted by date (the order of equal dates is the one
      insertion gives; the history does not depend on it). */
  function SortByDate(s: seq<BalanceOperation>): (r: seq<BalanceOperation>)
    ensures SortedByDate(r)
    ensures multiset(r) == multiset(s)
  {
    if s == [] then []
    else
      assert s == [s[0]] + s[1..];
      Insert(s[0], SortByDate(s[1..]))
  }

  lemma {:induction false} InsertKeepsSums(x: BalanceOperation, s: seq<BalanceOperation>, t: int)
    requires SortedByDate(s)
    ensures SumUpTo(Insert(x, s), t) == SumUpTo(s, t) + (if x.date <= t then Delta(x) else 0)
  {
    if s == [] {
      assert Insert(x, s) == [] + [x];
    } else if x.date <= s[0].date {
      SumUpToAppend([x], s, t);
      assert [x] == [] + [x];
    } else {
      InsertKeepsSums(x, s[1..], t);
      SumUpToAppend([s[0]], Insert(x, s[1..]), t);
      SumUpToAppend([s[0]], s[1..], t);
      assert s == [s[0]] + s[1..];
    }
  }

  /** Sorting changes no sum. */
  lemma {:induction false} SortKeepsSums(s: seq<BalanceOperation>, t: int)
    ensures SumUpTo(SortByDate(s), t) == SumUpTo(s, t)
  {
    if s != [] {
      var x, tail := s[0], s[1..];
      var sortedTail := SortByDate(tail);
      assert SortByDate(s) == Insert(x, sortedTail);
      SortKeepsSums(tail, t);
      InsertKeepsSums(x, sortedTail, t);
      assert s == [x] + tail;
      SumUpToAppend([x], tail, t);
      SumUpToSingle(x, t);
    }
  }

  lemma SumUpToSingle(x: BalanceOperation, t: int)
    ensures SumUpTo([x], t) == (if x.date <= t then Delta(x) else 0)
  {
    assert [x][..0] == [];
  }

  /** The sum up to `t` of a list whose first `i` entries are at or before
      `t` and whose others are after it is the whole sum of the first `i`. */
  lemma SplitSumUpTo(ops: seq<BalanceOperation>, i: nat, t: int)
    requires i <= |ops|
    requires forall j :: 0 <= j < i ==> ops[j].date <= t
    requires forall j :: i <= j < |ops| ==> ops[j].date > t
    ensures SumUpTo(ops, t) == Total(ops[..i])
  {
    var before, after := ops[..i], ops[i..];
    assert ops == before + after;
    forall j | 0 <= j < |before|
      ensures before[j].date <= t
    {
      assert before[j] == ops[j];
    }
    forall j | 0 <= j < |after|
      ensures after[j].date > t
    {
      assert after[j] == ops[i + j];
    }
    SumUpToAppend(before, after, t);
    SumUpToAllBefore(before, t);
    SumUpToAllAfter(after, t);
  }

  /** In a date-sorted list, the sum up to a `t` that falls between entries
      `i - 1` and `i` is the whole sum of the first `i` entries. */
  lemma SortedSumUpTo(ops: seq<BalanceOperation>, i: nat, t: int)
    requires SortedByDate(ops) && i < |ops|
    requires i > 0 ==> ops[i - 1].date <= t
    requires ops[i].date > t
    ensures SumUpTo(ops, t) == Total(ops[..i])
  {
    forall j | 0 <= j < i
      ensures ops[j].date <= t
    {
      assert ops[j].date <= ops[i - 1].date;
    }
    forall j | i <= j < |ops|
      ensures ops[j].date > t
    {
      assert ops[i].date <= ops[j].date;
    }
    SplitSumUpTo(ops, i, t);
  }

  /** In a date-sorted list whose last entry is at or before `t`, the sum up
      to `t` is the whole sum. */
  lemma SortedSumUpToAll(ops: seq<BalanceOperation>, t: int)
    requires SortedByDate(ops)
    requires |ops| > 0 ==> ops[|ops| - 1].date <= t
    ensures SumUpTo(ops, t) == Total(ops)
  {
    forall j | 0 <= j < |ops|
      ensures ops[j].date <= t
    {
      assert ops[j].date <= ops[|ops| - 1].date;
    }
    SumUpToAllBefore(ops, t);
  }

  // ---------------------------------------------------------------------
  // Buckets

  /** Reference definition of the history from `lower` to `end`: one entry
      per bucket, each the sum of the operations dated at or before the
      bucket's upper bound. */
  function HistoryFrom(lower: int, end: int, step: int, ops: seq<BalanceOperation>): (r: seq<int>)
    requires step > 0
    ensures r == [] <==> lower >= end
    decreases end - lower
  {
    if lower >= end then [] else [SumUpTo(ops, lower + step)] + HistoryFrom(lower + step, end, step, ops)
  }

  /** The history has ceil((end - lower) / step) entries: the least count
      of buckets that reaches `end`. */
  lemma {:induction false} HistoryLength(lower: int, end: int, step: int, ops: seq<BalanceOperation>)
    requires step > 0
    ensures lower >= end ==> |HistoryFrom(lower, end, step, ops)| == 0
    ensures lower < end ==> (|HistoryFrom(lower, end, step, ops)| - 1) * step < end - lower
    ensures lower < end ==> end - lower <= |HistoryFrom(lower, end, step, ops)| * step
    decreases end - lower
  {
    if lower < end {
      var h := HistoryFrom(lower + step, end, step, ops);
      HistoryLength(lower + step, end, step, ops);
      var m := |h|;
      assert |HistoryFrom(lower, end, step, ops)| == m + 1;
      if lower + step >= end {
        assert m == 0;
      } else {
        assert (m - 1) * step < end - lower - step <= m * step;
        assert (m + 1) * step == m * step + step;
      }
    }
  }

  /** Entry `k` is the sum of every operation dated at or before
      `lower + (k + 1) * step`, those before `lower` included. */
  lemma {:induction false} HistoryEntry(lower: int, end: int, step: int, ops: seq<BalanceOperation>, k: nat)
    requires step > 0 && k < |HistoryFrom(lower, end, step, ops)|
    ensures HistoryFrom(lower, end, step, ops)[k] == SumUpTo(ops, lower + (k + 1) * step)
    decreases k
  {
    if k > 0 {
      HistoryEntry(lower + step, end, step, ops, k - 1);
      assert lower + step + k * step == lower + (k + 1) * step;
    }
  }

  /** An account without operations has an all-zero history. */
  lemma HistoryWithoutOperations(lower: int, end: int, step: int, k: nat)
    requires step > 0 && k < |HistoryFrom(lower, end, step, [])|
    ensures HistoryFrom(lower, end, step, [])[k] == 0
  {
    HistoryEntry(lower, end, step, [], k);
  }

  /** Once a bucket's upper bound is past every operation, its entry is the
      final balance: the trailing entries repeat it. */
  lemma HistoryTrailing(lower: int, end: int, step: int, ops: seq<BalanceOperation>, k: nat)
    requires step > 0 && k < |HistoryFrom(lower, end, step, ops)|
    requires forall j :: 0 <= j < |ops| ==> ops[j].date <= lower + (k + 1) * step
    ensures HistoryFrom(lower, end, step, ops)[k] == Total(ops)
  {
    HistoryEntry(lower, end, step, ops, k);
    SumUpToAllBefore(ops, lower + (k + 1) * step);
  }

  /** Two operation lists with the same sums up to every date have the
      same history. */
  lemma {:induction false} HistoryFromSameSums(lower: int, end: int, step: int, a: seq<BalanceOperation>, b: seq<BalanceOperation>)
    requires step > 0
    requires forall t :: SumUpTo(a, t) == SumUpTo(b, t)
    ensures HistoryFrom(lower, end, step, a) == HistoryFrom(lower, end, step, b)
    decreases end - lower
  {
    if lower < end {
      HistoryFromSameSums(lower + step, end, step, a, b);
    }
  }

  /** The history does not depend on the order of the operations. */
  lemma HistoryIgnoresOrder(lower: int, end: int, step: int, ops: seq<BalanceOperation>)
    requires step > 0
    ensures HistoryFrom(lower, end, step, SortByDate(ops)) == HistoryFrom(lower, end, step, ops)
  {
    forall t {
      SortKeepsSums(ops, t);
    }
    HistoryFromSameSums(lower, end, step, SortByDate(ops), ops);
  }

  /** One bucket of the walk: emitting the sum of bucket `lower` moves the
      walk on by one step. */
  lemma HistoryStep(amounts: seq<int>, sum: int, lower: int, end: int, step: int, ops: seq<BalanceOperation>)
    requires step > 0 && lower < end && sum == SumUpTo(ops, lower + step)
    ensures (amounts + [sum]) + HistoryFrom(lower + step, end, step, ops) == amounts + HistoryFrom(lower, end, step, ops)
  {
    assert HistoryFrom(lower, end, step, ops) == [sum] + HistoryFrom(lower + step, end, step, ops);
  }

  /** The total over one more operation. */
  lemma TotalStep(ops: seq<BalanceOperation>, n: nat)
    requires n < |ops|
    ensures Total(ops[..n + 1]) == Total(ops[..n]) + Delta(ops[n])
  {
    assert ops[..n + 1][..n] == ops[..n];
  }

  /** The bucket walk over date-sorted operations: the running sum moves
      one operation at a time, and every time the bucket boundary passes,
      the running sum is emitted for the bucket just closed. */
  method Accumulate(start: int, end: int, step: int, ops: seq<BalanceOperation>) returns (amounts: seq<int>)
    requires step > 0 && SortedByDate(ops)
    ensures amounts == HistoryFrom(start, end, step, ops)
  {
    var lowerDate := start;
    var upperDate := start + step;
    amounts := [];
    var operationsCount := 0;
    var sum := 0;
    while lowerDate <= end && operationsCount < |ops|
      invariant 0 <= operationsCount <= |ops|
      invariant upperDate == lowerDate + step
      invariant amounts + HistoryFrom(lowerDate, end, step, ops) == HistoryFrom(start, end, step, ops)
      invariant lowerDate < end ==> sum == Total(ops[..operationsCount])
      invariant lowerDate < end && operationsCount > 0 ==> ops[operationsCount - 1].date <= upperDate
      decreases |ops| - operationsCount
    {
      var operation := ops[operationsCount];
      while operation.date > upperDate && lowerDate < end
        invariant upperDate == lowerDate + step
        invariant amounts + HistoryFrom(lowerDate, end, step, ops) == HistoryFrom(start, end, step, ops)
        invariant lowerDate < end ==> sum == Total(ops[..operationsCount])
        invariant lowerDate < end && operationsCount > 0 ==> ops[operationsCount - 1].date <= upperDate
        decreases end - lowerDate
      {
        SortedSumUpTo(ops, operationsCount, upperDate);
        HistoryStep(amounts, sum, lowerDate, end, step, ops);
        lowerDate := lowerDate + step;
        upperDate := upperDate + step;
        amounts := amounts + [sum];
      }
      if operation.date <= upperDate {
        sum := sum + Delta(operation);
      }
      TotalStep(ops, operationsCount);
      operationsCount := operationsCount + 1;
    }
    assert lowerDate < end ==> ops[..operationsCount] == ops;
    while lowerDate < end
      invariant upperDate <= lowerDate + step
      invariant amounts + HistoryFrom(lowerDate, end, step, ops) == HistoryFrom(start, end, step, ops)
      invariant lowerDate < end ==> sum == Total(ops)
      invariant lowerDate < end && |ops| > 0 ==> ops[|ops| - 1].date <= upperDate
      decreases end - lowerDate
    {
      SortedSumUpToAll(ops, lowerDate + step);
      HistoryStep(amounts, sum, lowerDate, end, step, ops);
      lowerDate := lowerDate + step;
      amounts := amounts + [sum];
    }
  }

  /** The balance history between `start` and `end`: INVALID_DATE_FORMAT
      unless start < end; otherwise the bucket walk over the account's
      operations and its internal operations, merged and sorted by date. */
  method GetBalanceHistory(start: int, end: int, step: int, accountOperations: seq<BalanceOperation>, rows: seq<InternalRow>)
    returns (r: Result<seq<int>, ErrorCode>)
    requires step > 0
    ensures start >= end ==> r == Failure(INVALID_DATE_FORMAT)
    ensures start < end ==> r == Success(HistoryFrom(start, end, step, accountOperations + InternalOperations(rows)))
  {
    if start >= end {
      return Failure(INVALID_DATE_FORMAT);
    }
    var internalOperations := GetInternalOperations(rows);
    var operations := accountOperations + internalOperations;
    var sorted := SortByDate(operations);
    var amounts := Accumulate(start, end, step, sorted);
    HistoryIgnoresOrder(start, end, step, operations);
    r := Success(amounts);
  }
}
