/** Per-subject transaction statistics: a pure fold over the subject's
    mobile-money transactions. */
module Transactions {
  import opened Common
  import opened Records

  /** The three columns of a `cap_transactions` row that the statistics select. */
  datatype TransactionRow = TransactionRow(
    transactionType: Option<TransactionType>,
    amount: int,
    counterpartyPhone: Option<string>)

  datatype TransactionStats = TransactionStats(
    totalTransactions: nat,
    totalSent: int,
    totalReceived: int,
    avgAmount: int,
    uniqueCounterparties: nat)

  function SumAmounts(rows: seq<TransactionRow>): int {
    if rows == [] then 0 else rows[0].amount + SumAmounts(rows[1..])
  }

  /** Sum of the amounts of the rows whose type is `t`. */
  function SumOfType(rows: seq<TransactionRow>, t: TransactionType): int {
    if rows == [] then 0
    else (if rows[0].transactionType == Some(t) then rows[0].amount else 0) + SumOfType(rows[1..], t)
  }

  /** Sum of the amounts of the rows that are neither sends nor receives. */
  function SumOfOtherTypes(rows: seq<TransactionRow>): int {
    if rows == [] then 0
    else
      var t := rows[0].transactionType;
      (if t != Some(Send) && t != Some(Receive) then rows[0].amount else 0) + SumOfOtherTypes(rows[1..])
  }

  /** The distinct truthy counterparty phones; there are never more of them than rows. */
  function Counterparties(rows: seq<TransactionRow>): (phones: set<string>)
    ensures |phones| <= |rows|
  {
    if rows == [] then {}
    else
      var rest := Counterparties(rows[1..]);
      if Truthy(rows[0].counterpartyPhone) then rest + {rows[0].counterpartyPhone.value} else rest
  }

  /** The statistics over rows already fetched. */
  function ComputeTransactionStats(rows: seq<TransactionRow>): (s: TransactionStats)
    ensures s.totalTransactions == |rows|
    ensures s.uniqueCounterparties <= s.totalTransactions
    ensures rows == [] ==> s == TransactionStats(0, 0, 0, 0, 0)
    ensures rows != [] ==> 2 * |rows| * s.avgAmount - |rows| <= 2 * SumAmounts(rows) < 2 * |rows| * s.avgAmount + |rows|
  {
    TransactionStats(
      |rows|,
      SumOfType(rows, Send),
      SumOfType(rows, Receive),
      if |rows| > 0 then RoundDiv(SumAmounts(rows), |rows|) else 0,
      |Counterparties(rows)|)
  }

  /** `getTransactionStats` once the query has answered; a failed query gives
      all zeros. */
  function GetTransactionStats(data: Option<seq<TransactionRow>>): (s: TransactionStats)
    ensures data.None? ==> s == TransactionStats(0, 0, 0, 0, 0)
    ensures data.Some? ==> s.totalTransactions == |data.value|
  {
    if data.None? then TransactionStats(0, 0, 0, 0, 0) else ComputeTransactionStats(data.value)
  }

  // ---------------------------------------------------------------- lemmas

  /** A phone is counted exactly when it is non-empty and some row has it as
      its counterparty. */
  lemma {:induction false} CounterpartyMembership(rows: seq<TransactionRow>, p: string)
    ensures p in Counterparties(rows) <==>
      p != "" && exists i :: 0 <= i < |rows| && rows[i].counterpartyPhone == Some(p)
  {
    if rows != [] {
      CounterpartyMembership(rows[1..], p);
      if exists i :: 0 <= i < |rows[1..]| && rows[1..][i].counterpartyPhone == Some(p) {
        var i :| 0 <= i < |rows[1..]| && rows[1..][i].counterpartyPhone == Some(p);
        assert rows[i + 1] == rows[1..][i];
      }
      if exists i :: 0 <= i < |rows| && rows[i].counterpartyPhone == Some(p) {
        var i :| 0 <= i < |rows| && rows[i].counterpartyPhone == Some(p);
        if i > 0 { assert rows[1..][i - 1] == rows[i]; }
      }
    }
  }

  /** Sends, receives and all other rows split the total amount, so neither
      `total_sent` nor `total_received` counts any row of another type. */
  lemma {:induction false} SentReceivedOthersSplitTotal(rows: seq<TransactionRow>)
    ensures SumOfType(rows, Send) + SumOfType(rows, Receive) + SumOfOtherTypes(rows) == SumAmounts(rows)
  {
    if rows != [] {
      SentReceivedOthersSplitTotal(rows[1..]);
    }
  }

  lemma {:induction false} SumAmountsBounds(rows: seq<TransactionRow>, lo: int, hi: int)
    requires forall i :: 0 <= i < |rows| ==> lo <= rows[i].amount <= hi
    ensures |rows| * lo <= SumAmounts(rows) <= |rows| * hi
  {
    if rows != [] {
      assert forall i :: 0 <= i < |rows[1..]| ==> rows[1..][i] == rows[i + 1];
      SumAmountsBounds(rows[1..], lo, hi);
      assert |rows| * lo == lo + (|rows| - 1) * lo;
      assert |rows| * hi == hi + (|rows| - 1) * hi;
    }
  }

  /** `avg_amount` lies between the smallest and the largest amount. */
  lemma AverageAmountWithinBounds(rows: seq<TransactionRow>, lo: int, hi: int)
    requires rows != []
    requires forall i :: 0 <= i < |rows| ==> lo <= rows[i].amount <= hi
    ensures lo <= ComputeTransactionStats(rows).avgAmount <= hi
  {
    SumAmountsBounds(rows, lo, hi);
    RoundDivWithin(SumAmounts(rows), |rows|, lo, hi);
  }
}
