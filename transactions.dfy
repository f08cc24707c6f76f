/**
 * The local-log effects of the transfer actions of transactions.js:99-161:
 * receiving or rejecting a batch rewrites the `Status` of its rows, receiving
 * also appends one `transfer_in` row per `transfer_out` row, and cancelling
 * marks the batch Cancelled.
 */
module Transactions {
  import opened Utils
  import opened Records
  import opened Classifier
  import opened AppState
  import Sorting
  import StockReplay

  const Completed: string := "Completed"
  const Rejected: string := "Rejected"
  const Cancelled: string := "Cancelled"
  const InTransit: string := "In Transit"

  predicate IsOutOf(t: Tx, batchId: string)
  {
    t.batchId == batchId && t.kind == TransferOut
  }

  /** The batch's `transfer_out` rows, in log order (transactions.js:100). */
  function OutRows(txs: seq<Tx>, batchId: string): (r: seq<Tx>)
    ensures |r| <= |txs|
    ensures forall t | t in r :: t in txs && IsOutOf(t, batchId)
    ensures r == [] <==> forall t | t in txs :: !IsOutOf(t, batchId)
    decreases |txs|
  {
    if txs == [] then []
    else
      assert txs == [txs[0]] + txs[1..];
      (if IsOutOf(txs[0], batchId) then [txs[0]] else []) + OutRows(txs[1..], batchId)
  }

  /** The new status of one row: rows of the batch get `status`, others keep theirs. */
  function Stamp(t: Tx, batchId: string, status: string): Tx
  {
    if t.batchId == batchId then t.(status := status) else t
  }

  function Restamp(txs: seq<Tx>, batchId: string, status: string): (r: seq<Tx>)
    ensures |r| == |txs|
    ensures forall k | 0 <= k < |txs| :: r[k] == Stamp(txs[k], batchId, status)
    decreases |txs|
  {
    if txs == [] then [] else [Stamp(txs[0], batchId, status)] + Restamp(txs[1..], batchId, status)
  }

  /** The log with the batch's rows taken out. */
  function Without(txs: seq<Tx>, batchId: string): (r: seq<Tx>)
    ensures forall t | t in r :: t in txs && t.batchId != batchId
    decreases |txs|
  {
    if txs == [] then []
    else (if txs[0].batchId != batchId then [txs[0]] else []) + Without(txs[1..], batchId)
  }

  /** The `transfer_in` row appended for one `transfer_out` row
      (transactions.js:123-133): the out row's item and quantity, the first
      out row's branches, the batch id, the time of receipt, Completed. */
  function Arrival(out: Tx, first: Tx, batchId: string, now: int): Tx
  {
    BlankTx.(kind := TransferIn, itemCode := out.itemCode, quantity := out.quantity, batchId := batchId,
             date := now, fromBranchCode := first.fromBranchCode, toBranchCode := first.toBranchCode,
             status := Completed)
  }

  function Arrivals(outs: seq<Tx>, first: Tx, batchId: string, now: int): (r: seq<Tx>)
    ensures |r| == |outs|
    ensures forall k | 0 <= k < |outs| ::
              && r[k].kind == TransferIn && r[k].itemCode == outs[k].itemCode && r[k].quantity == outs[k].quantity
              && r[k].fromBranchCode == first.fromBranchCode && r[k].toBranchCode == first.toBranchCode
              && r[k].batchId == batchId && r[k].date == now && r[k].status == Completed
  {
    seq(|outs|, k requires 0 <= k < |outs| => Arrival(outs[k], first, batchId, now))
  }

  /** The in-place `forEach` that rewrites the batch's `Status` (transactions.js:117-119, 152-154). */
  method RestampLog(txs: seq<Tx>, batchId: string, status: string) returns (r: seq<Tx>)
    ensures r == Restamp(txs, batchId, status)
  {
    r := txs;
    var i := 0;
    while i < |r|
      invariant 0 <= i <= |r| == |txs|
      invariant forall k | 0 <= k < |txs| :: r[k] == if k < i then Stamp(txs[k], batchId, status) else txs[k]
    {
      if r[i].batchId == batchId {
        r := r[i := r[i].(status := status)];
      }
      i := i + 1;
    }
  }

  /** `processTransferAction` (transactions.js:99-144), the submission
      succeeding: `receive` is `action === 'receiveTransfer'`, `now` the time
      of receipt. */
  method ProcessTransferAction(s: Store, receive: bool, batchId: string, now: int)
    modifies s
    ensures OutRows(old(s.transactions), batchId) == [] ==> s.transactions == old(s.transactions)
    ensures OutRows(old(s.transactions), batchId) != [] && !receive ==>
              s.transactions == Restamp(old(s.transactions), batchId, Rejected)
    ensures OutRows(old(s.transactions), batchId) != [] && receive ==>
              s.transactions == Restamp(old(s.transactions), batchId, Completed)
                                + Arrivals(OutRows(old(s.transactions), batchId), OutRows(old(s.transactions), batchId)[0], batchId, now)
    ensures s.payments == old(s.payments)
    ensures s.receiveList == old(s.receiveList) && s.transferList == old(s.transferList)
    ensures s.returnList == old(s.returnList) && s.adjustmentList == old(s.adjustmentList)
  {
    var log := s.transactions;
    var outs := OutRows(log, batchId);
    if outs != [] {
      var status := if receive then Completed else Rejected;
      var stamped := RestampLog(log, batchId, status);
      if receive {
        stamped := AppendArrivals(stamped, outs, outs[0], batchId, now);
      }
      s.transactions := stamped;
    }
  }

  /** The `push` loop of transactions.js:123-133. */
  method AppendArrivals(log: seq<Tx>, outs: seq<Tx>, first: Tx, batchId: string, now: int) returns (r: seq<Tx>)
    ensures r == log + Arrivals(outs, first, batchId, now)
  {
    r := log;
    var j := 0;
    while j < |outs|
      invariant 0 <= j <= |outs|
      invariant r == log + Arrivals(outs[..j], first, batchId, now)
    {
      assert Arrivals(outs[..j + 1], first, batchId, now)
             == Arrivals(outs[..j], first, batchId, now) + [Arrival(outs[j], first, batchId, now)];
      r := r + [Arrival(outs[j], first, batchId, now)];
      j := j + 1;
    }
    assert outs[..j] == outs;
  }

  /** `handleCancelTransfer` (transactions.js:146-161); `confirmed` is the
      answer to the confirmation dialog. Nothing is appended. */
  method CancelTransfer(s: Store, confirmed: bool, batchId: string)
    modifies s
    ensures s.transactions == if confirmed then Restamp(old(s.transactions), batchId, Cancelled) else old(s.transactions)
    ensures s.payments == old(s.payments)
    ensures forall n :: s.List(n) == old(s.List(n))
  {
    if confirmed {
      s.transactions := RestampLog(s.transactions, batchId, Cancelled);
    }
  }

  // ---------------------------------------------------------------------------
  // What the actions do to the replayed stock

  /** After a reject or a cancel the classifier sees exactly the rows it would
      see had the batch never been logged. */
  lemma {:induction false} RestampHides(txs: seq<Tx>, batchId: string, status: string)
    requires status == Rejected || status == Cancelled
    ensures Sorting.Filter(Restamp(txs, batchId, status), Included) == Sorting.Filter(Without(txs, batchId), Included)
    decreases |txs|
  {
    if txs != [] {
      var t, rest := txs[0], txs[1..];
      var st := Stamp(t, batchId, status);
      assert Restamp(txs, batchId, status) == [st] + Restamp(rest, batchId, status);
      RestampHides(rest, batchId, status);
      Sorting.FilterCons(st, Restamp(rest, batchId, status), Included);
      if t.batchId != batchId {
        assert st == t;
        assert Without(txs, batchId) == [t] + Without(rest, batchId);
        Sorting.FilterCons(t, Without(rest, batchId), Included);
      } else {
        assert Without(txs, batchId) == Without(rest, batchId);
        assert st.status == status;
        assert !Included(st);
      }
    }
  }

  /** A rejected or cancelled transfer leaves the replayed stock, at the
      sending branch and everywhere else, as if it had never been sent. */
  lemma RejectedTransferNeverSent(branches: seq<Branch>, items: seq<Item>, txs: seq<Tx>, batchId: string, status: string)
    requires status == Rejected || status == Cancelled
    ensures StockReplay.ReplayLog(branches, items, Restamp(txs, batchId, status))
            == StockReplay.ReplayLog(branches, items, Without(txs, batchId))
  {
    RestampHides(txs, batchId, status);
    StockReplay.ExcludedRowsIgnored(branches, items, Restamp(txs, batchId, status), Without(txs, batchId));
  }

  /** Every appended `transfer_in` row passes the classifier and credits the
      destination branch of the batch. */
  lemma ArrivalCreditsDestination(out: Tx, first: Tx, batchId: string, now: int)
    ensures Included(Arrival(out, first, batchId, now))
    ensures StockReplay.TargetBranch(Arrival(out, first, batchId, now)) == first.toBranchCode
  {
    IsTrueExactly(Unset);
  }

  /** When the receipt is dated no earlier than every logged row, the appended
      `transfer_in` rows are replayed after the rest of the log, in their own
      order. */
  lemma ReceivedTransferReplaysLast(branches: seq<Branch>, items: seq<Item>, txs: seq<Tx>, batchId: string, now: int)
    requires forall t | t in txs :: t.date <= now
    requires OutRows(txs, batchId) != []
    ensures var outs := OutRows(txs, batchId);
            var restamped := Restamp(txs, batchId, Completed);
            StockReplay.ReplayLog(branches, items, restamped + Arrivals(outs, outs[0], batchId, now))
            == StockReplay.Run(StockReplay.ReplayLog(branches, items, restamped), items, Arrivals(outs, outs[0], batchId, now))
  {
    var outs := OutRows(txs, batchId);
    var restamped := Restamp(txs, batchId, Completed);
    var arr := Arrivals(outs, outs[0], batchId, now);
    forall i, j | 0 <= i < |restamped| && 0 <= j < |arr| ensures TxDate(restamped[i]) <= TxDate(arr[j]) {
      assert txs[i] in txs;
    }
    Sorting.SortByAppend(restamped, arr, TxDate);
    StockReplay.RunAppend(StockReplay.Seed(branches), items, Sorting.SortBy(restamped, TxDate), arr);
  }
}
