/**
 * The decision rules of the operations screens (operations_extension.js):
 * the adjustment lines a physical count produces against the replayed stock,
 * merging a modal selection into a working list, editing and removing list
 * rows, and the checks and local effects of the transfer, return and
 * adjustment submissions.
 */
module Operations {
  import opened Utils
  import opened Records
  import opened AppState
  import opened StockReplay
  import Transactions

  // ---------------------------------------------------------------------------
  // Adjustment lines (operations_extension.js:583-594)

  /** A line of the adjustment payload: the item, the absolute difference,
      and `adjustment_in` or `adjustment_out`. */
  datatype AdjLine = AdjLine(itemCode: string, quantity: real, kind: Kind)

  /** Differences smaller than this are no change. */
  const Tolerance: real := 0.001

  function Abs(x: real): real
  {
    if x < 0.0 then -x else x
  }

  /** Physical count (unparsable -> 0) minus the replayed system quantity (absent -> 0). */
  function Diff(stock: Stock, branch: string, l: Line): real
  {
    OrZero(l.physicalCount) - QuantityAt(stock, branch, l.itemCode)
  }

  /** The line one counted row produces, if any (operations_extension.js:588-591). */
  function AdjustmentLine(stock: Stock, branch: string, l: Line): (r: Option<AdjLine>)
    ensures r.None? <==> Abs(Diff(stock, branch, l)) < Tolerance
    ensures r.Some? ==> r.value.itemCode == l.itemCode && r.value.quantity >= Tolerance
    ensures r.Some? ==> (r.value.kind == AdjustmentIn <==> Diff(stock, branch, l) > 0.0)
    ensures r.Some? ==> r.value.kind == AdjustmentIn || r.value.kind == AdjustmentOut
  {
    var d := Diff(stock, branch, l);
    if Abs(d) < Tolerance then None
    else Some(AdjLine(l.itemCode, Abs(d), if d > 0.0 then AdjustmentIn else AdjustmentOut))
  }

  /** The `map(...).filter(Boolean)` of operations_extension.js:587-592. */
  function AdjustmentLines(stock: Stock, branch: string, lines: seq<Line>): (r: seq<AdjLine>)
    ensures |r| <= |lines|
    ensures forall a | a in r :: a.quantity >= Tolerance && (a.kind == AdjustmentIn || a.kind == AdjustmentOut)
    ensures forall a | a in r :: exists l | l in lines :: l.itemCode == a.itemCode
    ensures r == [] <==> forall l | l in lines :: Abs(Diff(stock, branch, l)) < Tolerance
    decreases |lines|
  {
    if lines == [] then []
    else
      assert lines == [lines[0]] + lines[1..];
      var rest := AdjustmentLines(stock, branch, lines[1..]);
      match AdjustmentLine(stock, branch, lines[0])
      case None => rest
      case Some(a) => [a] + rest
  }

  /** A line's quantity with its direction: in counts up, out counts down. */
  function Signed(a: AdjLine): real
  {
    if a.kind == AdjustmentIn then a.quantity else -a.quantity
  }

  /** The signed total of the lines for one item. */
  function SignedSum(adj: seq<AdjLine>, code: string): real
    decreases |adj|
  {
    if adj == [] then 0.0
    else (if adj[0].itemCode == code then Signed(adj[0]) else 0.0) + SignedSum(adj[1..], code)
  }

  /** What a counted row is meant to correct: its whole difference, unless that
      is below the tolerance. */
  function Correction(stock: Stock, branch: string, l: Line): real
  {
    var d := Diff(stock, branch, l);
    if Abs(d) < Tolerance then 0.0 else d
  }

  /** The corrections of the counted rows of one item. */
  function CorrectionSum(stock: Stock, branch: string, lines: seq<Line>, code: string): real
    decreases |lines|
  {
    if lines == [] then 0.0
    else (if lines[0].itemCode == code then Correction(stock, branch, lines[0]) else 0.0)
         + CorrectionSum(stock, branch, lines[1..], code)
  }

  /** Per item, the signed lines add up to the corrections of that item's counted rows. */
  lemma {:induction false} SignedSumIsCorrection(stock: Stock, branch: string, lines: seq<Line>, code: string)
    ensures SignedSum(AdjustmentLines(stock, branch, lines), code) == CorrectionSum(stock, branch, lines, code)
    decreases |lines|
  {
    if lines != [] {
      SignedSumIsCorrection(stock, branch, lines[1..], code);
      var rest := AdjustmentLines(stock, branch, lines[1..]);
      match AdjustmentLine(stock, branch, lines[0])
      case None =>
      case Some(a) =>
        assert ([a] + rest)[1..] == rest;
    }
  }

  /** No counted row of the item: no correction for it. */
  lemma {:induction false} CorrectionSumAbsent(stock: Stock, branch: string, lines: seq<Line>, code: string)
    requires forall l | l in lines :: l.itemCode != code
    ensures CorrectionSum(stock, branch, lines, code) == 0.0
    decreases |lines|
  {
    if lines != [] {
      assert lines[0] in lines;
      CorrectionSumAbsent(stock, branch, lines[1..], code);
    }
  }

  /** One counted row of the item lies at index k: its corrections total the
      difference between the physical and the system count, or nothing when
      that difference is below the tolerance. */
  lemma {:induction false} CorrectionSumSingle(stock: Stock, branch: string, lines: seq<Line>, k: nat)
    requires k < |lines|
    requires forall j | 0 <= j < |lines| && j != k :: lines[j].itemCode != lines[k].itemCode
    ensures CorrectionSum(stock, branch, lines, lines[k].itemCode) == Correction(stock, branch, lines[k])
    decreases |lines|
  {
    var code := lines[k].itemCode;
    if k == 0 {
      forall l | l in lines[1..] ensures l.itemCode != code {
        var j :| 0 <= j < |lines[1..]| && lines[1..][j] == l;
        assert lines[j + 1] == l;
      }
      CorrectionSumAbsent(stock, branch, lines[1..], code);
    } else {
      assert lines[0].itemCode != code;
      CorrectionSumSingle(stock, branch, lines[1..], k - 1);
    }
  }

  /** The property the count promises: for an item counted once, the signed
      adjustment is exactly physical minus system, or 0 when they agree to
      within the tolerance. */
  lemma AdjustmentMatchesCount(stock: Stock, branch: string, lines: seq<Line>, k: nat)
    requires k < |lines|
    requires forall j | 0 <= j < |lines| && j != k :: lines[j].itemCode != lines[k].itemCode
    ensures var s := SignedSum(AdjustmentLines(stock, branch, lines), lines[k].itemCode);
            var d := OrZero(lines[k].physicalCount) - QuantityAt(stock, branch, lines[k].itemCode);
            (Abs(d) >= Tolerance ==> s == d) && (Abs(d) < Tolerance ==> s == 0.0)
  {
    SignedSumIsCorrection(stock, branch, lines, lines[k].itemCode);
    CorrectionSumSingle(stock, branch, lines, k);
  }

  /** Replaying an adjustment line at the branch brings the stored quantity to
      the physical count. */
  lemma AdjustmentReachesCount(s: Replay, item: Item, branch: string, l: Line)
    requires branch != "" && branch in s.stock
    requires AdjustmentLine(s.stock, branch, l).Some?
    ensures var a := AdjustmentLine(s.stock, branch, l).value;
            var cost := if a.kind == AdjustmentIn then OrZero(l.cost) else 0.0;
            QuantityAt(Update(s, item, branch, l.itemCode, Signed(a), cost).stock, branch, l.itemCode)
            == OrZero(l.physicalCount)
  {
    var a := AdjustmentLine(s.stock, branch, l).value;
    var cost := if a.kind == AdjustmentIn then OrZero(l.cost) else 0.0;
    if Signed(a) > 0.0 {
      IncreaseRule(s, item, branch, l.itemCode, Signed(a), cost);
    } else {
      DecreaseRule(s, item, branch, l.itemCode, Signed(a), cost);
    }
  }

  // ---------------------------------------------------------------------------
  // Merging a modal selection into a working list (operations_extension.js:260-277)

  /** The `map` from a modal context to a list; other contexts have none. */
  function ContextList(ctx: string): (r: Option<ListName>)
    ensures r.Some? <==> ctx in {"receive", "transfer", "return", "adjustment"}
  {
    if ctx == "receive" then Some(ReceiveList)
    else if ctx == "transfer" then Some(TransferList)
    else if ctx == "return" then Some(ReturnList)
    else if ctx == "adjustment" then Some(AdjustmentList)
    else None
  }

  /** The row a newly selected item gets: quantity '' (unparsable), the
      item's cost read by `parseFloat(...) || 0`. */
  function NewLine(i: Item): Line
  {
    Line(i.code, NaN, Finite(OrZero(i.cost)), Undefined)
  }

  predicate Listed(list: seq<Line>, code: string)
  {
    exists x | x in list :: x.itemCode == code
  }

  /** No two rows of the list are for the same item. */
  predicate DistinctCodes(list: seq<Line>)
  {
    forall i, j | 0 <= i < j < |list| :: list[i].itemCode != list[j].itemCode
  }

  /** The effect of one selected code. */
  function MergeOne(list: seq<Line>, items: seq<Item>, c: string): seq<Line>
  {
    match Find(items, ItemKey, c)
    case None => list
    case Some(i) => if Listed(list, c) then list else list + [NewLine(i)]
  }

  /** The `sel.forEach` of operations_extension.js:269-274. */
  function Merge(list: seq<Line>, items: seq<Item>, sel: seq<string>): seq<Line>
    decreases |sel|
  {
    if sel == [] then list else Merge(MergeOne(list, items, sel[0]), items, sel[1..])
  }

  /** Existing rows are untouched: the merge only appends. */
  lemma {:induction false} MergeKeepsRows(list: seq<Line>, items: seq<Item>, sel: seq<string>)
    ensures |list| <= |Merge(list, items, sel)| && Merge(list, items, sel)[..|list|] == list
    decreases |sel|
  {
    if sel != [] {
      var next := MergeOne(list, items, sel[0]);
      MergeKeepsRows(next, items, sel[1..]);
      var r := Merge(next, items, sel[1..]);
      assert r[..|list|] == r[..|next|][..|list|];
    }
  }

  /** A row listed before the merge is listed after it. */
  lemma MergeKeepsListed(list: seq<Line>, items: seq<Item>, sel: seq<string>, code: string)
    requires Listed(list, code)
    ensures Listed(Merge(list, items, sel), code)
  {
    MergeKeepsRows(list, items, sel);
    var r := Merge(list, items, sel);
    var y :| y in list && y.itemCode == code;
    var i :| 0 <= i < |list| && list[i] == y;
    assert r[i] == y;
  }

  /** Every appended row is the fresh row of a known, selected item that the
      list did not hold. */
  lemma {:induction false} MergeAddsNew(list: seq<Line>, items: seq<Item>, sel: seq<string>, k: nat)
    requires |list| <= k < |Merge(list, items, sel)|
    ensures var x := Merge(list, items, sel)[k];
            && x.itemCode in sel
            && Find(items, ItemKey, x.itemCode).Some?
            && x == NewLine(Find(items, ItemKey, x.itemCode).value)
            && !Listed(list, x.itemCode)
    decreases |sel|
  {
    var next := MergeOne(list, items, sel[0]);
    var r := Merge(next, items, sel[1..]);
    MergeKeepsRows(next, items, sel[1..]);
    if k < |next| {
      assert r[k] == next[k];
      assert next[k].itemCode == sel[0];
    } else {
      MergeAddsNew(next, items, sel[1..], k);
      assert r[k].itemCode in sel[1..];
    }
  }

  /** Every known selected item ends up on the list. */
  lemma {:induction false} MergeCovers(list: seq<Line>, items: seq<Item>, sel: seq<string>, code: string)
    requires code in sel && Find(items, ItemKey, code).Some?
    ensures Listed(Merge(list, items, sel), code)
    decreases |sel|
  {
    var next := MergeOne(list, items, sel[0]);
    if code == sel[0] {
      assert Listed(next, code) by {
        if !Listed(list, code) {
          assert next[|list|].itemCode == code;
        }
      }
      MergeKeepsListed(next, items, sel[1..], code);
    } else {
      assert code in sel[1..];
      MergeCovers(next, items, sel[1..], code);
    }
  }

  /** The merge never lists an item twice. */
  lemma {:induction false} MergeKeepsDistinct(list: seq<Line>, items: seq<Item>, sel: seq<string>)
    requires DistinctCodes(list)
    ensures DistinctCodes(Merge(list, items, sel))
    decreases |sel|
  {
    if sel != [] {
      var next := MergeOne(list, items, sel[0]);
      assert DistinctCodes(next) by {
        if |next| > |list| {
          forall i | 0 <= i < |list| ensures next[i].itemCode != sel[0] {
            assert list[i] in list;
          }
        }
      }
      MergeKeepsDistinct(next, items, sel[1..]);
    }
  }

  /** Modal confirmation (operations_extension.js:255-277): the selected codes
      are pushed one by one onto the list the context names. */
  method ConfirmSelection(s: Store, ctx: string, sel: seq<string>)
    modifies s
    ensures ContextList(ctx).None? ==> forall n :: s.List(n) == old(s.List(n))
    ensures ContextList(ctx).Some? ==>
              && s.List(ContextList(ctx).value) == Merge(old(s.List(ContextList(ctx).value)), s.items, sel)
              && forall n | n != ContextList(ctx).value :: s.List(n) == old(s.List(n))
    ensures s.transactions == old(s.transactions) && s.payments == old(s.payments)
  {
    var name := ContextList(ctx);
    if name.Some? {
      var list := s.List(name.value);
      var j := 0;
      while j < |sel|
        invariant 0 <= j <= |sel|
        invariant Merge(list, s.items, sel[j..]) == Merge(old(s.List(name.value)), s.items, sel)
      {
        var found := Find(s.items, ItemKey, sel[j]);
        assert sel[j..][1..] == sel[j + 1..];
        if found.Some? && !Listed(list, sel[j]) {
          list := list + [NewLine(found.value)];
        }
        j := j + 1;
      }
      s.SetList(name.value, list);
    }
  }

  // ---------------------------------------------------------------------------
  // Editing and removing rows (operations_extension.js:281-301)

  /** The editable columns: `data-field` is quantity, cost or physicalCount. */
  datatype Field = Quantity | Cost | PhysicalCount

  function WithField(l: Line, f: Field, v: Number): Line
  {
    match f
    case Quantity => l.(quantity := v)
    case Cost => l.(cost := v)
    case PhysicalCount => l.(physicalCount := v)
  }

  function FieldOf(l: Line, f: Field): Number
  {
    match f
    case Quantity => l.quantity
    case Cost => l.cost
    case PhysicalCount => l.physicalCount
  }

  /** The list after `handleInput`: the edited field holds the parsed number,
      or 0 when it does not parse; a row that does not exist makes the handler
      throw before anything changes. */
  function Edited(list: seq<Line>, idx: nat, f: Field, entered: Number): (r: seq<Line>)
    ensures |r| == |list|
    ensures forall k | 0 <= k < |list| && k != idx :: r[k] == list[k]
    ensures idx < |list| ==> FieldOf(r[idx], f) == Finite(OrZero(entered))
    ensures idx < |list| ==> forall g | g != f :: FieldOf(r[idx], g) == FieldOf(list[idx], g)
  {
    if idx < |list| then list[idx := WithField(list[idx], f, Finite(OrZero(entered)))] else list
  }

  method HandleInput(s: Store, name: ListName, idx: nat, f: Field, entered: Number)
    modifies s
    ensures s.List(name) == Edited(old(s.List(name)), idx, f, entered)
    ensures forall n | n != name :: s.List(n) == old(s.List(n))
    ensures s.transactions == old(s.transactions) && s.payments == old(s.payments)
  {
    var list := s.List(name);
    if idx < |list| {
      list := list[idx := WithField(list[idx], f, Finite(OrZero(entered)))];
      s.SetList(name, list);
    }
  }

  /** `splice(idx, 1)`: the row at idx goes, the others keep their order;
      an index past the end removes nothing. */
  function Removed(list: seq<Line>, idx: nat): (r: seq<Line>)
    ensures idx < |list| ==> |r| == |list| - 1
    ensures idx >= |list| ==> r == list
    ensures forall k | 0 <= k < idx && k < |list| :: r[k] == list[k]
    ensures forall k | idx <= k < |r| :: r[k] == list[k + 1]
    ensures idx < |list| ==> multiset(r) + multiset{list[idx]} == multiset(list)
  {
    if idx < |list| then
      assert list == list[..idx] + [list[idx]] + list[idx + 1..];
      list[..idx] + list[idx + 1..]
    else list
  }

  method HandleRemove(s: Store, name: ListName, idx: nat)
    modifies s
    ensures s.List(name) == Removed(old(s.List(name)), idx)
    ensures forall n | n != name :: s.List(n) == old(s.List(n))
    ensures s.transactions == old(s.transactions) && s.payments == old(s.payments)
  {
    var list := s.List(name);
    if idx < |list| {
      s.SetList(name, list[..idx] + list[idx + 1..]);
    }
  }

  // ---------------------------------------------------------------------------
  // Submissions (operations_extension.js:541-603); the server call is taken
  // to succeed

  /** `parseFloat` of a stored quantity. */
  function Parsed(n: Number): Number
  {
    if n.Finite? then n else NaN
  }

  /** Transfer pre-check (operations_extension.js:544). */
  predicate TransferRefused(from: string, to: string, list: seq<Line>)
  {
    from == "" || to == "" || from == to || list == []
  }

  /** The row pushed onto the local log for each transfer line
      (operations_extension.js:554): no `ref`, no item cost. */
  function SentRow(l: Line, batchId: string, from: string, to: string, date: int): Tx
  {
    BlankTx.(kind := TransferOut, itemCode := l.itemCode, quantity := Parsed(l.quantity), batchId := batchId,
             date := date, fromBranchCode := from, toBranchCode := to, status := Transactions.InTransit)
  }

  function SentRows(lines: seq<Line>, batchId: string, from: string, to: string, date: int): (r: seq<Tx>)
    ensures |r| == |lines|
    ensures forall k | 0 <= k < |lines| :: r[k] == SentRow(lines[k], batchId, from, to, date)
  {
    seq(|lines|, k requires 0 <= k < |lines| => SentRow(lines[k], batchId, from, to, date))
  }

  /** `handleTransferSubmit`: `ref` is the entered reference, `generated` the
      id used when it is empty, `date` the submission time. */
  method SubmitTransfer(s: Store, from: string, to: string, ref: string, generated: string, date: int)
    returns (sent: bool)
    modifies s
    ensures sent <==> !TransferRefused(from, to, old(s.transferList))
    ensures sent ==> s.transactions == old(s.transactions) + SentRows(old(s.transferList), OrElse(ref, generated), from, to, date)
    ensures sent ==> s.transferList == []
    ensures !sent ==> s.transactions == old(s.transactions) && s.transferList == old(s.transferList)
    ensures s.payments == old(s.payments)
    ensures s.receiveList == old(s.receiveList) && s.returnList == old(s.returnList)
    ensures s.adjustmentList == old(s.adjustmentList)
  {
    sent := !TransferRefused(from, to, s.transferList);
    if sent {
      var batchId := OrElse(ref, generated);
      var log := s.transactions;
      var j := 0;
      while j < |s.transferList|
        invariant 0 <= j <= |s.transferList|
        invariant log == old(s.transactions) + SentRows(s.transferList[..j], batchId, from, to, date)
      {
        assert SentRows(s.transferList[..j + 1], batchId, from, to, date)
               == SentRows(s.transferList[..j], batchId, from, to, date) + [SentRow(s.transferList[j], batchId, from, to, date)];
        log := log + [SentRow(s.transferList[j], batchId, from, to, date)];
        j := j + 1;
      }
      assert s.transferList[..j] == s.transferList;
      s.transactions := log;
      s.transferList := [];
    }
  }

  /** A sent row passes the classifier and debits the sending branch, while
      the destination sees nothing until the batch is received. */
  lemma SentRowDebitsSource(s: Replay, items: seq<Item>, l: Line, batchId: string, from: string, to: string, date: int)
    requires from != to
    ensures Classifier.Included(SentRow(l, batchId, from, to, date))
    ensures TargetBranch(SentRow(l, batchId, from, to, date)) == from
    ensures to in s.stock ==>
              to in Step(s, items, SentRow(l, batchId, from, to, date)).stock
              && Step(s, items, SentRow(l, batchId, from, to, date)).stock[to] == s.stock[to]
  {
    IsTrueExactly(Unset);
    if to in s.stock {
      TransferOutLeavesDestination(s, items, SentRow(l, batchId, from, to, date));
    }
  }

  /** Return pre-check (operations_extension.js:565). */
  predicate ReturnRefused(supplier: string, branch: string, list: seq<Line>)
  {
    supplier == "" || branch == "" || list == []
  }

  /** `handleReturnSubmit`: on success only the list is cleared; no row is
      added to the local log. */
  method SubmitReturn(s: Store, supplier: string, branch: string) returns (sent: bool)
    modifies s
    ensures sent <==> !ReturnRefused(supplier, branch, old(s.returnList))
    ensures s.returnList == if sent then [] else old(s.returnList)
    ensures s.transactions == old(s.transactions) && s.payments == old(s.payments)
    ensures s.receiveList == old(s.receiveList) && s.transferList == old(s.transferList)
    ensures s.adjustmentList == old(s.adjustmentList)
  {
    sent := !ReturnRefused(supplier, branch, s.returnList);
    if sent {
      s.returnList := [];
    }
  }

  /** How an adjustment submission ends. */
  datatype Submission = Refused | NoChanges | Submitted(lines: seq<AdjLine>)

  /** `handleAdjustmentSubmit`: refused without a branch, a reference or
      rows; otherwise the lines are derived from the replayed stock, and
      nothing is submitted when none remain. On success only the list is
      cleared. */
  method SubmitAdjustment(s: Store, branch: string, ref: string) returns (out: Submission)
    modifies s
    ensures (branch == "" || ref == "" || old(s.adjustmentList) == []) <==> out == Refused
    ensures out.Submitted? ==>
              out.lines == AdjustmentLines(StockLevels(s.branches, s.items, s.transactions), branch, old(s.adjustmentList))
              && out.lines != []
    ensures out == NoChanges <==>
              out != Refused && AdjustmentLines(StockLevels(s.branches, s.items, s.transactions), branch, old(s.adjustmentList)) == []
    ensures s.adjustmentList == if out.Submitted? then [] else old(s.adjustmentList)
    ensures s.transactions == old(s.transactions) && s.payments == old(s.payments)
    ensures s.receiveList == old(s.receiveList) && s.transferList == old(s.transferList)
    ensures s.returnList == old(s.returnList)
  {
    if branch == "" || ref == "" || s.adjustmentList == [] {
      return Refused;
    }
    var stock := CalculateStockLevels(s.branches, s.items, s.transactions);
    var lines := AdjustmentLines(stock, branch, s.adjustmentList);
    if lines == [] {
      return NoChanges;
    }
    s.adjustmentList := [];
    return Submitted(lines);
  }
}
