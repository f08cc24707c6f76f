/**
 * The butchery screen (butchery_extension.js): a parent item is cut into
 * child items. The model covers the cut list, the yield figure, the checks
 * and weight reconciliation of a submission, the rows it logs with the
 * parent's average cost carried onto every cut, and the grouping of
 * production rows into batches for the yield report.
 */
module Butchery {
  import opened Utils
  import opened Records
  import opened Classifier
  import opened AppState
  import opened StockReplay
  import Sorting
  import Transactions

  /** A row of the cut list; its quantity is always a number. */
  datatype Cut = Cut(itemCode: string, quantity: real)

  predicate HasCut(cuts: seq<Cut>, code: string)
  {
    exists c | c in cuts :: c.itemCode == code
  }

  predicate DistinctCuts(cuts: seq<Cut>)
  {
    forall i, j | 0 <= i < j < |cuts| :: cuts[i].itemCode != cuts[j].itemCode
  }

  /** `butcheryState`: the chosen parent item and the cut list. */
  class ButcheryForm {
    var parent: Option<Item>
    var cuts: seq<Cut>

    /** No item is listed twice. */
    predicate Valid()
      reads this
    {
      DistinctCuts(cuts)
    }

    constructor()
      ensures parent == None && cuts == [] && Valid()
    {
      parent, cuts := None, [];
    }

    /** Choosing a parent resets the cut list (butchery_extension.js:253-258). */
    method ChooseParent(item: Item)
      modifies this
      ensures parent == Some(item) && cuts == [] && Valid()
    {
      parent, cuts := Some(item), [];
    }

    /** Adding a cut already listed changes nothing; otherwise it is appended
        with quantity 0 (butchery_extension.js:260-264). */
    method AddCut(item: Item)
      requires Valid()
      modifies this
      ensures cuts == if HasCut(old(cuts), item.code) then old(cuts) else old(cuts) + [Cut(item.code, 0.0)]
      ensures parent == old(parent) && Valid()
    {
      var listed := exists c | c in cuts :: c.itemCode == item.code;
      if !listed {
        forall i | 0 <= i < |cuts| ensures cuts[i].itemCode != item.code {
          assert cuts[i] in cuts;
        }
        cuts := cuts + [Cut(item.code, 0.0)];
      }
    }

    /** The remove button: `splice(idx, 1)` (butchery_extension.js:171-175). */
    method RemoveCut(idx: nat)
      requires Valid()
      modifies this
      ensures cuts == if idx < |old(cuts)| then old(cuts)[..idx] + old(cuts)[idx + 1..] else old(cuts)
      ensures parent == old(parent) && Valid()
    {
      if idx < |cuts| {
        ghost var before := cuts;
        cuts := cuts[..idx] + cuts[idx + 1..];
        forall i, j | 0 <= i < j < |cuts| ensures cuts[i].itemCode != cuts[j].itemCode {
          var i', j' := if i < idx then i else i + 1, if j < idx then j else j + 1;
          assert cuts[i] == before[i'] && cuts[j] == before[j'];
        }
      }
    }

    /** A quantity edit: `parseFloat(value) || 0`; a row that does not exist
        makes the handler throw before anything changes (butchery_extension.js:178-181). */
    method SetCutQuantity(idx: nat, entered: Number)
      requires Valid()
      modifies this
      ensures |cuts| == |old(cuts)|
      ensures forall k | 0 <= k < |cuts| && k != idx :: cuts[k] == old(cuts)[k]
      ensures idx < |cuts| ==> cuts[idx] == Cut(old(cuts)[idx].itemCode, OrZero(entered))
      ensures parent == old(parent) && Valid()
    {
      if idx < |cuts| {
        cuts := cuts[idx := Cut(cuts[idx].itemCode, OrZero(entered))];
      }
    }
  }

  // ---------------------------------------------------------------------------
  // Output weight and yield

  /** `currentList.reduce((a, b) => a + b.quantity, 0)`. */
  function OutputWeight(cuts: seq<Cut>): real
    decreases |cuts|
  {
    if cuts == [] then 0.0 else OutputWeight(cuts[..|cuts| - 1]) + cuts[|cuts| - 1].quantity
  }

  /** Yield % (butchery_extension.js:290, 403): output over input times 100,
      or 0 when the input is not positive. */
  function YieldPct(output: real, input: real): (r: real)
    ensures input > 0.0 ==> r * input == output * 100.0
    ensures input <= 0.0 ==> r == 0.0
  {
    if input > 0.0 then output / input * 100.0 else 0.0
  }

  /** The yield reads 100% exactly when output and input weigh the same, and
      lies between 0 and 100 when the output is a part of the input. */
  lemma YieldBounds(output: real, input: real)
    requires input > 0.0
    ensures YieldPct(output, input) == 100.0 <==> output == input
    ensures 0.0 <= output <= input ==> 0.0 <= YieldPct(output, input) <= 100.0
  {
    var r := YieldPct(output, input);
    assert r * input == output * 100.0;
    if 0.0 <= output <= input {
      assert r * input <= 100.0 * input;
    }
  }

  // ---------------------------------------------------------------------------
  // Submission (butchery_extension.js:301-372); the server call is taken to succeed

  const Tolerance: real := 0.001

  datatype Refusal = MissingFields | InsufficientStock | OutputExceedsInput

  /** How a submission ends: refused with a message, abandoned at the
      weight-mismatch dialog, or produced with the rows it logged. */
  datatype Outcome =
    | Refused(why: Refusal)
    | Declined
    | Produced(batchId: string, parentQty: real, parentCost: real, rows: seq<Tx>)

  /** `!parentCode || !parentQty || !branchCode || !expiry || no cuts`;
      `!parentQty` holds for a NaN and for 0. */
  predicate Missing(parentCode: string, entered: Number, branch: string, expiry: string, cuts: seq<Cut>)
  {
    parentCode == "" || !(entered.Finite? && entered.value != 0.0) || branch == "" || expiry == "" || cuts == []
  }

  /** The logged `production_out` row of the parent. */
  function ParentRow(code: string, qty: real, cost: real, branch: string, batchId: string, now: int): Tx
  {
    BlankTx.(kind := ProductionOut, itemCode := code, quantity := Finite(qty), cost := Finite(cost),
             branchCode := branch, fromBranchCode := branch, batchId := batchId, date := now,
             status := Transactions.Completed, isApproved := Bool(true))
  }

  /** The logged `production_in` row of a cut, valued at the parent's cost. */
  function CutRow(c: Cut, cost: real, branch: string, batchId: string, now: int): Tx
  {
    BlankTx.(kind := ProductionIn, itemCode := c.itemCode, quantity := Finite(c.quantity), cost := Finite(cost),
             branchCode := branch, batchId := batchId, date := now,
             status := Transactions.Completed, isApproved := Bool(true))
  }

  function CutRows(cuts: seq<Cut>, cost: real, branch: string, batchId: string, now: int): (r: seq<Tx>)
    ensures |r| == |cuts|
    ensures forall k | 0 <= k < |cuts| :: r[k] == CutRow(cuts[k], cost, branch, batchId, now)
  {
    seq(|cuts|, k requires 0 <= k < |cuts| => CutRow(cuts[k], cost, branch, batchId, now))
  }

  /** What `submitButcheryProduction` decides against the replayed stock:
      `confirmed` answers the mismatch dialog, `generated` is the batch number
      used when none is entered, `now` the time of the logged rows. */
  function Production(stock: Stock, cuts: seq<Cut>, parentCode: string, entered: Number, branch: string,
                      batchNo: string, expiry: string, confirmed: bool, generated: string, now: int): Outcome
  {
    if Missing(parentCode, entered, branch, expiry, cuts) then Refused(MissingFields)
    else if entered.value > QuantityAt(stock, branch, parentCode) then Refused(InsufficientStock)
    else
      var output := OutputWeight(cuts);
      var diff := entered.value - output;
      if diff > Tolerance && !confirmed then Declined
      else if diff < -Tolerance then Refused(OutputExceedsInput)
      else
        var qty := if diff > Tolerance then output else entered.value;
        var batchId := OrElse(batchNo, generated);
        var cost := AvgCostAt(stock, branch, parentCode);
        Produced(batchId, qty, cost, [ParentRow(parentCode, qty, cost, branch, batchId, now)] + CutRows(cuts, cost, branch, batchId, now))
  }

  /** The output weight `reduce` of butchery_extension.js:321. */
  method SumOutput(cuts: seq<Cut>) returns (output: real)
    ensures output == OutputWeight(cuts)
  {
    output := 0.0;
    var k := 0;
    while k < |cuts|
      invariant 0 <= k <= |cuts|
      invariant output == OutputWeight(cuts[..k])
    {
      assert cuts[..k + 1][..k] == cuts[..k];
      output := output + cuts[k].quantity;
      k := k + 1;
    }
    assert cuts[..k] == cuts;
  }

  /** The pushes of butchery_extension.js:359-364: the parent row, then one
      row per cut. */
  method BuildRows(cuts: seq<Cut>, parentCode: string, qty: real, cost: real, branch: string,
                   batchId: string, now: int) returns (logged: seq<Tx>)
    ensures logged == [ParentRow(parentCode, qty, cost, branch, batchId, now)] + CutRows(cuts, cost, branch, batchId, now)
  {
    logged := [ParentRow(parentCode, qty, cost, branch, batchId, now)];
    var j := 0;
    while j < |cuts|
      invariant 0 <= j <= |cuts|
      invariant logged == [ParentRow(parentCode, qty, cost, branch, batchId, now)] + CutRows(cuts[..j], cost, branch, batchId, now)
    {
      assert CutRows(cuts[..j + 1], cost, branch, batchId, now)
             == CutRows(cuts[..j], cost, branch, batchId, now) + [CutRow(cuts[j], cost, branch, batchId, now)];
      logged := logged + [CutRow(cuts[j], cost, branch, batchId, now)];
      j := j + 1;
    }
    assert cuts[..j] == cuts;
  }

  /** `submitButcheryProduction` on the store and the form. */
  method SubmitProduction(s: Store, form: ButcheryForm, parentCode: string, entered: Number, branch: string,
                          batchNo: string, expiry: string, confirmed: bool, generated: string, now: int)
    returns (out: Outcome)
    requires form.Valid()
    modifies s, form
    ensures form.Valid()
    ensures out == Production(StockLevels(s.branches, s.items, old(s.transactions)), old(form.cuts),
                              parentCode, entered, branch, batchNo, expiry, confirmed, generated, now)
    ensures s.transactions == old(s.transactions) + (if out.Produced? then out.rows else [])
    ensures form.cuts == (if out.Produced? then [] else old(form.cuts))
    ensures form.parent == old(form.parent)
    ensures s.payments == old(s.payments)
    ensures forall n :: s.List(n) == old(s.List(n))
  {
    out := Decide(s.branches, s.items, s.transactions, form.cuts, parentCode, entered, branch,
                  batchNo, expiry, confirmed, generated, now);
    if out.Produced? {
      s.transactions := s.transactions + out.rows;
      form.cuts := [];
    }
  }

  /** The checks and the rows of `submitButcheryProduction`
      (butchery_extension.js:301-364), on the master data and the log. */
  method Decide(branches: seq<Branch>, items: seq<Item>, log: seq<Tx>, cuts: seq<Cut>, parentCode: string,
                entered: Number, branch: string, batchNo: string, expiry: string, confirmed: bool,
                generated: string, now: int)
    returns (out: Outcome)
    ensures out == Production(StockLevels(branches, items, log), cuts, parentCode, entered, branch,
                              batchNo, expiry, confirmed, generated, now)
  {
    if Missing(parentCode, entered, branch, expiry, cuts) {
      return Refused(MissingFields);
    }
    var stock := CalculateStockLevels(branches, items, log);
    var qty := entered.value;
    if qty > QuantityAt(stock, branch, parentCode) {
      return Refused(InsufficientStock);
    }
    var output := SumOutput(cuts);
    var diff := qty - output;
    if diff > Tolerance {
      if !confirmed {
        return Declined;
      }
      qty := output;
    } else if diff < -Tolerance {
      return Refused(OutputExceedsInput);
    }
    var batchId := OrElse(batchNo, generated);
    var cost := AvgCostAt(stock, branch, parentCode);
    var logged := BuildRows(cuts, parentCode, qty, cost, branch, batchId, now);
    out := Produced(batchId, qty, cost, logged);
  }

  /** A production never takes more of the parent than the replay holds at
      the branch, its input and output weights agree to within the tolerance,
      and the parent quantity is either the entered one or, after a confirmed
      mismatch, the output weight. */
  lemma ProducedWithinStock(stock: Stock, cuts: seq<Cut>, parentCode: string, entered: Number, branch: string,
                            batchNo: string, expiry: string, confirmed: bool, generated: string, now: int)
    ensures var out := Production(stock, cuts, parentCode, entered, branch, batchNo, expiry, confirmed, generated, now);
            out.Produced? ==>
              && out.parentQty <= QuantityAt(stock, branch, parentCode)
              && -Tolerance <= out.parentQty - OutputWeight(cuts) <= Tolerance
              && entered.Finite?
              && (out.parentQty == entered.value || (confirmed && out.parentQty == OutputWeight(cuts)))
  {
  }

  /** The other direction: a complete form whose weights agree to within the
      tolerance and whose parent is in stock is produced as entered, and a
      larger input is produced at the output weight exactly when confirmed. */
  lemma ProductionAccepted(stock: Stock, cuts: seq<Cut>, parentCode: string, entered: Number, branch: string,
                           batchNo: string, expiry: string, confirmed: bool, generated: string, now: int)
    requires !Missing(parentCode, entered, branch, expiry, cuts)
    requires entered.value <= QuantityAt(stock, branch, parentCode)
    ensures var out := Production(stock, cuts, parentCode, entered, branch, batchNo, expiry, confirmed, generated, now);
            var diff := entered.value - OutputWeight(cuts);
            && (-Tolerance <= diff <= Tolerance ==> out.Produced? && out.parentQty == entered.value)
            && (diff > Tolerance ==> (out.Produced? <==> confirmed))
            && (diff < -Tolerance ==> out == Refused(OutputExceedsInput))
  {
  }

  /** What every logged row of one production shares: the batch, the branch,
      the parent's cost, approval, Completed, and a place in the replay. */
  predicate Logged(t: Tx, batchId: string, branch: string, cost: real)
  {
    && t.batchId == batchId && t.branchCode == branch && t.cost == Finite(cost)
    && t.isApproved == Bool(true) && t.status == Transactions.Completed && Included(t)
  }

  lemma ParentRowLogged(code: string, qty: real, cost: real, branch: string, batchId: string, now: int)
    ensures Logged(ParentRow(code, qty, cost, branch, batchId, now), batchId, branch, cost)
  {
    IsTrueExactly(Unset);
  }

  lemma CutRowLogged(c: Cut, cost: real, branch: string, batchId: string, now: int)
    ensures Logged(CutRow(c, cost, branch, batchId, now), batchId, branch, cost)
  {
    IsTrueExactly(Unset);
  }

  /** The logged rows: one `production_out` of the parent quantity, then one
      `production_in` per cut with its item and quantity; all share the batch
      and the branch, carry the parent's replayed average cost, are approved
      and Completed, and pass the classifier. */
  lemma ProductionRows(stock: Stock, cuts: seq<Cut>, parentCode: string, entered: Number, branch: string,
                       batchNo: string, expiry: string, confirmed: bool, generated: string, now: int)
    ensures var out := Production(stock, cuts, parentCode, entered, branch, batchNo, expiry, confirmed, generated, now);
            out.Produced? ==>
              && out.parentCost == AvgCostAt(stock, branch, parentCode)
              && out.batchId == OrElse(batchNo, generated)
              && |out.rows| == |cuts| + 1
              && out.rows[0].kind == ProductionOut && out.rows[0].itemCode == parentCode
              && out.rows[0].quantity == Finite(out.parentQty)
              && (forall k | 0 <= k < |cuts| ::
                    out.rows[k + 1].kind == ProductionIn && out.rows[k + 1].itemCode == cuts[k].itemCode
                    && out.rows[k + 1].quantity == Finite(cuts[k].quantity))
              && (forall t | t in out.rows :: Logged(t, out.batchId, branch, out.parentCost))
  {
    var out := Production(stock, cuts, parentCode, entered, branch, batchNo, expiry, confirmed, generated, now);
    if out.Produced? {
      var batchId, qty, cost := out.batchId, out.parentQty, out.parentCost;
      var parentRow := ParentRow(parentCode, qty, cost, branch, batchId, now);
      var cutRows := CutRows(cuts, cost, branch, batchId, now);
      assert out.rows == [parentRow] + cutRows;
      ParentRowLogged(parentCode, qty, cost, branch, batchId, now);
      forall t | t in out.rows
        ensures Logged(t, batchId, branch, cost)
      {
        if t != parentRow {
          assert t in cutRows;
          var k :| 0 <= k < |cutRows| && cutRows[k] == t;
          CutRowLogged(cuts[k], cost, branch, batchId, now);
        }
      }
    }
  }

  /** In the replay the parent row takes the parent quantity out of the
      branch. */
  lemma ParentRowReplays(s: Replay, items: seq<Item>, qty: real, cost: real, branch: string,
                         batchId: string, now: int, parentCode: string, parent: Item)
    requires Find(items, ItemKey, parentCode) == Some(parent)
    ensures Step(s, items, ParentRow(parentCode, qty, cost, branch, batchId, now))
            == Update(s, parent, branch, parentCode, -qty, 0.0)
  {
    ParentRowLogged(parentCode, qty, cost, branch, batchId, now);
    Dispatch(s, items, ParentRow(parentCode, qty, cost, branch, batchId, now), parent);
  }

  /** Each cut row brings its quantity in at the branch, valued at the
      parent's cost. */
  lemma CutRowReplays(s: Replay, items: seq<Item>, c: Cut, cost: real, branch: string,
                      batchId: string, now: int, cut: Item)
    requires Find(items, ItemKey, c.itemCode) == Some(cut)
    ensures Step(s, items, CutRow(c, cost, branch, batchId, now))
            == Update(s, cut, branch, c.itemCode, c.quantity, cost)
  {
    CutRowLogged(c, cost, branch, batchId, now);
    Dispatch(s, items, CutRow(c, cost, branch, batchId, now), cut);
  }

  /** With no item listed twice, the cut rows move pairwise different
      positions and read none, so the replay takes them in any order. */
  lemma DistinctCutRowsIndependent(cuts: seq<Cut>, cost: real, branch: string, batchId: string, now: int)
    requires DistinctCuts(cuts)
    ensures var rows := CutRows(cuts, cost, branch, batchId, now);
            forall i, j | 0 <= i < |rows| && 0 <= j < |rows| && i != j :: Independent(rows[i], rows[j])
  {
    var rows := CutRows(cuts, cost, branch, batchId, now);
    forall i, j | 0 <= i < |rows| && 0 <= j < |rows| && i != j
      ensures Independent(rows[i], rows[j])
    {
      assert Key(rows[i]) == (branch, cuts[i].itemCode);
      assert Key(rows[j]) == (branch, cuts[j].itemCode);
    }
  }

  // ---------------------------------------------------------------------------
  // Report grouping (butchery_extension.js:380-393)

  /** One batch of the yield report: its first row's date, its last
      `production_out` row, and its `production_in` rows in log order. */
  datatype Batch = Batch(id: string, date: int, parent: Option<Tx>, children: seq<Tx>)

  predicate IsProduction(t: Tx)
  {
    t.kind == ProductionOut || t.kind == ProductionIn
  }

  /** One row of the `forEach` that builds `batches`. */
  function AddRow(bs: map<string, Batch>, t: Tx): map<string, Batch>
  {
    if !IsProduction(t) then bs
    else
      var b := if t.batchId in bs then bs[t.batchId] else Batch(t.batchId, t.date, None, []);
      bs[t.batchId := if t.kind == ProductionOut then b.(parent := Some(t)) else b.(children := b.children + [t])]
  }

  function Group(txs: seq<Tx>): map<string, Batch>
    decreases |txs|
  {
    if txs == [] then map[] else AddRow(Group(txs[..|txs| - 1]), txs[|txs| - 1])
  }

  method GroupBatches(txs: seq<Tx>) returns (bs: map<string, Batch>)
    ensures bs == Group(txs)
  {
    bs := map[];
    var i := 0;
    while i < |txs|
      invariant 0 <= i <= |txs|
      invariant bs == Group(txs[..i])
    {
      assert txs[..i + 1][..i] == txs[..i];
      var t := txs[i];
      if IsProduction(t) {
        var b := if t.batchId in bs then bs[t.batchId] else Batch(t.batchId, t.date, None, []);
        if t.kind == ProductionOut {
          bs := bs[t.batchId := b.(parent := Some(t))];
        } else {
          bs := bs[t.batchId := b.(children := b.children + [t])];
        }
      }
      i := i + 1;
    }
    assert txs[..i] == txs;
  }

  /** The report's `filter(b => b.parent)`: batches without a parent row are dropped. */
  function Reported(bs: map<string, Batch>): (r: map<string, Batch>)
    ensures forall id :: id in r <==> id in bs && bs[id].parent.Some?
  {
    map id | id in bs && bs[id].parent.Some? :: bs[id]
  }

  function RowOf(id: string): Tx -> bool
  {
    (t: Tx) => IsProduction(t) && t.batchId == id
  }

  function CutOf(id: string): Tx -> bool
  {
    (t: Tx) => t.kind == ProductionIn && t.batchId == id
  }

  function ParentOf(id: string): Tx -> bool
  {
    (t: Tx) => t.kind == ProductionOut && t.batchId == id
  }

  /** A batch exists exactly for the ids of production rows. */
  lemma {:induction false} GroupDomain(txs: seq<Tx>, id: string)
    ensures id in Group(txs) <==> Sorting.Filter(txs, RowOf(id)) != []
    decreases |txs|
  {
    if txs != [] {
      var xs, t := txs[..|txs| - 1], txs[|txs| - 1];
      assert txs == xs + [t];
      GroupDomain(xs, id);
      Sorting.FilterSnoc(xs, t, RowOf(id));
    }
  }

  /** No production row of the batch: no cut row and no parent row of it either. */
  lemma {:induction false} NoRowsNoParts(xs: seq<Tx>, id: string)
    requires Sorting.Filter(xs, RowOf(id)) == []
    ensures Sorting.Filter(xs, CutOf(id)) == [] && Sorting.Filter(xs, ParentOf(id)) == []
    decreases |xs|
  {
    if xs != [] {
      assert xs == [xs[0]] + xs[1..];
      Sorting.FilterCons(xs[0], xs[1..], RowOf(id));
      Sorting.FilterCons(xs[0], xs[1..], CutOf(id));
      Sorting.FilterCons(xs[0], xs[1..], ParentOf(id));
      NoRowsNoParts(xs[1..], id);
    }
  }

  /** A row of another batch, or not a production row, leaves a batch alone. */
  lemma AddRowOther(g: map<string, Batch>, t: Tx, id: string)
    requires !RowOf(id)(t)
    ensures id in AddRow(g, t) <==> id in g
    ensures id in g ==> AddRow(g, t)[id] == g[id]
  {
  }

  /** The batch a production row starts from: its own, or a fresh one dated by it. */
  function Opened(g: map<string, Batch>, t: Tx): Batch
  {
    if t.batchId in g then g[t.batchId] else Batch(t.batchId, t.date, None, [])
  }

  /** A production row sets its batch's parent or extends its children. */
  lemma AddRowOwn(g: map<string, Batch>, t: Tx)
    requires IsProduction(t)
    ensures t.batchId in AddRow(g, t)
    ensures AddRow(g, t)[t.batchId]
            == if t.kind == ProductionOut then Opened(g, t).(parent := Some(t))
               else Opened(g, t).(children := Opened(g, t).children + [t])
  {
  }

  /** A batch carries its id and the date of its first row. */
  lemma {:induction false} GroupDate(txs: seq<Tx>, id: string)
    requires id in Group(txs)
    ensures Group(txs)[id].id == id
    ensures Sorting.Filter(txs, RowOf(id)) != [] && Group(txs)[id].date == Sorting.Filter(txs, RowOf(id))[0].date
    decreases |txs|
  {
    var xs, t := txs[..|txs| - 1], txs[|txs| - 1];
    assert txs == xs + [t];
    var g := Group(xs);
    assert Group(txs) == AddRow(g, t);
    Sorting.FilterSnoc(xs, t, RowOf(id));
    var rows := Sorting.Filter(xs, RowOf(id));
    if !RowOf(id)(t) {
      AddRowOther(g, t, id);
      GroupDate(xs, id);
      assert rows + [] == rows;
    } else {
      AddRowOwn(g, t);
      GroupDomain(xs, id);
      if id in g {
        GroupDate(xs, id);
        assert (rows + [t])[0] == rows[0];
      } else {
        assert rows == [];
        assert rows + [t] == [t];
      }
    }
  }

  /** A batch's children are its cut rows in log order. */
  lemma {:induction false} GroupChildren(txs: seq<Tx>, id: string)
    requires id in Group(txs)
    ensures Group(txs)[id].children == Sorting.Filter(txs, CutOf(id))
    decreases |txs|
  {
    var xs, t := txs[..|txs| - 1], txs[|txs| - 1];
    assert txs == xs + [t];
    var g := Group(xs);
    assert Group(txs) == AddRow(g, t);
    Sorting.FilterSnoc(xs, t, CutOf(id));
    var cuts := Sorting.Filter(xs, CutOf(id));
    if !RowOf(id)(t) {
      AddRowOther(g, t, id);
      assert !CutOf(id)(t);
      GroupChildren(xs, id);
      assert cuts + [] == cuts;
    } else {
      AddRowOwn(g, t);
      GroupDomain(xs, id);
      if id in g {
        GroupChildren(xs, id);
      } else {
        NoRowsNoParts(xs, id);
      }
      if t.kind == ProductionOut {
        assert !CutOf(id)(t);
        assert cuts + [] == cuts;
      } else {
        assert CutOf(id)(t);
      }
    }
  }

  /** A batch has a parent exactly when the log holds a `production_out` row
      of it, and then the parent is the last such row. */
  predicate ParentIsLast(b: Batch, outs: seq<Tx>)
  {
    && (b.parent.None? <==> outs == [])
    && (b.parent.Some? ==> outs != [] && b.parent.value == outs[|outs| - 1])
  }

  lemma {:induction false} GroupParent(txs: seq<Tx>, id: string)
    requires id in Group(txs)
    ensures ParentIsLast(Group(txs)[id], Sorting.Filter(txs, ParentOf(id)))
    decreases |txs|
  {
    var xs, t := txs[..|txs| - 1], txs[|txs| - 1];
    assert txs == xs + [t];
    var g := Group(xs);
    assert Group(txs) == AddRow(g, t);
    Sorting.FilterSnoc(xs, t, ParentOf(id));
    var outs := Sorting.Filter(xs, ParentOf(id));
    if !RowOf(id)(t) {
      AddRowOther(g, t, id);
      assert !ParentOf(id)(t);
      GroupParent(xs, id);
      assert outs + [] == outs;
    } else {
      AddRowOwn(g, t);
      GroupDomain(xs, id);
      if id in g {
        GroupParent(xs, id);
      } else {
        NoRowsNoParts(xs, id);
      }
      if t.kind == ProductionOut {
        assert ParentOf(id)(t);
        assert (outs + [t])[|outs + [t]| - 1] == t;
      } else {
        assert !ParentOf(id)(t);
        assert outs + [] == outs;
      }
    }
  }

  /** The report lists a batch exactly when the log holds a `production_out`
      row with its id. */
  lemma ReportedBatches(txs: seq<Tx>, id: string)
    ensures id in Reported(Group(txs)) <==> Sorting.Filter(txs, ParentOf(id)) != []
  {
    GroupDomain(txs, id);
    if id in Group(txs) {
      GroupParent(txs, id);
    } else {
      NoRowsNoParts(txs, id);
    }
  }
}
