/**
 * The pricing and sales rules of price_generator.js: the price a branch's
 * category selects, the sales list and its submission as one `issue` batch
 * per branch, the sales report's row filter, and the prices and quantities
 * a sales-matrix sheet contributes to the list.
 */
module Pricing {
  import opened Utils
  import opened Records
  import opened Classifier
  import opened AppState
  import Sorting
  import StockReplay

  // ---------------------------------------------------------------------------
  // Branch price (price_generator.js:322-329)

  /** The three price columns of the item master. */
  datatype Column = ColumnA | ColumnB | ColumnC

  /** `branch.PriceCategory || 'PriceA'`, then anything but the three column
      names reads as `PriceA`; an absent category is "". */
  function CategoryColumn(category: string): (c: Column)
    ensures c == ColumnB <==> category == "PriceB"
    ensures c == ColumnC <==> category == "PriceC"
  {
    var named := if category != "" then category else "PriceA";
    if named == "PriceB" then ColumnB
    else if named == "PriceC" then ColumnC
    else ColumnA
  }

  function ColumnPrice(item: Item, c: Column): Number
  {
    match c
    case ColumnA => item.priceA
    case ColumnB => item.priceB
    case ColumnC => item.priceC
  }

  /** `getPriceForBranch`: 0 for a branch code the master data does not hold,
      otherwise the item's price in the branch's column, 0 when it does not
      parse. */
  function GetPriceForBranch(branches: seq<Branch>, branchCode: string, item: Item): (r: real)
    ensures Find(branches, BranchKey, branchCode).None? ==> r == 0.0
    ensures Find(branches, BranchKey, branchCode).Some? ==>
              r == OrZero(ColumnPrice(item, CategoryColumn(Find(branches, BranchKey, branchCode).value.priceCategory)))
  {
    match Find(branches, BranchKey, branchCode)
    case None => 0.0
    case Some(b) => OrZero(ColumnPrice(item, CategoryColumn(b.priceCategory)))
  }

  /** A branch whose category is missing or names no price column is priced
      from `PriceA`; `PriceB` and `PriceC` price from their own column. */
  lemma PriceByCategory(branches: seq<Branch>, b: Branch, item: Item)
    requires b in branches && forall other | other in branches && other.code == b.code :: other == b
    ensures b.priceCategory == "PriceB" ==> GetPriceForBranch(branches, b.code, item) == OrZero(item.priceB)
    ensures b.priceCategory == "PriceC" ==> GetPriceForBranch(branches, b.code, item) == OrZero(item.priceC)
    ensures b.priceCategory != "PriceB" && b.priceCategory != "PriceC" ==>
              GetPriceForBranch(branches, b.code, item) == OrZero(item.priceA)
  {
    var found := Find(branches, BranchKey, b.code);
    assert found.Some?;
    assert found.value == b;
  }

  // ---------------------------------------------------------------------------
  // Sales list (price_generator.js:492-502)

  /** One row of `salesState.currentList`. */
  datatype SaleLine = SaleLine(branchCode: string, itemCode: string, quantity: real, price: real, cost: Number)

  /** `parseFloat(item.cost)`: an absent cost does not parse. */
  function ParsedCost(n: Number): (r: Number)
    ensures r.Finite? || r.NaN?
    ensures n.Finite? ==> r == n
  {
    if n.Finite? then n else NaN
  }

  function ListLine(branchCode: string, item: Item, qty: real, price: real): SaleLine
  {
    SaleLine(branchCode, item.code, qty, price, ParsedCost(item.cost))
  }

  class SalesForm {
    var currentList: seq<SaleLine>

    constructor()
      ensures currentList == []
    {
      currentList := [];
    }

    /** `addItemToList`. */
    method AddItemToList(branchCode: string, item: Item, qty: real, price: real)
      modifies this
      ensures currentList == old(currentList) + [ListLine(branchCode, item, qty, price)]
    {
      currentList := currentList + [ListLine(branchCode, item, qty, price)];
    }
  }

  // ---------------------------------------------------------------------------
  // Batching by branch (price_generator.js:558-562)

  /** The lines of one branch, in list order. */
  datatype SaleBatch = SaleBatch(branchCode: string, lines: seq<SaleLine>)

  /** Position of the batch of `code`, or |bs| when there is none yet. */
  function BatchIndex(bs: seq<SaleBatch>, code: string): (i: nat)
    ensures i <= |bs|
    ensures i < |bs| ==> bs[i].branchCode == code
    ensures forall j | 0 <= j < i :: bs[j].branchCode != code
    decreases |bs|
  {
    if bs == [] then 0
    else if bs[0].branchCode == code then 0
    else 1 + BatchIndex(bs[1..], code)
  }

  /** One step of the `forEach`: the line joins its branch's batch, which is
      opened (after the existing ones) the first time that branch shows up. */
  function AddToBatch(bs: seq<SaleBatch>, l: SaleLine): seq<SaleBatch>
  {
    var i := BatchIndex(bs, l.branchCode);
    if i < |bs| then bs[i := SaleBatch(l.branchCode, bs[i].lines + [l])]
    else bs + [SaleBatch(l.branchCode, [l])]
  }

  /** The batches of a list, by branch in order of first appearance. */
  function Batched(list: seq<SaleLine>): seq<SaleBatch>
    decreases |list|
  {
    if list == [] then [] else AddToBatch(Batched(list[..|list| - 1]), list[|list| - 1])
  }

  /** The `batches` object built by `submitSales`. */
  method BatchByBranch(list: seq<SaleLine>) returns (batches: seq<SaleBatch>)
    ensures batches == Batched(list)
  {
    batches := [];
    var i := 0;
    while i < |list|
      invariant 0 <= i <= |list|
      invariant batches == Batched(list[..i])
    {
      assert list[..i + 1][..i] == list[..i];
      var j := BatchIndex(batches, list[i].branchCode);
      if j < |batches| {
        batches := batches[j := SaleBatch(list[i].branchCode, batches[j].lines + [list[i]])];
      } else {
        batches := batches + [SaleBatch(list[i].branchCode, [list[i]])];
      }
      i := i + 1;
    }
    assert list[..i] == list;
  }

  lemma AddToBatchShape(bs: seq<SaleBatch>, l: SaleLine)
    ensures var i, r := BatchIndex(bs, l.branchCode), AddToBatch(bs, l);
            && (i < |bs| ==>
                  && |r| == |bs| && r[i] == SaleBatch(l.branchCode, bs[i].lines + [l])
                  && forall k | 0 <= k < |bs| && k != i :: r[k] == bs[k])
            && (i == |bs| ==>
                  && |r| == |bs| + 1 && r[|bs|] == SaleBatch(l.branchCode, [l])
                  && (forall k | 0 <= k < |bs| :: r[k] == bs[k] && bs[k].branchCode != l.branchCode))
  {
  }

  function OnBranch(code: string): SaleLine -> bool
  {
    (l: SaleLine) => l.branchCode == code
  }

  predicate DistinctBranches(bs: seq<SaleBatch>)
  {
    forall i, j | 0 <= i < j < |bs| :: bs[i].branchCode != bs[j].branchCode
  }

  /** No branch has two batches. */
  lemma {:induction false} BatchesDistinct(list: seq<SaleLine>)
    ensures DistinctBranches(Batched(list))
    decreases |list|
  {
    if list != [] {
      var init, last := list[..|list| - 1], list[|list| - 1];
      var bs := Batched(init);
      BatchesDistinct(init);
      var i := BatchIndex(bs, last.branchCode);
      var r := Batched(list);
      assert r == AddToBatch(bs, last);
      AddToBatchShape(bs, last);
      forall a, b | 0 <= a < b < |r| ensures r[a].branchCode != r[b].branchCode {
        if b == i {
          assert r[a] == bs[a];
        } else if a == i {
          assert r[b] == bs[b];
        } else {
          assert r[a] == bs[a] && r[b] == bs[b];
        }
      }
    }
  }

  /** There is a batch for a branch exactly when some line of the list is for it. */
  lemma {:induction false} BatchesCover(list: seq<SaleLine>, code: string)
    ensures (exists k | 0 <= k < |Batched(list)| :: Batched(list)[k].branchCode == code)
            <==> exists l | l in list :: l.branchCode == code
    decreases |list|
  {
    if list != [] {
      var init, last := list[..|list| - 1], list[|list| - 1];
      var bs := Batched(init);
      BatchesCover(init, code);
      assert list == init + [last];
      var i := BatchIndex(bs, last.branchCode);
      if i < |bs| {
        if exists k | 0 <= k < |Batched(list)| :: Batched(list)[k].branchCode == code {
          var k :| 0 <= k < |Batched(list)| && Batched(list)[k].branchCode == code;
          assert bs[k].branchCode == code;
        }
        if exists k | 0 <= k < |bs| :: bs[k].branchCode == code {
          var k :| 0 <= k < |bs| && bs[k].branchCode == code;
          assert Batched(list)[k].branchCode == code;
        }
      } else {
        assert Batched(list)[|bs|].branchCode == last.branchCode;
        if exists k | 0 <= k < |Batched(list)| :: Batched(list)[k].branchCode == code {
          var k :| 0 <= k < |Batched(list)| && Batched(list)[k].branchCode == code;
          if k < |bs| {
            assert bs[k].branchCode == code;
          }
        }
        if exists k | 0 <= k < |bs| :: bs[k].branchCode == code {
          var k :| 0 <= k < |bs| && bs[k].branchCode == code;
          assert Batched(list)[k].branchCode == code;
        }
      }
    }
  }

  predicate OwnLines(bs: seq<SaleBatch>, list: seq<SaleLine>)
  {
    forall k | 0 <= k < |bs| :: bs[k].lines == Sorting.Filter(list, OnBranch(bs[k].branchCode))
  }

  /** Each batch holds exactly its branch's lines, in list order; with
      BatchesDistinct and BatchesCover, every line is in exactly one batch. */
  lemma {:induction false} BatchContents(list: seq<SaleLine>)
    ensures OwnLines(Batched(list), list)
    decreases |list|
  {
    if list != [] {
      var init, last := list[..|list| - 1], list[|list| - 1];
      var bs := Batched(init);
      BatchContents(init);
      assert list == init + [last];
      var i := BatchIndex(bs, last.branchCode);
      var r := Batched(list);
      BatchesDistinct(init);
      assert r == AddToBatch(bs, last);
      AddToBatchShape(bs, last);
      forall k | 0 <= k < |r| ensures r[k].lines == Sorting.Filter(list, OnBranch(r[k].branchCode)) {
        Sorting.FilterSnoc(init, last, OnBranch(r[k].branchCode));
        if k < |bs| {
          assert r[k].branchCode == bs[k].branchCode;
          assert bs[k].lines == Sorting.Filter(init, OnBranch(bs[k].branchCode));
          if k == i {
            assert r[k].lines == bs[k].lines + [last];
          } else {
            assert r[k] == bs[k];
            assert bs[k].branchCode != last.branchCode;
          }
        } else {
          assert r[k] == SaleBatch(last.branchCode, [last]);
          assert forall l | l in init :: l.branchCode != last.branchCode by {
            forall l | l in init ensures l.branchCode != last.branchCode {
              BatchesCover(init, last.branchCode);
            }
          }
          FilterNone(init, OnBranch(last.branchCode));
        }
      }
    }
  }

  lemma {:induction false} FilterNone(xs: seq<SaleLine>, p: SaleLine -> bool)
    requires forall l | l in xs :: !p(l)
    ensures Sorting.Filter(xs, p) == []
    decreases |xs|
  {
    if xs != [] {
      assert xs == [xs[0]] + xs[1..];
      Sorting.FilterCons(xs[0], xs[1..], p);
      FilterNone(xs[1..], p);
    }
  }

  // ---------------------------------------------------------------------------
  // Submitting the sales (price_generator.js:544-604); every `postData` is
  // taken to succeed

  const SalesPrefix: string := "SALE"
  const Completed: string := "Completed"

  /** `SALE-${Date.now()}-${branchCode}`; `stamp` is the clock's reading. */
  function SaleBatchId(stamp: string, branchCode: string): string
  {
    SalesPrefix + "-" + stamp + "-" + branchCode
  }

  /** The row pushed onto the local log for one line of a branch's batch
      (price_generator.js:589-599): an approved, Completed `issue` from the
      branch, dated at the end of the period. */
  function SaleRow(l: SaleLine, batchId: string, branchCode: string, date: int): Tx
  {
    BlankTx.(kind := Issue, itemCode := l.itemCode, quantity := Finite(l.quantity), cost := l.cost,
             price := Finite(l.price), batchId := batchId, date := date, branchCode := branchCode,
             fromBranchCode := branchCode, status := Completed, isApproved := Bool(true))
  }

  function BatchRows(b: SaleBatch, stamp: string, date: int): (r: seq<Tx>)
    ensures |r| == |b.lines|
    ensures forall k | 0 <= k < |r| :: r[k] == SaleRow(b.lines[k], SaleBatchId(stamp, b.branchCode), b.branchCode, date)
  {
    seq(|b.lines|, k requires 0 <= k < |b.lines| => SaleRow(b.lines[k], SaleBatchId(stamp, b.branchCode), b.branchCode, date))
  }

  /** The rows of every batch, batch after batch. */
  function SaleRows(bs: seq<SaleBatch>, stamp: string, date: int): seq<Tx>
    decreases |bs|
  {
    if bs == [] then [] else BatchRows(bs[0], stamp, date) + SaleRows(bs[1..], stamp, date)
  }

  /** `submitSales`: `from` and `to` are the period's date fields ("" when
      empty), `toDate` the period's end as a date, `stamp` the clock. Without
      both dates or without lines nothing happens; otherwise each branch's
      batch is logged and the list is cleared. */
  method SubmitSales(s: Store, form: SalesForm, from: string, to: string, toDate: int, stamp: string)
    returns (submitted: bool)
    modifies s, form
    ensures submitted <==> from != "" && to != "" && old(form.currentList) != []
    ensures !submitted ==> s.transactions == old(s.transactions) && form.currentList == old(form.currentList)
    ensures submitted ==>
              s.transactions == old(s.transactions) + SaleRows(Batched(old(form.currentList)), stamp, toDate)
              && form.currentList == []
    ensures s.payments == old(s.payments)
    ensures forall n :: s.List(n) == old(s.List(n))
  {
    if from == "" || to == "" || |form.currentList| == 0 {
      return false;
    }
    var batches := BatchByBranch(form.currentList);
    var log := AppendSaleRows(s.transactions, batches, stamp, toDate);
    s.transactions := log;
    form.currentList := [];
    submitted := true;
  }

  /** The `for ... of Object.entries(batches)` loop's pushes (price_generator.js:567-599). */
  method AppendSaleRows(log: seq<Tx>, batches: seq<SaleBatch>, stamp: string, toDate: int) returns (r: seq<Tx>)
    ensures r == log + SaleRows(batches, stamp, toDate)
  {
    r := log;
    var b := 0;
    while b < |batches|
      invariant 0 <= b <= |batches|
      invariant r + SaleRows(batches[b..], stamp, toDate) == log + SaleRows(batches, stamp, toDate)
    {
      assert batches[b..][0] == batches[b] && batches[b..][1..] == batches[b + 1..];
      var rows := BatchRows(batches[b], stamp, toDate);
      assert r + (rows + SaleRows(batches[b + 1..], stamp, toDate)) == (r + rows) + SaleRows(batches[b + 1..], stamp, toDate);
      r := r + rows;
      b := b + 1;
    }
    assert batches[b..] == [];
  }

  // ---------------------------------------------------------------------------
  // Report filter (price_generator.js:694-713)

  const EndOfDay: int := 86399000

  /** `t.batchId.startsWith('SALE') || (t.price !== undefined && t.price !== null)`. */
  predicate IsSale(t: Tx)
  {
    (|t.batchId| >= |SalesPrefix| && t.batchId[..|SalesPrefix|] == SalesPrefix)
    || !(t.price.Undefined? || t.price.Null?)
  }

  /** The report's selection: the chosen dates at midnight (`None` for an
      empty or unreadable date field, which compares false both ways) and
      the chosen branch and item codes (an empty set selects all). */
  datatype ReportQuery = ReportQuery(from: Option<int>, to: Option<int>, branches: set<string>, items: set<string>)

  predicate Selected(q: ReportQuery, t: Tx)
  {
    && IsSale(t)
    && (q.from.None? || t.date >= q.from.value)
    && (q.to.None? || t.date <= q.to.value + EndOfDay)
    && (q.branches == {} || t.branchCode in q.branches)
    && (q.items == {} || t.itemCode in q.items)
  }

  function Keep(q: ReportQuery): Tx -> bool
  {
    (t: Tx) => Selected(q, t)
  }

  /** `reportData` before its sort: the selected rows in log order. */
  function ReportData(txs: seq<Tx>, q: ReportQuery): (r: seq<Tx>)
    ensures forall t :: t in r <==> t in txs && Selected(q, t)
  {
    forall t ensures t in Sorting.Filter(txs, Keep(q)) <==> t in txs && Selected(q, t) {
      Sorting.FilterMembers(txs, Keep(q), t);
    }
    Sorting.Filter(txs, Keep(q))
  }

  /** A row is reported exactly when it is a sale dated within the period, of
      a selected branch and a selected item (each selection applying only
      when non-empty). */
  lemma ReportedExactly(txs: seq<Tx>, q: ReportQuery, t: Tx)
    requires t in txs && q.from.Some? && q.to.Some?
    ensures t in ReportData(txs, q) <==>
              && IsSale(t)
              && q.from.value <= t.date <= q.to.value + EndOfDay
              && (q.branches != {} ==> t.branchCode in q.branches)
              && (q.items != {} ==> t.itemCode in q.items)
  {
  }

  /** A line submitted for a period shows up in a report on that period's
      end date for its branch and item. */
  lemma SubmittedSaleReported(l: SaleLine, stamp: string, b: SaleBatch, toDate: int, q: ReportQuery)
    requires l in b.lines
    requires q.from == Some(toDate) && q.to == Some(toDate)
    requires q.branches == {} || b.branchCode in q.branches
    requires q.items == {} || l.itemCode in q.items
    ensures Selected(q, SaleRow(l, SaleBatchId(stamp, b.branchCode), b.branchCode, toDate))
  {
    var id := SaleBatchId(stamp, b.branchCode);
    assert id[..|SalesPrefix|] == SalesPrefix;
  }

  /** A logged sale is replayed as an issue from its branch: it passes the
      classifier and takes its quantity off that branch's stock. */
  lemma SaleRowDebitsBranch(l: SaleLine, batchId: string, branchCode: string, date: int)
    ensures var t := SaleRow(l, batchId, branchCode, date);
            && Included(t)
            && StockReplay.IsDecreaseKind(t.kind)
            && StockReplay.TargetBranch(t) == branchCode
            && OrZero(t.quantity) == l.quantity
  {
    IsTrueExactly(Unset);
    IsTrueExactly(Bool(true));
  }

  // ---------------------------------------------------------------------------
  // Sales-matrix import (price_generator.js:740-774)

  /** A sheet cell as `sheet_to_json` hands it over: absent, a number, or text. */
  datatype Cell = Empty | Num(v: real) | Text(s: string)

  predicate Truthy(c: Cell)
  {
    match c
    case Empty => false
    case Num(v) => v != 0.0
    case Text(s) => s != ""
  }

  /** `parseFloat` of a cell; text is read as not parsing. */
  function ParseCell(c: Cell): Number
  {
    if c.Num? then Finite(c.v) else NaN
  }

  /** One data row of the sheet: its cells by header. */
  datatype SheetRow = SheetRow(cells: map<string, Cell>)

  function CellOf(r: SheetRow, header: string): Cell
  {
    if header in r.cells then r.cells[header] else Empty
  }

  /** `parseFloat(r['SellingPrice'] || r['Price'] || 0)`. */
  function ManualPrice(r: SheetRow): Number
  {
    var selling := CellOf(r, "SellingPrice");
    var price := CellOf(r, "Price");
    ParseCell(if Truthy(selling) then selling else if Truthy(price) then price else Num(0.0))
  }

  /** `r['ItemCode']` when it is a non-empty text. */
  function RowCode(r: SheetRow): Option<string>
  {
    match CellOf(r, "ItemCode")
    case Text(s) => if s != "" then Some(s) else None
    case _ => None
  }

  function IsBranchCode(branches: seq<Branch>): string -> bool
  {
    (h: string) => exists b | b in branches :: b.code == h
  }

  /** The branch columns: the first row's headers that are branch codes. */
  function BranchColumns(branches: seq<Branch>, headers: seq<string>): seq<string>
  {
    Sorting.Filter(headers, IsBranchCode(branches))
  }

  /** The price of one imported line: the sheet's manual price when positive,
      otherwise the branch's category price. */
  function ImportPrice(branches: seq<Branch>, r: SheetRow, branchCode: string, item: Item): (p: real)
    ensures ManualPrice(r).Finite? && ManualPrice(r).value > 0.0 ==> p == ManualPrice(r).value
    ensures !(ManualPrice(r).Finite? && ManualPrice(r).value > 0.0) ==> p == GetPriceForBranch(branches, branchCode, item)
  {
    var manual := ManualPrice(r);
    if manual.Finite? && manual.value > 0.0 then manual.value else GetPriceForBranch(branches, branchCode, item)
  }

  function Quantity(r: SheetRow, branchCode: string): Number
  {
    ParseCell(CellOf(r, branchCode))
  }

  predicate PositiveQuantity(r: SheetRow, branchCode: string)
  {
    Quantity(r, branchCode).Finite? && Quantity(r, branchCode).value > 0.0
  }

  /** The lines one row adds for a known item: one per branch column with a
      positive quantity, in column order. */
  function RowLines(branches: seq<Branch>, r: SheetRow, item: Item, cols: seq<string>): (ls: seq<SaleLine>)
    ensures |ls| <= |cols|
    ensures forall l | l in ls ::
              l.itemCode == item.code && l.branchCode in cols && PositiveQuantity(r, l.branchCode)
              && l.quantity == Quantity(r, l.branchCode).value
              && l.price == ImportPrice(branches, r, l.branchCode, item)
    decreases |cols|
  {
    if cols == [] then []
    else
      var h := cols[0];
      (if PositiveQuantity(r, h) then [ListLine(h, item, Quantity(r, h).value, ImportPrice(branches, r, h, item))] else [])
      + RowLines(branches, r, item, cols[1..])
  }

  /** The lines one sheet row gives: none unless its code names a known item. */
  function RowPart(branches: seq<Branch>, items: seq<Item>, r: SheetRow, cols: seq<string>): seq<SaleLine>
  {
    match RowCode(r)
    case None => []
    case Some(code) =>
      match Find(items, ItemKey, code)
      case None => []
      case Some(item) => RowLines(branches, r, item, cols)
  }

  /** The lines of the whole sheet, row by row. */
  function SheetLines(branches: seq<Branch>, items: seq<Item>, rows: seq<SheetRow>, cols: seq<string>): seq<SaleLine>
    decreases |rows|
  {
    if rows == [] then [] else RowPart(branches, items, rows[0], cols) + SheetLines(branches, items, rows[1..], cols)
  }

  function Known(items: seq<Item>, r: SheetRow): bool
  {
    RowCode(r).Some? && Find(items, ItemKey, RowCode(r).value).Some?
  }

  /** How many sheet rows name a known item. */
  function FoundCount(items: seq<Item>, rows: seq<SheetRow>): (n: nat)
    ensures n <= |rows|
    ensures n == 0 <==> forall r | r in rows :: !Known(items, r)
    decreases |rows|
  {
    if rows == [] then 0
    else
      assert rows == [rows[0]] + rows[1..];
      (if Known(items, rows[0]) then 1 else 0) + FoundCount(items, rows[1..])
  }

  /** `reader.onload` of `handleExcel`: an empty sheet adds nothing; otherwise
      every row naming a known item adds its lines. `headers` are the keys of
      the first row. */
  method ImportSheet(form: SalesForm, branches: seq<Branch>, items: seq<Item>, headers: seq<string>, rows: seq<SheetRow>)
    returns (found: nat)
    modifies form
    ensures rows == [] ==> found == 0 && form.currentList == old(form.currentList)
    ensures rows != [] ==>
              found == FoundCount(items, rows)
              && form.currentList == old(form.currentList) + SheetLines(branches, items, rows, BranchColumns(branches, headers))
  {
    if rows == [] {
      return 0;
    }
    var cols := BranchColumns(branches, headers);
    var added;
    added, found := ImportRows(branches, items, rows, cols);
    form.currentList := form.currentList + added;
  }

  /** The `json.forEach` over the sheet's rows (price_generator.js:754-769). */
  method ImportRows(branches: seq<Branch>, items: seq<Item>, rows: seq<SheetRow>, cols: seq<string>)
    returns (added: seq<SaleLine>, found: nat)
    ensures added == SheetLines(branches, items, rows, cols)
    ensures found == FoundCount(items, rows)
  {
    added, found := [], 0;
    var i := 0;
    while i < |rows|
      invariant 0 <= i <= |rows|
      invariant added + SheetLines(branches, items, rows[i..], cols) == SheetLines(branches, items, rows, cols)
      invariant found + FoundCount(items, rows[i..]) == FoundCount(items, rows)
    {
      SheetStep(branches, items, rows, cols, i);
      var ls, hit := ImportOne(branches, items, rows[i], cols);
      var rest := SheetLines(branches, items, rows[i + 1..], cols);
      assert added + (ls + rest) == (added + ls) + rest;
      added := added + ls;
      if hit {
        found := found + 1;
      }
      i := i + 1;
    }
    assert rows[i..] == [];
    assert added + [] == added;
  }

  /** One row of the `json.forEach`: the item lookup, then its branch columns. */
  method ImportOne(branches: seq<Branch>, items: seq<Item>, r: SheetRow, cols: seq<string>)
    returns (ls: seq<SaleLine>, hit: bool)
    ensures hit == Known(items, r)
    ensures ls == RowPart(branches, items, r, cols)
  {
    ls, hit := [], false;
    var code := RowCode(r);
    if code.Some? {
      var found := Find(items, ItemKey, code.value);
      if found.Some? {
        ls := ImportRow(branches, r, found.value, cols);
        hit := true;
      }
    }
  }

  lemma SheetStep(branches: seq<Branch>, items: seq<Item>, rows: seq<SheetRow>, cols: seq<string>, i: int)
    requires 0 <= i < |rows|
    ensures FoundCount(items, rows[i..]) == (if Known(items, rows[i]) then 1 else 0) + FoundCount(items, rows[i + 1..])
    ensures SheetLines(branches, items, rows[i..], cols)
            == RowPart(branches, items, rows[i], cols) + SheetLines(branches, items, rows[i + 1..], cols)
  {
    assert rows[i..][0] == rows[i] && rows[i..][1..] == rows[i + 1..];
  }

  /** The `branchCols.forEach` of one row (price_generator.js:760-766). */
  method ImportRow(branches: seq<Branch>, r: SheetRow, item: Item, cols: seq<string>) returns (ls: seq<SaleLine>)
    ensures ls == RowLines(branches, r, item, cols)
  {
    ls := [];
    var j := 0;
    while j < |cols|
      invariant 0 <= j <= |cols|
      invariant ls + RowLines(branches, r, item, cols[j..]) == RowLines(branches, r, item, cols)
    {
      assert cols[j..][0] == cols[j] && cols[j..][1..] == cols[j + 1..];
      var rest := RowLines(branches, r, item, cols[j + 1..]);
      var qty := ParseCell(CellOf(r, cols[j]));
      if qty.Finite? && qty.value > 0.0 {
        var manual := ManualPrice(r);
        var price := if manual.Finite? && manual.value > 0.0 then manual.value else GetPriceForBranch(branches, cols[j], item);
        var l := ListLine(cols[j], item, qty.value, price);
        assert ls + ([l] + rest) == (ls + [l]) + rest;
        ls := ls + [l];
      } else {
        assert [] + rest == rest;
      }
      j := j + 1;
    }
  }

  /** Every imported line is for a known branch, has a positive quantity,
      and is priced manually or from its branch's category. */
  lemma ImportedLinesValid(branches: seq<Branch>, items: seq<Item>, rows: seq<SheetRow>, headers: seq<string>, l: SaleLine)
    requires l in SheetLines(branches, items, rows, BranchColumns(branches, headers))
    ensures l.branchCode in headers && exists b | b in branches :: b.code == l.branchCode
    ensures l.quantity > 0.0
    ensures exists r | r in rows :: Known(items, r) && l.itemCode == RowCode(r).value
              && l.price == ImportPrice(branches, r, l.branchCode, Find(items, ItemKey, RowCode(r).value).value)
    decreases |rows|
  {
    var cols := BranchColumns(branches, headers);
    Sorting.FilterMembers(headers, IsBranchCode(branches), l.branchCode);
    SheetLineOrigin(branches, items, rows, cols, l);
  }

  lemma {:induction false} SheetLineOrigin(branches: seq<Branch>, items: seq<Item>, rows: seq<SheetRow>, cols: seq<string>, l: SaleLine)
    requires l in SheetLines(branches, items, rows, cols)
    ensures l.branchCode in cols && l.quantity > 0.0
    ensures exists r | r in rows :: Known(items, r) && l.itemCode == RowCode(r).value
              && l.price == ImportPrice(branches, r, l.branchCode, Find(items, ItemKey, RowCode(r).value).value)
    decreases |rows|
  {
    var more := SheetLines(branches, items, rows[1..], cols);
    if l in more {
      SheetLineOrigin(branches, items, rows[1..], cols, l);
      var r :| r in rows[1..] && Known(items, r) && l.itemCode == RowCode(r).value
               && l.price == ImportPrice(branches, r, l.branchCode, Find(items, ItemKey, RowCode(r).value).value);
      assert r in rows;
    } else {
      var r := rows[0];
      assert Known(items, r);
      var item := Find(items, ItemKey, RowCode(r).value).value;
      assert l in RowLines(branches, r, item, cols);
      assert r in rows;
    }
  }
}
