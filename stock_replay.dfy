/**
 * The stock valuation replay of calculations.js:8-109: the log is copied,
 * sorted by date, and every included row is folded into a
 * branch -> item -> position table, with weighted-average costing on the
 * way in and quantity-only changes on the way out.
 */
module StockReplay {
  import opened Utils
  import opened Records
  import opened Classifier
  import Sorting

  datatype Position = Position(quantity: real, avgCost: real)

  type Stock = map<string, map<string, Position>>

  type Costs = map<string, map<string, real>>

  /** What the replay carries from row to row: the positions, and
      `tempAvgCosts`, the last average cost an increase set at each
      (branch, item). */
  datatype Replay = Replay(stock: Stock, costs: Costs)

  function BranchCodes(branches: seq<Branch>): set<string>
  {
    set b | b in branches :: b.code
  }

  /** Every known branch starts with an empty item table (calculations.js:12-14). */
  function Seed(branches: seq<Branch>): Replay
  {
    Replay(map c | c in BranchCodes(branches) :: map[], map[])
  }

  /** The stored position, or the default an untouched position starts from:
      no quantity, the item master's cost. */
  function Current(stock: Stock, b: string, code: string, item: Item): Position
    requires b in stock
  {
    if code in stock[b] then stock[b][code] else Position(0.0, OrZero(item.cost))
  }

  /** `processStockUpdate` (calculations.js:35-72): a positive change reweights
      the average cost and records it; any other change moves the quantity only. */
  function Update(s: Replay, item: Item, b: string, code: string, change: real, cost: real): Replay
  {
    if b == "" || b !in s.stock then s
    else
      var cur := Current(s.stock, b, code, item);
      if change > 0.0 then
        var total := cur.quantity + change;
        var avg := if total > 0.0 then (cur.quantity * cur.avgCost + change * cost) / total else cur.avgCost;
        var row := if b in s.costs then s.costs[b] else map[];
        Replay(s.stock[b := s.stock[b][code := Position(total, avg)]], s.costs[b := row[code := avg]])
      else
        Replay(s.stock[b := s.stock[b][code := cur.(quantity := cur.quantity + change)]], s.costs)
  }

  /** The cost a `transfer_in` brings (calculations.js:95): the sender's
      recorded cost, unless none is recorded or it is 0, then the master cost. */
  function TransferInCost(s: Replay, item: Item, t: Tx): real
  {
    var from := t.fromBranchCode;
    if from in s.costs && t.itemCode in s.costs[from] && s.costs[from][t.itemCode] != 0.0
    then s.costs[from][t.itemCode]
    else OrZero(item.cost)
  }

  predicate IsDecreaseKind(k: Kind)
  {
    k == Issue || k == TransferOut || k == ReturnOut || k == AdjustmentOut || k == ProductionOut
  }

  predicate IsIncreaseKind(k: Kind)
  {
    k == Receive || k == ProductionIn || k == AdjustmentIn || k == TransferIn
  }

  /** The signed change a row of a listed kind makes (calculations.js:79-101):
      minus its quantity for the decrease kinds, plus it for the others. */
  function Change(t: Tx): real
  {
    if IsDecreaseKind(t.kind) then -OrZero(t.quantity) else OrZero(t.quantity)
  }

  /** The cost a row of a listed kind brings (calculations.js:79-101): none
      for the decrease kinds, the sender's for `transfer_in`, its own for the
      other increase kinds. */
  function RowCost(s: Replay, item: Item, t: Tx): real
  {
    if IsDecreaseKind(t.kind) then 0.0
    else if t.kind == TransferIn then TransferInCost(s, item, t)
    else OrZero(t.cost)
  }

  /** One row of the replay: the classifier, the item lookup, and the
      dispatch on the row's kind (calculations.js:22-106); the `switch` is
      split into the branch, the change and the cost it picks. */
  function Step(s: Replay, items: seq<Item>, t: Tx): Replay
  {
    if !Included(t) then s
    else
      match Find(items, ItemKey, t.itemCode)
      case None => s
      case Some(item) =>
        if t.kind == Unlisted then s
        else Update(s, item, TargetBranch(t), t.itemCode, Change(t), RowCost(s, item, t))
  }

  function Run(s: Replay, items: seq<Item>, txs: seq<Tx>): Replay
    decreases |txs|
  {
    if txs == [] then s else Run(Step(s, items, txs[0]), items, txs[1..])
  }

  /** The replay over the log's sorted copy. */
  function ReplayLog(branches: seq<Branch>, items: seq<Item>, log: seq<Tx>): Replay
  {
    Run(Seed(branches), items, Sorting.SortBy(log, TxDate))
  }

  /** What `calculateStockLevels` returns. */
  function StockLevels(branches: seq<Branch>, items: seq<Item>, log: seq<Tx>): Stock
  {
    ReplayLog(branches, items, log).stock
  }

  /** `stock[b]?.[code]?.quantity || 0`, as the callers read a position. */
  function QuantityAt(stock: Stock, b: string, code: string): real
  {
    if b in stock && code in stock[b] then stock[b][code].quantity else 0.0
  }

  /** `stock[b]?.[code]?.avgCost || 0`. */
  function AvgCostAt(stock: Stock, b: string, code: string): real
  {
    if b in stock && code in stock[b] then stock[b][code].avgCost else 0.0
  }

  /** Applies one update to the two tables in place (calculations.js:35-72). */
  method ApplyUpdate(stock: Stock, costs: Costs, item: Item, b: string, code: string, change: real, cost: real)
    returns (stock': Stock, costs': Costs)
    ensures Replay(stock', costs') == Update(Replay(stock, costs), item, b, code, change, cost)
  {
    stock', costs' := stock, costs;
    if b != "" && b in stock {
      var cur := Current(stock, b, code, item);
      if change > 0.0 {
        var total := cur.quantity + change;
        var avg := cur.avgCost;
        if total > 0.0 {
          avg := (cur.quantity * cur.avgCost + change * cost) / total;
        }
        stock' := stock[b := stock[b][code := Position(total, avg)]];
        var row := if b in costs then costs[b] else map[];
        costs' := costs[b := row[code := avg]];
        ghost var u := Update(Replay(stock, costs), item, b, code, change, cost);
        assert u.stock[b][code] == Position(total, avg);
      } else {
        stock' := stock[b := stock[b][code := cur.(quantity := cur.quantity + change)]];
      }
    }
  }

  /** The `switch (t.type)` of calculations.js:77-102: which branch a row
      moves, by how much, and at what cost; `listed` is false for the kinds
      the switch has no case for. */
  method Route(s: Replay, item: Item, t: Tx) returns (listed: bool, b: string, change: real, cost: real)
    ensures listed <==> t.kind != Unlisted
    ensures listed ==> b == TargetBranch(t)
    ensures IsDecreaseKind(t.kind) ==> change == -OrZero(t.quantity) && cost == 0.0
    ensures IsIncreaseKind(t.kind) ==> change == OrZero(t.quantity)
    ensures t.kind == TransferIn ==> cost == TransferInCost(s, item, t)
    ensures IsIncreaseKind(t.kind) && t.kind != TransferIn ==> cost == OrZero(t.cost)
  {
    var qty := OrZero(t.quantity);
    listed, b, change, cost := true, "", 0.0, 0.0;
    match t.kind {
      case Receive =>
        b, change, cost := t.branchCode, qty, OrZero(t.cost);
      case ProductionIn =>
        b, change, cost := t.branchCode, qty, OrZero(t.cost);
      case AdjustmentIn =>
        b, change, cost := OrElse(t.fromBranchCode, t.branchCode), qty, OrZero(t.cost);
      case TransferIn =>
        b, change, cost := t.toBranchCode, qty, TransferInCost(s, item, t);
      case Unlisted =>
        listed := false;
      case _ =>
        b, change := OrElse(t.fromBranchCode, t.branchCode), -qty;
    }
  }

  /** The seeding loop of calculations.js:12-14: one empty table per known branch. */
  method SeedStock(branches: seq<Branch>) returns (stock: Stock)
    ensures Replay(stock, map[]) == Seed(branches)
  {
    stock := map[];
    var k := 0;
    while k < |branches|
      invariant 0 <= k <= |branches|
      invariant stock == map c | c in BranchCodes(branches[..k]) :: map[]
    {
      assert branches[..k + 1] == branches[..k] + [branches[k]];
      stock := stock[branches[k].code := map[]];
      k := k + 1;
    }
    assert branches[..k] == branches;
  }

  /** The body of the replay loop for one row (calculations.js:22-106). */
  method ReplayRow(stock: Stock, costs: Costs, items: seq<Item>, t: Tx) returns (stock': Stock, costs': Costs)
    ensures Replay(stock', costs') == Step(Replay(stock, costs), items, t)
  {
    stock', costs' := stock, costs;
    var found := Find(items, ItemKey, t.itemCode);
    if Included(t) && found.Some? {
      var listed, b, change, cost := Route(Replay(stock, costs), found.value, t);
      if listed {
        stock', costs' := ApplyUpdate(stock, costs, found.value, b, t.itemCode, change, cost);
      }
    }
  }

  /** `calculateStockLevels` (calculations.js:8-109). */
  method CalculateStockLevels(branches: seq<Branch>, items: seq<Item>, log: seq<Tx>) returns (stock: Stock)
    ensures stock == StockLevels(branches, items, log)
    ensures stock.Keys == BranchCodes(branches)
  {
    stock := SeedStock(branches);
    var sorted := Sorting.SortBy(log, TxDate);
    var costs: Costs := map[];
    var i := 0;
    while i < |sorted|
      invariant 0 <= i <= |sorted|
      invariant Run(Replay(stock, costs), items, sorted[i..]) == ReplayLog(branches, items, log)
    {
      var t := sorted[i];
      var before := Replay(stock, costs);
      stock, costs := ReplayRow(stock, costs, items, t);
      RunCons(before, items, t, sorted[i + 1..]);
      assert sorted[i..] == [t] + sorted[i + 1..];
      i := i + 1;
    }
    RunKeepsBranches(Seed(branches), items, sorted);
  }

  // ---------------------------------------------------------------------------
  // Seeding and skips

  lemma StepKeepsBranches(s: Replay, items: seq<Item>, t: Tx)
    ensures Step(s, items, t).stock.Keys == s.stock.Keys
  {
    StepFrame(s, items, t);
  }

  /** The replay never adds or drops a branch. */
  lemma {:induction false} RunKeepsBranches(s: Replay, items: seq<Item>, txs: seq<Tx>)
    ensures Run(s, items, txs).stock.Keys == s.stock.Keys
    decreases |txs|
  {
    if txs != [] {
      StepKeepsBranches(s, items, txs[0]);
      RunKeepsBranches(Step(s, items, txs[0]), items, txs[1..]);
    }
  }

  /** Every known branch appears in the output, and no other key does. */
  lemma EveryBranchSeeded(branches: seq<Branch>, items: seq<Item>, log: seq<Tx>)
    ensures StockLevels(branches, items, log).Keys == BranchCodes(branches)
  {
    RunKeepsBranches(Seed(branches), items, Sorting.SortBy(log, TxDate));
  }

  /** A row the classifier drops, or whose item code is unknown, changes nothing. */
  lemma SkippedRowChangesNothing(s: Replay, items: seq<Item>, t: Tx)
    requires !Included(t) || forall i | i in items :: i.code != t.itemCode
    ensures Step(s, items, t) == s
  {
  }

  /** An update aimed at an empty or unseeded branch changes nothing. */
  lemma UnseededBranchChangesNothing(s: Replay, item: Item, b: string, code: string, change: real, cost: real)
    requires b == "" || b !in s.stock
    ensures Update(s, item, b, code, change, cost) == s
  {
  }

  lemma {:induction false} RunCons(s: Replay, items: seq<Item>, t: Tx, rest: seq<Tx>)
    ensures Run(s, items, [t] + rest) == Run(Step(s, items, t), items, rest)
  {
    assert ([t] + rest)[0] == t && ([t] + rest)[1..] == rest;
  }

  /** Replaying two logs one after the other is replaying their concatenation. */
  lemma {:induction false} RunAppend(s: Replay, items: seq<Item>, a: seq<Tx>, b: seq<Tx>)
    ensures Run(s, items, a + b) == Run(Run(s, items, a), items, b)
    decreases |a|
  {
    if a == [] {
      assert a + b == b;
    } else {
      assert (a + b)[0] == a[0] && (a + b)[1..] == a[1..] + b;
      RunAppend(Step(s, items, a[0]), items, a[1..], b);
    }
  }

  /** Running only the included rows is the same as running all of them. */
  lemma {:induction false} RunIgnoresExcluded(s: Replay, items: seq<Item>, txs: seq<Tx>)
    ensures Run(s, items, Sorting.Filter(txs, Included)) == Run(s, items, txs)
    decreases |txs|
  {
    if txs != [] {
      var t := txs[0];
      assert txs == [t] + txs[1..];
      Sorting.FilterCons(t, txs[1..], Included);
      RunIgnoresExcluded(Step(s, items, t), items, txs[1..]);
      if Included(t) {
        RunCons(s, items, t, Sorting.Filter(txs[1..], Included));
      } else {
        assert Step(s, items, t) == s;
        assert Sorting.Filter(txs, Included) == Sorting.Filter(txs[1..], Included);
      }
    }
  }

  /** Two logs with the same included rows, in the same order, give the same
      stock; in particular interleaving unapproved receives, deleted rows and
      Rejected / Cancelled rows anywhere changes nothing. */
  lemma ExcludedRowsIgnored(branches: seq<Branch>, items: seq<Item>, log1: seq<Tx>, log2: seq<Tx>)
    requires Sorting.Filter(log1, Included) == Sorting.Filter(log2, Included)
    ensures ReplayLog(branches, items, log1) == ReplayLog(branches, items, log2)
  {
    var seed := Seed(branches);
    Sorting.FilterSortBy(log1, TxDate, Included);
    Sorting.FilterSortBy(log2, TxDate, Included);
    RunIgnoresExcluded(seed, items, Sorting.SortBy(log1, TxDate));
    RunIgnoresExcluded(seed, items, Sorting.SortBy(log2, TxDate));
  }

  // ---------------------------------------------------------------------------
  // The increase and decrease rules

  /** An increase: the quantity grows by the change; when the new quantity is
      positive the value on hand grows by exactly change * cost (the weighted
      average), otherwise the old average stays; the new average is recorded
      for transfers; nothing else changes. */
  lemma IncreaseRule(s: Replay, item: Item, b: string, code: string, q: real, c: real)
    requires b != "" && b in s.stock && q > 0.0
    ensures var r := Update(s, item, b, code, q, c);
            var cur := Current(s.stock, b, code, item);
            && r.stock.Keys == s.stock.Keys
            && code in r.stock[b]
            && r.stock[b][code].quantity == cur.quantity + q
            && (cur.quantity + q > 0.0 ==>
                  r.stock[b][code].quantity * r.stock[b][code].avgCost == cur.quantity * cur.avgCost + q * c)
            && (cur.quantity + q <= 0.0 ==> r.stock[b][code].avgCost == cur.avgCost)
            && b in r.costs && code in r.costs[b] && r.costs[b][code] == r.stock[b][code].avgCost
            && (forall k | k in s.stock && k != b :: r.stock[k] == s.stock[k])
            && (forall i | i in s.stock[b] && i != code :: i in r.stock[b] && r.stock[b][i] == s.stock[b][i])
  {
    var cur := Current(s.stock, b, code, item);
    var total := cur.quantity + q;
    if total > 0.0 {
      var avg := (cur.quantity * cur.avgCost + q * c) / total;
      assert total * avg == cur.quantity * cur.avgCost + q * c;
    }
  }

  /** A decrease (or a zero change): the quantity moves by exactly the signed
      amount with no floor, the average cost and the recorded costs stay. */
  lemma DecreaseRule(s: Replay, item: Item, b: string, code: string, q: real, c: real)
    requires b != "" && b in s.stock && q <= 0.0
    ensures var r := Update(s, item, b, code, q, c);
            var cur := Current(s.stock, b, code, item);
            && r.stock.Keys == s.stock.Keys
            && code in r.stock[b]
            && r.stock[b][code] == Position(cur.quantity + q, cur.avgCost)
            && r.costs == s.costs
            && (forall k | k in s.stock && k != b :: r.stock[k] == s.stock[k])
            && (forall i | i in s.stock[b] && i != code :: i in r.stock[b] && r.stock[b][i] == s.stock[b][i])
  {
  }

  /** There is no floor: issuing more than is on hand leaves the position
      negative by the shortfall, and issuing from an empty position leaves
      minus the amount issued. */
  lemma NoFloor(s: Replay, item: Item, b: string, code: string, q: real, c: real)
    requires b != "" && b in s.stock && q > 0.0
    ensures var cur := Current(s.stock, b, code, item);
            var r := Update(s, item, b, code, -q, c);
            && code in r.stock[b]
            && r.stock[b][code].quantity == cur.quantity - q
            && (cur.quantity < q ==> r.stock[b][code].quantity < 0.0)
            && (code !in s.stock[b] ==> r.stock[b][code].quantity == -q < 0.0)
  {
  }

  /** The branch a row of a listed kind moves stock at. */
  function TargetBranch(t: Tx): string
  {
    if t.kind == Receive || t.kind == ProductionIn then t.branchCode
    else if t.kind == TransferIn then t.toBranchCode
    else OrElse(t.fromBranchCode, t.branchCode)
  }

  /** The dispatch of calculations.js:77-102: an included row of a known item
      and a listed kind is one update at its target branch, by +quantity for
      the increase kinds and -quantity for the decrease kinds; the decrease
      kinds bring no cost, `transfer_in` brings the sender's cost, the other
      increase kinds their own; unlisted kinds change nothing. */
  lemma Dispatch(s: Replay, items: seq<Item>, t: Tx, item: Item)
    requires Included(t) && Find(items, ItemKey, t.itemCode) == Some(item)
    ensures t.kind == Unlisted ==> Step(s, items, t) == s
    ensures IsDecreaseKind(t.kind) ==>
              Step(s, items, t) == Update(s, item, TargetBranch(t), t.itemCode, -OrZero(t.quantity), 0.0)
    ensures t.kind == TransferIn ==>
              Step(s, items, t) == Update(s, item, TargetBranch(t), t.itemCode, OrZero(t.quantity), TransferInCost(s, item, t))
    ensures IsIncreaseKind(t.kind) && t.kind != TransferIn ==>
              Step(s, items, t) == Update(s, item, TargetBranch(t), t.itemCode, OrZero(t.quantity), OrZero(t.cost))
  {
  }

  /** A row moves at most one position: the one of its item at its target branch. */
  lemma StepFrame(s: Replay, items: seq<Item>, t: Tx)
    ensures var r := Step(s, items, t);
            && r.stock.Keys == s.stock.Keys
            && (forall b | b in s.stock && b != TargetBranch(t) :: r.stock[b] == s.stock[b])
            && (forall b, i | b in s.stock && i in s.stock[b] && i != t.itemCode :: i in r.stock[b] && r.stock[b][i] == s.stock[b][i])
  {
    var found := Find(items, ItemKey, t.itemCode);
    if Included(t) && found.Some? && t.kind != Unlisted {
      var item := found.value;
      UpdateFrame(s, item, TargetBranch(t), t.itemCode, Change(t), RowCost(s, item, t));
    }
  }

  lemma UpdateFrame(s: Replay, item: Item, b: string, code: string, change: real, cost: real)
    ensures var r := Update(s, item, b, code, change, cost);
            && r.stock.Keys == s.stock.Keys
            && (forall k | k in s.stock && k != b :: r.stock[k] == s.stock[k])
            && (forall k, i | k in s.stock && i in s.stock[k] && i != code :: i in r.stock[k] && r.stock[k][i] == s.stock[k][i])
  {
  }

  /** While a transfer is in transit only its `transfer_out` rows are in the log:
      they debit the sending branch and leave the destination alone; only a
      `transfer_in` credits the destination. */
  lemma TransferOutLeavesDestination(s: Replay, items: seq<Item>, t: Tx)
    requires t.kind == TransferOut && t.toBranchCode != OrElse(t.fromBranchCode, t.branchCode)
    requires t.toBranchCode in s.stock
    ensures Step(s, items, t).stock[t.toBranchCode] == s.stock[t.toBranchCode]
  {
    StepFrame(s, items, t);
  }

  // ---------------------------------------------------------------------------
  // Order of rows on different positions

  /** The (branch, item) position a row of a listed kind moves. */
  function Key(t: Tx): (string, string)
  {
    (TargetBranch(t), t.itemCode)
  }

  /** A `transfer_in` also reads the sender's recorded cost for its item. */
  predicate ReadsKey(t: Tx, k: (string, string))
  {
    t.kind == TransferIn && (t.fromBranchCode, t.itemCode) == k
  }

  /** Two rows on different positions, neither reading the other's. */
  predicate Independent(t1: Tx, t2: Tx)
  {
    Key(t1) != Key(t2) && !ReadsKey(t1, Key(t2)) && !ReadsKey(t2, Key(t1))
  }

  /** The position an update leaves at its target. */
  function Moved(cur: Position, change: real, cost: real): Position
  {
    if change > 0.0 then
      var total := cur.quantity + change;
      Position(total, if total > 0.0 then (cur.quantity * cur.avgCost + change * cost) / total else cur.avgCost)
    else cur.(quantity := cur.quantity + change)
  }

  function SetPosition(m: Stock, b: string, code: string, p: Position): Stock
    requires b in m
  {
    m[b := m[b][code := p]]
  }

  function SetCost(cs: Costs, b: string, code: string, c: real): Costs
  {
    cs[b := (if b in cs then cs[b] else map[])[code := c]]
  }

  /** An update at a seeded branch sets one position and, for an increase,
      records that position's new average. */
  lemma UpdateShape(s: Replay, item: Item, b: string, code: string, change: real, cost: real)
    requires b != "" && b in s.stock
    ensures var p := Moved(Current(s.stock, b, code, item), change, cost);
            Update(s, item, b, code, change, cost)
            == Replay(SetPosition(s.stock, b, code, p), if change > 0.0 then SetCost(s.costs, b, code, p.avgCost) else s.costs)
  {
    var cur := Current(s.stock, b, code, item);
    var r := Update(s, item, b, code, change, cost);
    assert r.stock[b][code] == Moved(cur, change, cost);
    assert r.stock == SetPosition(s.stock, b, code, Moved(cur, change, cost));
  }

  lemma SetPositionsCommute(m: Stock, b1: string, c1: string, p1: Position, b2: string, c2: string, p2: Position)
    requires b1 in m && b2 in m && (b1, c1) != (b2, c2)
    ensures SetPosition(SetPosition(m, b1, c1, p1), b2, c2, p2) == SetPosition(SetPosition(m, b2, c2, p2), b1, c1, p1)
  {
    if b1 == b2 {
      assert m[b1][c1 := p1][c2 := p2] == m[b1][c2 := p2][c1 := p1];
    }
  }

  lemma SetCostsCommute(cs: Costs, b1: string, c1: string, v1: real, b2: string, c2: string, v2: real)
    requires (b1, c1) != (b2, c2)
    ensures SetCost(SetCost(cs, b1, c1, v1), b2, c2, v2) == SetCost(SetCost(cs, b2, c2, v2), b1, c1, v1)
  {
    var row1 := if b1 in cs then cs[b1] else map[];
    if b1 == b2 {
      assert row1[c1 := v1][c2 := v2] == row1[c2 := v2][c1 := v1];
    }
  }

  /** Updates of two different positions can be made in either order. */
  lemma UpdatesCommute(s: Replay, i1: Item, b1: string, c1: string, q1: real, k1: real,
                       i2: Item, b2: string, c2: string, q2: real, k2: real)
    requires (b1, c1) != (b2, c2)
    ensures Update(Update(s, i1, b1, c1, q1, k1), i2, b2, c2, q2, k2)
            == Update(Update(s, i2, b2, c2, q2, k2), i1, b1, c1, q1, k1)
  {
    if b1 != "" && b1 in s.stock && b2 != "" && b2 in s.stock {
      var p1, p2 := Moved(Current(s.stock, b1, c1, i1), q1, k1), Moved(Current(s.stock, b2, c2, i2), q2, k2);
      var u1, u2 := Update(s, i1, b1, c1, q1, k1), Update(s, i2, b2, c2, q2, k2);
      UpdateShape(s, i1, b1, c1, q1, k1);
      UpdateShape(s, i2, b2, c2, q2, k2);
      assert Current(u1.stock, b2, c2, i2) == Current(s.stock, b2, c2, i2);
      assert Current(u2.stock, b1, c1, i1) == Current(s.stock, b1, c1, i1);
      UpdateShape(u1, i2, b2, c2, q2, k2);
      UpdateShape(u2, i1, b1, c1, q1, k1);
      SetPositionsCommute(s.stock, b1, c1, p1, b2, c2, p2);
      SetCostsCommute(s.costs, b1, c1, p1.avgCost, b2, c2, p2.avgCost);
    } else {
      UpdateFrame(s, i1, b1, c1, q1, k1);
      UpdateFrame(s, i2, b2, c2, q2, k2);
    }
  }

  /** An update leaves every other position's recorded cost alone, so a
      `transfer_in` reading another position brings the same cost. */
  lemma UpdateKeepsOtherCost(s: Replay, item: Item, b: string, code: string, change: real, cost: real,
                             other: Item, t: Tx)
    requires (b, code) != (t.fromBranchCode, t.itemCode)
    ensures TransferInCost(Update(s, item, b, code, change, cost), other, t) == TransferInCost(s, other, t)
  {
  }

  /** Two independent rows can be replayed in either order. */
  lemma StepsCommute(s: Replay, items: seq<Item>, t1: Tx, t2: Tx)
    requires Independent(t1, t2)
    ensures Step(Step(s, items, t1), items, t2) == Step(Step(s, items, t2), items, t1)
  {
    var f1, f2 := Find(items, ItemKey, t1.itemCode), Find(items, ItemKey, t2.itemCode);
    if Included(t1) && f1.Some? && t1.kind != Unlisted && Included(t2) && f2.Some? && t2.kind != Unlisted {
      var i1, i2 := f1.value, f2.value;
      var s1, s2 := Step(s, items, t1), Step(s, items, t2);
      if t2.kind == TransferIn {
        UpdateKeepsOtherCost(s, i1, TargetBranch(t1), t1.itemCode, Change(t1), RowCost(s, i1, t1), i2, t2);
      }
      if t1.kind == TransferIn {
        UpdateKeepsOtherCost(s, i2, TargetBranch(t2), t2.itemCode, Change(t2), RowCost(s, i2, t2), i1, t1);
      }
      assert RowCost(s1, i2, t2) == RowCost(s, i2, t2);
      assert RowCost(s2, i1, t1) == RowCost(s, i1, t1);
      UpdatesCommute(s, i1, TargetBranch(t1), t1.itemCode, Change(t1), RowCost(s, i1, t1),
                     i2, TargetBranch(t2), t2.itemCode, Change(t2), RowCost(s, i2, t2));
    }
  }

  /** Swapping two adjacent independent rows anywhere in a log leaves the
      replay unchanged. */
  lemma SwapIndependent(s: Replay, items: seq<Item>, xs: seq<Tx>, t1: Tx, t2: Tx, ys: seq<Tx>)
    requires Independent(t1, t2)
    ensures Run(s, items, xs + [t1, t2] + ys) == Run(s, items, xs + [t2, t1] + ys)
  {
    var m := Run(s, items, xs);
    assert xs + [t1, t2] + ys == xs + ([t1] + ([t2] + ys));
    assert xs + [t2, t1] + ys == xs + ([t2] + ([t1] + ys));
    RunAppend(s, items, xs, [t1] + ([t2] + ys));
    RunAppend(s, items, xs, [t2] + ([t1] + ys));
    RunCons(m, items, t1, [t2] + ys);
    RunCons(Step(m, items, t1), items, t2, ys);
    RunCons(m, items, t2, [t1] + ys);
    RunCons(Step(m, items, t2), items, t1, ys);
    StepsCommute(m, items, t1, t2);
  }

  const SenderReceive: Tx := BlankTx.(kind := Receive, itemCode := "X", quantity := Finite(1.0), cost := Finite(20.0),
                                      branchCode := "A", date := 1, isApproved := Bool(true))
  const ArrivalFromSender: Tx := BlankTx.(kind := TransferIn, itemCode := "X", quantity := Finite(1.0),
                                          fromBranchCode := "A", toBranchCode := "B", date := 1)

  /** The two rows of the example, each one update of its position. */
  lemma SenderRows(s: Replay)
    ensures Step(s, [ItemX], SenderReceive) == Update(s, ItemX, "A", "X", 1.0, 20.0)
    ensures Step(s, [ItemX], ArrivalFromSender)
            == Update(s, ItemX, "B", "X", 1.0, TransferInCost(s, ItemX, ArrivalFromSender))
  {
    assert Find([ItemX], ItemKey, "X") == Some(ItemX);
    IsTrueExactly(Bool(true));
    IsTrueExactly(Unset);
    assert Included(SenderReceive) && Included(ArrivalFromSender);
  }

  /** One unit into an empty position takes the cost it brings. */
  lemma FirstUnit(s: Replay, b: string, c: real)
    requires b in s.stock && b != "" && "X" !in s.stock[b]
    ensures var r := Update(s, ItemX, b, "X", 1.0, c);
            "X" in r.stock[b] && r.stock[b]["X"].avgCost == c && r.stock.Keys == s.stock.Keys
            && r.costs == SetCost(s.costs, b, "X", c)
            && (forall k | k in s.stock && k != b :: r.stock[k] == s.stock[k])
  {
    UpdateShape(s, ItemX, b, "X", 1.0, c);
    assert Moved(Position(0.0, 10.0), 1.0, c) == Position(1.0, (0.0 * 10.0 + 1.0 * c) / 1.0);
    assert (0.0 * 10.0 + 1.0 * c) / 1.0 == c;
  }

  /** Rows on different positions do not always commute: a receive at A and
      a `transfer_in` of the same item from A to B move different positions,
      yet B's average is the receive's cost 20 when the receive comes first
      and the master cost 10 when it comes second. */
  lemma TransferOrderMatters(s: Replay, items: seq<Item>, t1: Tx, t2: Tx)
    requires s == Replay(map["A" := map[], "B" := map[]], map[]) && items == [ItemX]
    requires t1 == SenderReceive && t2 == ArrivalFromSender
    ensures Key(t1) != Key(t2) && !Independent(t1, t2)
    ensures "B" in Step(Step(s, items, t1), items, t2).stock
    ensures "X" in Step(Step(s, items, t1), items, t2).stock["B"]
    ensures Step(Step(s, items, t1), items, t2).stock["B"]["X"].avgCost == 20.0
    ensures "B" in Step(Step(s, items, t2), items, t1).stock
    ensures "X" in Step(Step(s, items, t2), items, t1).stock["B"]
    ensures Step(Step(s, items, t2), items, t1).stock["B"]["X"].avgCost == 10.0
  {
    SenderRows(s);
    FirstUnit(s, "A", 20.0);
    var a := Update(s, ItemX, "A", "X", 1.0, 20.0);
    assert TransferInCost(a, ItemX, t2) == 20.0;
    SenderRows(a);
    FirstUnit(a, "B", 20.0);
    assert TransferInCost(s, ItemX, t2) == 10.0;
    FirstUnit(s, "B", 10.0);
    var b := Update(s, ItemX, "B", "X", 1.0, 10.0);
    SenderRows(b);
    UpdateFrame(b, ItemX, "A", "X", 1.0, 20.0);
  }

  // ---------------------------------------------------------------------------
  // Cross-branch cost

  /** `tempAvgCosts` agrees with the positions: every recorded cost is the
      current average cost of a stored position. */
  ghost predicate CostsAgree(s: Replay)
  {
    forall b, i | b in s.costs && i in s.costs[b] ::
      b in s.stock && i in s.stock[b] && s.costs[b][i] == s.stock[b][i].avgCost
  }

  lemma UpdateKeepsCostsAgree(s: Replay, item: Item, b: string, code: string, change: real, cost: real)
    requires CostsAgree(s)
    ensures CostsAgree(Update(s, item, b, code, change, cost))
  {
    var r := Update(s, item, b, code, change, cost);
    if b != "" && b in s.stock {
      forall b', i | b' in r.costs && i in r.costs[b']
        ensures b' in r.stock && i in r.stock[b'] && r.costs[b'][i] == r.stock[b'][i].avgCost
      {
        if b' != b || i != code {
          assert b' in s.costs && i in s.costs[b'];
        }
      }
    }
  }

  lemma StepKeepsCostsAgree(s: Replay, items: seq<Item>, t: Tx)
    requires CostsAgree(s)
    ensures CostsAgree(Step(s, items, t))
  {
    var found := Find(items, ItemKey, t.itemCode);
    if Included(t) && found.Some? && t.kind != Unlisted {
      var item := found.value;
      UpdateKeepsCostsAgree(s, item, TargetBranch(t), t.itemCode, Change(t), RowCost(s, item, t));
    }
  }

  lemma {:induction false} RunKeepsCostsAgree(s: Replay, items: seq<Item>, txs: seq<Tx>)
    requires CostsAgree(s)
    ensures CostsAgree(Run(s, items, txs))
    decreases |txs|
  {
    if txs != [] {
      StepKeepsCostsAgree(s, items, txs[0]);
      RunKeepsCostsAgree(Step(s, items, txs[0]), items, txs[1..]);
    }
  }

  /** Throughout the replay of a log, `tempAvgCosts[b][i]`, when set, equals
      `stock[b][i].avgCost`. */
  lemma ReplayCostsAgree(branches: seq<Branch>, items: seq<Item>, log: seq<Tx>)
    ensures CostsAgree(ReplayLog(branches, items, log))
  {
    RunKeepsCostsAgree(Seed(branches), items, Sorting.SortBy(log, TxDate));
  }

  /** Hence a `transfer_in` brings the sender's current average cost whenever
      an increase recorded a non-zero one there, and the master cost otherwise. */
  lemma TransferInCostIsSenderAverage(s: Replay, item: Item, t: Tx)
    requires CostsAgree(s)
    ensures var from := t.fromBranchCode;
            if from in s.costs && t.itemCode in s.costs[from] && s.costs[from][t.itemCode] != 0.0
            then from in s.stock && t.itemCode in s.stock[from]
                 && TransferInCost(s, item, t) == s.stock[from][t.itemCode].avgCost
            else TransferInCost(s, item, t) == OrZero(item.cost)
  {
  }

  /** A transfer out of A followed by its transfer in at an empty position of
      B sets B's average cost to A's, not to the master cost. */
  lemma TransferCarriesCost(s: Replay, items: seq<Item>, out: Tx, inn: Tx, item: Item)
    requires CostsAgree(s)
    requires Find(items, ItemKey, out.itemCode) == Some(item)
    requires out.kind == TransferOut && Included(out)
    requires inn == out.(kind := TransferIn)
    requires OrZero(out.quantity) > 0.0
    requires out.fromBranchCode != "" && out.toBranchCode != "" && out.fromBranchCode != out.toBranchCode
    requires out.toBranchCode in s.stock && out.itemCode !in s.stock[out.toBranchCode]
    requires out.fromBranchCode in s.costs && out.itemCode in s.costs[out.fromBranchCode]
    requires s.costs[out.fromBranchCode][out.itemCode] != 0.0
    ensures var r := Step(Step(s, items, out), items, inn);
            r.stock[out.toBranchCode][out.itemCode].avgCost == s.stock[out.fromBranchCode][out.itemCode].avgCost
  {
    var from, to, code := out.fromBranchCode, out.toBranchCode, out.itemCode;
    var mid := Step(s, items, out);
    DepartureKeepsCosts(s, items, out, item);
    assert TransferInCost(mid, item, inn) == s.costs[from][code];
    ArrivalAtEmpty(mid, items, inn, item);
  }

  /** The `transfer_out` leg changes no recorded cost and leaves the destination alone. */
  lemma DepartureKeepsCosts(s: Replay, items: seq<Item>, out: Tx, item: Item)
    requires Find(items, ItemKey, out.itemCode) == Some(item)
    requires out.kind == TransferOut && Included(out) && OrZero(out.quantity) >= 0.0
    requires out.fromBranchCode != "" && out.fromBranchCode != out.toBranchCode
    requires out.toBranchCode in s.stock
    ensures Step(s, items, out).costs == s.costs
    ensures out.toBranchCode in Step(s, items, out).stock
    ensures Step(s, items, out).stock[out.toBranchCode] == s.stock[out.toBranchCode]
  {
    var from := out.fromBranchCode;
    assert TargetBranch(out) == from;
    assert Step(s, items, out) == Update(s, item, from, out.itemCode, Change(out), 0.0);
    if from in s.stock {
      DecreaseRule(s, item, from, out.itemCode, Change(out), 0.0);
    } else {
      UnseededBranchChangesNothing(s, item, from, out.itemCode, Change(out), 0.0);
    }
  }

  /** A `transfer_in` into an empty position takes on the cost it brings. */
  lemma ArrivalAtEmpty(m: Replay, items: seq<Item>, inn: Tx, item: Item)
    requires Find(items, ItemKey, inn.itemCode) == Some(item)
    requires inn.kind == TransferIn && Included(inn) && OrZero(inn.quantity) > 0.0
    requires inn.toBranchCode != "" && inn.toBranchCode in m.stock && inn.itemCode !in m.stock[inn.toBranchCode]
    ensures inn.toBranchCode in Step(m, items, inn).stock && inn.itemCode in Step(m, items, inn).stock[inn.toBranchCode]
    ensures Step(m, items, inn).stock[inn.toBranchCode][inn.itemCode].avgCost == TransferInCost(m, item, inn)
  {
    var to, code, q, c := inn.toBranchCode, inn.itemCode, OrZero(inn.quantity), TransferInCost(m, item, inn);
    var r := Update(m, item, to, code, q, c);
    assert Step(m, items, inn) == r;
    MeanFromEmpty(OrZero(item.cost), q, c);
    assert r.stock[to][code] == Position(q, (0.0 * OrZero(item.cost) + q * c) / q);
  }

  lemma MeanFromEmpty(x: real, q: real, c: real)
    requires q > 0.0
    ensures (0.0 * x + q * c) / q == c
  {
  }

  // ---------------------------------------------------------------------------
  // Worked examples

  /** Two increases into an empty position give the quantity-weighted mean of
      their costs. */
  lemma TwoIncreases(s: Replay, item: Item, b: string, code: string, q1: real, c1: real, q2: real, c2: real)
    requires b != "" && b in s.stock && code !in s.stock[b]
    requires q1 > 0.0 && q2 > 0.0
    ensures var r := Update(Update(s, item, b, code, q1, c1), item, b, code, q2, c2);
            r.stock[b][code] == Position(q1 + q2, (q1 * c1 + q2 * c2) / (q1 + q2))
  {
    var m := Update(s, item, b, code, q1, c1);
    assert m.stock[b][code] == Position(q1, (0.0 * OrZero(item.cost) + q1 * c1) / q1);
    assert (0.0 * OrZero(item.cost) + q1 * c1) / q1 == c1;
  }

  const ItemX: Item := Item("X", "Item X", Finite(10.0), Undefined, Undefined, Undefined)
  const FirstReceive: Tx := BlankTx.(kind := Receive, itemCode := "X", quantity := Finite(100.0), cost := Finite(10.0),
                                     branchCode := "B1", date := 1, isApproved := Bool(true))
  const TheIssue: Tx := BlankTx.(kind := Issue, itemCode := "X", quantity := Finite(40.0), branchCode := "B1", date := 2)
  const SecondReceive: Tx := FirstReceive.(quantity := Finite(50.0), cost := Finite(16.0), date := 3)

  lemma ScenarioASorted()
    ensures Sorting.SortBy([SecondReceive, FirstReceive, TheIssue], TxDate) == [FirstReceive, TheIssue, SecondReceive]
  {
    assert TxDate(FirstReceive) == 1 && TxDate(TheIssue) == 2 && TxDate(SecondReceive) == 3;
    Sorting.SortByCons(TheIssue, [], TxDate);
    assert Sorting.SortBy([TheIssue], TxDate) == [TheIssue];
    Sorting.SortByCons(FirstReceive, [TheIssue], TxDate);
    assert Sorting.SortBy([FirstReceive, TheIssue], TxDate) == [FirstReceive, TheIssue];
    Sorting.SortByCons(SecondReceive, [FirstReceive, TheIssue], TxDate);
    Sorting.InsertLater(SecondReceive, TheIssue, [], TxDate);
    Sorting.InsertLater(SecondReceive, FirstReceive, [TheIssue], TxDate);
  }

  /** Each row of the scenario is one update of ("B1", "X"). */
  lemma ScenarioARows(s: Replay)
    ensures Step(s, [ItemX], FirstReceive) == Update(s, ItemX, "B1", "X", 100.0, 10.0)
    ensures Step(s, [ItemX], TheIssue) == Update(s, ItemX, "B1", "X", -40.0, 0.0)
    ensures Step(s, [ItemX], SecondReceive) == Update(s, ItemX, "B1", "X", 50.0, 16.0)
  {
    assert Find([ItemX], ItemKey, "X") == Some(ItemX);
    IsTrueExactly(Bool(true));
    assert Included(FirstReceive) && Included(TheIssue) && Included(SecondReceive);
  }

  function ScenarioAState(q: real, c: real, recorded: real): Replay
  {
    Replay(map["B1" := map["X" := Position(q, c)]], map["B1" := map["X" := recorded]])
  }

  lemma ScenarioAUpdates()
    ensures Update(Replay(map["B1" := map[]], map[]), ItemX, "B1", "X", 100.0, 10.0) == ScenarioAState(100.0, 10.0, 10.0)
    ensures Update(ScenarioAState(100.0, 10.0, 10.0), ItemX, "B1", "X", -40.0, 0.0) == ScenarioAState(60.0, 10.0, 10.0)
    ensures Update(ScenarioAState(60.0, 10.0, 10.0), ItemX, "B1", "X", 50.0, 16.0)
            == ScenarioAState(110.0, 1400.0 / 110.0, 1400.0 / 110.0)
  {
    var s1 := ScenarioAState(100.0, 10.0, 10.0);
    var u2 := Update(s1, ItemX, "B1", "X", -40.0, 0.0);
    assert u2.stock["B1"] == map["X" := Position(60.0, 10.0)];
    assert u2.stock == ScenarioAState(60.0, 10.0, 10.0).stock;
    var s2 := ScenarioAState(60.0, 10.0, 10.0);
    var u3 := Update(s2, ItemX, "B1", "X", 50.0, 16.0);
    assert (60.0 * 10.0 + 50.0 * 16.0) / (60.0 + 50.0) == 1400.0 / 110.0;
    assert u3.stock["B1"] == map["X" := Position(110.0, 1400.0 / 110.0)];
    assert u3.stock == ScenarioAState(110.0, 1400.0 / 110.0, 1400.0 / 110.0).stock;
    assert u3.costs["B1"] == map["X" := 1400.0 / 110.0];
    assert u3.costs == ScenarioAState(110.0, 1400.0 / 110.0, 1400.0 / 110.0).costs;
  }

  /** Receive 100 at 10, issue 40, receive 50 at 16, logged out of order:
      110 on hand at 1400/110. */
  lemma SeedOneBranch(b: Branch)
    ensures Seed([b]) == Replay(map[b.code := map[]], map[])
  {
    assert BranchCodes([b]) == {b.code};
  }

  lemma ScenarioA(branches: seq<Branch>, items: seq<Item>, log: seq<Tx>)
    requires branches == [Branch("B1", "")] && items == [ItemX]
    requires log == [SecondReceive, FirstReceive, TheIssue]
    ensures var stock := StockLevels(branches, items, log);
            "B1" in stock && "X" in stock["B1"] && stock["B1"]["X"] == Position(110.0, 1400.0 / 110.0)
  {
    ScenarioASorted();
    var seed := Seed(branches);
    SeedOneBranch(Branch("B1", ""));
    var s1, s2 := ScenarioAState(100.0, 10.0, 10.0), ScenarioAState(60.0, 10.0, 10.0);
    ScenarioAUpdates();
    ScenarioARows(seed);
    ScenarioARows(s1);
    ScenarioARows(s2);
    RunCons(seed, items, FirstReceive, [TheIssue, SecondReceive]);
    RunCons(s1, items, TheIssue, [SecondReceive]);
    RunCons(s2, items, SecondReceive, []);
  }
}
