/**
 * The supplier screens of financials_extension.js: the statement with its
 * opening, running and closing balances, the payment lines a submission
 * builds and appends to the payment log, and the invoice picker's list of
 * invoices not yet paid.
 */
module Financials {
  import opened Utils
  import opened Records
  import opened AppState
  import opened SupplierLedger
  import Sorting

  // ---------------------------------------------------------------------------
  // Statement (financials_extension.js:279-309)

  /** `setHours(23, 59, 59)` on a date at midnight, in milliseconds. */
  const EndOfDay: int := 86399000

  /** The statement window; a missing bound leaves that side open. */
  predicate InWindow(e: Event, start: Option<int>, end: Option<int>)
  {
    (start.None? || e.date >= start.value) && (end.None? || e.date <= end.value + EndOfDay)
  }

  /** The events dated before the start, which make up the opening balance. */
  function Earlier(es: seq<Event>, start: int): (r: seq<Event>)
    ensures forall e | e in r :: e in es && e.date < start
    decreases |es|
  {
    if es == [] then []
    else (if es[0].date < start then [es[0]] else []) + Earlier(es[1..], start)
  }

  /** The events the statement lists, in the feed's order. */
  function Window(es: seq<Event>, start: Option<int>, end: Option<int>): (r: seq<Event>)
    ensures forall e | e in r :: e in es && InWindow(e, start, end)
    decreases |es|
  {
    if es == [] then []
    else (if InWindow(es[0], start, end) then [es[0]] else []) + Window(es[1..], start, end)
  }

  /** Every event before the start counts toward the opening balance. */
  lemma {:induction false} EarlierHasAll(es: seq<Event>, start: int)
    ensures forall e | e in es && e.date < start :: e in Earlier(es, start)
    decreases |es|
  {
    if es != [] {
      EarlierHasAll(es[1..], start);
      forall e | e in es && e.date < start
        ensures e in Earlier(es, start)
      {
        if e != es[0] {
          assert e in es[1..];
        }
      }
    }
  }

  /** Every event in the window is listed. */
  lemma {:induction false} WindowHasAll(es: seq<Event>, start: Option<int>, end: Option<int>)
    ensures forall e | e in es && InWindow(e, start, end) :: e in Window(es, start, end)
    decreases |es|
  {
    if es != [] {
      WindowHasAll(es[1..], start, end);
      forall e | e in es && InWindow(e, start, end)
        ensures e in Window(es, start, end)
      {
        if e != es[0] {
          assert e in es[1..];
        }
      }
    }
  }

  /** A listed event with the running balance after it. */
  datatype StatementRow = StatementRow(event: Event, running: real)

  /** The opening row (only when a start date is given), the listed events,
      and the closing balance. */
  datatype Statement = Statement(opening: Option<real>, rows: seq<StatementRow>, closing: real)

  /** The listed events from `base` on, in the feed's order. */
  function Rows(es: seq<Event>, start: Option<int>, end: Option<int>, base: real): seq<StatementRow>
    decreases |es|
  {
    if es == [] then []
    else if InWindow(es[0], start, end) then
      var running := base + (es[0].debit - es[0].credit);
      [StatementRow(es[0], running)] + Rows(es[1..], start, end, running)
    else Rows(es[1..], start, end, base)
  }

  /** The statement of one supplier's sorted event feed. */
  function StatementOf(es: seq<Event>, start: Option<int>, end: Option<int>): Statement
  {
    var opening := if start.Some? then Some(Net(Earlier(es, start.value))) else None;
    var base := if start.Some? then opening.value else 0.0;
    Statement(opening, Rows(es, start, end, base), base + Net(Window(es, start, end)))
  }

  /** The opening `forEach` of financials_extension.js:294-296. */
  method OpeningBalanceOf(es: seq<Event>, start: int) returns (openBal: real)
    ensures openBal == Net(Earlier(es, start))
  {
    openBal := 0.0;
    var i := 0;
    while i < |es|
      invariant 0 <= i <= |es|
      invariant openBal + Net(Earlier(es[i..], start)) == Net(Earlier(es, start))
    {
      EarlierStep(es, i, start);
      if es[i].date < start {
        openBal := openBal + (es[i].debit - es[i].credit);
      }
      i := i + 1;
    }
  }

  lemma EarlierStep(es: seq<Event>, i: int, start: int)
    requires 0 <= i < |es|
    ensures Net(Earlier(es[i..], start))
            == (if es[i].date < start then es[i].debit - es[i].credit else 0.0) + Net(Earlier(es[i + 1..], start))
  {
    assert es[i..][0] == es[i] && es[i..][1..] == es[i + 1..];
    NetCons(es[i], Earlier(es[i + 1..], start));
    var tail := Earlier(es[i + 1..], start);
    if es[i].date >= start {
      assert Earlier(es[i..], start) == [] + tail == tail;
    } else {
      assert Earlier(es[i..], start) == [es[i]] + tail;
    }
  }

  /** The listing `forEach` of financials_extension.js:300-306. */
  method ListRows(es: seq<Event>, start: Option<int>, end: Option<int>, base: real)
    returns (rows: seq<StatementRow>, running: real)
    ensures rows == Rows(es, start, end, base)
    ensures running == base + Net(Window(es, start, end))
  {
    rows, running := [], base;
    var left := es;
    while left != []
      invariant rows + Rows(left, start, end, running) == Rows(es, start, end, base)
      invariant running + Net(Window(left, start, end)) == base + Net(Window(es, start, end))
      decreases |left|
    {
      var e := left[0];
      var tail := Window(left[1..], start, end);
      if InWindow(e, start, end) {
        NetCons(e, tail);
        var next := running + (e.debit - e.credit);
        var row := StatementRow(e, next);
        var rest := Rows(left[1..], start, end, next);
        assert rows + ([row] + rest) == (rows + [row]) + rest;
        running := next;
        rows := rows + [row];
      } else {
        assert Window(left, start, end) == [] + tail == tail;
      }
      left := left[1..];
    }
    assert rows + [] == rows;
  }

  /** `renderSupplierStatement(code, d1, d2)`: no statement for a supplier
      code the master data does not hold; `start` and `end` are the chosen
      dates at midnight, `None` when not given. */
  method RenderStatement(suppliers: seq<Supplier>, txs: seq<Tx>, ps: seq<Payment>, code: string,
                         start: Option<int>, end: Option<int>)
    returns (st: Option<Statement>)
    ensures st.None? <==> Find(suppliers, SupplierKey, code).None?
    ensures st.Some? ==>
              code in SupplierFinancials(suppliers, txs, ps)
              && st.value == StatementOf(SupplierFinancials(suppliers, txs, ps)[code].events, start, end)
  {
    var sup := Find(suppliers, SupplierKey, code);
    if sup.None? {
      return None;
    }
    var fin := CalculateSupplierFinancials(suppliers, txs, ps);
    assert sup.value in suppliers && sup.value.code == code;
    assert code in SupplierCodes(suppliers);
    var statement := BuildStatement(fin[code].events, start, end);
    st := Some(statement);
  }

  /** The opening balance and the listing of financials_extension.js:289-309. */
  method BuildStatement(es: seq<Event>, start: Option<int>, end: Option<int>) returns (st: Statement)
    ensures st == StatementOf(es, start, end)
  {
    var base := 0.0;
    var opening: Option<real> := None;
    if start.Some? {
      base := OpeningBalanceOf(es, start.value);
      opening := Some(base);
    }
    var rows, closing := ListRows(es, start, end, base);
    st := Statement(opening, rows, closing);
  }

  lemma NetCons(e: Event, es: seq<Event>)
    ensures Net([e] + es) == e.debit - e.credit + Net(es)
  {
    assert ([e] + es)[1..] == es;
  }

  /** Row k lists the k-th listed event and the base plus the net of the
      listed events up to and including it. */
  predicate RunsOver(rows: seq<StatementRow>, listed: seq<Event>, base: real)
  {
    && |rows| == |listed|
    && forall k | 0 <= k < |rows| :: rows[k].event == listed[k] && rows[k].running == base + Net(listed[..k + 1])
  }

  /** Listing one more event in front: its row runs from the base, the rest
      from the base plus its net. */
  lemma RunsOverCons(e: Event, rest: seq<Event>, tail: seq<StatementRow>, base: real)
    requires RunsOver(tail, rest, base + e.debit - e.credit)
    ensures RunsOver([StatementRow(e, base + e.debit - e.credit)] + tail, [e] + rest, base)
  {
    var rows, listed := [StatementRow(e, base + e.debit - e.credit)] + tail, [e] + rest;
    forall k | 0 <= k < |rows|
      ensures rows[k].event == listed[k] && rows[k].running == base + Net(listed[..k + 1])
    {
      assert listed[..k + 1] == [e] + rest[..k];
      NetCons(e, rest[..k]);
      if k == 0 {
        assert rest[..0] == [];
      } else {
        assert rows[k] == tail[k - 1] && listed[k] == rest[k - 1];
      }
    }
  }

  /** The rows follow the window's events with their running balance. */
  lemma {:induction false} RowsRunning(es: seq<Event>, start: Option<int>, end: Option<int>, base: real)
    ensures RunsOver(Rows(es, start, end, base), Window(es, start, end), base)
    decreases |es|
  {
    if es != [] {
      var e := es[0];
      if InWindow(e, start, end) {
        var d := e.debit - e.credit;
        RowsRunning(es[1..], start, end, base + d);
        var rest := Window(es[1..], start, end);
        var tail := Rows(es[1..], start, end, base + d);
        assert Window(es, start, end) == [e] + rest;
        assert Rows(es, start, end, base) == [StatementRow(e, base + d)] + tail;
        RunsOverCons(e, rest, tail, base);
      } else {
        RowsRunning(es[1..], start, end, base);
        var rest := Window(es[1..], start, end);
        assert Window(es, start, end) == [] + rest == rest;
      }
    }
  }

  /** The closing balance is the running balance of the last listed row, or
      the opening balance when no event falls in the window. */
  lemma ClosingIsLastRunning(es: seq<Event>, start: Option<int>, end: Option<int>)
    ensures var st := StatementOf(es, start, end);
            var base := if start.Some? then st.opening.value else 0.0;
            && (st.rows == [] ==> st.closing == base)
            && (st.rows != [] ==> st.closing == st.rows[|st.rows| - 1].running)
  {
    var st := StatementOf(es, start, end);
    var base := if start.Some? then st.opening.value else 0.0;
    RowsRunning(es, start, end, base);
    var listed := Window(es, start, end);
    if st.rows == [] {
      assert listed == [];
    } else {
      assert listed[..|listed|] == listed;
    }
  }

  /** Opening balance plus the open-ended window from the start nets to the
      whole feed. */
  lemma {:induction false} OpeningPlusWindow(es: seq<Event>, start: int)
    ensures Net(Earlier(es, start)) + Net(Window(es, Some(start), None)) == Net(es)
    decreases |es|
  {
    if es != [] {
      var e, rest := es[0], es[1..];
      NetCons(e, Earlier(rest, start));
      NetCons(e, Window(rest, Some(start), None));
      OpeningPlusWindow(rest, start);
      var w, o := Window(rest, Some(start), None), Earlier(rest, start);
      if e.date < start {
        assert Window(es, Some(start), None) == [] + w == w;
      } else {
        assert Earlier(es, start) == [] + o == o;
      }
    }
  }

  /** Without bounds every event is listed. */
  lemma {:induction false} UnboundedListsAll(es: seq<Event>)
    ensures Window(es, None, None) == es
    decreases |es|
  {
    if es != [] {
      assert es == [es[0]] + es[1..];
      UnboundedListsAll(es[1..]);
    }
  }

  /** With no end date the closing balance is the supplier's whole net, and
      that is the ledger balance less the opening-balance payments, which are
      billed but have no statement row; with a start date the opening row
      makes up exactly for the events left out. */
  lemma ClosingWithoutEnd(suppliers: seq<Supplier>, txs: seq<Tx>, ps: seq<Payment>, code: string, start: Option<int>)
    requires code in SupplierCodes(suppliers)
    ensures var f := SupplierFinancials(suppliers, txs, ps);
            code in f
            && StatementOf(f[code].events, start, None).closing == f[code].balance - OpeningSum(code, ps)
  {
    SupplierTotals(suppliers, txs, ps, code);
    var es := SupplierFinancials(suppliers, txs, ps)[code].events;
    if start.Some? {
      OpeningPlusWindow(es, start.value);
    } else {
      UnboundedListsAll(es);
    }
  }

  // ---------------------------------------------------------------------------
  // Payment lines (financials_extension.js:246-276); the server call is taken
  // to succeed

  /** One amount input of the payment table: its invoice and what was typed. */
  datatype AmountInput = AmountInput(invoiceNumber: string, entered: Number)

  predicate Positive(inp: AmountInput)
  {
    inp.entered.Finite? && inp.entered.value > 0.0
  }

  /** The payment an input with a positive amount produces; every payment of
      a submission shares the generated id and the date. */
  function PaymentLine(supplier: string, payMethod: string, id: string, date: int, inp: AmountInput): Payment
  {
    Payment(id, supplier, inp.invoiceNumber, inp.entered, payMethod, date)
  }

  function PaymentLines(supplier: string, payMethod: string, id: string, date: int, inputs: seq<AmountInput>): (r: seq<Payment>)
    ensures |r| <= |inputs|
    ensures forall p | p in r ::
              p.supplierCode == supplier && p.payMethod == payMethod && p.amount.Finite? && p.amount.value > 0.0
    ensures r == [] <==> forall inp | inp in inputs :: !Positive(inp)
    decreases |inputs|
  {
    if inputs == [] then []
    else
      assert inputs == [inputs[0]] + inputs[1..];
      (if Positive(inputs[0]) then [PaymentLine(supplier, payMethod, id, date, inputs[0])] else [])
      + PaymentLines(supplier, payMethod, id, date, inputs[1..])
  }

  /** `totalAmount`: the sum of the payment amounts. */
  function Total(ps: seq<Payment>): real
    decreases |ps|
  {
    if ps == [] then 0.0 else OrZero(ps[0].amount) + Total(ps[1..])
  }

  /** `handleSubmitPayment`: nothing happens without a positive amount;
      otherwise the lines are appended to the payment log and the total is
      returned. */
  method SubmitPayment(s: Store, supplier: string, payMethod: string, id: string, date: int, inputs: seq<AmountInput>)
    returns (total: Option<real>)
    modifies s
    ensures total.None? <==> PaymentLines(supplier, payMethod, id, date, inputs) == []
    ensures total.Some? ==> total.value == Total(PaymentLines(supplier, payMethod, id, date, inputs))
    ensures s.payments == old(s.payments) + PaymentLines(supplier, payMethod, id, date, inputs)
    ensures s.transactions == old(s.transactions)
    ensures forall n :: s.List(n) == old(s.List(n))
  {
    var lines := BuildLines(supplier, payMethod, id, date, inputs);
    if lines == [] {
      return None;
    }
    var sum := SumAmounts(lines);
    s.payments := s.payments + lines;
    total := Some(sum);
  }

  /** The `forEach` over the amount inputs (financials_extension.js:256-259). */
  method BuildLines(supplier: string, payMethod: string, id: string, date: int, inputs: seq<AmountInput>)
    returns (lines: seq<Payment>)
    ensures lines == PaymentLines(supplier, payMethod, id, date, inputs)
  {
    lines := [];
    var left := inputs;
    while left != []
      invariant lines + PaymentLines(supplier, payMethod, id, date, left)
                == PaymentLines(supplier, payMethod, id, date, inputs)
      decreases |left|
    {
      var rest := PaymentLines(supplier, payMethod, id, date, left[1..]);
      if Positive(left[0]) {
        var p := PaymentLine(supplier, payMethod, id, date, left[0]);
        assert lines + ([p] + rest) == (lines + [p]) + rest;
        lines := lines + [p];
      } else {
        assert [] + rest == rest;
      }
      left := left[1..];
    }
    assert lines + [] == lines;
  }

  /** `totalAmount` accumulated over the lines (financials_extension.js:263). */
  method SumAmounts(lines: seq<Payment>) returns (sum: real)
    ensures sum == Total(lines)
  {
    sum := 0.0;
    var k := 0;
    while k < |lines|
      invariant 0 <= k <= |lines|
      invariant sum + Total(lines[k..]) == Total(lines)
    {
      assert lines[k..][0] == lines[k] && lines[k..][1..] == lines[k + 1..];
      sum := sum + OrZero(lines[k].amount);
      k := k + 1;
    }
  }

  /** The lines are the positive inputs, in order. */
  lemma {:induction false} LinesArePositiveInputs(supplier: string, payMethod: string, id: string, date: int,
                                                  inputs: seq<AmountInput>)
    ensures var lines := PaymentLines(supplier, payMethod, id, date, inputs);
            var kept := Sorting.Filter(inputs, Positive);
            && |lines| == |kept|
            && forall k | 0 <= k < |lines| ::
                 lines[k].invoiceNumber == kept[k].invoiceNumber && lines[k].amount == kept[k].entered
    decreases |inputs|
  {
    if inputs != [] {
      var x, rest := inputs[0], inputs[1..];
      assert inputs == [x] + rest;
      Sorting.FilterCons(x, rest, Positive);
      LinesArePositiveInputs(supplier, payMethod, id, date, rest);
      var tail := PaymentLines(supplier, payMethod, id, date, rest);
      var keptTail := Sorting.Filter(rest, Positive);
      if Positive(x) {
        assert PaymentLines(supplier, payMethod, id, date, inputs) == [PaymentLine(supplier, payMethod, id, date, x)] + tail;
        assert Sorting.Filter(inputs, Positive) == [x] + keptTail;
      } else {
        assert PaymentLines(supplier, payMethod, id, date, inputs) == tail;
        assert Sorting.Filter(inputs, Positive) == keptTail;
      }
    }
  }

  lemma {:induction false} TotalPositive(ps: seq<Payment>)
    requires ps != [] && forall p | p in ps :: p.amount.Finite? && p.amount.value > 0.0
    ensures Total(ps) > 0.0
    decreases |ps|
  {
    assert ps[0] in ps;
    if |ps| > 1 {
      assert forall p | p in ps[1..] :: p in ps;
      TotalPositive(ps[1..]);
    }
  }

  lemma {:induction false} PaidSumAppend(c: string, a: seq<Payment>, b: seq<Payment>)
    ensures PaidSum(c, a + b) == PaidSum(c, a) + PaidSum(c, b)
    decreases |a|
  {
    if a != [] {
      assert (a + b)[0] == a[0] && (a + b)[1..] == a[1..] + b;
      PaidSumAppend(c, a[1..], b);
    } else {
      assert a + b == b;
    }
  }

  lemma {:induction false} OpeningSumAppend(c: string, a: seq<Payment>, b: seq<Payment>)
    ensures OpeningSum(c, a + b) == OpeningSum(c, a) + OpeningSum(c, b)
    decreases |a|
  {
    if a != [] {
      assert (a + b)[0] == a[0] && (a + b)[1..] == a[1..] + b;
      OpeningSumAppend(c, a[1..], b);
    } else {
      assert a + b == b;
    }
  }

  /** The lines of one submission pay (or, as an opening balance, bill) their
      supplier by exactly the total. */
  lemma {:induction false} LinesSums(supplier: string, payMethod: string, id: string, date: int, inputs: seq<AmountInput>)
    ensures var lines := PaymentLines(supplier, payMethod, id, date, inputs);
            && PaidSum(supplier, lines) == (if payMethod != OpeningBalance then Total(lines) else 0.0)
            && OpeningSum(supplier, lines) == (if payMethod == OpeningBalance then Total(lines) else 0.0)
    decreases |inputs|
  {
    if inputs != [] {
      LinesSums(supplier, payMethod, id, date, inputs[1..]);
      var rest := PaymentLines(supplier, payMethod, id, date, inputs[1..]);
      if Positive(inputs[0]) {
        var p := PaymentLine(supplier, payMethod, id, date, inputs[0]);
        assert ([p] + rest)[0] == p && ([p] + rest)[1..] == rest;
        assert PaymentLines(supplier, payMethod, id, date, inputs) == [p] + rest;
      } else {
        assert PaymentLines(supplier, payMethod, id, date, inputs) == [] + rest == rest;
      }
    }
  }

  /** After a payment the supplier's paid total grows by the submission's
      total and its balance drops by as much; an opening-balance payment
      raises the billed total instead and leaves the balance's paid part alone. */
  lemma PaymentSettles(suppliers: seq<Supplier>, txs: seq<Tx>, ps: seq<Payment>, supplier: string, payMethod: string,
                       id: string, date: int, inputs: seq<AmountInput>)
    requires supplier in SupplierCodes(suppliers)
    ensures var lines := PaymentLines(supplier, payMethod, id, date, inputs);
            var before := SupplierFinancials(suppliers, txs, ps);
            var after := SupplierFinancials(suppliers, txs, ps + lines);
            supplier in before && supplier in after
            && (payMethod != OpeningBalance ==>
                  after[supplier].paid == before[supplier].paid + Total(lines)
                  && after[supplier].balance == before[supplier].balance - Total(lines))
            && (payMethod == OpeningBalance ==>
                  after[supplier].billed == before[supplier].billed + Total(lines)
                  && after[supplier].paid == before[supplier].paid)
  {
    var lines := PaymentLines(supplier, payMethod, id, date, inputs);
    SupplierTotals(suppliers, txs, ps, supplier);
    SupplierTotals(suppliers, txs, ps + lines, supplier);
    PaidSumAppend(supplier, ps, lines);
    OpeningSumAppend(supplier, ps, lines);
    LinesSums(supplier, payMethod, id, date, inputs);
  }

  // ---------------------------------------------------------------------------
  // Invoice picker (financials_extension.js:208-213)

  /** `Object.values(fin[sup]?.invoices || {}).filter(i => i.status !== 'Paid')`. */
  function UnpaidInvoices(fin: map<string, SupplierAccount>, supplier: string): (r: set<InvoiceLine>)
    ensures forall l :: l in r <==> supplier in fin && l in fin[supplier].invoices.Values && l.status != Paid
  {
    if supplier in fin then set l | l in fin[supplier].invoices.Values && l.status != Paid else {}
  }

  /** An invoice is offered for payment exactly when its balance is at least
      one cent away from 0. */
  lemma UnpaidMeansOutstanding(suppliers: seq<Supplier>, txs: seq<Tx>, ps: seq<Payment>, supplier: string, k: string)
    requires supplier in SupplierFinancials(suppliers, txs, ps)
    requires k in SupplierFinancials(suppliers, txs, ps)[supplier].invoices
    ensures var l := SupplierFinancials(suppliers, txs, ps)[supplier].invoices[k];
            l in UnpaidInvoices(SupplierFinancials(suppliers, txs, ps), supplier) <==> Abs(l.balance) >= 0.01
  {
  }
}
