/**
 * The supplier ledger replay of calculations.js:114-198: bills from approved
 * receives, credits from returns, payments and opening balances, folded into
 * one account per known supplier, then summarised with invoice statuses and
 * a date-ordered statement feed.
 */
module SupplierLedger {
  import opened Utils
  import opened Records
  import opened Classifier
  import Sorting

  datatype EventKind = Bill | Credit | Pay

  /** One row of a supplier's statement feed. */
  datatype Event = Event(date: int, kind: EventKind, ref: string, debit: real, credit: real)

  function EventDate(e: Event): int { e.date }

  /** An invoice bucket while the replay runs. */
  datatype Invoice = Invoice(number: string, date: int, total: real, paid: real)

  /** A supplier's account while the replay runs. */
  datatype Account = Account(billed: real, paid: real, credited: real, invoices: map<string, Invoice>, events: seq<Event>)

  type Ledger = map<string, Account>

  datatype InvoiceStatus = Paid | Partial | Unpaid

  /** A summarised invoice. */
  datatype InvoiceLine = InvoiceLine(number: string, date: int, total: real, paid: real, balance: real, status: InvoiceStatus)

  /** A summarised supplier: what `calculateSupplierFinancials` returns per key. */
  datatype SupplierAccount = SupplierAccount(
    billed: real, paid: real, credited: real, balance: real,
    invoices: map<string, InvoiceLine>, events: seq<Event>)

  const EmptyAccount: Account := Account(0.0, 0.0, 0.0, map[], [])

  /** The bucket a receive without an invoice number is billed to. */
  const UnknownInvoice: string := "Unknown"

  function SupplierCodes(suppliers: seq<Supplier>): set<string>
  {
    set s | s in suppliers :: s.code
  }

  /** One zeroed account per known supplier (calculations.js:117-128). */
  function Seed(suppliers: seq<Supplier>): Ledger
  {
    map c | c in SupplierCodes(suppliers) :: EmptyAccount
  }

  function RowValue(t: Tx): real
  {
    OrZero(t.quantity) * OrZero(t.cost)
  }

  /** The rows the bill pass looks at (calculations.js:135): not deleted, with a
      known supplier and a cost that is not undefined. The row's `Status` is
      not consulted. */
  predicate Billed(l: Ledger, t: Tx)
  {
    !IsDeleted(t) && t.supplierCode != "" && t.supplierCode in l && t.cost != Undefined
  }

  /** An approved receive: billed, added to its invoice bucket (opened with
      nothing paid when new), and listed as a debit (calculations.js:139-146). */
  function BillAccount(a: Account, t: Tx): Account
  {
    var value := RowValue(t);
    var number := OrElse(t.invoiceNumber, UnknownInvoice);
    var bucket := if number in a.invoices then a.invoices[number] else Invoice(number, t.date, 0.0, 0.0);
    a.(billed := a.billed + value,
       invoices := a.invoices[number := bucket.(total := bucket.total + value)],
       events := a.events + [Event(t.date, Bill, number, value, 0.0)])
  }

  /** A return: credited, and listed as a credit (calculations.js:148-151). */
  function CreditAccount(a: Account, t: Tx): Account
  {
    a.(credited := a.credited + RowValue(t), events := a.events + [Event(t.date, Credit, t.ref, 0.0, RowValue(t))])
  }

  /** One transaction of the bill pass (calculations.js:131-153). */
  function BillRow(l: Ledger, t: Tx): Ledger
  {
    if !Billed(l, t) then l
    else if t.kind == Receive && IsApproved(t) then l[t.supplierCode := BillAccount(l[t.supplierCode], t)]
    else if t.kind == ReturnOut then l[t.supplierCode := CreditAccount(l[t.supplierCode], t)]
    else l
  }

  function Bills(l: Ledger, txs: seq<Tx>): Ledger
    decreases |txs|
  {
    if txs == [] then l else Bills(BillRow(l, txs[0]), txs[1..])
  }

  /** One payment (calculations.js:156-178): an opening balance bills and
      (re)seeds its invoice; any other payment pays, is listed, and is
      allocated to its invoice when that exists. */
  function PayRow(l: Ledger, p: Payment): Ledger
  {
    if p.supplierCode !in l then l
    else
      var a := l[p.supplierCode];
      var amount := OrZero(p.amount);
      var number := p.invoiceNumber;
      if p.payMethod == OpeningBalance then
        var invoices := if number != "" then a.invoices[number := Invoice(number, p.date, amount, 0.0)] else a.invoices;
        l[p.supplierCode := a.(billed := a.billed + amount, invoices := invoices)]
      else
        var invoices := if number != "" && number in a.invoices
                        then a.invoices[number := a.invoices[number].(paid := a.invoices[number].paid + amount)]
                        else a.invoices;
        l[p.supplierCode := a.(paid := a.paid + amount, invoices := invoices,
                               events := a.events + [Event(p.date, Pay, p.paymentId, 0.0, amount)])]
  }

  function Payments(l: Ledger, ps: seq<Payment>): Ledger
    decreases |ps|
  {
    if ps == [] then l else Payments(PayRow(l, ps[0]), ps[1..])
  }

  function Abs(x: real): real
  {
    if x < 0.0 then -x else x
  }

  /** The invoice summary of calculations.js:185-194. */
  function CloseInvoice(inv: Invoice): (r: InvoiceLine)
    ensures r.balance == inv.total - inv.paid
    ensures r.status == Paid <==> Abs(inv.total - inv.paid) < 0.01
    ensures r.status == Partial <==> Abs(inv.total - inv.paid) >= 0.01 && inv.paid > 0.0
    ensures r.status == Unpaid <==> Abs(inv.total - inv.paid) >= 0.01 && inv.paid <= 0.0
    ensures r.number == inv.number && r.date == inv.date && r.total == inv.total && r.paid == inv.paid
  {
    var balance := inv.total - inv.paid;
    var status := if Abs(balance) < 0.01 then Paid else if inv.paid > 0.0 then Partial else Unpaid;
    InvoiceLine(inv.number, inv.date, inv.total, inv.paid, balance, status)
  }

  /** The per-supplier summary (calculations.js:182-195). */
  function Close(a: Account): SupplierAccount
  {
    SupplierAccount(a.billed, a.paid, a.credited, a.billed - a.paid - a.credited,
                    map k | k in a.invoices :: CloseInvoice(a.invoices[k]),
                    Sorting.SortBy(a.events, EventDate))
  }

  /** What `calculateSupplierFinancials` returns. */
  function SupplierFinancials(suppliers: seq<Supplier>, txs: seq<Tx>, ps: seq<Payment>): map<string, SupplierAccount>
  {
    var l := Payments(Bills(Seed(suppliers), txs), ps);
    map c | c in l :: Close(l[c])
  }

  // ---------------------------------------------------------------------------
  // The imperative replay

  /** The bill pass's body for one row, on the live ledger. */
  method PostBill(l: Ledger, t: Tx) returns (l': Ledger)
    ensures l' == BillRow(l, t)
  {
    l' := l;
    if !Billed(l, t) {
      return;
    }
    var a := l[t.supplierCode];
    var value := RowValue(t);
    if t.kind == Receive && IsApproved(t) {
      var number := OrElse(t.invoiceNumber, UnknownInvoice);
      var bucket := Invoice(number, t.date, 0.0, 0.0);
      if number in a.invoices {
        bucket := a.invoices[number];
      }
      a := a.(billed := a.billed + value,
              invoices := a.invoices[number := bucket.(total := bucket.total + value)],
              events := a.events + [Event(t.date, Bill, number, value, 0.0)]);
      assert a == BillAccount(l[t.supplierCode], t);
      l' := l[t.supplierCode := a];
    } else if t.kind == ReturnOut {
      a := a.(credited := a.credited + value, events := a.events + [Event(t.date, Credit, t.ref, 0.0, value)]);
      l' := l[t.supplierCode := a];
    }
  }

  /** The payment pass's body for one payment, on the live ledger. */
  method PostPayment(l: Ledger, p: Payment) returns (l': Ledger)
    ensures l' == PayRow(l, p)
  {
    l' := l;
    if p.supplierCode in l {
      var a := l[p.supplierCode];
      var amount := OrZero(p.amount);
      if p.payMethod == OpeningBalance {
        a := a.(billed := a.billed + amount);
        if p.invoiceNumber != "" {
          a := a.(invoices := a.invoices[p.invoiceNumber := Invoice(p.invoiceNumber, p.date, amount, 0.0)]);
        }
      } else {
        a := a.(paid := a.paid + amount, events := a.events + [Event(p.date, Pay, p.paymentId, 0.0, amount)]);
        if p.invoiceNumber != "" && p.invoiceNumber in a.invoices {
          var inv := a.invoices[p.invoiceNumber];
          a := a.(invoices := a.invoices[p.invoiceNumber := inv.(paid := inv.paid + amount)]);
        }
      }
      l' := l[p.supplierCode := a];
    }
  }

  /** The seeding loop of calculations.js:117-128. */
  method SeedLedger(suppliers: seq<Supplier>) returns (l: Ledger)
    ensures l == Seed(suppliers)
  {
    l := map[];
    var k := 0;
    while k < |suppliers|
      invariant 0 <= k <= |suppliers|
      invariant l == map c | c in SupplierCodes(suppliers[..k]) :: EmptyAccount
    {
      assert suppliers[..k + 1] == suppliers[..k] + [suppliers[k]];
      l := l[suppliers[k].code := EmptyAccount];
      k := k + 1;
    }
    assert suppliers[..k] == suppliers;
  }

  /** The bill pass of calculations.js:132-153. */
  method PostBills(l0: Ledger, txs: seq<Tx>) returns (l: Ledger)
    ensures l == Bills(l0, txs)
  {
    l := l0;
    var i := 0;
    while i < |txs|
      invariant 0 <= i <= |txs|
      invariant Bills(l, txs[i..]) == Bills(l0, txs)
    {
      assert txs[i..][0] == txs[i] && txs[i..][1..] == txs[i + 1..];
      l := PostBill(l, txs[i]);
      i := i + 1;
    }
  }

  /** The payment pass of calculations.js:156-178. */
  method PostPayments(l0: Ledger, ps: seq<Payment>) returns (l: Ledger)
    ensures l == Payments(l0, ps)
  {
    l := l0;
    var j := 0;
    while j < |ps|
      invariant 0 <= j <= |ps|
      invariant Payments(l, ps[j..]) == Payments(l0, ps)
    {
      assert ps[j..][0] == ps[j] && ps[j..][1..] == ps[j + 1..];
      l := PostPayment(l, ps[j]);
      j := j + 1;
    }
  }

  /** The summary loop of calculations.js:182-195. */
  method CloseAll(l: Ledger) returns (fin: map<string, SupplierAccount>)
    ensures fin == map c | c in l :: Close(l[c])
  {
    fin := map[];
    var todo := l.Keys;
    while todo != {}
      invariant todo <= l.Keys
      invariant fin == map c | c in l.Keys - todo :: Close(l[c])
      decreases todo
    {
      var c :| c in todo;
      fin := fin[c := Close(l[c])];
      todo := todo - {c};
    }
  }

  /** `calculateSupplierFinancials` (calculations.js:114-198). */
  method CalculateSupplierFinancials(suppliers: seq<Supplier>, txs: seq<Tx>, ps: seq<Payment>)
    returns (fin: map<string, SupplierAccount>)
    ensures fin == SupplierFinancials(suppliers, txs, ps)
    ensures fin.Keys == SupplierCodes(suppliers)
  {
    var l := SeedLedger(suppliers);
    l := PostBills(l, txs);
    l := PostPayments(l, ps);
    fin := CloseAll(l);
    BillsKeepSuppliers(Seed(suppliers), txs);
    PaymentsKeepSuppliers(Bills(Seed(suppliers), txs), ps);
  }

  // ---------------------------------------------------------------------------
  // Per-supplier sums: an independent reading of what the totals add up

  /** A row that bills supplier `c`. */
  predicate BillsSupplier(c: string, t: Tx)
  {
    !IsDeleted(t) && c != "" && t.supplierCode == c && t.cost != Undefined && t.kind == Receive && IsApproved(t)
  }

  /** A row that credits supplier `c`; its Status plays no part. */
  predicate CreditsSupplier(c: string, t: Tx)
  {
    !IsDeleted(t) && c != "" && t.supplierCode == c && t.cost != Undefined && t.kind == ReturnOut
  }

  function BilledSum(c: string, txs: seq<Tx>): real
    decreases |txs|
  {
    if txs == [] then 0.0
    else (if BillsSupplier(c, txs[0]) then RowValue(txs[0]) else 0.0) + BilledSum(c, txs[1..])
  }

  function CreditedSum(c: string, txs: seq<Tx>): real
    decreases |txs|
  {
    if txs == [] then 0.0
    else (if CreditsSupplier(c, txs[0]) then RowValue(txs[0]) else 0.0) + CreditedSum(c, txs[1..])
  }

  /** The sum billed to invoice bucket `k` of supplier `c`. */
  function InvoiceSum(c: string, k: string, txs: seq<Tx>): real
    decreases |txs|
  {
    if txs == [] then 0.0
    else (if BillsSupplier(c, txs[0]) && OrElse(txs[0].invoiceNumber, UnknownInvoice) == k then RowValue(txs[0]) else 0.0)
         + InvoiceSum(c, k, txs[1..])
  }

  predicate OpensBalance(c: string, p: Payment)
  {
    p.supplierCode == c && p.payMethod == OpeningBalance
  }

  predicate PaysSupplier(c: string, p: Payment)
  {
    p.supplierCode == c && p.payMethod != OpeningBalance
  }

  function OpeningSum(c: string, ps: seq<Payment>): real
    decreases |ps|
  {
    if ps == [] then 0.0 else (if OpensBalance(c, ps[0]) then OrZero(ps[0].amount) else 0.0) + OpeningSum(c, ps[1..])
  }

  function PaidSum(c: string, ps: seq<Payment>): real
    decreases |ps|
  {
    if ps == [] then 0.0 else (if PaysSupplier(c, ps[0]) then OrZero(ps[0].amount) else 0.0) + PaidSum(c, ps[1..])
  }

  /** The feed row a transaction gives supplier `c`: a debit of its value for
      a billed receive, a credit of its value for a return, none otherwise. */
  function BillEvent(c: string, t: Tx): seq<Event>
  {
    if BillsSupplier(c, t) then [Event(t.date, Bill, OrElse(t.invoiceNumber, UnknownInvoice), RowValue(t), 0.0)]
    else if CreditsSupplier(c, t) then [Event(t.date, Credit, t.ref, 0.0, RowValue(t))]
    else []
  }

  /** The feed rows of supplier `c` from the transaction log, in log order. */
  function BillEvents(c: string, txs: seq<Tx>): seq<Event>
    decreases |txs|
  {
    if txs == [] then [] else BillEvent(c, txs[0]) + BillEvents(c, txs[1..])
  }

  /** The feed row a payment gives supplier `c`: a credit of its amount,
      except for an opening balance, which gives none. */
  function PayEvent(c: string, p: Payment): seq<Event>
  {
    if PaysSupplier(c, p) then [Event(p.date, Pay, p.paymentId, 0.0, OrZero(p.amount))] else []
  }

  /** The feed rows of supplier `c` from the payment log, in log order. */
  function PayEvents(c: string, ps: seq<Payment>): seq<Event>
    decreases |ps|
  {
    if ps == [] then [] else PayEvent(c, ps[0]) + PayEvents(c, ps[1..])
  }

  /** Debits minus credits of a statement feed. */
  function Net(es: seq<Event>): real
    decreases |es|
  {
    if es == [] then 0.0 else es[0].debit - es[0].credit + Net(es[1..])
  }

  lemma {:induction false} NetAppend(es: seq<Event>, e: Event)
    ensures Net(es + [e]) == Net(es) + e.debit - e.credit
    decreases |es|
  {
    if es == [] {
      assert es + [e] == [e];
    } else {
      assert (es + [e])[0] == es[0] && (es + [e])[1..] == es[1..] + [e];
      NetAppend(es[1..], e);
    }
  }

  lemma {:induction false} NetInsert(e: Event, es: seq<Event>)
    ensures Net(Sorting.Insert(e, es, EventDate)) == e.debit - e.credit + Net(es)
    decreases |es|
  {
    if es != [] && EventDate(es[0]) < EventDate(e) {
      var r := Sorting.Insert(e, es[1..], EventDate);
      NetInsert(e, es[1..]);
      assert ([es[0]] + r)[0] == es[0] && ([es[0]] + r)[1..] == r;
    } else {
      assert ([e] + es)[0] == e && ([e] + es)[1..] == es;
    }
  }

  /** Ordering the feed by date keeps its debits and credits. */
  lemma {:induction false} NetSorted(es: seq<Event>)
    ensures Net(Sorting.SortBy(es, EventDate)) == Net(es)
    decreases |es|
  {
    if es != [] {
      NetSorted(es[1..]);
      NetInsert(es[0], Sorting.SortBy(es[1..], EventDate));
    }
  }

  // ---------------------------------------------------------------------------
  // The bill pass

  lemma BillRowKeepsSuppliers(l: Ledger, t: Tx)
    ensures BillRow(l, t).Keys == l.Keys
  {
  }

  lemma {:induction false} BillsKeepSuppliers(l: Ledger, txs: seq<Tx>)
    ensures Bills(l, txs).Keys == l.Keys
    decreases |txs|
  {
    if txs != [] {
      BillRowKeepsSuppliers(l, txs[0]);
      BillsKeepSuppliers(BillRow(l, txs[0]), txs[1..]);
    }
  }

  /** What one row does to the account of a known supplier `c`. */
  lemma BillRowOnAccount(l: Ledger, t: Tx, c: string)
    requires c in l
    ensures var a, b := l[c], BillRow(l, t)[c];
            && b.billed == a.billed + (if BillsSupplier(c, t) then RowValue(t) else 0.0)
            && b.credited == a.credited + (if CreditsSupplier(c, t) then RowValue(t) else 0.0)
            && b.paid == a.paid
            && Net(b.events) == Net(a.events) + (if BillsSupplier(c, t) then RowValue(t) else 0.0)
                                              - (if CreditsSupplier(c, t) then RowValue(t) else 0.0)
            && b.events == a.events + BillEvent(c, t)
  {
    var a := l[c];
    if BillsSupplier(c, t) {
      NetAppend(a.events, Event(t.date, Bill, OrElse(t.invoiceNumber, UnknownInvoice), RowValue(t), 0.0));
    } else if CreditsSupplier(c, t) {
      NetAppend(a.events, Event(t.date, Credit, t.ref, 0.0, RowValue(t)));
    }
  }

  /** The bill pass adds to a supplier exactly the value of its approved,
      undeleted, costed receives to `totalBilled` and of its undeleted, costed
      returns to `totalCredited`, leaves `totalPaid` alone, and appends to the
      feed exactly one row per such transaction, a debit or a credit, in log order. */
  lemma {:induction false} BillsOnAccount(l: Ledger, txs: seq<Tx>, c: string)
    requires c in l
    ensures c in Bills(l, txs)
    ensures var a, b := l[c], Bills(l, txs)[c];
            && b.billed == a.billed + BilledSum(c, txs)
            && b.credited == a.credited + CreditedSum(c, txs)
            && b.paid == a.paid
            && Net(b.events) == Net(a.events) + BilledSum(c, txs) - CreditedSum(c, txs)
            && b.events == a.events + BillEvents(c, txs)
    decreases |txs|
  {
    BillsKeepSuppliers(l, txs);
    if txs != [] {
      BillRowOnAccount(l, txs[0], c);
      BillRowKeepsSuppliers(l, txs[0]);
      BillsOnAccount(BillRow(l, txs[0]), txs[1..], c);
      var e, rest := BillEvent(c, txs[0]), BillEvents(c, txs[1..]);
      assert (l[c].events + e) + rest == l[c].events + (e + rest);
    }
  }

  /** What one row does to an invoice bucket `k` of a known supplier `c`. */
  lemma BillRowOnInvoice(l: Ledger, t: Tx, c: string, k: string)
    requires c in l
    ensures var a, b := l[c], BillRow(l, t)[c];
            var hit := BillsSupplier(c, t) && OrElse(t.invoiceNumber, UnknownInvoice) == k;
            && (k in b.invoices <==> k in a.invoices || hit)
            && (k in b.invoices ==>
                  && b.invoices[k].total == (if k in a.invoices then a.invoices[k].total else 0.0) + (if hit then RowValue(t) else 0.0)
                  && b.invoices[k].paid == (if k in a.invoices then a.invoices[k].paid else 0.0))
  {
  }

  /** Each invoice bucket of a supplier totals the values of the receives
      billed to that invoice number ("Unknown" for none); a bucket holds no
      payment the bill pass did not find there. */
  lemma {:induction false} BillsOnInvoice(l: Ledger, txs: seq<Tx>, c: string, k: string)
    requires c in l
    ensures c in Bills(l, txs)
    ensures var a, b := l[c], Bills(l, txs)[c];
            && (k in a.invoices ==> k in b.invoices)
            && (k in b.invoices ==>
                  && b.invoices[k].total == (if k in a.invoices then a.invoices[k].total else 0.0) + InvoiceSum(c, k, txs)
                  && b.invoices[k].paid == (if k in a.invoices then a.invoices[k].paid else 0.0))
    decreases |txs|
  {
    BillsKeepSuppliers(l, txs);
    if txs != [] {
      BillRowOnInvoice(l, txs[0], c, k);
      BillRowKeepsSuppliers(l, txs[0]);
      BillsOnInvoice(BillRow(l, txs[0]), txs[1..], c, k);
      var m := BillRow(l, txs[0]);
      if k !in m[c].invoices {
        BillsInvoiceAbsent(m, txs[1..], c, k);
      }
    }
  }

  /** A bucket the bill pass never opened up to some point has nothing billed
      to it up to there, and is created with no payment. */
  lemma {:induction false} BillsInvoiceAbsent(l: Ledger, txs: seq<Tx>, c: string, k: string)
    requires c in l && k !in l[c].invoices
    ensures c in Bills(l, txs)
    ensures k !in Bills(l, txs)[c].invoices ==> InvoiceSum(c, k, txs) == 0.0
    ensures k in Bills(l, txs)[c].invoices ==> Bills(l, txs)[c].invoices[k].paid == 0.0
    decreases |txs|
  {
    BillsKeepSuppliers(l, txs);
    if txs != [] {
      BillRowOnInvoice(l, txs[0], c, k);
      BillRowKeepsSuppliers(l, txs[0]);
      var m := BillRow(l, txs[0]);
      if k in m[c].invoices {
        BillsOnInvoice(m, txs[1..], c, k);
      } else {
        BillsInvoiceAbsent(m, txs[1..], c, k);
      }
    }
  }

  // ---------------------------------------------------------------------------
  // The payment pass

  lemma PayRowKeepsSuppliers(l: Ledger, p: Payment)
    ensures PayRow(l, p).Keys == l.Keys
  {
  }

  lemma {:induction false} PaymentsKeepSuppliers(l: Ledger, ps: seq<Payment>)
    ensures Payments(l, ps).Keys == l.Keys
    decreases |ps|
  {
    if ps != [] {
      PayRowKeepsSuppliers(l, ps[0]);
      PaymentsKeepSuppliers(PayRow(l, ps[0]), ps[1..]);
    }
  }

  lemma PayRowOnAccount(l: Ledger, p: Payment, c: string)
    requires c in l
    ensures var a, b := l[c], PayRow(l, p)[c];
            && b.billed == a.billed + (if OpensBalance(c, p) then OrZero(p.amount) else 0.0)
            && b.paid == a.paid + (if PaysSupplier(c, p) then OrZero(p.amount) else 0.0)
            && b.credited == a.credited
            && Net(b.events) == Net(a.events) - (if PaysSupplier(c, p) then OrZero(p.amount) else 0.0)
            && b.events == a.events + PayEvent(c, p)
  {
    if PaysSupplier(c, p) {
      NetAppend(l[c].events, Event(p.date, Pay, p.paymentId, 0.0, OrZero(p.amount)));
    }
  }

  /** The payment pass adds a supplier's opening balances to `totalBilled`
      and its other payments to `totalPaid`, whether or not their invoice
      exists, and appends to the feed one credit per payment that is not an
      opening balance, in log order. */
  lemma {:induction false} PaymentsOnAccount(l: Ledger, ps: seq<Payment>, c: string)
    requires c in l
    ensures c in Payments(l, ps)
    ensures var a, b := l[c], Payments(l, ps)[c];
            && b.billed == a.billed + OpeningSum(c, ps)
            && b.paid == a.paid + PaidSum(c, ps)
            && b.credited == a.credited
            && Net(b.events) == Net(a.events) - PaidSum(c, ps)
            && b.events == a.events + PayEvents(c, ps)
    decreases |ps|
  {
    PaymentsKeepSuppliers(l, ps);
    if ps != [] {
      PayRowOnAccount(l, ps[0], c);
      PayRowKeepsSuppliers(l, ps[0]);
      PaymentsOnAccount(PayRow(l, ps[0]), ps[1..], c);
      var e, rest := PayEvent(c, ps[0]), PayEvents(c, ps[1..]);
      assert (l[c].events + e) + rest == l[c].events + (e + rest);
    }
  }

  /** Payment allocation (calculations.js:172-176): a payment other than an
      opening balance reaches only its own invoice, and only when that bucket
      exists; an opening balance replaces its bucket with a fresh one. */
  lemma PayRowOnInvoices(l: Ledger, p: Payment)
    requires p.supplierCode in l
    ensures var a, b := l[p.supplierCode], PayRow(l, p)[p.supplierCode];
            var k := p.invoiceNumber;
            && (p.payMethod != OpeningBalance ==>
                  && b.invoices.Keys == a.invoices.Keys
                  && (forall j | j in a.invoices && j != k :: b.invoices[j] == a.invoices[j])
                  && (k in a.invoices && k != "" ==> b.invoices[k] == a.invoices[k].(paid := a.invoices[k].paid + OrZero(p.amount))))
            && (p.payMethod == OpeningBalance ==>
                  && (k != "" ==> b.invoices == a.invoices[k := Invoice(k, p.date, OrZero(p.amount), 0.0)])
                  && (k == "" ==> b.invoices == a.invoices))
  {
  }

  // ---------------------------------------------------------------------------
  // The summary

  /** The supplier totals of the whole replay, the balance identity, and the
      statement feed: the supplier's bill and credit rows from the log, then
      its payment rows (none for an opening balance), ordered by date, and
      netting to the balance less the opening balances. */
  lemma SupplierTotals(suppliers: seq<Supplier>, txs: seq<Tx>, ps: seq<Payment>, c: string)
    requires c in SupplierCodes(suppliers)
    ensures var f := SupplierFinancials(suppliers, txs, ps);
            && c in f
            && f[c].billed == BilledSum(c, txs) + OpeningSum(c, ps)
            && f[c].paid == PaidSum(c, ps)
            && f[c].credited == CreditedSum(c, txs)
            && f[c].balance == f[c].billed - f[c].paid - f[c].credited
            && Net(f[c].events) == f[c].balance - OpeningSum(c, ps)
            && Sorting.SortedBy(f[c].events, EventDate)
            && f[c].events == Sorting.SortBy(BillEvents(c, txs) + PayEvents(c, ps), EventDate)
            && multiset(f[c].events) == multiset(BillEvents(c, txs) + PayEvents(c, ps))
  {
    var seed := Seed(suppliers);
    assert seed[c].events == [];
    assert [] + BillEvents(c, txs) == BillEvents(c, txs);
    var b := Bills(seed, txs);
    BillsOnAccount(seed, txs, c);
    PaymentsOnAccount(b, ps, c);
    var a := Payments(b, ps)[c];
    NetSorted(a.events);
    Sorting.SortBySorted(a.events, EventDate);
  }

  /** Every known supplier has an account, and nothing else does. */
  lemma EverySupplierSeeded(suppliers: seq<Supplier>, txs: seq<Tx>, ps: seq<Payment>)
    ensures SupplierFinancials(suppliers, txs, ps).Keys == SupplierCodes(suppliers)
  {
    BillsKeepSuppliers(Seed(suppliers), txs);
    PaymentsKeepSuppliers(Bills(Seed(suppliers), txs), ps);
  }

  /** A receive without an invoice number is billed to the "Unknown" bucket. */
  lemma MissingInvoiceNumber(l: Ledger, t: Tx)
    requires Billed(l, t) && t.kind == Receive && IsApproved(t) && t.invoiceNumber == ""
    ensures UnknownInvoice in BillRow(l, t)[t.supplierCode].invoices
  {
  }

  /** The bill pass does not look at `Status`: a Cancelled return still credits. */
  lemma CancelledReturnStillCredits(l: Ledger, t: Tx)
    requires Billed(l, t) && t.kind == ReturnOut && t.status == "Cancelled"
    ensures !Included(t)
    ensures BillRow(l, t)[t.supplierCode].credited == l[t.supplierCode].credited + RowValue(t)
  {
  }

  // ---------------------------------------------------------------------------
  // Worked examples

  const BillInv1: Tx := BlankTx.(kind := Receive, itemCode := "X", quantity := Finite(100.0), cost := Finite(10.0),
                                 branchCode := "B1", date := 1, isApproved := Bool(true), supplierCode := "S1",
                                 invoiceNumber := "INV1")
  const PayInv1: Payment := Payment("P1", "S1", "INV1", Finite(400.0), "Cash", 2)
  const OpenOB1: Payment := Payment("P2", "S1", "OB-1", Finite(500.0), OpeningBalance, 0)

  lemma SeedOneSupplier(s: Supplier)
    ensures Seed([s]) == map[s.code := EmptyAccount]
  {
    assert SupplierCodes([s]) == {s.code};
  }

  /** Billed 1000 on INV1, paid 400 against it: INV1 is Partial with 600
      open, and the supplier owes 600. */
  lemma ScenarioB(suppliers: seq<Supplier>, txs: seq<Tx>, ps: seq<Payment>)
    requires suppliers == [Supplier("S1")] && txs == [BillInv1] && ps == [PayInv1]
    ensures var f := SupplierFinancials(suppliers, txs, ps);
            && "S1" in f && "INV1" in f["S1"].invoices
            && f["S1"].invoices["INV1"].balance == 600.0
            && f["S1"].invoices["INV1"].status == Partial
            && f["S1"].balance == 600.0
  {
    SeedOneSupplier(Supplier("S1"));
    var seed := Seed(suppliers);
    IsTrueExactly(Bool(true));
    assert BillsSupplier("S1", BillInv1);
    var b1 := BillRow(seed, BillInv1);
    assert b1["S1"].invoices == map["INV1" := Invoice("INV1", 1, 1000.0, 0.0)];
    assert Bills(seed, txs) == Bills(b1, []);
    var p1 := PayRow(b1, PayInv1);
    assert p1["S1"].invoices["INV1"] == Invoice("INV1", 1, 1000.0, 400.0);
    assert Payments(b1, ps) == Payments(p1, []);
    SupplierTotals(suppliers, txs, ps, "S1");
    assert BilledSum("S1", txs) == 1000.0;
    assert PaidSum("S1", ps) == 400.0;
  }

  /** An opening balance of 500 on OB-1 bills 500 and seeds OB-1 with 500
      open and nothing paid; nothing is added to `totalPaid`. */
  lemma ScenarioC(suppliers: seq<Supplier>, txs: seq<Tx>, ps: seq<Payment>)
    requires suppliers == [Supplier("S1")] && txs == [] && ps == [OpenOB1]
    ensures var f := SupplierFinancials(suppliers, txs, ps);
            && "S1" in f && "OB-1" in f["S1"].invoices
            && f["S1"].billed == 500.0 && f["S1"].paid == 0.0
            && f["S1"].invoices["OB-1"].total == 500.0 && f["S1"].invoices["OB-1"].paid == 0.0
  {
    SeedOneSupplier(Supplier("S1"));
    var seed := Seed(suppliers);
    var p1 := PayRow(seed, OpenOB1);
    assert p1["S1"].invoices["OB-1"] == Invoice("OB-1", 0, 500.0, 0.0);
    assert Payments(seed, ps) == Payments(p1, []);
    SupplierTotals(suppliers, txs, ps, "S1");
    assert OpeningSum("S1", ps) == 500.0;
    assert PaidSum("S1", ps) == 0.0;
  }
}
