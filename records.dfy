/**
 * The entities of the ledger: inventory rows of the transaction log, payment
 * rows, and the item, branch and supplier master data they refer to. A text
 * field the source leaves undefined or empty is the empty string here.
 */
module Records {
  import opened Utils

  /** The movement kinds the replay recognises; any other `type` string is `Unlisted`. */
  datatype Kind =
    | Receive | Issue | TransferOut | TransferIn | ReturnOut
    | AdjustmentIn | AdjustmentOut | ProductionIn | ProductionOut
    | Unlisted

  function KindName(k: Kind): string
  {
    match k
    case Receive => "receive"
    case Issue => "issue"
    case TransferOut => "transfer_out"
    case TransferIn => "transfer_in"
    case ReturnOut => "return_out"
    case AdjustmentIn => "adjustment_in"
    case AdjustmentOut => "adjustment_out"
    case ProductionIn => "production_in"
    case ProductionOut => "production_out"
    case Unlisted => ""
  }

  /** Reads a row's `type` string into a kind (the `switch (t.type)` of calculations.js:77-102). */
  function ParseKind(s: string): Kind
  {
    if s == "receive" then Receive
    else if s == "issue" then Issue
    else if s == "transfer_out" then TransferOut
    else if s == "transfer_in" then TransferIn
    else if s == "return_out" then ReturnOut
    else if s == "adjustment_in" then AdjustmentIn
    else if s == "adjustment_out" then AdjustmentOut
    else if s == "production_in" then ProductionIn
    else if s == "production_out" then ProductionOut
    else Unlisted
  }

  /** Every listed kind is read back from its own name, and no other text names it. */
  lemma ParseKindName(k: Kind, s: string)
    ensures k != Unlisted ==> ParseKind(KindName(k)) == k
    ensures ParseKind(s) != Unlisted ==> KindName(ParseKind(s)) == s
  {
  }

  /** One row of `state.transactions`. */
  datatype Tx = Tx(
    kind: Kind,
    itemCode: string,
    quantity: Number,
    cost: Number,
    price: Number,
    branchCode: string,
    fromBranchCode: string,
    toBranchCode: string,
    date: int,
    batchId: string,
    ref: string,
    isApproved: Flag,
    isDeleted: Flag,
    status: string,
    supplierCode: string,
    invoiceNumber: string)

  /** A row with every field absent; rows are built from it by update. */
  const BlankTx: Tx := Tx(Unlisted, "", Undefined, Undefined, Undefined, "", "", "", 0, "", "", Unset, Unset, "", "", "")

  function TxDate(t: Tx): int { t.date }

  /** One row of `state.payments`. */
  datatype Payment = Payment(
    paymentId: string,
    supplierCode: string,
    invoiceNumber: string,
    amount: Number,
    payMethod: string,
    date: int)

  const OpeningBalance: string := "OPENING BALANCE"

  datatype Item = Item(code: string, name: string, cost: Number, priceA: Number, priceB: Number, priceC: Number)

  function ItemKey(i: Item): string { i.code }

  /** A branch; `priceCategory` is "" when the column is empty. */
  datatype Branch = Branch(code: string, priceCategory: string)

  function BranchKey(b: Branch): string { b.code }

  datatype Supplier = Supplier(code: string)

  function SupplierKey(s: Supplier): string { s.code }

  /** JavaScript's `a || b` on two text fields. */
  function OrElse(a: string, b: string): string
  {
    if a != "" then a else b
  }
}
