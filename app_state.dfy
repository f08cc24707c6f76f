/**
 * The parts of the shared `state` object (state.js) that the core reads and
 * changes: the master data, the append-only transaction and payment logs, and
 * the working lists of the operations screens.
 */
module AppState {
  import opened Utils
  import opened Records

  /** A row of an operations working list (receive, transfer, return or
      adjustment). A quantity entered as '' is `NaN` until it is edited. */
  datatype Line = Line(itemCode: string, quantity: Number, cost: Number, physicalCount: Number)

  /** The working lists a modal selection can be merged into. */
  datatype ListName = ReceiveList | TransferList | ReturnList | AdjustmentList

  class Store {
    const branches: seq<Branch>
    const items: seq<Item>
    const suppliers: seq<Supplier>
    var transactions: seq<Tx>
    var payments: seq<Payment>
    var receiveList: seq<Line>
    var transferList: seq<Line>
    var returnList: seq<Line>
    var adjustmentList: seq<Line>

    constructor(branches: seq<Branch>, items: seq<Item>, suppliers: seq<Supplier>,
                transactions: seq<Tx>, payments: seq<Payment>)
      ensures this.branches == branches && this.items == items && this.suppliers == suppliers
      ensures this.transactions == transactions && this.payments == payments
      ensures receiveList == [] && transferList == [] && returnList == [] && adjustmentList == []
    {
      this.branches := branches;
      this.items := items;
      this.suppliers := suppliers;
      this.transactions := transactions;
      this.payments := payments;
      receiveList, transferList, returnList, adjustmentList := [], [], [], [];
    }

    function List(name: ListName): seq<Line>
      reads this
    {
      match name
      case ReceiveList => receiveList
      case TransferList => transferList
      case ReturnList => returnList
      case AdjustmentList => adjustmentList
    }

    /** Replaces one working list and leaves the other three as they were. */
    method SetList(name: ListName, lines: seq<Line>)
      modifies this
      ensures List(name) == lines
      ensures forall other | other != name :: List(other) == old(List(other))
      ensures transactions == old(transactions) && payments == old(payments)
    {
      match name {
        case ReceiveList => receiveList := lines;
        case TransferList => transferList := lines;
        case ReturnList => returnList := lines;
        case AdjustmentList => adjustmentList := lines;
      }
    }
  }
}
