/** The relational rows the core reads and writes (`documents`,
    `transactions`, `budgets`). */
module Records {
  import opened Common

  datatype Status = Pending | Processing | Completed | Failed {
    /** Position in the lifecycle; terminal states share the last rank. */
    function Rank(): nat {
      match this
      case Pending => 0
      case Processing => 1
      case Completed => 2
      case Failed => 2
    }

    predicate Terminal() {
      Completed? || Failed?
    }
  }

  /** The `documents` row. The worker never sets its owner. */
  datatype Document = Document(
    id: nat,
    filename: string,
    uploadDate: int,
    status: Status,
    userId: Option<nat>)

  /** The `transactions` row; `date` is a day number (`date.toordinal()`). */
  datatype TxRow = TxRow(
    documentId: nat,
    date: int,
    merchant: string,
    amount: real,
    currency: string,
    category: Option<string>)

  /** The `budgets` row: one spending limit of one user for one category. */
  datatype Budget = Budget(id: nat, userId: nat, category: string, amount: real)
}
