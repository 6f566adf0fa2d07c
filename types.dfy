/** The records of the tracker: a transaction, a project, and a project's metrics. */
module Types {

  /** The `type` field of a transaction: `'income' | 'expense'`. */
  datatype TxType = Income | Expense

  /**
   * One ledger entry. `amount` is a JS number, modelled as an exact real;
   * `date` is the ISO timestamp text the entry was created with.
   */
  datatype Transaction = Transaction(
    id: string,
    amount: real,
    description: string,
    date: string,
    kind: TxType)

  /** A named project; it owns its transactions, in insertion order. */
  datatype Project = Project(
    id: string,
    name: string,
    description: string,
    createdAt: string,
    transactions: seq<Transaction>)

  /** The five figures derived from one project's transactions. */
  datatype ProjectMetrics = ProjectMetrics(
    totalIncome: real,
    totalExpense: real,
    profit: real,
    profitMargin: real,
    roi: real)
}
