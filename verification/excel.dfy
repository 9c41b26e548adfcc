/** The expense record and the row table handed to the spreadsheet writer
    (src/utils/excel.ts). Sheet creation and the file download are not part
    of this model. */
module Excel {

  /** Opaque identifier of an expense record. */
  type Id = string

  /** One expense line of the ledger. Amounts are whole VND; 0 stands for a
      missing or non-numeric amount. */
  datatype Expense = Expense(id: Id, name: string, amount: int)

  /** What an expense shows to the user: its name and amount, without id. */
  datatype Line = Line(name: string, amount: int)

  /** The visible part of a record sequence, in order. */
  function Lines(e: seq<Expense>): (ls: seq<Line>)
    ensures |ls| == |e|
    ensures forall i :: 0 <= i < |e| ==> ls[i].name == e[i].name && ls[i].amount == e[i].amount
  {
    seq(|e|, i requires 0 <= i < |e| => Line(e[i].name, e[i].amount))
  }

  /** The 'STT' column: a 1-based position, or empty on summary rows. */
  datatype Position = Number(n: nat) | Empty

  /** One spreadsheet row: position, description, amount in VND. */
  datatype Row = Row(position: Position, content: string, amount: int)

  const TotalExpenseLabel: string := "Tổng cộng chi tiêu"
  const BalanceLabel: string := "Số dư cuối tháng"
  const IncomeLabel: string := "Tổng thu nhập"

  /** The numbered rows for `e`, the first one numbered `first`. */
  function ItemRows(e: seq<Expense>, first: nat): (rows: seq<Row>)
    ensures |rows| == |e|
    ensures forall i :: 0 <= i < |e| ==>
              rows[i] == Row(Number(first + i), e[i].name, e[i].amount)
  {
    if e == [] then [] else [Row(Number(first), e[0].name, e[0].amount)] + ItemRows(e[1..], first + 1)
  }

  /** The three summary rows, in their fixed order. */
  function SummaryRows(income: int, totalExpense: int, balance: int): seq<Row> {
    [ Row(Empty, TotalExpenseLabel, totalExpense),
      Row(Empty, BalanceLabel, balance),
      Row(Empty, IncomeLabel, income) ]
  }

  /** The whole table: one row per expense, numbered from 1, then the
      total-expense, balance and income rows with an empty position. */
  function Project(income: int, e: seq<Expense>, totalExpense: int, balance: int): (rows: seq<Row>)
    ensures |rows| == |e| + 3
    ensures forall i :: 0 <= i < |e| ==>
              && rows[i].position == Number(i + 1)
              && rows[i].content == e[i].name
              && rows[i].amount == e[i].amount
    ensures rows[|e|] == Row(Empty, TotalExpenseLabel, totalExpense)
    ensures rows[|e| + 1] == Row(Empty, BalanceLabel, balance)
    ensures rows[|e| + 2] == Row(Empty, IncomeLabel, income)
  {
    ItemRows(e, 1) + SummaryRows(income, totalExpense, balance)
  }

  /** Reads the expense lines back out of numbered rows. */
  function Unproject(rows: seq<Row>): (ls: seq<Line>)
    ensures |ls| == |rows|
  {
    seq(|rows|, i requires 0 <= i < |rows| => Line(rows[i].content, rows[i].amount))
  }

  /** The numbered part of the table records exactly the expense lines:
      reading it back gives the names and amounts in order. */
  lemma ProjectRecoversLines(income: int, e: seq<Expense>, totalExpense: int, balance: int)
    ensures Unproject(Project(income, e, totalExpense, balance)[..|e|]) == Lines(e)
  {
  }

  /** The numbered part of the table depends only on the expenses, never on
      the income or the totals. */
  lemma ProjectPrefixIgnoresTotals(e: seq<Expense>, income: int, total: int, balance: int,
                                   income': int, total': int, balance': int)
    ensures Project(income, e, total, balance)[..|e|] == Project(income', e, total', balance')[..|e|]
  {
  }

  /** Ids never reach the table: two ledgers with the same lines project to
      the same rows. */
  lemma ProjectIgnoresIds(e1: seq<Expense>, e2: seq<Expense>, income: int, total: int, balance: int)
    requires Lines(e1) == Lines(e2)
    ensures Project(income, e1, total, balance) == Project(income, e2, total, balance)
  {
  }

  /** The table for a ledger of Rent 4,000,000 and Food 3,000,000 against an
      income of 15,000,000. */
  lemma ProjectExample()
    ensures Project(15000000, [Expense("a", "Rent", 4000000), Expense("b", "Food", 3000000)], 7000000, 8000000)
         == [ Row(Number(1), "Rent", 4000000),
              Row(Number(2), "Food", 3000000),
              Row(Empty, TotalExpenseLabel, 7000000),
              Row(Empty, BalanceLabel, 8000000),
              Row(Empty, IncomeLabel, 15000000) ]
  {
  }
}
