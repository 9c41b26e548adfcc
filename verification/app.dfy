/** The page's state and the two handlers with logic beyond a single list
    operation (src/App.tsx): applying the outcome of an AI extraction, and
    the validation that gates the spreadsheet export. */
module App {
  import opened Optional
  import opened Text
  import opened Excel
  import opened Ledger

  datatype Tab = Manual | Ai

  /** Everything the page keeps. `income` is the income text box: `None`
      for the empty box, `Some(v)` for a non-empty one whose numeric value
      is `v`. The manual handlers of the ledger module act on `expenses`,
      and typing into the income box replaces `income`. */
  datatype State = State(
    tab: Tab,
    income: Option<int>,
    expenses: seq<Expense>,
    aiInput: string,
    aiError: Option<string>,
    validationError: Option<string>)

  const MissingInputMessage: string := "Bạn vui lòng nhập thông tin thu nhập và chi tiêu nhé."
  const RetryMessage: string := "Xin lỗi, mình gặp chút khó khăn khi đọc dữ liệu. Bạn thử lại nhé!"
  const MissingDataMessage: string := "Bạn ơi, hãy nhập đầy đủ thu nhập và ít nhất một khoản chi tiêu trước khi xuất file nhé!"
  const IncompleteRowsMessage: string := "Hình như có khoản chi tiêu nào đó chưa có tên hoặc số tiền. Bạn kiểm tra lại giúp mình nhé!"

  /** Income, expenses and active tab agree: the part of the state an
      extraction either replaces or leaves alone. */
  predicate SameLedger(s: State, t: State) {
    s.income == t.income && s.expenses == t.expenses && s.tab == t.tab
  }

  // ---------------------------------------------------------------------
  // AI extraction

  /** The parsed reply of the language model. Every field may be absent;
      the schema asks for `expenses` but nothing enforces it. */
  datatype Extraction = Extraction(income: Option<int>, expenses: Option<seq<Line>>, error: Option<string>)

  /** What came back from the service: a transport or JSON parse failure,
      or a parsed object. */
  datatype Reply = Failed | Parsed(result: Extraction)

  /** JavaScript truthiness of an optional text: present and non-empty. */
  predicate Reported(error: Option<string>) {
    error.Some? && error.value != ""
  }

  /** JavaScript truthiness of an optional number: present and non-zero. */
  predicate Nonzero(income: Option<int>) {
    income.Some? && income.value != 0
  }

  /** The ids drawn for a reply: one fresh id per extracted expense. */
  predicate IdsFit(reply: Reply, ids: seq<Id>) {
    reply.Parsed? && reply.result.expenses.Some? ==>
      |ids| == |reply.result.expenses.value| && Distinct(ids)
  }

  /** Extracted lines turned into records, the `i`-th receiving `ids[i]`. */
  function WithIds(lines: seq<Line>, ids: seq<Id>): (r: seq<Expense>)
    requires |ids| == |lines|
    ensures |r| == |lines|
    ensures forall i :: 0 <= i < |r| ==>
              r[i].id == ids[i] && r[i].name == lines[i].name && r[i].amount == lines[i].amount
  {
    if lines == [] then []
    else [Expense(ids[0], lines[0].name, lines[0].amount)] + WithIds(lines[1..], ids[1..])
  }

  /** The "analyze" button, with the service's reply as an input. A blank
      prompt never reaches the service. An error of any kind leaves income,
      expenses and tab alone; a clean reply replaces the expense list
      wholesale, the income only when it is non-zero, and switches to the
      manual tab. */
  function AnalyzeAi(s: State, reply: Reply, ids: seq<Id>): (r: State)
    requires IdsFit(reply, ids)
    ensures r.aiInput == s.aiInput && r.validationError == s.validationError
    ensures IsBlank(s.aiInput) ==>
              SameLedger(r, s) && r.aiError == Some(MissingInputMessage)
    ensures !IsBlank(s.aiInput) && reply.Failed? ==>
              SameLedger(r, s) && r.aiError == Some(RetryMessage)
    ensures !IsBlank(s.aiInput) && reply.Parsed? && Reported(reply.result.error) ==>
              SameLedger(r, s) && r.aiError == reply.result.error
    ensures !IsBlank(s.aiInput) && reply.Parsed? && !Reported(reply.result.error) ==>
              && r.aiError == None
              && r.tab == Manual
              && r.income == (if Nonzero(reply.result.income) then reply.result.income else s.income)
              && (reply.result.expenses.None? ==> r.expenses == s.expenses)
              && (reply.result.expenses.Some? ==>
                    && Lines(r.expenses) == reply.result.expenses.value
                    && (forall i :: 0 <= i < |r.expenses| ==> r.expenses[i].id == ids[i])
                    && UniqueIds(r.expenses))
  {
    if Trim(s.aiInput) == [] then
      s.(aiError := Some(MissingInputMessage))
    else
      var pending := s.(aiError := None);
      match reply
      case Failed =>
        pending.(aiError := Some(RetryMessage))
      case Parsed(x) =>
        if Reported(x.error) then
          pending.(aiError := x.error)
        else
          var withIncome := if Nonzero(x.income) then pending.(income := x.income) else pending;
          var withExpenses :=
            if x.expenses.Some? then withIncome.(expenses := WithIds(x.expenses.value, ids))
            else withIncome;
          withExpenses.(tab := Manual)
  }

  /** A blank prompt never consults the service: the outcome is the same
      whatever the reply would have been. */
  lemma BlankInputIgnoresReply(s: State, reply1: Reply, ids1: seq<Id>, reply2: Reply, ids2: seq<Id>)
    requires IsBlank(s.aiInput)
    requires IdsFit(reply1, ids1) && IdsFit(reply2, ids2)
    ensures AnalyzeAi(s, reply1, ids1) == AnalyzeAi(s, reply2, ids2)
  {
  }

  /** Failed extractions never partially apply: whenever an advisory is
      shown, income, expenses and tab are as before, and whenever any of
      them changed, the advisory is cleared. */
  lemma AnalyzeAllOrNothing(s: State, reply: Reply, ids: seq<Id>)
    requires IdsFit(reply, ids)
    ensures AnalyzeAi(s, reply, ids).aiError.Some? ==> SameLedger(AnalyzeAi(s, reply, ids), s)
    ensures !SameLedger(AnalyzeAi(s, reply, ids), s) ==> AnalyzeAi(s, reply, ids).aiError == None
  {
  }

  /** The ledger invariant survives an extraction. */
  lemma AnalyzeKeepsUniqueIds(s: State, reply: Reply, ids: seq<Id>)
    requires IdsFit(reply, ids)
    requires UniqueIds(s.expenses)
    ensures UniqueIds(AnalyzeAi(s, reply, ids).expenses)
  {
  }

  /** A reply of income 15,000,000 and one expense "Rent" of 4,000,000. */
  lemma AnalyzeExample(s: State, id: Id)
    requires s.aiInput == "Lương 15tr, tiền nhà 4tr"
    ensures var r := AnalyzeAi(s, Parsed(Extraction(Some(15000000), Some([Line("Rent", 4000000)]), None)), [id]);
            && r.income == Some(15000000)
            && r.expenses == [Expense(id, "Rent", 4000000)]
            && r.tab == Manual
            && r.aiError == None
  {
    var reply := Parsed(Extraction(Some(15000000), Some([Line("Rent", 4000000)]), None));
    assert s.aiInput[0] == 'L' && !IsWhitespace('L');
    var r := AnalyzeAi(s, reply, [id]);
    assert r.expenses[0] == Expense(id, "Rent", 4000000);
  }

  // ---------------------------------------------------------------------
  // Export validation

  /** A row the export refuses: a blank name or a zero (missing) amount. */
  predicate Incomplete(x: Expense) {
    IsBlank(x.name) || x.amount == 0
  }

  /** `Incomplete` is the test `!e.name.trim() || !e.amount` of the page. */
  lemma IncompleteIsTrimTest(x: Expense)
    ensures Incomplete(x) <==> Trim(x.name) == [] || x.amount == 0
  {
  }

  /** `expenses.some(...)` over `Incomplete`. */
  function AnyIncomplete(e: seq<Expense>): (b: bool)
    ensures b <==> exists i :: 0 <= i < |e| && Incomplete(e[i])
  {
    if e == [] then false
    else if Incomplete(e[0]) then true
    else
      assert forall i :: 1 <= i < |e| ==> e[i] == e[1..][i - 1];
      AnyIncomplete(e[1..])
  }

  /** The outcome of the two validation stages, in their order. */
  datatype Verdict = MissingData | IncompleteRows | Ready

  /** First stage: the income box is set and there is an expense. Second
      stage: every expense has a non-blank name and a non-zero amount. */
  function Validate(income: Option<int>, e: seq<Expense>): (v: Verdict)
    ensures v == MissingData <==> income.None? || e == []
    ensures v == IncompleteRows <==>
              income.Some? && e != [] && exists i :: 0 <= i < |e| && Incomplete(e[i])
    ensures v == Ready <==>
              income.Some? && e != [] && forall i :: 0 <= i < |e| ==> !Incomplete(e[i])
  {
    if income.None? || |e| == 0 then MissingData
    else if AnyIncomplete(e) then IncompleteRows
    else Ready
  }

  /** The advisory each verdict shows; a passing export clears it. */
  function VerdictMessage(v: Verdict): Option<string> {
    match v
    case MissingData => Some(MissingDataMessage)
    case IncompleteRows => Some(IncompleteRowsMessage)
    case Ready => None
  }

  /** The state after the export button, and the table handed to the
      spreadsheet writer if the export went ahead. */
  datatype ExportOutcome = ExportOutcome(state: State, rows: Option<seq<Row>>)

  /** The export button: validate, set or clear the advisory, and on success
      hand over one numbered row per expense followed by the total-expense,
      balance and income rows. Nothing but the advisory changes. */
  function HandleExport(s: State): (x: ExportOutcome)
    ensures x.rows.Some? <==> Validate(s.income, s.expenses) == Ready
    ensures Validate(s.income, s.expenses) == MissingData ==>
              x == ExportOutcome(s.(validationError := Some(MissingDataMessage)), None)
    ensures Validate(s.income, s.expenses) == IncompleteRows ==>
              x == ExportOutcome(s.(validationError := Some(IncompleteRowsMessage)), None)
    ensures Validate(s.income, s.expenses) == Ready ==>
              x == ExportOutcome(s.(validationError := None),
                                 Some(Project(NumIncome(s.income), s.expenses, Sum(s.expenses),
                                              NumIncome(s.income) - Sum(s.expenses))))
  {
    var v := Validate(s.income, s.expenses);
    var next := s.(validationError := VerdictMessage(v));
    if v == Ready then
      ExportOutcome(next, Some(Project(NumIncome(s.income), s.expenses, Sum(s.expenses), NumIncome(s.income) - Sum(s.expenses))))
    else
      ExportOutcome(next, None)
  }

  /** What a passing export hands to the spreadsheet writer, row by row:
      the expenses' names and amounts numbered from 1, then the total
      expense, the balance and the income, each under its label with an
      empty position. */
  lemma ExportedRows(s: State)
    requires HandleExport(s).rows.Some?
    ensures var rows := HandleExport(s).rows.value;
            var n := |s.expenses|;
            && |rows| == n + 3
            && Unproject(rows[..n]) == Lines(s.expenses)
            && (forall i :: 0 <= i < n ==> rows[i].position == Number(i + 1))
            && rows[n] == Row(Empty, TotalExpenseLabel, Sum(s.expenses))
            && rows[n + 1] == Row(Empty, BalanceLabel, NumIncome(s.income) - Sum(s.expenses))
            && rows[n + 2] == Row(Empty, IncomeLabel, NumIncome(s.income))
  {
    var income := NumIncome(s.income);
    var total := Sum(s.expenses);
    ProjectRecoversLines(income, s.expenses, total, income - total);
  }

  /** An export with the income box empty is refused with the first
      advisory, whatever the expenses. */
  lemma ExportWithoutIncome(s: State)
    requires s.income.None?
    ensures HandleExport(s).rows == None
    ensures HandleExport(s).state.validationError == Some(MissingDataMessage)
  {
  }

  /** An export with a nameless expense, income set, is refused with the
      second advisory. */
  lemma ExportWithNamelessExpense(s: State, k: nat)
    requires s.income.Some?
    requires k < |s.expenses| && s.expenses[k].name == ""
    ensures HandleExport(s).rows == None
    ensures HandleExport(s).state.validationError == Some(IncompleteRowsMessage)
  {
  }
}
