/**
 * The monthly PDF statement: the summary totals, the colour of the balance, the table rows and the file
 * name. Only the values handed to the PDF library are modelled, not the drawing.
 */
module ExportPdf {
  import opened Options
  import opened Types
  import opened Numbers
  import opened Dates
  import opened Aggregation

  datatype Rgb = Rgb(r: nat, g: nat, b: nat)

  /** `#0075EB`. */
  const PrimaryColor := Rgb(0, 117, 235)
  const Red := Rgb(239, 68, 68)

  /** The balance is drawn in the primary colour when it is not negative, in red otherwise. */
  function BalanceColor(balance: int): (c: Rgb)
    ensures c == PrimaryColor <==> balance >= 0
    ensures c == Red <==> balance < 0
  {
    if balance >= 0 then PrimaryColor else Red
  }

  /** The table's header. */
  const Head: seq<string> := ["Data", "Descrição", "Categoria", "Tipo", "Método", "Valor"]

  /** A column width: a number of millimetres, or `auto`. */
  datatype Width = Fixed(mm: nat) | Auto

  /** One width per header column; only the description column stretches. */
  const ColumnWidths: seq<Width> := [Fixed(22), Auto, Fixed(30), Fixed(20), Fixed(25), Fixed(30)]

  lemma ColumnWidthsFitHead()
    ensures |ColumnWidths| == |Head|
    ensures forall i :: 0 <= i < |ColumnWidths| ==> (ColumnWidths[i].Auto? <==> Head[i] == "Descrição")
  {
  }

  /** A table cell: text, or the amount cell with its sign and its weight. */
  datatype Cell = Plain(text: string) | AmountCell(sign: char, cents: int, bold: bool)

  /**
   * The date cell, as `toLocaleDateString('pt-PT')` writes it: two-digit day, two-digit month and the
   * year without padding, separated by `/`, for a date that reads as a calendar day; `Invalid Date` for
   * any other text.
   */
  function DateCell(date: string): (cell: string)
    ensures ParseIso(date).Some? ==> ShowsDate(cell, ParseIso(date).value)
    ensures ParseIso(date).None? ==> cell == "Invalid Date"
  {
    match ParseIso(date)
    case Some(d) =>
      DayMonthYearShowsDate(d);
      DayMonthYear(d)
    case None => "Invalid Date"
  }

  /**
   * `cell` is `dd/mm/y…` with the day, the month and the year of `d` read back from its digits; the year
   * has no leading zero unless it is the single digit `0`.
   */
  predicate ShowsDate(cell: string, d: Date) {
    |cell| >= 7 && cell[2] == '/' && cell[5] == '/'
    && AllDigits(cell[..2]) && AllDigits(cell[3..5]) && AllDigits(cell[6..])
    && Value(cell[..2]) == d.day && Value(cell[3..5]) == d.month && Value(cell[6..]) == d.year
    && (cell[6] == '0' ==> |cell| == 7)
  }

  /** The text of a calendar day: padded day and month, unpadded year. */
  function DayMonthYear(d: Date): string
    requires Formattable(d)
  {
    Digits(d.day, 2) + "/" + Digits(d.month, 2) + "/" + NatText(d.year)
  }

  lemma DayMonthYearShowsDate(d: Date)
    requires Formattable(d)
    ensures ShowsDate(DayMonthYear(d), d)
  {
    var dd, mm, yy := Digits(d.day, 2), Digits(d.month, 2), NatText(d.year);
    var cell := DayMonthYear(d);
    assert cell == dd + "/" + mm + "/" + yy;
    assert cell[..2] == dd && cell[3..5] == mm && cell[6..] == yy;
    assert cell[6] == yy[0];
    ValueOfDigits(d.day, 2);
    ValueOfDigits(d.month, 2);
    ValueOfNatText(d.year);
    NatTextNoLeadingZero(d.year);
  }

  /** Two readable dates that print the same cell are the same day. */
  lemma DateCellInjective(a: string, b: string)
    requires ParseIso(a).Some? && ParseIso(b).Some?
    requires DateCell(a) == DateCell(b)
    ensures ParseIso(a) == ParseIso(b)
  {
  }

  /** The category cell: the category's name, or `Geral` when it does not resolve or has no name. */
  function CategoryCell(cs: seq<Category>, id: string): string {
    CategoryField(cs, id, (c: Category) => c.name, "Geral")
  }

  /** The type cell. */
  function TypeLabel(k: TransactionType): (s: string)
    ensures s == "Receita" <==> k.Income?
    ensures s == "Despesa" <==> k.Expense?
  {
    if k == TransactionType.Income then "Receita" else "Despesa"
  }

  /**
   * One row of `tableData`: a cell per header column, the amount signed by the type and bold for income.
   */
  function TableRow(cs: seq<Category>, t: Transaction): (row: seq<Cell>)
    ensures |row| == |Head| == 6
    ensures row[0] == Plain(DateCell(t.date))
    ensures row[1] == Plain(t.description) && row[4] == Plain(t.paymentMethod)
    ensures row[2] == Plain(CategoryCell(cs, t.categoryId)) && row[3] == Plain(TypeLabel(t.kind))
    ensures FindCategory(cs, t.categoryId).None? ==> row[2] == Plain("Geral")
    ensures FindCategory(cs, t.categoryId).Some? && FindCategory(cs, t.categoryId).value.name != "" ==>
      row[2] == Plain(FindCategory(cs, t.categoryId).value.name)
    ensures row[5].AmountCell? && row[5].cents == t.amount
    ensures row[5].sign == '+' <==> t.kind.Income?
    ensures row[5].bold <==> t.kind.Income?
  {
    [Plain(DateCell(t.date)), Plain(t.description), Plain(CategoryCell(cs, t.categoryId)),
     Plain(TypeLabel(t.kind)), Plain(t.paymentMethod),
     AmountCell(SignPrefix(t.kind), t.amount, t.kind == TransactionType.Income)]
  }

  /** Every row has the six columns and ends with an amount cell. */
  predicate WellFormedTable(rows: seq<seq<Cell>>) {
    forall i :: 0 <= i < |rows| ==> |rows[i]| == 6 && rows[i][5].AmountCell?
  }

  /** `tableData`: one row per transaction, in list order. */
  function TableData(cs: seq<Category>, ts: seq<Transaction>): (rows: seq<seq<Cell>>)
    ensures |rows| == |ts| && WellFormedTable(rows)
    ensures forall i :: 0 <= i < |ts| ==> rows[i] == TableRow(cs, ts[i])
  {
    seq(|ts|, i requires 0 <= i < |ts| => TableRow(cs, ts[i]))
  }

  /** The amount column read with its signs. */
  function SignedColumn(rows: seq<seq<Cell>>): int
    requires WellFormedTable(rows)
  {
    if rows == [] then 0
    else
      assert WellFormedTable(rows[1..]) by {
        forall i | 0 <= i < |rows[1..]| ensures |rows[1..][i]| == 6 && rows[1..][i][5].AmountCell? {
          assert rows[1..][i] == rows[i + 1];
        }
      }
      (if rows[0][5].sign == '+' then rows[0][5].cents else -rows[0][5].cents) + SignedColumn(rows[1..])
  }

  /** The signed amounts of the table add up to the balance printed above it. */
  lemma {:induction false} TableMatchesBalance(cs: seq<Category>, ts: seq<Transaction>)
    ensures SignedColumn(TableData(cs, ts)) == Summary(ts).balance
  {
    if ts != [] {
      TableMatchesBalance(cs, ts[1..]);
      assert TableData(cs, ts)[1..] == TableData(cs, ts[1..]);
    }
  }

  /** `Finance-Tracker_Extrato_<ISO date>.pdf`. */
  function FileName(today: Date): (name: string)
    requires Formattable(today)
    ensures |name| == |"Finance-Tracker_Extrato_"| + 10 + |".pdf"|
    ensures name[..24] == "Finance-Tracker_Extrato_" && name[24..34] == FormatIso(today) && name[34..] == ".pdf"
  {
    "Finance-Tracker_Extrato_" + FormatIso(today) + ".pdf"
  }

  /** Everything the statement is built from. */
  datatype Report = Report(totals: Totals, balanceColor: Rgb, rows: seq<seq<Cell>>, fileName: string)

  /**
   * `exportTransactionsToPdf`: its totals are the dashboard's totals of the same list, the balance colour
   * follows the balance's sign, and the table holds one row per transaction.
   */
  function BuildReport(cs: seq<Category>, ts: seq<Transaction>, today: Date): (r: Report)
    requires Formattable(today)
    ensures r.totals == Summary(ts) && r.totals.balance == NetFlow(ts)
    ensures r.balanceColor == PrimaryColor <==> NetFlow(ts) >= 0
    ensures |r.rows| == |ts| && forall i :: 0 <= i < |ts| ==> r.rows[i] == TableRow(cs, ts[i])
    ensures WellFormedTable(r.rows) && SignedColumn(r.rows) == r.totals.balance
    ensures r.fileName == FileName(today)
  {
    TableMatchesBalance(cs, ts);
    var totals := Summary(ts);
    Report(totals, BalanceColor(totals.balance), TableData(cs, ts), FileName(today))
  }
}
