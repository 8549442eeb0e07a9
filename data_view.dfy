/** The data screen: the CSV export of the transactions and the clearing of all data. */
module DataView {
  import opened Options
  import opened Types
  import opened Text
  import opened Numbers
  import opened Dates

  /** The header line's seven columns. */
  const Header: seq<string> := ["ID", "Data", "Descrição", "Valor", "Tipo", "Método", "Recorrente"]

  /** How the recurring flag is written. */
  function RecurringText(b: bool): (s: string)
    ensures s == "Sim" <==> b
  {
    if b then "Sim" else "Não"
  }

  /** The seven fields of a transaction's line; the amount is written as `String(amount)` writes it. */
  function Row(t: Transaction): (r: seq<string>)
    ensures |r| == |Header|
  {
    [t.id, t.date, t.description, AmountText(t.amount), TypeName(t.kind), t.paymentMethod, RecurringText(t.isRecurring)]
  }

  /** The header followed by one line per transaction, in list order. */
  function Lines(ts: seq<Transaction>): (r: seq<seq<string>>)
    ensures |r| == |ts| + 1 && r[0] == Header
    ensures forall i :: 0 <= i < |ts| ==> r[i + 1] == Row(ts[i])
  {
    [Header] + seq(|ts|, i requires 0 <= i < |ts| => Row(ts[i]))
  }

  /** Each line's fields joined by `,`, with no quoting or escaping. */
  function LineTexts(ts: seq<Transaction>): (texts: seq<string>)
    ensures |texts| == |ts| + 1
    ensures forall i :: 0 <= i < |texts| ==> texts[i] == Join(Lines(ts)[i], ',')
  {
    var lines := Lines(ts);
    seq(|lines|, i requires 0 <= i < |lines| => Join(lines[i], ','))
  }

  /** The lines joined by `\n`. */
  function CsvBody(ts: seq<Transaction>): string {
    Join(LineTexts(ts), '\n')
  }

  const CsvPrefix := "data:text/csv;charset=utf-8,"

  /** `csvContent`: the data-URI prefix, and after it the body, which is what the round trip below reads. */
  function CsvContent(ts: seq<Transaction>): (s: string)
    ensures |s| >= |CsvPrefix| && s[..|CsvPrefix|] == CsvPrefix && s[|CsvPrefix|..] == CsvBody(ts)
  {
    CsvPrefix + CsvBody(ts)
  }

  /** The download name of the data screen's export. */
  function CsvFileName(today: Date): (name: string)
    requires Formattable(today)
    ensures |name| == |"fintrack_export_"| + 10 + |".csv"|
    ensures name[..16] == "fintrack_export_" && name[16..26] == FormatIso(today) && name[26..] == ".csv"
  {
    "fintrack_export_" + FormatIso(today) + ".csv"
  }

  /** A field that cannot break the line and field structure. */
  predicate Plain(s: string) {
    ',' !in s && '\n' !in s
  }

  /** A transaction whose free-text fields are plain. */
  predicate Exportable(t: Transaction) {
    Plain(t.id) && Plain(t.date) && Plain(t.description) && Plain(t.paymentMethod)
  }

  /** What a line of the export keeps of a transaction: everything but the category. */
  datatype Record = Record(id: string, date: string, description: string, amount: int,
                           kind: TransactionType, paymentMethod: string, isRecurring: bool)

  function RecordOf(t: Transaction): Record {
    Record(t.id, t.date, t.description, t.amount, t.kind, t.paymentMethod, t.isRecurring)
  }

  /** Reads the fields of a line back; None when they cannot be the fields of an exported transaction. */
  function ReadRow(fields: seq<string>): (r: Option<Record>)
    ensures r.Some? ==> |fields| == |Header|
  {
    if |fields| != 7 then None
    else
      var amount := ParseCents(fields[3]);
      var kind := if fields[4] == "INCOME" then Some(TransactionType.Income)
                  else if fields[4] == "EXPENSE" then Some(Expense) else None;
      if amount.None? || kind.None? || (fields[6] != "Sim" && fields[6] != "Não") then None
      else Some(Record(fields[0], fields[1], fields[2], amount.value, kind.value, fields[5], fields[6] == "Sim"))
  }

  /** Every field of a transaction's line is plain, when its free-text fields are. */
  lemma RowPlain(t: Transaction)
    requires Exportable(t)
    ensures forall field :: field in Row(t) ==> Plain(field)
  {
    AmountTextAlphabet(t.amount);
    assert Plain(AmountText(t.amount));
    assert Plain(TypeName(t.kind));
    assert Plain(RecurringText(t.isRecurring));
  }

  /** A line of the export read back gives the transaction without its category. */
  lemma ReadRowOfRow(t: Transaction)
    ensures ReadRow(Row(t)) == Some(RecordOf(t))
  {
    RowDescribes(t);
    ReadRowFields(Row(t), RecordOf(t));
  }

  /** The fields of a line carry, one by one, what a record holds. */
  predicate Describes(fields: seq<string>, r: Record) {
    TextFieldsMatch(fields, r) && ParseCents(fields[3]) == Some(r.amount)
  }

  /** Every field but the amount carries the record's value as text. */
  predicate TextFieldsMatch(fields: seq<string>, r: Record) {
    |fields| == 7 && fields[0] == r.id && fields[1] == r.date && fields[2] == r.description
    && fields[4] == TypeName(r.kind) && fields[5] == r.paymentMethod && fields[6] == RecurringText(r.isRecurring)
  }

  lemma RowDescribes(t: Transaction)
    ensures Describes(Row(t), RecordOf(t))
  {
    RowTextFields(t);
    RowAmountParses(t);
  }

  lemma RowTextFields(t: Transaction)
    ensures TextFieldsMatch(Row(t), RecordOf(t))
  {
  }

  lemma RowAmountParses(t: Transaction)
    ensures ParseCents(Row(t)[3]) == Some(t.amount)
  {
    ParseAmountText(t.amount);
  }

  /** Seven fields whose amount field parses to the record's amount read back as the record. */
  lemma ReadRowFields(fields: seq<string>, r: Record)
    requires Describes(fields, r)
    ensures ReadRow(fields) == Some(r)
  {
  }

  /** A line of plain fields holds no line break and splits back into its fields. */
  lemma LinePlain(ts: seq<Transaction>, i: int)
    requires forall t :: t in ts ==> Exportable(t)
    requires 0 <= i <= |ts|
    ensures '\n' !in LineTexts(ts)[i] && Split(LineTexts(ts)[i], ',') == Lines(ts)[i]
  {
    var line := Lines(ts)[i];
    if i == 0 {
      assert forall field :: field in Header ==> Plain(field);
    } else {
      assert ts[i - 1] in ts;
      RowPlain(ts[i - 1]);
    }
    JoinExcludes(line, ',', '\n');
    SplitJoin(line, ',');
  }

  /**
   * When no free-text field holds a comma or a line break, the export splits back into the header and
   * one line per transaction, and each line reads back as its transaction (category aside).
   */
  lemma CsvRoundTrip(ts: seq<Transaction>)
    requires forall t :: t in ts ==> Exportable(t)
    ensures var lines := Split(CsvBody(ts), '\n');
      |lines| == |ts| + 1 && Split(lines[0], ',') == Header
      && forall i :: 0 <= i < |ts| ==> ReadRow(Split(lines[i + 1], ',')) == Some(RecordOf(ts[i]))
  {
    var texts := LineTexts(ts);
    forall piece | piece in texts
      ensures '\n' !in piece
    {
      var i :| 0 <= i < |texts| && texts[i] == piece;
      LinePlain(ts, i);
    }
    SplitJoin(texts, '\n');
    assert Split(CsvBody(ts), '\n') == texts;
    LinePlain(ts, 0);
    forall i | 0 <= i < |ts|
      ensures ReadRow(Split(texts[i + 1], ',')) == Some(RecordOf(ts[i]))
    {
      LineReadsBack(ts, i);
    }
  }

  /** The line of the i-th transaction reads back as that transaction. */
  lemma LineReadsBack(ts: seq<Transaction>, i: int)
    requires forall t :: t in ts ==> Exportable(t)
    requires 0 <= i < |ts|
    ensures ReadRow(Split(LineTexts(ts)[i + 1], ',')) == Some(RecordOf(ts[i]))
  {
    LinePlain(ts, i + 1);
    ReadRowOfRow(ts[i]);
  }
}
