/**
 How the pieces meet in one session: the loaded table, with its derived
 columns, is what the tree is evaluated on, row by row, under the column
 names `load_csv` (tree.py) gives them.
 */
module Session {
  import opened Values
  import opened Text
  import opened Tree
  import opened Batch
  import opened Enrichment

  /** The date column, a pandas timestamp once loaded. */
  const DateColumn: string := "Trans Date"

  /** The columns that hold Python strings. */
  const TextColumns: set<string> := {"Description/Narration", "Transaction Type"}

  /** The columns that hold numbers: the parsed amounts and every derived figure. */
  const NumberColumns: set<string> := {
    DebitColumn, CreditColumn, BalanceColumn, "Previous Balance INR", "Transaction Amount",
    "Daily Transaction Count", "Daily Debit Total", "Daily Credit Total",
    "Transaction Sequence", "Transaction to Balance Ratio"}

  /**
   The cells of an enriched row, by the column names of the loaded table.
   The table has exactly the date, text and number columns; the date is a
   timestamp, the text columns are strings and the rest are numbers.
   */
  function ToRecord(e: Enriched): (r: Record)
    ensures r.Keys == {DateColumn} + TextColumns + NumberColumns
    ensures r[DateColumn] == Stamp(e.stamp)
    ensures forall c :: c in TextColumns ==> c in r && r[c].Str?
    ensures forall c :: c in NumberColumns ==> c in r && r[c].Num?
    ensures r["Transaction Type"] == Str(e.kind)
  {
    map[
      DateColumn := Stamp(e.stamp),
      "Description/Narration" := Str(e.description),
      DebitColumn := Num(e.debit),
      CreditColumn := Num(e.credit),
      BalanceColumn := Num(e.balance),
      "Previous Balance INR" := Num(e.previousBalance),
      "Transaction Amount" := Num(e.amount),
      "Transaction Type" := Str(e.kind),
      "Daily Transaction Count" := Num(e.dailyCount as real),
      "Daily Debit Total" := Num(e.dailyDebit),
      "Daily Credit Total" := Num(e.dailyCredit),
      "Transaction Sequence" := Num(e.sequence as real),
      "Transaction to Balance Ratio" := Num(e.ratio)
    ]
  }

  /**
   A `>=` or `<=` split on the date column raises `TypeError` on every
   loaded row once its value parses: a timestamp does not compare with a
   float.
   */
  lemma DateBoundRaises(e: Enriched, condition: string, value: string, parseNum: NumberParser)
    requires IsBound(condition) && parseNum(value).Some?
    ensures Route(DateColumn, condition, value, ToRecord(e), parseNum) == Err(TypeError(DateColumn))
  {
  }

  /** An `==` split on a number column sends every loaded row right. */
  lemma NumberEqualityGoesRight(e: Enriched, c: string, value: string, parseNum: NumberParser)
    requires c in NumberColumns
    ensures Route(c, "==", value, ToRecord(e), parseNum) == Ok(GoRight)
  {
  }

  /** The loaded table as `iterrows` yields it: index label and cells, in table order. */
  function TableRows(rows: seq<Enriched>): (r: seq<Row>)
    ensures |r| == |rows|
    ensures forall i :: 0 <= i < |rows| ==> r[i].index == rows[i].index && r[i].fields == ToRecord(rows[i])
  {
    seq(|rows|, i requires 0 <= i < |rows| => Row(rows[i].index, ToRecord(rows[i])))
  }

  /**
   `predict_gui` on the loaded table: each row reaches the tree as its
   record of typed cells, and entry i pairs table row i's index label with
   the tree's answer on that record.
   */
  method PredictTable(table: seq<Enriched>, root: Option<Node>, parseNum: NumberParser)
    returns (r: Result<seq<Prediction>, BatchError>)
    ensures r == Err(EmptyTable) <==> |table| == 0
    ensures r == Err(NoTree) <==> |table| > 0 && root.None?
    ensures r.Ok? <==>
              |table| > 0 && root.Some? && forall i :: 0 <= i < |table| ==> Predict(root.value, ToRecord(table[i]), parseNum).Ok?
    ensures r.Ok? ==> |r.value| == |table|
    ensures r.Ok? ==> forall i :: 0 <= i < |table| ==>
                        r.value[i] == Prediction(table[i].index, Predict(root.value, ToRecord(table[i]), parseNum).value)
  {
    r := PredictAll(TableRows(table), root, parseNum);
  }

  /**
   A table that loaded has one row per CSV row and at least one row, so
   the empty-table guard of `predict_gui` never fires on it.
   */
  lemma LoadedTablePassesGuard(raw: seq<RawRow>, parseNum: NumberParser, parseDate: DateParser)
    requires Load(raw, parseNum, parseDate).Ok?
    ensures |Load(raw, parseNum, parseDate).value| == |raw| > 0
  {
    var rows := Enrich(raw, parseNum, parseDate).value;
    assert |multiset(Load(raw, parseNum, parseDate).value)| == |multiset(rows)|;
  }

  /**
   The IMPS tree never raises on a loaded table: every entry is answered,
   "Fraud" exactly for the rows whose description mentions "IMPS" and not
   "AU QR".
   */
  method FlagImps(raw: seq<RawRow>, parseNum: NumberParser, parseDate: DateParser)
    returns (r: Result<seq<Prediction>, BatchError>)
    requires Load(raw, parseNum, parseDate).Ok?
    ensures r.Ok? && |r.value| == |Load(raw, parseNum, parseDate).value|
    ensures forall i :: 0 <= i < |r.value| ==>
              var row := Load(raw, parseNum, parseDate).value[i];
              r.value[i].index == row.index &&
              (r.value[i].prediction == "Fraud" <==> !Mentions(row.description, "AU QR") && Mentions(row.description, "IMPS"))
  {
    var table := Load(raw, parseNum, parseDate).value;
    LoadedTablePassesGuard(raw, parseNum, parseDate);
    forall i | 0 <= i < |table|
      ensures Predict(ImpsTree, ToRecord(table[i]), parseNum).Ok?
    {
      LoadedRowClassified(raw, parseNum, parseDate, i);
      ImpsTreeFlagsImps(table[i], parseNum);
    }
    r := PredictTable(table, Some(ImpsTree), parseNum);
    forall i | 0 <= i < |r.value|
      ensures r.value[i].prediction == "Fraud" <==> !Mentions(table[i].description, "AU QR") && Mentions(table[i].description, "IMPS")
    {
      LoadedRowClassified(raw, parseNum, parseDate, i);
      ImpsTreeFlagsImps(table[i], parseNum);
    }
  }

  /** Every row of a loaded table carries the type its description gives. */
  lemma LoadedRowClassified(raw: seq<RawRow>, parseNum: NumberParser, parseDate: DateParser, i: int)
    requires Load(raw, parseNum, parseDate).Ok? && 0 <= i < |Load(raw, parseNum, parseDate).value|
    ensures Load(raw, parseNum, parseDate).value[i].kind == Classify(Load(raw, parseNum, parseDate).value[i].description)
  {
    var rows := Enrich(raw, parseNum, parseDate).value;
    var row := Load(raw, parseNum, parseDate).value[i];
    assert row in multiset(rows);
    var k :| 0 <= k < |rows| && rows[k] == row;
  }

  /** A one-split tree that flags IMPS transfers. */
  const ImpsTree: Node :=
    Split("Transaction Type", "IMPS", "==",
          Leaf("Fraud", " -> Transaction Type == IMPS (left)"),
          Leaf("Not Fraud", " -> Transaction Type == IMPS (right)"), "")

  /**
   On any enriched row, the IMPS tree answers "Fraud" exactly when the
   description mentions "IMPS" and not the higher-priority "AU QR".
   */
  lemma ImpsTreeFlagsImps(e: Enriched, parseNum: NumberParser)
    requires e.kind == Classify(e.description)
    ensures Predict(ImpsTree, ToRecord(e), parseNum)
         == Ok(if !Mentions(e.description, "AU QR") && Mentions(e.description, "IMPS") then "Fraud" else "Not Fraud")
  {
  }
}
