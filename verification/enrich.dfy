/**
 Record enrichment: `classify_transaction` and the column arithmetic of
 `load_csv` (tree.py), as pure transformations of the loaded rows. Reading
 the CSV file and the message boxes are not modelled; parsing a number
 (`astype(float)`) and a date (`pd.to_datetime`) are abstract parameters.
 */
module Enrichment {
  import opened Values
  import opened Text
  import opened Daily
  import opened Sorting

  /** The five source columns of one CSV row, as text. */
  datatype RawRow = RawRow(date: string, description: string, debit: string, credit: string, balance: string)

  /** A row after enrichment: the cleaned source columns and the derived ones. */
  datatype Enriched = Enriched(
    index: nat,            // the row's position in the file, its pandas index label
    date: string,          // the raw "Trans Date" text, by which rows are grouped
    stamp: int,            // the ordering key of the parsed date
    description: string,
    debit: real,
    credit: real,
    balance: real,
    previousBalance: real,
    amount: real,
    kind: string,          // "Transaction Type"
    dailyCount: nat,
    dailyDebit: real,
    dailyCredit: real,
    sequence: nat,
    ratio: real)

  /** Why a load fails: a cell that is not a number, no first row, or a bad date. */
  datatype LoadError = NotANumber(column: string) | NoFirstRow | NotADate

  /** The abstract stand-in for `pd.to_datetime` on one cell. */
  type DateParser = string -> Option<int>

  const BalanceColumn: string := "Balance INR"
  const DebitColumn: string := "Debit(Dr.) INR"
  const CreditColumn: string := "Credit(Cr.) INR"

  const TransactionTypes: set<string> := {"AU QR Settlement", "IMPS", "PSP Settlement", "Other"}

  /**
   `classify_transaction`: the first of "AU QR", "IMPS" and "PSP SETTLEMENT"
   that occurs in the description decides the type; with none it is "Other".
   */
  function Classify(description: string): (kind: string)
    ensures kind in TransactionTypes
    ensures kind == "AU QR Settlement" <==> Mentions(description, "AU QR")
    ensures kind == "IMPS" <==> !Mentions(description, "AU QR") && Mentions(description, "IMPS")
    ensures kind == "PSP Settlement" <==>
              !Mentions(description, "AU QR") && !Mentions(description, "IMPS") && Mentions(description, "PSP SETTLEMENT")
    ensures kind == "Other" <==>
              !Mentions(description, "AU QR") && !Mentions(description, "IMPS") && !Mentions(description, "PSP SETTLEMENT")
  {
    if Contains(description, "AU QR") then "AU QR Settlement"
    else if Contains(description, "IMPS") then "IMPS"
    else if Contains(description, "PSP SETTLEMENT") then "PSP Settlement"
    else "Other"
  }

  /**
   The balance column: commas removed, then parsed. Only commas change:
   comma-free text reaches the parser as it is, and a lone "-" is parsed
   like any other text rather than read as 0.
   */
  function CleanBalance(cell: string, parseNum: NumberParser): (r: Option<real>)
    ensures ',' !in cell ==> r == parseNum(cell)
    ensures StripCommas(cell) == "-" ==> r == parseNum("-")
  {
    parseNum(StripCommas(cell))
  }

  /** What a cleaned debit or credit cell holds. */
  ghost predicate AmountCell(cell: string, parseNum: NumberParser, x: real) {
    && (StripCommas(cell) == "-" ==> x == 0.0)
    && (StripCommas(cell) != "-" ==> parseNum(StripCommas(cell)) == Some(x))
  }

  /**
   The debit and credit columns: commas removed, a lone "-" read as 0, then
   parsed. The cell fails only when it is not a dash and its comma-free text
   does not parse.
   */
  function CleanAmount(cell: string, parseNum: NumberParser): (r: Option<real>)
    ensures r.None? <==> StripCommas(cell) != "-" && parseNum(StripCommas(cell)).None?
    ensures r.Some? ==> AmountCell(cell, parseNum, r.value)
  {
    var stripped := StripCommas(cell);
    if stripped == "-" then Some(0.0) else parseNum(stripped)
  }

  /**
   The balance and the amount cleaning differ only on cells that are a lone
   dash once their commas are gone.
   */
  lemma BalanceLacksDashRule(cell: string, parseNum: NumberParser)
    ensures StripCommas(cell) != "-" ==> CleanBalance(cell, parseNum) == CleanAmount(cell, parseNum)
    ensures StripCommas(cell) == "-" ==> CleanAmount(cell, parseNum) == Some(0.0)
  {
  }

  /** Both cleanings see a cell only through its comma-free text. */
  lemma CleaningIgnoresCommas(cell: string, parseNum: NumberParser)
    ensures CleanBalance(StripCommas(cell), parseNum) == CleanBalance(cell, parseNum)
    ensures CleanAmount(StripCommas(cell), parseNum) == CleanAmount(cell, parseNum)
  {
  }

  /**
   `astype(float)` on a whole column: every row's cell parses, or the column
   fails as a whole.
   */
  function ParseColumn<T>(raw: seq<RawRow>, cell: RawRow -> Option<T>): (r: Option<seq<T>>)
    ensures r.Some? <==> forall i :: 0 <= i < |raw| ==> cell(raw[i]).Some?
    ensures r.Some? ==> |r.value| == |raw|
    ensures r.Some? ==> forall i :: 0 <= i < |raw| ==> cell(raw[i]) == Some(r.value[i])
  {
    if |raw| == 0 then Some([])
    else
      match cell(raw[0])
      case None => None
      case Some(x) =>
        match ParseColumn(raw[1..], cell)
        case None => None
        case Some(xs) => Some([x] + xs)
  }

  /**
   `shift(1).fillna(balance[0])`: each row sees the balance of the row
   before it, and the first row sees its own.
   */
  function PreviousBalances(balances: seq<real>): (r: seq<real>)
    requires |balances| > 0
    ensures |r| == |balances|
    ensures r[0] == balances[0]
    ensures forall i :: 0 < i < |r| ==> r[i] == balances[i - 1]
  {
    [balances[0]] + balances[..|balances| - 1]
  }

  /**
   `ratio` is `amount` over `previous`, with a zero `previous` replaced by 1
   so that nothing is divided by zero.
   */
  ghost predicate DividesSafely(amount: real, previous: real, ratio: real) {
    && (previous == 0.0 ==> ratio == amount)
    && (previous != 0.0 ==> ratio * previous == amount)
  }

  /** The amount over the previous balance, dividing by 1 when that balance is 0. */
  function Ratio(amount: real, previous: real): (r: real)
    ensures DividesSafely(amount, previous, r)
  {
    amount / (if previous == 0.0 then 1.0 else previous)
  }

  /** One column of a table: `f` applied to every row, in order. */
  function Column<T, U>(rows: seq<T>, f: T -> U): (r: seq<U>)
    ensures |r| == |rows| && forall i :: 0 <= i < |rows| ==> r[i] == f(rows[i])
  {
    seq(|rows|, i requires 0 <= i < |rows| => f(rows[i]))
  }

  /** The raw "Trans Date" texts, by which rows are grouped. */
  function RawDates(raw: seq<RawRow>): seq<string> {
    Column(raw, (row: RawRow) => row.date)
  }

  function Dates(rows: seq<Enriched>): seq<string> {
    Column(rows, (row: Enriched) => row.date)
  }

  function Debits(rows: seq<Enriched>): seq<real> {
    Column(rows, (row: Enriched) => row.debit)
  }

  function Credits(rows: seq<Enriched>): seq<real> {
    Column(rows, (row: Enriched) => row.credit)
  }

  /** The source columns of each enriched row, cleaned from the raw row in the same position. */
  ghost predicate Cleaned(raw: seq<RawRow>, parseNum: NumberParser, parseDate: DateParser, rows: seq<Enriched>) {
    && |rows| == |raw|
    && forall i :: 0 <= i < |rows| ==>
         && rows[i].index == i
         && rows[i].date == raw[i].date
         && rows[i].description == raw[i].description
         && parseNum(StripCommas(raw[i].balance)) == Some(rows[i].balance)
         && AmountCell(raw[i].debit, parseNum, rows[i].debit)
         && AmountCell(raw[i].credit, parseNum, rows[i].credit)
         && parseDate(raw[i].date) == Some(rows[i].stamp)
  }

  /** The derived columns that depend on the row itself and its predecessor. */
  ghost predicate RowColumns(rows: seq<Enriched>) {
    && (|rows| > 0 ==> rows[0].previousBalance == rows[0].balance)
    && (forall i :: 0 < i < |rows| ==> rows[i].previousBalance == rows[i - 1].balance)
    && forall i :: 0 <= i < |rows| ==>
         && rows[i].amount == rows[i].credit - rows[i].debit
         && rows[i].kind == Classify(rows[i].description)
         && DividesSafely(rows[i].amount, rows[i].previousBalance, rows[i].ratio)
  }

  /** The columns computed over each row's raw-date group. */
  ghost predicate DateColumns(rows: seq<Enriched>) {
    forall i :: 0 <= i < |rows| ==>
      && rows[i].dailyCount == |Group(Dates(rows), rows[i].date)|
      && rows[i].sequence == 1 + |Group(Dates(rows)[..i], rows[i].date)|
      && rows[i].dailyDebit == SumOf(Dates(rows), Debits(rows), rows[i].date)
      && rows[i].dailyCredit == SumOf(Dates(rows), Credits(rows), rows[i].date)
  }

  ghost predicate BalancesParse(raw: seq<RawRow>, parseNum: NumberParser) {
    forall i :: 0 <= i < |raw| ==> CleanBalance(raw[i].balance, parseNum).Some?
  }

  ghost predicate DebitsParse(raw: seq<RawRow>, parseNum: NumberParser) {
    forall i :: 0 <= i < |raw| ==> CleanAmount(raw[i].debit, parseNum).Some?
  }

  ghost predicate CreditsParse(raw: seq<RawRow>, parseNum: NumberParser) {
    forall i :: 0 <= i < |raw| ==> CleanAmount(raw[i].credit, parseNum).Some?
  }

  ghost predicate DatesParse(raw: seq<RawRow>, parseDate: DateParser) {
    forall i :: 0 <= i < |raw| ==> parseDate(raw[i].date).Some?
  }

  /** The parsed and per-date columns, in file order, from which the rows are assembled. */
  datatype Columns = Columns(
    balances: seq<real>, debits: seq<real>, credits: seq<real>, stamps: seq<int>,
    count: seq<nat>, debitTotal: seq<real>, creditTotal: seq<real>, sequence: seq<nat>)

  predicate Fits(raw: seq<RawRow>, c: Columns) {
    && |raw| > 0
    && |c.balances| == |raw| && |c.debits| == |raw| && |c.credits| == |raw| && |c.stamps| == |raw|
    && |c.count| == |raw| && |c.debitTotal| == |raw| && |c.creditTotal| == |raw| && |c.sequence| == |raw|
  }

  /** One enriched row per raw row, the remaining derived columns computed in place. */
  function Assemble(raw: seq<RawRow>, c: Columns): (rows: seq<Enriched>)
    requires Fits(raw, c)
  {
    var previous := PreviousBalances(c.balances);
    seq(|raw|, i requires 0 <= i < |raw| =>
      var amount := c.credits[i] - c.debits[i];
      Enriched(i, raw[i].date, c.stamps[i], raw[i].description,
               c.debits[i], c.credits[i], c.balances[i], previous[i],
               amount, Classify(raw[i].description),
               c.count[i], c.debitTotal[i], c.creditTotal[i], c.sequence[i],
               Ratio(amount, previous[i])))
  }

  lemma AssembleCleans(raw: seq<RawRow>, parseNum: NumberParser, parseDate: DateParser, c: Columns)
    requires Fits(raw, c)
    requires forall i :: 0 <= i < |raw| ==> CleanBalance(raw[i].balance, parseNum) == Some(c.balances[i])
    requires forall i :: 0 <= i < |raw| ==> CleanAmount(raw[i].debit, parseNum) == Some(c.debits[i])
    requires forall i :: 0 <= i < |raw| ==> CleanAmount(raw[i].credit, parseNum) == Some(c.credits[i])
    requires forall i :: 0 <= i < |raw| ==> parseDate(raw[i].date) == Some(c.stamps[i])
    ensures Cleaned(raw, parseNum, parseDate, Assemble(raw, c))
  {
  }

  lemma AssembleDerives(raw: seq<RawRow>, c: Columns)
    requires Fits(raw, c)
    ensures RowColumns(Assemble(raw, c))
  {
    var rows := Assemble(raw, c);
    var previous := PreviousBalances(c.balances);
    forall i | 0 <= i < |rows|
      ensures rows[i].previousBalance == previous[i]
      ensures rows[i].amount == rows[i].credit - rows[i].debit
      ensures rows[i].kind == Classify(rows[i].description)
      ensures rows[i].ratio == Ratio(rows[i].amount, rows[i].previousBalance)
    {
    }
  }

  lemma AssembleGroups(raw: seq<RawRow>, c: Columns)
    requires Fits(raw, c)
    requires forall i :: 0 <= i < |raw| ==> c.count[i] == CountOf(RawDates(raw), raw[i].date)
    requires forall i :: 0 <= i < |raw| ==> c.sequence[i] == SequenceAt(RawDates(raw), i)
    requires forall i :: 0 <= i < |raw| ==> c.debitTotal[i] == SumOf(RawDates(raw), c.debits, raw[i].date)
    requires forall i :: 0 <= i < |raw| ==> c.creditTotal[i] == SumOf(RawDates(raw), c.credits, raw[i].date)
    ensures DateColumns(Assemble(raw, c))
  {
    var rows := Assemble(raw, c);
    var dates := RawDates(raw);
    assert Dates(rows) == dates;
    assert Debits(rows) == c.debits;
    assert Credits(rows) == c.credits;
    forall i | 0 <= i < |raw|
      ensures rows[i].dailyCount == |Group(dates, rows[i].date)|
      ensures rows[i].sequence == 1 + |Group(dates[..i], rows[i].date)|
    {
      CountIsGroupSize(dates, dates[i]);
      CountIsGroupSize(dates[..i], dates[i]);
    }
  }

  /**
   The parsed columns completed with the per-date count, totals and
   sequence numbers of the reference definitions, over the raw date texts.
   */
  function GroupColumns(raw: seq<RawRow>, balances: seq<real>, debits: seq<real>, credits: seq<real>, stamps: seq<int>): (c: Columns)
    requires |raw| > 0
    requires |balances| == |raw| && |debits| == |raw| && |credits| == |raw| && |stamps| == |raw|
    ensures Fits(raw, c)
    ensures c.balances == balances && c.debits == debits && c.credits == credits && c.stamps == stamps
    ensures forall i :: 0 <= i < |raw| ==> c.count[i] == CountOf(RawDates(raw), raw[i].date)
    ensures forall i :: 0 <= i < |raw| ==> c.sequence[i] == SequenceAt(RawDates(raw), i)
    ensures forall i :: 0 <= i < |raw| ==> c.debitTotal[i] == SumOf(RawDates(raw), debits, raw[i].date)
    ensures forall i :: 0 <= i < |raw| ==> c.creditTotal[i] == SumOf(RawDates(raw), credits, raw[i].date)
  {
    var n := |raw|;
    var dates := RawDates(raw);
    Columns(
      balances, debits, credits, stamps,
      seq(n, i requires 0 <= i < n => CountOf(dates, dates[i])),
      seq(n, i requires 0 <= i < n => SumOf(dates, debits, dates[i])),
      seq(n, i requires 0 <= i < n => SumOf(dates, credits, dates[i])),
      seq(n, i requires 0 <= i < n => SequenceAt(dates, i)))
  }

  /** The table built from columns that all parsed: the cleaned columns and the derived ones. */
  function Derive(raw: seq<RawRow>, parseNum: NumberParser, parseDate: DateParser,
                  balances: seq<real>, debits: seq<real>, credits: seq<real>, stamps: seq<int>): (rows: seq<Enriched>)
    requires |raw| > 0
    requires |balances| == |raw| && |debits| == |raw| && |credits| == |raw| && |stamps| == |raw|
    requires forall i :: 0 <= i < |raw| ==> CleanBalance(raw[i].balance, parseNum) == Some(balances[i])
    requires forall i :: 0 <= i < |raw| ==> CleanAmount(raw[i].debit, parseNum) == Some(debits[i])
    requires forall i :: 0 <= i < |raw| ==> CleanAmount(raw[i].credit, parseNum) == Some(credits[i])
    requires forall i :: 0 <= i < |raw| ==> parseDate(raw[i].date) == Some(stamps[i])
    ensures Cleaned(raw, parseNum, parseDate, rows)
    ensures RowColumns(rows)
    ensures DateColumns(rows)
  {
    var columns := GroupColumns(raw, balances, debits, credits, stamps);
    AssembleCleans(raw, parseNum, parseDate, columns);
    AssembleDerives(raw, columns);
    AssembleGroups(raw, columns);
    Assemble(raw, columns)
  }

  /**
   The enrichment of `load_csv` up to, not including, the final sort, in the
   order the source performs it: the balance column is parsed, the first
   row's balance is read (which fails on an empty table), the debit and
   credit columns are parsed, the derived columns are computed, and the
   dates are parsed last.
   */
  function Enrich(raw: seq<RawRow>, parseNum: NumberParser, parseDate: DateParser): (r: Result<seq<Enriched>, LoadError>)
    ensures r == Err(NotANumber(BalanceColumn)) <==> !BalancesParse(raw, parseNum)
    ensures r == Err(NoFirstRow) <==> |raw| == 0
    ensures r == Err(NotANumber(DebitColumn)) <==> |raw| > 0 && BalancesParse(raw, parseNum) && !DebitsParse(raw, parseNum)
    ensures r == Err(NotANumber(CreditColumn)) <==>
              |raw| > 0 && BalancesParse(raw, parseNum) && DebitsParse(raw, parseNum) && !CreditsParse(raw, parseNum)
    ensures r == Err(NotADate) <==>
              && |raw| > 0 && BalancesParse(raw, parseNum) && DebitsParse(raw, parseNum)
              && CreditsParse(raw, parseNum) && !DatesParse(raw, parseDate)
    ensures r.Ok? <==>
              && |raw| > 0 && BalancesParse(raw, parseNum) && DebitsParse(raw, parseNum)
              && CreditsParse(raw, parseNum) && DatesParse(raw, parseDate)
    ensures r.Ok? ==> Cleaned(raw, parseNum, parseDate, r.value)
    ensures r.Ok? ==> RowColumns(r.value)
    ensures r.Ok? ==> DateColumns(r.value)
  {
    var balances := ParseColumn(raw, (row: RawRow) => CleanBalance(row.balance, parseNum));
    if balances.None? then Err(NotANumber(BalanceColumn))
    else if |raw| == 0 then Err(NoFirstRow)
    else
      var debits := ParseColumn(raw, (row: RawRow) => CleanAmount(row.debit, parseNum));
      if debits.None? then
        assert DebitColumn[0] != BalanceColumn[0];
        Err(NotANumber(DebitColumn))
      else
        var credits := ParseColumn(raw, (row: RawRow) => CleanAmount(row.credit, parseNum));
        if credits.None? then
          assert CreditColumn[0] != BalanceColumn[0] && CreditColumn[0] != DebitColumn[0];
          Err(NotANumber(CreditColumn))
        else
          var stamps := ParseColumn(raw, (row: RawRow) => parseDate(row.date));
          if stamps.None? then Err(NotADate)
          else Ok(Derive(raw, parseNum, parseDate, balances.value, debits.value, credits.value, stamps.value))
  }

  function Key(row: Enriched): SortKey {
    SortKey(row.stamp, row.sequence)
  }

  /**
   `load_csv` as a whole: the enriched rows, reordered by (date, sequence).
   The loaded table holds exactly the enriched rows, each once.
   */
  function Load(raw: seq<RawRow>, parseNum: NumberParser, parseDate: DateParser): (r: Result<seq<Enriched>, LoadError>)
    ensures r.Err? <==> Enrich(raw, parseNum, parseDate).Err?
    ensures r.Err? ==> r.error == Enrich(raw, parseNum, parseDate).error
    ensures r.Ok? ==> SortedBy(r.value, Key)
    ensures r.Ok? ==> multiset(r.value) == multiset(Enrich(raw, parseNum, parseDate).value)
  {
    var rows :- Enrich(raw, parseNum, parseDate);
    Ok(SortBy(rows, Key))
  }
}
