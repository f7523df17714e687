/**
 * The normalisation pipeline for an uploaded bank statement: a per-source
 * column remap (with date parsing, the source label and the merchant suffix on
 * the description), the core column cleans, the sign-based transaction type
 * with its mobile-payment override, the content key behind `transaction_id`,
 * and the projection onto the nine canonical columns.
 *
 * A data frame is a set of column names and a sequence of rows, each row a map
 * from every column name to a cell. The pipeline is stated twice: as pure
 * functions over `Table` values, column step by column step, and as methods of
 * the mutable `Frame` class that perform the same assignments in place.
 */
module Normalize {
  import opened Wrappers
  import opened Text
  import opened Amounts
  import opened Dates
  import opened Cleaning

  /**
   * One cell of a data frame. `pd.read_csv` yields `Missing` for an empty field and `Str`
   * for text; a column of whole numbers with no empty field is read as integers (`Int`),
   * any other numeric column as floats (`Number`). Date parsing yields `Stamp` and
   * `NotATime` (NaT).
   */
  datatype Cell = Missing | Str(text: string) | Stamp(date: Date) | NotATime | Number(amount: Amount) | Int(value: int)

  type Row = map<string, Cell>

  datatype Table = Table(columns: set<string>, rows: seq<Row>)

  /** Every row has exactly the frame's columns. */
  ghost predicate WellFormed(t: Table) {
    forall i | 0 <= i < |t.rows| :: t.rows[i].Keys == t.columns
  }

  datatype Error = MissingColumn(name: string) | NotText(name: string) | DuplicateColumn | UnparseableDate(text: string)

  /** The nine canonical columns, in the order the pipeline returns them. */
  datatype Canonical = Canonical(
    transactionId: Cell, transactionDate: Cell, description: Cell, category: Cell, kind: Cell,
    amount: Cell, source: Cell, transactionType: Cell, amountChanged: Cell)

  const TransactionDate := "Transaction Date"
  const Description := "Description"
  const Category := "Category"
  const Kind := "Type"
  const AmountColumnName := "Amount"
  const Merchant := "Merchant"
  const SourceColumn := "source"
  const AmountChanged := "Amount_Changed"
  const TransactionType := "Transaction Type"
  const TransactionId := "transaction_id"

  /** `str(value)`, as an f-string prints a cell. */
  function CellText(c: Cell): string {
    match c
    case Missing => "nan"
    case Str(s) => s
    case Stamp(d) => TimestampText(d)
    case NotATime => "NaT"
    case Number(a) => Repr(a)
    case Int(n) => IntText(n)
  }

  /** `pd.isna(value)`. */
  predicate IsNA(c: Cell) {
    c.Missing? || c.NotATime? || (c.Number? && c.amount.NaN?)
  }

  /** A cell the string cleaners accept: one `pd.isna` holds for, or text; `.lower()` raises on any other value. */
  predicate IsTextOrNA(c: Cell) {
    IsNA(c) || c.Str?
  }

  /** `column.apply(clean_category)` and `column.apply(clean_type)` run without raising. */
  predicate Cleanable(t: Table, name: string) {
    AllTextOrNA(t.rows, name)
  }

  predicate AllTextOrNA(rows: seq<Row>, name: string) {
    rows == [] || ((name in rows[0] ==> IsTextOrNA(rows[0][name])) && AllTextOrNA(rows[1..], name))
  }

  /**
   * The `.str` accessor accepts the column: pandas stores a column with no text at all
   * (every field empty, or every one a number) as floats, and `.str` raises on it.
   */
  predicate StringColumn(t: Table, name: string) {
    t.rows == [] || SomeText(t.rows, name)
  }

  predicate SomeText(rows: seq<Row>, name: string) {
    rows != [] && ((name in rows[0] && rows[0][name].Str?) || SomeText(rows[1..], name))
  }

  /** The two checks read only the column they check. */
  lemma {:induction false} SameColumnChecks(a: seq<Row>, b: seq<Row>, name: string)
    requires |a| == |b|
    requires forall i :: 0 <= i < |a| ==> (name in a[i] <==> name in b[i])
    requires forall i :: 0 <= i < |a| && name in a[i] ==> a[i][name] == b[i][name]
    ensures AllTextOrNA(a, name) == AllTextOrNA(b, name) && SomeText(a, name) == SomeText(b, name)
  {
    if a != [] {
      assert forall i :: 1 <= i < |a| ==> a[1..][i - 1] == a[i] && b[1..][i - 1] == b[i];
      SameColumnChecks(a[1..], b[1..], name);
    }
  }

  /** What the string cleaners receive: nothing for a missing value, else its text (`Cleanable` admits only these two kinds). */
  function CleanerInput(c: Cell): Option<string> {
    if IsNA(c) then None else Some(CellText(c))
  }

  // ---------------------------------------------------------------------
  // Column operations on table values
  // ---------------------------------------------------------------------

  /** `df[name] = values`. */
  function WithColumn(t: Table, name: string, values: seq<Cell>): (r: Table)
    requires WellFormed(t) && |values| == |t.rows|
    ensures WellFormed(r) && r.columns == t.columns + {name} && |r.rows| == |t.rows|
    ensures forall i :: 0 <= i < |t.rows| ==> r.rows[i] == t.rows[i][name := values[i]]
  {
    Table(t.columns + {name}, seq(|t.rows|, i requires 0 <= i < |t.rows| => t.rows[i][name := values[i]]))
  }

  /** `df.loc[mask, name] = value`. */
  function WithWhere(t: Table, mask: seq<bool>, name: string, value: Cell): (r: Table)
    requires WellFormed(t) && |mask| == |t.rows| && name in t.columns
    ensures WellFormed(r) && r.columns == t.columns && |r.rows| == |t.rows|
    ensures forall i :: 0 <= i < |t.rows| ==> r.rows[i] == t.rows[i][name := if mask[i] then value else t.rows[i][name]]
  {
    Table(t.columns, seq(|t.rows|, i requires 0 <= i < |t.rows| => t.rows[i][name := if mask[i] then value else t.rows[i][name]]))
  }

  /** `df[name]`. */
  function Column(t: Table, name: string): (r: seq<Cell>)
    requires WellFormed(t) && name in t.columns
    ensures |r| == |t.rows| && forall i :: 0 <= i < |t.rows| ==> r[i] == t.rows[i][name]
  {
    seq(|t.rows|, i requires 0 <= i < |t.rows| => t.rows[i][name])
  }

  function Constant(n: nat, c: Cell): (r: seq<Cell>)
    ensures |r| == n && forall i :: 0 <= i < n ==> r[i] == c
  {
    seq(n, _ => c)
  }

  // ---------------------------------------------------------------------
  // Per-source column mapping
  // ---------------------------------------------------------------------

  const CardMapping: map<string, string> := map[
    "Transaction Date" := "Transaction Date", "Clearing Date" := "Post Date",
    "Description" := "Description", "Merchant" := "Merchant", "Amount (USD)" := "Amount"]

  /** Column renames per lower-cased source label. */
  const Mappings: map<string, map<string, string>> := map[
    "usaa" := map["Date" := "Transaction Date", "Description" := "Description",
                  "Category" := "Category", "Amount" := "Amount"],
    "chase" := map[],
    "apple" := CardMapping,
    "frost" := map[],
    "american_express" := CardMapping]

  const PreMergedUnion := "pre-merged union"

  /** Whether the source label selects the remap branch. */
  predicate IsMappedSource(source: string) {
    var key := Lower(source);
    key != PreMergedUnion && key in Mappings
  }

  function Renamed(m: map<string, string>, c: string): string {
    if c in m then m[c] else c
  }

  /** No two columns are renamed to the same name. */
  predicate RenameInjective(m: map<string, string>, columns: set<string>) {
    forall a, b :: a in columns && b in columns && Renamed(m, a) == Renamed(m, b) ==> a == b
  }

  function RenameRow(r: Row, m: map<string, string>): (r': Row)
    requires RenameInjective(m, r.Keys)
    ensures r'.Keys == set c | c in r.Keys :: Renamed(m, c)
    ensures forall c :: c in r ==> r'[Renamed(m, c)] == r[c]
  {
    var r' := map c | c in r :: Renamed(m, c) := r[c];
    assert forall k :: k in r'.Keys <==> exists c :: c in r && k == Renamed(m, c);
    r'
  }

  /** `df.rename(columns=m)`, refused when two columns would end up with one name. */
  function RenameTable(t: Table, m: map<string, string>): (r: Result<Table, Error>)
    requires WellFormed(t)
    ensures r.Ok? <==> RenameInjective(m, t.columns)
    ensures r.Ok? ==> WellFormed(r.value) && |r.value.rows| == |t.rows|
    ensures r.Ok? ==> r.value.columns == set c | c in t.columns :: Renamed(m, c)
    ensures r.Ok? ==> forall i :: 0 <= i < |t.rows| ==> r.value.rows[i] == RenameRow(t.rows[i], m)
  {
    if !RenameInjective(m, t.columns) then Err(DuplicateColumn)
    else Ok(Table(set c | c in t.columns :: Renamed(m, c),
                  seq(|t.rows|, i requires 0 <= i < |t.rows| => RenameRow(t.rows[i], m))))
  }

  /** `pd.to_datetime` on one cell; `toDate` is the date grammar pandas applies to a text. */
  function DateCell(c: Cell, toDate: string -> Option<Date>): Result<Cell, Error> {
    match c
    case Missing => Ok(NotATime)
    case Str(s) => (match toDate(s) case Some(d) => Ok(Stamp(d)) case None => Err(UnparseableDate(s)))
    case Stamp(_) => Ok(c)
    case NotATime => Ok(c)
    case Number(a) => Err(UnparseableDate(Repr(a)))
    case Int(n) => Err(UnparseableDate(IntText(n)))
  }

  /** `pd.to_datetime` on a column: every cell converted, else the first failure. */
  function ToDatetime(cells: seq<Cell>, toDate: string -> Option<Date>): (r: Result<seq<Cell>, Error>)
    ensures r.Ok? <==> forall i :: 0 <= i < |cells| ==> DateCell(cells[i], toDate).Ok?
    ensures r.Ok? ==> |r.value| == |cells| && forall i :: 0 <= i < |cells| ==> r.value[i] == DateCell(cells[i], toDate).value
  {
    if cells == [] then Ok([])
    else
      match DateCell(cells[0], toDate)
      case Err(e) => Err(e)
      case Ok(c) =>
        match ToDatetime(cells[1..], toDate)
        case Err(e) =>
          assert forall i :: 1 <= i < |cells| ==> cells[i] == cells[1..][i - 1];
          Err(e)
        case Ok(rest) =>
          assert forall i :: 1 <= i < |cells| ==> cells[i] == cells[1..][i - 1];
          Ok([c] + rest)
  }

  /** The description with the merchant appended, when the merchant is present. */
  function WithMerchant(r: Row): Cell
    requires Description in r && Merchant in r
  {
    if IsNA(r[Merchant]) then r[Description]
    else Str(CellText(r[Description]) + " - " + CellText(r[Merchant]))
  }

  /**
   * A merchant column of whole numbers prints them as integers in the joined
   * description: digits and an optional sign, and no decimal point.
   */
  lemma IntegerMerchantSuffix(r: Row, n: int)
    requires Description in r && Merchant in r && r[Merchant] == Int(n) && r[Description].Str?
    ensures WithMerchant(r) == Str(r[Description].text + " - " + IntText(n))
    ensures '.' !in IntText(n)
  {
  }

  function MerchantColumn(t: Table): (r: seq<Cell>)
    requires WellFormed(t) && Description in t.columns && Merchant in t.columns
    ensures |r| == |t.rows| && forall i :: 0 <= i < |t.rows| ==> r[i] == WithMerchant(t.rows[i])
  {
    seq(|t.rows|, i requires 0 <= i < |t.rows| => WithMerchant(t.rows[i]))
  }

  /** The remap branch: rename, parse dates, stamp the source label, append merchants. */
  function Prepare(t: Table, source: string, toDate: string -> Option<Date>): (r: Result<Table, Error>)
    requires WellFormed(t) && IsMappedSource(source)
    ensures r.Ok? ==> WellFormed(r.value) && |r.value.rows| == |t.rows|
  {
    match RenameTable(t, Mappings[Lower(source)])
    case Err(e) => Err(e)
    case Ok(t1) =>
      if TransactionDate !in t1.columns then Err(MissingColumn(TransactionDate))
      else
        match ToDatetime(Column(t1, TransactionDate), toDate)
        case Err(e) => Err(e)
        case Ok(dates) =>
          var t2 := WithColumn(t1, TransactionDate, dates);
          var t3 := WithColumn(t2, SourceColumn, Constant(|t2.rows|, Str(TitleCase(source))));
          if Merchant !in t3.columns then Ok(t3)
          else if Description !in t3.columns then Err(MissingColumn(Description))
          else Ok(WithColumn(t3, Description, MerchantColumn(t3)))
  }

  // ---------------------------------------------------------------------
  // Core cleans, transaction type, identity, projection
  // ---------------------------------------------------------------------

  const MobileMarker := "Payment Thank You-Mobile -"

  /** `str.contains(MobileMarker, case=False, na=False)` on one description cell. */
  predicate IsMobilePayment(c: Cell) {
    c.Str? && Contains(Lower(c.text), Lower(MobileMarker))
  }

  /** `row.get("Type", "")` printed with `str`. */
  function TypeText(r: Row): string {
    if Kind in r then CellText(r[Kind]) else ""
  }

  /** `x > 0` on a cell. */
  predicate IsPositiveCell(c: Cell) {
    c.Number? && IsPositive(c.amount)
  }

  /** `df["Category"].apply(cat)`, with `cat` standing for `clean_category`. */
  function CategoryColumn(t: Table, cat: CategoryCleaner): (r: seq<Cell>)
    requires WellFormed(t) && Category in t.columns
    ensures |r| == |t.rows|
    ensures forall i :: 0 <= i < |t.rows| ==> r[i] == Str(cat(CleanerInput(t.rows[i][Category])))
  {
    seq(|t.rows|, i requires 0 <= i < |t.rows| => Str(cat(CleanerInput(t.rows[i][Category]))))
  }

  /** `df["Type"].apply(typ)`, with `typ` standing for `clean_type`. */
  function TypeColumn(t: Table, typ: TypeCleaner): (r: seq<Cell>)
    requires WellFormed(t) && Kind in t.columns
    ensures |r| == |t.rows|
    ensures forall i :: 0 <= i < |t.rows| ==> r[i] == Str(typ(CleanerInput(t.rows[i][Kind])))
  {
    seq(|t.rows|, i requires 0 <= i < |t.rows| => Str(typ(CleanerInput(t.rows[i][Kind]))))
  }

  /** The row-wise apply of `amt`, standing for `clean_amount`, to the Amount and the cleaned Type. */
  function AmountColumn(t: Table, amt: AmountCleaner): (r: seq<Cell>)
    requires WellFormed(t) && AmountColumnName in t.columns
    ensures |r| == |t.rows|
    ensures forall i :: 0 <= i < |t.rows| ==>
      r[i] == Number(amt(CellText(t.rows[i][AmountColumnName]), TypeText(t.rows[i])))
  {
    seq(|t.rows|, i requires 0 <= i < |t.rows| =>
      Number(amt(CellText(t.rows[i][AmountColumnName]), TypeText(t.rows[i]))))
  }

  function SignTypeColumn(t: Table): (r: seq<Cell>)
    requires WellFormed(t) && AmountChanged in t.columns
    ensures |r| == |t.rows|
    ensures forall i :: 0 <= i < |t.rows| ==>
      r[i] == Str(if IsPositiveCell(t.rows[i][AmountChanged]) then "Income" else "Spending")
  {
    seq(|t.rows|, i requires 0 <= i < |t.rows| =>
      Str(if IsPositiveCell(t.rows[i][AmountChanged]) then "Income" else "Spending"))
  }

  function MobileMask(t: Table): (r: seq<bool>)
    requires WellFormed(t) && Description in t.columns
    ensures |r| == |t.rows| && forall i :: 0 <= i < |t.rows| ==> r[i] == IsMobilePayment(t.rows[i][Description])
  {
    seq(|t.rows|, i requires 0 <= i < |t.rows| => IsMobilePayment(t.rows[i][Description]))
  }

  /** The text `_make_id` hashes: date, signed amount, description and source joined by `_`. */
  function IdKey(date: Cell, amountChanged: Cell, description: Cell, source: Cell): string {
    CellText(date) + "_" + CellText(amountChanged) + "_" + CellText(description) + "_" + CellText(source)
  }

  function IdColumn(t: Table, sha256: string -> string): (r: seq<Cell>)
    requires WellFormed(t) && TransactionDate in t.columns && AmountChanged in t.columns
    requires Description in t.columns && SourceColumn in t.columns
    ensures |r| == |t.rows|
    ensures forall i :: 0 <= i < |t.rows| ==>
      r[i] == Str(sha256(IdKey(t.rows[i][TransactionDate], t.rows[i][AmountChanged], t.rows[i][Description], t.rows[i][SourceColumn])))
  {
    seq(|t.rows|, i requires 0 <= i < |t.rows| =>
      Str(sha256(IdKey(t.rows[i][TransactionDate], t.rows[i][AmountChanged], t.rows[i][Description], t.rows[i][SourceColumn]))))
  }

  predicate HasCanonicalColumns(r: Row) {
    TransactionId in r && TransactionDate in r && Description in r && Category in r && Kind in r
    && AmountColumnName in r && SourceColumn in r && TransactionType in r && AmountChanged in r
  }

  /** The final `df[[...]]` on one row. */
  function Project(r: Row): Canonical
    requires HasCanonicalColumns(r)
  {
    Canonical(r[TransactionId], r[TransactionDate], r[Description], r[Category], r[Kind],
              r[AmountColumnName], r[SourceColumn], r[TransactionType], r[AmountChanged])
  }

  /** The frame as the pipeline left it, and what the pipeline returned. */
  datatype Run = Run(state: Table, result: Result<seq<Canonical>, Error>)

  /** The statements from the core cleans to the projection, in the order they run. */
  function Core(t: Table, sha256: string -> string): (run: Run)
    requires WellFormed(t)
    ensures WellFormed(run.state)
  {
    CoreWith(t, sha256, CleanCategory, CleanType, CleanAmount)
  }

  /** `Core` for any cleaners, so that reasoning about which check fails does not look inside them. */
  function CoreWith(t: Table, sha256: string -> string, cat: CategoryCleaner, typ: TypeCleaner, amt: AmountCleaner): (run: Run)
    requires WellFormed(t)
    ensures WellFormed(run.state)
  {
    if Category !in t.columns then Run(t, Err(MissingColumn(Category)))
    else if !Cleanable(t, Category) then Run(t, Err(NotText(Category)))
    else
      var t1 := WithColumn(t, Category, CategoryColumn(t, cat));
      if Kind !in t1.columns then Run(t1, Err(MissingColumn(Kind)))
      else if !Cleanable(t1, Kind) then Run(t1, Err(NotText(Kind)))
      else
        var t2 := WithColumn(t1, Kind, TypeColumn(t1, typ));
        if AmountColumnName !in t2.columns then Run(t2, Err(MissingColumn(AmountColumnName)))
        else
          var t3 := WithColumn(t2, AmountChanged, AmountColumn(t2, amt));
          var t4 := WithColumn(t3, TransactionType, SignTypeColumn(t3));
          if Description !in t4.columns then Run(t4, Err(MissingColumn(Description)))
          else if !StringColumn(t4, Description) then Run(t4, Err(NotText(Description)))
          else Finish(t4, sha256)
  }

  /** The steps from the mobile-payment override to the projection, on the cleaned frame. */
  function Finish(t4: Table, sha256: string -> string): (run: Run)
    requires WellFormed(t4) && Description in t4.columns && TransactionType in t4.columns
    requires Category in t4.columns && Kind in t4.columns && AmountChanged in t4.columns
    ensures WellFormed(run.state)
    ensures TransactionDate !in t4.columns ==> run.result == Err(MissingColumn(TransactionDate))
    ensures TransactionDate in t4.columns && SourceColumn !in t4.columns ==> run.result == Err(MissingColumn(SourceColumn))
  {
    DistinctColumnNames();
    var mask := MobileMask(t4);
    var t5 := WithWhere(t4, mask, TransactionType, Str("Payment"));
    var t6 := WithWhere(t5, mask, Kind, Str("Payment"));
    var t7 := WithColumn(t6, AmountColumnName, Column(t6, AmountChanged));
    if TransactionDate !in t7.columns then Run(t7, Err(MissingColumn(TransactionDate)))
    else if SourceColumn !in t7.columns then Run(t7, Err(MissingColumn(SourceColumn)))
    else
      var t8 := WithColumn(t7, TransactionId, IdColumn(t7, sha256));
      Run(t8, Ok(seq(|t8.rows|, i requires 0 <= i < |t8.rows| => Project(t8.rows[i]))))
  }

  /** What `normalize(df, source)` returns. */
  function NormalizeTable(t: Table, source: string, toDate: string -> Option<Date>, sha256: string -> string)
    : Result<seq<Canonical>, Error>
    requires WellFormed(t)
  {
    if IsMappedSource(source) then
      match Prepare(t, source, toDate)
      case Err(e) => Err(e)
      case Ok(p) => Core(p, sha256).result
    else Core(t, sha256).result
  }

  /**
   * The caller's frame after `normalize(df, source)`: the remap branch works on the
   * copy `rename` made, any other source label cleans the caller's frame in place.
   */
  function CallerFrameAfter(t: Table, source: string, sha256: string -> string): Table
    requires WellFormed(t)
  {
    if IsMappedSource(source) then t else Core(t, sha256).state
  }

  // ---------------------------------------------------------------------
  // The mutable frame
  // ---------------------------------------------------------------------

  class Frame {
    var columns: set<string>
    var rows: seq<Row>

    function Contents(): Table
      reads this
    {
      Table(columns, rows)
    }

    ghost predicate Valid()
      reads this
    {
      WellFormed(Contents())
    }

    constructor (t: Table)
      requires WellFormed(t)
      ensures Valid() && Contents() == t
    {
      columns := t.columns;
      rows := t.rows;
    }

    /** `df[name] = values`. */
    method Assign(name: string, values: seq<Cell>)
      requires Valid() && |values| == |rows|
      modifies this
      ensures Valid() && Contents() == WithColumn(old(Contents()), name, values)
    {
      var rs := rows;
      columns := columns + {name};
      rows := seq(|rs|, i requires 0 <= i < |rs| => rs[i][name := values[i]]);
    }

    /** `df.loc[mask, name] = value`. */
    method AssignWhere(mask: seq<bool>, name: string, value: Cell)
      requires Valid() && |mask| == |rows| && name in columns
      modifies this
      ensures Valid() && Contents() == WithWhere(old(Contents()), mask, name, value)
    {
      var rs := rows;
      rows := seq(|rs|, i requires 0 <= i < |rs| => rs[i][name := if mask[i] then value else rs[i][name]]);
    }
  }

  /** Lines 129-163 of `normalize`, run on `df` in place. */
  method CleanFrame(df: Frame, sha256: string -> string) returns (result: Result<seq<Canonical>, Error>)
    requires df.Valid()
    modifies df
    ensures df.Valid() && Run(df.Contents(), result) == Core(old(df.Contents()), sha256)
  {
    if Category !in df.columns { return Err(MissingColumn(Category)); }
    if !Cleanable(df.Contents(), Category) { return Err(NotText(Category)); }
    df.Assign(Category, CategoryColumn(df.Contents(), CleanCategory));
    if Kind !in df.columns { return Err(MissingColumn(Kind)); }
    if !Cleanable(df.Contents(), Kind) { return Err(NotText(Kind)); }
    df.Assign(Kind, TypeColumn(df.Contents(), CleanType));
    if AmountColumnName !in df.columns { return Err(MissingColumn(AmountColumnName)); }
    df.Assign(AmountChanged, AmountColumn(df.Contents(), CleanAmount));
    df.Assign(TransactionType, SignTypeColumn(df.Contents()));
    if Description !in df.columns { return Err(MissingColumn(Description)); }
    if !StringColumn(df.Contents(), Description) { return Err(NotText(Description)); }
    var mask := MobileMask(df.Contents());
    df.AssignWhere(mask, TransactionType, Str("Payment"));
    df.AssignWhere(mask, Kind, Str("Payment"));
    df.Assign(AmountColumnName, Column(df.Contents(), AmountChanged));
    if TransactionDate !in df.columns { return Err(MissingColumn(TransactionDate)); }
    if SourceColumn !in df.columns { return Err(MissingColumn(SourceColumn)); }
    df.Assign(TransactionId, IdColumn(df.Contents(), sha256));
    var t8 := df.Contents();
    result := Ok(seq(|t8.rows|, i requires 0 <= i < |t8.rows| => Project(t8.rows[i])));
  }

  /**
   * `normalize(df, source)`: `toDate` stands for `pd.to_datetime` on one text and
   * `sha256` for `hashlib.sha256(key.encode()).hexdigest()`.
   */
  method Normalize(df: Frame, source: string, toDate: string -> Option<Date>, sha256: string -> string)
    returns (result: Result<seq<Canonical>, Error>)
    requires df.Valid()
    modifies df
    ensures result == NormalizeTable(old(df.Contents()), source, toDate, sha256)
    ensures df.Contents() == CallerFrameAfter(old(df.Contents()), source, sha256)
  {
    var frame := df;
    if IsMappedSource(source) {
      var renamed := RenameTable(df.Contents(), Mappings[Lower(source)]);
      if renamed.Err? { return Err(renamed.error); }
      frame := new Frame(renamed.value);
      if TransactionDate !in frame.columns { return Err(MissingColumn(TransactionDate)); }
      var dates := ToDatetime(Column(frame.Contents(), TransactionDate), toDate);
      if dates.Err? { return Err(dates.error); }
      frame.Assign(TransactionDate, dates.value);
      frame.Assign(SourceColumn, Constant(|frame.rows|, Str(TitleCase(source))));
      if Merchant in frame.columns {
        if Description !in frame.columns { return Err(MissingColumn(Description)); }
        frame.Assign(Description, MerchantColumn(frame.Contents()));
      }
    }
    result := CleanFrame(frame, sha256);
  }

  // ---------------------------------------------------------------------
  // Row-by-row reference definition
  // ---------------------------------------------------------------------

  /** The columns the core steps read, all of which must be present. */
  predicate HasRequired(columns: set<string>) {
    Category in columns && Kind in columns && AmountColumnName in columns
    && Description in columns && TransactionDate in columns && SourceColumn in columns
  }

  /** The frames the core steps accept: the columns they read are present, and hold what they need. */
  predicate CoreAccepts(t: Table) {
    HasRequired(t.columns) && Cleanable(t, Category) && Cleanable(t, Kind) && StringColumn(t, Description)
  }

  /** The first problem the core steps run into, in the order they meet them. */
  function FirstFailure(t: Table): Error
    requires !CoreAccepts(t)
  {
    if Category !in t.columns then MissingColumn(Category)
    else if !Cleanable(t, Category) then NotText(Category)
    else if Kind !in t.columns then MissingColumn(Kind)
    else if !Cleanable(t, Kind) then NotText(Kind)
    else if AmountColumnName !in t.columns then MissingColumn(AmountColumnName)
    else if Description !in t.columns then MissingColumn(Description)
    else if !StringColumn(t, Description) then NotText(Description)
    else if TransactionDate !in t.columns then MissingColumn(TransactionDate)
    else MissingColumn(SourceColumn)
  }

  /** The three cleaners the core steps apply, as function values. */
  type CategoryCleaner = Option<string> -> string
  type TypeCleaner = Option<string> -> string
  type AmountCleaner = (string, string) -> Amount

  /**
   * What the core steps make of one row, stated on that row alone: the amount is
   * cleaned against the already-cleaned Type, a mobile card payment overrides both
   * Type and Transaction Type, and the identifier hashes the row's content key.
   */
  function ExpectedRow(r: Row, sha256: string -> string): Canonical
    requires HasRequired(r.Keys)
  {
    ExpectedRowWith(r, sha256, CleanCategory, CleanType, CleanAmount)
  }

  /** `ExpectedRow` for any cleaners, so that reasoning about where values go does not look inside them. */
  function ExpectedRowWith(r: Row, sha256: string -> string, cat: CategoryCleaner, typ: TypeCleaner, amt: AmountCleaner): Canonical
    requires HasRequired(r.Keys)
  {
    var kind := typ(CleanerInput(r[Kind]));
    var amount := Number(amt(CellText(r[AmountColumnName]), kind));
    var mobile := IsMobilePayment(r[Description]);
    Canonical(
      transactionId := Str(sha256(IdKey(r[TransactionDate], amount, r[Description], r[SourceColumn]))),
      transactionDate := r[TransactionDate],
      description := r[Description],
      category := Str(cat(CleanerInput(r[Category]))),
      kind := Str(if mobile then "Payment" else kind),
      amount := amount,
      source := r[SourceColumn],
      transactionType := Str(if mobile then "Payment" else if IsPositiveCell(amount) then "Income" else "Spending"),
      amountChanged := amount)
  }

  /** The core steps' assignments, applied to one row. */
  function CoreRow(r: Row, sha256: string -> string): Row
    requires HasRequired(r.Keys)
  {
    CoreRowWith(r, sha256, CleanCategory, CleanType, CleanAmount)
  }

  /** `CoreRow` for any cleaners. */
  function CoreRowWith(r: Row, sha256: string -> string, cat: CategoryCleaner, typ: TypeCleaner, amt: AmountCleaner): Row
    requires HasRequired(r.Keys)
  {
    var r1 := r[Category := Str(cat(CleanerInput(r[Category])))];
    var r2 := r1[Kind := Str(typ(CleanerInput(r1[Kind])))];
    var r3 := r2[AmountChanged := Number(amt(CellText(r2[AmountColumnName]), TypeText(r2)))];
    var r4 := r3[TransactionType := Str(if IsPositiveCell(r3[AmountChanged]) then "Income" else "Spending")];
    var mobile := IsMobilePayment(r4[Description]);
    var r5 := r4[TransactionType := if mobile then Str("Payment") else r4[TransactionType]];
    var r6 := r5[Kind := if mobile then Str("Payment") else r5[Kind]];
    var r7 := r6[AmountColumnName := r6[AmountChanged]];
    r7[TransactionId := Str(sha256(IdKey(r7[TransactionDate], r7[AmountChanged], r7[Description], r7[SourceColumn])))]
  }

  /** Where each value of the core steps' assignments ends up, for any values. */
  lemma AssignmentChain(r: Row, category: Cell, kind: Cell, amount: Cell, sign: Cell, payment: Cell, mobile: bool)
    requires HasRequired(r.Keys)
    ensures var r4 := r[Category := category][Kind := kind][AmountChanged := amount][TransactionType := sign];
            var r6 := r4[TransactionType := if mobile then payment else r4[TransactionType]][Kind := if mobile then payment else kind];
            var r7 := r6[AmountColumnName := amount];
            && r[Category := category][Kind] == r[Kind]
            && r[Category := category][Kind := kind][AmountColumnName] == r[AmountColumnName]
            && r4[AmountChanged] == amount && r4[Description] == r[Description] && r4[TransactionType] == sign
            && r6[AmountChanged] == amount && r6[Kind] == (if mobile then payment else kind)
            && r7[TransactionDate] == r[TransactionDate] && r7[Description] == r[Description]
            && r7[SourceColumn] == r[SourceColumn] && r7[AmountChanged] == amount && r7[Category] == category
            && r7[TransactionType] == (if mobile then payment else sign)
  {
    DistinctColumnNames();
  }

  lemma CoreRowProjects(r: Row, sha256: string -> string)
    requires HasRequired(r.Keys)
    ensures HasCanonicalColumns(CoreRow(r, sha256))
    ensures Project(CoreRow(r, sha256)) == ExpectedRow(r, sha256)
  {
    CoreRowProjectsWith(r, sha256, CleanCategory, CleanType, CleanAmount);
  }

  lemma CoreRowProjectsWith(r: Row, sha256: string -> string, cat: CategoryCleaner, typ: TypeCleaner, amt: AmountCleaner)
    requires HasRequired(r.Keys)
    ensures HasCanonicalColumns(CoreRowWith(r, sha256, cat, typ, amt))
    ensures Project(CoreRowWith(r, sha256, cat, typ, amt)) == ExpectedRowWith(r, sha256, cat, typ, amt)
  {
    var category := Str(cat(CleanerInput(r[Category])));
    var kind := typ(CleanerInput(r[Kind]));
    var amount := Number(amt(CellText(r[AmountColumnName]), kind));
    var sign := Str(if IsPositiveCell(amount) then "Income" else "Spending");
    var mobile := IsMobilePayment(r[Description]);
    AssignmentChain(r, category, Str(kind), amount, sign, Str("Payment"), mobile);
  }

  /** The column names the pipeline reads and writes are pairwise different. */
  lemma DistinctColumnNames()
    ensures Category != Kind && Category != AmountColumnName && Category != Description
    ensures Category != TransactionDate && Category != SourceColumn && Category != AmountChanged
    ensures Category != TransactionType && Category != TransactionId && Category != Merchant
    ensures Kind != AmountColumnName && Kind != Description && Kind != TransactionDate
    ensures Kind != SourceColumn && Kind != AmountChanged && Kind != TransactionType
    ensures Kind != TransactionId && Kind != Merchant && AmountColumnName != Description
    ensures AmountColumnName != TransactionDate && AmountColumnName != SourceColumn && AmountColumnName != AmountChanged
    ensures AmountColumnName != TransactionType && AmountColumnName != TransactionId && AmountColumnName != Merchant
    ensures Description != TransactionDate && Description != SourceColumn && Description != AmountChanged
    ensures Description != TransactionType && Description != TransactionId && Description != Merchant
    ensures TransactionDate != SourceColumn && TransactionDate != AmountChanged && TransactionDate != TransactionType
    ensures TransactionDate != TransactionId && TransactionDate != Merchant && SourceColumn != AmountChanged
    ensures SourceColumn != TransactionType && SourceColumn != TransactionId && SourceColumn != Merchant
    ensures AmountChanged != TransactionType && AmountChanged != TransactionId && AmountChanged != Merchant
    ensures TransactionType != TransactionId && TransactionType != Merchant && TransactionId != Merchant
  {
    assert |Category| == 8 && |Kind| == 4;
    assert |Category| == 8 && |AmountColumnName| == 6;
    assert |Category| == 8 && |Description| == 11;
    assert |Category| == 8 && |TransactionDate| == 16;
    assert |Category| == 8 && |SourceColumn| == 6;
    assert |Category| == 8 && |AmountChanged| == 14;
    assert |Category| == 8 && |TransactionType| == 16;
    assert |Category| == 8 && |TransactionId| == 14;
    assert Category[0] != Merchant[0];
    assert |Kind| == 4 && |AmountColumnName| == 6;
    assert |Kind| == 4 && |Description| == 11;
    assert |Kind| == 4 && |TransactionDate| == 16;
    assert |Kind| == 4 && |SourceColumn| == 6;
    assert |Kind| == 4 && |AmountChanged| == 14;
    assert |Kind| == 4 && |TransactionType| == 16;
    assert |Kind| == 4 && |TransactionId| == 14;
    assert |Kind| == 4 && |Merchant| == 8;
    assert |AmountColumnName| == 6 && |Description| == 11;
    assert |AmountColumnName| == 6 && |TransactionDate| == 16;
    assert AmountColumnName[0] != SourceColumn[0];
    assert |AmountColumnName| == 6 && |AmountChanged| == 14;
    assert |AmountColumnName| == 6 && |TransactionType| == 16;
    assert |AmountColumnName| == 6 && |TransactionId| == 14;
    assert |AmountColumnName| == 6 && |Merchant| == 8;
    assert |Description| == 11 && |TransactionDate| == 16;
    assert |Description| == 11 && |SourceColumn| == 6;
    assert |Description| == 11 && |AmountChanged| == 14;
    assert |Description| == 11 && |TransactionType| == 16;
    assert |Description| == 11 && |TransactionId| == 14;
    assert |Description| == 11 && |Merchant| == 8;
    assert |TransactionDate| == 16 && |SourceColumn| == 6;
    assert |TransactionDate| == 16 && |AmountChanged| == 14;
    assert TransactionDate[12] != TransactionType[12];
    assert |TransactionDate| == 16 && |TransactionId| == 14;
    assert |TransactionDate| == 16 && |Merchant| == 8;
    assert |SourceColumn| == 6 && |AmountChanged| == 14;
    assert |SourceColumn| == 6 && |TransactionType| == 16;
    assert |SourceColumn| == 6 && |TransactionId| == 14;
    assert |SourceColumn| == 6 && |Merchant| == 8;
    assert |AmountChanged| == 14 && |TransactionType| == 16;
    assert AmountChanged[0] != TransactionId[0];
    assert |AmountChanged| == 14 && |Merchant| == 8;
    assert |TransactionType| == 16 && |TransactionId| == 14;
    assert |TransactionType| == 16 && |Merchant| == 8;
    assert |TransactionId| == 14 && |Merchant| == 8;
  }

  /** The column-at-a-time core steps compute `CoreRow` on every row, or report the first problem they meet. */
  lemma CoreByRows(t: Table, sha256: string -> string)
    requires WellFormed(t)
    ensures Core(t, sha256).result.Ok? <==> CoreAccepts(t)
    ensures !CoreAccepts(t) ==> Core(t, sha256).result == Err(FirstFailure(t))
    ensures CoreAccepts(t) ==>
      |Core(t, sha256).result.value| == |t.rows|
      && forall i :: 0 <= i < |t.rows| ==>
           HasRequired(t.rows[i].Keys) && Core(t, sha256).result.value[i] == Project(CoreRow(t.rows[i], sha256))
  {
    if CoreAccepts(t) {
      CoreRows(t, sha256);
    } else {
      CoreFails(t, sha256);
    }
  }

  /** Assigning one column leaves what `Cleanable` and `StringColumn` see in any other column as it was. */
  lemma OtherColumnChecks(t: Table, name: string, values: seq<Cell>, other: string)
    requires WellFormed(t) && |values| == |t.rows| && name != other
    ensures Cleanable(WithColumn(t, name, values), other) == Cleanable(t, other)
    ensures StringColumn(WithColumn(t, name, values), other) == StringColumn(t, other)
  {
    var r := WithColumn(t, name, values);
    SameColumnChecks(r.rows, t.rows, other);
  }

  /** The core steps fail with the first problem they meet. */
  lemma CoreFails(t: Table, sha256: string -> string)
    requires WellFormed(t) && !CoreAccepts(t)
    ensures Core(t, sha256).result == Err(FirstFailure(t))
  {
    CoreFailsWith(t, sha256, CleanCategory, CleanType, CleanAmount);
  }

  /** `CoreFails` for any cleaners: which check fails first does not depend on what they compute. */
  lemma CoreFailsWith(t: Table, sha256: string -> string, cat: CategoryCleaner, typ: TypeCleaner, amt: AmountCleaner)
    requires WellFormed(t) && !CoreAccepts(t)
    ensures CoreWith(t, sha256, cat, typ, amt).result == Err(FirstFailure(t))
  {
    DistinctColumnNames();
    var run := CoreWith(t, sha256, cat, typ, amt);
    if Category !in t.columns {
      assert FirstFailure(t) == MissingColumn(Category);
      assert run.result == Err(MissingColumn(Category));
    } else if !Cleanable(t, Category) {
      assert FirstFailure(t) == NotText(Category);
      assert run.result == Err(NotText(Category));
    } else {
      var t1 := WithColumn(t, Category, CategoryColumn(t, cat));
      OtherColumnChecks(t, Category, CategoryColumn(t, cat), Kind);
      if Kind !in t.columns {
        assert FirstFailure(t) == MissingColumn(Kind);
        assert run.result == Err(MissingColumn(Kind));
      } else if !Cleanable(t, Kind) {
        assert FirstFailure(t) == NotText(Kind);
        assert run.result == Err(NotText(Kind));
      } else {
        var t2 := WithColumn(t1, Kind, TypeColumn(t1, typ));
        if AmountColumnName !in t.columns {
          assert FirstFailure(t) == MissingColumn(AmountColumnName);
          assert run.result == Err(MissingColumn(AmountColumnName));
        } else {
          var t3 := WithColumn(t2, AmountChanged, AmountColumn(t2, amt));
          var t4 := WithColumn(t3, TransactionType, SignTypeColumn(t3));
          DescriptionKept(t, t1, t2, t3, t4, cat, typ, amt);
          assert t4.columns == t.columns + {Category, Kind, AmountChanged, TransactionType};
          LateColumnsKept(t.columns, t4.columns);
          if Description !in t.columns {
            assert FirstFailure(t) == MissingColumn(Description);
            assert run.result == Err(MissingColumn(Description));
          } else if !StringColumn(t, Description) {
            assert FirstFailure(t) == NotText(Description);
            assert run.result == Err(NotText(Description));
          } else {
            assert run == Finish(t4, sha256);
            if TransactionDate !in t.columns {
              assert FirstFailure(t) == MissingColumn(TransactionDate);
              assert run.result == Err(MissingColumn(TransactionDate));
            } else {
              assert FirstFailure(t) == MissingColumn(SourceColumn);
              assert run.result == Err(MissingColumn(SourceColumn));
            }
          }
        }
      }
    }
  }

  /** The cleaning steps add no column that the later checks look for. */
  lemma LateColumnsKept(before: set<string>, after: set<string>)
    requires after == before + {Category, Kind, AmountChanged, TransactionType}
    ensures TransactionDate in after <==> TransactionDate in before
    ensures SourceColumn in after <==> SourceColumn in before
  {
    DistinctColumnNames();
  }

  /** The Description column the mobile-payment test reads is the input's. */
  lemma DescriptionKept(t: Table, t1: Table, t2: Table, t3: Table, t4: Table, cat: CategoryCleaner, typ: TypeCleaner, amt: AmountCleaner)
    requires WellFormed(t) && Category in t.columns
    requires t1 == WithColumn(t, Category, CategoryColumn(t, cat)) && Kind in t1.columns
    requires t2 == WithColumn(t1, Kind, TypeColumn(t1, typ)) && AmountColumnName in t2.columns
    requires t3 == WithColumn(t2, AmountChanged, AmountColumn(t2, amt))
    requires t4 == WithColumn(t3, TransactionType, SignTypeColumn(t3))
    ensures StringColumn(t4, Description) == StringColumn(t, Description)
  {
    OtherColumnChecks(t, Category, CategoryColumn(t, cat), Description);
    OtherColumnChecks(t1, Kind, TypeColumn(t1, typ), Description);
    OtherColumnChecks(t2, AmountChanged, AmountColumn(t2, amt), Description);
    OtherColumnChecks(t3, TransactionType, SignTypeColumn(t3), Description);
  }

  lemma CoreRows(t: Table, sha256: string -> string)
    requires WellFormed(t) && CoreAccepts(t)
    ensures Core(t, sha256).result.Ok? && |Core(t, sha256).result.value| == |t.rows|
    ensures forall i :: 0 <= i < |t.rows| ==>
      HasRequired(t.rows[i].Keys) && Core(t, sha256).result.value[i] == Project(CoreRow(t.rows[i], sha256))
  {
    CoreRowsWith(t, sha256, CleanCategory, CleanType, CleanAmount);
  }

  /** `CoreRows` for any cleaners. */
  lemma CoreRowsWith(t: Table, sha256: string -> string, cat: CategoryCleaner, typ: TypeCleaner, amt: AmountCleaner)
    requires WellFormed(t) && CoreAccepts(t)
    ensures CoreWith(t, sha256, cat, typ, amt).result.Ok? && |CoreWith(t, sha256, cat, typ, amt).result.value| == |t.rows|
    ensures forall i :: 0 <= i < |t.rows| ==>
      HasRequired(t.rows[i].Keys)
      && CoreWith(t, sha256, cat, typ, amt).result.value[i] == Project(CoreRowWith(t.rows[i], sha256, cat, typ, amt))
  {
    {
      var t1 := WithColumn(t, Category, CategoryColumn(t, cat));
      var t2 := WithColumn(t1, Kind, TypeColumn(t1, typ));
      var t3 := WithColumn(t2, AmountChanged, AmountColumn(t2, amt));
      var t4 := WithColumn(t3, TransactionType, SignTypeColumn(t3));
      var mask := MobileMask(t4);
      var t5 := WithWhere(t4, mask, TransactionType, Str("Payment"));
      var t6 := WithWhere(t5, mask, Kind, Str("Payment"));
      var t7 := WithColumn(t6, AmountColumnName, Column(t6, AmountChanged));
      var t8 := WithColumn(t7, TransactionId, IdColumn(t7, sha256));
      OtherColumnChecks(t, Category, CategoryColumn(t, cat), Kind);
      DescriptionKept(t, t1, t2, t3, t4, cat, typ, amt);
      assert CoreWith(t, sha256, cat, typ, amt).result == Ok(seq(|t8.rows|, i requires 0 <= i < |t8.rows| => Project(t8.rows[i])));
      forall i | 0 <= i < |t.rows|
        ensures t8.rows[i] == CoreRowWith(t.rows[i], sha256, cat, typ, amt)
      {
        var r1 := t1.rows[i];
        var r2 := t2.rows[i];
        var r3 := t3.rows[i];
        var r4 := t4.rows[i];
        var r5 := t5.rows[i];
        var r6 := t6.rows[i];
        var r7 := t7.rows[i];
        assert r1 == t.rows[i][Category := Str(cat(CleanerInput(t.rows[i][Category])))];
        assert r2 == r1[Kind := Str(typ(CleanerInput(r1[Kind])))];
        assert r3 == r2[AmountChanged := Number(amt(CellText(r2[AmountColumnName]), TypeText(r2)))];
        assert r4 == r3[TransactionType := Str(if IsPositiveCell(r3[AmountChanged]) then "Income" else "Spending")];
        assert r5 == r4[TransactionType := if IsMobilePayment(r4[Description]) then Str("Payment") else r4[TransactionType]];
        assert r6 == r5[Kind := if IsMobilePayment(r4[Description]) then Str("Payment") else r5[Kind]];
        assert r7 == r6[AmountColumnName := r6[AmountChanged]];
        assert t8.rows[i] == r7[TransactionId := Str(sha256(IdKey(r7[TransactionDate], r7[AmountChanged], r7[Description], r7[SourceColumn])))];
      }
    }
  }

  /** The core steps compute `ExpectedRow` on every row, or name the first missing column. */
  lemma CoreMatchesReference(t: Table, sha256: string -> string)
    requires WellFormed(t)
    ensures Core(t, sha256).result.Ok? <==> CoreAccepts(t)
    ensures !CoreAccepts(t) ==> Core(t, sha256).result == Err(FirstFailure(t))
    ensures CoreAccepts(t) ==>
      |Core(t, sha256).result.value| == |t.rows|
      && forall i :: 0 <= i < |t.rows| ==>
           HasRequired(t.rows[i].Keys) && Core(t, sha256).result.value[i] == ExpectedRow(t.rows[i], sha256)
  {
    CoreByRows(t, sha256);
    forall i | 0 <= i < |t.rows| && CoreAccepts(t)
      ensures Project(CoreRow(t.rows[i], sha256)) == ExpectedRow(t.rows[i], sha256)
    {
      CoreRowProjects(t.rows[i], sha256);
    }
  }

  // ---------------------------------------------------------------------
  // The remap branch, row by row
  // ---------------------------------------------------------------------

  /** Whether the remap branch can process this row: no rename collision, a parseable date. */
  predicate CanPrepare(r: Row, source: string, toDate: string -> Option<Date>)
    requires IsMappedSource(source)
  {
    var m := Mappings[Lower(source)];
    RenameInjective(m, r.Keys) && TransactionDate in RenameRow(r, m)
    && DateCell(RenameRow(r, m)[TransactionDate], toDate).Ok?
  }

  /** The remap branch applied to one row. */
  function PreparedRow(r: Row, source: string, toDate: string -> Option<Date>): Row
    requires IsMappedSource(source) && CanPrepare(r, source, toDate)
  {
    var r1 := RenameRow(r, Mappings[Lower(source)]);
    var r2 := r1[TransactionDate := DateCell(r1[TransactionDate], toDate).value];
    var r3 := r2[SourceColumn := Str(TitleCase(source))];
    if Merchant in r3 && Description in r3 then r3[Description := WithMerchant(r3)] else r3
  }

  lemma PrepareByRows(t: Table, source: string, toDate: string -> Option<Date>)
    requires WellFormed(t) && IsMappedSource(source)
    ensures Prepare(t, source, toDate).Ok? ==>
      forall i :: 0 <= i < |t.rows| ==>
        CanPrepare(t.rows[i], source, toDate) && Prepare(t, source, toDate).value.rows[i] == PreparedRow(t.rows[i], source, toDate)
  {
    var m := Mappings[Lower(source)];
    if Prepare(t, source, toDate).Ok? {
      var t1 := RenameTable(t, m).value;
      var dates := ToDatetime(Column(t1, TransactionDate), toDate).value;
      var t2 := WithColumn(t1, TransactionDate, dates);
      var t3 := WithColumn(t2, SourceColumn, Constant(|t2.rows|, Str(TitleCase(source))));
      forall i | 0 <= i < |t.rows|
        ensures CanPrepare(t.rows[i], source, toDate) && Prepare(t, source, toDate).value.rows[i] == PreparedRow(t.rows[i], source, toDate)
      {
        assert t1.rows[i] == RenameRow(t.rows[i], m);
        assert t3.rows[i].Keys == t3.columns;
        if Merchant in t3.columns {
          assert Prepare(t, source, toDate).value == WithColumn(t3, Description, MerchantColumn(t3));
        }
      }
    }
  }

  /** Whether `normalize` can turn this row into a canonical row. */
  predicate Ready(r: Row, source: string, toDate: string -> Option<Date>) {
    if IsMappedSource(source) then CanPrepare(r, source, toDate) && HasRequired(PreparedRow(r, source, toDate).Keys)
    else HasRequired(r.Keys)
  }

  /**
   * The canonical row `normalize` makes of one input row: the core steps' outcome on
   * the remapped row for a mapped source, on the row itself for any other label.
   */
  function NormalizedRow(r: Row, source: string, toDate: string -> Option<Date>, sha256: string -> string): Canonical
    requires Ready(r, source, toDate)
  {
    if IsMappedSource(source) then ExpectedRow(PreparedRow(r, source, toDate), sha256) else ExpectedRow(r, sha256)
  }

  /** `normalize` turns the i-th input row into the i-th canonical row, each on its own. */
  lemma NormalizeByRows(t: Table, source: string, toDate: string -> Option<Date>, sha256: string -> string)
    requires WellFormed(t)
    ensures NormalizeTable(t, source, toDate, sha256).Ok? ==>
      |NormalizeTable(t, source, toDate, sha256).value| == |t.rows|
      && forall i :: 0 <= i < |t.rows| ==>
           Ready(t.rows[i], source, toDate)
           && NormalizeTable(t, source, toDate, sha256).value[i] == NormalizedRow(t.rows[i], source, toDate, sha256)
  {
    if IsMappedSource(source) {
      PrepareByRows(t, source, toDate);
      if Prepare(t, source, toDate).Ok? {
        var p := Prepare(t, source, toDate).value;
        CoreMatchesReference(p, sha256);
        forall i | 0 <= i < |t.rows| && NormalizeTable(t, source, toDate, sha256).Ok?
          ensures HasRequired(PreparedRow(t.rows[i], source, toDate).Keys)
        {
          assert p.rows[i].Keys == p.columns;
        }
      }
    } else {
      CoreMatchesReference(t, sha256);
    }
  }

  /**
   * Any other source label fails exactly when a column the core steps read is missing
   * or holds values they cannot process, naming the first such problem.
   */
  lemma UnmappedFailsOnFirstProblem(t: Table, source: string, toDate: string -> Option<Date>, sha256: string -> string)
    requires WellFormed(t) && !IsMappedSource(source)
    ensures NormalizeTable(t, source, toDate, sha256).Ok? <==> CoreAccepts(t)
    ensures !CoreAccepts(t) ==> NormalizeTable(t, source, toDate, sha256) == Err(FirstFailure(t))
  {
    CoreMatchesReference(t, sha256);
  }

  /**
   * The columns of every canonical row: the amount is duplicated into both amount
   * columns, the transaction type is "Payment" exactly for a mobile card payment and
   * otherwise follows the sign, a mobile payment's Type is "Payment", and the
   * identifier hashes the row's own date, amount, description and source.
   */
  lemma ExpectedRowShape(r: Row, sha256: string -> string)
    requires HasRequired(r.Keys)
    ensures var o := ExpectedRow(r, sha256);
      && o.amountChanged.Number? && o.amount == o.amountChanged
      && o.category.Str? && o.kind.Str?
      && (o.transactionType == Str("Payment") <==> IsMobilePayment(o.description))
      && (o.transactionType == Str("Income") <==> !IsMobilePayment(o.description) && IsPositive(o.amountChanged.amount))
      && (o.transactionType == Str("Spending") <==> !IsMobilePayment(o.description) && !IsPositive(o.amountChanged.amount))
      && (IsMobilePayment(o.description) ==> o.kind == Str("Payment"))
      && (o.kind == Str("Income") ==> !IsNegative(o.amountChanged.amount))
      && o.transactionId == Str(sha256(IdKey(o.transactionDate, o.amountChanged, o.description, o.source)))
  {
    ExpectedRowShapeWith(r, sha256, CleanCategory, CleanType, CleanAmount);
    var o := ExpectedRow(r, sha256);
    if o.kind == Str("Income") {
      IncomeNeverNegative(CellText(r[AmountColumnName]));
    }
  }

  /** The shape facts that hold whatever the cleaners compute. */
  lemma ExpectedRowShapeWith(r: Row, sha256: string -> string, cat: CategoryCleaner, typ: TypeCleaner, amt: AmountCleaner)
    requires HasRequired(r.Keys)
    ensures var o := ExpectedRowWith(r, sha256, cat, typ, amt);
      var kind := typ(CleanerInput(r[Kind]));
      && o.amountChanged == Number(amt(CellText(r[AmountColumnName]), kind)) && o.amount == o.amountChanged
      && o.category.Str? && o.kind.Str?
      && (o.transactionType == Str("Payment") <==> IsMobilePayment(o.description))
      && (o.transactionType == Str("Income") <==> !IsMobilePayment(o.description) && IsPositive(o.amountChanged.amount))
      && (o.transactionType == Str("Spending") <==> !IsMobilePayment(o.description) && !IsPositive(o.amountChanged.amount))
      && o.kind == Str(if IsMobilePayment(o.description) then "Payment" else kind)
      && o.transactionId == Str(sha256(IdKey(o.transactionDate, o.amountChanged, o.description, o.source)))
  {
    assert "Payment"[0] != "Income"[0] && "Payment"[0] != "Spending"[0] && "Income"[0] != "Spending"[0];
  }

  /** Every row `normalize` returns has the shape `ExpectedRowShape` describes. */
  lemma NormalizedOutputShape(t: Table, source: string, toDate: string -> Option<Date>, sha256: string -> string, i: nat)
    requires WellFormed(t) && NormalizeTable(t, source, toDate, sha256).Ok?
    requires i < |NormalizeTable(t, source, toDate, sha256).value|
    ensures var o := NormalizeTable(t, source, toDate, sha256).value[i];
      && o.amountChanged.Number? && o.amount == o.amountChanged
      && (o.transactionType == Str("Payment") <==> IsMobilePayment(o.description))
      && (o.transactionType == Str("Income") <==> !IsMobilePayment(o.description) && IsPositive(o.amountChanged.amount))
      && (o.transactionType == Str("Spending") <==> !IsMobilePayment(o.description) && !IsPositive(o.amountChanged.amount))
      && (IsMobilePayment(o.description) ==> o.kind == Str("Payment"))
      && (o.kind == Str("Income") ==> !IsNegative(o.amountChanged.amount))
      && o.transactionId == Str(sha256(IdKey(o.transactionDate, o.amountChanged, o.description, o.source)))
  {
    NormalizeByRows(t, source, toDate, sha256);
    var r := t.rows[i];
    if IsMappedSource(source) {
      ExpectedRowShape(PreparedRow(r, source, toDate), sha256);
    } else {
      ExpectedRowShape(r, sha256);
    }
  }

  /** For a mapped source the label is stamped title-cased, dates are parsed, and the merchant suffix is applied. */
  lemma MappedRowColumns(r: Row, source: string, toDate: string -> Option<Date>, sha256: string -> string)
    requires IsMappedSource(source) && Ready(r, source, toDate)
    ensures var o := NormalizedRow(r, source, toDate, sha256);
      var q := RenameRow(r, Mappings[Lower(source)]);
      && o.source == Str(TitleCase(source))
      && o.transactionDate == DateCell(q[TransactionDate], toDate).value
      && (o.transactionDate.Stamp? || o.transactionDate.NotATime?)
      && Description in q
      && o.description == (if Merchant in q then WithMerchant(q) else q[Description])
  {
    var p := PreparedRow(r, source, toDate);
    ExpectedRowCopies(p, sha256);
    PreparedRowColumns(r, source, toDate);
  }

  lemma PreparedRowColumns(r: Row, source: string, toDate: string -> Option<Date>)
    requires IsMappedSource(source) && Ready(r, source, toDate)
    ensures var p := PreparedRow(r, source, toDate);
      var q := RenameRow(r, Mappings[Lower(source)]);
      && p[SourceColumn] == Str(TitleCase(source))
      && p[TransactionDate] == DateCell(q[TransactionDate], toDate).value
      && (p[TransactionDate].Stamp? || p[TransactionDate].NotATime?)
      && Description in q
      && p[Description] == (if Merchant in q then WithMerchant(q) else q[Description])
  {
    var q := RenameRow(r, Mappings[Lower(source)]);
    DateCellKinds(q[TransactionDate], toDate);
    StampedRow(q, DateCell(q[TransactionDate], toDate).value, Str(TitleCase(source)));
  }

  /** A converted date is a timestamp or "not a time". */
  lemma DateCellKinds(c: Cell, toDate: string -> Option<Date>)
    ensures DateCell(c, toDate).Ok? ==> DateCell(c, toDate).value.Stamp? || DateCell(c, toDate).value.NotATime?
  {
  }

  /** The last steps of the remap branch on a renamed row `q`: only date, source and description change. */
  lemma StampedRow(q: Row, date: Cell, tag: Cell)
    ensures var r3 := q[TransactionDate := date][SourceColumn := tag];
      var p := if Merchant in r3 && Description in r3 then r3[Description := WithMerchant(r3)] else r3;
      && p.Keys == q.Keys + {TransactionDate, SourceColumn}
      && p[SourceColumn] == tag && p[TransactionDate] == date
      && (Description in p ==> Description in q && p[Description] == (if Merchant in q then WithMerchant(q) else q[Description]))
  {
    assert |Description| != |TransactionDate| && |Description| != |SourceColumn| && |SourceColumn| != |TransactionDate|;
    assert |Merchant| != |TransactionDate| && |Merchant| != |SourceColumn|;
    var r3 := q[TransactionDate := date][SourceColumn := tag];
    if Merchant in q && Description in q {
      assert r3[Merchant] == q[Merchant] && r3[Description] == q[Description];
      assert WithMerchant(r3) == WithMerchant(q);
    }
  }

  /** The date, description and source columns pass through the cleaning unchanged. */
  lemma ExpectedRowCopies(r: Row, sha256: string -> string)
    requires HasRequired(r.Keys)
    ensures var o := ExpectedRow(r, sha256);
      o.transactionDate == r[TransactionDate] && o.description == r[Description] && o.source == r[SourceColumn]
  {
  }

  /** For any other label every column is the input row's own. */
  lemma UnmappedRowColumns(r: Row, source: string, toDate: string -> Option<Date>, sha256: string -> string)
    requires !IsMappedSource(source) && Ready(r, source, toDate)
    ensures var o := NormalizedRow(r, source, toDate, sha256);
      o.source == r[SourceColumn] && o.transactionDate == r[TransactionDate] && o.description == r[Description]
  {
  }

  /**
   * Two identical input rows of one statement become identical canonical rows, so
   * they share one `transaction_id` and the store keeps only one of them.
   */
  lemma IdenticalRowsCollide(t: Table, source: string, toDate: string -> Option<Date>, sha256: string -> string, i: nat, j: nat)
    requires WellFormed(t) && NormalizeTable(t, source, toDate, sha256).Ok?
    requires i < |t.rows| && j < |t.rows| && t.rows[i] == t.rows[j]
    ensures |NormalizeTable(t, source, toDate, sha256).value| == |t.rows|
    ensures NormalizeTable(t, source, toDate, sha256).value[i] == NormalizeTable(t, source, toDate, sha256).value[j]
  {
    NormalizeByRows(t, source, toDate, sha256);
  }

  /** The label "Amex" selects no mapping: the key is "american_express". */
  lemma AmexIsNotMapped()
    ensures !IsMappedSource("Amex")
  {
    var t := Lower("Amex");
    assert t[0] == 'a' && t[1..] == "mex";
  }

  /** The "pre-merged union" guard is subsumed by the table lookup: a label is remapped exactly when its lower-case form is a key. */
  lemma MappedSourcesAreTheKeys(source: string)
    ensures IsMappedSource(source) <==> Lower(source) in {"usaa", "chase", "apple", "frost", "american_express"}
  {
    assert Mappings.Keys == {"usaa", "chase", "apple", "frost", "american_express"};
  }
}
