/**
 * The depot sheet as the calculators receive it: the required-column check
 * and the validate-then-return path of reading the sheet. Reading and writing
 * the workbook itself is not modelled; the frame read is a parameter.
 */
module ExcelHandler {
  import opened Wrappers
  import opened Depots

  /** `REQUIRED_COLUMNS` of the configuration. */
  const RequiredColumns: seq<string> := ["Depot Designation", "Depot Address"]

  /** A data frame: its column labels and, per row, the cell of each column. */
  datatype Frame = Frame(columns: seq<string>, rows: seq<map<string, string>>)

  datatype ExcelError =
    | ReadError
    | MissingColumns(missing: seq<string>)

  /** `a` is `b` with some elements left out, order kept. */
  predicate IsSubsequence(a: seq<string>, b: seq<string>) {
    if a == [] then true
    else if b == [] then false
    else (a[0] == b[0] && IsSubsequence(a[1..], b[1..])) || IsSubsequence(a, b[1..])
  }

  /** `[col for col in required if col not in columns]` */
  function Missing(required: seq<string>, columns: seq<string>): (missing: seq<string>)
    ensures forall c :: c in missing <==> c in required && c !in columns
    ensures IsSubsequence(missing, required)
  {
    if required == [] then []
    else
      var rest := Missing(required[1..], columns);
      if required[0] in columns then
        SubsequenceDropHead(rest, required);
        rest
      else
        [required[0]] + rest
  }

  lemma SubsequenceDropHead(a: seq<string>, b: seq<string>)
    requires b != [] && IsSubsequence(a, b[1..])
    ensures IsSubsequence(a, b)
  {
  }

  /** `_validate_dataframe`: raises, naming the missing required columns, exactly
    * when at least one required column is absent. */
  function ValidateDataframe(df: Frame): (r: Result<(), ExcelError>)
    ensures r.Failure? <==> exists c :: c in RequiredColumns && c !in df.columns
    ensures r.Failure? ==> r.error == MissingColumns(Missing(RequiredColumns, df.columns))
  {
    var missing := Missing(RequiredColumns, df.columns);
    if missing != [] then
      assert missing[0] in missing;
      Failure(MissingColumns(missing))
    else Success(())
  }

  /** Columns other than the required ones never change the verdict or the missing list. */
  lemma ExtraColumnsIrrelevant(df1: Frame, df2: Frame)
    requires forall c :: c in RequiredColumns ==> (c in df1.columns <==> c in df2.columns)
    ensures ValidateDataframe(df1) == ValidateDataframe(df2)
  {
    MissingAgrees(RequiredColumns, df1.columns, df2.columns);
  }

  lemma {:induction false} MissingAgrees(required: seq<string>, columns1: seq<string>, columns2: seq<string>)
    requires forall c :: c in required ==> (c in columns1 <==> c in columns2)
    ensures Missing(required, columns1) == Missing(required, columns2)
  {
    if required != [] {
      assert forall c :: c in required[1..] ==> c in required;
      MissingAgrees(required[1..], columns1, columns2);
    }
  }

  /** `read_depot_data`: the frame read, unchanged, once it passes validation;
    * otherwise the read error or the validation error. */
  function ReadDepotData(read: Result<Frame, ()>): (r: Result<Frame, ExcelError>)
    ensures r.Success? <==> read.Success? && ValidateDataframe(read.value).Success?
    ensures r.Success? ==> r.value == read.value
    ensures read.Success? && ValidateDataframe(read.value).Failure? ==> r == Failure(ValidateDataframe(read.value).error)
  {
    match read
    case Failure(_) => Failure(ReadError)
    case Success(df) =>
      match ValidateDataframe(df)
      case Failure(e) => Failure(e)
      case Success(_) => Success(df)
  }

  /** Every row has a cell in every column. */
  predicate Rectangular(df: Frame) {
    forall i :: 0 <= i < |df.rows| ==> forall c :: c in df.columns ==> c in df.rows[i]
  }

  /** The depots of a frame read and validated: row i's "Depot Designation" and "Depot Address". */
  function DepotsOf(df: Frame): (depots: seq<Depot>)
    requires Rectangular(df) && ValidateDataframe(df).Success?
    ensures |depots| == |df.rows|
    ensures forall i :: 0 <= i < |depots| ==>
              depots[i].designation == df.rows[i][RequiredColumns[0]] &&
              depots[i].address == df.rows[i][RequiredColumns[1]]
  {
    assert RequiredColumns[0] in RequiredColumns && RequiredColumns[1] in RequiredColumns;
    seq(|df.rows|, i requires 0 <= i < |df.rows| =>
      Depot(df.rows[i][RequiredColumns[0]], df.rows[i][RequiredColumns[1]]))
  }
}
