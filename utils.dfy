/** The case-insensitive existence check of utils.js. */
module Utils {
  import opened Js
  import opened Seqs
  import opened Schema
  import opened Http

  /** Some value equals v once both are lower-cased. */
  predicate AnyEqualIgnoringCase(values: seq<string>, v: string) {
    exists i :: 0 <= i < |values| && EqualsIgnoringCase(values[i], v)
  }

  /** `SELECT * FROM table WHERE LOWER(column) = LOWER($1)` over the rows of one table. */
  function MatchingRows(rows: seq<Row>, column: string, value: string): (r: seq<Row>)
    ensures forall x :: x in r <==> x in rows && column in x && EqualsIgnoringCase(x[column], value)
  {
    Filter(rows, (x: Row) => column in x && EqualsIgnoringCase(x[column], value))
  }

  /** The rejection of checkExists: `{ status: 404, msg: column + " not found" }`. */
  function NotFound(column: string): (e: JsError)
    ensures e.status == Some(404) && e.message.None?
    ensures e.msg == Some(column + " not found")
  {
    StatusError(404, column + " not found")
  }

  /**
   * checkExists(table, column, value): resolves to true when some row's column
   * equals value ignoring case, and rejects with NotFound(column) otherwise.
   * The table is given by its rows; the query only reads them. The column is
   * compared by its text form, as `LOWER(column::text)` would.
   */
  function CheckExists(rows: seq<Row>, column: string, value: string): (r: Result<bool>)
    requires forall i :: 0 <= i < |rows| ==> column in rows[i]
    ensures r.Ok? <==> exists i :: 0 <= i < |rows| && EqualsIgnoringCase(rows[i][column], value)
    ensures r.Ok? ==> r.value == true
    ensures r.Err? ==> r.error == NotFound(column)
  {
    var found := MatchingRows(rows, column, value);
    assert forall i :: 0 <= i < |rows| && EqualsIgnoringCase(rows[i][column], value) ==> rows[i] in found;
    assert |found| > 0 ==> found[0] in rows;
    if |found| == 0 then Err(NotFound(column)) else Ok(true)
  }

  function Column(rows: seq<Row>, column: string): (vs: seq<string>)
    requires forall i :: 0 <= i < |rows| ==> column in rows[i]
    ensures |vs| == |rows|
  {
    seq(|rows|, i requires 0 <= i < |rows| => rows[i][column])
  }

  /** The check succeeds exactly when the column holds the value up to case. */
  lemma CheckExistsColumn(rows: seq<Row>, column: string, value: string)
    requires forall i :: 0 <= i < |rows| ==> column in rows[i]
    ensures CheckExists(rows, column, value).Ok? <==> AnyEqualIgnoringCase(Column(rows, column), value)
  {
    var vs := Column(rows, column);
    assert forall i :: 0 <= i < |rows| ==> vs[i] == rows[i][column];
  }

  /**
   * Looked up by the decimal form of an integer key, the check finds a row
   * exactly when some row holds that key, and then the text is that form.
   */
  lemma CheckExistsByKey(rows: seq<Row>, column: string, value: string)
    requires forall i :: 0 <= i < |rows| ==> column in rows[i]
    requires forall i :: 0 <= i < |rows| ==> exists n :: rows[i][column] == IntToString(n)
    requires CheckExists(rows, column, value).Ok?
    ensures exists i, n :: 0 <= i < |rows| && rows[i][column] == IntToString(n) && value == IntToString(n)
  {
    var i :| 0 <= i < |rows| && EqualsIgnoringCase(rows[i][column], value);
    var n :| rows[i][column] == IntToString(n);
    EqualsIgnoringCaseNoLetters(value, IntToString(n));
  }

  // ---------------------------------------------------------------------------
  // As written: LOWER on an integer column
  // ---------------------------------------------------------------------------

  /** The driver's rejection of `LOWER(property_id)`: PostgreSQL has no lower(integer). */
  const LowerOfInteger: JsError := Thrown("function lower(integer) does not exist")

  /**
   * checkExists as written: `LOWER(%I)` applied to an integer
   * column is a type error, so the query fails before any row is compared.
   */
  function CheckExistsAsWritten(rows: seq<Row>, column: string, value: string): (r: Result<bool>)
    requires forall i :: 0 <= i < |rows| ==> column in rows[i]
    ensures IntegerColumn(column) ==> r == Err(LowerOfInteger) && r.error.status.None?
    ensures !IntegerColumn(column) ==> (r.Ok? <==> exists i :: 0 <= i < |rows| && EqualsIgnoringCase(rows[i][column], value))
    ensures r.Err? && !IntegerColumn(column) ==> r.error == NotFound(column)
  {
    if IntegerColumn(column) then Err(LowerOfInteger) else CheckExists(rows, column, value)
  }

  /**
   * Looking up an existing property by its id fails as written, with an
   * error that carries no status, while the text comparison finds it.
   */
  lemma CheckExistsAsWrittenFailsOnIds(rows: seq<Row>, k: nat)
    requires forall i :: 0 <= i < |rows| ==> "property_id" in rows[i]
    requires k < |rows|
    ensures CheckExistsAsWritten(rows, "property_id", rows[k]["property_id"]) == Err(LowerOfInteger)
    ensures LowerOfInteger.status.None?
    ensures CheckExists(rows, "property_id", rows[k]["property_id"]) == Ok(true)
  {
  }

  /** On text columns the two readings agree. */
  lemma CheckExistsAsWrittenOnText(rows: seq<Row>, column: string, value: string)
    requires forall i :: 0 <= i < |rows| ==> column in rows[i]
    requires !IntegerColumn(column)
    ensures CheckExistsAsWritten(rows, column, value) == CheckExists(rows, column, value)
  {
  }
}
