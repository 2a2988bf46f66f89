/**
 * The shared database tools of `backend/tools/db_tools.py`: the table list, sample rows, a
 * pass-through statement tool, and `GetUniqueColumnValues`, a chain of checks that each return a
 * fixed message before the distinct values of one text column are fetched.
 *
 * The driver, the repository's safety predicate (`is_query_risky`) and Python's literal parser
 * (`ast.literal_eval`) are parameters.
 */
module DbTools {
  import opened Wrappers
  import opened Text
  import opened Messages
  import Agent

  // ---------------------------------------------------------------------------------------------
  // Python values as the literal parser returns them
  // ---------------------------------------------------------------------------------------------

  /**
   * One field of a parsed row: a `str`, a `bytes` value (its bytes kept as characters), or any
   * other Python literal (kept as its text).
   */
  datatype Field = PyStr(s: string) | PyBytes(bytes: string) | PyOther(repr: string)

  /** A row of `PRAGMA table_info` or of a SELECT: a tuple of fields. */
  type Row = seq<Field>

  /** `ast.literal_eval`: a list of rows, or `None` when it raises. */
  type LiteralParser = string -> Option<seq<Row>>

  /** `is_query_risky`, whose definition is not part of this model. */
  type SafetyCheck = string -> bool

  /** An exception the tool does not catch. */
  datatype PyError = IndexError | AttributeError

  /** What the tool hands back: a message, the list of values (before `str()`), or an exception. */
  datatype Outcome = Returned(text: string) | Values(values: seq<Field>) | Raised(error: PyError)

  // ---------------------------------------------------------------------------------------------
  // The plain tools
  // ---------------------------------------------------------------------------------------------

  const ListTablesQuery := "\n        SELECT name FROM sqlite_master WHERE type='table';\n    "
  const NoTablesFound := "No tables found."

  function ListTables(db: Database): (r: string)
    ensures db(ListTablesQuery, false) == "" ==> r == NoTablesFound
    ensures db(ListTablesQuery, false) != "" ==> r == db(ListTablesQuery, false)
  {
    var results := db(ListTablesQuery, false);
    if results == "" then NoTablesFound else results
  }

  const SampleRowsHead := "\n        SELECT *\n        FROM "
  const SampleRowsPad := "\n        "
  const SampleRowsLimit := "LIMIT 2"
  const SampleRowsEnd := "\n    "
  const SampleRowsTail := SampleRowsPad + SampleRowsLimit + SampleRowsEnd

  /** The two-row query of GetSampleRows, with the table name spliced in as given. */
  function SampleRowsQuery(table: string): string {
    SampleRowsHead + table + SampleRowsTail
  }

  /** GetSampleRows: two rows of the table, with the column names. */
  function GetSampleRows(table: string, db: Database): string {
    db(SampleRowsQuery(table), true)
  }

  /** ExecuteQuery: the statement reaches the driver unchecked. */
  function ExecuteQuery(sql: string, db: Database): string {
    db(sql, false)
  }

  // ---------------------------------------------------------------------------------------------
  // GetUniqueColumnValues
  // ---------------------------------------------------------------------------------------------

  const InvalidColumn := "Invalid column name provided."
  const Rejected := "A query has been rejected by the preprocessing script due to a potential unsafe statement."
  const NoColumnInfo := "Failed to retrieve column information."
  const NoColumnValues := "Failed to retrieve column values."
  const TextTypes := {"varchar", "nvarchar", "char", "nchar", "text", "string"}

  function ColumnInfoQuery(table: string): string {
    "\n    PRAGMA table_info(" + table + ");\n    "
  }

  function DistinctQuery(column: string, table: string): string {
    "SELECT DISTINCT " + column + " FROM " + table + " LIMIT 20"
  }

  function MissingColumn(column: string, table: string): string {
    "Column '" + column + "' does not exist in " + table + "."
  }

  function NotText(column: string): string {
    "Column '" + column + "' is not of a TEXT type and cannot be used."
  }

  /** The rows of the table info whose name field (index 1) is the column; a row too short raises. */
  function Matching(info: seq<Row>, column: string): (r: Result<seq<Row>, PyError>)
    ensures r.Success? <==> forall i :: 0 <= i < |info| ==> |info[i]| >= 2
    ensures r.Success? ==> forall row :: row in r.value <==> row in info && row[1] == PyStr(column)
    decreases |info|
  {
    if info == [] then Success([])
    else if |info[0]| < 2 then Failure(IndexError)
    else
      match Matching(info[1..], column)
      case Failure(e) => Failure(e)
      case Success(rest) =>
        Success(if info[0][1] == PyStr(column) then [info[0]] + rest else rest)
  }

  /** `[row[0] for row in rows]`; an empty row raises. */
  function FirstFields(rows: seq<Row>): (r: Result<seq<Field>, PyError>)
    ensures r.Success? <==> forall i :: 0 <= i < |rows| ==> rows[i] != []
    ensures r.Success? ==> |r.value| == |rows| && forall i :: 0 <= i < |rows| ==> r.value[i] == rows[i][0]
    decreases |rows|
  {
    if rows == [] then Success([])
    else if rows[0] == [] then Failure(IndexError)
    else
      match FirstFields(rows[1..])
      case Failure(e) => Failure(e)
      case Success(rest) => Success([rows[0][0]] + rest)
  }

  /**
   * The type field (index 2) of the first matching row is a string whose lower-case form is a text
   * type. A `bytes` value has `lower()` too, but never equals a `str`, so it is never a text type;
   * any other value has no `lower()` and raises.
   */
  function IsTextColumn(row: Row): Result<bool, PyError> {
    if |row| < 3 then Failure(IndexError)
    else
      match row[2]
      case PyStr(t) => Success(Lower(t) in TextTypes)
      case PyBytes(_) => Success(false)
      case PyOther(_) => Failure(AttributeError)
  }

  /** The second half of the chain, once the column is known to be a text column. */
  function FetchValues(column: string, table: string, db: Database, risky: SafetyCheck, parse: LiteralParser)
    : Outcome
  {
    var query := DistinctQuery(column, table);
    if risky(query) then Returned(Rejected)
    else
      match parse(db(query, false))
      case None => Returned(NoColumnValues)
      case Some(rows) =>
        match FirstFields(rows)
        case Failure(e) => Raised(e)
        case Success(values) => Values(values)
  }

  /** The checks on the parsed table info: the column exists and its declared type is a text type. */
  function FromColumnInfo(info: seq<Row>, column: string, table: string, db: Database, risky: SafetyCheck,
                          parse: LiteralParser): Outcome
  {
    match Matching(info, column)
    case Failure(e) => Raised(e)
    case Success(details) =>
      if details == [] then Returned(MissingColumn(column, table))
      else
        match IsTextColumn(details[0])
        case Failure(e) => Raised(e)
        case Success(isText) =>
          if !isText then Returned(NotText(column))
          else FetchValues(column, table, db, risky, parse)
  }

  /** GetUniqueColumnValues; the schema name is accepted and not used. */
  function GetUniqueColumnValues(schema: string, table: string, column: string,
                                 db: Database, risky: SafetyCheck, parse: LiteralParser): Outcome
  {
    if !IsIdentifier(column) then Returned(InvalidColumn)
    else
      var infoQuery := ColumnInfoQuery(table);
      if risky(infoQuery) then Returned(Rejected)
      else
        match parse(PyStrip(db(infoQuery, false)))
        case None => Returned(NoColumnInfo)
        case Some(info) => FromColumnInfo(info, column, table, db, risky, parse)
  }

  /** Every check passed up to the fetch of the values. */
  predicate Validated(table: string, column: string, db: Database, risky: SafetyCheck, parse: LiteralParser) {
    IsIdentifier(column)
    && !risky(ColumnInfoQuery(table))
    && parse(PyStrip(db(ColumnInfoQuery(table), false))).Some?
    && var info := parse(PyStrip(db(ColumnInfoQuery(table), false))).value;
    Matching(info, column).Success?
    && Matching(info, column).value != []
    && IsTextColumn(Matching(info, column).value[0]) == Success(true)
  }

  // ---------------------------------------------------------------------------------------------
  // Lemmas
  // ---------------------------------------------------------------------------------------------

  /** The sample query holds the table name as given, adds no bracket around it, and asks for two rows. */
  lemma SampleRowsNamesTable(table: string)
    ensures Contains(SampleRowsQuery(table), table)
    ensures '[' !in table ==> '[' !in SampleRowsQuery(table)
    ensures Contains(SampleRowsQuery(table), "LIMIT 2")
  {
    ContainsMiddle(SampleRowsHead, table, SampleRowsTail);
    assert '[' !in SampleRowsHead && '[' !in SampleRowsTail;
    var before := SampleRowsHead + table + SampleRowsPad;
    assert SampleRowsQuery(table) == before + SampleRowsLimit + SampleRowsEnd;
    ContainsMiddle(before, SampleRowsLimit, SampleRowsEnd);
  }

  /**
   * The guard of the agent's own ExecuteQuery is switched off here: every statement reaches the
   * driver, so a statement the agent rejects gets the driver's answer instead.
   */
  lemma GuardSwitchedOff(sql: string, db: Database)
    ensures ExecuteQuery(sql, db) == db(sql, false)
    ensures Agent.IsRisky(sql) && db(sql, false) != Agent.QueryRejected
            ==> ExecuteQuery(sql, db) != Agent.ExecuteQuery(sql, db)
  {
    Agent.ExecuteQueryGuards(sql, db, db);
  }

  /** The empty name is not an identifier. */
  lemma EmptyIsNotIdentifier()
    ensures !IsIdentifier("")
  {
  }

  /** A name that is not an identifier is refused before the database or the parser are used. */
  lemma InvalidColumnFirst(schema: string, table: string, column: string, db1: Database, db2: Database,
                           risky: SafetyCheck, parse1: LiteralParser, parse2: LiteralParser)
    requires !IsIdentifier(column)
    ensures GetUniqueColumnValues(schema, table, column, db1, risky, parse1) == Returned(InvalidColumn)
    ensures GetUniqueColumnValues(schema, table, column, db2, risky, parse2) == Returned(InvalidColumn)
  {
  }

  /** A rejected table-info statement is answered with the fixed message, without the database. */
  lemma RiskyInfoQueryRejected(schema: string, table: string, column: string, db1: Database, db2: Database,
                               risky: SafetyCheck, parse: LiteralParser)
    requires IsIdentifier(column) && risky(ColumnInfoQuery(table))
    ensures GetUniqueColumnValues(schema, table, column, db1, risky, parse) == Returned(Rejected)
    ensures GetUniqueColumnValues(schema, table, column, db2, risky, parse) == Returned(Rejected)
  {
  }

  /** Table info that does not parse gives the fixed column-information failure. */
  lemma UnparsableInfo(schema: string, table: string, column: string, db: Database, risky: SafetyCheck,
                       parse: LiteralParser)
    requires IsIdentifier(column) && !risky(ColumnInfoQuery(table))
    requires parse(PyStrip(db(ColumnInfoQuery(table), false))).None?
    ensures GetUniqueColumnValues(schema, table, column, db, risky, parse) == Returned(NoColumnInfo)
  {
  }

  /** A column no well-formed info row names is reported missing, with the column and table in the message. */
  lemma AbsentColumn(schema: string, table: string, column: string, db: Database, risky: SafetyCheck,
                     parse: LiteralParser)
    requires IsIdentifier(column) && !risky(ColumnInfoQuery(table))
    requires parse(PyStrip(db(ColumnInfoQuery(table), false))).Some?
    requires var info := parse(PyStrip(db(ColumnInfoQuery(table), false))).value;
             forall i :: 0 <= i < |info| ==> |info[i]| >= 2 && info[i][1] != PyStr(column)
    ensures GetUniqueColumnValues(schema, table, column, db, risky, parse) == Returned(MissingColumn(column, table))
  {
    var info := parse(PyStrip(db(ColumnInfoQuery(table), false))).value;
    NoMatchingRow(info, column);
    assert GetUniqueColumnValues(schema, table, column, db, risky, parse)
           == FromColumnInfo(info, column, table, db, risky, parse);
  }

  lemma {:induction false} NoMatchingRow(info: seq<Row>, column: string)
    requires forall i :: 0 <= i < |info| ==> |info[i]| >= 2 && info[i][1] != PyStr(column)
    ensures Matching(info, column) == Success([])
    decreases |info|
  {
    if info != [] {
      NoMatchingRow(info[1..], column);
    }
  }

  /**
   * The values come back only for an identifier that names a text column, after the table-info
   * statement passed the safety check; they are what the fetch of the distinct values gives
   * (see `FetchedValues`).
   */
  lemma ValuesOnlyWhenValidated(schema: string, table: string, column: string, db: Database,
                                risky: SafetyCheck, parse: LiteralParser)
    requires GetUniqueColumnValues(schema, table, column, db, risky, parse).Values?
    ensures Validated(table, column, db, risky, parse)
    ensures GetUniqueColumnValues(schema, table, column, db, risky, parse) == FetchValues(column, table, db, risky, parse)
  {
    var infoQuery := ColumnInfoQuery(table);
    var parsed := parse(PyStrip(db(infoQuery, false)));
    assert IsIdentifier(column) && !risky(infoQuery) && parsed.Some?;
    assert GetUniqueColumnValues(schema, table, column, db, risky, parse)
           == FromColumnInfo(parsed.value, column, table, db, risky, parse);
    ColumnInfoValues(parsed.value, column, table, db, risky, parse);
  }

  lemma ColumnInfoValues(info: seq<Row>, column: string, table: string, db: Database, risky: SafetyCheck,
                         parse: LiteralParser)
    requires FromColumnInfo(info, column, table, db, risky, parse).Values?
    ensures Matching(info, column).Success? && Matching(info, column).value != []
    ensures IsTextColumn(Matching(info, column).value[0]) == Success(true)
    ensures FromColumnInfo(info, column, table, db, risky, parse) == FetchValues(column, table, db, risky, parse)
  {
  }

  /**
   * The fetch yields values only when the safety check accepts the distinct-values statement and
   * its result parses; they are the first field of every result row, in row order.
   */
  lemma FetchedValues(column: string, table: string, db: Database, risky: SafetyCheck, parse: LiteralParser)
    requires FetchValues(column, table, db, risky, parse).Values?
    ensures !risky(DistinctQuery(column, table))
    ensures var rows := parse(db(DistinctQuery(column, table), false));
            var values := FetchValues(column, table, db, risky, parse).values;
            rows.Some? && |values| == |rows.value|
            && forall i :: 0 <= i < |values| ==> values[i] == rows.value[i][0]
  {
  }

  /**
   * Once the checks pass, the outcome is that of the distinct-values statement: exactly
   * `SELECT DISTINCT <column> FROM <table> LIMIT 20`, rejected when the safety check refuses it.
   */
  lemma ValidatedFetchesDistinct(schema: string, table: string, column: string, db: Database,
                                 risky: SafetyCheck, parse: LiteralParser)
    requires Validated(table, column, db, risky, parse)
    ensures GetUniqueColumnValues(schema, table, column, db, risky, parse) == FetchValues(column, table, db, risky, parse)
    ensures risky(DistinctQuery(column, table)) ==> FetchValues(column, table, db, risky, parse) == Returned(Rejected)
    ensures !risky(DistinctQuery(column, table)) && parse(db(DistinctQuery(column, table), false)).None?
            ==> FetchValues(column, table, db, risky, parse) == Returned(NoColumnValues)
    ensures parse(db(DistinctQuery(column, table), false)) == Some([]) && !risky(DistinctQuery(column, table))
            ==> FetchValues(column, table, db, risky, parse) == Values([])
  {
  }

  /**
   * The tool reads only two driver answers: those for the table-info statement and for the
   * distinct-values statement. Two drivers that agree on them give the same outcome.
   */
  lemma OnlyTwoStatements(schema: string, table: string, column: string, db1: Database, db2: Database,
                          risky: SafetyCheck, parse: LiteralParser)
    requires db1(ColumnInfoQuery(table), false) == db2(ColumnInfoQuery(table), false)
    requires db1(DistinctQuery(column, table), false) == db2(DistinctQuery(column, table), false)
    ensures GetUniqueColumnValues(schema, table, column, db1, risky, parse)
            == GetUniqueColumnValues(schema, table, column, db2, risky, parse)
  {
  }

  /** The type test ignores case and accepts exactly the listed text types. */
  lemma TextTypeIgnoresCase(row: Row)
    requires |row| >= 3 && row[2].PyStr?
    ensures IsTextColumn(row) == Success(Lower(row[2].s) in TextTypes)
    ensures IsTextColumn(row) == IsTextColumn(row[2 := PyStr(Upper(row[2].s))])
  {
    LowerOfUpper(row[2].s);
  }

  /** A `bytes` type is not a text type; a type that is neither `str` nor `bytes` raises. */
  lemma TypeFieldKinds(row: Row)
    requires |row| >= 3
    ensures row[2].PyBytes? ==> IsTextColumn(row) == Success(false)
    ensures row[2].PyOther? ==> IsTextColumn(row) == Failure(AttributeError)
    ensures IsTextColumn(row).Failure? <==> row[2].PyOther?
  {
  }

  /**
   * Row `i` is the first row of the table info naming the column, every row has a name field, and
   * the declared type of row `i` is not a text type.
   */
  predicate FirstNamesAsNonText(info: seq<Row>, column: string, i: nat) {
    (forall j :: 0 <= j < |info| ==> |info[j]| >= 2)
    && i < |info| && info[i][1] == PyStr(column)
    && (forall j :: 0 <= j < i ==> info[j][1] != PyStr(column))
    && IsTextColumn(info[i]) == Success(false)
  }

  /**
   * When the first info row naming the column declares a type that is not a text type, the tool
   * answers with the not-TEXT message and runs no further statement.
   */
  lemma NonTextColumn(schema: string, table: string, column: string, db: Database, risky: SafetyCheck,
                      parse: LiteralParser, i: nat)
    requires IsIdentifier(column) && !risky(ColumnInfoQuery(table))
    requires parse(PyStrip(db(ColumnInfoQuery(table), false))).Some?
    requires FirstNamesAsNonText(parse(PyStrip(db(ColumnInfoQuery(table), false))).value, column, i)
    ensures GetUniqueColumnValues(schema, table, column, db, risky, parse) == Returned(NotText(column))
  {
    var info := parse(PyStrip(db(ColumnInfoQuery(table), false))).value;
    NonTextInfo(info, column, table, db, risky, parse, i);
    assert GetUniqueColumnValues(schema, table, column, db, risky, parse)
           == FromColumnInfo(info, column, table, db, risky, parse);
  }

  lemma NonTextInfo(info: seq<Row>, column: string, table: string, db: Database, risky: SafetyCheck,
                    parse: LiteralParser, i: nat)
    requires FirstNamesAsNonText(info, column, i)
    ensures FromColumnInfo(info, column, table, db, risky, parse) == Returned(NotText(column))
  {
    MatchingKeepsOrder(info, column, i);
  }

  /** Only the first row naming the column decides its type. */
  lemma {:induction false} MatchingKeepsOrder(info: seq<Row>, column: string, i: int)
    requires Matching(info, column).Success? && 0 <= i < |info| && info[i][1] == PyStr(column)
    requires forall j :: 0 <= j < i ==> info[j][1] != PyStr(column)
    ensures Matching(info, column).value != [] && Matching(info, column).value[0] == info[i]
    decreases |info|
  {
    if i > 0 {
      MatchingKeepsOrder(info[1..], column, i - 1);
    }
  }
}
