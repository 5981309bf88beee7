/**
 * The `document` metadata table (accord/database.py), as the SQLite table behaves:
 * whether it exists, its rows in rowid order, and the largest id AUTOINCREMENT has
 * handed out. The pure functions give each statement's effect; the `Database` class
 * holds the table in fields and its methods are proved against those functions.
 */
module Database {
  import opened Results
  import opened Text

  /** The largest rowid SQLite can hand out (a signed 64-bit integer). */
  const MaxRowId: int := 0x7FFF_FFFF_FFFF_FFFF

  /** The name of the row `create_table` seeds for the cross-document index. */
  const ConcatenateName: string := "concatenate.pdf"

  /** CONCATENATE_DOCUMENT_FILE_PATH: `<artifacts_root>/document/concatenate.pkl`. */
  function ConcatenateDocumentPath(artifactsRoot: string): string
  {
    PathJoin(PathJoin(artifactsRoot, "document"), "concatenate.pkl")
  }

  /** CONCATENATE_EMBEDDED_FILE_PATH: `<artifacts_root>/embedded/concatenate.pkl`. */
  function ConcatenateEmbeddedPath(artifactsRoot: string): string
  {
    PathJoin(PathJoin(artifactsRoot, "embedded"), "concatenate.pkl")
  }

  /** One row of `document(id, name, file_path, vector_path)`. */
  datatype Row = Row(id: int, name: string, filePath: string, vectorPath: string)

  /**
   * The table: `present` is whether `document` exists, `rows` are its rows in rowid
   * order and `lastId` is the AUTOINCREMENT counter (sqlite_sequence).
   */
  datatype Table = Table(present: bool, rows: seq<Row>, lastId: int)

  /** A table change and whether the statement raised. */
  datatype Change = Change(table: Table, outcome: Outcome)

  /** A column value as sqlite3 returns it. */
  datatype Value = Integer(i: int) | Text(s: string)

  /** One dictionary of `get_data`'s result. */
  type Record = map<string, Value>

  /** Ids lie in 1..lastId and strictly increase in rowid order; a missing table has no rows. */
  predicate WellFormed(t: Table)
  {
    && 0 <= t.lastId <= MaxRowId
    && (!t.present ==> t.rows == [])
    && (forall i :: 0 <= i < |t.rows| ==> 1 <= t.rows[i].id <= t.lastId)
    && (forall i, j :: 0 <= i < j < |t.rows| ==> t.rows[i].id < t.rows[j].id)
  }

  /** `INSERT INTO document (name, file_path, vector_path) VALUES (?, ?, ?)` */
  function Inserted(t: Table, name: string, filePath: string, vectorPath: string): (r: Change)
    ensures !t.present ==> r == Change(t, Failed(NoSuchTable))
    ensures t.present && t.lastId >= MaxRowId ==> r == Change(t, Failed(RowIdExhausted))
    ensures t.present && t.lastId < MaxRowId ==> r.outcome == Done
    ensures r.outcome.Done? ==>
      && r.table.present
      && |r.table.rows| == |t.rows| + 1
      && r.table.rows[..|t.rows|] == t.rows
      && r.table.rows[|t.rows|] == Row(r.table.lastId, name, filePath, vectorPath)
      && r.table.lastId > t.lastId
    ensures r.outcome.Done? && WellFormed(t) ==> forall i :: 0 <= i < |t.rows| ==> t.rows[i].id < r.table.lastId
    ensures WellFormed(t) ==> WellFormed(r.table)
  {
    if !t.present then Change(t, Failed(NoSuchTable))
    else if t.lastId >= MaxRowId then Change(t, Failed(RowIdExhausted))
    else
      var id := t.lastId + 1;
      Change(Table(true, t.rows + [Row(id, name, filePath, vectorPath)], id), Done)
  }

  /** `create_table`: nothing when `document` exists; otherwise create it and seed the concatenate row. */
  function Created(t: Table, artifactsRoot: string): (r: Table)
    ensures t.present ==> r == t
    ensures !t.present ==> r == Table(true, [Row(1, ConcatenateName, ConcatenateDocumentPath(artifactsRoot), ConcatenateEmbeddedPath(artifactsRoot))], 1)
    ensures r.present
    ensures WellFormed(t) ==> WellFormed(r)
  {
    if t.present then t
    else Inserted(Table(true, [], 0), ConcatenateName, ConcatenateDocumentPath(artifactsRoot), ConcatenateEmbeddedPath(artifactsRoot)).table
  }

  /** `UPDATE document SET file_path = ..., vector_path = ... WHERE id = ...` */
  function Updated(t: Table, id: int, filePath: string, vectorPath: string): (r: Change)
    ensures !t.present ==> r == Change(t, Failed(NoSuchTable))
    ensures t.present ==> r.outcome == Done && r.table.present && r.table.lastId == t.lastId
    ensures |r.table.rows| == |t.rows|
    ensures forall i :: 0 <= i < |t.rows| ==>
      && r.table.rows[i].id == t.rows[i].id
      && r.table.rows[i].name == t.rows[i].name
      && (t.rows[i].id != id ==> r.table.rows[i] == t.rows[i])
      && (t.present && t.rows[i].id == id ==> r.table.rows[i].filePath == filePath && r.table.rows[i].vectorPath == vectorPath)
    ensures WellFormed(t) ==> WellFormed(r.table)
  {
    if !t.present then Change(t, Failed(NoSuchTable))
    else
      var rows := seq(|t.rows|, i requires 0 <= i < |t.rows| =>
        if t.rows[i].id == id then t.rows[i].(filePath := filePath, vectorPath := vectorPath) else t.rows[i]);
      Change(t.(rows := rows), Done)
  }

  /** One record of `get_data`: the four columns under their names. */
  function RecordOf(row: Row): (r: Record)
    ensures r.Keys == {"id", "name", "file_path", "vector_path"}
    ensures r["id"] == Integer(row.id) && r["name"] == Text(row.name)
    ensures r["file_path"] == Text(row.filePath) && r["vector_path"] == Text(row.vectorPath)
  {
    map["id" := Integer(row.id), "name" := Text(row.name), "file_path" := Text(row.filePath), "vector_path" := Text(row.vectorPath)]
  }

  /** `SELECT * FROM document` mapped to dictionaries, one per row in rowid order. */
  function Records(t: Table): (r: Result<seq<Record>>)
    ensures !t.present <==> r == Err(NoSuchTable)
    ensures r.Ok? ==> |r.value| == |t.rows| && forall i :: 0 <= i < |t.rows| ==> r.value[i] == RecordOf(t.rows[i])
  {
    if !t.present then Err(NoSuchTable)
    else Ok(seq(|t.rows|, i requires 0 <= i < |t.rows| => RecordOf(t.rows[i])))
  }

  /** Creating the table twice is creating it once. */
  lemma CreateTableIsIdempotent(t: Table, artifactsRoot: string)
    ensures Created(Created(t, artifactsRoot), artifactsRoot) == Created(t, artifactsRoot)
  {
  }

  /** An update whose id matches no row leaves the table as it was. */
  lemma {:induction false} UpdateOfUnknownIdChangesNothing(t: Table, id: int, filePath: string, vectorPath: string)
    requires t.present
    requires forall i :: 0 <= i < |t.rows| ==> t.rows[i].id != id
    ensures Updated(t, id, filePath, vectorPath) == Change(t, Done)
  {
    var r := Updated(t, id, filePath, vectorPath);
    assert r.table.rows == t.rows;
  }

  /** After a successful insert, `get_data` lists the new row last, under a fresh id. */
  lemma InsertedRowIsListedLast(t: Table, name: string, filePath: string, vectorPath: string)
    requires WellFormed(t)
    requires Inserted(t, name, filePath, vectorPath).outcome.Done?
    ensures var after := Records(Inserted(t, name, filePath, vectorPath).table);
      && after.Ok? && |after.value| == |t.rows| + 1
      && after.value[|t.rows|]["name"] == Text(name)
      && after.value[|t.rows|]["file_path"] == Text(filePath)
      && after.value[|t.rows|]["vector_path"] == Text(vectorPath)
      && (forall i :: 0 <= i < |t.rows| ==> after.value[|t.rows|]["id"] != Integer(t.rows[i].id))
  {
    var c := Inserted(t, name, filePath, vectorPath);
    assert c.table.rows[|t.rows|].id == c.table.lastId;
  }

  /** The statements the class issues, for reasoning about runs of them. */
  datatype Statement =
    | CreateTableStatement
    | InsertStatement(name: string, filePath: string, vectorPath: string)
    | UpdateStatement(id: int, filePath: string, vectorPath: string)
    | SelectStatement

  /** The table after running `statements` in order; a statement that raises changes nothing. */
  function Run(t: Table, artifactsRoot: string, statements: seq<Statement>): Table
    decreases |statements|
  {
    if statements == [] then t
    else
      var next := match statements[0]
        case CreateTableStatement => Created(t, artifactsRoot)
        case InsertStatement(n, f, v) => Inserted(t, n, f, v).table
        case UpdateStatement(id, f, v) => Updated(t, id, f, v).table
        case SelectStatement => t;
      Run(next, artifactsRoot, statements[1..])
  }

  /**
   * No statement removes a row: every run keeps the table well formed, keeps every
   * existing row at its place with its id and name, and never shrinks the table.
   */
  lemma {:induction false} RowsAreNeverRemoved(t: Table, artifactsRoot: string, statements: seq<Statement>)
    requires WellFormed(t)
    decreases |statements|
    ensures WellFormed(Run(t, artifactsRoot, statements))
    ensures |Run(t, artifactsRoot, statements).rows| >= |t.rows|
    ensures forall i :: 0 <= i < |t.rows| ==>
      Run(t, artifactsRoot, statements).rows[i].id == t.rows[i].id &&
      Run(t, artifactsRoot, statements).rows[i].name == t.rows[i].name
  {
    if statements != [] {
      var next := match statements[0]
        case CreateTableStatement => Created(t, artifactsRoot)
        case InsertStatement(n, f, v) => Inserted(t, n, f, v).table
        case UpdateStatement(id, f, v) => Updated(t, id, f, v).table
        case SelectStatement => t;
      assert |next.rows| >= |t.rows|;
      assert forall i :: 0 <= i < |t.rows| ==> next.rows[i].id == t.rows[i].id && next.rows[i].name == t.rows[i].name;
      RowsAreNeverRemoved(next, artifactsRoot, statements[1..]);
    }
  }

  /** The metadata store: the `document` table held in fields that its methods update. */
  class Database {
    const artifactsRoot: string
    var present: bool
    var rows: seq<Row>
    var lastId: int

    function State(): Table
      reads this
    {
      Table(present, rows, lastId)
    }

    ghost predicate Valid()
      reads this
    {
      WellFormed(State())
    }

    /** Opens the database file in whatever state an earlier run left it. */
    constructor Open(artifactsRoot: string, stored: Table)
      requires WellFormed(stored)
      ensures Valid() && this.artifactsRoot == artifactsRoot && State() == stored
    {
      this.artifactsRoot := artifactsRoot;
      present, rows, lastId := stored.present, stored.rows, stored.lastId;
    }

    method CreateTable()
      requires Valid()
      modifies this
      ensures Valid()
      ensures State() == Created(old(State()), artifactsRoot)
    {
      if present {
        return;
      }
      present, rows, lastId := true, [], 0;
      var _ := InsertData(ConcatenateName, ConcatenateDocumentPath(artifactsRoot), ConcatenateEmbeddedPath(artifactsRoot));
    }

    method InsertData(name: string, filePath: string, vectorPath: string) returns (outcome: Outcome)
      requires Valid()
      modifies this
      ensures Valid()
      ensures Change(State(), outcome) == Inserted(old(State()), name, filePath, vectorPath)
    {
      if !present {
        return Failed(NoSuchTable);
      }
      if lastId >= MaxRowId {
        return Failed(RowIdExhausted);
      }
      lastId := lastId + 1;
      rows := rows + [Row(lastId, name, filePath, vectorPath)];
      outcome := Done;
    }

    method UpdateData(id: int, filePath: string, vectorPath: string) returns (outcome: Outcome)
      requires Valid()
      modifies this
      ensures Valid()
      ensures Change(State(), outcome) == Updated(old(State()), id, filePath, vectorPath)
    {
      if !present {
        return Failed(NoSuchTable);
      }
      rows := seq(|rows|, i requires 0 <= i < |rows| reads this =>
        if rows[i].id == id then rows[i].(filePath := filePath, vectorPath := vectorPath) else rows[i]);
      outcome := Done;
    }

    method GetData() returns (records: Result<seq<Record>>)
      ensures records == Records(State())
    {
      if !present {
        return Err(NoSuchTable);
      }
      var data := seq(|rows|, i requires 0 <= i < |rows| reads this => RecordOf(rows[i]));
      assert data == Records(State()).value;
      records := Ok(data);
    }
  }
}
