/**
 * The normalisation block (resultados2025.py lines 69-91): each year's result
 * table is changed in place, column names first, then the party, circuit and
 * comuna columns.
 */
module Frames {
  import opened Common
  import opened Text

  /** One row of a result table as read, by the roles its columns play. */
  datatype RawRow = RawRow(circuit: string, party: string, votes: nat, section: string)

  /** A result table as read: its header and its rows. */
  datatype RawTable = RawTable(columns: seq<string>, rows: seq<RawRow>)

  /**
   * A row of a table being normalised: `section` is the value of the column the
   * comuna is taken from, `comuna` the derived COMUNA column (None before it exists).
   */
  datatype Row = Row(circuit: string, party: string, votes: nat, section: string, comuna: Option<string>)

  const Renaming2025: map<string, string> :=
    map["descripcion_candidatura" := "partido", "sum cant_votos" := "votos"]
  const Renaming2023: map<string, string> :=
    map["agrupacion_nombre" := "partido", "sum votos_cantidad" := "votos", "circuito_id" := "circuito"]

  /** Columns the comuna is derived from, and the names of the tables in the error messages. */
  const Source2025: string := "comuna"
  const Source2023: string := "seccion_nombre"
  const Table2025: string := "df_2025"
  const Table2023: string := "df_2023"
  const ComunaColumn: string := "COMUNA"

  function NormalizeColumns(cols: seq<string>): seq<string> {
    seq(|cols|, i requires 0 <= i < |cols| => NormalizeColumnName(cols[i]))
  }

  /** `rename(columns=renaming)`: names not in the mapping stay as they are. */
  function RenameColumns(cols: seq<string>, renaming: map<string, string>): seq<string> {
    seq(|cols|, i requires 0 <= i < |cols| => if cols[i] in renaming then renaming[cols[i]] else cols[i])
  }

  function UpperParty(r: Row): Row { r.(party := Upper(r.party)) }
  function PadCircuit(r: Row): Row { r.(circuit := ZFill(r.circuit, CircuitWidth)) }
  function SetComuna(r: Row): Row { r.(comuna := Some(Upper(r.section))) }

  function FromRaw(r: RawRow): Row { Row(r.circuit, r.party, r.votes, r.section, None) }

  /** Every circuit id is at least as wide as the padding width. */
  predicate Padded(rows: seq<Row>) {
    forall i :: 0 <= i < |rows| ==> |rows[i].circuit| >= CircuitWidth
  }

  class ResultFrame {
    var columns: seq<string>
    var rows: seq<Row>

    constructor (t: RawTable)
      ensures columns == t.columns
      ensures |rows| == |t.rows| && forall i :: 0 <= i < |rows| ==> rows[i] == FromRaw(t.rows[i])
    {
      columns := t.columns;
      rows := seq(|t.rows|, i requires 0 <= i < |t.rows| => FromRaw(t.rows[i]));
    }

    /** `df.columns = df.columns.str.lower().str.strip()` (lines 69-70). */
    method NormalizeColumnNames()
      modifies this
      ensures columns == NormalizeColumns(old(columns))
      ensures rows == old(rows)
    {
      columns := NormalizeColumns(columns);
    }

    /** `df.rename(columns=renaming, inplace=True)` (lines 72-73). */
    method Rename(renaming: map<string, string>)
      modifies this
      ensures columns == RenameColumns(old(columns), renaming)
      ensures rows == old(rows)
    {
      columns := RenameColumns(columns, renaming);
    }

    /** `df["partido"] = df["partido"].str.upper()` (lines 75-76). */
    method UpperParties()
      modifies this
      ensures columns == old(columns)
      ensures |rows| == |old(rows)| && forall i :: 0 <= i < |rows| ==> rows[i] == UpperParty(old(rows)[i])
    {
      var old_rows := rows;
      rows := seq(|old_rows|, i requires 0 <= i < |old_rows| => UpperParty(old_rows[i]));
    }

    /** `df["circuito"] = df["circuito"].astype(str).str.zfill(5)` (lines 77-78). */
    method PadCircuits()
      modifies this
      ensures columns == old(columns)
      ensures |rows| == |old(rows)| && forall i :: 0 <= i < |rows| ==> rows[i] == PadCircuit(old(rows)[i])
      ensures Padded(rows)
    {
      var old_rows := rows;
      rows := seq(|old_rows|, i requires 0 <= i < |old_rows| => PadCircuit(old_rows[i]));
    }

    /**
     * Lines 81-91: when the source column is there, COMUNA becomes its upper-cased
     * value; otherwise the frame is left alone and the caller stops.
     */
    method AssignComuna(source: string) returns (ok: bool)
      modifies this
      ensures ok <==> source in old(columns)
      ensures ok ==> columns == (if ComunaColumn in old(columns) then old(columns) else old(columns) + [ComunaColumn])
      ensures ok ==> |rows| == |old(rows)| && forall i :: 0 <= i < |rows| ==> rows[i] == SetComuna(old(rows)[i])
      ensures !ok ==> columns == old(columns) && rows == old(rows)
    {
      ok := source in columns;
      if ok {
        var old_rows := rows;
        rows := seq(|old_rows|, i requires 0 <= i < |old_rows| => SetComuna(old_rows[i]));
        if ComunaColumn !in columns {
          columns := columns + [ComunaColumn];
        }
      }
    }
  }

  /** The three column steps of lines 75-91 applied to one row. */
  function NormalizeRow(r: RawRow): Row {
    SetComuna(PadCircuit(UpperParty(FromRaw(r))))
  }

  /** A normalised row keeps its votes, upper-cases its party, pads its circuit and gets its COMUNA. */
  lemma {:induction false} NormalizeRowSpec(r: RawRow)
    ensures NormalizeRow(r).circuit == ZFill(r.circuit, CircuitWidth) && |NormalizeRow(r).circuit| >= CircuitWidth
    ensures NormalizeRow(r).party == Upper(r.party) && Upper(NormalizeRow(r).party) == NormalizeRow(r).party
    ensures NormalizeRow(r).votes == r.votes
    ensures NormalizeRow(r).comuna == Some(Upper(r.section))
  {
    UpperIdempotent(r.party);
  }

  /** What the normalisation block makes of one table, as a value. */
  function NormalizeTable(t: RawTable, renaming: map<string, string>, source: string, table: string): Result<seq<Row>> {
    if source in RenameColumns(NormalizeColumns(t.columns), renaming) then
      Ok(seq(|t.rows|, i requires 0 <= i < |t.rows| => NormalizeRow(t.rows[i])))
    else Err(MissingColumn(source, table))
  }

  /** The renamings neither produce nor consume the source name, so only normalisation decides. */
  lemma {:induction false} SourceColumnPresent(cols: seq<string>, renaming: map<string, string>, source: string)
    requires source !in renaming && forall k :: k in renaming ==> renaming[k] != source
    ensures source in RenameColumns(NormalizeColumns(cols), renaming)
            <==> exists k :: 0 <= k < |cols| && NormalizeColumnName(cols[k]) == source
  {
    var norm := NormalizeColumns(cols);
    var renamed := RenameColumns(norm, renaming);
    if source in renamed {
      var k :| 0 <= k < |renamed| && renamed[k] == source;
      assert norm[k] !in renaming;
    }
    if k :| 0 <= k < |cols| && NormalizeColumnName(cols[k]) == source {
      assert renamed[k] == source;
    }
  }

  /**
   * The table is rejected exactly when no column of the header normalises to the
   * source name, and then with that column's and that table's name.
   */
  lemma {:induction false} NormalizeTableSpec(t: RawTable, renaming: map<string, string>, source: string, table: string)
    requires source !in renaming && forall k :: k in renaming ==> renaming[k] != source
    ensures NormalizeTable(t, renaming, source, table).Ok?
            <==> exists k :: 0 <= k < |t.columns| && NormalizeColumnName(t.columns[k]) == source
    ensures NormalizeTable(t, renaming, source, table).Err? ==>
              NormalizeTable(t, renaming, source, table).error == MissingColumn(source, table)
  {
    SourceColumnPresent(t.columns, renaming, source);
  }

  /**
   * An accepted table keeps its rows in order; every row keeps its votes, gets
   * its party upper-cased, its circuit padded to width 5 and its COMUNA set.
   */
  lemma {:induction false} NormalizedRows(t: RawTable, renaming: map<string, string>, source: string, table: string)
    requires NormalizeTable(t, renaming, source, table).Ok?
    ensures var rows := NormalizeTable(t, renaming, source, table).value;
            |rows| == |t.rows| && Padded(rows) &&
            forall i :: 0 <= i < |rows| ==>
              rows[i].circuit == ZFill(t.rows[i].circuit, CircuitWidth) &&
              rows[i].party == Upper(t.rows[i].party) &&
              rows[i].votes == t.rows[i].votes &&
              rows[i].comuna == Some(Upper(t.rows[i].section))
  {
    var rows := NormalizeTable(t, renaming, source, table).value;
    forall i | 0 <= i < |rows|
      ensures rows[i].circuit == ZFill(t.rows[i].circuit, CircuitWidth) && |rows[i].circuit| >= CircuitWidth
      ensures rows[i].party == Upper(t.rows[i].party) && rows[i].votes == t.rows[i].votes
      ensures rows[i].comuna == Some(Upper(t.rows[i].section))
    {
      NormalizeRowSpec(t.rows[i]);
    }
  }

  /** Both tables are normalised with renamings that keep their source column. */
  lemma {:induction false} RenamingsKeepSources()
    ensures Source2025 !in Renaming2025 && forall k :: k in Renaming2025 ==> Renaming2025[k] != Source2025
    ensures Source2023 !in Renaming2023 && forall k :: k in Renaming2023 ==> Renaming2023[k] != Source2023
  {
  }

  /** The rows the four in-place column steps leave, step by step, are the normalised rows. */
  lemma {:induction false} StepsNormalize(t: RawTable, loaded: seq<Row>, upper: seq<Row>, padded: seq<Row>, final: seq<Row>)
    requires |loaded| == |t.rows| && forall i :: 0 <= i < |loaded| ==> loaded[i] == FromRaw(t.rows[i])
    requires |upper| == |loaded| && forall i :: 0 <= i < |upper| ==> upper[i] == UpperParty(loaded[i])
    requires |padded| == |upper| && forall i :: 0 <= i < |padded| ==> padded[i] == PadCircuit(upper[i])
    requires |final| == |padded| && forall i :: 0 <= i < |final| ==> final[i] == SetComuna(padded[i])
    ensures final == seq(|t.rows|, i requires 0 <= i < |t.rows| => NormalizeRow(t.rows[i]))
  {
  }

  /** Runs the in-place steps of lines 69-91 on a fresh frame for one table. */
  method NormalizeFrame(t: RawTable, renaming: map<string, string>, source: string, table: string)
    returns (r: Result<seq<Row>>)
    ensures r == NormalizeTable(t, renaming, source, table)
  {
    var frame := new ResultFrame(t);
    ghost var loaded := frame.rows;
    frame.NormalizeColumnNames();
    frame.Rename(renaming);
    frame.UpperParties();
    ghost var upper := frame.rows;
    frame.PadCircuits();
    ghost var padded := frame.rows;
    var ok := frame.AssignComuna(source);
    if ok {
      StepsNormalize(t, loaded, upper, padded, frame.rows);
      r := Ok(frame.rows);
    } else {
      r := Err(MissingColumn(source, table));
    }
  }
}
