/**
 * The transcript cache: the SQLite table `records_transcribations(record_id, transcribation)`.
 * The table is created without any key or unique constraint, so it is a list of rows in insertion
 * order that may hold several rows for one voice id, and `transcribation` may be NULL.
 */
module Cache {
  import opened Wrappers

  /** One row: the clip's `file_unique_id` and its transcript, `None` standing for SQL NULL. */
  datatype Row = Row(voiceId: string, text: Option<string>)

  /**
   * `SELECT transcribation ... WHERE record_id = id` followed by `fetchone()`: `None` when no row
   * matches, otherwise `Some` of the first matching row's (possibly NULL) transcript.
   */
  function Lookup(rows: seq<Row>, id: string): (r: Option<Option<string>>)
    ensures r.None? <==> forall i :: 0 <= i < |rows| ==> rows[i].voiceId != id
    ensures r.Some? ==>
              exists i :: 0 <= i < |rows| && rows[i] == Row(id, r.value)
                          && forall j :: 0 <= j < i ==> rows[j].voiceId != id
  {
    if rows == [] then None
    else if rows[0].voiceId == id then Some(rows[0].text)
    else
      var r := Lookup(rows[1..], id);
      assert r.Some? ==>
               exists i :: 1 <= i < |rows| && rows[i] == Row(id, r.value)
                           && forall j :: 0 <= j < i ==> rows[j].voiceId != id;
      r
  }

  /** Appending a row never changes an existing answer; it only answers an id that was absent. */
  lemma {:induction false} LookupAppend(rows: seq<Row>, row: Row, id: string)
    ensures Lookup(rows + [row], id) ==
      if Lookup(rows, id).Some? then Lookup(rows, id)
      else if row.voiceId == id then Some(row.text)
      else None
  {
    if rows != [] {
      assert (rows + [row])[1..] == rows[1..] + [row];
      if rows[0].voiceId != id {
        LookupAppend(rows[1..], row, id);
      }
    }
  }

  /** Once an id has a row, no later insert changes what a lookup of it returns. */
  lemma {:induction false} LookupKeepsFirstRow(rows: seq<Row>, later: seq<Row>, id: string)
    requires Lookup(rows, id).Some?
    ensures Lookup(rows + later, id) == Lookup(rows, id)
  {
    var all := rows + later;
    assert all[0] == rows[0];
    if rows[0].voiceId != id {
      assert all[1..] == rows[1..] + later;
      LookupKeepsFirstRow(rows[1..], later, id);
    }
  }

  /** The table as the program sees it: rows are only ever appended. */
  class TranscriptTable {
    var rows: seq<Row>

    constructor (rows: seq<Row>)
      ensures this.rows == rows
    {
      this.rows := rows;
    }

    /** `INSERT INTO records_transcribations VALUES (?, ?)`: no uniqueness check, the row goes last. */
    method Insert(voiceId: string, text: Option<string>)
      modifies this
      ensures rows == old(rows) + [Row(voiceId, text)]
    {
      rows := rows + [Row(voiceId, text)];
    }
  }
}
