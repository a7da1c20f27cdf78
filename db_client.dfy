/** database/client.py: the record store. The session's `connection` table is the
    sequence of rows in the order they were committed; every operation takes a `fault`
    input standing for a failure of the database underneath. */
module DataBase {
  import opened Common
  import opened ConnectionModel
  import opened FilterSchemas

  /** Rows committed later carry larger ids (autoincrement primary key). */
  predicate IdsIncreasing(rows: seq<Row>)
  {
    forall i, j :: 0 <= i < j < |rows| ==> rows[i].id < rows[j].id
  }

  /** The row `ORDER BY id DESC` puts first, or None for an empty table. */
  function Latest(rows: seq<Row>): (r: Option<Row>)
    ensures r.None? <==> rows == []
    ensures r.Some? ==> r.value in rows && forall row :: row in rows ==> row.id <= r.value.id
  {
    if rows == [] then None
    else
      var rest := Latest(rows[1..]);
      assert forall row :: row in rows ==> row == rows[0] || row in rows[1..];
      if rest.Some? && rest.value.id > rows[0].id then rest else Some(rows[0])
  }

  /** In a table whose ids grow with commit order, the latest row is the last saved one. */
  lemma {:induction false} LatestIsLast(rows: seq<Row>)
    requires IdsIncreasing(rows)
    requires rows != []
    ensures Latest(rows) == Some(rows[|rows| - 1])
  {
    if |rows| > 1 {
      LatestIsLast(rows[1..]);
      assert rows[1..][|rows[1..]| - 1] == rows[|rows| - 1];
    }
  }

  /** The rows `filter_by(id=id)` selects. */
  function RowsWithId(rows: seq<Row>, id: int): (r: seq<Row>)
    ensures forall row :: row in r <==> row in rows && row.id == id
    ensures |r| <= |rows|
  {
    if rows == [] then []
    else (if rows[0].id == id then [rows[0]] else []) + RowsWithId(rows[1..], id)
  }

  lemma {:induction false} NoRowWithId(rows: seq<Row>, id: int)
    requires forall row :: row in rows ==> row.id != id
    ensures RowsWithId(rows, id) == []
  {
    if rows != [] {
      assert rows[0] in rows;
      assert forall row :: row in rows[1..] ==> row in rows;
      NoRowWithId(rows[1..], id);
    }
  }

  /** With increasing ids at most one row has a given id. */
  lemma {:induction false} UniqueId(rows: seq<Row>, id: int)
    requires IdsIncreasing(rows)
    ensures |RowsWithId(rows, id)| <= 1
  {
    if rows != [] {
      UniqueId(rows[1..], id);
      if rows[0].id == id {
        forall row | row in rows[1..] ensures row.id != id {
          var k :| 0 <= k < |rows[1..]| && rows[1..][k] == row;
          assert rows[k + 1] == row;
        }
        NoRowWithId(rows[1..], id);
      }
    }
  }

  /** The filters `filter_by(category=category)` selects; a None category matches
      `category IS NULL`. */
  function FiltersInCategory(table: seq<FilterBase>, category: Option<string>): (r: seq<FilterBase>)
    ensures forall f :: f in r <==> f in table && f.category == category
  {
    if table == [] then []
    else (if table[0].category == category then [table[0]] else []) + FiltersInCategory(table[1..], category)
  }

  /** What `.one()` makes of a query's matches: the single match, None (NoResultFound),
      or DataBaseError (MultipleResultsFound is wrapped like every other failure). */
  function One<T>(matches: seq<T>): (r: Result<Option<T>>)
    ensures matches == [] ==> r == Ok(None)
    ensures |matches| == 1 ==> r == Ok(Some(matches[0]))
    ensures |matches| > 1 ==> r == Err(DataBaseError)
  {
    if matches == [] then Ok(None)
    else if |matches| == 1 then Ok(Some(matches[0]))
    else Err(DataBaseError)
  }

  /** `_get_filter_by_code(filter, category)`: filters by category alone (the code is not
      used); the single match, None when nothing matches, DataBaseError when several do
      or the database fails. The table of mapped filter rows is a parameter. */
  function GetFilterByCode(table: seq<FilterBase>, category: Option<string>, fault: bool): (r: Result<Option<FilterBase>>)
    ensures fault ==> r == Err(DataBaseError)
    ensures r.Ok? && r.value.Some? ==> r.value.value in table && r.value.value.category == category
    ensures r.Ok? && r.value.None? ==> forall f :: f in table ==> f.category != category
    ensures !fault && r.Err? ==> |FiltersInCategory(table, category)| > 1
    ensures !fault && |FiltersInCategory(table, category)| > 1 ==> r == Err(DataBaseError)
    ensures !fault && |FiltersInCategory(table, category)| == 1 ==> r == Ok(Some(FiltersInCategory(table, category)[0]))
  {
    if fault then Err(DataBaseError) else One(FiltersInCategory(table, category))
  }

  /** `_last(Connection)`: the row with the greatest id, None for an empty table. */
  function Last(rows: seq<Row>, fault: bool): (r: Result<Option<Row>>)
    ensures r.Ok? <==> !fault
    ensures r.Err? ==> r.error == DataBaseError
    ensures r.Ok? ==> (r.value.None? <==> rows == [])
    ensures r.Ok? && r.value.Some? ==> r.value.value in rows && forall row :: row in rows ==> row.id <= r.value.value.id
  {
    if fault then Err(DataBaseError) else Ok(Latest(rows))
  }

  /** `_get_all(Connection)`: every row. */
  function GetAll(rows: seq<Row>, fault: bool): (r: Result<seq<Row>>)
    ensures r.Ok? <==> !fault
    ensures r.Err? ==> r.error == DataBaseError
    ensures r.Ok? ==> r.value == rows
  {
    if fault then Err(DataBaseError) else Ok(rows)
  }

  /** `_get_by_id(Connection, id)`: the row with that id, or None. */
  function GetById(rows: seq<Row>, id: int, fault: bool): (r: Result<Option<Row>>)
    ensures fault ==> r == Err(DataBaseError)
    ensures r.Ok? && r.value.Some? ==> r.value.value in rows && r.value.value.id == id
    ensures r.Ok? && r.value.None? ==> forall row :: row in rows ==> row.id != id
    ensures !fault && |RowsWithId(rows, id)| > 1 ==> r == Err(DataBaseError)
  {
    if fault then Err(DataBaseError) else One(RowsWithId(rows, id))
  }

  /** With increasing ids `_get_by_id` never meets MultipleResultsFound. */
  lemma GetByIdNeverAmbiguous(rows: seq<Row>, id: int)
    requires IdsIncreasing(rows)
    ensures GetById(rows, id, false).Ok?
  {
    UniqueId(rows, id);
  }

  /** With increasing ids `_last` returns the most recently saved row. */
  lemma LastIsMostRecentlySaved(rows: seq<Row>)
    requires IdsIncreasing(rows)
    ensures Last(rows, false) == Ok(if rows == [] then None else Some(rows[|rows| - 1]))
  {
    if rows != [] {
      LatestIsLast(rows);
    }
  }

  /** The session's `connection` table and its autoincrement counter. The queries
      above read `rows`; saving is the one operation that changes them. */
  class DataBaseClient {
    var rows: seq<Row>
    /** The next value of the autoincrement counter. */
    var nextId: int
    /** `datetime.now()` evaluated once, when the Connection model was defined: the date
        every row saved without one gets. */
    const dateDefault: int

    ghost predicate Valid()
      reads this
    {
      IdsIncreasing(rows) && forall i :: 0 <= i < |rows| ==> rows[i].id < nextId
    }

    constructor (rows: seq<Row>, nextId: int, dateDefault: int)
      requires IdsIncreasing(rows)
      requires forall i :: 0 <= i < |rows| ==> rows[i].id < nextId
      ensures Valid()
      ensures this.rows == rows && this.nextId == nextId && this.dateDefault == dateDefault
    {
      this.rows := rows;
      this.nextId := nextId;
      this.dateDefault := dateDefault;
    }

    /** `_save(connection)`: adds and commits exactly one new row, with the next id and,
        when the object has no date, the class-definition-time default. The object gets
        its id and date. A failure saves nothing and raises DataBaseError. */
    method Save(connection: Connection, fault: bool) returns (r: Result<()>)
      requires Valid()
      requires connection.id == None
      modifies this, connection
      ensures Valid()
      ensures fault ==> r == Err(DataBaseError) && rows == old(rows) && nextId == old(nextId)
                        && unchanged(connection)
      ensures !fault ==>
        var row := Row(old(nextId), if old(connection.date).Some? then old(connection.date) else Some(dateDefault),
                       old(connection.accessToken), old(connection.refreshToken));
        && r == Ok(())
        && rows == old(rows) + [row]
        && nextId == old(nextId) + 1
        && connection.id == Some(row.id) && connection.date == row.date
        && connection.accessToken == old(connection.accessToken)
        && connection.refreshToken == old(connection.refreshToken)
    {
      if fault {
        return Err(DataBaseError);
      }
      var date := if connection.date.Some? then connection.date else Some(dateDefault);
      var row := Row(nextId, date, connection.accessToken, connection.refreshToken);
      rows := rows + [row];
      nextId := nextId + 1;
      connection.id := Some(row.id);
      connection.date := date;
      r := Ok(());
    }
  }
}
