/** etl/transform.py: flattening the search results into a table with one row per
    result and one column per fixed field or attribute name. A table is a column list
    and a sequence of rows; a row maps column names to cells, and a column a row has no
    entry for is a missing cell. */
module Transform {
  import opened Common
  import opened HttpRequest

  /** One entry of a result's `attributes`: its `name` and its `value_name`. */
  datatype Attribute = Attribute(name: string, valueName: JsonValue)

  /** One entry of the reply's `results`. */
  datatype Item = Item(id: JsonValue, title: JsonValue, condition: JsonValue, thumbnailId: JsonValue,
                       attributes: seq<Attribute>)

  /** An insertion-ordered dictionary: its keys in the order they were first set. */
  datatype Dict = Dict(keys: seq<string>, cells: map<string, JsonValue>)

  datatype Frame = Frame(columns: seq<string>, rows: seq<map<string, JsonValue>>)

  const FixedColumns: seq<string> := ["id", "title", "condition", "thumbnail_id"]

  predicate Distinct(xs: seq<string>)
  {
    forall i, j :: 0 <= i < j < |xs| ==> xs[i] != xs[j]
  }

  /** The keys are listed once each and are exactly the ones with a cell. */
  predicate WellFormed(d: Dict)
  {
    && Distinct(d.keys)
    && (forall k :: k in d.keys ==> k in d.cells)
    && (forall k :: k in d.cells ==> k in d.keys)
  }

  // ---- column lists ----

  /** `cols` with each of `names` appended when it is not there yet. */
  function Extend(cols: seq<string>, names: seq<string>): (r: seq<string>)
    ensures |cols| <= |r| <= |cols| + |names|
    ensures r[..|cols|] == cols
  {
    if names == [] then cols
    else
      var c := Extend(cols, names[..|names| - 1]);
      var x := names[|names| - 1];
      if x in c then c else c + [x]
  }

  function Names(attrs: seq<Attribute>): (r: seq<string>)
    ensures |r| == |attrs|
  {
    seq(|attrs|, i requires 0 <= i < |attrs| => attrs[i].name)
  }

  lemma ExtendSnoc(cols: seq<string>, names: seq<string>, x: string)
    ensures Extend(cols, names + [x]) == var c := Extend(cols, names); if x in c then c else c + [x]
  {
    assert (names + [x])[..|names|] == names;
  }

  lemma NamesSnoc(attrs: seq<Attribute>, j: nat)
    requires j < |attrs|
    ensures Names(attrs[..j + 1]) == Names(attrs[..j]) + [attrs[j].name]
  {
  }

  /** Appending keeps a list free of duplicates. */
  lemma {:induction false} ExtendKeepsDistinct(cols: seq<string>, names: seq<string>)
    requires Distinct(cols)
    ensures Distinct(Extend(cols, names))
  {
    if names != [] {
      ExtendKeepsDistinct(cols, names[..|names| - 1]);
    }
  }

  /** The result holds exactly the old columns and the names. */
  lemma {:induction false} ExtendMembers(cols: seq<string>, names: seq<string>)
    ensures forall x :: x in Extend(cols, names) <==> x in cols || x in names
  {
    if names != [] {
      var init := names[..|names| - 1];
      ExtendMembers(cols, init);
      assert names == init + [names[|names| - 1]];
    }
  }

  /** Extending twice is extending once by both lists. */
  lemma {:induction false} ExtendAppend(cols: seq<string>, a: seq<string>, b: seq<string>)
    ensures Extend(Extend(cols, a), b) == Extend(cols, a + b)
  {
    if b == [] {
      assert a + b == a;
    } else {
      var init := b[..|b| - 1];
      ExtendAppend(cols, a, init);
      assert (a + b)[..|a + b| - 1] == a + init;
    }
  }

  /** Names already present add nothing. */
  lemma {:induction false} ExtendKnownNames(cols: seq<string>, names: seq<string>)
    requires forall x :: x in names ==> x in cols
    ensures Extend(cols, names) == cols
  {
    if names != [] {
      var init := names[..|names| - 1];
      assert forall x :: x in init ==> x in names;
      ExtendKnownNames(cols, init);
      assert names[|names| - 1] in names;
    }
  }

  /** The position in `names` where x first appears. */
  function FirstIndex(names: seq<string>, x: string): (i: nat)
    requires x in names
    ensures i < |names| && names[i] == x
    ensures forall j :: 0 <= j < i ==> names[j] != x
  {
    if names[0] == x then 0 else 1 + FirstIndex(names[1..], x)
  }

  lemma FirstIndexPrefix(names: seq<string>, k: nat, x: string)
    requires k <= |names| && x in names[..k]
    ensures x in names && FirstIndex(names, x) == FirstIndex(names[..k], x)
  {
    var i := FirstIndex(names[..k], x);
    assert names[i] == x;
    var m := FirstIndex(names, x);
    assert m <= i;
    assert names[..k][m] == x;
  }

  /** A name absent from all but the last position first appears there. */
  lemma FirstIndexLast(names: seq<string>, x: string)
    requires names != [] && names[|names| - 1] == x && x !in names[..|names| - 1]
    ensures FirstIndex(names, x) == |names| - 1
  {
  }

  /** The appended columns are names, in the order the names first appear. */
  lemma {:induction false} ExtendFirstAppearance(cols: seq<string>, names: seq<string>)
    ensures forall i :: |cols| <= i < |Extend(cols, names)| ==> Extend(cols, names)[i] in names
    ensures forall i, j :: |cols| <= i < j < |Extend(cols, names)| ==>
      FirstIndex(names, Extend(cols, names)[i]) < FirstIndex(names, Extend(cols, names)[j])
  {
    if names != [] {
      var init := names[..|names| - 1];
      var x := names[|names| - 1];
      var c := Extend(cols, init);
      ExtendFirstAppearance(cols, init);
      assert forall i :: |cols| <= i < |c| ==> c[i] in init;
      forall i | |cols| <= i < |c|
        ensures c[i] in names && FirstIndex(names, c[i]) == FirstIndex(init, c[i])
      {
        FirstIndexPrefix(names, |names| - 1, c[i]);
      }
      if x !in c {
        ExtendMembers(cols, init);
        FirstIndexLast(names, x);
        assert Extend(cols, names) == c + [x];
      }
    }
  }

  // ---- rows ----

  /** `d[k] = v`: a new key goes last; an existing key keeps its place. */
  function Put(d: Dict, k: string, v: JsonValue): Dict
  {
    Dict(if k in d.keys then d.keys else d.keys + [k], d.cells[k := v])
  }

  lemma PutKeepsWellFormed(d: Dict, k: string, v: JsonValue)
    requires WellFormed(d)
    ensures WellFormed(Put(d, k, v))
  {
    if k !in d.keys {
      assert Put(d, k, v).keys == d.keys + [k];
    }
  }

  /** The dict literal of the four fixed fields. */
  function BaseRow(item: Item): Dict
  {
    Dict(FixedColumns, map["id" := item.id, "title" := item.title, "condition" := item.condition,
                           "thumbnail_id" := item.thumbnailId])
  }

  /** `d` after setting each attribute's name to its value, in order. */
  function Fill(d: Dict, attrs: seq<Attribute>): Dict
  {
    if attrs == [] then d
    else
      var a := attrs[|attrs| - 1];
      Put(Fill(d, attrs[..|attrs| - 1]), a.name, a.valueName)
  }

  /** `result_dict` for one result. */
  function RowOf(item: Item): Dict
  {
    Fill(BaseRow(item), item.attributes)
  }

  /** The keys of a filled row are the dict's keys followed by the new attribute names,
      and every key has a cell. */
  lemma FillKeys(d: Dict, attrs: seq<Attribute>)
    requires WellFormed(d)
    ensures Fill(d, attrs).keys == Extend(d.keys, Names(attrs))
    ensures WellFormed(Fill(d, attrs))
  {
    FillKeysAreExtended(d, attrs);
    FillKeepsWellFormed(d, attrs);
  }

  lemma {:induction false} FillKeysAreExtended(d: Dict, attrs: seq<Attribute>)
    ensures Fill(d, attrs).keys == Extend(d.keys, Names(attrs))
  {
    if attrs != [] {
      var init := attrs[..|attrs| - 1];
      var a := attrs[|attrs| - 1];
      FillKeysAreExtended(d, init);
      ExtendSnoc(d.keys, Names(init), a.name);
      assert Names(attrs) == Names(init) + [a.name];
    }
  }

  lemma {:induction false} FillKeepsWellFormed(d: Dict, attrs: seq<Attribute>)
    requires WellFormed(d)
    ensures WellFormed(Fill(d, attrs))
  {
    if attrs != [] {
      var a := attrs[|attrs| - 1];
      FillKeepsWellFormed(d, attrs[..|attrs| - 1]);
      PutKeepsWellFormed(Fill(d, attrs[..|attrs| - 1]), a.name, a.valueName);
    }
  }

  /** A cell holds the value of the last attribute with that name. */
  lemma {:induction false} FillLastWins(d: Dict, attrs: seq<Attribute>, i: nat)
    requires i < |attrs|
    requires forall j :: i < j < |attrs| ==> attrs[j].name != attrs[i].name
    ensures var c := Fill(d, attrs).cells; attrs[i].name in c && c[attrs[i].name] == attrs[i].valueName
  {
    if i < |attrs| - 1 {
      FillLastWins(d, attrs[..|attrs| - 1], i);
    }
  }

  /** A key no attribute names keeps what the dict had. */
  lemma {:induction false} FillUntouched(d: Dict, attrs: seq<Attribute>, k: string)
    requires forall j :: 0 <= j < |attrs| ==> attrs[j].name != k
    ensures (k in Fill(d, attrs).cells <==> k in d.cells)
    ensures k in d.cells ==> Fill(d, attrs).cells[k] == d.cells[k]
  {
    if attrs != [] {
      FillUntouched(d, attrs[..|attrs| - 1], k);
    }
  }

  /** The row of a result: its keys are the fixed columns followed by the attribute names
      in first-appearance order, each once; an attribute name holds the value of the last
      attribute with that name, even when it is one of the fixed columns. */
  lemma RowOfContents(item: Item)
    ensures var row := RowOf(item);
      && WellFormed(row)
      && row.keys == Extend(FixedColumns, Names(item.attributes))
      && (forall i :: 0 <= i < |item.attributes| && (forall j :: i < j < |item.attributes| ==> item.attributes[j].name != item.attributes[i].name) ==>
            item.attributes[i].name in row.cells && row.cells[item.attributes[i].name] == item.attributes[i].valueName)
  {
    FillKeys(BaseRow(item), item.attributes);
    forall i | 0 <= i < |item.attributes| && (forall j :: i < j < |item.attributes| ==> item.attributes[j].name != item.attributes[i].name)
      ensures item.attributes[i].name in RowOf(item).cells
      ensures RowOf(item).cells[item.attributes[i].name] == item.attributes[i].valueName
    {
      FillLastWins(BaseRow(item), item.attributes, i);
    }
  }

  /** A fixed field no attribute overrides keeps the result's own value. */
  lemma RowOfFixedField(item: Item)
    requires forall j :: 0 <= j < |item.attributes| ==> item.attributes[j].name != "title"
    ensures "title" in RowOf(item).cells && RowOf(item).cells["title"] == item.title
  {
    FillUntouched(BaseRow(item), item.attributes, "title");
  }

  // ---- tables ----

  /** `pd.concat([df, pd.DataFrame([row])], ignore_index=True)`: the row goes last and
      its new keys become new columns after the existing ones. */
  function ConcatRow(f: Frame, d: Dict): (r: Frame)
    ensures |r.rows| == |f.rows| + 1
  {
    Frame(Extend(f.columns, d.keys), f.rows + [d.cells])
  }

  /** The attribute names of the results, result by result. */
  function AllNames(results: seq<Item>): seq<string>
  {
    if results == [] then [] else AllNames(results[..|results| - 1]) + Names(results[|results| - 1].attributes)
  }

  /** The columns `transform` collects for these results. */
  function ColumnsOf(results: seq<Item>): seq<string>
  {
    Extend(FixedColumns, AllNames(results))
  }

  /** The columns of `df` after concatenating the row of each result. */
  function ConcatColumns(cols: seq<string>, results: seq<Item>): seq<string>
  {
    if results == [] then cols
    else Extend(ConcatColumns(cols, results[..|results| - 1]), RowOf(results[|results| - 1]).keys)
  }

  /** The table after concatenating the row of each result to `df`: the rows of `df`
      followed by one row per result, in result order. */
  function FrameAfter(df: Frame, results: seq<Item>): (r: Frame)
    ensures |r.rows| == |df.rows| + |results|
  {
    Frame(ConcatColumns(df.columns, results),
          df.rows + seq(|results|, i requires 0 <= i < |results| => RowOf(results[i]).cells))
  }

  lemma FillStep(d: Dict, attrs: seq<Attribute>, j: nat)
    requires j < |attrs|
    ensures Fill(d, attrs[..j + 1]) == Put(Fill(d, attrs[..j]), attrs[j].name, attrs[j].valueName)
  {
    assert attrs[..j + 1][..j] == attrs[..j];
  }

  lemma ColumnsStep(results: seq<Item>, i: nat)
    requires i < |results|
    ensures ColumnsOf(results[..i + 1]) == Extend(ColumnsOf(results[..i]), Names(results[i].attributes))
  {
    assert results[..i + 1][..i] == results[..i];
    ExtendAppend(FixedColumns, AllNames(results[..i]), Names(results[i].attributes));
  }

  lemma FrameStep(df: Frame, results: seq<Item>, i: nat)
    requires i < |results|
    ensures FrameAfter(df, results[..i + 1]) == ConcatRow(FrameAfter(df, results[..i]), RowOf(results[i]))
  {
    assert results[..i + 1][..i] == results[..i];
    var f := FrameAfter(df, results[..i + 1]);
    var g := ConcatRow(FrameAfter(df, results[..i]), RowOf(results[i]));
    assert f.columns == g.columns;
    assert f.rows == g.rows;
  }

  function Restrict(row: map<string, JsonValue>, cols: seq<string>): map<string, JsonValue>
  {
    map k | k in row && k in cols :: row[k]
  }

  /** `df[cols]`: KeyError unless every requested column exists; otherwise the table
      with exactly those columns, in that order. */
  function Select(f: Frame, cols: seq<string>): (r: Result<Frame>)
    ensures r.Ok? <==> forall c :: c in cols ==> c in f.columns
    ensures r.Ok? ==> r.value.columns == cols && |r.value.rows| == |f.rows|
  {
    if forall c :: c in cols ==> c in f.columns then
      Ok(Frame(cols, seq(|f.rows|, i requires 0 <= i < |f.rows| => Restrict(f.rows[i], cols))))
    else Err(KeyError)
  }

  /** `transform(response)` on a table `df`: the new table and whether it raised. When the
      column selection raises, `df` keeps the concatenated rows. */
  function TransformSpec(df: Frame, results: seq<Item>): (Frame, Result<()>)
  {
    var f := FrameAfter(df, results);
    var s := Select(f, ColumnsOf(results));
    if s.Ok? then (s.value, Ok(())) else (f, Err(KeyError))
  }

  /** The attribute names of all results, in order, are exactly the names some result's
      attribute has. */
  lemma {:induction false} AllNamesMembers(results: seq<Item>)
    ensures forall x :: x in AllNames(results) <==>
      exists i, j :: 0 <= i < |results| && 0 <= j < |results[i].attributes| && results[i].attributes[j].name == x
  {
    if results != [] {
      var init := results[..|results| - 1];
      var last := results[|results| - 1];
      AllNamesMembers(init);
      forall x | x in AllNames(results)
        ensures exists i, j :: 0 <= i < |results| && 0 <= j < |results[i].attributes| && results[i].attributes[j].name == x
      {
        if x in Names(last.attributes) {
          var j :| 0 <= j < |last.attributes| && Names(last.attributes)[j] == x;
          assert results[|results| - 1].attributes[j].name == x;
        } else {
          assert x in AllNames(init);
          var i, j :| 0 <= i < |init| && 0 <= j < |init[i].attributes| && init[i].attributes[j].name == x;
          assert results[i].attributes[j].name == x;
        }
      }
      forall x | exists i, j :: 0 <= i < |results| && 0 <= j < |results[i].attributes| && results[i].attributes[j].name == x
        ensures x in AllNames(results)
      {
        var i, j :| 0 <= i < |results| && 0 <= j < |results[i].attributes| && results[i].attributes[j].name == x;
        if i == |results| - 1 {
          assert Names(last.attributes)[j] == x;
        } else {
          assert init[i].attributes[j].name == x;
        }
      }
    }
  }

  /** The columns are the fixed ones followed by each attribute name once, and nothing
      else. */
  lemma ColumnsOfContents(results: seq<Item>)
    ensures var cols := ColumnsOf(results);
      && Distinct(cols)
      && |cols| >= 4 && cols[..4] == FixedColumns
      && forall x :: x in cols <==>
           x in FixedColumns || exists i, j :: 0 <= i < |results| && 0 <= j < |results[i].attributes| && results[i].attributes[j].name == x
  {
    assert Distinct(FixedColumns);
    ExtendKeepsDistinct(FixedColumns, AllNames(results));
    ExtendMembers(FixedColumns, AllNames(results));
    AllNamesMembers(results);
  }

  /** The attribute columns come in the order their names first appear in the results. */
  lemma ColumnsInFirstAppearanceOrder(results: seq<Item>)
    ensures var cols := ColumnsOf(results);
      forall i, j :: 4 <= i < j < |cols| ==>
        cols[i] in AllNames(results) && cols[j] in AllNames(results) &&
        FirstIndex(AllNames(results), cols[i]) < FirstIndex(AllNames(results), cols[j])
  {
    ExtendFirstAppearance(FixedColumns, AllNames(results));
  }

  /** The concatenated table has every column `df` had and every key of every row. */
  lemma {:induction false} ConcatColumnsCover(cols: seq<string>, results: seq<Item>)
    ensures forall x :: x in cols ==> x in ConcatColumns(cols, results)
    ensures forall i, x :: 0 <= i < |results| && x in RowOf(results[i]).keys ==> x in ConcatColumns(cols, results)
  {
    if results != [] {
      var init := results[..|results| - 1];
      ConcatColumnsCover(cols, init);
      ExtendMembers(ConcatColumns(cols, init), RowOf(results[|results| - 1]).keys);
    }
  }

  /** With at least one result, every collected column is in the concatenated table, so
      the selection cannot raise. */
  lemma SelectionSucceeds(df: Frame, results: seq<Item>)
    requires results != []
    ensures Select(FrameAfter(df, results), ColumnsOf(results)).Ok?
  {
    ColumnsOfContents(results);
    ConcatColumnsCover(df.columns, results);
    forall x | x in ColumnsOf(results)
      ensures x in FrameAfter(df, results).columns
    {
      if x in FixedColumns {
        RowKeysOf(results[0]);
      } else {
        var i, j :| 0 <= i < |results| && 0 <= j < |results[i].attributes| && results[i].attributes[j].name == x;
        RowKeysOf(results[i]);
        assert Names(results[i].attributes)[j] == x;
      }
    }
  }

  /** A row has a key for each fixed column and each attribute name. */
  lemma RowKeysOf(item: Item)
    ensures forall x :: x in RowOf(item).keys <==> x in FixedColumns || x in Names(item.attributes)
  {
    FillKeys(BaseRow(item), item.attributes);
    ExtendMembers(FixedColumns, Names(item.attributes));
  }

  /** No results on a fresh, empty table: the selection of the fixed columns raises and
      the table stays empty. */
  lemma EmptyResultsOnFreshTableFail()
    ensures TransformSpec(Frame([], []), []) == (Frame([], []), Err(KeyError))
  {
    assert "id" in ColumnsOf([]);
  }

  /** Every key of a result's row is one of the collected columns. */
  lemma RowKeysAreColumns(results: seq<Item>, i: nat)
    requires i < |results|
    ensures forall k :: k in RowOf(results[i]).cells ==> k in ColumnsOf(results)
  {
    ColumnsOfContents(results);
    RowOfContents(results[i]);
    RowKeysOf(results[i]);
    forall k | k in RowOf(results[i]).cells
      ensures k in ColumnsOf(results)
    {
      if k !in FixedColumns {
        var j :| 0 <= j < |results[i].attributes| && Names(results[i].attributes)[j] == k;
        assert results[i].attributes[j].name == k;
      }
    }
  }

  /** Selecting columns that cover a row leaves that row as it was. */
  lemma SelectKeepsCoveredRow(g: Frame, cols: seq<string>, k: nat, row: map<string, JsonValue>)
    requires Select(g, cols).Ok? && k < |g.rows| && g.rows[k] == row
    requires forall c :: c in row ==> c in cols
    ensures Select(g, cols).value.rows[k] == row
  {
    assert Restrict(row, cols) == row;
  }

  /** On a fresh table the result has exactly the collected columns and one row per
      result, its row unchanged by the selection; a column that result has no key for is
      a missing cell. */
  lemma FreshTransformTable(results: seq<Item>)
    requires results != []
    ensures var (f, r) := TransformSpec(Frame([], []), results);
      && r == Ok(())
      && f.columns == ColumnsOf(results)
      && |f.rows| == |results|
      && forall i :: 0 <= i < |results| ==> f.rows[i] == RowOf(results[i]).cells
  {
    SelectionSucceeds(Frame([], []), results);
    SelectionKeepsRows(Frame([], []), results);
  }

  /** The selection leaves each row of the results as it was built. */
  lemma SelectionKeepsRows(df: Frame, results: seq<Item>)
    requires Select(FrameAfter(df, results), ColumnsOf(results)).Ok?
    ensures var f := Select(FrameAfter(df, results), ColumnsOf(results)).value;
      forall i :: 0 <= i < |results| ==> f.rows[|df.rows| + i] == RowOf(results[i]).cells
  {
    forall i | 0 <= i < |results|
      ensures Select(FrameAfter(df, results), ColumnsOf(results)).value.rows[|df.rows| + i] == RowOf(results[i]).cells
    {
      RowKeysAreColumns(results, i);
      SelectKeepsCoveredRow(FrameAfter(df, results), ColumnsOf(results), |df.rows| + i, RowOf(results[i]).cells);
    }
  }

  class Transformer {
    var df: Frame

    /** `Transformer()`: an empty table. */
    constructor()
      ensures df == Frame([], [])
    {
      df := Frame([], []);
    }

    /** `transform(response)` for `response['results'] == results`. */
    method Transform(results: seq<Item>) returns (r: Result<()>)
      modifies this
      ensures (df, r) == TransformSpec(old(df), results)
    {
      var columns := FixedColumns;
      for i := 0 to |results|
        invariant columns == ColumnsOf(results[..i])
        invariant df == FrameAfter(old(df), results[..i])
      {
        var result := results[i];
        var resultDict := BaseRow(result);
        ghost var before := columns;
        for j := 0 to |result.attributes|
          invariant resultDict == Fill(BaseRow(result), result.attributes[..j])
          invariant columns == Extend(before, Names(result.attributes[..j]))
          invariant df == FrameAfter(old(df), results[..i])
        {
          var attribute := result.attributes[j];
          FillStep(BaseRow(result), result.attributes, j);
          resultDict := Put(resultDict, attribute.name, attribute.valueName);
          NamesSnoc(result.attributes, j);
          ExtendSnoc(before, Names(result.attributes[..j]), attribute.name);
          if attribute.name !in columns {
            columns := columns + [attribute.name];
          }
        }
        assert result.attributes[..|result.attributes|] == result.attributes;
        assert resultDict == RowOf(result);
        ColumnsStep(results, i);
        FrameStep(old(df), results, i);
        df := ConcatRow(df, resultDict);
      }
      assert results[..|results|] == results;
      var selected := Select(df, columns);
      if selected.Err? {
        return Err(KeyError);
      }
      df := selected.value;
      r := Ok(());
    }
  }
}
