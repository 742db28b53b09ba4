/** The `DataSourceOwned` trait for `OwnedColumnSource`: a lookup hands the
    caller its own copy of the column. */
module DataSourceOwned {
  import opened Wrappers
  import opened DataSources

  /** The column called `name`, copied out of the source, or `ColumnNotFound`. */
  function GetNumericColumn(src: OwnedColumnSource, name: string): (r: Result<Column, DataError>)
    ensures r == Lookup(OwnedTable(src), name)
    ensures r.Ok? <==> HasColumns(src, name)
    ensures r.Ok? ==> r.value == src.data && |r.value| == NRows(src)
    ensures r.Err? ==> r.error == ColumnNotFound(ColumnNotFoundMessage(name))
  {
    if name == src.name then Ok(src.data) else Err(ColumnNotFound(ColumnNotFoundMessage(name)))
  }

  /** The number of observations: the length of the stored column, as a `usize`. */
  function NRows(src: OwnedColumnSource): (n: Usize)
    ensures n == |src.data| == OwnedTable(src).rows
  {
    |src.data|
  }

  /** Whether the source can answer a lookup of `name`. */
  function HasColumns(src: OwnedColumnSource, name: string): (b: bool)
    ensures b <==> name in OwnedTable(src).columns
    ensures b <==> name == src.name
  {
    src.name == name
  }

  /** A failed lookup's message names exactly the column that was asked for. */
  lemma MissNamesRequestedColumn(src: OwnedColumnSource, name: string)
    requires !HasColumns(src, name)
    ensures GetNumericColumn(src, name).Err?
    ensures MissingColumnName(GetNumericColumn(src, name).error.message) == Some(name)
  {
    MessageRoundTrip(name);
  }

  /** The unit test of the trait: the column comes back equal to the data it was built from. */
  lemma OwnedSourceExample()
    ensures var src := OwnedColumnSource("positive_ints", [1.0, 2.0, 3.0]);
            GetNumericColumn(src, "positive_ints") == Ok([1.0, 2.0, 3.0])
  {
  }

  /** A lookup of a column the source lacks reports it by name. */
  lemma OwnedSourceMissExample()
    ensures var src := OwnedColumnSource("positive_ints", [1.0, 2.0, 3.0]);
            GetNumericColumn(src, "age") == Err(ColumnNotFound("Column 'age' not found"))
  {
    assert "age" != "positive_ints" by { assert "age"[0] != "positive_ints"[0]; }
    assert ColumnNotFoundMessage("age") == "Column 'age' not found";
  }
}
