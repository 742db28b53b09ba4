/** The `DataSourceSelf` trait for `OwnedColumnSource`: a lookup hands back a
    view of the column the source itself stores. */
module DataSourceSelf {
  import opened Wrappers
  import opened DataSources
  import DataSourceOwned

  /** A view of the stored column called `name`, or `ColumnNotFound`. */
  function GetNumericColumn(src: OwnedColumnSource, name: string): (r: Result<Column, DataError>)
    ensures r == Lookup(OwnedTable(src), name)
    ensures r.Ok? <==> HasColumns(src, name)
    ensures r.Ok? ==> r.value == src.data && |r.value| == NRows(src)
    ensures r.Err? ==> r.error == ColumnNotFound(ColumnNotFoundMessage(name))
  {
    if name == src.name then Ok(src.data) else Err(ColumnNotFound(ColumnNotFoundMessage(name)))
  }

  /** The number of observations: the length of the stored column, as a `usize`. */
  function NRows(src: OwnedColumnSource): (n: Usize)
    ensures n == |src.data| == OwnedTable(src).rows
  {
    |src.data|
  }

  /** Whether the source can answer a lookup of `name`. */
  function HasColumns(src: OwnedColumnSource, name: string): (b: bool)
    ensures b <==> name in OwnedTable(src).columns
    ensures b <==> name == src.name
  {
    src.name == name
  }

  /** A failed lookup's message names exactly the column that was asked for. */
  lemma MissNamesRequestedColumn(src: OwnedColumnSource, name: string)
    requires !HasColumns(src, name)
    ensures GetNumericColumn(src, name).Err?
    ensures MissingColumnName(GetNumericColumn(src, name).error.message) == Some(name)
  {
    MessageRoundTrip(name);
  }

  /** The unit test of the trait: the view equals the data, with as many rows. */
  lemma SelfSourceExample()
    ensures var src := OwnedColumnSource("positive_ints", [1.0, 2.0, 3.0]);
            GetNumericColumn(src, "positive_ints") == Ok([1.0, 2.0, 3.0])
            && NRows(src) == 3
            && HasColumns(src, "positive_ints")
  {
  }

  /** Viewing the stored column and copying it out give the same answers. */
  lemma AgreesWithOwned(src: OwnedColumnSource, name: string)
    ensures GetNumericColumn(src, name) == DataSourceOwned.GetNumericColumn(src, name)
    ensures NRows(src) == DataSourceOwned.NRows(src)
    ensures HasColumns(src, name) == DataSourceOwned.HasColumns(src, name)
  {
  }
}
