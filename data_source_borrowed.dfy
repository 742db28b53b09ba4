/** The `DataSourceBorrowed` trait for `BorrowedColumnSource`: a lookup hands
    back the slice the source borrowed, which lives as long as the original data. */
module DataSourceBorrowed {
  import opened Wrappers
  import opened DataSources

  /** The borrowed slice called `name`, or `ColumnNotFound`. */
  function GetNumericColumn(src: BorrowedColumnSource, name: string): (r: Result<Column, DataError>)
    ensures r == Lookup(BorrowedTable(src), name)
    ensures r.Ok? <==> HasColumns(src, name)
    ensures r.Ok? ==> r.value == src.data && |r.value| == NRows(src)
    ensures r.Err? ==> r.error == ColumnNotFound(ColumnNotFoundMessage(name))
  {
    if name == src.name then Ok(src.data) else Err(ColumnNotFound(ColumnNotFoundMessage(name)))
  }

  /** The number of observations: the length of the borrowed slice, as a `usize`. */
  function NRows(src: BorrowedColumnSource): (n: Usize)
    ensures n == |src.data| == BorrowedTable(src).rows
  {
    |src.data|
  }

  /** Whether the source can answer a lookup of `name`. */
  function HasColumns(src: BorrowedColumnSource, name: string): (b: bool)
    ensures b <==> name in BorrowedTable(src).columns
    ensures b <==> name == src.name
  {
    src.name == name
  }

  /** A failed lookup's message names exactly the column that was asked for. */
  lemma MissNamesRequestedColumn(src: BorrowedColumnSource, name: string)
    requires !HasColumns(src, name)
    ensures GetNumericColumn(src, name).Err?
    ensures MissingColumnName(GetNumericColumn(src, name).error.message) == Some(name)
  {
    MessageRoundTrip(name);
  }

  /** The unit test of the trait: the slice comes back equal to the data, with as many rows. */
  lemma BorrowedSourceExample()
    ensures var src := BorrowedColumnSource("positive_ints", [1.0, 2.0, 3.0]);
            GetNumericColumn(src, "positive_ints") == Ok([1.0, 2.0, 3.0])
            && NRows(src) == 3
            && HasColumns(src, "positive_ints")
  {
  }
}
