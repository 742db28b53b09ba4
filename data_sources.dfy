/** Shared types of the data-source layer: the error kinds, the two
    single-column sources, the "column not found" message, and the
    name-to-column table that every source presents to the plotting pipeline. */
module DataSources {
  import opened Wrappers

  /** The largest value of Rust's `usize` on a 64-bit target. */
  const USIZE_MAX: int := 0xFFFF_FFFF_FFFF_FFFF

  /** A `Vec<f64>` or `&[f64]` spans at most `isize::MAX` bytes, 8 bytes per element. */
  const MAX_COLUMN_LEN: int := 0x7FFF_FFFF_FFFF_FFFF / 8

  type Usize = n: int | 0 <= n <= USIZE_MAX

  /** A numeric column; each `f64` is modelled as a `real`. */
  type Column = s: seq<real> | |s| <= MAX_COLUMN_LEN witness []

  /** The four error kinds a data source reports, each with its message. */
  datatype DataError =
    | ColumnNotFound(message: string)
    | TypeMismatch(message: string)
    | SeriesConvertionFailure(message: string)
    | PolarsError(message: string)

  /** A source that owns its one named column. */
  datatype OwnedColumnSource = OwnedColumnSource(name: string, data: Column)

  /** A source whose one named column is a slice borrowed from data kept elsewhere. */
  datatype BorrowedColumnSource = BorrowedColumnSource(name: string, data: Column)

  const NOT_FOUND_PREFIX: string := "Column '"
  const NOT_FOUND_SUFFIX: string := "' not found"

  /** The text of the `ColumnNotFound` error for a requested column `name`. */
  function ColumnNotFoundMessage(name: string): (m: string)
    ensures |m| == |NOT_FOUND_PREFIX| + |name| + |NOT_FOUND_SUFFIX|
    ensures m[..|NOT_FOUND_PREFIX|] == NOT_FOUND_PREFIX
    ensures m[|NOT_FOUND_PREFIX|..|NOT_FOUND_PREFIX| + |name|] == name
    ensures m[|NOT_FOUND_PREFIX| + |name|..] == NOT_FOUND_SUFFIX
  {
    NOT_FOUND_PREFIX + name + NOT_FOUND_SUFFIX
  }

  /** Recovers the requested column name from a "column not found" message. */
  function MissingColumnName(message: string): (name: Option<string>)
    ensures name.Some? ==> ColumnNotFoundMessage(name.value) == message
  {
    var p, s := |NOT_FOUND_PREFIX|, |NOT_FOUND_SUFFIX|;
    if p + s <= |message| && message[..p] == NOT_FOUND_PREFIX && message[|message| - s..] == NOT_FOUND_SUFFIX then
      assert message == message[..p] + message[p..|message| - s] + message[|message| - s..];
      Some(message[p..|message| - s])
    else
      None
  }

  /** The message names the column that was asked for: parsing it back gives that name. */
  lemma {:induction false} MessageRoundTrip(name: string)
    ensures MissingColumnName(ColumnNotFoundMessage(name)) == Some(name)
  {
  }

  /** Two different requested names never produce the same message. */
  lemma {:induction false} MessageInjective(a: string, b: string)
    requires ColumnNotFoundMessage(a) == ColumnNotFoundMessage(b)
    ensures a == b
  {
    MessageRoundTrip(a);
    MessageRoundTrip(b);
  }

  /** The capability a data source offers the pipeline: columns looked up by
      name, all of them `rows` long. */
  datatype ColumnTable = ColumnTable(columns: map<string, Column>, rows: nat)

  ghost predicate RowAligned(t: ColumnTable) {
    forall n :: n in t.columns ==> |t.columns[n]| == t.rows
  }

  /** Name-keyed lookup in a table: the column on a hit, `ColumnNotFound` on a miss. */
  function Lookup(t: ColumnTable, name: string): (r: Result<Column, DataError>)
    ensures r.Ok? <==> name in t.columns
    ensures r.Ok? ==> r.value == t.columns[name]
    ensures RowAligned(t) && r.Ok? ==> |r.value| == t.rows
    ensures r.Err? ==> r.error == ColumnNotFound(ColumnNotFoundMessage(name))
  {
    if name in t.columns then Ok(t.columns[name]) else Err(ColumnNotFound(ColumnNotFoundMessage(name)))
  }

  /** The table an owned source presents: its one column under its name. */
  function OwnedTable(src: OwnedColumnSource): (t: ColumnTable)
    ensures RowAligned(t)
    ensures t.columns.Keys == {src.name} && t.columns[src.name] == src.data
    ensures t.rows == |src.data|
  {
    ColumnTable(map[src.name := src.data], |src.data|)
  }

  /** The table a borrowed source presents: its one slice under its name. */
  function BorrowedTable(src: BorrowedColumnSource): (t: ColumnTable)
    ensures RowAligned(t)
    ensures t.columns.Keys == {src.name} && t.columns[src.name] == src.data
    ensures t.rows == |src.data|
  {
    ColumnTable(map[src.name := src.data], |src.data|)
  }
}
