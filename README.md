# gracex data sources and drawing primitives in Dafny

This project models two parts of the gracex plotting library.

The first part is the single-column data sources. `OwnedColumnSource` owns one named column of numbers. `BorrowedColumnSource` borrows one named slice of numbers. Three traits give the same three operations over them:

- `get_numeric_column` looks a column up by name.
- `n_rows` gives the number of observations.
- `has_columns` says whether a name can be looked up.

`DataSourceOwned` returns a copy of the column. `DataSourceBorrowed` returns the borrowed slice. `DataSourceSelf` returns a view of the stored column. On a miss, each returns `DataError::ColumnNotFound("Column '<name>' not found")`.

The second part is the drawing primitives a renderer consumes: `Point`, `Color`, `Stroke` and `DrawCommand`, with their `Default` values.

Layout:

- `wrappers.dfy` (module `Wrappers`): Rust's `Option` and `Result`.
- `data_sources.dfy` (module `DataSources`): the error kinds and the two source types. It also holds the message format and its inverse. `ColumnTable` and `Lookup` are the reference definition for the single-column sources: a source is a map from column names to columns that all have the same length.
- `data_source_owned.dfy`, `data_source_borrowed.dfy`, `data_source_self.dfy`: one module per trait implementation. Each operation is proved to agree with `Lookup` on the source's table. Success is proved to coincide with `HasColumns`, and a successful lookup has `NRows` elements.
- `primitives.dfy` (module `Primitives`): the primitive datatypes and the three defaults.

Column elements (`f64`) and geometry (`f64`, `f32`) are modelled as `real`. They are only copied or compared with constants. `usize` is modelled as the 64-bit range. A column's length is bounded by Rust's allocation limit: `isize::MAX` bytes, at 8 bytes per `f64`. So `n_rows` always fits.

## Model

| member | source | states |
|---|---|---|
| DataSources.ColumnNotFoundMessage | src/data_source_owned.rs:23-26 | the miss message is the prefix `Column '`, then the requested name, then `' not found`, and its length is the sum of the three |
| DataSources.MissingColumnName | src/data_source_owned.rs:23-26 | any name parsed back out of a message rebuilds exactly that message |
| DataSources.MessageRoundTrip | src/data_source_owned.rs:23-26 | parsing the miss message for `name` gives back `name` |
| DataSources.MessageInjective | src/data_source_owned.rs:23-26 | different requested names never produce the same miss message |
| DataSources.Lookup | src/data_source_owned.rs:19-36 | the name-keyed lookup that all three single-column impls share: it succeeds iff the name is a column, returns that column, and on a row-aligned table the column is `rows` long; a miss is `ColumnNotFound` with the formatted message |
| DataSources.OwnedTable | src/data_sources.rs:19-22 | an owned source offers exactly one column, under its own name, and its row count is that column's length |
| DataSources.BorrowedTable | src/data_sources.rs:24-27 | a borrowed source offers exactly one slice, under its own name, and its row count is that slice's length |
| DataSourceOwned.GetNumericColumn | src/data_source_owned.rs:19-28 | agrees with `Lookup` on the source's table; it is Ok iff `HasColumns`; Ok carries data equal to the stored column with `NRows` elements; otherwise the result is `ColumnNotFound("Column '<name>' not found")` |
| DataSourceOwned.NRows | src/data_source_owned.rs:30-32 | the row count is the stored column's length and the table's row count |
| DataSourceOwned.HasColumns | src/data_source_owned.rs:34-36 | true iff the name is the source's name, which is iff the table has that column |
| DataSourceOwned.MissNamesRequestedColumn | src/data_source_owned.rs:22-27 | a name the source lacks gives an error whose message parses back to that name |
| DataSourceOwned.OwnedSourceExample | src/data_source_owned.rs:52-56 | the unit test: `positive_ints` returns `[1.0, 2.0, 3.0]` |
| DataSourceOwned.OwnedSourceMissExample | src/data_source_owned.rs:22-27 | a concrete miss, not in the unit test: `age` on that source gives `ColumnNotFound("Column 'age' not found")` |
| DataSourceBorrowed.GetNumericColumn | src/data_source_borrowed.rs:13-22 | agrees with `Lookup`; it is Ok iff `HasColumns`; Ok carries the borrowed slice with `NRows` elements; otherwise the result is `ColumnNotFound("Column '<name>' not found")` |
| DataSourceBorrowed.NRows | src/data_source_borrowed.rs:24-26 | the row count is the slice's length and the table's row count |
| DataSourceBorrowed.HasColumns | src/data_source_borrowed.rs:28-30 | true iff the name is the source's name, which is iff the table has that column |
| DataSourceBorrowed.MissNamesRequestedColumn | src/data_source_borrowed.rs:16-21 | a name the source lacks gives an error whose message parses back to that name |
| DataSourceBorrowed.BorrowedSourceExample | src/data_source_borrowed.rs:38-53 | the unit test: the slice equals the data, `n_rows` is 3, and `has_columns("positive_ints")` holds |
| DataSourceSelf.GetNumericColumn | src/data_source_self.rs:17-26 | agrees with `Lookup`; it is Ok iff `HasColumns`; Ok carries data equal to the stored column with `NRows` elements; otherwise the result is `ColumnNotFound("Column '<name>' not found")` |
| DataSourceSelf.NRows | src/data_source_self.rs:28-30 | the row count is the stored column's length and the table's row count |
| DataSourceSelf.HasColumns | src/data_source_self.rs:32-34 | true iff the name is the source's name, which is iff the table has that column |
| DataSourceSelf.MissNamesRequestedColumn | src/data_source_self.rs:20-25 | a name the source lacks gives an error whose message parses back to that name |
| DataSourceSelf.AgreesWithOwned | src/data_source_self.rs:16-35 | for every source and name, this impl's lookup, row count and membership test equal those of the `DataSourceOwned` impl |
| DataSourceSelf.SelfSourceExample | src/data_source_self.rs:86-103 | the unit test: the view equals the data, `n_rows` is 3, and `has_columns("positive_ints")` holds |
| Primitives.DefaultColor | src/primitives.rs:71-80 | the default colour is black (r = g = b = 0) and fully opaque (a = 255) |
| Primitives.DefaultColorCharacterized | src/primitives.rs:71-80 | a colour is opaque black iff it is the default colour |
| Primitives.DefaultStroke | src/primitives.rs:55-63 | the default stroke has colour `Some(Color::default())` and width 2.0 |
| Primitives.DefaultPoint | src/primitives.rs:65-69 | the default point is the origin (0, 0) |
| Primitives.ChannelsAreBytes | src/primitives.rs:6-11 | every channel of every colour lies in 0..255; this restates the `U8` subset type and needs no proof |
| Primitives.ExactlyOneKind | src/primitives.rs:18-53 | every draw command is exactly one of Circle, Line, Rectangle, Polygon and Text; this restates the datatype declaration and needs no proof |

## Left out

- Ownership and lifetimes are not modelled. In Rust, `DataSourceOwned` clones the column, `DataSourceSelf` borrows it from the source, and `DataSourceBorrowed` returns a slice that outlives the source. In a value model all three return equal data; `DataSourceSelf.AgreesWithOwned` states this for the two impls on `OwnedColumnSource`. A lookup cannot change the source, because it is a function of an immutable value.
- `f64` and `f32` are modelled as `real`. NaN, rounding and the fact that NaN compares unequal in the unit tests' `assert_eq!` are not modelled.
- `DataSourceSelf` for polars `DataFrame` and `Series` (src/data_source_self.rs:37-80) is not modelled. These impls are thin wrappers over foreign library calls (`column`, `f64()`, `cont_slice`). The dtype test in the `Series` impl (src/data_source_self.rs:71) is inverted: it rejects `Float64` columns. The model does not carry that behaviour. The `DataFrame` impl reports a missing column through `self.column(name)?` (src/data_source_self.rs:48), which becomes `DataError::PolarsError`, not `ColumnNotFound`; the miss contract of `DataSources.Lookup` does not describe it.
- `From<PolarsError> for DataError` (src/data_sources.rs:12-16) converts a foreign error, so it is not modelled. `DataError` is kept with its four variants.
- src/renderer.rs is not modelled. It rasterises draw commands through the tiny_skia library and writes a PNG file, which is foreign calls, floating-point geometry and I/O.
- src/main.rs is not modelled. It is a demo that builds four commands and renders them to a file.
- `Debug` formatting of `DataError` is not modelled.
