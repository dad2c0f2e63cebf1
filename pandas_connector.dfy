/**
 * The pandas connector (pandasai/connectors/pandas.py): a data source built
 * from a series, a dataframe, a list or dict of records or a file path, which
 * can be registered as a SQL table under a name.
 *
 * Pandas itself, the file importer, SHA-256 and the SQL engine are not part of
 * this model: a dataframe is its column names and rows, and the rest are
 * collaborators passed in as functions.
 */
module PandasConnectorModel {
  import opened PyValues

  /** A dataframe: its column labels, in order, and its rows. */
  datatype Frame = Frame(columns: seq<string>, rows: seq<seq<Value>>)

  /** A series: its name and its values. */
  datatype Series = Series(name: string, values: seq<Value>)

  /** What `original_df` may hold: a series, a dataframe, or any other Python value. */
  datatype DataInput = SeriesIn(series: Series) | FrameIn(frame: Frame) | PlainIn(value: Value)

  /**
   * The library calls `_load_df` makes: `pd.DataFrame(data)` for a list or dict
   * (None when pandas raises), and `FileImporter.import_from_file(path)`.
   */
  datatype Loaders = Loaders(build: Value -> Option<Frame>, importFile: string -> Result<Frame>)

  const InvalidInput: Exc := Exc(ValueError, "Invalid input data. We cannot convert it to a dataframe.")

  const TableNameNotFound: Exc := Exc(TableNotFound, "Table name not found!")

  /** `series.to_frame()`: one column named after the series, one row per value. */
  function ToFrame(s: Series): (r: Frame)
    ensures r.columns == [s.name] && |r.rows| == |s.values|
    ensures forall i :: 0 <= i < |r.rows| ==> r.rows[i] == [s.values[i]]
  {
    Frame([s.name], seq(|s.values|, i requires 0 <= i < |s.values| => [s.values[i]]))
  }

  /**
   * The dispatch of `_load_df`: what `pandas_df` becomes, or what it raises.
   * A list or dict goes through the dataframe builder, whose failure becomes
   * ValueError; a string is a path for the file importer, whose exceptions
   * propagate unchanged; any other value is rejected with ValueError.
   */
  function Load(df: DataInput, loaders: Loaders): (r: Result<Frame>)
    ensures df.SeriesIn? ==> r == Ok(ToFrame(df.series))
    ensures df.FrameIn? ==> r == Ok(df.frame)
    ensures df.PlainIn? && (df.value.List? || df.value.Dict?) ==>
      r == (if loaders.build(df.value).Some? then Ok(loaders.build(df.value).value) else Err(InvalidInput))
    ensures df.PlainIn? && df.value.Str? ==> r == loaders.importFile(df.value.s)
    ensures df.PlainIn? && !(df.value.List? || df.value.Dict? || df.value.Str?) ==> r == Err(InvalidInput)
  {
    match df
    case SeriesIn(s) => Ok(ToFrame(s))
    case FrameIn(f) => Ok(f)
    case PlainIn(v) =>
      if v.List? || v.Dict? then
        match loaders.build(v)
        case Some(f) => Ok(f)
        case None => Err(InvalidInput)
      else if v.Str? then loaders.importFile(v.s)
      else Err(InvalidInput)
  }

  /**
   * Loading fails only with the connector's ValueError or with an exception of
   * the file importer, and the ValueError is raised exactly for a failed
   * conversion or an unsupported input type.
   */
  lemma LoadFailures(df: DataInput, loaders: Loaders)
    ensures Load(df, loaders).Err? ==>
      Load(df, loaders).error == InvalidInput || (df.PlainIn? && df.value.Str?)
    ensures Load(df, loaders) == Err(InvalidInput) && !(df.PlainIn? && df.value.Str?) <==>
      df.PlainIn? && !df.value.Str?
      && (!(df.value.List? || df.value.Dict?) || loaders.build(df.value).None?)
  {
  }

  /** A loaded dataframe loads as itself: handing `pandas_df` back to `_load_df` changes nothing. */
  lemma LoadIdempotent(df: DataInput, loaders: Loaders)
    requires Load(df, loaders).Ok?
    ensures Load(FrameIn(Load(df, loaders).value), loaders) == Load(df, loaders)
  {
  }

  /** `rows_count`: `len(pandas_df)`. */
  function RowsCount(f: Frame): (r: nat)
    ensures r == |f.rows|
  {
    |f.rows|
  }

  /** `columns_count`: `len(pandas_df.columns)`. */
  function ColumnsCount(f: Frame): (r: nat)
    ensures r == |f.columns|
  {
    |f.columns|
  }

  /** A series loads as a frame with one column and a row per value. */
  lemma SeriesCounts(s: Series, loaders: Loaders)
    ensures var f := Load(SeriesIn(s), loaders).value;
      RowsCount(f) == |s.values| && ColumnsCount(f) == 1
  {
  }

  /** `"".join(columns)`. */
  function Join(parts: seq<string>): string
  {
    if parts == [] then "" else parts[0] + Join(parts[1..])
  }

  lemma {:induction false} JoinAppend(a: seq<string>, b: seq<string>)
    ensures Join(a + b) == Join(a) + Join(b)
  {
    if a == [] {
      assert a + b == b;
    } else {
      assert (a + b)[1..] == a[1..] + b;
      JoinAppend(a[1..], b);
    }
  }

  /** `column_hash`, with the digest as a collaborator. */
  function ColumnHash(digest: string -> string, f: Frame): (r: string)
    ensures r == digest(Join(f.columns))
  {
    digest(Join(f.columns))
  }

  /**
   * The hash sees only the concatenated column names: two frames whose column
   * names concatenate to the same string hash alike, whatever their rows.
   */
  lemma ColumnHashOnlyColumns(digest: string -> string, f: Frame, g: Frame)
    requires Join(f.columns) == Join(g.columns)
    ensures ColumnHash(digest, f) == ColumnHash(digest, g)
  {
  }

  /**
   * With no separator, how a name is split into columns is lost: appending a
   * column to a frame or merging it into the last column gives the same hash.
   */
  lemma {:induction false} ColumnHashIgnoresSplit(digest: string -> string, prefix: seq<string>, x: string, y: string,
                                                  rows: seq<seq<Value>>, rows': seq<seq<Value>>)
    ensures ColumnHash(digest, Frame(prefix + [x, y], rows)) == ColumnHash(digest, Frame(prefix + [x + y], rows'))
  {
    JoinAppend(prefix, [x, y]);
    JoinAppend(prefix, [x + y]);
    assert [x, y][1..] == [y] && [y][1..] == [] && [x + y][1..] == [];
    assert y + "" == y && (x + y) + "" == x + y;
    assert Join([x, y]) == x + y;
    assert Join([x + y]) == x + y;
    assert Join(prefix + [x, y]) == Join(prefix + [x + y]);
  }

  /** The collision of `["ab", "c"]` and `["a", "bc"]`. */
  lemma ColumnHashCollision(digest: string -> string)
    ensures ColumnHash(digest, Frame(["ab", "c"], [])) == ColumnHash(digest, Frame(["a", "bc"], [[Int(1), Int(2)]]))
  {
    ColumnHashIgnoresSplit(digest, [], "ab", "c", [], []);
    ColumnHashIgnoresSplit(digest, [], "a", "bc", [[Int(1), Int(2)]], []);
    assert [] + ["ab", "c"] == ["ab", "c"] && [] + ["a", "bc"] == ["a", "bc"];
    assert "ab" + "c" == "a" + "bc";
  }

  /** Python truthiness of an optional name. */
  predicate NameTruthy(n: Option<string>)
  {
    n.Some? && n.value != ""
  }

  /**
   * The table `enable_sql_query` registers: the argument when truthy, else the
   * connector's name, and an error when both are falsy.
   */
  function ChooseTable(tableName: Option<string>, name: Option<string>): (r: Result<string>)
    ensures r.Err? <==> !NameTruthy(tableName) && !NameTruthy(name)
    ensures r.Err? ==> r.error == TableNameNotFound
    ensures NameTruthy(tableName) ==> r == Ok(tableName.value)
    ensures !NameTruthy(tableName) && NameTruthy(name) ==> r == Ok(name.value)
    ensures r.Ok? ==> r.value != ""
  {
    if !NameTruthy(tableName) && !NameTruthy(name) then Err(TableNameNotFound)
    else if NameTruthy(tableName) then Ok(tableName.value)
    else Ok(name.value)
  }

  /**
   * The SQL engine as the connector uses it: registering a frame as a table
   * (which may raise) and running a query written in the MySQL dialect.
   */
  datatype SqlEngine = SqlEngine(create: (Frame, string) -> Option<Exc>, query: string -> Result<Frame>)

  class PandasConnector {
    var pandasDf: Frame
    var sqlEnabled: bool
    var name: Option<string>
    /** How many times `enable_sql_query` has been entered. */
    ghost var enableCalls: nat

    /**
     * A placeholder for the half-built object inside `__init__`, before `_load_df`
     * has run and before `sql_enabled` is assigned. Nobody can observe it: `Create`
     * either overwrites both fields or never returns the object.
     */
    constructor Empty(name: Option<string>)
      ensures pandasDf == Frame([], []) && !sqlEnabled && this.name == name && enableCalls == 0
    {
      pandasDf := Frame([], []);
      sqlEnabled := false;
      this.name := name;
      enableCalls := 0;
    }

    /** `_load_df`: sets `pandas_df` as Load prescribes, or raises and leaves it alone. */
    method LoadDf(df: DataInput, loaders: Loaders) returns (raised: Option<Exc>)
      modifies this
      ensures var r := Load(df, loaders);
        && (r.Ok? ==> raised.None? && pandasDf == r.value)
        && (r.Err? ==> raised == Some(r.error) && pandasDf == old(pandasDf))
      ensures sqlEnabled == old(sqlEnabled) && name == old(name) && enableCalls == old(enableCalls)
    {
      var r: Result<Frame>;
      match df {
        case SeriesIn(s) =>
          r := Ok(ToFrame(s));
        case FrameIn(f) =>
          r := Ok(f);
        case PlainIn(v) =>
          if v.List? || v.Dict? {
            var built := loaders.build(v);
            r := if built.Some? then Ok(built.value) else Err(InvalidInput);
          } else if v.Str? {
            r := loaders.importFile(v.s);
          } else {
            r := Err(InvalidInput);
          }
      }
      if r.Err? {
        return Some(r.error);
      }
      pandasDf := r.value;
      raised := None;
    }

    /** `__init__`: load the data, then clear `sql_enabled`; a failed load propagates. */
    static method Create(df: DataInput, name: Option<string>, loaders: Loaders) returns (r: Result<PandasConnector>)
      ensures r.Ok? <==> Load(df, loaders).Ok?
      ensures r.Err? ==> r.error == Load(df, loaders).error
      ensures r.Ok? ==>
        && fresh(r.value) && r.value.pandasDf == Load(df, loaders).value
        && !r.value.sqlEnabled && r.value.name == name && r.value.enableCalls == 0
    {
      var c := new PandasConnector.Empty(name);
      var raised := c.LoadDf(df, loaders);
      if raised.Some? {
        return Err(raised.value);
      }
      c.sqlEnabled := false;
      r := Ok(c);
    }

    /** `cs_table_name`. */
    function CsTableName(): (r: Option<string>)
      reads this
      ensures r == name
    {
      name
    }

    /**
     * `enable_sql_query`: choose the table, register `pandas_df` under it, then
     * set `sql_enabled` and rename the connector. Nothing changes when no name
     * is available or when registration raises.
     */
    method EnableSqlQuery(tableName: Option<string>, engine: SqlEngine) returns (raised: Option<Exc>)
      modifies this
      ensures enableCalls == old(enableCalls) + 1 && pandasDf == old(pandasDf)
      ensures var t := ChooseTable(tableName, old(name));
        && (t.Err? ==> raised == Some(t.error))
        && (t.Ok? ==> raised == engine.create(pandasDf, t.value))
        && (raised.None? ==> sqlEnabled && name == Some(t.value) && CsTableName() == Some(t.value))
        && (raised.Some? ==> sqlEnabled == old(sqlEnabled) && name == old(name))
    {
      enableCalls := enableCalls + 1;
      var t := ChooseTable(tableName, name);
      if t.Err? {
        return Some(t.error);
      }
      raised := engine.create(pandasDf, t.value);
      if raised.Some? {
        return;
      }
      sqlEnabled := true;
      name := Some(t.value);
    }

    /**
     * `execute_direct_sql_query`: enable SQL with the connector's own name
     * unless it already is, then run the query. Once enabled, no later query
     * enables again.
     */
    method ExecuteDirectSqlQuery(sql: string, engine: SqlEngine) returns (r: Result<Frame>)
      modifies this
      ensures pandasDf == old(pandasDf)
      ensures old(sqlEnabled) ==>
        && enableCalls == old(enableCalls) && sqlEnabled && name == old(name)
        && r == engine.query(sql)
      ensures !old(sqlEnabled) ==> enableCalls == old(enableCalls) + 1
      ensures !old(sqlEnabled) && !NameTruthy(old(name)) ==> r == Err(TableNameNotFound) && !sqlEnabled
      ensures !old(sqlEnabled) && NameTruthy(old(name)) ==>
        var fault := engine.create(old(pandasDf), old(name).value);
        && (fault.Some? ==> r == Err(fault.value) && !sqlEnabled)
        && (fault.None? ==> r == engine.query(sql) && sqlEnabled && name == old(name))
    {
      if !sqlEnabled {
        var raised := EnableSqlQuery(None, engine);
        if raised.Some? {
          return Err(raised.value);
        }
      }
      r := engine.query(sql);
    }
  }
}
