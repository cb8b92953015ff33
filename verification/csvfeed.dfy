/** The bar-ingestion rules of quantworks/barfeed/csvfeed.py: the date-range
    bar filter, `GenericRowParser.parseBar` over a row that has already been
    read, the filter/skip-malformed loading loop of `BarFeed.addBarsFromCSV`,
    and the adjusted-close rule of `GenericBarFeed`. Opening and reading the
    file is not modelled: a load receives the rows themselves. */
module CsvFeed {
  import opened Wrappers
  import opened Bars

  /** A CSV row as read with its header: column name to cell text. */
  type Row = map<string, string>

  /** `DateRangeFilter(fromDate, toDate)`; either bound may be unset. */
  datatype DateRangeFilter = DateRangeFilter(fromDate: Option<int>, toDate: Option<int>)

  /** `DateRangeFilter.includeBar`: both bounds are inclusive. */
  function IncludeBar(f: DateRangeFilter, b: Bar): (r: bool)
    ensures f.toDate.Some? && b.dateTime > f.toDate.value ==> !r
    ensures f.fromDate.Some? && b.dateTime < f.fromDate.value ==> !r
    ensures r <==> ((f.fromDate.None? || f.fromDate.value <= b.dateTime)
                 && (f.toDate.None? || b.dateTime <= f.toDate.value))
  {
    if f.toDate.Some? && b.dateTime > f.toDate.value then false
    else if f.fromDate.Some? && b.dateTime < f.fromDate.value then false
    else true
  }

  /** The feed's optional bar filter; without one every bar is accepted. */
  function Accepts(filter: Option<DateRangeFilter>, b: Bar): bool {
    filter.None? || IncludeBar(filter.value, b)
  }

  /** The text conversions the parser delegates to libraries: date parsing
      (strptime, the daily bar time and timezone localization together) and
      `float()`. `None` stands for the exception they raise. */
  datatype Converters = Converters(parseDate: string -> Option<int>, parseFloat: string -> Option<real>)

  /** What a `GenericRowParser` is constructed with. */
  datatype ParserConfig = ParserConfig(columnNames: ColumnNames, frequency: int, conv: Converters)

  /** The exceptions `parseBar` raises: a missing key, a date or a number
      that does not convert. */
  datatype ParseError = MissingColumn(name: string) | BadDate(name: string) | BadNumber(name: string)

  function Cell(row: Row, name: string): (r: Result<string, ParseError>)
    ensures r.Ok? <==> name in row
    ensures r.Ok? ==> r.value == row[name]
  {
    if name in row then Ok(row[name]) else Err(MissingColumn(name))
  }

  /** Reading a datetime cell: it succeeds exactly when the column is in the
      row and its text converts, with the converted value; a missing column
      and a cell that does not convert give their own errors. */
  function DateCell(row: Row, name: string, conv: Converters): (r: Result<int, ParseError>)
    ensures r.Ok? <==> name in row && conv.parseDate(row[name]).Some?
    ensures r.Ok? ==> conv.parseDate(row[name]) == Some(r.value)
    ensures name !in row ==> r == Err(MissingColumn(name))
    ensures name in row && conv.parseDate(row[name]).None? ==> r == Err(BadDate(name))
  {
    var s :- Cell(row, name);
    match conv.parseDate(s)
    case Some(t) => Ok(t)
    case None => Err(BadDate(name))
  }

  /** Reading a price cell with `float()`, with the same outcomes. */
  function NumberCell(row: Row, name: string, conv: Converters): (r: Result<real, ParseError>)
    ensures r.Ok? <==> name in row && conv.parseFloat(row[name]).Some?
    ensures r.Ok? ==> conv.parseFloat(row[name]) == Some(r.value)
    ensures name !in row ==> r == Err(MissingColumn(name))
    ensures name in row && conv.parseFloat(row[name]).None? ==> r == Err(BadNumber(name))
  {
    var s :- Cell(row, name);
    match conv.parseFloat(s)
    case Some(x) => Ok(x)
    case None => Err(BadNumber(name))
  }

  /** `csvutils.float_or_string`: a number when the text converts, else the text. */
  function FloatOrString(conv: Converters, s: string): Value {
    match conv.parseFloat(s)
    case Some(x) => Num(x)
    case None => Text(s)
  }

  /** Some key of a non-empty map. */
  ghost function PickKey(cells: map<string, string>): (k: string)
    requires cells != map[]
    ensures k in cells
  {
    var k :| k in cells; k
  }

  /** Every cell of `cells` through `float_or_string`, one key at a time. */
  ghost function ConvertCells(conv: Converters, cells: map<string, string>): map<string, Value>
    decreases cells.Keys
  {
    if cells == map[] then map[]
    else
      var k := PickKey(cells);
      ConvertCells(conv, cells - {k})[k := FloatOrString(conv, cells[k])]
  }

  /** The converted map has the same keys, each cell converted. */
  lemma {:induction false} ConvertCellsSpec(conv: Converters, cells: map<string, string>)
    ensures ConvertCells(conv, cells).Keys == cells.Keys
    ensures forall k :: k in cells ==> ConvertCells(conv, cells)[k] == FloatOrString(conv, cells[k])
    decreases cells.Keys
  {
    if cells != map[] {
      ConvertCellsSpec(conv, cells - {PickKey(cells)});
    }
  }

  /** The loop over the row's items in `parseBar`: every cell whose column
      is not a configured one goes into `extra`, through `float_or_string`. */
  method CollectExtra(row: Row, c: ColumnNames, conv: Converters) returns (extra: map<string, Value>)
    ensures extra == ConvertCells(conv, ExtraFields(row, c))
  {
    extra := map[];
    var todo := row.Keys;
    while todo != {}
      invariant todo <= row.Keys
      invariant extra.Keys == (row.Keys - todo) - NameSet(c)
      invariant forall k :: k in extra ==> extra[k] == FloatOrString(conv, row[k])
      decreases todo
    {
      var k :| k in todo;
      if k !in NameSet(c) {
        extra := extra[k := FloatOrString(conv, row[k])];
      }
      todo := todo - {k};
    }
    ghost var expected := ConvertCells(conv, ExtraFields(row, c));
    ConvertCellsSpec(conv, ExtraFields(row, c));
    assert extra.Keys == expected.Keys;
    assert forall k :: k in extra ==> extra[k] == expected[k];
  }

  /** The adjusted-close cell: an absent cell reads as empty; an unset column
      or an empty cell gives no adjusted close. */
  function AdjCloseCell(row: Row, c: ColumnNames, conv: Converters): Result<Option<real>, ParseError> {
    match c.adjClose
    case None => Ok(None)
    case Some(name) =>
      var s := if name in row then row[name] else "";
      if |s| == 0 then Ok(None)
      else match conv.parseFloat(s)
        case Some(x) => Ok(Some(x))
        case None => Err(BadNumber(name))
  }

  /** True when the row names a non-empty adjusted-close cell. */
  predicate HasAdjCloseCell(row: Row, c: ColumnNames) {
    c.adjClose.Some? && c.adjClose.value in row && |row[c.adjClose.value]| > 0
  }

  /** `GenericRowParser.parseBar`, fields read in the source's order. */
  ghost function ParseRow(cfg: ParserConfig, row: Row): (r: Result<Bar, ParseError>)
    ensures r.Ok? ==> r.value.frequency == cfg.frequency
  {
    var c := cfg.columnNames;
    var dateTime :- DateCell(row, c.dateTime, cfg.conv);
    var open :- NumberCell(row, c.open, cfg.conv);
    var high :- NumberCell(row, c.high, cfg.conv);
    var low :- NumberCell(row, c.low, cfg.conv);
    var close :- NumberCell(row, c.close, cfg.conv);
    var volume :- NumberCell(row, c.volume, cfg.conv);
    var adjClose :- AdjCloseCell(row, c, cfg.conv);
    var extra := ConvertCells(cfg.conv, ExtraFields(row, c));
    Ok(Bar(dateTime, open, high, low, close, volume, adjClose, cfg.frequency, extra))
  }

  /** A parsed bar's prices are the configured columns' cells, converted. */
  lemma ParseRowReadsConfiguredColumns(cfg: ParserConfig, row: Row)
    requires ParseRow(cfg, row).Ok?
    ensures var c := cfg.columnNames;
            var b := ParseRow(cfg, row).value;
            && {c.dateTime, c.open, c.high, c.low, c.close, c.volume} <= row.Keys
            && cfg.conv.parseDate(row[c.dateTime]) == Some(b.dateTime)
            && cfg.conv.parseFloat(row[c.open]) == Some(b.open)
            && cfg.conv.parseFloat(row[c.high]) == Some(b.high)
            && cfg.conv.parseFloat(row[c.low]) == Some(b.low)
            && cfg.conv.parseFloat(row[c.close]) == Some(b.close)
            && cfg.conv.parseFloat(row[c.volume]) == Some(b.volume)
  {
  }

  /** A parsed bar's `extra` map holds every other column of the row, each
      cell read as a number when it converts and as text otherwise. */
  lemma ParseRowExtraFields(cfg: ParserConfig, row: Row)
    requires ParseRow(cfg, row).Ok?
    ensures var e := ParseRow(cfg, row).value.extra;
            && e.Keys == row.Keys - NameSet(cfg.columnNames)
            && forall k :: k in e ==> e[k] == FloatOrString(cfg.conv, row[k])
  {
    ConvertCellsSpec(cfg.conv, ExtraFields(row, cfg.columnNames));
  }

  /** A parsed bar has an adjusted close exactly when the column is set and
      its cell is present and non-empty; that cell is then its value. */
  lemma ParseRowAdjClose(cfg: ParserConfig, row: Row)
    requires ParseRow(cfg, row).Ok?
    ensures var b := ParseRow(cfg, row).value;
            && (b.adjClose.Some? <==> HasAdjCloseCell(row, cfg.columnNames))
            && (b.adjClose.Some? ==> cfg.conv.parseFloat(row[cfg.columnNames.adjClose.value]) == Some(b.adjClose.value))
  {
  }

  /** The text of `name` is in the row and converts with `parse`. */
  predicate Converts<T>(row: Row, name: string, parse: string -> Option<T>) {
    name in row && parse(row[name]).Some?
  }

  /** A row parses exactly when its six configured columns are present and
      convert, and its adjusted-close cell, when the column is set and the
      cell is non-empty, converts too. */
  lemma ParseRowSucceeds(cfg: ParserConfig, row: Row)
    ensures var c := cfg.columnNames;
            var conv := cfg.conv;
            ParseRow(cfg, row).Ok? <==>
              && Converts(row, c.dateTime, conv.parseDate)
              && Converts(row, c.open, conv.parseFloat)
              && Converts(row, c.high, conv.parseFloat)
              && Converts(row, c.low, conv.parseFloat)
              && Converts(row, c.close, conv.parseFloat)
              && Converts(row, c.volume, conv.parseFloat)
              && (HasAdjCloseCell(row, c) ==> Converts(row, c.adjClose.value, conv.parseFloat))
  {
  }

  /** The first check reads the datetime column: without it the row fails
      with a missing-column error. */
  lemma ParseRowNeedsDateTime(cfg: ParserConfig, row: Row)
    requires cfg.columnNames.dateTime !in row
    ensures ParseRow(cfg, row) == Err(MissingColumn(cfg.columnNames.dateTime))
  {
  }

  /** True when some row of `rows` parses to a bar with an adjusted close. */
  ghost function AnyAdjClose(cfg: ParserConfig, rows: seq<Row>): bool
    decreases |rows|
  {
    if rows == [] then false
    else
      var r := ParseRow(cfg, rows[|rows| - 1]);
      AnyAdjClose(cfg, rows[..|rows| - 1]) || (r.Ok? && r.value.adjClose.Some?)
  }

  /** `GenericRowParser`: its flag records whether any bar it parsed had an
      adjusted close; it is never reset. */
  class GenericRowParser {
    const config: ParserConfig
    var haveAdjClose: bool

    constructor (config: ParserConfig)
      ensures this.config == config && !haveAdjClose
    {
      this.config := config;
      haveAdjClose := false;
    }

    function BarsHaveAdjClose(): bool
      reads this
    {
      haveAdjClose
    }

    /** `parseBar`: read the configured columns in order, then the adjusted
        close (setting the flag when there is one), then the other columns
        into `extra`. */
    method ParseBar(row: Row) returns (r: Result<Bar, ParseError>)
      modifies this
      ensures r == ParseRow(config, row)
      ensures haveAdjClose == (old(haveAdjClose) || (r.Ok? && r.value.adjClose.Some?))
    {
      var c := config.columnNames;
      var dateTime :- DateCell(row, c.dateTime, config.conv);
      var open :- NumberCell(row, c.open, config.conv);
      var high :- NumberCell(row, c.high, config.conv);
      var low :- NumberCell(row, c.low, config.conv);
      var close :- NumberCell(row, c.close, config.conv);
      var volume :- NumberCell(row, c.volume, config.conv);
      var adjClose :- AdjCloseCell(row, c, config.conv);
      if adjClose.Some? {
        haveAdjClose := true;
      }
      var extra := CollectExtra(row, c, config.conv);
      r := Ok(Bar(dateTime, open, high, low, close, volume, adjClose, config.frequency, extra));
    }
  }

  /** The bars a load keeps from `rows`, in input order, or the parse error
      that aborts it: malformed rows are dropped when `skipMalformed`, and
      bars the filter rejects are dropped. */
  ghost function LoadRows(cfg: ParserConfig, filter: Option<DateRangeFilter>, skipMalformed: bool, rows: seq<Row>)
    : Result<seq<Bar>, ParseError>
    decreases |rows|
  {
    if rows == [] then Ok([])
    else
      var loaded :- LoadRows(cfg, filter, skipMalformed, rows[..|rows| - 1]);
      match ParseRow(cfg, rows[|rows| - 1])
      case Err(e) => if skipMalformed then Ok(loaded) else Err(e)
      case Ok(b) => Ok(if Accepts(filter, b) then loaded + [b] else loaded)
  }

  /** The bars of the rows that parse, in input order. */
  ghost function ParsedBars(cfg: ParserConfig, rows: seq<Row>): seq<Bar>
    decreases |rows|
  {
    if rows == [] then []
    else
      var r := ParseRow(cfg, rows[|rows| - 1]);
      if r.Ok? then ParsedBars(cfg, rows[..|rows| - 1]) + [r.value] else ParsedBars(cfg, rows[..|rows| - 1])
  }

  /** The bars of `bars` the filter accepts, in order. */
  function Kept(filter: Option<DateRangeFilter>, bars: seq<Bar>): (r: seq<Bar>)
    ensures |r| <= |bars|
    decreases |bars|
  {
    if bars == [] then []
    else
      var last := bars[|bars| - 1];
      assert bars == bars[..|bars| - 1] + [last];
      if Accepts(filter, last) then Kept(filter, bars[..|bars| - 1]) + [last] else Kept(filter, bars[..|bars| - 1])
  }

  /** The filter keeps exactly the accepted bars. */
  lemma {:induction false} KeptMembers(filter: Option<DateRangeFilter>, bars: seq<Bar>, b: Bar)
    ensures b in Kept(filter, bars) <==> b in bars && Accepts(filter, b)
    decreases |bars|
  {
    if bars != [] {
      KeptMembers(filter, bars[..|bars| - 1], b);
      assert bars == bars[..|bars| - 1] + [bars[|bars| - 1]];
    }
  }

  /** Filtering distributes over concatenation, so it keeps input order. */
  lemma {:induction false} KeptAppend(filter: Option<DateRangeFilter>, a: seq<Bar>, b: seq<Bar>)
    ensures Kept(filter, a + b) == Kept(filter, a) + Kept(filter, b)
    decreases |b|
  {
    if b != [] {
      var ab := a + b;
      assert ab[..|ab| - 1] == a + b[..|b| - 1];
      assert ab[|ab| - 1] == b[|b| - 1];
      KeptAppend(filter, a, b[..|b| - 1]);
    } else {
      assert a + b == a;
    }
  }

  /** Without a filter every parsed bar is kept. */
  lemma {:induction false} KeptWithoutFilter(bars: seq<Bar>)
    ensures Kept(None, bars) == bars
    decreases |bars|
  {
    if bars != [] {
      KeptWithoutFilter(bars[..|bars| - 1]);
      assert bars == bars[..|bars| - 1] + [bars[|bars| - 1]];
    }
  }

  lemma KeptSingle(filter: Option<DateRangeFilter>, b: Bar)
    ensures Kept(filter, [b]) == if Accepts(filter, b) then [b] else []
  {
    assert [b][..0] == [];
  }

  /** The rows that parse contribute their bars, the others nothing. */
  lemma ParsedBarsStep(cfg: ParserConfig, filter: Option<DateRangeFilter>, rows: seq<Row>)
    requires rows != []
    ensures var r := ParseRow(cfg, rows[|rows| - 1]);
            var prev := Kept(filter, ParsedBars(cfg, rows[..|rows| - 1]));
            Kept(filter, ParsedBars(cfg, rows)) == if r.Ok? && Accepts(filter, r.value) then prev + [r.value] else prev
  {
    var r := ParseRow(cfg, rows[|rows| - 1]);
    var init := ParsedBars(cfg, rows[..|rows| - 1]);
    if r.Ok? {
      KeptAppend(filter, init, [r.value]);
      KeptSingle(filter, r.value);
      if !Accepts(filter, r.value) {
        assert Kept(filter, init) + [] == Kept(filter, init);
      }
    }
  }

  /** With `skipMalformedBars`, a load never fails: it keeps the accepted
      bars among the rows that parse, in input order. */
  lemma {:induction false} LoadSkippingMalformed(cfg: ParserConfig, filter: Option<DateRangeFilter>, rows: seq<Row>)
    ensures LoadRows(cfg, filter, true, rows) == Ok(Kept(filter, ParsedBars(cfg, rows)))
    decreases |rows|
  {
    if rows != [] {
      var init := rows[..|rows| - 1];
      LoadSkippingMalformed(cfg, filter, init);
      ParsedBarsStep(cfg, filter, rows);
    }
  }

  /** Every row of `rows` parses. */
  ghost predicate AllParse(cfg: ParserConfig, rows: seq<Row>)
  {
    forall i :: 0 <= i < |rows| ==> ParseRow(cfg, rows[i]).Ok?
  }

  lemma AllParseSnoc(cfg: ParserConfig, rows: seq<Row>)
    requires rows != []
    ensures AllParse(cfg, rows) <==> AllParse(cfg, rows[..|rows| - 1]) && ParseRow(cfg, rows[|rows| - 1]).Ok?
  {
    var init := rows[..|rows| - 1];
    assert forall i :: 0 <= i < |init| ==> init[i] == rows[i];
  }

  lemma LoadStrictStep(cfg: ParserConfig, filter: Option<DateRangeFilter>, rows: seq<Row>)
    requires rows != []
    ensures LoadRows(cfg, filter, false, rows).Ok? <==>
              LoadRows(cfg, filter, false, rows[..|rows| - 1]).Ok? && ParseRow(cfg, rows[|rows| - 1]).Ok?
  {
  }

  /** Without `skipMalformedBars`, a load succeeds exactly when every row
      parses. */
  lemma {:induction false} LoadStrictSucceeds(cfg: ParserConfig, filter: Option<DateRangeFilter>, rows: seq<Row>)
    ensures LoadRows(cfg, filter, false, rows).Ok? <==> AllParse(cfg, rows)
    decreases |rows|
  {
    if rows != [] {
      LoadStrictSucceeds(cfg, filter, rows[..|rows| - 1]);
      LoadStrictStep(cfg, filter, rows);
      AllParseSnoc(cfg, rows);
    }
  }

  /** A strict load that succeeds keeps the accepted bars in input order. */
  lemma {:induction false} LoadStrict(cfg: ParserConfig, filter: Option<DateRangeFilter>, rows: seq<Row>)
    ensures LoadRows(cfg, filter, false, rows).Ok? ==>
              LoadRows(cfg, filter, false, rows).value == Kept(filter, ParsedBars(cfg, rows))
    decreases |rows|
  {
    if rows != [] {
      LoadStrict(cfg, filter, rows[..|rows| - 1]);
      ParsedBarsStep(cfg, filter, rows);
    }
  }

  /** A strict load that fails reports the error of the first row that does
      not parse. */
  lemma {:induction false} LoadStrictFirstError(cfg: ParserConfig, filter: Option<DateRangeFilter>, rows: seq<Row>)
    requires LoadRows(cfg, filter, false, rows).Err?
    ensures exists k :: 0 <= k < |rows| && ParseRow(cfg, rows[k]) == Err(LoadRows(cfg, filter, false, rows).error)
                     && forall j :: 0 <= j < k ==> ParseRow(cfg, rows[j]).Ok?
    decreases |rows|
  {
    var init := rows[..|rows| - 1];
    assert forall i :: 0 <= i < |init| ==> init[i] == rows[i];
    if LoadRows(cfg, filter, false, init).Err? {
      LoadStrictFirstError(cfg, filter, init);
      var k :| 0 <= k < |init| && ParseRow(cfg, init[k]) == Err(LoadRows(cfg, filter, false, init).error)
                && forall j :: 0 <= j < k ==> ParseRow(cfg, init[j]).Ok?;
      assert ParseRow(cfg, rows[k]) == Err(LoadRows(cfg, filter, false, rows).error);
    } else {
      LoadStrictSucceeds(cfg, filter, init);
      assert ParseRow(cfg, rows[|rows| - 1]) == Err(LoadRows(cfg, filter, false, rows).error);
    }
  }

  /** The errors `GenericBarFeed.addBarsFromCSV` raises. */
  datatype LoadError = ParseFailed(cause: ParseError) | AdjCloseLost

  /** The row loop of `BarFeed.addBarsFromCSV`: parse each row in order
      with `parser`, drop it if it is malformed and `skipMalformedBars` is
      set (otherwise stop with its error), and keep the bars the filter
      accepts. `failedAt` names the row whose error stops the load. */
  method LoadWithParser(parser: GenericRowParser, filter: Option<DateRangeFilter>, rows: seq<Row>, skipMalformedBars: bool)
    returns (r: Result<seq<Bar>, ParseError>, ghost failedAt: nat)
    modifies parser
    ensures r == LoadRows(parser.config, filter, skipMalformedBars, rows)
    ensures r.Ok? ==> parser.haveAdjClose == (old(parser.haveAdjClose) || AnyAdjClose(parser.config, rows))
    ensures r.Err? ==> failedAt < |rows| && ParseRow(parser.config, rows[failedAt]).Err?
                        && parser.haveAdjClose == (old(parser.haveAdjClose) || AnyAdjClose(parser.config, rows[..failedAt]))
  {
    ghost var had := parser.haveAdjClose;
    var loadedBars: seq<Bar> := [];
    var i := 0;
    while i < |rows|
      invariant 0 <= i <= |rows|
      invariant LoadRows(parser.config, filter, skipMalformedBars, rows[..i]) == Ok(loadedBars)
      invariant parser.haveAdjClose == (had || AnyAdjClose(parser.config, rows[..i]))
    {
      var failed;
      failed, loadedBars := LoadRow(parser, filter, rows, i, skipMalformedBars, loadedBars, had);
      if failed.Some? {
        return Err(failed.value), i;
      }
      i := i + 1;
    }
    assert rows[..|rows|] == rows;
    r, failedAt := Ok(loadedBars), 0;
  }

  /** One turn of the row loop: parse row `i`, then stop with its error,
      skip it, or keep its bar when the filter accepts it. */
  method LoadRow(parser: GenericRowParser, filter: Option<DateRangeFilter>, rows: seq<Row>, i: nat,
                 skipMalformedBars: bool, bars: seq<Bar>, ghost had: bool)
    returns (failed: Option<ParseError>, kept: seq<Bar>)
    requires i < |rows|
    requires LoadRows(parser.config, filter, skipMalformedBars, rows[..i]) == Ok(bars)
    requires parser.haveAdjClose == (had || AnyAdjClose(parser.config, rows[..i]))
    modifies parser
    ensures failed.None? ==>
              && LoadRows(parser.config, filter, skipMalformedBars, rows[..i + 1]) == Ok(kept)
              && parser.haveAdjClose == (had || AnyAdjClose(parser.config, rows[..i + 1]))
    ensures failed.Some? ==>
              && ParseRow(parser.config, rows[i]).Err?
              && LoadRows(parser.config, filter, skipMalformedBars, rows) == Err(failed.value)
              && parser.haveAdjClose == old(parser.haveAdjClose)
  {
    var b := parser.ParseBar(rows[i]);
    AnyAdjCloseSnoc(parser.config, rows, i);
    kept := bars;
    failed := None;
    if b.Err? {
      if !skipMalformedBars {
        LoadRowsPrefixError(parser.config, filter, rows, i);
        failed := Some(b.error);
      } else {
        LoadRowsSkipStep(parser.config, filter, rows, i, bars);
      }
    } else {
      LoadRowsStep(parser.config, filter, skipMalformedBars, rows, i, bars);
      if Accepts(filter, b.value) {
        kept := bars + [b.value];
      }
    }
  }

  /** A CSV bar feed: `BarFeed` with the `GenericBarFeed` configuration.
      `loaded` records each batch handed to the in-memory feed, with its
      instrument, in call order. */
  class GenericBarFeed {
    const frequency: int
    var barFilter: Option<DateRangeFilter>
    var columnNames: ColumnNames
    var haveAdjClose: bool
    var loaded: seq<(string, seq<Bar>)>

    constructor (frequency: int)
      ensures this.frequency == frequency
      ensures barFilter.None? && columnNames == DefaultColumnNames && !haveAdjClose && loaded == []
    {
      this.frequency := frequency;
      barFilter := None;
      columnNames := DefaultColumnNames;
      haveAdjClose := false;
      loaded := [];
    }

    function BarsHaveAdjClose(): bool
      reads this
    {
      haveAdjClose
    }

    method SetBarFilter(filter: Option<DateRangeFilter>)
      modifies this
      ensures barFilter == filter
      ensures columnNames == old(columnNames) && haveAdjClose == old(haveAdjClose) && loaded == old(loaded)
    {
      barFilter := filter;
    }

    /** `setNoAdjClose`: unset the adjusted-close column and clear the flag. */
    method SetNoAdjClose()
      modifies this
      ensures columnNames == old(columnNames).(adjClose := None) && !haveAdjClose
      ensures barFilter == old(barFilter) && loaded == old(loaded)
    {
      columnNames := columnNames.(adjClose := None);
      haveAdjClose := false;
    }

    method SetColumnName(slot: Slot, name: string)
      modifies this
      ensures columnNames == Bars.SetColumnName(old(columnNames), slot, name)
      ensures barFilter == old(barFilter) && haveAdjClose == old(haveAdjClose) && loaded == old(loaded)
    {
      columnNames := Bars.SetColumnName(columnNames, slot, name);
    }

    /** `BarFeed.addBarsFromCSV` over rows already read: load the rows with
        the feed's filter (the error propagates and nothing is added), then
        hand the kept bars over in one batch. */
    method AddBarsFromRows(instrument: string, rows: seq<Row>, parser: GenericRowParser, skipMalformedBars: bool)
      returns (r: Result<(), ParseError>, ghost failedAt: nat)
      modifies this, parser
      ensures var load := LoadRows(parser.config, barFilter, skipMalformedBars, rows);
              && (r.Ok? <==> load.Ok?)
              && (r.Ok? ==> loaded == old(loaded) + [(instrument, load.value)])
              && (r.Err? ==> r.error == load.error && loaded == old(loaded))
      ensures r.Ok? ==> parser.haveAdjClose == (old(parser.haveAdjClose) || AnyAdjClose(parser.config, rows))
      ensures r.Err? ==> failedAt < |rows| && ParseRow(parser.config, rows[failedAt]).Err?
                          && parser.haveAdjClose == (old(parser.haveAdjClose) || AnyAdjClose(parser.config, rows[..failedAt]))
      ensures barFilter == old(barFilter) && columnNames == old(columnNames) && haveAdjClose == old(haveAdjClose)
    {
      var load;
      load, failedAt := LoadWithParser(parser, barFilter, rows, skipMalformedBars);
      if load.Err? {
        return Err(load.error), failedAt;
      }
      loaded := loaded + [(instrument, load.value)];
      r := Ok(());
    }

    /** `GenericBarFeed.addBarsFromCSV`: load with a fresh parser built from
        the feed's column names, then apply the adjusted-close rule. The
        bars are already added when the rule fails. */
    method AddBarsFromCSV(instrument: string, rows: seq<Row>, conv: Converters, skipMalformedBars: bool)
      returns (r: Result<(), LoadError>)
      modifies this
      ensures var cfg := ParserConfig(old(columnNames), frequency, conv);
              var load := LoadRows(cfg, old(barFilter), skipMalformedBars, rows);
              && (load.Err? ==> r == Err(ParseFailed(load.error)) && loaded == old(loaded)
                                && haveAdjClose == old(haveAdjClose))
              && (load.Ok? ==>
                    var check := CheckAdjClose(old(haveAdjClose), AnyAdjClose(cfg, rows));
                    && loaded == old(loaded) + [(instrument, load.value)]
                    && haveAdjClose == check.haveAdjClose
                    && r == (if check.lost then Err(AdjCloseLost) else Ok(())))
      ensures barFilter == old(barFilter) && columnNames == old(columnNames)
    {
      var parser := new GenericRowParser(ParserConfig(columnNames, frequency, conv));
      var res, _ := AddBarsFromRows(instrument, rows, parser, skipMalformedBars);
      if res.Err? {
        return Err(ParseFailed(res.error));
      }
      if parser.BarsHaveAdjClose() {
        haveAdjClose := true;
        r := Ok(());
      } else if haveAdjClose {
        r := Err(AdjCloseLost);
      } else {
        r := Ok(());
      }
    }
  }

  /** A row that parses extends the load by its bar when the filter accepts it. */
  lemma LoadRowsStep(cfg: ParserConfig, filter: Option<DateRangeFilter>, skipMalformed: bool, rows: seq<Row>, i: nat, bars: seq<Bar>)
    requires i < |rows| && LoadRows(cfg, filter, skipMalformed, rows[..i]) == Ok(bars)
    requires ParseRow(cfg, rows[i]).Ok?
    ensures var b := ParseRow(cfg, rows[i]).value;
            LoadRows(cfg, filter, skipMalformed, rows[..i + 1]) == Ok(if Accepts(filter, b) then bars + [b] else bars)
  {
    assert rows[..i + 1][..i] == rows[..i];
  }

  /** When malformed rows are skipped, a row that does not parse adds nothing. */
  lemma LoadRowsSkipStep(cfg: ParserConfig, filter: Option<DateRangeFilter>, rows: seq<Row>, i: nat, bars: seq<Bar>)
    requires i < |rows| && LoadRows(cfg, filter, true, rows[..i]) == Ok(bars)
    requires ParseRow(cfg, rows[i]).Err?
    ensures LoadRows(cfg, filter, true, rows[..i + 1]) == Ok(bars)
  {
    assert rows[..i + 1][..i] == rows[..i];
  }

  lemma AnyAdjCloseSnoc(cfg: ParserConfig, rows: seq<Row>, i: nat)
    requires i < |rows|
    ensures var r := ParseRow(cfg, rows[i]);
            AnyAdjClose(cfg, rows[..i + 1]) == (AnyAdjClose(cfg, rows[..i]) || (r.Ok? && r.value.adjClose.Some?))
  {
    assert rows[..i + 1][..i] == rows[..i];
  }

  /** A strict load of `rows` fails with row `i`'s error when every earlier
      row parses and row `i` does not. */
  lemma LoadRowsPrefixError(cfg: ParserConfig, filter: Option<DateRangeFilter>, rows: seq<Row>, i: nat)
    requires i < |rows|
    requires LoadRows(cfg, filter, false, rows[..i]).Ok?
    requires ParseRow(cfg, rows[i]).Err?
    ensures LoadRows(cfg, filter, false, rows).Err?
    ensures LoadRows(cfg, filter, false, rows).error == ParseRow(cfg, rows[i]).error
  {
    assert rows[..i + 1][..i] == rows[..i];
    LoadRowsExtendError(cfg, filter, rows, i + 1);
  }

  lemma {:induction false} LoadRowsExtendError(cfg: ParserConfig, filter: Option<DateRangeFilter>, rows: seq<Row>, n: nat)
    requires 0 < n <= |rows|
    requires LoadRows(cfg, filter, false, rows[..n]).Err?
    ensures LoadRows(cfg, filter, false, rows) == LoadRows(cfg, filter, false, rows[..n])
    decreases |rows| - n
  {
    if n == |rows| {
      assert rows[..n] == rows;
    } else {
      assert rows[..n + 1][..n] == rows[..n];
      LoadRowsExtendError(cfg, filter, rows, n + 1);
    }
  }
}
