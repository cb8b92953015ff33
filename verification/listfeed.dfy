/** `Feed.addBarsFromListofDicts` of quantworks/barfeed/listfeed.py: input
    validation, one bar per dictionary, the `extra` fields and the
    adjusted-close flag. Timezone localization of the datetime cell is not
    modelled: a `Time` cell is taken as the bar's timestamp. */
module ListFeed {
  import opened Wrappers
  import opened Bars

  /** A row dictionary. */
  type Dict = map<string, Value>

  /** An element of the input list: a dictionary or any other object. */
  datatype Item = DictItem(entries: Dict) | OtherItem

  /** The `list_of_dicts` argument: a list or tuple of items, or anything else. */
  datatype Input = Items(items: seq<Item>) | NotListOrTuple

  /** The exceptions a call raises: the three `ValueError`s of the validation,
      the `IndexError` of an empty list, the errors of building a bar from a
      later row (a key missing, a row that is not a dictionary, a cell of the
      wrong kind), and the adjusted-close rule. */
  datatype ListError =
    | NotSequence
    | EmptyInput
    | FirstNotDict
    | MissingColumns(columns: seq<Option<string>>)
    | RowNotDict(index: nat)
    | MissingKey(index: nat, name: string)
    | BadCell(index: nat, name: string)
    | AdjCloseLost

  /** The checks that do not depend on the column names; yields the first
      dictionary, the only one the validation looks at. */
  function FirstDict(input: Input): (r: Result<Dict, ListError>)
    ensures r.Ok? <==> input.Items? && |input.items| > 0 && input.items[0].DictItem?
    ensures r.Ok? ==> r.value == input.items[0].entries
    ensures input.NotListOrTuple? ==> r == Err(NotSequence)
    ensures input.Items? && |input.items| > 0 && input.items[0].OtherItem? ==> r == Err(FirstNotDict)
  {
    if input.NotListOrTuple? then Err(NotSequence)
    else if |input.items| == 0 then Err(EmptyInput)
    else if input.items[0].OtherItem? then Err(FirstNotDict)
    else Ok(input.items[0].entries)
  }

  /** As written: the configured values that are not keys of the first
      dictionary; an unset name (`None`) is never a key, so it is always
      listed. */
  function AbsentColumns(cols: seq<Option<string>>, keys: set<string>): (r: seq<Option<string>>)
    ensures forall col :: col in r <==> col in cols && (col.None? || col.value !in keys)
    decreases |cols|
  {
    if cols == [] then []
    else
      var last := cols[|cols| - 1];
      var prev := AbsentColumns(cols[..|cols| - 1], keys);
      assert cols == cols[..|cols| - 1] + [last];
      if last.None? || last.value !in keys then prev + [last] else prev
  }

  /** Corrected: only the names that are set and are not keys. */
  function AbsentNames(cols: seq<Option<string>>, keys: set<string>): (r: seq<Option<string>>)
    ensures forall col :: col in r <==> col in cols && col.Some? && col.value !in keys
    decreases |cols|
  {
    if cols == [] then []
    else
      var last := cols[|cols| - 1];
      var prev := AbsentNames(cols[..|cols| - 1], keys);
      assert cols == cols[..|cols| - 1] + [last];
      if last.Some? && last.value !in keys then prev + [last] else prev
  }

  /** The validation as the source writes it. */
  function CheckInputAsWritten(c: ColumnNames, input: Input): Result<Dict, ListError> {
    var first :- FirstDict(input);
    var missing := AbsentColumns(ColumnValues(c), first.Keys);
    if |missing| > 0 then Err(MissingColumns(missing)) else Ok(first)
  }

  /** The validation the feed uses: an unset adjusted-close column is not
      required. */
  function CheckInput(c: ColumnNames, input: Input): Result<Dict, ListError> {
    var first :- FirstDict(input);
    var missing := AbsentNames(ColumnValues(c), first.Keys);
    if |missing| > 0 then Err(MissingColumns(missing)) else Ok(first)
  }

  /** No name is absent exactly when every set name is a key. */
  lemma {:induction false} AbsentNamesEmpty(cols: seq<Option<string>>, keys: set<string>)
    ensures AbsentNames(cols, keys) == [] <==> forall i :: 0 <= i < |cols| && cols[i].Some? ==> cols[i].value in keys
    decreases |cols|
  {
    if cols != [] {
      AbsentNamesEmpty(cols[..|cols| - 1], keys);
      assert forall i :: 0 <= i < |cols| - 1 ==> cols[..|cols| - 1][i] == cols[i];
    }
  }

  /** Validation passes exactly for a non-empty list whose first element is
      a dictionary holding every configured name; nothing after the first
      element is looked at. */
  lemma CheckInputAccepts(c: ColumnNames, input: Input)
    ensures CheckInput(c, input).Ok? <==>
              input.Items? && |input.items| > 0 && input.items[0].DictItem?
              && NameSet(c) <= input.items[0].entries.Keys
  {
    if FirstDict(input).Ok? {
      var keys := input.items[0].entries.Keys;
      var cols := ColumnValues(c);
      AbsentNamesEmpty(cols, keys);
      assert (forall i :: 0 <= i < |cols| && cols[i].Some? ==> cols[i].value in keys) <==> NameSet(c) <= keys;
    }
  }

  /** As written, validation never passes while the adjusted-close column is
      unset, which is the state `setNoAdjClose` leaves: `None` is reported as
      a missing column. */
  lemma AsWrittenRejectsUnsetAdjClose(c: ColumnNames, input: Input)
    requires c.adjClose.None?
    ensures CheckInputAsWritten(c, input).Err?
    ensures FirstDict(input).Ok? ==> None in CheckInputAsWritten(c, input).error.columns
  {
    if FirstDict(input).Ok? {
      var missing := AbsentColumns(ColumnValues(c), FirstDict(input).value.Keys);
      assert ColumnValues(c)[6] == None;
      assert None in missing;
    }
  }

  /** As written, a passing input always has the adjusted-close column, so
      the feed flag always ends up set and the "previous bars had adjusted
      close" error cannot be raised. */
  lemma AsWrittenAlwaysHasAdjClose(c: ColumnNames, input: Input)
    requires CheckInputAsWritten(c, input).Ok?
    ensures HasAdjColumn(c, CheckInputAsWritten(c, input).value)
    ensures !CheckAdjClose(true, HasAdjColumn(c, CheckInputAsWritten(c, input).value)).lost
  {
    var first := FirstDict(input).value;
    var missing := AbsentColumns(ColumnValues(c), first.Keys);
    assert ColumnValues(c)[6] == c.adjClose;
  }

  /** Corrected, an input without the adjusted-close column passes once the
      column is unset, provided the other configured columns are there. */
  lemma CheckInputAcceptsUnsetAdjClose(c: ColumnNames, first: Dict, rest: seq<Item>)
    requires c.adjClose.None?
    requires {c.dateTime, c.open, c.high, c.low, c.close, c.volume} <= first.Keys
    ensures CheckInput(c, Items([DictItem(first)] + rest)) == Ok(first)
  {
    CheckInputAccepts(c, Items([DictItem(first)] + rest));
  }

  /** While every configured value is set, the as-written and the corrected
      lists of absent columns are the same. */
  lemma {:induction false} AbsentListsAgree(cols: seq<Option<string>>, keys: set<string>)
    requires forall i :: 0 <= i < |cols| ==> cols[i].Some?
    ensures AbsentColumns(cols, keys) == AbsentNames(cols, keys)
    decreases |cols|
  {
    if cols != [] {
      AbsentListsAgree(cols[..|cols| - 1], keys);
    }
  }

  /** With the adjusted-close column set, the corrected validation is the
      source's: the correction only matters after `setNoAdjClose`. */
  lemma CheckInputAgreesWhenAdjCloseSet(c: ColumnNames, input: Input)
    requires c.adjClose.Some?
    ensures CheckInput(c, input) == CheckInputAsWritten(c, input)
  {
    if FirstDict(input).Ok? {
      AbsentListsAgree(ColumnValues(c), FirstDict(input).value.Keys);
    }
  }

  /** Whether the first dictionary has the adjusted-close column
      (`dicts_have_adj_close`). */
  predicate HasAdjColumn(c: ColumnNames, first: Dict) {
    c.adjClose.Some? && c.adjClose.value in first
  }

  function TimeCell(row: Dict, name: string, i: nat): Result<int, ListError> {
    if name !in row then Err(MissingKey(i, name))
    else match row[name]
      case Time(t) => Ok(t)
      case _ => Err(BadCell(i, name))
  }

  function NumCell(row: Dict, name: string, i: nat): Result<real, ListError> {
    if name !in row then Err(MissingKey(i, name))
    else match row[name]
      case Num(x) => Ok(x)
      case _ => Err(BadCell(i, name))
  }

  /** The adjusted close of a row: none when the column is unset or the
      cell holds `None`. */
  function AdjCell(row: Dict, adjClose: Option<string>, i: nat): Result<Option<real>, ListError> {
    match adjClose
    case None => Ok(None)
    case Some(name) =>
      if name !in row then Err(MissingKey(i, name))
      else match row[name]
        case Num(x) => Ok(Some(x))
        case Null => Ok(None)
        case _ => Err(BadCell(i, name))
  }

  /** The bar built from the `i`-th item. */
  function BuildBar(c: ColumnNames, frequency: int, item: Item, i: nat): (r: Result<Bar, ListError>)
    ensures r.Ok? ==> item.DictItem? && r.value.frequency == frequency
  {
    if item.OtherItem? then Err(RowNotDict(i))
    else
      var row := item.entries;
      var dateTime :- TimeCell(row, c.dateTime, i);
      var open :- NumCell(row, c.open, i);
      var high :- NumCell(row, c.high, i);
      var low :- NumCell(row, c.low, i);
      var close :- NumCell(row, c.close, i);
      var volume :- NumCell(row, c.volume, i);
      var adjClose :- AdjCell(row, c.adjClose, i);
      Ok(Bar(dateTime, open, high, low, close, volume, adjClose, frequency, ExtraFields(row, c)))
  }

  /** A built bar's prices are the dictionary's values under the configured
      keys, its adjusted close is the adjusted-close cell (none when that
      cell holds `None` or the column is unset), and its `extra` map holds
      every other entry unchanged. */
  lemma BuildBarFields(c: ColumnNames, frequency: int, item: Item, i: nat)
    requires BuildBar(c, frequency, item, i).Ok?
    ensures var b := BuildBar(c, frequency, item, i).value;
            var d := item.entries;
            && c.dateTime in d && d[c.dateTime] == Time(b.dateTime)
            && c.open in d && d[c.open] == Num(b.open)
            && c.high in d && d[c.high] == Num(b.high)
            && c.low in d && d[c.low] == Num(b.low)
            && c.close in d && d[c.close] == Num(b.close)
            && c.volume in d && d[c.volume] == Num(b.volume)
            && (c.adjClose.None? ==> b.adjClose.None?)
            && (c.adjClose.Some? ==>
                  c.adjClose.value in d && d[c.adjClose.value] == (if b.adjClose.Some? then Num(b.adjClose.value) else Null))
            && b.extra.Keys == d.Keys - NameSet(c)
            && forall k :: k in b.extra ==> b.extra[k] == d[k]
  {
  }

  /** One bar per item, in input order, or the first item's error. */
  function BuildBars(c: ColumnNames, frequency: int, items: seq<Item>): (r: Result<seq<Bar>, ListError>)
    ensures r.Ok? ==> |r.value| == |items|
    ensures r.Err? ==> !r.error.AdjCloseLost? && !r.error.MissingColumns?
    decreases |items|
  {
    if items == [] then Ok([])
    else
      var n := |items| - 1;
      var prev := BuildBars(c, frequency, items[..n]);
      if prev.Err? then Err(prev.error)
      else
        var b :- BuildBar(c, frequency, items[n], n);
        Ok(prev.value + [b])
  }

  /** Every item builds a bar. */
  predicate AllBuild(c: ColumnNames, frequency: int, items: seq<Item>) {
    forall i :: 0 <= i < |items| ==> BuildBar(c, frequency, items[i], i).Ok?
  }

  lemma AllBuildSnoc(c: ColumnNames, frequency: int, items: seq<Item>)
    requires items != []
    ensures AllBuild(c, frequency, items) <==>
              AllBuild(c, frequency, items[..|items| - 1]) && BuildBar(c, frequency, items[|items| - 1], |items| - 1).Ok?
  {
    var init := items[..|items| - 1];
    assert forall i :: 0 <= i < |init| ==> init[i] == items[i];
  }

  /** A list loads exactly when every item builds a bar. */
  lemma {:induction false} BuildBarsSucceeds(c: ColumnNames, frequency: int, items: seq<Item>)
    ensures BuildBars(c, frequency, items).Ok? <==> AllBuild(c, frequency, items)
    decreases |items|
  {
    if items != [] {
      BuildBarsSucceeds(c, frequency, items[..|items| - 1]);
      AllBuildSnoc(c, frequency, items);
    }
  }

  /** `bars` holds, position by position, the bars built from `items`. */
  predicate BuiltFrom(c: ColumnNames, frequency: int, items: seq<Item>, bars: seq<Bar>) {
    |bars| == |items| && forall i :: 0 <= i < |items| ==> BuildBar(c, frequency, items[i], i) == Ok(bars[i])
  }

  lemma BuiltFromSnoc(c: ColumnNames, frequency: int, items: seq<Item>, bars: seq<Bar>, b: Bar)
    requires items != [] && BuiltFrom(c, frequency, items[..|items| - 1], bars)
    requires BuildBar(c, frequency, items[|items| - 1], |items| - 1) == Ok(b)
    ensures BuiltFrom(c, frequency, items, bars + [b])
  {
    var init := items[..|items| - 1];
    forall i | 0 <= i < |init|
      ensures BuildBar(c, frequency, items[i], i) == Ok((bars + [b])[i])
    {
      assert items[i] == init[i];
    }
  }

  /** The `i`-th bar is the one built from the `i`-th item. */
  lemma {:induction false} BuildBarsInOrder(c: ColumnNames, frequency: int, items: seq<Item>)
    requires BuildBars(c, frequency, items).Ok?
    ensures BuiltFrom(c, frequency, items, BuildBars(c, frequency, items).value)
    decreases |items|
  {
    if items != [] {
      var n := |items| - 1;
      BuildBarsInOrder(c, frequency, items[..n]);
      BuiltFromSnoc(c, frequency, items, BuildBars(c, frequency, items[..n]).value, BuildBar(c, frequency, items[n], n).value);
    }
  }

  /** A list that does not load reports the error of the first item that
      does not build. */
  lemma {:induction false} BuildBarsFirstError(c: ColumnNames, frequency: int, items: seq<Item>)
    requires BuildBars(c, frequency, items).Err?
    ensures exists k :: 0 <= k < |items| && BuildBar(c, frequency, items[k], k) == Err(BuildBars(c, frequency, items).error)
                     && forall j :: 0 <= j < k ==> BuildBar(c, frequency, items[j], j).Ok?
    decreases |items|
  {
    var n := |items| - 1;
    var init := items[..n];
    assert forall i :: 0 <= i < n ==> init[i] == items[i];
    if BuildBars(c, frequency, init).Err? {
      BuildBarsFirstError(c, frequency, init);
      var k :| 0 <= k < n && BuildBar(c, frequency, init[k], k) == Err(BuildBars(c, frequency, init).error)
                && forall j :: 0 <= j < k ==> BuildBar(c, frequency, init[j], j).Ok?;
      assert BuildBar(c, frequency, items[k], k) == Err(BuildBars(c, frequency, items).error);
    } else {
      BuildBarsSucceeds(c, frequency, init);
      assert BuildBar(c, frequency, items[n], n) == Err(BuildBars(c, frequency, items).error);
    }
  }

  /** The list feed. `loaded` records each batch handed to the in-memory
      feed, with its instrument, in call order. */
  class Feed {
    const frequency: int
    var columnNames: ColumnNames
    var haveAdjClose: bool
    var loaded: seq<(string, seq<Bar>)>

    /** The flag is only ever set while the adjusted-close column is set:
        `setNoAdjClose` clears both together. */
    predicate Valid()
      reads this
    {
      columnNames.adjClose.None? ==> !haveAdjClose
    }

    constructor (frequency: int)
      ensures Valid()
      ensures this.frequency == frequency
      ensures columnNames == DefaultColumnNames && !haveAdjClose && loaded == []
    {
      this.frequency := frequency;
      columnNames := DefaultColumnNames;
      haveAdjClose := false;
      loaded := [];
    }

    function BarsHaveAdjClose(): bool
      reads this
    {
      haveAdjClose
    }

    /** `setNoAdjClose`: unset the adjusted-close column and clear the flag. */
    method SetNoAdjClose()
      modifies this
      ensures Valid()
      ensures columnNames == old(columnNames).(adjClose := None) && !haveAdjClose
      ensures loaded == old(loaded)
    {
      columnNames := columnNames.(adjClose := None);
      haveAdjClose := false;
    }

    method SetColumnName(slot: Slot, name: string)
      requires Valid()
      modifies this
      ensures Valid()
      ensures columnNames == Bars.SetColumnName(old(columnNames), slot, name)
      ensures haveAdjClose == old(haveAdjClose) && loaded == old(loaded)
    {
      columnNames := Bars.SetColumnName(columnNames, slot, name);
    }

    /** `addBarsFromListofDicts`: validate, build every bar, hand them over,
        then apply the adjusted-close rule (after the bars were added). */
    method AddBarsFromListOfDicts(instrument: string, input: Input) returns (r: Result<(), ListError>)
      requires Valid()
      modifies this
      ensures Valid()
      ensures var check := CheckInput(old(columnNames), input);
              && (check.Err? ==> r == Err(check.error) && loaded == old(loaded) && haveAdjClose == old(haveAdjClose))
              && (check.Ok? ==>
                    var bars := BuildBars(old(columnNames), frequency, input.items);
                    && (bars.Err? ==> r == Err(bars.error) && loaded == old(loaded) && haveAdjClose == old(haveAdjClose))
                    && (bars.Ok? ==>
                          var adj := CheckAdjClose(old(haveAdjClose), HasAdjColumn(old(columnNames), check.value));
                          && loaded == old(loaded) + [(instrument, bars.value)]
                          && haveAdjClose == adj.haveAdjClose
                          && r == (if adj.lost then Err(AdjCloseLost) else Ok(()))))
      ensures r != Err(AdjCloseLost)
      ensures r.Ok? && columnNames.adjClose.Some? ==> haveAdjClose
      ensures columnNames == old(columnNames)
    {
      var check := CheckInput(columnNames, input);
      if check.Err? {
        return Err(check.error);
      }
      var first := check.value;
      CheckInputAccepts(columnNames, input);
      NameSetMembers(columnNames);
      var dictsHaveAdjClose := HasAdjColumn(columnNames, first);
      var bars := BuildBars(columnNames, frequency, input.items);
      if bars.Err? {
        return Err(bars.error);
      }
      loaded := loaded + [(instrument, bars.value)];
      if dictsHaveAdjClose {
        haveAdjClose := true;
        r := Ok(());
      } else if haveAdjClose {
        r := Err(AdjCloseLost);
      } else {
        r := Ok(());
      }
    }
  }
}
