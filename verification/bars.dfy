/** The Bar record the feeds build, the column-name configuration shared by
    the CSV and list feeds, and the feed-wide "adjusted close" rule that both
    apply after a load. */
module Bars {
  import opened Wrappers

  /** A scalar held in a row cell or in a bar's `extra` map. */
  datatype Value = Num(x: real) | Time(t: int) | Text(s: string) | Null

  /** One OHLCV record; `dateTime` is a timestamp in seconds, `frequency` the
      bar's interval tag in seconds. */
  datatype Bar = Bar(
    dateTime: int,
    open: real, high: real, low: real, close: real, volume: real,
    adjClose: Option<real>,
    frequency: int,
    extra: map<string, Value>)

  /** The `columnNames` dictionary of a feed: one source column name per bar
      slot; the adjusted-close slot may be unset (`None`). */
  datatype ColumnNames = ColumnNames(
    dateTime: string, open: string, high: string, low: string,
    close: string, volume: string, adjClose: Option<string>)

  /** The dictionary keys accepted by `setColumnName`. */
  datatype Slot = DateTimeSlot | OpenSlot | HighSlot | LowSlot | CloseSlot | VolumeSlot | AdjCloseSlot

  /** The column names both feeds configure in their constructors. */
  const DefaultColumnNames: ColumnNames :=
    ColumnNames("Date Time", "Open", "High", "Low", "Close", "Volume", Some("Adj Close"))

  /** `columnNames.values()`, in the dictionary's insertion order. */
  function ColumnValues(c: ColumnNames): (r: seq<Option<string>>)
    ensures |r| == 7 && r[6] == c.adjClose
    ensures forall i :: 0 <= i < 6 ==> r[i].Some?
  {
    [Some(c.dateTime), Some(c.open), Some(c.high), Some(c.low), Some(c.close), Some(c.volume), c.adjClose]
  }

  /** The configured names that are set, as a set of strings. */
  function NameSet(c: ColumnNames): set<string>
  {
    {c.dateTime, c.open, c.high, c.low, c.close, c.volume}
      + (if c.adjClose.Some? then {c.adjClose.value} else {})
  }

  /** A name is in `NameSet` exactly when it is one of the set column values. */
  lemma NameSetMembers(c: ColumnNames)
    ensures forall n :: n in NameSet(c) <==> Some(n) in ColumnValues(c)
  {
  }

  /** The position of a slot in `ColumnValues`. */
  function SlotIndex(slot: Slot): (i: nat)
    ensures i < 7
  {
    match slot
    case DateTimeSlot => 0
    case OpenSlot => 1
    case HighSlot => 2
    case LowSlot => 3
    case CloseSlot => 4
    case VolumeSlot => 5
    case AdjCloseSlot => 6
  }

  /** `setColumnName(col, name)` for one of the seven slots. */
  function SetColumnName(c: ColumnNames, slot: Slot, name: string): (r: ColumnNames)
    ensures ColumnValues(r)[SlotIndex(slot)] == Some(name)
    ensures forall i :: 0 <= i < 7 && i != SlotIndex(slot) ==> ColumnValues(r)[i] == ColumnValues(c)[i]
  {
    match slot
    case DateTimeSlot => c.(dateTime := name)
    case OpenSlot => c.(open := name)
    case HighSlot => c.(high := name)
    case LowSlot => c.(low := name)
    case CloseSlot => c.(close := name)
    case VolumeSlot => c.(volume := name)
    case AdjCloseSlot => c.(adjClose := Some(name))
  }

  /** The entries of a row that go into a bar's `extra` map: those whose
      key is not a configured column name. */
  function ExtraFields<T>(row: map<string, T>, c: ColumnNames): map<string, T>
  {
    row - NameSet(c)
  }

  /** `extra` holds every cell of the row whose key is not a configured
      column name, with its value unchanged, and nothing else. */
  lemma ExtraFieldsSpec<T>(row: map<string, T>, c: ColumnNames)
    ensures ExtraFields(row, c).Keys == row.Keys - NameSet(c)
    ensures forall k :: k in ExtraFields(row, c) ==> ExtraFields(row, c)[k] == row[k]
    ensures forall k :: k in row && k !in ExtraFields(row, c) <==> k in row && Some(k) in ColumnValues(c)
  {
    NameSetMembers(c);
  }

  /** The outcome of the adjusted-close check a feed runs after a load. */
  datatype AdjCloseCheck = AdjCloseCheck(haveAdjClose: bool, lost: bool)

  /** After a load whose bars had adjusted close (`loadHas`), the feed flag
      becomes true; a load without it after one with it is an error, which
      leaves the flag set. Absent to present is allowed. */
  function CheckAdjClose(had: bool, loadHas: bool): (r: AdjCloseCheck)
    ensures r.lost <==> had && !loadHas
    ensures r.haveAdjClose <==> had || loadHas
    ensures !r.lost ==> r.haveAdjClose == loadHas
  {
    if loadHas then AdjCloseCheck(true, false)
    else if had then AdjCloseCheck(true, true)
    else AdjCloseCheck(false, false)
  }
}
