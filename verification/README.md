# Event pipeline of the QuantWorks backtesting core, in Dafny

This project models the event pipeline at the heart of QuantWorks, a Python
backtesting library, and proves properties of the model. It covers three
pieces.

- **The dispatcher** (`quantworks/dispatcher.py`). A `Dispatcher` object keeps
  an ordered list of subjects (feeds, brokers) sorted by dispatch priority.
  Subjects with the `LAST` priority always sit at the tail.
  - `run` starts every subject, emits the start event, and then repeats
    rounds until every subject is at its end. After that it clears the
    current datetime, stops every subject and joins every subject.
  - In each round, the dispatcher finds the smallest datetime the live
    subjects peek. It then dispatches, in list order, every subject due at
    that datetime, and every realtime subject (one that peeks no datetime).
    A round that produced nothing emits the idle event.
  - A subject is modelled by what the dispatcher observes of it: an
    identity, a priority, and a queue of pending steps. Each step is the
    datetime `peekDateTime` reports and the outcome of the `dispatch` call
    that follows. The calls the dispatcher makes are recorded in order in a
    log.
- **The base feed** (`quantworks/feed/__init__.py`). `BaseFeed` owns a map
  from key to data series, grown on demand. Each pull from `getNextValues`
  that carries a datetime appends one `(dateTime, value)` pair to the
  series of every key it returns. `dispatch` emits the new-values event
  exactly when data was produced. `feed_iterator` brackets the pulls with
  `start`, `stop` and `join`.
- **Bar ingestion**. This covers:
  - the OHLC sanitizer (`quantworks/barfeed/common.py`);
  - the date-range bar filter (`quantworks/barfeed/csvfeed.py`);
  - `GenericRowParser.parseBar`, which works on a row that has already
    been read;
  - the filter and skip-malformed loading loop of `BarFeed.addBarsFromCSV`;
  - the rule that a feed whose earlier loads had adjusted close rejects a
    load without it, in `GenericBarFeed` and in the list feed;
  - the validation and bar construction of
    `Feed.addBarsFromListofDicts` (`quantworks/barfeed/listfeed.py`).

Modules: `Wrappers` (Option, Result), `Ohlc` (common.py), `Bars` (the bar
record, the column-name configuration and the adjusted-close rule shared by
both feeds), `CsvFeed` (csvfeed.py), `ListFeed` (listfeed.py), `Feeds`
(feed/__init__.py) and `Dispatching` (dispatcher.py).

The parts that change state in place are classes whose methods carry
`modifies` clauses: `Dispatcher`, `BaseFeed`, `GenericRowParser`,
`GenericBarFeed` and the list `Feed`. Each method is proved against a
specification function:

| method | specification function |
|---|---|
| `Dispatcher.Run` | `RunLoop` and `EachSubject` |
| `Dispatcher.DispatchDue` | `DispatchPrefix` |
| `BaseFeed.GetNextValuesAndUpdateDataSeries` | `AppendAll` |
| `LoadWithParser` | `LoadRows` |
| `GenericRowParser.ParseBar` | `ParseRow` |
| `CollectExtra` | `ConvertCells` |

The properties the source promises are then proved about those functions
as lemmas.

The date-range filter's docstring calls both bounds exclusive, but its code
rejects only bars strictly outside them (csvfeed.py:82-85). The model
follows the code: a bar exactly at `fromDate` or at `toDate` is kept.

## Model

| member | source | states |
|---|---|---|
| Ohlc.SanitizeOhlc | quantworks/barfeed/common.py:23-32 | open and close come back unchanged; low becomes min(low, open, close) and high becomes max(high, open, close); the result satisfies low <= min(open, close) <= max(open, close) <= high; low is never raised and high never lowered; the tuple is returned unchanged exactly when it was already consistent |
| Ohlc.SanitizeIdempotent | quantworks/barfeed/common.py:23-32 | sanitizing a sanitized tuple changes nothing |
| Ohlc.SanitizeExample | quantworks/barfeed/common.py:24-31 | open 10, high 9, low 11, close 10 is repaired to high 10, low 10 |
| Bars.NameSetMembers | quantworks/barfeed/csvfeed.py:249 | a name counts as a configured column exactly when it is one of the set values of the column-name dictionary |
| Bars.SetColumnName | quantworks/barfeed/csvfeed.py:313-314 | `setColumnName` changes the named slot to the new name and leaves the other six slots as they were |
| Bars.ExtraFieldsSpec | quantworks/barfeed/listfeed.py:148 | the extra fields are the row's keys minus the configured names, with their values unchanged; a key of the row is left out exactly when it is a set column value |
| Bars.CheckAdjClose | quantworks/barfeed/csvfeed.py:349-352 | the error is raised exactly when earlier loads had adjusted close and this one has none; the flag ends up set exactly when either had it; without the error the flag equals this load's |
| CsvFeed.IncludeBar | quantworks/barfeed/csvfeed.py:81-86 | a bar after a set `toDate` or before a set `fromDate` is rejected, and a bar is accepted exactly when it lies within the bounds that are set, bounds included |
| CsvFeed.DateCell | quantworks/barfeed/csvfeed.py:233 | a datetime read succeeds exactly when the column is in the row and its text converts, and returns the converted value; a missing column raises the missing-column error and a cell that does not convert the bad-date error |
| CsvFeed.NumberCell | quantworks/barfeed/csvfeed.py:234-238 | a price read succeeds exactly when the column is in the row and `float()` of its text succeeds, and returns that value; a missing column and a cell that does not convert give their own errors |
| CsvFeed.ConvertCellsSpec | quantworks/barfeed/csvfeed.py:247-250 | converting the extra cells keeps their keys and passes every cell through `float_or_string` |
| CsvFeed.CollectExtra | quantworks/barfeed/csvfeed.py:246-250 | the loop over the row's items yields the row's unconfigured cells, each through `float_or_string` |
| CsvFeed.AdjCloseCell | quantworks/barfeed/csvfeed.py:239-243 | defines the adjusted-close read: an unset column gives none; an absent cell reads as empty text and an empty cell gives none; otherwise `float()` of the cell; ParseRowAdjClose states its effect on the bar |
| CsvFeed.ParseRow | quantworks/barfeed/csvfeed.py:232-254 | a parsed bar carries the parser's frequency |
| CsvFeed.ParseRowReadsConfiguredColumns | quantworks/barfeed/csvfeed.py:233-238 | a row that parses holds the six configured columns, and the bar's datetime and prices are their converted cells |
| CsvFeed.ParseRowExtraFields | quantworks/barfeed/csvfeed.py:246-250 | a parsed bar's `extra` holds exactly the row keys that are not configured column names, each read as a number when it converts and as text otherwise |
| CsvFeed.ParseRowAdjClose | quantworks/barfeed/csvfeed.py:239-243 | a parsed bar has an adjusted close exactly when the column is set and its cell is present and non-empty, and the value is that cell converted |
| CsvFeed.ParseRowSucceeds | quantworks/barfeed/csvfeed.py:232-254 | a row parses exactly when its six configured columns are present and convert and its adjusted-close cell, when the column is set and the cell non-empty, converts |
| CsvFeed.ParseRowNeedsDateTime | quantworks/barfeed/csvfeed.py:233 | a row without the datetime column fails with a missing-column error for that name |
| CsvFeed.GenericRowParser.constructor | quantworks/barfeed/csvfeed.py:190-210 | a new parser holds its configuration and has not seen an adjusted close |
| CsvFeed.GenericRowParser.ParseBar | quantworks/barfeed/csvfeed.py:232-254 | parsing returns exactly the specified result; the flag becomes set when the bar has an adjusted close and is never reset |
| CsvFeed.Kept | quantworks/barfeed/csvfeed.py:166-167 | filtering never yields more bars than it was given |
| CsvFeed.KeptMembers | quantworks/barfeed/csvfeed.py:166-167 | a bar is kept exactly when it was loaded and the filter (if any) accepts it |
| CsvFeed.KeptAppend | quantworks/barfeed/csvfeed.py:164-167 | filtering distributes over concatenation, so the kept bars stay in input order |
| CsvFeed.KeptWithoutFilter | quantworks/barfeed/csvfeed.py:166 | without a filter every bar is kept |
| CsvFeed.LoadRows | quantworks/barfeed/csvfeed.py:148-167 | defines the load: rows in order, a malformed row dropped with skipping and otherwise ending the load with its error, and a parsed bar kept when the filter accepts it; the Load lemmas state its properties |
| CsvFeed.LoadSkippingMalformed | quantworks/barfeed/csvfeed.py:148-167 | with `skipMalformedBars` a load never fails and keeps the accepted bars of the rows that parse, in input order |
| CsvFeed.LoadStrictSucceeds | quantworks/barfeed/csvfeed.py:158-167 | without `skipMalformedBars` a load succeeds exactly when every row parses |
| CsvFeed.LoadStrict | quantworks/barfeed/csvfeed.py:158-167 | a strict load that succeeds keeps the accepted parsed bars in input order |
| CsvFeed.LoadStrictFirstError | quantworks/barfeed/csvfeed.py:158-165 | a strict load that fails reports the error of the first row that does not parse |
| CsvFeed.LoadRowsPrefixError | quantworks/barfeed/csvfeed.py:158-165 | once a row fails in a strict load, the load fails with that row's error whatever follows |
| CsvFeed.LoadWithParser | quantworks/barfeed/csvfeed.py:161-167 | the row loop returns the specified load; on success the parser's flag records whether any row had an adjusted close; on failure it names a row that does not parse, and the flag covers the rows before it |
| CsvFeed.LoadRow | quantworks/barfeed/csvfeed.py:164-167 | one turn of the loop extends the specified load by the row, or stops with the row's error exactly when that is the load's outcome |
| CsvFeed.GenericBarFeed.constructor | quantworks/barfeed/csvfeed.py:282-304 | a new feed has no filter, the default column names, no adjusted close and no bars |
| CsvFeed.GenericBarFeed.SetBarFilter | quantworks/barfeed/csvfeed.py:144-145 | installs the filter and changes nothing else |
| CsvFeed.GenericBarFeed.SetNoAdjClose | quantworks/barfeed/csvfeed.py:309-311 | unsets the adjusted-close column and clears the flag, nothing else |
| CsvFeed.GenericBarFeed.SetColumnName | quantworks/barfeed/csvfeed.py:313-314 | the column names become `SetColumnName` of the old ones, nothing else changes |
| CsvFeed.GenericBarFeed.AddBarsFromRows | quantworks/barfeed/csvfeed.py:147-169 | a failing load adds nothing and reports its error; a successful one hands the kept bars over as one batch for the instrument |
| CsvFeed.GenericBarFeed.AddBarsFromCSV | quantworks/barfeed/csvfeed.py:325-352 | a parse error adds nothing and keeps the flag; otherwise the bars are added, and then the adjusted-close rule sets the flag or raises after the bars were added |
| Feeds.Appended | quantworks/feed/__init__.py:83-90 | each key of the values gets exactly one pair appended, its series created on first sight; every other series is unchanged |
| Feeds.AppendAll | quantworks/feed/__init__.py:80-90 | defines the series map after a run of pulls: each pull with a datetime is `Appended`, a pull without one changes nothing; AppendAllGrowth states its effect |
| Feeds.AppendAllGrowth | quantworks/feed/__init__.py:80-90 | after a run of pulls, a key has a series exactly when it had one or some pull with a datetime gave it a value; its series grew by one pair per such pull, with the old pairs as prefix |
| Feeds.BaseFeed.constructor | quantworks/feed/__init__.py:50-55 | a new feed has no series and has emitted nothing |
| Feeds.BaseFeed.Get | quantworks/feed/__init__.py:114-116 | `__getitem__` yields a key's series exactly when the key has one |
| Feeds.BaseFeed.GetNextValues | quantworks/feed/__init__.py:69-74 | returns the next queued pair, or no datetime at the end, touching no series |
| Feeds.BaseFeed.RegisterDataSeries | quantworks/feed/__init__.py:76-78 | creates a series only for an unknown key; an existing series is left untouched |
| Feeds.BaseFeed.Reset | quantworks/feed/__init__.py:57-61 | the same keys, each with a fresh, empty series |
| Feeds.BaseFeed.GetNextValuesAndUpdateDataSeries | quantworks/feed/__init__.py:80-91 | returns exactly the pulled pair; without a datetime no series changes, otherwise the series map is that pair appended |
| Feeds.BaseFeed.Dispatch | quantworks/feed/__init__.py:105-109 | returns true exactly when the pulled pair has a datetime, and emits the new-values event exactly then |
| Feeds.KeyQueriesAgree | quantworks/feed/__init__.py:111-120 | `getKeys`, `__contains__` and `__getitem__` agree with the series map and with each other |
| Feeds.FeedIterator | quantworks/feed/__init__.py:28-35 | a consumer that asks for nothing causes no call (the generator's body has not run); otherwise the feed is started once, the queued pairs are yielded in order until the end or until the consumer stops asking, the series grow as each pull makes them, and the feed is stopped and joined |
| ListFeed.FirstDict | quantworks/barfeed/listfeed.py:123-126 | input that is not a list or tuple raises; a first element that is not a dictionary raises; otherwise the first dictionary is the one validated |
| ListFeed.CheckInputAsWritten | quantworks/barfeed/listfeed.py:123-135 | defines the source's validation as written: not a list or tuple, an empty list, a first element that is not a dictionary, or any configured value (an unset one included) missing from the first dictionary's keys raises |
| ListFeed.CheckInput | quantworks/barfeed/listfeed.py:123-135 | defines the corrected validation the feed uses: the same checks, with an unset adjusted-close column not required; CheckInputAccepts and CheckInputAgreesWhenAdjCloseSet state its meaning |
| ListFeed.AbsentColumns | quantworks/barfeed/listfeed.py:130-133 | as written: a configured value is reported missing exactly when it is unset or is not a key of the first dictionary |
| ListFeed.AbsentNames | quantworks/barfeed/listfeed.py:130-133 | corrected: a configured value is reported missing exactly when it is set and is not a key |
| ListFeed.AbsentNamesEmpty | quantworks/barfeed/listfeed.py:130-135 | nothing is missing exactly when every set name is a key of the first dictionary |
| ListFeed.CheckInputAccepts | quantworks/barfeed/listfeed.py:123-135 | corrected validation: passes exactly for a non-empty list or tuple whose first element is a dictionary holding every configured name; later elements are not looked at |
| ListFeed.AsWrittenRejectsUnsetAdjClose | quantworks/barfeed/listfeed.py:130-135 | as written, once the adjusted-close column is unset every input whose first dictionary has only string keys is rejected, with `None` among the missing columns |
| ListFeed.AsWrittenAlwaysHasAdjClose | quantworks/barfeed/listfeed.py:128-158 | as written, input that passes always has the adjusted-close column, so the "previous bars had adjusted close" error is never raised |
| ListFeed.AbsentListsAgree | quantworks/barfeed/listfeed.py:130-133 | while every configured value is set, the as-written and corrected lists of missing columns are the same |
| ListFeed.CheckInputAgreesWhenAdjCloseSet | quantworks/barfeed/listfeed.py:123-135 | while the adjusted-close column is set, the corrected validation gives exactly the source's outcome |
| ListFeed.CheckInputAcceptsUnsetAdjClose | quantworks/barfeed/listfeed.py:130-135 | corrected, with the adjusted-close column unset, a first dictionary holding the other six columns passes |
| ListFeed.AdjCell | quantworks/barfeed/listfeed.py:146 | defines the adjusted-close read of a row: the value under the adjusted-close key, none for a `None` cell, a missing key raises; with the column unset (corrected) none; BuildBarFields states its effect on the bar |
| ListFeed.BuildBar | quantworks/barfeed/listfeed.py:139-149 | a bar is built only from a dictionary, and it carries the feed's frequency (its fields are stated by BuildBarFields) |
| ListFeed.BuildBarFields | quantworks/barfeed/listfeed.py:139-148 | a built bar's datetime and prices are the dictionary's values under the configured keys; its adjusted close is the value under the adjusted-close key (none when that value is `None`), and with the column unset (corrected) the bar has no adjusted close; its `extra` is every other entry, unchanged |
| ListFeed.BuildBars | quantworks/barfeed/listfeed.py:138-151 | one bar per input item; building never raises the validation or adjusted-close errors |
| ListFeed.BuildBarsSucceeds | quantworks/barfeed/listfeed.py:138-151 | the list converts exactly when every item builds a bar |
| ListFeed.BuildBarsInOrder | quantworks/barfeed/listfeed.py:138-151 | the i-th bar is the one built from the i-th item |
| ListFeed.BuildBarsFirstError | quantworks/barfeed/listfeed.py:138-151 | a list that does not convert reports the error of the first item that does not build |
| ListFeed.Feed.constructor | quantworks/barfeed/listfeed.py:60-82 | a new feed has the default column names, no adjusted close and no bars, and the flag is set only while the column is |
| ListFeed.Feed.SetNoAdjClose | quantworks/barfeed/listfeed.py:87-89 | unsets the adjusted-close column and clears the flag, nothing else, so the flag is again set only while the column is |
| ListFeed.Feed.SetColumnName | quantworks/barfeed/listfeed.py:91-92 | the column names become `SetColumnName` of the old ones, nothing else changes |
| ListFeed.Feed.AddBarsFromListOfDicts | quantworks/barfeed/listfeed.py:107-158 | with the corrected validation (the source's own while the adjusted-close column is set, by CheckInputAgreesWhenAdjCloseSet): a validation error adds nothing; otherwise all bars are built and added as one batch, and the adjusted-close rule is applied to whether the first dictionary has the column; the "previous bars had adjusted close" error is never raised, and a successful load with the column set leaves the flag set |
| Dispatching.InsertionIndex | quantworks/dispatcher.py:66-70 | the search stops at the first subject that is LAST or of strictly greater rank, or at the end |
| Dispatching.InsertionIndexUnique | quantworks/dispatcher.py:66-70 | the position where the search loop stops is that insertion index |
| Dispatching.Inserted | quantworks/dispatcher.py:61-71 | defines the list after registration: the subject inserted at its insertion point (the tail for LAST); its meaning is stated by InsertedShape, InsertedKeepsSorted and InsertedKeepsDistinct |
| Dispatching.InsertedShape | quantworks/dispatcher.py:61-71 | registration grows the list by one, puts the new subject at its insertion point, keeps the others in order, and appends a LAST subject at the tail |
| Dispatching.InsertionIndexSplitsSorted | quantworks/dispatcher.py:64-71 | in a sorted list, a new subject lands after every subject of rank at most its own and before every LAST subject and every subject of greater rank |
| Dispatching.InsertedKeepsSorted | quantworks/dispatcher.py:61-71 | registration keeps the list sorted by priority, LAST subjects at the end |
| Dispatching.InsertedKeepsDistinct | quantworks/dispatcher.py:57-71 | registering a subject not yet present keeps every subject in the list once |
| Dispatching.SmallestDateTime | quantworks/dispatcher.py:87-95 | defines the scan of a round: `safe_min` of the datetimes peeked by the subjects not at their end, in list order; SmallestIsMinimum states what it computes |
| Dispatching.SmallestIsMinimum | quantworks/dispatcher.py:91-95 | the round's datetime is unset exactly when every live subject is realtime; otherwise some live subject peeks it and none peeks an earlier one |
| Dispatching.DispatchAt | quantworks/dispatcher.py:75-81 | defines one subject's turn: nothing happens after a raise or when the subject is not at the round's datetime nor realtime; otherwise it is dispatched, advanced one step, and its call's outcome is recorded |
| Dispatching.DispatchPrefix | quantworks/dispatcher.py:101-103 | defines the dispatch loop of a round after the first `n` subjects had their turn; it keeps the list's length, and the Round lemmas state what it does |
| Dispatching.RoundKeepsShape | quantworks/dispatcher.py:101-103 | a round keeps identities, priorities and order; a subject changes only by being advanced one step |
| Dispatching.RoundAdvancesDueSubjects | quantworks/dispatcher.py:75-81 | unless a call raised, each subject was advanced exactly when it was due |
| Dispatching.RoundDispatchedIffProduced | quantworks/dispatcher.py:101-103 | unless a call raised, the round reports events dispatched exactly when the call of some due subject produced |
| Dispatching.RoundCallsDueSubjects | quantworks/dispatcher.py:101-103 | unless a call raised, `dispatch` is called on exactly the due subjects, once each, in list order |
| Dispatching.RaiseEndsRound | quantworks/dispatcher.py:101-103 | after a call raises, no later subject has its turn |
| Dispatching.RaiseComesFromDueSubject | quantworks/dispatcher.py:101-103 | a round that raises does so in the call of a due subject |
| Dispatching.SomeSubjectIsDue | quantworks/dispatcher.py:91-103 | while some subject is live, some subject is due in the round |
| Dispatching.RoundMakesProgress | quantworks/dispatcher.py:116-121 | a round that is not the last and does not raise consumes a pending step of the subjects (each modelled with finitely many steps) |
| Dispatching.RunLoop | quantworks/dispatcher.py:116-121 | defines the rounds of `run` with the stop flag clear: stop after an eof round, end at a raise, idle event after a round that dispatched nothing; RunLoopUnfold, RunLoopDrains and RunLoopKeepsShape state its properties |
| Dispatching.RunLoopUnfold | quantworks/dispatcher.py:116-121 | the loop stops after a round where every subject is at its end, ends at a raise, and emits the idle event after a round that dispatched nothing |
| Dispatching.RunsToEof | quantworks/dispatcher.py:117-119 | a round where every subject is at its end sets the stop flag and ends the loop |
| Dispatching.RunsToStep | quantworks/dispatcher.py:116-121 | a round that is not the last adds its calls, plus the idle event when it dispatched nothing, and leaves the rest of the loop to the new subjects |
| Dispatching.RunLoopDrains | quantworks/dispatcher.py:116-119 | for subjects with finitely many steps, a loop that no call interrupted ends with every subject at its end |
| Dispatching.RunLoopKeepsShape | quantworks/dispatcher.py:116-121 | the loop keeps every subject's identity and priority in place |
| Dispatching.EachSubject | quantworks/dispatcher.py:111-112 | a loop over the subjects makes one call per subject, in list order |
| Dispatching.Dispatcher.constructor | quantworks/dispatcher.py:30-35 | a new dispatcher has no subjects, no stop request and no current datetime |
| Dispatching.Dispatcher.GetCurrentDateTime | quantworks/dispatcher.py:37-40 | defines `getCurrentDateTime`: the datetime of the current round, unset for a new dispatcher (constructor), set by each round that is not eof (DispatchRound) and cleared when `run` ends (Finish, Run) |
| Dispatching.Dispatcher.Stop | quantworks/dispatcher.py:48-49 | sets the stop flag and changes nothing else |
| Dispatching.Dispatcher.AddSubject | quantworks/dispatcher.py:54-73 | a registered subject is skipped without a callback; any other is inserted at its insertion point and told it was registered; the list stays sorted with distinct subjects |
| Dispatching.Dispatcher.DispatchSubject | quantworks/dispatcher.py:75-81 | dispatches the subject only when it is due, and returns true only when its call produced |
| Dispatching.Dispatcher.ScanRound | quantworks/dispatcher.py:87-95 | the scan reports eof exactly when every subject is at its end, together with the smallest peeked datetime |
| Dispatching.Dispatcher.DispatchDue | quantworks/dispatcher.py:101-103 | the loop gives the subjects their turns in list order, as the round specifies |
| Dispatching.Dispatcher.DispatchRound | quantworks/dispatcher.py:83-104 | an eof round dispatches nothing and leaves the current datetime; otherwise the current datetime becomes the smallest one and the due subjects are dispatched; the list stays sorted |
| Dispatching.Dispatcher.CallEach | quantworks/dispatcher.py:126-129 | calls the method on every subject once, in list order |
| Dispatching.Dispatcher.RunOneRound | quantworks/dispatcher.py:116-121 | one pass of the loop follows the run loop's specification and sets the stop flag exactly after an eof round |
| Dispatching.Dispatcher.RunRounds | quantworks/dispatcher.py:116-121 | the loop makes exactly the calls of the run loop; a stop flag already set skips every round; the flag ends set unless a call raised |
| Dispatching.Dispatcher.StartAll | quantworks/dispatcher.py:111-114 | starts every subject in list order, then emits the start event |
| Dispatching.Dispatcher.Finish | quantworks/dispatcher.py:122-129 | clears the current datetime, then stops every subject and then joins every subject, in list order |
| Dispatching.Dispatcher.Run | quantworks/dispatcher.py:106-129 | start calls, start event, the run loop's calls, then on every path, including a raise, stop calls and join calls in list order; the current datetime ends unset |

## Left out

- The observer classes (`Event`, `Subject`) are not part of this model. Emitting an event and calling a subject are recorded as entries of a call log. The subjects' own behaviour is their queue of steps.
- `utils.safe_min` is not part of this model. `Dispatching.SafeMin` takes the smaller of two datetimes and ignores an unset one, which is how the dispatcher uses it.
- A subject calling back into the dispatcher while it is dispatched is not modelled. This covers `stop()` in the middle of a round and `addSubject` during `run`. The stop flag is only read before each round.
- Exceptions from `start`, `stop` and `join` of a subject, and from the start- and idle-event handlers, are not modelled. Only a `dispatch` call can raise.
- Datetimes are integers (seconds). Timezones, `strptime`, the daily bar time and `float()` are foreign library calls. They are parameters of the parser (`Converters`); `None` stands for the exception they raise.
- Reading the CSV file (`FastDictReader`, `open`), `getFieldNames` and `getDelimiter` are left out. A load receives the rows as maps from column name to text.
- `USEquitiesRTH` is left out. It filters by weekday and US/Eastern time of day, which needs timezone data.
- `setDateTimeFormat`, `setBarClass` and `setDailyBarTime` are left out. Their effect is folded into the `Converters` parameter, and bars are always the `Bar` record.
- `membf` (`addBarsFromSequence`, `_addBars`) is not part of this model. A feed records each batch it hands over, with its instrument, in `loaded`.
- The list feed builds its bars lazily with `map`, and `_addBars` consumes them. The model builds every bar before the hand-over, so a bar that fails to build adds nothing.
- ListFeed.BuildBar: a cell of the wrong kind is reported as `BadCell`. The source passes any object through to the bar class.
- `setColumnName` is modelled for the seven bar slots only. A call with another key would add a column name that the source then also treats as configured.
- Feeds.BaseFeed.GetKeys: returns the keys as a set. The source's `getKeys` lists them in the dictionary's insertion order, which the model does not keep.
- The bounded data series class and `maxLen` are not part of this model. A series is a plain sequence that is never trimmed, and `createDataSeries` yields an empty one.
- `getNextValues` is abstract in the source. It is modelled as a queue of the pairs it will return; the feed is at its end when the queue is empty.
- Feeds.FeedIterator: a consumer that stops early is modelled by a `limit` on the pairs taken. An exception raised by the consumer is not modelled separately; it ends the iteration like the limit does.
- Every subject is modelled with a finite queue of steps, so the run loop always ends. A subject that never reaches its end, such as a live feed, would keep the source's loop running forever, emitting the idle event in every round where nothing is produced. That case is not modelled.
- ListFeed.Feed.AddBarsFromListOfDicts: uses the corrected validation of the finding below. After `setNoAdjClose` it therefore loads a list whose first dictionary holds the six other columns, where the source raises "Missing required columns: [None]". In that state the bars get no adjusted close, where the source's `row[None]` would raise. With the adjusted-close column set, its validation and bars are the source's.
- Floating point is not modelled: prices are reals, so rounding and NaN are out of scope.
- CsvFeed.ParseRow is a ghost specification. Its `extra` map converts the cells one key at a time, in an unspecified order. `GenericRowParser.ParseBar` is the executable counterpart and is proved equal to it.

## Findings

| source | as written | input that shows it | evidently intended | confidence | as-written member | corrected member |
|---|---|---|---|---|---|---|
| quantworks/barfeed/listfeed.py:128-135 | every configured value, including an unset adjusted-close name (`None`), must be a key of the first dictionary | `setNoAdjClose()`, then `addBarsFromListofDicts` with a first dictionary holding the six other columns (string keys only): raises "Missing required columns: [None]" | after `setNoAdjClose` the adjusted-close column is not required, as in the CSV feed | not executed | ListFeed.AsWrittenRejectsUnsetAdjClose | ListFeed.CheckInputAcceptsUnsetAdjClose |
