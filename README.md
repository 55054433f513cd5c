# quic-tunnel-stats-viewer: a verified model of the statistics pipeline

quic-tunnel-stats-viewer is a Qt desktop viewer for network experiment results. A
result set is a directory tree with one directory per experiment. The viewer shows
the tree as a menu. Checking a leaf experiment loads it into the display tabs, and
unchecking it unloads it again. The model covers the code that turns log files into
chart series:

- **`CsvReader`** (`text_stream.dfy`, `csv_reader.dfy`). A line-by-line reader of
  delimiter-separated integer records. It reuses one tuple across lines and checks
  end of file before each field. The model gives the two-level `getline` tokenizer
  and the `operator>>` integer extraction. A field that cannot be read keeps the
  previous value, and out-of-range values clamp to 32 bits. The iterator is a class
  whose `LoadLine`/`Next` are proved against a functional cursor `Load`. All
  records of a file are characterised as `Records(Start(text, d, n), d)`. That value
  is proved equal to the complete lines, each parsed in turn, cut at the first
  all-zero record. A render-then-read round trip is proved as well.
  `CsvReaderTypeRepeat` is modelled as `Duplicate`/`TypeRepeat`; its delimiter is
  always `','`.
- **`DisplayBase`** (`display_base.dfy`). Each display holds a per-experiment map
  from metric key to an entry (name, series, chart, experiment info). Qt series and
  charts are modelled as an arena per display, `series: map<SeriesId, Series>` and
  `charts: map<ChartId, seq<SeriesId>>`. Deleting a series removes it from the
  arena. Modelled operations: `add_point`, `add_serie` with its pen styling,
  `create_serie` with its series-name formatting, and `unload`.
- **`MedoozeDisplay`** (`medooze_display.dfy`). It finds the relay CSV and creates
  five series. It then buckets packets by whole seconds of send time into media,
  RTX and probing bitrate, and plots RTT and min-RTT per record. Bucketing is also
  given as a function `Bucketize` with proved properties: bucket count,
  conservation of bits, aligned x values, and one RTT point per record.
- **`QlogDisplay`** (`qlog_display.dfy`). It finds the first `.qlog` file and
  creates three series. It parses mvfst traces, given as already decoded event
  sequences, into congestion-window, bytes-in-flight and RTT points relative to the
  first event's time. It also handles unload.
- **`MainWindow`** (`main_window.dfy`). It builds the experiment tree from a
  pre-order directory walk using a stack and `prev_depth`. It rebuilds a path from
  an item's ancestors and dispatches load/unload to the three displays.
- **`AllBitrateDisplay`** (`all_bitrate.dfy`) gathers series copied from other
  displays into one chart: `add_stats`, `load`, `unload` and `set_geometry`.
- **`SentLossDisplay`** (`sent_loss_display.dfy`) keeps one percent bar series per
  experiment. Every loss notification appends a "sent" and a "loss" bar set to it.
- `paths.dfy` gives the `std::filesystem::path` operations used (filename, parent,
  extension, `/`), and the "first matching directory entry" search. `wrappers.dfy`
  gives `Option`, `Result` and `Outcome`.

Two behaviours of the code are worth knowing:

- Repeated notifications for a path accumulate bar sets (`SentLoss.GrownReplayed`).
- `CsvReaderTypeRepeat` always builds a `','` reader, so the `'|'` relay reader
  splits on commas (`Csv.TypeRepeatIsCommaReader`).

## Model

| member | source | states |
|---|---|---|
| TextStream.NextDelim | src/csv_reader.h:42 | the delimiter position `getline` stops at: the first occurrence at or after the cursor, or none when no delimiter remains |
| TextStream.Field | src/csv_reader.h:41-42 | the i-th token of a line never contains the delimiter |
| TextStream.FieldBounds | src/csv_reader.h:41-42 | the i-th token spans a delimiter-free range of the line that ends at the next delimiter, or at the end of the line for the last token |
| TextStream.ReadField | src/csv_reader.h:38-42 | reading the k-th token with the stream-based `getline` gives exactly the declarative `Field(line, d, k)` and leaves the stream at the start of token k+1 |
| TextStream.FieldSplit | src/csv_reader.h:41-42 | a token after the first delimiter is a token of the rest of the line |
| TextStream.FieldOfJoin | src/csv_reader.h:41-42 | joining delimiter-free fields with the delimiter and splitting again gives each field back |
| TextStream.FieldPastJoin | src/csv_reader.h:41-42 | asking for more tokens than a line has gives empty tokens |
| TextStream.ParseInt | src/csv_reader.h:43-44 | an empty or all-blank token leaves the previous value unchanged; any other token yields a value within the 32-bit range |
| TextStream.ParseSigned | src/csv_reader.h:43-44 | a token made of leading blanks, an optional `+` or `-` sign, at least one digit and any tail extracts the digits' value, negated only after `-`, clamped to 32 bits |
| TextStream.DigitsValueOfFormat | src/csv_reader.h:43-44 | decimal formatting and digit evaluation are inverse on naturals |
| TextStream.FormatThenParse | src/csv_reader.h:43-44 | a formatted 32-bit integer followed by any tail extracts back to itself |
| Csv.ParseLineAt | src/csv_reader.h:41-44 | field i of the new record is the extraction of token i over field i of the previous record |
| Csv.ParseLineFields | src/csv_reader.h:23 | a blank or missing token keeps the previous record's value; a present token yields a 32-bit value |
| Csv.Load | src/csv_reader.h:28-49 | one `load_line` keeps the arity, sets `finish` once the file was at its end, and otherwise consumes input |
| Csv.LoadParts | src/csv_reader.h:32-38 | `load_line` reads one physical line, parses it over the previous record, and is finished when EOF was hit before the first field or, with arity at least 2, before a later one |
| Csv.AtEnd | src/csv_reader.h:82 | an iterator equals `end()` exactly when it is finished or its record is all zeros |
| Csv.Records | src/csv_reader.h:71-89 | every yielded record has the reader's arity and is not the all-zero tuple; a finished iterator yields nothing |
| Csv.RecordsStep | src/csv_reader.h:71-89 | iteration stops at `end()`, and otherwise yields the current record and then the records after one `++` |
| Csv.TakeNonZero | src/csv_reader.h:82 | the yielded prefix is the longest one without an all-zero record |
| Csv.RecordsOfFile | src/csv_reader.h:32-38 | the records of a file are its newline-terminated lines, each parsed over the one before, cut at the first all-zero record; a last line with no newline is dropped |
| Csv.RecordsOfFileSingle | src/csv_reader.h:32-38 | with arity 1 the records come from all lines, including the unterminated last one |
| Csv.EmptyFileYieldsNothing | src/csv_reader.h:32-38 | an empty file yields no record |
| Csv.ReadRendered | src/csv_reader.h:28-48 | rendering non-zero rows of the reader's arity as delimited lines and reading them back gives the rows back |
| Csv.Duplicate | src/csv_reader.h:95-114 | the type duplicator always yields a `','` reader with `NUM + |pack| - 1` fields |
| Csv.DuplicateCopies | src/csv_reader.h:98-114 | duplicating a pack of m copies of T gives `NUM + m - 1` copies of T |
| Csv.TypeRepeatIsCommaReader | src/csv_reader.h:118-119 | `CsvReaderTypeRepeat<D, T, N>` reads exactly N fields of T, split on `','` whatever D is |
| Csv.Iterator.Open | src/csv_reader.h:61-69 | a newly opened iterator holds the state after the first `load_line` on the file's text |
| Csv.Iterator.End | src/csv_reader.h:51 | the end iterator is finished and holds the value-initialised record |
| Csv.Iterator.LoadLine | src/csv_reader.h:28-49 | the field-by-field loop leaves the iterator in the state the functional `Load` gives |
| Csv.Iterator.LoadFields | src/csv_reader.h:41-48 | the per-field loop writes the whole parsed record and flags EOF met before a later field |
| Csv.Iterator.LoadField | src/csv_reader.h:32-47 | one field step writes field i from token i, advances the line stream and flags EOF when i > 0 |
| Csv.Iterator.Next | src/csv_reader.h:71-74 | `++` is one `load_line` |
| Csv.Reader.constructor | src/csv_reader.h:17 | the reader keeps its path, delimiter and arity |
| Csv.Reader.Begin | src/csv_reader.h:61-66 | `begin()` fails with the open error exactly when the file cannot be opened; otherwise it holds the file's first record state |
| Csv.Reader.End | src/csv_reader.h:89 | `end()` is a new finished iterator |
| Csv.ReadAll | src/csv_reader.h:71-89 | a range-for over the reader fails on an unopenable path and otherwise collects exactly `Records` of the file |
| Paths.FilenameSpec | src/medooze_display.cpp:65 | the filename is the slash-free suffix of a path; a path without a slash has an empty parent, a path `/name` has the parent `/`, and any other path is its parent, a slash, and the filename |
| Paths.ExtensionSpec | src/medooze_display.cpp:65 | the extension is the filename's suffix from its last dot, empty for names without one or starting with their only dot |
| Paths.FindFirst | src/medooze_display.cpp:63-69 | the search loop with `break` returns the first entry satisfying the predicate, or the empty path |
| Paths.FirstAt | src/qlog_display.cpp:137-143 | when entry i is the first match, it is the one found |
| Paths.FirstNone | src/qlog_display.cpp:137-143 | when no entry matches, the empty path is found |
| Paths.JoinSplit | src/main_window.cpp:81-84 | `a / b` for a component b has filename b and parent a |
| DisplayBase.Attach | src/display_base.h:87 | adding a series to a chart makes it present, keeps the others, and changes nothing when it is already there |
| DisplayBase.AttachDistinct | src/display_base.h:109-110 | attaching keeps a chart's series distinct |
| DisplayBase.Detach | src/display_base.cpp:91 | removing leaves exactly the series not removed |
| DisplayBase.DetachTwice | src/display_base.cpp:86-93 | removing one set of series and then another is removing both at once |
| DisplayBase.StyledPen | src/display_base.h:95-106 | stream entries get a dotted pen; `should_be_black` overrides it with a solid black pen; otherwise the pen is unchanged |
| DisplayBase.StyledPenIdempotent | src/display_base.h:95-106 | styling a series twice equals styling it once |
| DisplayBase.DefaultInfoDotted | src/display_base.h:42-51 | the default experiment info (stream, not black) turns a pen dotted |
| DisplayBase.SerieNameOfTokens | src/display_base.cpp:64-76 | the series name is the metric name, " (", the first three '_' tokens joined by '_' with missing ones empty, and ")" |
| DisplayBase.ExpTagOfThree | src/display_base.cpp:67-74 | the experiment tag is the first three '_' tokens of the directory name, later tokens dropped |
| DisplayBase.FormatSerieName | src/display_base.cpp:56-76 | the three-iteration stream loop builds exactly that series name |
| DisplayBase.RemoveItems | src/display_base.cpp:98-103 | exactly the info items whose text is the filename are removed |
| DisplayBase.Store | src/display_base.cpp:79 | `create_serie` sets the series slot of its key |
| DisplayBase.DeletedSpec | src/display_base.cpp:86-96 | a series is deleted by `unload` exactly when some entry of the path's map has both a chart and a series, and that series is it |
| DisplayBase.Display.AddPoint | src/display_base.h:71-77 | exactly one point is appended to the series at (path, key); every other series and all maps are unchanged |
| DisplayBase.Display.AddSerie | src/display_base.h:79-113 | with no chart nothing changes; otherwise the series is added to its chart once, styled, and both axes are attached only when an x axis is given |
| DisplayBase.Display.CreateSerie | src/display_base.cpp:52-80 | a fresh named empty series is stored under (path, key), the map being filled first only when empty; no other entry or series changes |
| DisplayBase.Display.Unload | src/display_base.cpp:82-104 | exactly the charted series of the path are removed from their charts and deleted, the stored map stays as it was, and the path's info items go |
| DisplayBase.Display.UnloadEntry | src/display_base.cpp:86-96 | one entry's series is removed and deleted only when both its chart and series are set |
| Medooze.TableIsTabled | src/medooze_display.cpp:26-46 | `init_map` fills the nine metric entries with their names, no series, and the bitrate or RTT chart |
| Medooze.TabledAt | src/medooze_display.cpp:38-46 | each tabled entry has its metric name, no series, its chart and the default info |
| Medooze.RelayFileAt | src/medooze_display.cpp:63-69 | the input is the first entry named `quic-relay-*.csv` |
| Medooze.RelayFileNone | src/medooze_display.cpp:63-71 | with no such entry the reader gets the empty path |
| Medooze.TimeKey | src/medooze_display.cpp:88 | the bucket key is the send time in whole seconds, truncated toward zero |
| Medooze.Add | src/medooze_display.cpp:108-110 | a packet adds `packet_size * 8` to media, probing or RTX by its flags, and nothing for any other flag pair |
| Medooze.Accumulate | src/medooze_display.cpp:108-110 | the in-place accumulators move exactly like the functional bucket |
| Medooze.BucketizeStep | src/medooze_display.cpp:88-110 | a record opens a new bucket on the first record or a changed key, emitting the previous one, and is otherwise added to the open one |
| Medooze.BucketCount | src/medooze_display.cpp:90-106 | the number of emitted buckets is the number of key changes; the last bucket stays open, keyed by the last record |
| Medooze.BucketKeysChange | src/medooze_display.cpp:90-106 | consecutive buckets, the open one included, have different keys |
| Medooze.Conservation | src/medooze_display.cpp:90-110 | the emitted buckets plus the open one hold 8 times the sizes of the classified packets |
| Medooze.PlotAt | src/medooze_display.cpp:92-94 | the i-th point of a channel is the i-th emitted bucket's key and channel value |
| Medooze.PlotsAligned | src/medooze_display.cpp:92-105 | media, RTX and probing have equal lengths and identical x sequences |
| Medooze.RttPlotAt | src/medooze_display.cpp:112-119 | the i-th RTT and min-RTT points come from the i-th record |
| Medooze.CreatedAll | src/medooze_display.cpp:74-78 | the five creations give media, RTX, probing, RTT and min-RTT consecutive fresh empty named series |
| Medooze.ShownSeriesSpec | src/medooze_display.cpp:122-127 | the five `add_serie` calls restyle each of the five series and keep every other series and the set of ids |
| Medooze.DressedDotted | src/medooze_display.cpp:74-127 | series created with their names and the default pen, then only drawn, then charted under the default info end up with the same names, dotted in the theme colour, on no axis |
| Medooze.MedoozeDisplay.constructor | src/medooze_display.cpp:11-24 | a new display has no experiments or series and two empty charts |
| Medooze.MedoozeDisplay.Flush | src/medooze_display.cpp:91-95 | the open bucket's three points are appended to media, RTX and probing |
| Medooze.MedoozeDisplay.PlotRtt | src/medooze_display.cpp:112-119 | one RTT and one min-RTT point are appended per record |
| Medooze.MedoozeDisplay.Reopen | src/medooze_display.cpp:90-106 | on a new key the previous bucket is flushed unless it is the first, and the accumulators restart at (key, 0); the five series keep their names, pens and axes, and no other series changes |
| Medooze.MedoozeDisplay.Open | src/medooze_display.cpp:88-106 | after the key check the series hold the emitted buckets and the accumulators track the open bucket; names, pens and axes are kept |
| Medooze.MedoozeDisplay.Consume | src/medooze_display.cpp:84-120 | after each record the series hold `Bucketize` of the records so far and their RTT plots, with their names, pens and axes kept |
| Medooze.MedoozeDisplay.Create | src/medooze_display.cpp:74-78 | one `create_serie` gives the next metric in creation order its fresh series; only the path's key map changes, existing series are kept and the charts are untouched |
| Medooze.MedoozeDisplay.CreateAll | src/medooze_display.cpp:74-78 | five consecutive fresh empty named series are created for the path, with ids unused before; other paths' maps, existing series and the charts are unchanged |
| Medooze.MedoozeDisplay.Show | src/medooze_display.cpp:122-127 | `add_serie` puts the series on its metric's chart once and restyles its pen under the default experiment info; its name, points and axes and every other chart and series stay as they were |
| Medooze.MedoozeDisplay.ShowBitrate | src/medooze_display.cpp:122-124 | the bitrate chart gains media, RTX and probing in that order, and exactly those three series are restyled |
| Medooze.MedoozeDisplay.ShowRtt | src/medooze_display.cpp:126-127 | the RTT chart gains RTT and min-RTT in that order, and exactly those two series are restyled |
| Medooze.MedoozeDisplay.ShowAll | src/medooze_display.cpp:122-127 | the charts become exactly the old ones with media, RTX and probing attached to the bitrate chart and RTT and min-RTT to the RTT chart; the series become exactly `ShownSeries`: each of the five restyled, nothing else changed |
| Medooze.MedoozeDisplay.PlotRecords | src/medooze_display.cpp:80-120 | the record loop draws exactly the buckets and RTT plots of all records; the five series keep their names, pens and axes, and no chart and no other series changes |
| Medooze.MedoozeDisplay.Fill | src/medooze_display.cpp:80-127 | the record loop then the five `add_serie` calls: the five new series keep their `create_serie` names, hold the buckets and RTT plots, are drawn dotted in the theme colour on no axis, and the charts gain exactly them; no other series changes |
| Medooze.MedoozeDisplay.Read | src/medooze_display.cpp:71-127 | an unopenable file throws from the reader and changes neither charts nor series; otherwise the comma-split 17-int records are drawn, named, dotted and charted as by `Fill` |
| Medooze.MedoozeDisplay.Load | src/medooze_display.cpp:61-131 | an unopenable relay file fails after the series are created (empty, named, default pen) and leaves the charts alone; otherwise the five series are named "Media (<tag>)" and so on, hold the buckets and RTT plots of all comma-split records, are dotted in the theme colour, and the charts gain exactly them; existing series and other paths' maps stay as they were |
| Qlog.QlogFileAt | src/qlog_display.cpp:137-143 | the input is the first `.qlog` entry |
| Qlog.QlogFileNone | src/qlog_display.cpp:137-148 | with no `.qlog` entry nothing is found |
| Qlog.RunCons | src/qlog_display.cpp:99-101 | an event without a name aborts the parse; any other event is one step |
| Qlog.RunStopped | src/qlog_display.cpp:101 | nothing after an aborting event is parsed |
| Qlog.RunAborts | src/qlog_display.cpp:101 | the parse aborts exactly when some event has no name |
| Qlog.Kept | src/qlog_display.cpp:104 | the filtered events are unnamed or `recovery:metrics_updated`, and every such event of the input is among them |
| Qlog.KeptAppend | src/qlog_display.cpp:99-104 | filtering a concatenation filters each part in order |
| Qlog.RunKept | src/qlog_display.cpp:104 | events with another name contribute nothing |
| Qlog.RunPaired | src/qlog_display.cpp:112-118 | CWND and bytes-in-flight receive points together or not at all, with equal x |
| Qlog.RunOrigin | src/qlog_display.cpp:97-122 | once set, `time_0` never changes; while unset it becomes the time of the first `recovery:metrics_updated` event whose time is not -1, before any nameless event, and stays -1 when there is none |
| Qlog.RunCounts | src/qlog_display.cpp:106-130 | CWND and bytes-in-flight gain one point per complete metric event; RTT gains one per timed event with `latest_rtt`, independently |
| Qlog.OriginAtZero | src/qlog_display.cpp:121-127 | the first timed event sets `time_0`, so its RTT point sits at x = 0 |
| Qlog.FlatAppend | src/qlog_display.cpp:99-100 | the events of all traces are visited in order |
| Qlog.QlogDisplay.constructor | src/qlog_display.cpp:37-43 | a new display has the three metric entries with no series and no experiments |
| Qlog.QlogDisplay.CreateSerie | src/qlog_display.cpp:82-90 | a fresh series in the metric's colour and name is stored in `_map` and appended to the path's vector |
| Qlog.QlogDisplay.AddPoint | src/qlog_display.cpp:117-118 | one point is appended to the key's current series; nothing else changes |
| Qlog.QlogDisplay.AddSerie | src/qlog_display.cpp:160-163 | the key's current series is added once to the given chart |
| Qlog.QlogDisplay.CreateAll | src/qlog_display.cpp:150-152 | bytes-in-flight, CWND and RTT get three consecutive fresh empty series |
| Qlog.QlogDisplay.ShowAll | src/qlog_display.cpp:160-163 | bytes-in-flight and CWND go on the bitrate chart and RTT on the RTT chart |
| Qlog.QlogDisplay.Fill | src/qlog_display.cpp:156-163 | the three new series hold `Run` of the flattened events for an mvfst file and stay empty otherwise; an unnamed event stops before any `add_serie`, otherwise bytes-in-flight and CWND join the bitrate chart and RTT the RTT chart |
| Qlog.QlogDisplay.Load | src/qlog_display.cpp:135-167 | with no qlog file nothing changes; otherwise three series hold the parsed curves and are charted, unless an unnamed event aborted the load |
| Qlog.QlogDisplay.Unload | src/qlog_display.cpp:169-181 | the path's series leave both charts and are deleted, and its vector becomes empty |
| Qlog.QlogDisplay.TryPair | src/qlog_display.cpp:106-119 | the first `try` block is exactly one `PairStep` on the series' curves |
| Qlog.QlogDisplay.TryRtt | src/qlog_display.cpp:121-130 | the second `try` block is exactly one `RttStep` |
| Qlog.QlogDisplay.Visit | src/qlog_display.cpp:100-131 | visiting an event advances the curves by one step of `Run` |
| Qlog.QlogDisplay.ParseMvfst | src/qlog_display.cpp:92-133 | the nested loops leave the series holding `Run` over the flattened events |
| Window.TreeSize | src/main_window.cpp:42-62 | one tree item is made per directory entry |
| Window.RecentSpec | src/main_window.cpp:52-53 | the parent lookup finds the most recent earlier directory at the given depth, or reports that none exists |
| Window.TreeForest | src/main_window.cpp:52-53 | every item's parent is an earlier item |
| Window.TopLevel | src/main_window.cpp:52-53 | an item is top level exactly when its directory has depth 0 |
| Window.StackDir | src/main_window.cpp:47-61 | after a directory the stack holds its ancestors' items then its own, depth + 1 items in all; its parent is the stack top |
| Window.StackFile | src/main_window.cpp:45 | non-directory entries change neither the stack nor `prev_depth` |
| Window.Pop | src/main_window.cpp:47-50 | same depth pops one item, a shallower depth pops `prev_depth - depth + 1`, a deeper one none |
| Window.UpLinks | src/main_window.cpp:76-78 | the ancestor walk collects the chain of parents, nearest first, ending at a top-level item |
| Window.PathParts | src/main_window.cpp:71-84 | the rebuilt path is the stats dir, the ancestor names root first, then the item's own name |
| Window.Dispatch | src/main_window.cpp:86-99 | a checked leaf loads the recv, medooze and qlog displays in that order, stopping at the first whose `load` throws and reporting that exception; it throws exactly when some display fails; an unchecked one unloads the same three |
| Window.ThrowStops | src/main_window.cpp:91-93 | once a display's `load` throws, no later display is loaded |
| Window.MainWindow.SetStatsDir | src/main_window.cpp:27-30 | the stats directory is replaced and the tree kept |
| Window.MainWindow.Visit | src/main_window.cpp:42-62 | one loop step adds an item for a directory under its parent and keeps the stack invariant |
| Window.MainWindow.Load | src/main_window.cpp:32-65 | the walk appends exactly `Tree` of the entries to the menu |
| Window.MainWindow.OnExpChanged | src/main_window.cpp:67-100 | items with children are ignored; a leaf dispatches on its check state with its rebuilt path, and an exception from a `load` ends the slot |
| Window.MainWindow.Ancestors | src/main_window.cpp:73-78 | the stack loop collects exactly the ancestor chain |
| AllBitrate.CopiedSpec | src/all_bitrate.cpp:84-88 | points are copied in order with the same count and x; y is scaled by 8/1000 only for CWND |
| AllBitrate.LossTop | src/all_bitrate.cpp:110-118 | the loss-axis top is the larger last y of the QUIC and Medooze loss series, set only when both have points |
| AllBitrate.ShownHas | src/all_bitrate.cpp:98-100 | after the `add_serie` loop the chart holds its earlier series and every charted series of the path, still distinct |
| AllBitrate.RestyledAt | src/all_bitrate.cpp:98-100 | the loop restyles exactly the path's charted series and keeps all others |
| AllBitrate.Squared | src/all_bitrate.cpp:169-172 | with equal ratios the geometry becomes a square of side min(width, height) at the same origin |
| AllBitrate.AllBitrateDisplay.constructor | src/all_bitrate.cpp:10-19 | a new display has one empty chart and starts the palette at 0 |
| AllBitrate.AllBitrateDisplay.Insert | src/all_bitrate.cpp:54-78 | the entry is overwritten with this chart, a continuous line, the next palette colour and the loss/total name override; the counter grows by one |
| AllBitrate.AllBitrateDisplay.CopyPoints | src/all_bitrate.cpp:82-88 | the new series receives exactly the copied points |
| AllBitrate.AllBitrateDisplay.AddStats | src/all_bitrate.cpp:52-89 | `add_stats` stores the entry, creates its series and fills it with the copied points |
| AllBitrate.AllBitrateDisplay.ShowEntry | src/all_bitrate.cpp:98-100 | one `add_serie` puts the key's series on the chart once and styles it |
| AllBitrate.AllBitrateDisplay.Load | src/all_bitrate.cpp:91-118 | all the path's series are shown and restyled, and the loss-axis top is `LossTop` of the two loss series |
| AllBitrate.AllBitrateDisplay.Unload | src/all_bitrate.cpp:155-158 | unloading is the base unload |
| AllBitrate.AllBitrateDisplay.SetGeometry | src/all_bitrate.cpp:165-178 | equal ratios square the geometry; other ratios set the height to width times ratio |
| SentLoss.Without | src/sent_loss_display.cpp:42 | removing a series leaves exactly the others |
| SentLoss.ReaddedSpec | src/sent_loss_display.cpp:42-43 | after remove-then-add the series is on the chart exactly once, last, and the others stay |
| SentLoss.GrownSpec | src/sent_loss_display.cpp:34-47 | a notification appends two bar sets, sent then loss, after all earlier ones, and leaves the series attached to `_axis_y` only, since `removeSeries` detached its earlier axes |
| SentLoss.AxisTakenOver | src/sent_loss_display.cpp:25-47 | a series notified after another path created a newer `_axis_y` loses its own axis and is attached to the newer one only |
| SentLoss.GrownReplayed | src/sent_loss_display.cpp:39-40 | repeated notifications accumulate bar sets; nothing is replaced |
| SentLoss.BarsAccumulate | src/sent_loss_display.cpp:66-67 | after n notifications a series holds its earlier bar sets followed by 2n new ones |
| SentLoss.Prior | src/sent_loss_display.cpp:25-32 | the series of a known path is its stored one; a new path starts empty |
| SentLoss.SentLossDisplay.constructor | src/sent_loss_display.cpp:7-16 | a new display has no series, no axes and an empty chart |
| SentLoss.SentLossDisplay.Open | src/sent_loss_display.cpp:25-30 | the first notification for a path creates its empty series and a new axis, which becomes `_axis_y` |
| SentLoss.SentLossDisplay.Append | src/sent_loss_display.cpp:32-40 | the path's series gets the two bar sets and `_axis_y`; other paths are untouched |
| SentLoss.SentLossDisplay.Record | src/sent_loss_display.cpp:25-40 | a new axis only for a new path, then the append |
| SentLoss.SentLossDisplay.Notify | src/sent_loss_display.cpp:23-48 | the series grows by one notification, one axis is created only for a new path, other paths are untouched, and the chart holds the series once |
| SentLoss.SentLossDisplay.OnMedoozeLossStats | src/sent_loss_display.cpp:23-48 | a Medooze notification appends "Medooze sent" and "Medooze loss" |
| SentLoss.SentLossDisplay.OnQuicLossStats | src/sent_loss_display.cpp:50-75 | a QUIC notification appends "Quic sent" and "Quic loss" |

## Left out

- File and directory I/O are parameters: file contents are a map from path to text,
  and directory walks are given sequences of entries with name, depth and kind.
  `recursive_directory_iterator` itself is not modelled.
- JSON parsing (nlohmann) is not modelled. A qlog file is a given sequence of
  traces of decoded events, and any optional field may be missing. An unnamed event
  stands for the uncaught `event["name"]` failure, which the model reports as a
  failed load.
- Floating point: points are `real`. The `/1000000.f` time conversions and the
  CWND `* 8 / 1000` scaling are exact, and float rounding is not modelled.
- AllBitrate.AllBitrateDisplay.SetGeometry: the product `g.width() * ratio_h` is
  exact real arithmetic before its truncation to an `int` height, so the float
  rounding of the product is lost.
- Qt rendering is left out: chart and view creation, `createDefaultAxes`, fonts,
  legends (`create_legend` and its show/hide lambdas), gestures and layouts. Also
  left out are the loss-axis attach/detach and the axis titles in
  `AllBitrateDisplay::load` (src/all_bitrate.cpp:104-105, 120-152), and the
  `StatsLineChart` files.
- `received_bitrate_display.cpp`, `main.cpp` and `on_screenshot`/`save` are not
  part of this model (printing, start-up and image export).
- `get_info`, `set_info`, `add_info`, `parse_quicgo` and `QlogDisplay::Info` are
  only declared in the headers shown. With no body, they are not part of this model.
- `_display_impl` is not modelled; it affects only presentation.
- `ExpInfo::impl` and `ExpInfo::cc` are indeterminate in the source's default
  construction; the model gives them `NONE`.
- The loss signals `on_loss_stats` are connected but never emitted in the files
  shown. The sent/loss display is modelled by its two slots only.
- After unload the stored per-path maps still name deleted series; the arena model
  keeps the stale ids. A dangling dereference on reload is not modelled.
- AllBitrate.AllBitrateDisplay.AddStats: requires `currentColor < |Colors|`,
  because the source indexes the six-colour palette with an unbounded static
  counter. The static counter is a field of the display.
- AllBitrate.AllBitrateDisplay.AddStats: the incoming series belongs to another
  display, so its points are passed in as a parameter.
- AllBitrate.AllBitrateDisplay.Load: requires the QUIC and Medooze loss entries and
  their series to exist, because the source dereferences them unchecked.
- Window.MainWindow.Load: requires the entries to be in pre-order (first depth 0,
  each depth at most one more than the previous one), which the directory walk
  guarantees.
- The header and constructor inconsistencies between files are modelled as each
  `.cpp` writes them: `QlogDisplay`'s own `_map` and two-argument
  `add_point`/`add_serie`, the Medooze constructor's base call, and
  `ExpInfo::color`.
- Medooze.Add / Medooze.Accumulate / Medooze.Conservation: `packet_size * 8` and the
  `QPoint` sums are unbounded integers here. In the source they are 32-bit `int`
  arithmetic, which overflows (undefined behaviour) for `packet_size` of 2^28 or
  more, or once a bucket holds more than `INT_MAX` bits.
- Medooze.MedoozeDisplay.Load: inherits the same unbounded bucket sums.
- Window.Dispatch: which displays throw from `load` is a parameter, the set
  `failing`; the received-bitrate display is not part of this model, and a throwing
  Medooze or qlog `load` is the one their own models report as `Fail`.
- Concurrency: the only threads are commented out; the model is sequential.
- The `QMap` iteration of `unload` and of `AllBitrateDisplay::load` is modelled as
  a pass over all 256 `uint8_t` keys in ascending order, which visits the map's keys
  in the same order.
