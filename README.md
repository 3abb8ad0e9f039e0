# gdelt-news-scraper, modelled in Dafny

gdelt-news-scraper collects English news articles whose URLs the GDELT
Global Entity Graph lists with a sentiment score. It runs as three stages
joined by queues. Python's `None` is the end-of-stream marker on each queue.

- **Harvester** (`gdelt_scraper.py`): a producer reads the GDELT manifest
  and queues its batch-file URLs, newest first. Each worker gathers URLs
  into windows of ten and fetches a window's gzip payloads. It decodes each
  line as a YAML record and queues a scrape task for every English record
  whose URL contains a configured news source.
- **Fetcher** (`article_scraper.py`): routes each task to the scraper
  function of every configuration entry with the task's source. It forwards
  the record, with its article text, to the writer.
- **Writer** (`article_writer.py`): buffers records as CSV rows. It writes
  and flushes a batch when a record arrives while 500 rows are buffered. At
  the marker it writes what is left and closes the file.

Both the harvester and the fetcher validate the news-source configuration
at start-up (`helpers.py`). An earlier single-script version
(`scrape_gdelt.py`) has the same window loop, with a few differences:

- a 10 000-entry cap on a shared list;
- four hard-coded sources;
- `(url, sentiment)` records;
- the CSV file is written at the end.

The model turns every queue into a sequence of `Item`s: `Data(x)` or
`EndOfStream`. Each consumer loop is a method over such a sequence. The
method is proved equal to a specification function, and the behaviour of
the source is proved as lemmas about those functions. Fetching, gzip
decompression, YAML decoding, the scraper functions and the file system are
parameters. The model fixes what the code does with their outcomes: what it
skips, what it forwards and which exceptions end a process.

Files:

- `common.dfy`: queue items, Python's `split`, `reversed`, substring `in`
  and list filtering.
- `helpers.dfy`: configuration validation.
- `harvester.dfy`: the harvester.
- `fetcher.dfy`: the fetcher. `ArticleScraper` is a class whose consumer
  appends to its writer queue.
- `writer.dfy`: the writer. `ArticleWriter` is a class whose consumer
  updates the file, its writes and its flushes.
- `single_script.dfy`: the earlier script.
- `pipeline.dfy`: the fetcher and the writer joined by the writer queue.

Behaviour the model follows from the code:

- The harvester's producer puts no end-of-stream marker after its work
  list (`gdelt_scraper.py:33-39`). Only the `KeyboardInterrupt` branch of
  `run` puts markers, so a worker fed only by the producer never stops
  (`Harvester.ProducerAloneNeverStopsWorker`).
- The writer tests the buffer before it appends. The batch written at the
  marker can therefore hold 1 to 500 rows, not at most 499
  (`Writer.WriterBatches`).
- A cancelled scraper call makes the fetcher put a marker on the writer
  queue, but its loop goes on taking tasks (`article_scraper.py:70-72`,
  `Fetcher.CancelledTaskPutsMarkerFirst`). The writer then closes its file
  while records may still follow (`Pipeline.CancelledFirstTaskClosesWriter`).
- The routing loop catches only `CancelledError` (`article_scraper.py:68-72`).
  Any other exception from a scraper function ends the fetcher's consumer
  with no marker on the writer queue (`Fetcher.RaisingTaskEndsScraper`).
  The writer then waits forever with the records forwarded before it
  (`Pipeline.RaisingScraperLeavesWriterWaiting`).
- `_get_data` reads the response body outside its `try`
  (`gdelt_scraper.py:43-47`), and `_create_tasks` catches only
  `CancelledError`. An error while reading one body therefore propagates
  through `gather` and ends the worker at `gdelt_scraper.py:107`, before any
  payload of that window is handled (`Harvester.ProcessWindow`).
- `scrape_gdelt.py` slices the reversed work list from `len // 2`, so it
  keeps the older half of the manifest (`SingleScript.VariantWorkListIsOlderHalf`).

## Model

| member | source | states |
|---|---|---|
| Helpers.CheckEntry | helpers.py:28-41 | an entry passes exactly when its source is truthy, its function name is truthy and the name is registered; an entry check never raises EmptyNewsSources |
| Helpers.CheckEntryOrder | helpers.py:29-41 | a falsy source raises EmptyScraperSource before the function name is looked at; a truthy source with a falsy name raises EmptyScraperFunction; an unregistered name raises ScraperFunctionNotImplemented |
| Helpers.FirstEntryError | helpers.py:28-41 | the scan passes exactly when every entry passes, and otherwise reports the error of one of the entries |
| Helpers.ValidateNewsSources | helpers.py:21-41 | an empty list raises EmptyNewsSources; validation returns normally exactly when the list is non-empty and every entry passes all three checks; any other outcome is some entry's error; the list is only read |
| Helpers.ValidateReportsFirstBadEntry | helpers.py:28-41 | the error raised is the first failing check of the first entry that fails |
| Helpers.FirstErrorAt | helpers.py:28-41 | the scan in list order stops at the first failing entry and reports its error |
| Helpers.ValidateIgnoresTailAfterError | helpers.py:28-41 | entries after a failing one never change the error raised |
| Helpers.FirstErrorIgnoresTail | helpers.py:28-41 | appending entries after a failing prefix leaves the scan's error unchanged |
| Helpers.MainConfigurationIsValid | main.py:8-21 | the three-entry configuration main passes to both stages is accepted by the registry of scraper-module functions |
| Helpers.ImportedHelperPassesValidation | helpers.py:22-23 | the registry holds every function visible in the scraper module, so an entry naming the imported `urljoin` passes validation |
| Common.DataBeforeSentinel | gdelt_scraper.py:92-97 | the items a consumer takes before the first marker are a prefix of the queue, all payloads, and the item after them, if any, is the marker |
| Common.SentinelIffShortPrefix | gdelt_scraper.py:92-97 | a consumer stops before the end of its queue exactly when the queue holds a marker |
| Common.DataBeforeSentinelStep | gdelt_scraper.py:93-99 | a payload taken before any marker extends the payloads taken so far by exactly that payload |
| Common.DataBeforeSentinelCons | gdelt_scraper.py:92-99 | a payload in front is taken first, before what the consumer takes from the rest |
| Common.DataBeforeSentinelOfData | gdelt_scraper.py:92-99 | a queue of payloads with no marker is taken whole |
| Common.DataBeforeSentinelOfStream | gdelt_scraper.py:93-97 | payloads followed by a marker are taken as exactly those payloads, whatever follows the marker |
| Common.CountSentinels | gdelt_scraper.py:149-151 | the marker count is zero exactly when the queue holds no marker, and never exceeds its length |
| Common.CountSentinelsAppend | gdelt_scraper.py:149-151 | markers put one after another add up |
| Common.CountSentinelsOfSentinels | gdelt_scraper.py:149-150 | `n` markers put in a row count as `n` |
| Common.CountSentinelsOfData | gdelt_scraper.py:38-39 | a queue of work items holds no marker |
| Common.DataOfAppend | article_scraper.py:47-80 | the records of two stretches of a queue are those of the first followed by those of the second |
| Common.DataOfDataItems | gdelt_scraper.py:38-39 | wrapping payloads as queue items and reading them back gives the payloads |
| Common.DataOfSentinels | scrape_gdelt.py:25-27 | markers carry no payload |
| Common.NoSentinelIsData | article_scraper.py:47-80 | a queue without markers is exactly its payloads, wrapped |
| Common.Split | gdelt_scraper.py:36 | `split("\n")` always gives at least one piece, and no piece contains the separator |
| Common.JoinSplit | gdelt_scraper.py:36 | splitting loses nothing: joining the pieces with the separator gives back the text |
| Common.SplitJoin | gdelt_scraper.py:36 | splitting a join of separator-free pieces gives back the pieces |
| Common.SplitNoSep | gdelt_scraper.py:36 | a text without a newline is one piece |
| Common.SplitAppend | gdelt_scraper.py:36 | a newline between two texts separates their pieces |
| Common.Reverse | gdelt_scraper.py:36 | `reversed` keeps the length and puts item `i` at position `n-1-i` |
| Common.ReverseMembers | gdelt_scraper.py:36 | a reversal holds exactly the items of the original |
| Common.ReverseSuffix | scrape_gdelt.py:18-20 | dropping the first `h` items of a reversal drops the last `h` items of the original |
| Common.ReverseAppend | gdelt_scraper.py:36 | the reversal of a concatenation is the reversal of the second part followed by that of the first |
| Common.NonEmpty | gdelt_scraper.py:36 | the filter `if len(i)` keeps exactly the non-empty lines and never lengthens the list |
| Common.NonEmptyAppend | gdelt_scraper.py:36 | the filter keeps order across a concatenation |
| Common.ContainsIff | gdelt_scraper.py:79 | substring `in` holds exactly when the needle occurs at some offset |
| Harvester.ThenAssociative | gdelt_scraper.py:112-128 | running three pieces of work in order does not depend on grouping |
| Harvester.ConcatExtend | gdelt_scraper.py:112-128 | running one more piece of work after the earlier ones |
| Harvester.ConcatAppend | gdelt_scraper.py:112-128 | running two lists of work one after the other is running each in turn |
| Harvester.ConcatCrashPersists | gdelt_scraper.py:112-128 | once a piece of work raises, nothing after it runs or puts anything |
| Harvester.ManifestWorkListLines | gdelt_scraper.py:35-36 | the work items are exactly the non-empty lines of the manifest, none containing a newline |
| Harvester.ManifestWorkListAppend | gdelt_scraper.py:35-36 | lines appended to the manifest come first in the work list, so the newest batch files are queued first |
| Harvester.ManifestWorkListLine | gdelt_scraper.py:36 | a single line is a work item exactly when it is not empty |
| Harvester.Producer | gdelt_scraper.py:33-39 | the producer puts exactly the work list, in order, and no marker |
| Harvester.PutAll | gdelt_scraper.py:38-39 | the put loop queues every URL, in order, as a payload |
| Harvester.MatchingSources | gdelt_scraper.py:78-79 | the sources that match a URL are exactly the configured ones it contains, never more than are configured |
| Harvester.MatchingSourcesAppend | gdelt_scraper.py:78-79 | matching keeps configured order across a split of the source list |
| Harvester.GdeltExtractor | gdelt_scraper.py:72-82 | a record that is not English puts nothing; an English record with a URL puts one task per matching source, in configured order, each with the record's URL and score and a source the URL contains; an English record without a URL raises when any source is configured |
| Harvester.LineTracesAppend | gdelt_scraper.py:119-128 | the lines of a payload are handled one after another |
| Harvester.PayloadTracesAppend | gdelt_scraper.py:112-128 | the payloads of a window are handled one after another |
| Harvester.ManifestWorkList | gdelt_scraper.py:35-36 | the work list built from the manifest; its contents and order are stated by `ManifestWorkListLines`, `ManifestWorkListAppend` and `ManifestWorkListLine` |
| Harvester.LineTrace | gdelt_scraper.py:119-128 | one line: an empty line or a ReaderError is skipped, another decoding failure raises, a record goes to the extractor; stated by `SkippedLineIsSkipped` and `WindowValid` |
| Harvester.PayloadTrace | gdelt_scraper.py:112-128 | one gathered result: `None` raises at `len(None)`, an empty payload is skipped, an undecompressable one raises, otherwise its lines in order; stated by `ProcessPayload` and `EmptyPayloadIsSkipped` |
| Harvester.WindowRaises | gdelt_scraper.py:41-57 | some fetch of the window raises outside the `try` of `_get_data`, which `gather` re-raises |
| Harvester.WindowTrace | gdelt_scraper.py:107-128 | one window: nothing and a raise when some fetch raises, otherwise its payloads in URL order; stated by `ProcessWindow`, `EmptyPayloadIsSkipped` and `WindowValid` |
| Harvester.ProcessWindow | gdelt_scraper.py:107-128 | when reading some body raises, the window puts nothing and the worker raises; otherwise the window loop puts what the window's payloads put, in URL order, and stops at the first one that raises |
| Harvester.ProcessPayload | gdelt_scraper.py:112-128 | a fetch that returned `None` raises at `len(None)`; an empty payload is skipped; a payload that does not decompress raises; otherwise each line is skipped, decoded or extracted in order, and a decoding failure other than ReaderError ends the run |
| Harvester.WindowRaisesSkip | gdelt_scraper.py:41-57 | a URL whose fetch does not raise does not change whether the window raises |
| Harvester.ConcatDropQuiet | gdelt_scraper.py:112-128 | a piece of work that puts nothing and raises nothing can be left out |
| Harvester.EmptyPayloadIsSkipped | gdelt_scraper.py:113-114 | an empty body read without error changes nothing: the window puts, and raises, what it would have without that URL |
| Harvester.SkippedLineIsSkipped | gdelt_scraper.py:120-126 | an empty line or one raising ReaderError changes nothing: the payload puts what it would have put without that line |
| Harvester.RunWindows | gdelt_scraper.py:99-130 | the full windows of a URL list, run in order; stated by `RunWindowsAppend`, `RunWindowsPartial`, `RunWindowsSplit` and `RunWindowsValid` |
| Harvester.Leftover | gdelt_scraper.py:99-101 | what remains after the full windows is shorter than a window and is the URL count modulo ten |
| Harvester.RunWindowsAppend | gdelt_scraper.py:99-130 | one more full window after the windows already run adds exactly that window's work |
| Harvester.RunWindowsPartial | gdelt_scraper.py:99-101 | fewer than ten URLs after the full windows are never fetched and are all that is left over |
| Harvester.RunWindowsSplit | gdelt_scraper.py:99-130 | running whole windows and then more URLs is running the two in order, so once a window raises the windows after it are never run |
| Harvester.WorkerSpec | gdelt_scraper.py:90-130 | a worker ends at the marker only if the queue held one, waits only if it held none, and holds fewer than ten URLs either way |
| Harvester.Consumer | gdelt_scraper.py:90-130 | the worker loop puts what its full windows of the URLs before the marker put, in order, and stops, waits or raises as the worker specification says |
| Harvester.FinishedWorker | gdelt_scraper.py:93-97 | leaving the loop at the marker or at the end of its input gives the worker's specified end, with the partial window as what is left |
| Harvester.CrashedWorker | gdelt_scraper.py:107-128 | a window that raises ends the worker with what was put up to then |
| Harvester.ThenValid | gdelt_scraper.py:78-82 | two runs whose tasks all name a configured source contained in their URL keep that property together |
| Harvester.ConcatValid | gdelt_scraper.py:78-82 | a sequence of such runs keeps the property |
| Harvester.WindowValid | gdelt_scraper.py:78-82 | every task a window puts names a configured source contained in its URL |
| Harvester.RunWindowsValid | gdelt_scraper.py:78-82 | every task from any number of windows names a configured source contained in its URL |
| Harvester.WorkerTasksValid | gdelt_scraper.py:78-82 | every task a worker puts names a configured source that occurs in the task's URL |
| Harvester.PartialWindowIsDropped | gdelt_scraper.py:93-101 | at the marker the worker puts exactly what its full windows put and stops, dropping the partial window unfetched |
| Harvester.ProducerAloneNeverStopsWorker | gdelt_scraper.py:33-39 | a worker fed only what the producer puts never reaches a marker |
| Harvester.Interrupt | gdelt_scraper.py:145-151 | the interrupt puts exactly one marker per worker on the internal queue and exactly one on the scraper queue, after what was there |
| Harvester.InterruptStopsWorker | gdelt_scraper.py:149-150 | a worker whose share of the queue ends with its marker is never left waiting |
| Fetcher.Converted | article_scraper.py:27-32 | converting an entry never changes its source |
| Fetcher.ConvertAll | article_scraper.py:27-33 | the list keeps its length; an entry whose name is registered becomes a reference to that function under the same source; every other entry is left exactly as it was |
| Fetcher.ConvertedCases | article_scraper.py:27-32 | a registered name becomes a reference to that function; any other entry is left as it was; an entry ends with a reference exactly when its name was registered or it already had one |
| Fetcher.ConvertIdempotent | article_scraper.py:27-33 | converting twice is converting once |
| Fetcher.AllConvertedIff | article_scraper.py:27-33 | the configuration is converted exactly when every entry holds a function reference |
| Fetcher.AllConvertedPrefix | article_scraper.py:66-69 | the entries the routing loop has passed are all converted |
| Fetcher.ValidatedConfigConverts | article_scraper.py:18-21 | after validation passes, conversion leaves every entry with a function reference |
| Fetcher.ConvertFuncNamesToFuncReferences | article_scraper.py:23-33 | the caller's list is rewritten in place, entry by entry, and the same list is returned |
| Fetcher.ScanRoutes | article_scraper.py:64-72 | the routing loop over the entries so far; a non-empty text comes from some entry that names the task's source |
| Fetcher.ScanStopsIff | article_scraper.py:66-72 | the routing loop is left early exactly when some matching entry's call is cancelled or raises |
| Fetcher.ScanFirstStop | article_scraper.py:66-72 | the first matching call that does not return decides the end: a cancellation leaves the loop by `break`, any other exception leaves it uncaught |
| Fetcher.LastMatchWins | article_scraper.py:66-69 | with no call that is cancelled or raises there is no break, so the text is what the last matching entry's function returned |
| Fetcher.NoMatchNoText | article_scraper.py:64-67 | a task whose source no entry names gets an empty text |
| Fetcher.RouterOf | article_scraper.py:64-72 | the routing loop over a converted configuration, as a function of source and URL; how it ends is stated by `ScanStopsIff`, `ScanFirstStop`, `LastMatchWins` and `NoMatchNoText` |
| Fetcher.ItemOutput | article_scraper.py:57-80 | what one task puts, at most two items, and nothing unless it has a URL and its routing loop does not raise; stated in full by `ItemOutputRecords` and `ItemOutputMarkers` |
| Fetcher.ItemOutputRecords | article_scraper.py:57-80 | a task without a URL, or whose routing loop raises, puts nothing; a task puts at most one record, with its URL, its sentiment and a non-empty text |
| Fetcher.ItemOutputMarkers | article_scraper.py:66-72 | a task puts a marker exactly when its routing loop was left by `break` after a cancellation |
| Fetcher.OutputsAppend | article_scraper.py:49-80 | the writer queue gets the outputs of earlier tasks before those of later ones |
| Fetcher.OutputsSnoc | article_scraper.py:49-80 | taking one more task appends exactly that task's output |
| Fetcher.OutputsCons | article_scraper.py:49-80 | a task in front puts its output before those of the tasks after it |
| Fetcher.FirstRaise | article_scraper.py:66-72 | the position of the first task whose routing loop raises: no task before it raises, and it raises unless it is the end |
| Fetcher.FirstRaiseCons | article_scraper.py:66-72 | a task in front that does not raise moves the first raise one place on |
| Fetcher.ScraperOutput | article_scraper.py:47-80 | what the consumer puts for a task queue; when the queue holds a marker and no task before it raises, the last item put is the consumer's own marker |
| Fetcher.ScraperOutputStep | article_scraper.py:57-80 | a task taken before the first raise that does not raise adds its output after the outputs so far |
| Fetcher.ScraperOutputAtMarker | article_scraper.py:50-55 | at the marker, with no raise so far, the consumer has put every task's output and then its own marker |
| Fetcher.ScraperOutputAtRaise | article_scraper.py:66-72 | at the first raising task the consumer has put the outputs of the tasks before it and nothing more |
| Fetcher.ScraperOutputAtEnd | article_scraper.py:49-50 | when the queue runs out with no marker and no raise, the consumer has put every task's output and is still waiting |
| Fetcher.ScraperOutputCons | article_scraper.py:49-80 | a first task that does not raise puts its output, and the loop goes on with the rest of the queue |
| Fetcher.TasksBeforeRaiseCons | article_scraper.py:49-80 | with a first task that does not raise, the tasks run are that task and then those run on the rest |
| Fetcher.RaisingTaskEndsScraper | article_scraper.py:66-72 | a first task whose routing loop raises ends the consumer with nothing put, not even a marker |
| Fetcher.ArticleScraper.constructor | article_scraper.py:16-21 | after validation passes, the caller's list is converted in place and kept, with every entry holding a function reference |
| Fetcher.NewArticleScraper | article_scraper.py:16-21 | construction raises the validation error and leaves the list alone, or gives a scraper over the converted list |
| Fetcher.ArticleScraper.Consume | article_scraper.py:47-80 | the writer queue is extended by the outputs of the tasks before the marker, in order, up to the first task whose routing loop raises, and by one marker of its own once the marker is taken with no raise; the consumer ends by an exception exactly when some task before the marker raises |
| Fetcher.ArticleScraper.TakeTask | article_scraper.py:57-80 | one pass of the consumer loop over a task: it raises exactly when that task's routing loop raises, and otherwise adds that task's output |
| Fetcher.ArticleScraper.RouteTask | article_scraper.py:57-80 | one task appends what the routing loop decides: nothing without a URL or when a call raises, a marker on cancellation, and the record when the text is not empty; it raises exactly when the routing loop raises |
| Fetcher.ArticleScraper.RouteText | article_scraper.py:64-72 | the routing loop over the kept configuration gives what `ScanRoutes` gives |
| Fetcher.ScanStopPersists | article_scraper.py:68-72 | after a cancellation or another exception the later entries are not tried |
| Fetcher.ForwardedRecords | article_scraper.py:47-80 | every forwarded record carries some task's URL and sentiment and a non-empty text, and there are never more records than tasks |
| Fetcher.Forwarded | article_scraper.py:74-80 | a reference definition of the forwarded records, one per task with a URL and a non-empty text, never more than the tasks |
| Fetcher.OutputsCarryForwarded | article_scraper.py:47-80 | the records on the writer queue are exactly the forwarded ones, in the order their tasks were taken |
| Fetcher.ItemRecord | article_scraper.py:74-80 | a task contributes the record of its URL, sentiment and text exactly when it has a URL and a non-empty text, with `source` gone |
| Fetcher.OutputsWithoutCancellation | article_scraper.py:66-72 | without cancellations the tasks put no marker |
| Fetcher.OneSentinelWithoutCancellation | article_scraper.py:52-55 | without cancellations the writer queue gets exactly one marker if the task queue had one and no scraper call raised, and none otherwise |
| Fetcher.CompleteScraperOutput | article_scraper.py:47-80 | when no call is cancelled or raises and the task queue has a marker, the writer queue gets exactly the forwarded records and then one marker |
| Fetcher.RaisingScraperPutsOnlyRecords | article_scraper.py:66-80 | when a call raises and none is cancelled, the writer queue gets only the records of the tasks before the raising one, and no marker |
| Fetcher.CancelledTaskPutsMarkerFirst | article_scraper.py:70-72 | a cancelled first task puts a marker before anything else, and the loop goes on: everything the rest of the queue gives follows that task's output |
| Fetcher.ExceptionMarkerIsForwarded | article_scraper.py:69-80 | a task whose only matching entry returns the failure text "Exception" is still forwarded with that text |
| Fetcher.UnroutedTaskIsDropped | article_scraper.py:74-76 | a task whose source no entry names is dropped |
| Writer.JoinPath | article_writer.py:17 | the name follows a `/` unless the directory is empty, in which case the path is the name |
| Writer.JoinPathParts | article_writer.py:17 | the joined path starts with the directory and ends with the name |
| Writer.CsvFileLocation | article_writer.py:12-20 | the path the writer picks; its four cases are stated by `CsvFileLocationCases` and `CsvFileLocationNamesDefault` |
| Writer.CsvFileLocationCases | article_writer.py:12-20 | no location gives cwd/articles.csv; an existing directory gives dir/articles.csv; an existing file that is not a directory is used as is; a missing path, or one that is neither, falls back to cwd/articles.csv |
| Writer.CsvFileLocationNamesDefault | article_writer.py:13-20 | unless an existing file was named, the chosen path ends in `articles.csv` |
| Writer.ArticleWriter.constructor | article_writer.py:7-20 | the writer keeps the chosen path, and the file keeps its existing rows |
| Writer.RowOf | article_writer.py:43 | a row holds the record's three values, URL, sentiment and article text |
| Writer.RowsOf | article_writer.py:43 | one row per record, in order; that the file ends with exactly these rows is stated by `RowsOfSnoc`, `WriterWritesEverything` and `WriterHoldsEverything` |
| Writer.RowsOfSnoc | article_writer.py:43 | one more record adds its row at the end |
| Writer.Receive | article_writer.py:38-43 | receiving a record adds its row after everything in the file and buffer, and grows a buffer below 500 by one |
| Writer.Feed | article_writer.py:28-43 | the records taken before the marker, received one after another; stated by `FeedKeepsEverything`, `FeedBounds` and `FeedCounts` |
| Writer.FeedSnoc | article_writer.py:28-43 | receiving one more record is one more step of the loop |
| Writer.Close | article_writer.py:31-34 | at the marker the buffer is written only when it holds rows, and it is left empty with no extra flush |
| Writer.FeedKeepsEverything | article_writer.py:28-43 | the file followed by the buffer holds what it held before and then every record's row, in arrival order |
| Writer.FeedBounds | article_writer.py:38-43 | the buffer never holds more than 500 rows and is not empty after a record; earlier writes are kept; every batch written holds exactly 500 rows and is followed by one flush |
| Writer.FeedCounts | article_writer.py:38-43 | from an empty buffer, `n > 0` records give `(n-1)/500` full batches and leave between 1 and 500 rows buffered |
| Writer.WriterRun | article_writer.py:23-43 | the writer's run on its queue: feed the records before the marker, then close at the marker or wait; stated by `WriterWritesEverything`, `WriterHoldsEverything`, `WriterBatches` and `WriterStopsAtMarker` |
| Writer.WriterWritesEverything | article_writer.py:24-43 | once the marker is taken, the file holds its earlier rows and then one row per record received, in order, with nothing buffered |
| Writer.WriterHoldsEverything | article_writer.py:24-43 | before the marker, the file and the buffer together hold the earlier rows and one row per record received, in order |
| Writer.WriterBatches | article_writer.py:31-43 | with no records nothing is written; otherwise there are `(n-1)/500 + 1` writes, one flush per write except the last, every write but the last holds 500 rows, and the last holds 1 to 500 |
| Writer.WriterStopsAtMarker | article_writer.py:31-36 | items after the first marker are never read |
| Writer.Take | article_writer.py:38-43 | one pass of the loop body is one receive step |
| Writer.WriteRest | article_writer.py:31-34 | the marker branch writes exactly what closing the buffer writes |
| Writer.ArticleWriter.Consume | article_writer.py:23-43 | the file, its writes, its flushes and the buffer end as the writer run says, and the file stays open exactly when no marker arrived |
| SingleScript.VariantWorkList | scrape_gdelt.py:18-20 | the script's work list; which lines it keeps is stated by `VariantWorkListIsOlderHalf` |
| SingleScript.VariantWorkListIsOlderHalf | scrape_gdelt.py:18-20 | slicing the reversed list from `n // 2` keeps the first `n - n//2` manifest lines, newest of them first |
| SingleScript.HalfOfReversal | scrape_gdelt.py:19-20 | the back half of a reversal is the reversal of the front part |
| SingleScript.CapFrom | scrape_gdelt.py:23-24 | the cap position is the first position, from a start, at which the shared list was seen to hold 10 000 or more entries, or the end |
| SingleScript.CapIndexIs | scrape_gdelt.py:23-24 | the first position where the cap is seen is unique |
| SingleScript.Producer | scrape_gdelt.py:14-29 | the producer puts the work items up to the cap and then, if the cap was seen, one marker per worker |
| SingleScript.PutMarkers | scrape_gdelt.py:25-27 | the inner loop puts exactly `cpu_count` markers |
| SingleScript.ProducerOutput | scrape_gdelt.py:14-29 | what the script's producer puts; stated by `ProducerOutputFacts`, `UncappedProducerPutsNoMarker` and `CappedProducerStopsWorker` |
| SingleScript.ProducerOutputFacts | scrape_gdelt.py:23-29 | the producer puts a prefix of the work list, in order, and `cpu_count` markers if it saw the cap, none otherwise |
| SingleScript.UncappedProducerPutsNoMarker | scrape_gdelt.py:23-29 | if the cap is never reached the whole work list is put with no marker, and a worker never stops at a marker |
| SingleScript.CappedProducerStopsWorker | scrape_gdelt.py:24-28 | once the cap is seen and there is a worker, a worker is never left waiting |
| SingleScript.Appended | scrape_gdelt.py:88 | each appended record holds only its task's URL and sentiment, one per task; which tasks there are is stated by `AppendedUrlsMatchSources` and `OneRecordPerMatchingSource` |
| SingleScript.Consumer | scrape_gdelt.py:49-91 | the worker appends one record per task the shared window loop produces over the four sources, and ends as that loop does |
| SingleScript.AppendedUrlsMatchSources | scrape_gdelt.py:85-88 | every appended record's URL contains one of the four sources |
| SingleScript.OneRecordPerMatchingSource | scrape_gdelt.py:85-88 | an English record is appended once per matching source, in the order of the source list |
| SingleScript.CsvRows | scrape_gdelt.py:115 | one row per shared-list entry |
| SingleScript.CsvRowsAppend | scrape_gdelt.py:115 | rows follow the order of the shared list |
| SingleScript.CsvRowsRoundTrip | scrape_gdelt.py:115-120 | each row holds exactly its entry's URL and sentiment, so the entries can be read back |
| Pipeline.WriterGetsEveryRecord | article_scraper.py:47-80 | when no scraper call is cancelled or raises and the task queue has a marker, the CSV file ends up holding its earlier rows and then one row per forwarded record, in task order |
| Pipeline.RaisingScraperLeavesWriterWaiting | article_scraper.py:66-80 | when a scraper call raises and none is cancelled, the writer never gets a marker: it waits with its earlier rows and the rows of the records forwarded before the raise, in order, in its file and buffer |
| Pipeline.CancelledFirstTaskClosesWriter | article_scraper.py:70-72 | a cancelled first task makes the writer close its file without writing a row |

## Left out

- Network I/O: the manifest download, the aiohttp session and requests. A
  fetch result is a parameter: a body, `None` (a client error or timeout
  on the request), or an exception while reading the body.
- Gzip decompression and `yaml.safe_load` are parameters. The model keeps
  only what the code does with their outcomes.
- Multiprocessing, process start, join and terminate, and `cpu_count`,
  which is a parameter. Queues are sequences, with no blocking and no
  backpressure. Several workers sharing one queue are modelled one worker
  at a time, each on the items it takes.
- asyncio: event loops, `gather`, the signal handler, its task
  cancellation and the `add_signal_handler` wiring. A cancellation seen by
  the fetcher is an outcome of the scraper function (`Cancelled`), and so is
  any other exception it raises (`Raised`).
- The `CancelledError` branch of `_create_tasks` (returns `[]`) is not
  modelled, because it happens only under signal-driven cancellation.
- The GDELTScraper constructor's projection of the configuration to its
  source strings is the `sources` parameter; its default manifest URL is
  not modelled.
- The internals of scraper_functions.py: HTML extraction, the Guardian API,
  environment variables and sleeps. The scraper functions are a parameter
  (`Strategies`).
- scrape_urls.py and main.py's process wiring. main.py's configuration is
  used only in `Helpers.MainConfigurationIsValid`.
- `print` logging.
- Sentiment scores are floats and stay opaque values.
- The CSV encoding (quoting, separators, line ends): a row is a sequence of
  cells.
- The shared list in scrape_gdelt.py is changed concurrently by the
  workers. The producer's readings of its length are a parameter, and each
  worker's appends are modelled separately, without interleaving.
- Fetcher.ArticleScraper.Consume: the configuration list is kept as a value
  after conversion. Later changes through another alias of the caller's
  list are not modelled; nothing in the source makes any.
- Writer.ArticleWriter.Consume: requires a writer that has not consumed
  before, since the source runs the consumer once per process.
