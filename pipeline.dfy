/** The fetching and writing stages joined by the writer queue: what the
    article scraper puts is what the article writer takes. */
module Pipeline {
  import opened Common
  import opened Fetcher
  import opened Writer

  /** Without cancellations or raising scraper calls, and once the task
      queue has delivered its marker, the CSV file ends up holding its
      earlier rows followed by one row per forwarded record, in the order
      the tasks were taken. */
  lemma WriterGetsEveryRecord(input: seq<Item<QueuedTask>>, route: Router, existing: seq<Row>)
    requires NeverCancelled(DataBeforeSentinel(input), route) && NeverRaises(DataBeforeSentinel(input), route)
    requires EndOfStream in input
    ensures var recs := DataOf(Outputs(DataBeforeSentinel(input), route));
      WriterRun(ScraperOutput(input, route), existing).Closed? &&
      WriterRun(ScraperOutput(input, route), existing).sink.file == existing + RowsOf(recs)
  {
    var recs := DataOf(Outputs(DataBeforeSentinel(input), route));
    var q := ScraperOutput(input, route);
    CompleteScraperOutput(input, route);
    assert q == DataItems(recs) + [EndOfStream] + [];
    DataBeforeSentinelOfStream(recs, []);
    WriterWritesEverything(q, existing);
  }

  /** When a scraper call raises (and none is cancelled), the scraper ends
      without ever putting a marker: the writer never closes its file and
      holds, written or buffered, the rows of the records forwarded before
      that task. */
  lemma RaisingScraperLeavesWriterWaiting(input: seq<Item<QueuedTask>>, route: Router, existing: seq<Row>)
    requires NeverCancelled(DataBeforeSentinel(input), route) && !NeverRaises(DataBeforeSentinel(input), route)
    ensures var d := DataBeforeSentinel(input);
      var recs := DataOf(Outputs(d[..FirstRaise(d, route)], route));
      var w := WriterRun(ScraperOutput(input, route), existing);
      w.Waiting? && w.sink.file + w.sink.rows == existing + RowsOf(recs)
  {
    var d := DataBeforeSentinel(input);
    var recs := DataOf(Outputs(d[..FirstRaise(d, route)], route));
    var q := ScraperOutput(input, route);
    RaisingScraperPutsOnlyRecords(input, route);
    CountSentinelsOfData(recs);
    DataBeforeSentinelOfData(recs);
    WriterHoldsEverything(q, existing);
  }

  /** A cancelled first task makes the scraper put a marker before anything
      else, so the writer closes its file without writing a row, although
      the scraper goes on with the remaining tasks. */
  lemma CancelledFirstTaskClosesWriter(task: QueuedTask, rest: seq<Item<QueuedTask>>, route: Router, existing: seq<Row>)
    requires CancelledOn(task, route)
    ensures WriterRun(ScraperOutput([Data(task)] + rest, route), existing) == Closed(Sink(existing, [], 0, []))
  {
    var q := ScraperOutput([Data(task)] + rest, route);
    CancelledTaskPutsMarkerFirst(task, rest, route);
    assert DataBeforeSentinel(q) == [];
    assert EndOfStream in q;
  }
}
