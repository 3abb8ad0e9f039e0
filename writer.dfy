/** The CSV writing process (`article_writer.py`).

    The writer chooses the path of its CSV file once, when it is created,
    from an optional location and what the file system says about it. Its
    consumer then drains the writer queue: records are buffered as rows,
    the buffer is written out as a batch (and the file flushed) when a
    record arrives while it already holds 500 rows, and on the end-of-stream
    marker whatever is left is written and the file is closed.

    The file system is a parameter: the working directory and the three
    tests `os.path.exists`, `os.path.isdir` and `os.path.isfile` on a path.
    The file's contents are modelled as the rows it holds; the file is
    opened for appending, so the rows already there are kept. */
module Writer {
  import opened Common

  const DefaultFilename: string := "articles.csv"

  /** A buffer holding this many rows is written out before the next row
      is added. */
  const BatchSize: nat := 500

  /** What the writer can learn about paths. */
  datatype FileSystem = FileSystem(cwd: string, present: string -> bool, isDir: string -> bool, isFile: string -> bool)

  // ---------------------------------------------------------------------
  // Choosing the file

  /** `os.path.join` of a directory and a relative file name: the name is
      appended after a `/`, unless the directory is empty or already ends
      with one. */
  function JoinPath(dir: string, name: string): (path: string)
    requires name != [] && name[0] != '/'
    ensures |path| > |name| ==> path[|path| - |name| - 1] == '/'
    ensures dir == [] ==> path == name
  {
    if dir == [] || dir[|dir| - 1] == '/' then dir + name else dir + ['/'] + name
  }

  /** The joined path starts with the directory and ends with the name. */
  lemma JoinPathParts(dir: string, name: string)
    requires name != [] && name[0] != '/'
    ensures |JoinPath(dir, name)| >= |dir| + |name|
    ensures JoinPath(dir, name)[..|dir|] == dir
    ensures JoinPath(dir, name)[|JoinPath(dir, name)| - |name|..] == name
  {
    var path := JoinPath(dir, name);
    if dir == [] || dir[|dir| - 1] == '/' {
      assert path == dir + name;
    } else {
      assert path == (dir + ['/']) + name;
    }
  }

  /** `_get_csv_file_location`: an existing directory gets `articles.csv`
      inside it, an existing regular file is used as it is, and anything
      else (no location, a missing path, or a path that is neither) falls
      back to `articles.csv` in the working directory. */
  function CsvFileLocation(location: Option<string>, fs: FileSystem): (path: string)
  {
    match location
    case Some(l) =>
      if fs.present(l) && fs.isDir(l) then JoinPath(l, DefaultFilename)
      else if fs.present(l) && fs.isFile(l) then l
      else JoinPath(fs.cwd, DefaultFilename)
    case None => JoinPath(fs.cwd, DefaultFilename)
  }

  /** The location is kept exactly when it names an existing file that is
      not a directory; in every other case the writer uses a file named
      `articles.csv`, inside the given directory when it is one and in the
      working directory otherwise. */
  lemma CsvFileLocationCases(location: Option<string>, fs: FileSystem)
    ensures location.None? ==> CsvFileLocation(location, fs) == JoinPath(fs.cwd, DefaultFilename)
    ensures location.Some? && fs.present(location.value) && fs.isDir(location.value) ==>
              CsvFileLocation(location, fs) == JoinPath(location.value, DefaultFilename)
    ensures location.Some? && fs.present(location.value) && !fs.isDir(location.value) && fs.isFile(location.value) ==>
              CsvFileLocation(location, fs) == location.value
    ensures location.Some? && (!fs.present(location.value) || (!fs.isDir(location.value) && !fs.isFile(location.value))) ==>
              CsvFileLocation(location, fs) == JoinPath(fs.cwd, DefaultFilename)
  {
  }

  /** Unless an existing non-directory file was named, the chosen path
      ends in `articles.csv`. */
  lemma CsvFileLocationNamesDefault(location: Option<string>, fs: FileSystem)
    requires location.None? || !fs.present(location.value) || !fs.isFile(location.value) || fs.isDir(location.value)
    ensures var path := CsvFileLocation(location, fs);
            |path| >= |DefaultFilename| && path[|path| - |DefaultFilename|..] == DefaultFilename
  {
    JoinPathParts(fs.cwd, DefaultFilename);
    if location.Some? {
      JoinPathParts(location.value, DefaultFilename);
    }
  }

  // ---------------------------------------------------------------------
  // Batching

  /** A record as a CSV row: the values of its dictionary in insertion
      order, URL, sentiment and article text. */
  function RowOf(r: ArticleRecord): (row: Row)
    ensures |row| == 3
  {
    [TextCell(r.url), ScoreCell(r.sentiment), TextCell(r.articleText)]
  }

  function RowsOf(recs: seq<ArticleRecord>): (rows: seq<Row>)
    ensures |rows| == |recs|
    ensures forall i :: 0 <= i < |recs| ==> rows[i] == RowOf(recs[i])
  {
    seq(|recs|, i requires 0 <= i < |recs| => RowOf(recs[i]))
  }

  lemma RowsOfSnoc(recs: seq<ArticleRecord>, r: ArticleRecord)
    ensures RowsOf(recs + [r]) == RowsOf(recs) + [RowOf(r)]
  {
    assert RowsOf(recs + [r]) == RowsOf(recs) + [RowOf(r)];
  }

  /** The writer's state: the rows in the file, the size of every
      `writerows` call so far, the number of flushes, and the buffer. */
  datatype Sink = Sink(file: seq<Row>, writes: seq<nat>, flushes: nat, rows: seq<Row>)

  /** One record taken off the queue: a full buffer is written and
      flushed first, then the record's row is buffered. */
  function Receive(s: Sink, r: ArticleRecord): (s': Sink)
    ensures s'.file + s'.rows == s.file + s.rows + [RowOf(r)]
    ensures |s.rows| < BatchSize ==> |s'.rows| == |s.rows| + 1
  {
    if |s.rows| >= BatchSize then Sink(s.file + s.rows, s.writes + [|s.rows|], s.flushes + 1, [RowOf(r)])
    else s.(rows := s.rows + [RowOf(r)])
  }

  /** The records taken off the queue, one after the other. */
  function Feed(s: Sink, recs: seq<ArticleRecord>): Sink
  {
    if recs == [] then s else Receive(Feed(s, recs[..|recs| - 1]), recs[|recs| - 1])
  }

  lemma FeedSnoc(s: Sink, recs: seq<ArticleRecord>, r: ArticleRecord)
    ensures Feed(s, recs + [r]) == Receive(Feed(s, recs), r)
  {
    assert (recs + [r])[..|recs|] == recs;
  }

  /** On the marker: the buffer is written only when it holds rows; closing
      the file needs no flush of its own. */
  function Close(s: Sink): (c: Sink)
    ensures c.rows == [] && c.file == s.file + s.rows && c.flushes == s.flushes
    ensures |s.rows| > 0 ==> c.writes == s.writes + [|s.rows|]
    ensures |s.rows| == 0 ==> c.writes == s.writes
  {
    if |s.rows| > 0 then Sink(s.file + s.rows, s.writes + [|s.rows|], s.flushes, []) else s
  }

  /** Nothing received is lost or reordered: the file followed by the
      buffer holds what it held before and then every record's row, in the
      order the records arrived. */
  lemma {:induction false} FeedKeepsEverything(s: Sink, recs: seq<ArticleRecord>)
    ensures Feed(s, recs).file + Feed(s, recs).rows == s.file + s.rows + RowsOf(recs)
  {
    if recs != [] {
      var p := recs[..|recs| - 1];
      var r := recs[|recs| - 1];
      FeedKeepsEverything(s, p);
      RowsOfSnoc(p, r);
      assert p + [r] == recs;
      AppendAssoc(s.file + s.rows, RowsOf(p), [RowOf(r)]);
    }
  }

  /** A buffer that never exceeds 500 rows keeps that bound; every batch
      written on the way holds exactly 500 rows and is followed by one
      flush; and after at least one record the buffer is not empty. */
  lemma {:induction false} FeedBounds(s: Sink, recs: seq<ArticleRecord>)
    requires |s.rows| <= BatchSize
    ensures var s' := Feed(s, recs);
      |s'.rows| <= BatchSize &&
      (recs != [] ==> |s'.rows| >= 1) &&
      |s'.writes| >= |s.writes| && s'.writes[..|s.writes|] == s.writes &&
      (forall k :: |s.writes| <= k < |s'.writes| ==> s'.writes[k] == BatchSize) &&
      s'.flushes - s.flushes == |s'.writes| - |s.writes|
  {
    if recs != [] {
      var p := recs[..|recs| - 1];
      FeedBounds(s, p);
      var t := Feed(s, p);
      if |t.rows| >= BatchSize {
        assert (t.writes + [|t.rows|])[..|s.writes|] == t.writes[..|s.writes|];
      }
    }
  }

  /** Counting from an empty buffer: after `n > 0` records the writer has
      written `(n - 1) / 500` full batches and buffers the rest, between 1
      and 500 rows. */
  lemma {:induction false} FeedCounts(s: Sink, recs: seq<ArticleRecord>)
    requires s.rows == []
    ensures recs == [] ==> Feed(s, recs) == s
    ensures recs != [] ==>
              |Feed(s, recs).writes| - |s.writes| == (|recs| - 1) / BatchSize &&
              |Feed(s, recs).rows| == |recs| - BatchSize * ((|recs| - 1) / BatchSize)
  {
    if recs != [] {
      var p := recs[..|recs| - 1];
      var n := |recs|;
      FeedCounts(s, p);
      var t := Feed(s, p);
      if p == [] {
        assert t == s;
      } else {
        var w := (n - 2) / BatchSize;
        if |t.rows| >= BatchSize {
          assert n - 1 == BatchSize * w + BatchSize;
          assert (n - 1) / BatchSize == w + 1;
        } else {
          assert n - 1 == BatchSize * w + |t.rows|;
          assert (n - 1) / BatchSize == w;
        }
      }
    }
  }

  /** How the consumer's run ends: closed after the marker, or waiting on
      an empty queue with its buffer not yet written. */
  datatype WriterEnd = Closed(sink: Sink) | Waiting(sink: Sink)

  /** What `_consumer` does with the items on its queue, starting from the
      file's existing rows: every record before the first marker is
      received in order; at the marker the rest is written and the file is
      closed, and anything after the marker is never read. */
  function WriterRun(input: seq<Item<ArticleRecord>>, existing: seq<Row>): WriterEnd
  {
    var s := Feed(Sink(existing, [], 0, []), DataBeforeSentinel(input));
    if EndOfStream in input then Closed(Close(s)) else Waiting(s)
  }

  /** Once the marker has been taken, the file holds its earlier rows and
      then the row of every record received, in order, and nothing is
      left buffered. */
  lemma WriterWritesEverything(input: seq<Item<ArticleRecord>>, existing: seq<Row>)
    requires EndOfStream in input
    ensures WriterRun(input, existing).Closed?
    ensures WriterRun(input, existing).sink.file == existing + RowsOf(DataBeforeSentinel(input))
    ensures WriterRun(input, existing).sink.rows == []
  {
    var start := Sink(existing, [], 0, []);
    var d := DataBeforeSentinel(input);
    FeedKeepsEverything(start, d);
    assert start.file + start.rows == existing;
    assert WriterRun(input, existing) == Closed(Close(Feed(start, d)));
  }

  /** Before the marker arrives, the file and the buffer together hold
      the earlier rows and every record received, in order. */
  lemma WriterHoldsEverything(input: seq<Item<ArticleRecord>>, existing: seq<Row>)
    requires EndOfStream !in input
    ensures WriterRun(input, existing).Waiting?
    ensures WriterRun(input, existing).sink.file + WriterRun(input, existing).sink.rows ==
            existing + RowsOf(DataBeforeSentinel(input))
  {
    var start := Sink(existing, [], 0, []);
    var d := DataBeforeSentinel(input);
    FeedKeepsEverything(start, d);
    assert start.file + start.rows == existing;
    assert WriterRun(input, existing) == Waiting(Feed(start, d));
  }

  /** Every batch written before the marker holds 500 rows and is flushed;
      the one written at the marker holds the 1 to 500 rows that are
      left, and there is none when nothing was received. */
  lemma WriterBatches(input: seq<Item<ArticleRecord>>, existing: seq<Row>)
    requires EndOfStream in input
    ensures var c := WriterRun(input, existing).sink;
      var n := |DataBeforeSentinel(input)|;
      (n == 0 ==> c.writes == [] && c.flushes == 0) &&
      (n > 0 ==>
        |c.writes| == (n - 1) / BatchSize + 1 &&
        c.flushes == |c.writes| - 1 &&
        (forall k :: 0 <= k < |c.writes| - 1 ==> c.writes[k] == BatchSize) &&
        1 <= c.writes[|c.writes| - 1] <= BatchSize)
  {
    var start := Sink(existing, [], 0, []);
    var d := DataBeforeSentinel(input);
    FeedBounds(start, d);
    FeedCounts(start, d);
  }

  /** Items after the first marker are never read. */
  lemma WriterStopsAtMarker(recs: seq<ArticleRecord>, after: seq<Item<ArticleRecord>>, existing: seq<Row>)
    ensures WriterRun(DataItems(recs) + [EndOfStream] + after, existing) ==
            WriterRun(DataItems(recs) + [EndOfStream], existing)
  {
    DataBeforeSentinelOfStream(recs, after);
    DataBeforeSentinelOfStream(recs, []);
    assert DataItems(recs) + [EndOfStream] + [] == DataItems(recs) + [EndOfStream];
    assert (DataItems(recs) + [EndOfStream] + after)[|recs|] == EndOfStream;
    assert (DataItems(recs) + [EndOfStream])[|recs|] == EndOfStream;
  }

  // ---------------------------------------------------------------------
  // The writer process

  /** One record taken in `_consumer`'s loop: a full buffer is written
      and flushed before the record's row is buffered. */
  method Take(file: seq<Row>, writes: seq<nat>, flushes: nat, rows: seq<Row>, r: ArticleRecord)
    returns (file': seq<Row>, writes': seq<nat>, flushes': nat, rows': seq<Row>)
    ensures Sink(file', writes', flushes', rows') == Receive(Sink(file, writes, flushes, rows), r)
  {
    file', writes', flushes', rows' := file, writes, flushes, rows;
    if |rows'| >= BatchSize {
      file' := file' + rows';
      writes' := writes' + [|rows'|];
      rows' := [];
      flushes' := flushes' + 1;
    }
    rows' := rows' + [RowOf(r)];
  }

  /** The marker in `_consumer`: the rows still buffered are written,
      if there are any. */
  method WriteRest(file: seq<Row>, writes: seq<nat>, rows: seq<Row>) returns (file': seq<Row>, writes': seq<nat>)
    ensures forall n :: Sink(file', writes', n, []) == Close(Sink(file, writes, n, rows))
  {
    file', writes' := file, writes;
    if |rows| > 0 {
      file' := file + rows;
      writes' := writes + [|rows|];
    }
  }

  /** The writer: the path chosen at creation, the rows in that file, the
      sizes of the writes made to it, its flushes, and whether it is open. */
  class ArticleWriter {
    const csvFileLocation: string
    var file: seq<Row>
    var writes: seq<nat>
    var flushes: nat
    var isOpen: bool

    /** `__init__`: only the location is chosen; `existing` is what the
        file at that path already holds (nothing when it does not exist). */
    constructor(location: Option<string>, fs: FileSystem, existing: seq<Row>)
      ensures csvFileLocation == CsvFileLocation(location, fs)
      ensures file == existing && writes == [] && flushes == 0 && !isOpen
    {
      var path: string;
      if location.Some? && fs.present(location.value) && fs.isDir(location.value) {
        path := JoinPath(location.value, DefaultFilename);
      } else if location.Some? && fs.present(location.value) && fs.isFile(location.value) {
        path := location.value;
      } else {
        path := JoinPath(fs.cwd, DefaultFilename);
      }
      csvFileLocation := path;
      file := existing;
      writes := [];
      flushes := 0;
      isOpen := false;
    }

    /** `_consumer`: open the file for appending, then take items until
        the marker. Returns the rows still buffered if the queue runs dry
        before a marker arrives. */
    method Consume(input: seq<Item<ArticleRecord>>) returns (pending: seq<Row>)
      requires writes == [] && flushes == 0
      modifies this
      ensures Sink(file, writes, flushes, pending) == WriterRun(input, old(file)).sink
      ensures isOpen == WriterRun(input, old(file)).Waiting?
    {
      ghost var d := DataBeforeSentinel(input);
      ghost var start := Sink(file, [], 0, []);
      isOpen := true;
      var f, w, n, rows := file, writes, flushes, [];
      SentinelIffShortPrefix(input);
      var i := 0;
      while i < |input|
        invariant 0 <= i <= |input| && i <= |d|
        invariant isOpen
        invariant Sink(f, w, n, rows) == Feed(start, d[..i])
      {
        match input[i] {
          case EndOfStream =>
            assert |d| == i && d[..i] == d;
            f, w := WriteRest(f, w, rows);
            file, writes, flushes, isOpen := f, w, n, false;
            return [];
          case Data(r) =>
            DataBeforeSentinelStep(input, i);
            FeedSnoc(start, d[..i], r);
            f, w, n, rows := Take(f, w, n, rows, r);
            i := i + 1;
        }
      }
      assert |d| == i && d[..i] == d;
      file, writes, flushes, pending := f, w, n, rows;
    }
  }
}
