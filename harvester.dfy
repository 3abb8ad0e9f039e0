/** The harvesting stage (gdelt_scraper.py): a producer turns the manifest
    into a work list of batch-file URLs; each worker gathers URLs into
    windows of ten, fetches a window's payloads, decompresses them, decodes
    each line into a record and puts a task on the cross-stage queue for
    every English record whose URL contains a configured source.

    Fetching, gzip decompression and YAML decoding are parameters (`Env`).
    What the Python code does with their outcomes is modelled: an empty
    payload, an empty line and a line that raises `ReaderError` are skipped;
    anything the code does not catch (an exception escaping a fetch, which
    fails the whole window, a failed fetch reaching `len(None)`, a payload
    that does not decompress, any other decoding failure) ends the worker
    with a `Crash`. */
module Harvester {
  import opened Common

  /** URLs a worker accumulates before it fetches them together. */
  const WindowSize: nat := 10

  /** The fields of a decoded batch line that the extractor reads. */
  datatype BatchRecord = BatchRecord(lang: Option<string>, url: Option<string>, score: Sentiment)

  /** What `yaml.safe_load` does with one line: a record, the `ReaderError`
      the worker catches, or any other outcome the worker does not survive
      (another exception, or a value that is not a mapping). */
  datatype LoadResult = Loaded(record: BatchRecord) | ReaderError | LoadError

  /** What `_get_data` does for one URL: returns the body it read, returns
      `None` after a client error or a timeout of the request, or raises
      (the body read and any other exception are outside its `try`). */
  datatype Response = Body(payload: Bytes) | NoBody | FetchRaised

  /** The library calls the worker makes. */
  datatype Env = Env(
    fetch: string -> Response,
    decompress: Bytes -> Option<string>,
    load: string -> LoadResult)

  /** The uncaught exceptions that end a worker process. */
  datatype Crash =
    | WindowFailed                     // an exception escaped `_get_data` and `gather`
    | FetchFailed(url: string)        // `len(None)` on a failed fetch
    | UndecodablePayload               // `decompress(...).decode("utf-8")` raised
    | UnloadableLine(line: string)     // `safe_load` failed otherwise, or gave a non-mapping
    | UrlNotText                       // `news_source in None` for an English record without url

  /** The tasks a piece of work puts on the cross-stage queue, in order, and
      the exception that stopped it, if any. */
  datatype Trace = Trace(puts: seq<ScrapeTask>, crash: Option<Crash>)

  const Quiet := Trace([], None)

  /** Running `a`, then `b` unless `a` raised. */
  function Then(a: Trace, b: Trace): Trace
  {
    if a.crash.Some? then a else Trace(a.puts + b.puts, b.crash)
  }

  /** Running the pieces of work in order. */
  function Concat(ts: seq<Trace>): Trace
  {
    if ts == [] then Quiet else Then(Concat(ts[..|ts| - 1]), ts[|ts| - 1])
  }

  lemma ThenAssociative(a: Trace, b: Trace, c: Trace)
    ensures Then(Then(a, b), c) == Then(a, Then(b, c))
  {
  }

  lemma ConcatExtend(ts: seq<Trace>, k: nat)
    requires k < |ts|
    ensures Concat(ts[..k + 1]) == Then(Concat(ts[..k]), ts[k])
  {
    assert ts[..k + 1][..k] == ts[..k];
  }

  /** Running two lists of work one after the other. */
  lemma {:induction false} ConcatAppend(a: seq<Trace>, b: seq<Trace>)
    ensures Concat(a + b) == Then(Concat(a), Concat(b))
  {
    if b == [] {
      assert a + b == a;
    } else {
      assert (a + b)[..|a + b| - 1] == a + b[..|b| - 1];
      ConcatAppend(a, b[..|b| - 1]);
      ThenAssociative(Concat(a), Concat(b[..|b| - 1]), b[|b| - 1]);
    }
  }

  /** Once a piece of work raises, nothing after it runs. */
  lemma {:induction false} ConcatCrashPersists(ts: seq<Trace>, k: nat)
    requires k <= |ts|
    requires Concat(ts[..k]).crash.Some?
    ensures Concat(ts) == Concat(ts[..k])
    decreases |ts| - k
  {
    if k < |ts| {
      ConcatExtend(ts, k);
      ConcatCrashPersists(ts, k + 1);
    } else {
      assert ts[..k] == ts;
    }
  }

  // ---------------------------------------------------------------------
  // Producer

  /** The work list `_producer` builds: the non-empty lines of the manifest,
      newest (last) first. */
  function ManifestWorkList(manifest: string): (urls: seq<string>)
  {
    Reverse(NonEmpty(Split(manifest, '\n')))
  }

  /** The work items are exactly the manifest's non-empty lines. */
  lemma ManifestWorkListLines(manifest: string)
    ensures forall u :: u in ManifestWorkList(manifest) <==> u in Split(manifest, '\n') && u != ""
    ensures forall u :: u in ManifestWorkList(manifest) ==> '\n' !in u
  {
    var lines := NonEmpty(Split(manifest, '\n'));
    forall u ensures u in ManifestWorkList(manifest) <==> u in lines {
      ReverseMembers(lines, u);
    }
  }

  /** Lines appended to the manifest come first in the work list. */
  lemma ManifestWorkListAppend(older: string, newer: string)
    ensures ManifestWorkList(older + ['\n'] + newer) == ManifestWorkList(newer) + ManifestWorkList(older)
  {
    SplitAppend(older, newer, '\n');
    NonEmptyAppend(Split(older, '\n'), Split(newer, '\n'));
    ReverseAppend(NonEmpty(Split(older, '\n')), NonEmpty(Split(newer, '\n')));
  }

  /** A single line is a work item exactly when it is not empty. */
  lemma ManifestWorkListLine(line: string)
    requires '\n' !in line
    ensures ManifestWorkList(line) == if line == "" then [] else [line]
  {
    SplitNoSep(line, '\n');
    assert NonEmpty([line]) == NonEmpty([][..0]) + (if line == "" then [] else [line]);
  }

  /** `_producer`: puts each work item on the internal queue, in order, and
      nothing else: no end-of-stream marker follows the last one. */
  method Producer(manifest: string) returns (queue: seq<Item<string>>)
    ensures queue == DataItems(ManifestWorkList(manifest))
    ensures CountSentinels(queue) == 0
  {
    var urls := ManifestWorkList(manifest);
    queue := PutAll(urls);
    CountSentinelsOfData(urls);
  }

  /** The producer's `put` loop over the work list. */
  method PutAll(urls: seq<string>) returns (queue: seq<Item<string>>)
    ensures queue == DataItems(urls)
  {
    queue := [];
    for i := 0 to |urls|
      invariant queue == DataItems(urls[..i])
    {
      assert urls[..i + 1] == urls[..i] + [urls[i]];
      DataItemsSnoc(urls[..i], urls[i]);
      queue := queue + [Data(urls[i])];
    }
    assert urls[..|urls|] == urls;
  }

  // ---------------------------------------------------------------------
  // Extraction

  /** The configured sources that occur in `url`, in configured order. */
  function MatchingSources(url: string, sources: seq<string>): (m: seq<string>)
    ensures |m| <= |sources|
    ensures forall s :: s in m <==> s in sources && Contains(url, s)
  {
    if sources == [] then []
    else
      var last := sources[|sources| - 1];
      MatchingSources(url, sources[..|sources| - 1]) + (if Contains(url, last) then [last] else [])
  }

  /** Matching keeps configured order: the matches of a concatenation are
      the matches of each part, one after the other. */
  lemma {:induction false} MatchingSourcesAppend(url: string, a: seq<string>, b: seq<string>)
    ensures MatchingSources(url, a + b) == MatchingSources(url, a) + MatchingSources(url, b)
  {
    if b == [] {
      assert a + b == a;
    } else {
      var init, last := b[..|b| - 1], b[|b| - 1];
      var tail := if Contains(url, last) then [last] else [];
      assert (a + b)[..|a + b| - 1] == a + init && (a + b)[|a + b| - 1] == last;
      assert MatchingSources(url, a + b) == MatchingSources(url, a + init) + tail;
      MatchingSourcesAppend(url, a, init);
      assert MatchingSources(url, b) == MatchingSources(url, init) + tail;
      AppendAssoc(MatchingSources(url, a), MatchingSources(url, init), tail);
    }
  }

  /** A task every configured source would accept: its source is one of
      them and occurs in its URL. */
  predicate ValidTask(t: ScrapeTask, sources: seq<string>)
  {
    t.source in sources && Contains(t.url, t.source)
  }

  predicate ValidTrace(t: Trace, sources: seq<string>)
  {
    forall i :: 0 <= i < |t.puts| ==> ValidTask(t.puts[i], sources)
  }

  /** `gdelt_extractor`: for an English record, one task per configured
      source that occurs in its URL, in configured order, each carrying the
      record's URL and score; nothing for any other record. */
  function GdeltExtractor(ar: BatchRecord, sources: seq<string>): (t: Trace)
    ensures ar.lang != Some("en") ==> t == Quiet
    ensures t.crash.Some? <==> ar.lang == Some("en") && ar.url.None? && sources != []
    ensures ValidTrace(t, sources)
    ensures forall i :: 0 <= i < |t.puts| ==> ar.url == Some(t.puts[i].url) && t.puts[i].sentiment == ar.score
    ensures ar.lang == Some("en") && ar.url.Some? ==>
              |t.puts| == |MatchingSources(ar.url.value, sources)| &&
              forall i :: 0 <= i < |t.puts| ==> t.puts[i].source == MatchingSources(ar.url.value, sources)[i]
  {
    if ar.lang != Some("en") then Quiet
    else match ar.url
      case None => if sources == [] then Quiet else Trace([], Some(UrlNotText))
      case Some(u) =>
        var m := MatchingSources(u, sources);
        Trace(seq(|m|, i requires 0 <= i < |m| => ScrapeTask(u, ar.score, m[i])), None)
  }

  // ---------------------------------------------------------------------
  // One window

  /** One line of a decompressed payload. */
  function LineTrace(line: string, env: Env, sources: seq<string>): Trace
  {
    if line == "" then Quiet
    else match env.load(line)
      case ReaderError => Quiet
      case LoadError => Trace([], Some(UnloadableLine(line)))
      case Loaded(ar) => GdeltExtractor(ar, sources)
  }

  function LineTraces(lines: seq<string>, env: Env, sources: seq<string>): (ts: seq<Trace>)
    ensures |ts| == |lines|
    ensures forall i :: 0 <= i < |lines| ==> ts[i] == LineTrace(lines[i], env, sources)
  {
    seq(|lines|, i requires 0 <= i < |lines| => LineTrace(lines[i], env, sources))
  }

  lemma LineTracesAppend(x: seq<string>, y: seq<string>, env: Env, sources: seq<string>)
    ensures LineTraces(x + y, env, sources) == LineTraces(x, env, sources) + LineTraces(y, env, sources)
  {
    var xy, lx, ly := LineTraces(x + y, env, sources), LineTraces(x, env, sources), LineTraces(y, env, sources);
    forall k | 0 <= k < |xy| ensures xy[k] == (lx + ly)[k] {
      if k < |x| {
        assert (x + y)[k] == x[k];
      } else {
        assert (x + y)[k] == y[k - |x|];
      }
    }
    assert xy == lx + ly;
  }

  /** One gathered result: `None` reaches `len(None)` and raises; an empty
      payload is skipped; otherwise every line is handled in order. (A
      raising fetch never yields a result: the window fails before.) */
  function PayloadTrace(url: string, response: Response, env: Env, sources: seq<string>): Trace
  {
    match response
    case FetchRaised => Trace([], Some(WindowFailed))
    case NoBody => Trace([], Some(FetchFailed(url)))
    case Body(payload) =>
      if |payload| == 0 then Quiet
      else match env.decompress(payload)
        case None => Trace([], Some(UndecodablePayload))
        case Some(text) => Concat(LineTraces(Split(text, '\n'), env, sources))
  }

  function PayloadTraces(urls: seq<string>, env: Env, sources: seq<string>): (ts: seq<Trace>)
    ensures |ts| == |urls|
    ensures forall i :: 0 <= i < |urls| ==> ts[i] == PayloadTrace(urls[i], env.fetch(urls[i]), env, sources)
  {
    seq(|urls|, i requires 0 <= i < |urls| => PayloadTrace(urls[i], env.fetch(urls[i]), env, sources))
  }

  lemma PayloadTracesAppend(x: seq<string>, y: seq<string>, env: Env, sources: seq<string>)
    ensures PayloadTraces(x + y, env, sources) == PayloadTraces(x, env, sources) + PayloadTraces(y, env, sources)
  {
    var xy, px, py := PayloadTraces(x + y, env, sources), PayloadTraces(x, env, sources), PayloadTraces(y, env, sources);
    forall k | 0 <= k < |xy| ensures xy[k] == (px + py)[k] {
      if k < |x| {
        assert (x + y)[k] == x[k];
      } else {
        assert (x + y)[k] == y[k - |x|];
      }
    }
    assert xy == px + py;
  }

  /** Some fetch of the window raises: `gather` re-raises it and the
      window's results are never handled. */
  predicate WindowRaises(urls: seq<string>, env: Env)
  {
    exists i :: 0 <= i < |urls| && env.fetch(urls[i]).FetchRaised?
  }

  /** Everything one window of URLs puts on the queue. */
  function WindowTrace(urls: seq<string>, env: Env, sources: seq<string>): Trace
  {
    if WindowRaises(urls, env) then Trace([], Some(WindowFailed))
    else Concat(PayloadTraces(urls, env, sources))
  }

  /** Runs one window: fetch every URL (the gathered results keep the
      URLs' order; a raising fetch fails the window), then handle the
      payloads in order. */
  method ProcessWindow(urls: seq<string>, env: Env, sources: seq<string>) returns (t: Trace)
    ensures t == WindowTrace(urls, env, sources)
  {
    var results := seq(|urls|, i requires 0 <= i < |urls| => env.fetch(urls[i]));
    if exists i :: 0 <= i < |results| && results[i].FetchRaised? {
      return Trace([], Some(WindowFailed));
    }
    assert !WindowRaises(urls, env) by {
      assert forall i :: 0 <= i < |urls| ==> results[i] == env.fetch(urls[i]);
    }
    ghost var payloads := PayloadTraces(urls, env, sources);
    var puts: seq<ScrapeTask> := [];
    var i := 0;
    while i < |results|
      invariant 0 <= i <= |results| == |urls|
      invariant Concat(payloads[..i]) == Trace(puts, None)
    {
      ConcatExtend(payloads, i);
      var p := ProcessPayload(urls[i], results[i], env, sources);
      if p.crash.Some? {
        t := Trace(puts + p.puts, p.crash);
        ConcatCrashPersists(payloads, i + 1);
        return;
      }
      puts := puts + p.puts;
      i := i + 1;
    }
    assert payloads[..|urls|] == payloads;
    t := Trace(puts, None);
  }

  /** Handles one gathered result: `len(None)` raises on a failed fetch,
      an empty payload is skipped, and otherwise each line of the
      decompressed text is skipped, decoded and extracted in order. */
  method ProcessPayload(url: string, response: Response, env: Env, sources: seq<string>) returns (t: Trace)
    ensures t == PayloadTrace(url, response, env, sources)
  {
    if response.FetchRaised? {
      return Trace([], Some(WindowFailed));
    }
    if response.NoBody? {
      return Trace([], Some(FetchFailed(url)));
    }
    var payload := response.payload;
    if |payload| == 0 {
      return Quiet;
    }
    var text := env.decompress(payload);
    if text.None? {
      return Trace([], Some(UndecodablePayload));
    }
    var articles := Split(text.value, '\n');
    ghost var lines := LineTraces(articles, env, sources);
    var puts: seq<ScrapeTask> := [];
    var j := 0;
    while j < |articles|
      invariant 0 <= j <= |articles|
      invariant Concat(lines[..j]) == Trace(puts, None)
    {
      ConcatExtend(lines, j);
      var article := articles[j];
      if article != "" {
        match env.load(article) {
          case ReaderError =>
          case LoadError =>
            t := Trace(puts, Some(UnloadableLine(article)));
            ConcatCrashPersists(lines, j + 1);
            return;
          case Loaded(ar) =>
            var found := GdeltExtractor(ar, sources);
            if found.crash.Some? {
              t := Trace(puts, found.crash);
              ConcatCrashPersists(lines, j + 1);
              return;
            }
            puts := puts + found.puts;
        }
      }
      j := j + 1;
    }
    assert lines[..|articles|] == lines;
    t := Trace(puts, None);
  }

  /** A piece of work that puts nothing and raises nothing can be left out. */
  lemma ConcatDropQuiet(a: seq<Trace>, b: seq<Trace>)
    ensures Concat(a + [Quiet] + b) == Concat(a + b)
  {
    ConcatAppend(a + [Quiet], b);
    assert (a + [Quiet])[..|a|] == a;
    ConcatExtend(a + [Quiet], |a|);
    ConcatAppend(a, b);
  }

  /** Removing a URL whose fetch does not raise leaves whether the window
      raises unchanged. */
  lemma WindowRaisesSkip(before: seq<string>, url: string, after: seq<string>, env: Env)
    requires !env.fetch(url).FetchRaised?
    ensures WindowRaises(before + [url] + after, env) <==> WindowRaises(before + after, env)
  {
    var x, y := before + [url] + after, before + after;
    if WindowRaises(x, env) {
      var i :| 0 <= i < |x| && env.fetch(x[i]).FetchRaised?;
      if i < |before| {
        assert y[i] == x[i];
      } else {
        assert y[i - 1] == x[i];
      }
    }
    if WindowRaises(y, env) {
      var i :| 0 <= i < |y| && env.fetch(y[i]).FetchRaised?;
      if i < |before| {
        assert x[i] == y[i];
      } else {
        assert x[i + 1] == y[i];
      }
    }
  }

  /** An empty payload in a window changes nothing: the window puts what
      it would have put without that URL. */
  lemma EmptyPayloadIsSkipped(before: seq<string>, url: string, after: seq<string>, env: Env, sources: seq<string>)
    requires env.fetch(url) == Body([])
    ensures WindowTrace(before + [url] + after, env, sources) == WindowTrace(before + after, env, sources)
  {
    WindowRaisesSkip(before, url, after, env);
    var a, b := PayloadTraces(before, env, sources), PayloadTraces(after, env, sources);
    PayloadTracesAppend(before + [url], after, env, sources);
    PayloadTracesAppend(before, [url], env, sources);
    PayloadTracesAppend(before, after, env, sources);
    assert PayloadTraces([url], env, sources) == [Quiet];
    ConcatDropQuiet(a, b);
  }

  /** An empty line, or one that raises `ReaderError`, changes nothing: the
      payload puts what it would have put without that line. */
  lemma SkippedLineIsSkipped(before: seq<string>, line: string, after: seq<string>, env: Env, sources: seq<string>)
    requires line == "" || env.load(line) == ReaderError
    ensures Concat(LineTraces(before + [line] + after, env, sources)) ==
            Concat(LineTraces(before + after, env, sources))
  {
    var a, b := LineTraces(before, env, sources), LineTraces(after, env, sources);
    LineTracesAppend(before + [line], after, env, sources);
    LineTracesAppend(before, [line], env, sources);
    LineTracesAppend(before, after, env, sources);
    assert LineTraces([line], env, sources) == [Quiet];
    ConcatDropQuiet(a, b);
  }

  // ---------------------------------------------------------------------
  // A worker

  /** Running the full windows of a URL list, in order: the first ten URLs,
      then the next ten, and so on. A tail shorter than a window is never run. */
  function RunWindows(urls: seq<string>, env: Env, sources: seq<string>): Trace
    decreases |urls|
  {
    if |urls| < WindowSize then Quiet
    else Then(WindowTrace(urls[..WindowSize], env, sources), RunWindows(urls[WindowSize..], env, sources))
  }

  /** What is left of a URL list after its full windows. */
  function Leftover(urls: seq<string>): (rest: seq<string>)
    ensures |rest| < WindowSize
    ensures |urls| % WindowSize == |rest|
    decreases |urls|
  {
    if |urls| < WindowSize then urls else Leftover(urls[WindowSize..])
  }

  /** Running one more full window after the ones already run. */
  lemma {:induction false} RunWindowsAppend(done: seq<string>, w: seq<string>, env: Env, sources: seq<string>)
    requires |done| % WindowSize == 0 && |w| == WindowSize
    ensures RunWindows(done + w, env, sources) ==
            Then(RunWindows(done, env, sources), WindowTrace(w, env, sources))
    decreases |done|
  {
    if done == [] {
      assert done + w == w && w[..WindowSize] == w && w[WindowSize..] == [];
    } else {
      assert (done + w)[..WindowSize] == done[..WindowSize];
      assert (done + w)[WindowSize..] == done[WindowSize..] + w;
      RunWindowsAppend(done[WindowSize..], w, env, sources);
      ThenAssociative(WindowTrace(done[..WindowSize], env, sources),
                      RunWindows(done[WindowSize..], env, sources), WindowTrace(w, env, sources));
    }
  }

  /** A tail shorter than a window adds nothing to run and is all that is
      left over. */
  lemma {:induction false} RunWindowsPartial(done: seq<string>, partial: seq<string>, env: Env, sources: seq<string>)
    requires |done| % WindowSize == 0 && |partial| < WindowSize
    ensures RunWindows(done + partial, env, sources) == RunWindows(done, env, sources)
    ensures Leftover(done + partial) == partial
    decreases |done|
  {
    if done == [] {
      assert done + partial == partial;
    } else {
      assert (done + partial)[..WindowSize] == done[..WindowSize];
      assert (done + partial)[WindowSize..] == done[WindowSize..] + partial;
      RunWindowsPartial(done[WindowSize..], partial, env, sources);
    }
  }

  /** Running a whole number of windows, then the rest, is running the
      windows of the two lists in order: once a window raises, the windows
      after it are never run. */
  lemma {:induction false} RunWindowsSplit(done: seq<string>, rest: seq<string>, env: Env, sources: seq<string>)
    requires |done| % WindowSize == 0
    ensures RunWindows(done + rest, env, sources) ==
            Then(RunWindows(done, env, sources), RunWindows(rest, env, sources))
    decreases |done|
  {
    if done == [] {
      assert done + rest == rest;
    } else {
      assert (done + rest)[..WindowSize] == done[..WindowSize];
      assert (done + rest)[WindowSize..] == done[WindowSize..] + rest;
      RunWindowsSplit(done[WindowSize..], rest, env, sources);
      ThenAssociative(WindowTrace(done[..WindowSize], env, sources),
                      RunWindows(done[WindowSize..], env, sources), RunWindows(rest, env, sources));
    }
  }

  /** How a worker's loop ends: on the end-of-stream marker (with the
      partial window it drops), blocked on an empty queue (with the partial
      window it holds), or with an uncaught exception. */
  datatype WorkerEnd = Stopped(dropped: seq<string>) | Waiting(pending: seq<string>) | Crashed(error: Crash)

  datatype WorkerRun = WorkerRun(puts: seq<ScrapeTask>, end: WorkerEnd)

  /** What one worker does with the items it takes off the internal queue:
      it runs every full window of the URLs before the first marker, in
      order, and never the partial window that remains. */
  function WorkerSpec(input: seq<Item<string>>, env: Env, sources: seq<string>): (run: WorkerRun)
    ensures run.end.Stopped? ==> |run.end.dropped| < WindowSize
    ensures run.end.Waiting? ==> |run.end.pending| < WindowSize
    ensures run.end.Waiting? ==> EndOfStream !in input
    ensures run.end.Stopped? ==> EndOfStream in input
  {
    var d := DataBeforeSentinel(input);
    var t := RunWindows(d, env, sources);
    SentinelIffShortPrefix(input);
    WorkerRun(t.puts,
      if t.crash.Some? then Crashed(t.crash.value)
      else if |d| < |input| then Stopped(Leftover(d))
      else Waiting(Leftover(d)))
  }

  /** `_consumer`: take URLs off the internal queue until the marker,
      running a window each time ten have accumulated and then emptying the
      buffer. */
  method Consumer(input: seq<Item<string>>, env: Env, sources: seq<string>) returns (run: WorkerRun)
    ensures run == WorkerSpec(input, env, sources)
  {
    ghost var d := DataBeforeSentinel(input);
    ghost var done: seq<string> := [];
    var urls: seq<string> := [];
    var puts: seq<ScrapeTask> := [];
    var i := 0;
    while i < |input|
      invariant 0 <= i <= |input| && i <= |d|
      invariant |urls| < WindowSize && |done| % WindowSize == 0
      invariant done + urls == d[..i]
      invariant RunWindows(done, env, sources) == Trace(puts, None)
    {
      match input[i] {
        case EndOfStream =>
          FinishedWorker(input, env, sources, done, urls, puts, i);
          return WorkerRun(puts, Stopped(urls));
        case Data(url) =>
          DataBeforeSentinelStep(input, i);
          AppendAssoc(done, urls, [url]);
          urls := urls + [url];
          if |urls| >= WindowSize {
            var t := ProcessWindow(urls, env, sources);
            WholeWindows(|done|);
            RunWindowsAppend(done, urls, env, sources);
            if t.crash.Some? {
              CrashedWorker(input, env, sources, done + urls);
              return WorkerRun(puts + t.puts, Crashed(t.crash.value));
            }
            puts := puts + t.puts;
            done := done + urls;
            urls := [];
          }
          i := i + 1;
      }
    }
    FinishedWorker(input, env, sources, done, urls, puts, i);
    run := WorkerRun(puts, Waiting(urls));
  }

  /** A whole number of windows plus one more window. */
  lemma WholeWindows(n: nat)
    requires n % WindowSize == 0
    ensures (n + WindowSize) % WindowSize == 0
  {
  }

  /** The worker's loop left at the marker or at the end of its input. */
  lemma FinishedWorker(input: seq<Item<string>>, env: Env, sources: seq<string>,
                       done: seq<string>, urls: seq<string>, puts: seq<ScrapeTask>, i: nat)
    requires i <= |input| && (i < |input| ==> input[i] == EndOfStream)
    requires i <= |DataBeforeSentinel(input)|
    requires |done| % WindowSize == 0 && |urls| < WindowSize
    requires done + urls == DataBeforeSentinel(input)[..i]
    requires RunWindows(done, env, sources) == Trace(puts, None)
    ensures WorkerSpec(input, env, sources) == WorkerRun(puts, if i < |input| then Stopped(urls) else Waiting(urls))
  {
    var d := DataBeforeSentinel(input);
    assert |d| == i;
    assert d == done + urls;
    RunWindowsPartial(done, urls, env, sources);
  }

  /** A window that raises ends the worker with what was put up to then. */
  lemma CrashedWorker(input: seq<Item<string>>, env: Env, sources: seq<string>, done: seq<string>)
    requires |done| % WindowSize == 0
    requires |done| <= |DataBeforeSentinel(input)| && done == DataBeforeSentinel(input)[..|done|]
    requires RunWindows(done, env, sources).crash.Some?
    ensures var t := RunWindows(done, env, sources);
            WorkerSpec(input, env, sources) == WorkerRun(t.puts, Crashed(t.crash.value))
  {
    var d := DataBeforeSentinel(input);
    assert done + d[|done|..] == d;
    RunWindowsSplit(done, d[|done|..], env, sources);
  }

  // ---------------------------------------------------------------------
  // Properties of a worker

  lemma ThenValid(a: Trace, b: Trace, sources: seq<string>)
    requires ValidTrace(a, sources) && ValidTrace(b, sources)
    ensures ValidTrace(Then(a, b), sources)
  {
    if a.crash.None? {
      var p := a.puts + b.puts;
      assert forall i :: 0 <= i < |p| ==> p[i] == if i < |a.puts| then a.puts[i] else b.puts[i - |a.puts|];
    }
  }

  lemma {:induction false} ConcatValid(ts: seq<Trace>, sources: seq<string>)
    requires forall k :: 0 <= k < |ts| ==> ValidTrace(ts[k], sources)
    ensures ValidTrace(Concat(ts), sources)
  {
    if ts != [] {
      ConcatValid(ts[..|ts| - 1], sources);
      ThenValid(Concat(ts[..|ts| - 1]), ts[|ts| - 1], sources);
    }
  }

  lemma WindowValid(urls: seq<string>, env: Env, sources: seq<string>)
    ensures ValidTrace(WindowTrace(urls, env, sources), sources)
  {
    var ps := PayloadTraces(urls, env, sources);
    forall k | 0 <= k < |ps| ensures ValidTrace(ps[k], sources) {
      var r := env.fetch(urls[k]);
      if r.Body? && |r.payload| != 0 && env.decompress(r.payload).Some? {
        ConcatValid(LineTraces(Split(env.decompress(r.payload).value, '\n'), env, sources), sources);
      }
    }
    ConcatValid(ps, sources);
  }

  lemma {:induction false} RunWindowsValid(urls: seq<string>, env: Env, sources: seq<string>)
    ensures ValidTrace(RunWindows(urls, env, sources), sources)
    decreases |urls|
  {
    if |urls| >= WindowSize {
      WindowValid(urls[..WindowSize], env, sources);
      RunWindowsValid(urls[WindowSize..], env, sources);
      ThenValid(WindowTrace(urls[..WindowSize], env, sources), RunWindows(urls[WindowSize..], env, sources), sources);
    }
  }

  /** Every task a worker puts names a configured source that occurs in the
      task's URL. */
  lemma WorkerTasksValid(input: seq<Item<string>>, env: Env, sources: seq<string>)
    ensures ValidTrace(Trace(WorkerSpec(input, env, sources).puts, None), sources)
  {
    RunWindowsValid(DataBeforeSentinel(input), env, sources);
  }

  /** The partial window left when the marker arrives is never fetched:
      the worker puts exactly what the full windows put and stops, dropping
      the rest. */
  lemma PartialWindowIsDropped(full: seq<string>, partial: seq<string>, rest: seq<Item<string>>, env: Env, sources: seq<string>)
    requires |full| % WindowSize == 0 && |partial| < WindowSize
    requires RunWindows(full, env, sources).crash.None?
    ensures WorkerSpec(DataItems(full + partial) + [EndOfStream] + rest, env, sources) ==
            WorkerRun(RunWindows(full, env, sources).puts, Stopped(partial))
  {
    var input := DataItems(full + partial) + [EndOfStream] + rest;
    DataBeforeSentinelOfStream(full + partial, rest);
    assert |full + partial| < |input|;
    RunWindowsPartial(full, partial, env, sources);
  }
  /** A worker fed only what the producer puts never reaches a marker. */
  lemma ProducerAloneNeverStopsWorker(manifest: string, env: Env, sources: seq<string>)
    ensures !WorkerSpec(DataItems(ManifestWorkList(manifest)), env, sources).end.Stopped?
  {
    CountSentinelsOfData(ManifestWorkList(manifest));
  }

  // ---------------------------------------------------------------------
  // Interrupt

  /** The `KeyboardInterrupt` branch of `run`: one marker per worker on the
      internal queue, then one marker on the cross-stage queue. */
  method Interrupt(internalQueue: seq<Item<string>>, scraperQueue: seq<Item<ScrapeTask>>, consumers: nat)
    returns (internalAfter: seq<Item<string>>, scraperAfter: seq<Item<ScrapeTask>>)
    ensures internalAfter == internalQueue + Sentinels(consumers)
    ensures scraperAfter == scraperQueue + [EndOfStream]
    ensures CountSentinels(internalAfter) == CountSentinels(internalQueue) + consumers
    ensures CountSentinels(scraperAfter) == CountSentinels(scraperQueue) + 1
  {
    internalAfter := internalQueue;
    for c := 0 to consumers
      invariant internalAfter == internalQueue + Sentinels(c)
    {
      assert Sentinels<string>(c + 1) == Sentinels<string>(c) + [EndOfStream];
      internalAfter := internalAfter + [EndOfStream];
    }
    scraperAfter := scraperQueue + [EndOfStream];
    CountSentinelsAppend(internalQueue, Sentinels(consumers));
    CountSentinelsOfSentinels<string>(consumers);
    ghost var marker: seq<Item<ScrapeTask>> := [EndOfStream];
    assert marker[..0] == [];
    CountSentinelsAppend(scraperQueue, marker);
  }

  /** After the interrupt, a worker whose share of the queue is the
      producer's items followed by its marker stops (unless a window raised). */
  lemma InterruptStopsWorker(urls: seq<string>, env: Env, sources: seq<string>)
    ensures !WorkerSpec(DataItems(urls) + [EndOfStream], env, sources).end.Waiting?
  {
    assert EndOfStream in DataItems(urls) + [EndOfStream];
  }
}
