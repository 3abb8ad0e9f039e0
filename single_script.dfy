/** The earlier single-script harvester (`scrape_gdelt.py`).

    One producer puts the older half of the manifest's work list on a
    queue, checking before every put whether the shared result list has
    reached 10 000 entries; if it has, it puts one marker per worker and
    stops. Each worker runs the same ten-URL windows as the class-based
    harvester, over four hard-coded sources, but appends `(url, sentiment)`
    records to the shared list instead of putting tasks on a queue. After
    the workers end, the shared list is written as CSV rows.

    The length of the shared list, which the workers change concurrently,
    is a parameter: `observed(i)` is the length the producer reads before
    its `i`-th put. */
module SingleScript {
  import opened Common
  import opened Harvester

  /** The shared-list length at which the producer stops. */
  const Cap: nat := 10000

  /** The four sources every worker looks for. */
  const VariantSources: seq<string> := ["www.theguardian.com", "://news.yahoo.com", "://www.nytimes.com", "://thehindu.com"]

  // ---------------------------------------------------------------------
  // Producer

  /** The work list: the non-empty manifest lines, newest first, from
      position `len // 2` on. */
  function VariantWorkList(manifest: string): (urls: seq<string>)
  {
    var w := ManifestWorkList(manifest);
    w[|w| / 2..]
  }

  /** Slicing the reversed list keeps the OLDER half of the manifest (its
      first lines, the middle one included when the count is odd), newest
      of them first. */
  lemma VariantWorkListIsOlderHalf(manifest: string)
    ensures var lines := NonEmpty(Split(manifest, '\n'));
            VariantWorkList(manifest) == Reverse(lines[..|lines| - |lines| / 2])
  {
    var lines := NonEmpty(Split(manifest, '\n'));
    var w := ManifestWorkList(manifest);
    assert w == Reverse(lines);
    var kept := VariantWorkList(manifest);
    assert kept == w[|w| / 2..];
    HalfOfReversal(kept, w, lines);
  }

  lemma HalfOfReversal(kept: seq<string>, w: seq<string>, lines: seq<string>)
    requires w == Reverse(lines) && kept == w[|w| / 2..]
    ensures kept == Reverse(lines[..|lines| - |lines| / 2])
  {
    ReverseSuffix(lines, |lines| / 2);
  }

  /** The first position, from `i` on, at which the producer sees the cap
      reached, or `n` if it never does. */
  function CapFrom(i: nat, n: nat, observed: nat -> nat): (k: nat)
    requires i <= n
    ensures i <= k <= n
    ensures forall j :: i <= j < k ==> observed(j) < Cap
    ensures k < n ==> observed(k) >= Cap
    decreases n - i
  {
    if i == n then n
    else if observed(i) >= Cap then i
    else CapFrom(i + 1, n, observed)
  }

  /** How many work items are put before the cap is seen. */
  function CapIndex(n: nat, observed: nat -> nat): nat
  {
    CapFrom(0, n, observed)
  }

  /** The first position where the cap is seen is unique. */
  lemma CapIndexIs(n: nat, observed: nat -> nat, i: nat)
    requires i <= n
    requires forall j :: 0 <= j < i ==> observed(j) < Cap
    requires i < n ==> observed(i) >= Cap
    ensures CapIndex(n, observed) == i
  {
  }

  /** What `producer` puts: the work items up to the cap, then, if the cap
      was seen, one marker per worker. */
  function ProducerOutput(urls: seq<string>, cpuCount: nat, observed: nat -> nat): seq<Item<string>>
  {
    var k := CapIndex(|urls|, observed);
    DataItems(urls[..k]) + (if k < |urls| then Sentinels(cpuCount) else [])
  }

  /** `producer`: before each put, stop with `cpuCount` markers once the
      shared list holds 10 000 entries. */
  method Producer(manifest: string, cpuCount: nat, observed: nat -> nat) returns (queue: seq<Item<string>>)
    ensures queue == ProducerOutput(VariantWorkList(manifest), cpuCount, observed)
  {
    var urls := VariantWorkList(manifest);
    queue := [];
    var i := 0;
    while i < |urls|
      invariant 0 <= i <= |urls|
      invariant queue == DataItems(urls[..i])
      invariant forall j :: 0 <= j < i ==> observed(j) < Cap
    {
      if observed(i) >= Cap {
        CapIndexIs(|urls|, observed, i);
        queue := PutMarkers(queue, cpuCount);
        return;
      }
      assert urls[..i + 1] == urls[..i] + [urls[i]];
      DataItemsSnoc(urls[..i], urls[i]);
      queue := queue + [Data(urls[i])];
      i := i + 1;
    }
    assert urls[..i] == urls;
    CapIndexIs(|urls|, observed, i);
    assert queue + [] == queue;
  }

  /** The producer's inner loop: one marker per worker. */
  method PutMarkers(queue: seq<Item<string>>, cpuCount: nat) returns (after: seq<Item<string>>)
    ensures after == queue + Sentinels(cpuCount)
  {
    after := queue;
    for c := 0 to cpuCount
      invariant after == queue + Sentinels(c)
    {
      assert Sentinels<string>(c + 1) == Sentinels(c) + [EndOfStream];
      after := after + [EndOfStream];
    }
  }

  /** The producer puts a prefix of the work list, in order; it puts one
      marker per worker if it saw the cap, and no marker at all otherwise. */
  lemma ProducerOutputFacts(urls: seq<string>, cpuCount: nat, observed: nat -> nat)
    ensures var k := CapIndex(|urls|, observed);
      DataOf(ProducerOutput(urls, cpuCount, observed)) == urls[..k] &&
      CountSentinels(ProducerOutput(urls, cpuCount, observed)) == (if k < |urls| then cpuCount else 0)
  {
    var k := CapIndex(|urls|, observed);
    var tail: seq<Item<string>> := if k < |urls| then Sentinels(cpuCount) else [];
    DataOfAppend(DataItems(urls[..k]), tail);
    CountSentinelsAppend(DataItems(urls[..k]), tail);
    DataOfDataItems(urls[..k]);
    CountSentinelsOfData(urls[..k]);
    if k < |urls| {
      DataOfSentinels<string>(cpuCount);
      CountSentinelsOfSentinels<string>(cpuCount);
    }
  }

  /** If the shared list never reaches the cap while the producer runs, it
      puts the whole work list and no marker, so the workers are never told
      to stop. */
  lemma UncappedProducerPutsNoMarker(urls: seq<string>, cpuCount: nat, observed: nat -> nat, env: Env)
    requires forall j :: 0 <= j < |urls| ==> observed(j) < Cap
    ensures ProducerOutput(urls, cpuCount, observed) == DataItems(urls)
    ensures !WorkerSpec(ProducerOutput(urls, cpuCount, observed), env, VariantSources).end.Stopped?
  {
    CapIndexIs(|urls|, observed, |urls|);
    assert urls[..|urls|] == urls;
    assert DataItems(urls) + [] == DataItems(urls);
    CountSentinelsOfData(urls);
  }

  /** If the producer sees the cap and there is at least one worker, a
      worker reading its queue from the start is never left waiting: it
      stops at the first marker, or has raised before it. */
  lemma CappedProducerStopsWorker(urls: seq<string>, cpuCount: nat, observed: nat -> nat, env: Env)
    requires CapIndex(|urls|, observed) < |urls| && cpuCount > 0
    ensures !WorkerSpec(ProducerOutput(urls, cpuCount, observed), env, VariantSources).end.Waiting?
  {
    ProducerOutputFacts(urls, cpuCount, observed);
  }

  // ---------------------------------------------------------------------
  // Workers

  /** What a worker appends to the shared list: only URL and sentiment. */
  datatype VariantRecord = VariantRecord(url: string, sentiment: Sentiment)

  function Appended(tasks: seq<ScrapeTask>): (recs: seq<VariantRecord>)
    ensures |recs| == |tasks|
    ensures forall i :: 0 <= i < |tasks| ==> recs[i] == VariantRecord(tasks[i].url, tasks[i].sentiment)
  {
    seq(|tasks|, i requires 0 <= i < |tasks| => VariantRecord(tasks[i].url, tasks[i].sentiment))
  }

  /** `consumer`: the window loop of the class-based harvester over the
      four fixed sources, appending one record per matching source. */
  method Consumer(input: seq<Item<string>>, env: Env) returns (appended: seq<VariantRecord>, end: WorkerEnd)
    ensures appended == Appended(WorkerSpec(input, env, VariantSources).puts)
    ensures end == WorkerSpec(input, env, VariantSources).end
  {
    var run := Harvester.Consumer(input, env, VariantSources);
    appended := Appended(run.puts);
    end := run.end;
  }

  /** Every appended record's URL contains one of the four sources. */
  lemma AppendedUrlsMatchSources(input: seq<Item<string>>, env: Env)
    ensures var recs := Appended(WorkerSpec(input, env, VariantSources).puts);
      forall i :: 0 <= i < |recs| ==> exists s :: s in VariantSources && Contains(recs[i].url, s)
  {
    var puts := WorkerSpec(input, env, VariantSources).puts;
    var recs := Appended(puts);
    WorkerTasksValid(input, env, VariantSources);
    forall i | 0 <= i < |recs| ensures exists s :: s in VariantSources && Contains(recs[i].url, s) {
      assert ValidTrace(Trace(puts, None), VariantSources);
      assert ValidTask(Trace(puts, None).puts[i], VariantSources);
      assert recs[i].url == puts[i].url;
      assert puts[i].source in VariantSources && Contains(recs[i].url, puts[i].source);
    }
    assert forall i :: 0 <= i < |recs| ==> exists s :: s in VariantSources && Contains(recs[i].url, s);
  }

  /** A record whose URL contains several of the sources is appended once
      for each, in the order of the source list. */
  lemma OneRecordPerMatchingSource(ar: BatchRecord)
    requires ar.lang == Some("en") && ar.url.Some?
    ensures Appended(GdeltExtractor(ar, VariantSources).puts) ==
            seq(|MatchingSources(ar.url.value, VariantSources)|, _ => VariantRecord(ar.url.value, ar.score))
  {
  }

  // ---------------------------------------------------------------------
  // The CSV file

  /** The `__main__` rows: `(url, sentiment)` per shared-list entry. The
      file is opened with `w+`, so these rows are its whole content. */
  function CsvRows(shared: seq<VariantRecord>): (rows: seq<Row>)
    ensures |rows| == |shared|
  {
    seq(|shared|, i requires 0 <= i < |shared| => [TextCell(shared[i].url), ScoreCell(shared[i].sentiment)])
  }

  /** Rows follow the shared list's order: the rows of entries appended
      one after another are the rows of each, one after another. */
  lemma CsvRowsAppend(a: seq<VariantRecord>, b: seq<VariantRecord>)
    ensures CsvRows(a + b) == CsvRows(a) + CsvRows(b)
  {
    var ab, ra, rb := CsvRows(a + b), CsvRows(a), CsvRows(b);
    forall k | 0 <= k < |ab| ensures ab[k] == (ra + rb)[k] {
      if k < |a| {
        assert (a + b)[k] == a[k];
      } else {
        assert (a + b)[k] == b[k - |a|];
      }
    }
  }

  /** Each row holds exactly its entry's URL and sentiment, so the entries
      can be read back from the file. */
  lemma CsvRowsRoundTrip(shared: seq<VariantRecord>)
    ensures var rows := CsvRows(shared);
      forall i :: 0 <= i < |rows| ==>
        (|rows[i]| == 2 && rows[i][0].TextCell? && rows[i][1].ScoreCell? &&
         VariantRecord(rows[i][0].text, rows[i][1].score) == shared[i])
  {
  }
}
