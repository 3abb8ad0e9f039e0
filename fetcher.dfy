/** The article-fetching stage (article_scraper.py). At construction the
    configured news sources are validated and each entry's function name is
    replaced, in place, by a reference to the scraper function of that name.
    The consumer then drains the cross-stage queue: each task is routed to
    the strategy of every entry whose source equals the task's source, and a
    record carrying the fetched article text is forwarded to the writer.

    The scraper functions themselves are a parameter (`Strategies`): for a
    function name and a URL they give the text, report that the awaiting
    task was cancelled, or raise an exception the consumer does not catch,
    which ends the consumer. */
module Fetcher {
  import opened Common
  import opened Helpers

  // ---------------------------------------------------------------------
  // Name-to-reference conversion

  /** One entry after `_convert_func_names_to_func_references`: a function
      name the module defines becomes a reference to that function; any
      other value (a missing key, `None`, an unknown name) raises `KeyError`
      and the entry is left as it was. */
  function Converted(e: NewsSource, registry: set<string>): (c: NewsSource)
    ensures c.source == e.source
  {
    if Registered(e.functionName, registry) then e.(functionName := FnRef(e.functionName.s)) else e
  }

  /** The whole list after conversion: entry by entry, a registered name
      becomes a reference to it under the same source, and every other
      entry is kept as it was, in place. */
  function ConvertAll(sources: seq<NewsSource>, registry: set<string>): (r: seq<NewsSource>)
    ensures |r| == |sources|
    ensures forall i :: 0 <= i < |sources| && Registered(sources[i].functionName, registry) ==>
              r[i] == NewsSource(sources[i].source, FnRef(sources[i].functionName.s))
    ensures forall i :: 0 <= i < |sources| && !Registered(sources[i].functionName, registry) ==>
              r[i] == sources[i]
  {
    seq(|sources|, i requires 0 <= i < |sources| => Converted(sources[i], registry))
  }

  /** Known names become references carrying that name; every other entry is
      unchanged; the source strings are never touched. */
  lemma ConvertedCases(e: NewsSource, registry: set<string>)
    ensures Registered(e.functionName, registry) ==>
              Converted(e, registry) == NewsSource(e.source, FnRef(e.functionName.s))
    ensures !Registered(e.functionName, registry) ==> Converted(e, registry) == e
    ensures Converted(e, registry).functionName.FnRef? <==>
              Registered(e.functionName, registry) || e.functionName.FnRef?
  {
  }

  /** Converting twice is converting once. */
  lemma ConvertIdempotent(sources: seq<NewsSource>, registry: set<string>)
    ensures ConvertAll(ConvertAll(sources, registry), registry) == ConvertAll(sources, registry)
  {
  }

  /** Every entry holds a function reference (stated entry by entry from
      the last, the order in which the routing loop's model peels them). */
  predicate AllConverted(routes: seq<NewsSource>)
  {
    |routes| == 0 || (AllConverted(routes[..|routes| - 1]) && routes[|routes| - 1].functionName.FnRef?)
  }

  lemma {:induction false} AllConvertedIff(routes: seq<NewsSource>)
    ensures AllConverted(routes) <==> forall i :: 0 <= i < |routes| ==> routes[i].functionName.FnRef?
  {
    if |routes| > 0 {
      var p := routes[..|routes| - 1];
      AllConvertedIff(p);
      assert forall i :: 0 <= i < |p| ==> p[i] == routes[i];
    }
  }

  lemma AllConvertedPrefix(routes: seq<NewsSource>, k: nat)
    requires AllConverted(routes) && k <= |routes|
    ensures AllConverted(routes[..k])
  {
    AllConvertedIff(routes);
    AllConvertedIff(routes[..k]);
  }

  /** After validation succeeds, conversion leaves no entry with a bare name,
      so every routed call is a call to a scraper function. */
  lemma ValidatedConfigConverts(sources: seq<NewsSource>, registry: set<string>)
    requires ValidateNewsSources(sources, registry) == Pass
    ensures AllConverted(ConvertAll(sources, registry))
  {
    forall i | 0 <= i < |sources| ensures ConvertAll(sources, registry)[i].functionName.FnRef? {
      assert CheckEntry(sources[i], registry) == Pass;
    }
    AllConvertedIff(ConvertAll(sources, registry));
  }

  /** `_convert_func_names_to_func_references`: rewrites the caller's list
      in place and returns that same list. */
  method ConvertFuncNamesToFuncReferences(newsSources: array<NewsSource>, registry: set<string>)
    returns (r: array<NewsSource>)
    modifies newsSources
    ensures r == newsSources
    ensures newsSources[..] == ConvertAll(old(newsSources[..]), registry)
  {
    for i := 0 to newsSources.Length
      invariant forall k :: 0 <= k < i ==> newsSources[k] == Converted(old(newsSources[k]), registry)
      invariant forall k :: i <= k < newsSources.Length ==> newsSources[k] == old(newsSources[k])
    {
      var e := newsSources[i];
      if e.functionName.Text? && e.functionName.s in registry {
        newsSources[i] := e.(functionName := FnRef(e.functionName.s));
      }
    }
    r := newsSources;
  }

  // ---------------------------------------------------------------------
  // Routing one task

  /** What awaiting a scraper function gives: its text, the
      `CancelledError` raised when the signal handler cancels the task, or
      any other exception (a missing element, a missing environment
      variable, an undecodable body), which nothing in the consumer
      catches. */
  datatype Invocation = Returned(text: string) | Cancelled | Raised

  /** The scraper functions, by name, applied to a URL. */
  type Strategies = string -> string -> Invocation

  /** A task as the consumer takes it off the queue; `url` is `None` when the
      dictionary has no "url" key. */
  datatype QueuedTask = QueuedTask(url: Option<string>, sentiment: Sentiment, source: string)

  /** `news_source["source"] == data["source"]`. */
  predicate Matches(e: NewsSource, source: string)
  {
    e.source == Text(source)
  }

  function Invoke(e: NewsSource, url: string, strategies: Strategies): Invocation
    requires e.functionName.FnRef?
  {
    strategies(e.functionName.name)(url)
  }

  /** The state of the routing loop: the article text so far and whether
      the loop was left by `break` after a cancellation; or `Uncaught`, an
      exception that left the loop and the consumer. */
  datatype Scan = Scan(text: string, cancelled: bool) | Uncaught

  /** The routing loop has stopped trying entries. */
  predicate Stopped(s: Scan)
  {
    s.Uncaught? || s.cancelled
  }

  /** The routing loop over the first entries: each matching entry's result
      overwrites the text; a cancellation stops the loop with the text it
      had; any other exception stops it with no text at all. */
  function ScanRoutes(routes: seq<NewsSource>, source: string, url: string, strategies: Strategies): (r: Scan)
    requires AllConverted(routes)
    ensures r.Scan? && r.text != "" ==> exists i :: 0 <= i < |routes| && Matches(routes[i], source)
  {
    if |routes| == 0 then Scan("", false)
    else
      var s := ScanRoutes(routes[..|routes| - 1], source, url, strategies);
      var e := routes[|routes| - 1];
      if Stopped(s) || !Matches(e, source) then s
      else match Invoke(e, url, strategies)
        case Cancelled => Scan(s.text, true)
        case Raised => Uncaught
        case Returned(t) => Scan(t, false)
  }

  /** Entry `i` matches the source and its scraper call does not return: it
      is cancelled or raises. */
  predicate StopsAt(routes: seq<NewsSource>, i: int, source: string, url: string, strategies: Strategies)
  {
    0 <= i < |routes| && Matches(routes[i], source) && routes[i].functionName.FnRef? &&
    !strategies(routes[i].functionName.name)(url).Returned?
  }

  /** The routing loop is left early exactly when some matching entry's
      call does not return. */
  lemma {:induction false} ScanStopsIff(routes: seq<NewsSource>, source: string, url: string, strategies: Strategies)
    requires AllConverted(routes)
    ensures Stopped(ScanRoutes(routes, source, url, strategies)) <==>
              exists i :: StopsAt(routes, i, source, url, strategies)
  {
    if |routes| > 0 {
      var p := routes[..|routes| - 1];
      ScanStopsIff(p, source, url, strategies);
      if exists i :: StopsAt(p, i, source, url, strategies) {
        var i :| StopsAt(p, i, source, url, strategies);
        assert routes[i] == p[i];
        assert StopsAt(routes, i, source, url, strategies);
      }
      if exists i :: StopsAt(routes, i, source, url, strategies) {
        var i :| StopsAt(routes, i, source, url, strategies);
        if i < |p| {
          assert p[i] == routes[i];
          assert StopsAt(p, i, source, url, strategies);
        }
      }
      var e := routes[|p|];
      if Matches(e, source) && !Invoke(e, url, strategies).Returned? {
        assert StopsAt(routes, |p|, source, url, strategies);
      }
    }
  }

  /** The first matching entry whose call does not return decides how the
      loop ends: a cancellation leaves it by `break`, any other exception
      leaves it with no text. */
  lemma ScanFirstStop(routes: seq<NewsSource>, source: string, url: string, strategies: Strategies, k: nat, f: string)
    requires AllConverted(routes)
    requires StopsAt(routes, k, source, url, strategies) && routes[k].functionName == FnRef(f)
    requires forall j :: 0 <= j < k ==> !StopsAt(routes, j, source, url, strategies)
    ensures strategies(f)(url) == Raised ==> ScanRoutes(routes, source, url, strategies) == Uncaught
    ensures strategies(f)(url) == Cancelled ==>
              ScanRoutes(routes, source, url, strategies).Scan? && ScanRoutes(routes, source, url, strategies).cancelled
  {
    AllConvertedPrefix(routes, k);
    AllConvertedPrefix(routes, k + 1);
    var p, q := routes[..k], routes[..k + 1];
    assert forall i :: StopsAt(p, i, source, url, strategies) ==> StopsAt(routes, i, source, url, strategies) by {
      forall i | StopsAt(p, i, source, url, strategies) ensures StopsAt(routes, i, source, url, strategies) {
        assert p[i] == routes[i];
      }
    }
    ScanStopsIff(p, source, url, strategies);
    assert q[..k] == p && q[k] == routes[k];
    var s := ScanRoutes(p, source, url, strategies);
    assert ScanRoutes(q, source, url, strategies) == if strategies(f)(url) == Raised then Uncaught else Scan(s.text, true);
    ScanStopPersists(routes, k + 1, source, url, strategies);
  }

  /** Without a stop there is no `break`: the text is what the last
      matching entry's function returned. */
  lemma {:induction false} LastMatchWins(routes: seq<NewsSource>, source: string, url: string, strategies: Strategies,
                                         k: nat, f: string)
    requires AllConverted(routes)
    requires forall i :: !StopsAt(routes, i, source, url, strategies)
    requires k < |routes| && Matches(routes[k], source) && routes[k].functionName == FnRef(f)
    requires forall j :: k < j < |routes| ==> !Matches(routes[j], source)
    ensures strategies(f)(url).Returned?
    ensures ScanRoutes(routes, source, url, strategies) == Scan(strategies(f)(url).text, false)
  {
    var p := routes[..|routes| - 1];
    assert forall i :: StopsAt(p, i, source, url, strategies) ==> StopsAt(routes, i, source, url, strategies) by {
      forall i | StopsAt(p, i, source, url, strategies) ensures StopsAt(routes, i, source, url, strategies) {
        assert p[i] == routes[i];
      }
    }
    ScanStopsIff(p, source, url, strategies);
    if k < |routes| - 1 {
      assert p[k] == routes[k];
      LastMatchWins(p, source, url, strategies, k, f);
    } else {
      assert !StopsAt(routes, k, source, url, strategies);
    }
  }

  lemma {:induction false} NoMatchNoText(routes: seq<NewsSource>, source: string, url: string, strategies: Strategies)
    requires AllConverted(routes)
    requires forall i :: 0 <= i < |routes| ==> !Matches(routes[i], source)
    ensures ScanRoutes(routes, source, url, strategies) == Scan("", false)
  {
    if |routes| > 0 {
      NoMatchNoText(routes[..|routes| - 1], source, url, strategies);
    }
  }

  /** The outcome of the routing loop, by source and URL. */
  type Router = (string, string) -> Scan

  /** `route` gives, for every source and URL, what the routing loop over
      `routes` gives. */
  ghost predicate RoutesBy(route: Router, routes: seq<NewsSource>, strategies: Strategies)
    requires AllConverted(routes)
  {
    forall source, url {:trigger ScanRoutes(routes, source, url, strategies)} ::
      route(source, url) == ScanRoutes(routes, source, url, strategies)
  }

  /** The routing loop over a converted configuration, as a function value. */
  function RouterOf(routes: seq<NewsSource>, strategies: Strategies): (route: Router)
    requires AllConverted(routes)
    ensures RoutesBy(route, routes, strategies)
  {
    (source: string, url: string) => ScanRoutes(routes, source, url, strategies)
  }

  /** The task's routing loop raises: the consumer ends at this task. */
  predicate RaisesOn(task: QueuedTask, route: Router)
  {
    task.url.Some? && route(task.source, task.url.value).Uncaught?
  }

  /** The task's routing loop is left by `break` after a cancellation. */
  predicate CancelledOn(task: QueuedTask, route: Router)
  {
    task.url.Some? && route(task.source, task.url.value).Scan? && route(task.source, task.url.value).cancelled
  }

  /** What the consumer puts on the writer queue for one task: nothing when
      the task has no URL or its routing loop raises; the marker if the
      routing loop was cancelled; then the record if the text is not
      empty. */
  function ItemOutput(task: QueuedTask, route: Router): (out: seq<Item<ArticleRecord>>)
    ensures |out| <= 2
    ensures out != [] ==> task.url.Some? && !RaisesOn(task, route)
  {
    match task.url
    case None => []
    case Some(url) =>
      var s := route(task.source, url);
      if s.Uncaught? then []
      else
        (if s.cancelled then [EndOfStream] else []) +
        (if s.text == "" then [] else [Data(ArticleRecord(url, task.sentiment, s.text))])
  }

  /** A task yields at most one record, which carries the task's URL and
      sentiment and a non-empty text; a task without a URL, or whose
      routing loop raises, yields nothing. */
  lemma ItemOutputRecords(task: QueuedTask, route: Router)
    ensures task.url.None? || RaisesOn(task, route) ==> ItemOutput(task, route) == []
    ensures |DataOf(ItemOutput(task, route))| <= 1
    ensures forall r :: r in DataOf(ItemOutput(task, route)) ==>
              task.url == Some(r.url) && r.sentiment == task.sentiment && r.articleText != ""
  {
    if task.url.Some? && !RaisesOn(task, route) {
      var url := task.url.value;
      var s := route(task.source, url);
      var record: seq<Item<ArticleRecord>> := if s.text == "" then [] else [Data(ArticleRecord(url, task.sentiment, s.text))];
      if s.cancelled {
        var marker: seq<Item<ArticleRecord>> := [EndOfStream];
        assert ItemOutput(task, route) == marker + record;
        DataOfAppend(marker, record);
      } else {
        assert ItemOutput(task, route) == [] + record;
      }
      if record != [] {
        assert record[..0] == [];
      }
    }
  }

  /** A task yields a marker exactly when its routing loop was cancelled. */
  lemma ItemOutputMarkers(task: QueuedTask, route: Router)
    ensures CountSentinels(ItemOutput(task, route)) == 0 <==> !CancelledOn(task, route)
  {
    if task.url.Some? && !RaisesOn(task, route) {
      var url := task.url.value;
      var s := route(task.source, url);
      var record: seq<Item<ArticleRecord>> := if s.text == "" then [] else [Data(ArticleRecord(url, task.sentiment, s.text))];
      if s.cancelled {
        assert ItemOutput(task, route) == [EndOfStream] + record;
        var marker: seq<Item<ArticleRecord>> := [EndOfStream];
        CountSentinelsAppend(marker, record);
        assert marker[..0] == [];
      } else {
        assert ItemOutput(task, route) == [] + record;
      }
      if record != [] {
        assert record[..0] == [];
      }
    }
  }

  /** Everything the consumer puts for the tasks it takes, in order. */
  function Outputs(tasks: seq<QueuedTask>, route: Router): seq<Item<ArticleRecord>>
  {
    if tasks == [] then [] else Outputs(tasks[..|tasks| - 1], route) + ItemOutput(tasks[|tasks| - 1], route)
  }

  /** One more task adds its own output at the end. */
  lemma OutputsSnoc(tasks: seq<QueuedTask>, t: QueuedTask, route: Router)
    ensures Outputs(tasks + [t], route) == Outputs(tasks, route) + ItemOutput(t, route)
  {
    assert (tasks + [t])[..|tasks|] == tasks;
  }

  /** The writer queue gets the outputs of earlier tasks before those of
      later ones. */
  lemma {:induction false} OutputsAppend(a: seq<QueuedTask>, b: seq<QueuedTask>, route: Router)
    ensures Outputs(a + b, route) == Outputs(a, route) + Outputs(b, route)
    decreases |b|
  {
    if b == [] {
      assert a + b == a;
    } else {
      var init, last := b[..|b| - 1], b[|b| - 1];
      calc {
        Outputs(a + b, route);
      == { assert (a + b)[..|a + b| - 1] == a + init && (a + b)[|a + b| - 1] == last; }
        Outputs(a + init, route) + ItemOutput(last, route);
      == { OutputsAppend(a, init, route); }
        (Outputs(a, route) + Outputs(init, route)) + ItemOutput(last, route);
      == { AppendAssoc(Outputs(a, route), Outputs(init, route), ItemOutput(last, route)); }
        Outputs(a, route) + (Outputs(init, route) + ItemOutput(last, route));
      }
    }
  }

  /** The position of the first task whose routing loop raises, or the
      number of tasks when none does. */
  function FirstRaise(tasks: seq<QueuedTask>, route: Router): (k: nat)
    ensures k <= |tasks|
    ensures forall j :: 0 <= j < k ==> !RaisesOn(tasks[j], route)
    ensures k < |tasks| ==> RaisesOn(tasks[k], route)
  {
    if tasks == [] || RaisesOn(tasks[0], route) then 0
    else 1 + FirstRaise(tasks[1..], route)
  }

  /** No task's routing loop raises. */
  predicate NeverRaises(tasks: seq<QueuedTask>, route: Router)
  {
    forall i :: 0 <= i < |tasks| ==> !RaisesOn(tasks[i], route)
  }

  /** The `_consumer` loop on a queue: the tasks before the first marker, up
      to the first one whose routing loop raises; then, when no task raised,
      one marker of its own if it reaches the queue's marker. */
  function ScraperOutput(input: seq<Item<QueuedTask>>, route: Router): (out: seq<Item<ArticleRecord>>)
    ensures EndOfStream in input && NeverRaises(DataBeforeSentinel(input), route) ==>
              |out| > 0 && out[|out| - 1] == EndOfStream
  {
    var d := DataBeforeSentinel(input);
    var k := FirstRaise(d, route);
    Outputs(d[..k], route) + (if k == |d| && EndOfStream in input then [EndOfStream] else [])
  }

  /** The consumer takes the task at position `i`, before the first task
      that raises, and that task does not raise either: its output follows
      that of the tasks before it. */
  lemma ScraperOutputStep(input: seq<Item<QueuedTask>>, route: Router, i: nat, q0: seq<Item<ArticleRecord>>, q: seq<Item<ArticleRecord>>)
    requires i < |input| && input[i].Data? && !RaisesOn(input[i].value, route)
    requires i <= |DataBeforeSentinel(input)| && i <= FirstRaise(DataBeforeSentinel(input), route)
    requires q == q0 + Outputs(DataBeforeSentinel(input)[..i], route)
    ensures i < |DataBeforeSentinel(input)| && i + 1 <= FirstRaise(DataBeforeSentinel(input), route)
    ensures q + ItemOutput(input[i].value, route) == q0 + Outputs(DataBeforeSentinel(input)[..i + 1], route)
  {
    var d, task := DataBeforeSentinel(input), input[i].value;
    DataBeforeSentinelStep(input, i);
    assert d[..i + 1] == d[..i] + [task];
    OutputsSnoc(d[..i], task, route);
    AppendAssoc(q0, Outputs(d[..i], route), ItemOutput(task, route));
  }

  /** The consumer meets the marker after the first `i` tasks, none of
      which raised: it has put their outputs, then its own marker. */
  lemma ScraperOutputAtMarker(input: seq<Item<QueuedTask>>, route: Router, i: nat)
    requires i < |input| && input[i] == EndOfStream
    requires i <= |DataBeforeSentinel(input)| && i <= FirstRaise(DataBeforeSentinel(input), route)
    ensures NeverRaises(DataBeforeSentinel(input), route)
    ensures ScraperOutput(input, route) == Outputs(DataBeforeSentinel(input)[..i], route) + [EndOfStream]
  {
    var d := DataBeforeSentinel(input);
    assert |d| == i;
    assert d[..i] == d;
  }

  /** The task at position `i` raises, and no task before it does: the
      consumer has put their outputs and ends there. */
  lemma ScraperOutputAtRaise(input: seq<Item<QueuedTask>>, route: Router, i: nat)
    requires i < |DataBeforeSentinel(input)| && RaisesOn(DataBeforeSentinel(input)[i], route)
    requires i <= FirstRaise(DataBeforeSentinel(input), route)
    ensures !NeverRaises(DataBeforeSentinel(input), route)
    ensures ScraperOutput(input, route) == Outputs(DataBeforeSentinel(input)[..i], route)
  {
  }

  /** The queue runs out without a marker and no task raised: the consumer
      has put the outputs of all its tasks and is still waiting. */
  lemma ScraperOutputAtEnd(input: seq<Item<QueuedTask>>, route: Router)
    requires |DataBeforeSentinel(input)| == |input|
    requires |input| <= FirstRaise(DataBeforeSentinel(input), route)
    ensures NeverRaises(DataBeforeSentinel(input), route)
    ensures ScraperOutput(input, route) == Outputs(DataBeforeSentinel(input), route)
  {
    var d := DataBeforeSentinel(input);
    SentinelIffShortPrefix(input);
    assert EndOfStream !in input;
    var k := FirstRaise(d, route);
    assert k == |d| && d[..k] == d;
  }

  // ---------------------------------------------------------------------
  // The stage

  /** The state the fetching process keeps: the converted configuration
      and the writer queue it puts on. The configuration is the caller's
      list after conversion; nothing changes it afterwards, so its value is
      kept. */
  class ArticleScraper {
    var newsSources: seq<NewsSource>
    var writerQueue: seq<Item<ArticleRecord>>

    ghost predicate Valid()
      reads this`newsSources
    {
      AllConverted(newsSources)
    }

    /** `__init__` after `validate_news_sources` has returned normally. */
    constructor(newsSources: array<NewsSource>, writerQueue: seq<Item<ArticleRecord>>, registry: set<string>)
      requires ValidateNewsSources(newsSources[..], registry) == Pass
      modifies newsSources
      ensures newsSources[..] == ConvertAll(old(newsSources[..]), registry)
      ensures this.newsSources == newsSources[..] && this.writerQueue == writerQueue
      ensures Valid()
    {
      ValidatedConfigConverts(newsSources[..], registry);
      var converted := ConvertFuncNamesToFuncReferences(newsSources, registry);
      this.newsSources := converted[..];
      this.writerQueue := writerQueue;
    }

    /** `_consumer`: drain the task queue until its marker, or until a
        scraper call raises (`raised`), which ends the consumer. */
    method Consume(input: seq<Item<QueuedTask>>, strategies: Strategies, ghost route: Router) returns (raised: bool)
      requires Valid() && RoutesBy(route, newsSources, strategies)
      modifies this`writerQueue
      ensures writerQueue == old(writerQueue) + ScraperOutput(input, route)
      ensures raised <==> !NeverRaises(DataBeforeSentinel(input), route)
    {
      ghost var d := DataBeforeSentinel(input);
      ghost var q0 := writerQueue;
      var i := 0;
      while i < |input|
        invariant 0 <= i <= |input| && i <= |d|
        invariant i <= FirstRaise(d, route)
        invariant writerQueue == q0 + Outputs(d[..i], route)
      {
        match input[i] {
          case EndOfStream =>
            ScraperOutputAtMarker(input, route, i);
            AppendAssoc(q0, Outputs(d[..i], route), [EndOfStream]);
            writerQueue := writerQueue + [EndOfStream];
            return false;
          case Data(task) =>
            var r := TakeTask(input, i, strategies, route, q0);
            if r {
              return true;
            }
            i := i + 1;
        }
      }
      ScraperOutputAtEnd(input, route);
      raised := false;
    }

    /** The consumer loop takes the task at position `i`, the tasks before
        which neither raised nor reached a marker: either its routing loop
        raises and the consumer ends, or its output follows theirs. */
    method TakeTask(input: seq<Item<QueuedTask>>, i: nat, strategies: Strategies, ghost route: Router,
                    ghost q0: seq<Item<ArticleRecord>>) returns (raised: bool)
      requires Valid() && RoutesBy(route, newsSources, strategies)
      requires i < |input| && input[i].Data?
      requires i <= |DataBeforeSentinel(input)| && i <= FirstRaise(DataBeforeSentinel(input), route)
      requires writerQueue == q0 + Outputs(DataBeforeSentinel(input)[..i], route)
      modifies this`writerQueue
      ensures raised ==> writerQueue == q0 + ScraperOutput(input, route)
      ensures raised <==> !NeverRaises(DataBeforeSentinel(input), route) && RaisesOn(input[i].value, route)
      ensures !raised ==> i < |DataBeforeSentinel(input)| && i + 1 <= FirstRaise(DataBeforeSentinel(input), route)
      ensures !raised ==> writerQueue == q0 + Outputs(DataBeforeSentinel(input)[..i + 1], route)
    {
      ghost var q := writerQueue;
      raised := RouteTask(input[i].value, strategies, route);
      if raised {
        ScraperOutputAtRaise(input, route, i);
      } else {
        ScraperOutputStep(input, route, i, q0, q);
      }
    }

    /** One task: the body of the consumer loop after the marker test;
        `raised` when a scraper call raised. The marker a cancellation puts
        inside the routing loop is put here, right after it: nothing else
        is put in between. */
    method RouteTask(task: QueuedTask, strategies: Strategies, ghost route: Router) returns (raised: bool)
      requires Valid() && RoutesBy(route, newsSources, strategies)
      modifies this`writerQueue
      ensures writerQueue == old(writerQueue) + ItemOutput(task, route)
      ensures raised <==> RaisesOn(task, route)
    {
      if task.url.None? {
        return false;
      }
      var url := task.url.value;
      var s := RouteText(task.source, url, strategies);
      assert route(task.source, url) == s;
      if s.Uncaught? {
        return true;
      }
      if s.cancelled {
        writerQueue := writerQueue + [EndOfStream];
      }
      if s.text != "" {
        writerQueue := writerQueue + [Data(ArticleRecord(url, task.sentiment, s.text))];
      }
      raised := false;
    }

    /** The routing loop of one task: every entry whose source equals the
        task's source has its scraper function awaited, and the text it
        returns replaces the text so far; a cancellation leaves the loop by
        `break`, and any other exception leaves it uncaught. */
    method RouteText(source: string, url: string, strategies: Strategies) returns (s: Scan)
      requires Valid()
      ensures s == ScanRoutes(newsSources, source, url, strategies)
    {
      ghost var routes := newsSources;
      AllConvertedIff(routes);
      var articleText := "";
      var j := 0;
      while j < |newsSources|
        invariant 0 <= j <= |newsSources|
        invariant AllConverted(routes[..j])
        invariant ScanRoutes(routes[..j], source, url, strategies) == Scan(articleText, false)
      {
        assert routes[..j + 1][..j] == routes[..j];
        var e := newsSources[j];
        if e.source == Text(source) {
          var result := strategies(e.functionName.name)(url);
          if result.Cancelled? {
            ScanStopPersists(routes, j + 1, source, url, strategies);
            return Scan(articleText, true);
          }
          if result.Raised? {
            ScanStopPersists(routes, j + 1, source, url, strategies);
            return Uncaught;
          }
          articleText := result.text;
        }
        j := j + 1;
      }
      assert routes[..j] == routes;
      s := Scan(articleText, false);
    }
  }

  /** Once the routing loop has stopped, the later entries are not tried. */
  lemma {:induction false} ScanStopPersists(routes: seq<NewsSource>, k: nat, source: string, url: string, strategies: Strategies)
    requires AllConverted(routes)
    requires k <= |routes| && AllConverted(routes[..k])
    requires Stopped(ScanRoutes(routes[..k], source, url, strategies))
    ensures ScanRoutes(routes, source, url, strategies) == ScanRoutes(routes[..k], source, url, strategies)
    decreases |routes| - k
  {
    if k < |routes| {
      assert routes[..k + 1][..k] == routes[..k];
      AllConvertedPrefix(routes, k + 1);
      ScanStopPersists(routes, k + 1, source, url, strategies);
    } else {
      assert routes[..k] == routes;
    }
  }

  /** `ArticleScraper(...)`: the validation error, or a scraper over the
      converted configuration. */
  method NewArticleScraper(newsSources: array<NewsSource>, writerQueue: seq<Item<ArticleRecord>>, registry: set<string>)
    returns (outcome: Outcome<ConfigError>, scraper: ArticleScraper?)
    modifies newsSources
    ensures outcome == ValidateNewsSources(old(newsSources[..]), registry)
    ensures outcome == Pass <==> scraper != null
    ensures outcome != Pass ==> newsSources[..] == old(newsSources[..])
    ensures scraper != null ==>
              fresh(scraper) && scraper.Valid() && scraper.newsSources == newsSources[..] &&
              scraper.writerQueue == writerQueue && newsSources[..] == ConvertAll(old(newsSources[..]), registry)
  {
    outcome := ValidateNewsSources(newsSources[..], registry);
    if outcome != Pass {
      return outcome, null;
    }
    scraper := new ArticleScraper(newsSources, writerQueue, registry);
  }

  // ---------------------------------------------------------------------
  // Properties of the stage

  /** Every forwarded record comes from a task taken: it carries that
      task's URL and sentiment and a non-empty text; there are never more
      records than tasks. */
  lemma {:induction false} ForwardedRecords(tasks: seq<QueuedTask>, route: Router)
    ensures |DataOf(Outputs(tasks, route))| <= |tasks|
    ensures forall r :: r in DataOf(Outputs(tasks, route)) ==>
              exists i :: 0 <= i < |tasks| && tasks[i].url == Some(r.url) && r.sentiment == tasks[i].sentiment && r.articleText != ""
  {
    if tasks != [] {
      var p := tasks[..|tasks| - 1];
      var last := tasks[|tasks| - 1];
      ForwardedRecords(p, route);
      assert tasks == p + [last];
      OutputsSnoc(p, last, route);
      ItemOutputRecords(last, route);
      DataOfAppend(Outputs(p, route), ItemOutput(last, route));
      forall r | r in DataOf(Outputs(tasks, route))
        ensures exists i :: 0 <= i < |tasks| && tasks[i].url == Some(r.url) && r.sentiment == tasks[i].sentiment && r.articleText != ""
      {
        if r in DataOf(Outputs(p, route)) {
          var i :| 0 <= i < |p| && p[i].url == Some(r.url) && r.sentiment == p[i].sentiment && r.articleText != "";
          assert tasks[i] == p[i];
        } else {
          assert tasks[|tasks| - 1] == last;
        }
      }
    }
  }

  /** The records the consumer forwards, task by task: one for each task
      with a URL whose routing loop ended, without raising, with a
      non-empty text. */
  function Forwarded(tasks: seq<QueuedTask>, route: Router): (recs: seq<ArticleRecord>)
    ensures |recs| <= |tasks|
  {
    if tasks == [] then []
    else
      var t := tasks[|tasks| - 1];
      Forwarded(tasks[..|tasks| - 1], route) +
      (if t.url.Some? && route(t.source, t.url.value).Scan? && route(t.source, t.url.value).text != ""
       then [ArticleRecord(t.url.value, t.sentiment, route(t.source, t.url.value).text)] else [])
  }

  /** The records on the writer queue are exactly the forwarded ones, in
      the order their tasks were taken; the markers between them carry no
      record. */
  lemma {:induction false} OutputsCarryForwarded(tasks: seq<QueuedTask>, route: Router)
    ensures DataOf(Outputs(tasks, route)) == Forwarded(tasks, route)
  {
    if tasks != [] {
      var p := tasks[..|tasks| - 1];
      var t := tasks[|tasks| - 1];
      OutputsCarryForwarded(p, route);
      assert tasks == p + [t];
      OutputsSnoc(p, t, route);
      DataOfAppend(Outputs(p, route), ItemOutput(t, route));
      ItemRecord(t, route);
    }
  }

  /** The record one task contributes, if any. */
  lemma ItemRecord(t: QueuedTask, route: Router)
    ensures DataOf(ItemOutput(t, route)) ==
            if t.url.Some? && route(t.source, t.url.value).Scan? && route(t.source, t.url.value).text != ""
            then [ArticleRecord(t.url.value, t.sentiment, route(t.source, t.url.value).text)] else []
  {
    if t.url.Some? && !RaisesOn(t, route) {
      var s := route(t.source, t.url.value);
      var marker: seq<Item<ArticleRecord>> := if s.cancelled then [EndOfStream] else [];
      var record: seq<Item<ArticleRecord>> := if s.text == "" then [] else [Data(ArticleRecord(t.url.value, t.sentiment, s.text))];
      assert ItemOutput(t, route) == marker + record;
      DataOfAppend(marker, record);
      if s.cancelled {
        assert marker[..0] == [];
      }
      if record != [] {
        assert record[..0] == [];
      }
    }
  }

  /** No task's routing loop is cancelled. */
  predicate NeverCancelled(tasks: seq<QueuedTask>, route: Router)
  {
    forall i :: 0 <= i < |tasks| ==> !CancelledOn(tasks[i], route)
  }

  lemma {:induction false} OutputsWithoutCancellation(tasks: seq<QueuedTask>, route: Router)
    requires NeverCancelled(tasks, route)
    ensures CountSentinels(Outputs(tasks, route)) == 0
  {
    if tasks != [] {
      var p := tasks[..|tasks| - 1];
      assert NeverCancelled(p, route) by {
        forall i | 0 <= i < |p| ensures p[i] == tasks[i] {}
      }
      OutputsWithoutCancellation(p, route);
      ItemOutputMarkers(tasks[|tasks| - 1], route);
      CountSentinelsAppend(Outputs(p, route), ItemOutput(tasks[|tasks| - 1], route));
    }
  }

  /** When no scraper call is cancelled, the writer queue gets exactly one
      marker if the task queue had one and no scraper call raised, and none
      otherwise. */
  lemma OneSentinelWithoutCancellation(input: seq<Item<QueuedTask>>, route: Router)
    requires NeverCancelled(DataBeforeSentinel(input), route)
    ensures CountSentinels(ScraperOutput(input, route)) ==
              if EndOfStream in input && NeverRaises(DataBeforeSentinel(input), route) then 1 else 0
  {
    var d := DataBeforeSentinel(input);
    var k := FirstRaise(d, route);
    assert k == |d| <==> NeverRaises(d, route);
    var marker: seq<Item<ArticleRecord>> := if k == |d| && EndOfStream in input then [EndOfStream] else [];
    assert NeverCancelled(d[..k], route) by {
      forall i | 0 <= i < k ensures d[..k][i] == d[i] {}
    }
    OutputsWithoutCancellation(d[..k], route);
    CountSentinelsAppend(Outputs(d[..k], route), marker);
    if marker != [] {
      assert marker[..0] == [];
    }
  }

  /** When no scraper call is cancelled or raises and the task queue had
      a marker, the writer queue gets every forwarded record and then one
      marker. */
  lemma CompleteScraperOutput(input: seq<Item<QueuedTask>>, route: Router)
    requires NeverCancelled(DataBeforeSentinel(input), route) && NeverRaises(DataBeforeSentinel(input), route)
    requires EndOfStream in input
    ensures ScraperOutput(input, route) == DataItems(DataOf(Outputs(DataBeforeSentinel(input), route))) + [EndOfStream]
  {
    var d := DataBeforeSentinel(input);
    assert FirstRaise(d, route) == |d| && d[..|d|] == d;
    var o := Outputs(d, route);
    OutputsWithoutCancellation(d, route);
    NoSentinelIsData(o);
  }

  /** When a scraper call raises and none is cancelled, the writer queue
      gets only the records forwarded before that task, and no marker. */
  lemma RaisingScraperPutsOnlyRecords(input: seq<Item<QueuedTask>>, route: Router)
    requires NeverCancelled(DataBeforeSentinel(input), route) && !NeverRaises(DataBeforeSentinel(input), route)
    ensures var d := DataBeforeSentinel(input);
      ScraperOutput(input, route) == DataItems(DataOf(Outputs(d[..FirstRaise(d, route)], route)))
  {
    var d := DataBeforeSentinel(input);
    var k := FirstRaise(d, route);
    var o := Outputs(d[..k], route);
    assert ScraperOutput(input, route) == o + [];
    assert NeverCancelled(d[..k], route) by {
      forall i | 0 <= i < k ensures d[..k][i] == d[i] {}
    }
    OutputsWithoutCancellation(d[..k], route);
    NoSentinelIsData(o);
  }

  /** A task whose routing loop does not raise puts its own output, and the
      loop goes on with the rest of the queue. */
  lemma ScraperOutputCons(task: QueuedTask, rest: seq<Item<QueuedTask>>, route: Router)
    requires !RaisesOn(task, route)
    ensures ScraperOutput([Data(task)] + rest, route) == ItemOutput(task, route) + ScraperOutput(rest, route)
  {
    var input := [Data(task)] + rest;
    var dr := DataBeforeSentinel(rest);
    var k := FirstRaise(dr, route);
    TasksBeforeRaiseCons(task, rest, route);
    var head, tail := ItemOutput(task, route), Outputs(dr[..k], route);
    var marker: seq<Item<ArticleRecord>> := if k == |dr| && EndOfStream in rest then [EndOfStream] else [];
    assert (EndOfStream in input) == (EndOfStream in rest);
    assert ScraperOutput(input, route) == (head + tail) + marker;
    AppendAssoc(head, tail, marker);
  }

  /** With a task in front that does not raise, the tasks the consumer
      runs are that task and then those it runs on the rest. */
  lemma TasksBeforeRaiseCons(task: QueuedTask, rest: seq<Item<QueuedTask>>, route: Router)
    requires !RaisesOn(task, route)
    ensures var d, dr := DataBeforeSentinel([Data(task)] + rest), DataBeforeSentinel(rest);
      |d| == 1 + |dr| && FirstRaise(d, route) == 1 + FirstRaise(dr, route) &&
      Outputs(d[..FirstRaise(d, route)], route) == ItemOutput(task, route) + Outputs(dr[..FirstRaise(dr, route)], route)
  {
    var d, dr := DataBeforeSentinel([Data(task)] + rest), DataBeforeSentinel(rest);
    DataBeforeSentinelCons(task, rest);
    FirstRaiseCons(task, dr, route);
    var k := FirstRaise(dr, route);
    assert d[..1 + k] == [task] + dr[..k];
    OutputsCons(task, dr[..k], route);
  }

  /** Outputs of a task list with one task in front. */
  lemma OutputsCons(t: QueuedTask, tasks: seq<QueuedTask>, route: Router)
    ensures Outputs([t] + tasks, route) == ItemOutput(t, route) + Outputs(tasks, route)
  {
    assert Outputs([t], route) == ItemOutput(t, route) by {
      assert [t][..0] == [];
    }
    OutputsAppend([t], tasks, route);
  }

  /** A task in front that does not raise moves the first raise one on. */
  lemma FirstRaiseCons(t: QueuedTask, tasks: seq<QueuedTask>, route: Router)
    requires !RaisesOn(t, route)
    ensures FirstRaise([t] + tasks, route) == 1 + FirstRaise(tasks, route)
  {
    assert ([t] + tasks)[1..] == tasks;
  }

  /** A task whose routing loop raises ends the consumer: nothing for it,
      nothing for the tasks after it, and no marker. */
  lemma RaisingTaskEndsScraper(task: QueuedTask, rest: seq<Item<QueuedTask>>, route: Router)
    requires RaisesOn(task, route)
    ensures ScraperOutput([Data(task)] + rest, route) == []
  {
    var input := [Data(task)] + rest;
    var d := DataBeforeSentinel(input);
    assert d[0] == task;
    assert FirstRaise(d, route) == 0;
    assert d[..0] == [];
    assert Outputs([], route) == [];
  }

  /** A cancelled call puts a marker and the loop goes on: a task queue
      whose first task is cancelled gives the writer that marker before
      everything the rest of the queue gives. */
  lemma CancelledTaskPutsMarkerFirst(task: QueuedTask, rest: seq<Item<QueuedTask>>, route: Router)
    requires CancelledOn(task, route)
    ensures ScraperOutput([Data(task)] + rest, route) == ItemOutput(task, route) + ScraperOutput(rest, route)
    ensures ScraperOutput([Data(task)] + rest, route)[0] == EndOfStream
  {
    ScraperOutputCons(task, rest, route);
  }

  /** The failure marker a scraper function returns is a non-empty text, so
      a task whose only matching entry fails is still forwarded, with the
      text "Exception". */
  lemma ExceptionMarkerIsForwarded(task: QueuedTask, routes: seq<NewsSource>, strategies: Strategies, k: nat, f: string)
    requires AllConverted(routes)
    requires task.url.Some?
    requires k < |routes| && Matches(routes[k], task.source) && routes[k].functionName == FnRef(f)
    requires forall j :: 0 <= j < |routes| && j != k ==> !Matches(routes[j], task.source)
    requires strategies(f)(task.url.value) == Returned("Exception")
    ensures ItemOutput(task, RouterOf(routes, strategies)) ==
              [Data(ArticleRecord(task.url.value, task.sentiment, "Exception"))]
  {
    assert forall i :: !StopsAt(routes, i, task.source, task.url.value, strategies);
    LastMatchWins(routes, task.source, task.url.value, strategies, k, f);
  }

  /** A task whose source no entry names is dropped. */
  lemma UnroutedTaskIsDropped(task: QueuedTask, routes: seq<NewsSource>, strategies: Strategies)
    requires AllConverted(routes)
    requires forall j :: 0 <= j < |routes| ==> !Matches(routes[j], task.source)
    ensures ItemOutput(task, RouterOf(routes, strategies)) == []
  {
    if task.url.Some? {
      NoMatchNoText(routes, task.source, task.url.value, strategies);
    }
  }
}
