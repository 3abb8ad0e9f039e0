/** Start-up validation of the news-source configuration
    (`validate_news_sources` in helpers.py). Each configured entry is a
    dictionary with a "source" (a URL substring) and a "function_name" (the
    name of an extraction function in the scraper-function module). */
module Helpers {
  import opened Common

  /** A value read out of a configuration dictionary with `.get`.
      `Missing` stands both for an absent key and for Python's `None`;
      `FnRef(name)` is a reference to the module function called `name`,
      which is what the fetcher stores in place of the name. */
  datatype Field = Missing | Text(s: string) | FnRef(name: string)

  /** Python truthiness of a field: `None` and `""` are false, a function is true. */
  predicate Truthy(f: Field)
  {
    match f
    case Missing => false
    case Text(s) => s != ""
    case FnRef(_) => true
  }

  datatype NewsSource = NewsSource(source: Field, functionName: Field)

  /** The four exception classes of helpers.py. */
  datatype ConfigError =
    | EmptyNewsSources
    | EmptyScraperSource
    | EmptyScraperFunction
    | ScraperFunctionNotImplemented

  /** The names `getmembers(scraper_functions, isfunction)` yields: the three
      extraction functions and the two functions the module imports from
      `urllib.parse`. */
  const ScraperModuleFunctions: set<string> := {"yahoo", "nytimes", "theguardian", "urlparse", "urljoin"}

  /** `name in module_functions`: only a string key can be found. */
  predicate Registered(f: Field, registry: set<string>)
  {
    f.Text? && f.s in registry
  }

  /** The three checks on one entry, in the order the source makes them. */
  function CheckEntry(e: NewsSource, registry: set<string>): (r: Outcome<ConfigError>)
    ensures r == Pass <==> Truthy(e.source) && Truthy(e.functionName) && Registered(e.functionName, registry)
    ensures r != Fail(EmptyNewsSources)
  {
    if !Truthy(e.source) then Fail(EmptyScraperSource)
    else if !Truthy(e.functionName) then Fail(EmptyScraperFunction)
    else if !Registered(e.functionName, registry) then Fail(ScraperFunctionNotImplemented)
    else Pass
  }

  /** The missing source is reported first, then the missing function name,
      then the unknown function name. */
  lemma CheckEntryOrder(e: NewsSource, registry: set<string>)
    ensures !Truthy(e.source) ==> CheckEntry(e, registry) == Fail(EmptyScraperSource)
    ensures Truthy(e.source) && !Truthy(e.functionName) ==> CheckEntry(e, registry) == Fail(EmptyScraperFunction)
    ensures Truthy(e.source) && Truthy(e.functionName) && !Registered(e.functionName, registry) ==>
              CheckEntry(e, registry) == Fail(ScraperFunctionNotImplemented)
  {
  }

  /** The first failing check of the entries, scanned in list order. */
  function FirstEntryError(sources: seq<NewsSource>, registry: set<string>): (r: Outcome<ConfigError>)
    ensures r == Pass <==> forall i :: 0 <= i < |sources| ==> CheckEntry(sources[i], registry) == Pass
    ensures r != Pass ==> exists i :: 0 <= i < |sources| && r == CheckEntry(sources[i], registry)
  {
    if sources == [] then Pass
    else match CheckEntry(sources[0], registry)
      case Fail(e) => Fail(e)
      case Pass => FirstEntryError(sources[1..], registry)
  }

  /** `validate_news_sources`: `Pass` where the source returns normally, and
      otherwise the exception it raises. The list is only read. */
  function ValidateNewsSources(sources: seq<NewsSource>, registry: set<string>): (r: Outcome<ConfigError>)
    ensures sources == [] ==> r == Fail(EmptyNewsSources)
    ensures r == Pass <==> sources != [] && forall i :: 0 <= i < |sources| ==> CheckEntry(sources[i], registry) == Pass
    ensures sources != [] && r != Pass ==> exists i :: 0 <= i < |sources| && r == CheckEntry(sources[i], registry)
  {
    if |sources| == 0 then Fail(EmptyNewsSources) else FirstEntryError(sources, registry)
  }

  /** The error raised is the first failing check of the first bad entry. */
  lemma {:induction false} ValidateReportsFirstBadEntry(sources: seq<NewsSource>, registry: set<string>, k: nat)
    requires k < |sources|
    requires CheckEntry(sources[k], registry) != Pass
    requires forall i :: 0 <= i < k ==> CheckEntry(sources[i], registry) == Pass
    ensures ValidateNewsSources(sources, registry) == CheckEntry(sources[k], registry)
  {
    FirstErrorAt(sources, registry, k);
  }

  lemma {:induction false} FirstErrorAt(sources: seq<NewsSource>, registry: set<string>, k: nat)
    requires k < |sources|
    requires CheckEntry(sources[k], registry) != Pass
    requires forall i :: 0 <= i < k ==> CheckEntry(sources[i], registry) == Pass
    ensures FirstEntryError(sources, registry) == CheckEntry(sources[k], registry)
  {
    if k > 0 {
      assert CheckEntry(sources[0], registry) == Pass;
      assert forall i :: 0 <= i < k - 1 ==> sources[1..][i] == sources[i + 1];
      FirstErrorAt(sources[1..], registry, k - 1);
    }
  }

  /** Entries after the first bad one never change the verdict. */
  lemma {:induction false} ValidateIgnoresTailAfterError(sources: seq<NewsSource>, tail: seq<NewsSource>, registry: set<string>)
    requires sources != []
    requires ValidateNewsSources(sources, registry) != Pass
    ensures ValidateNewsSources(sources + tail, registry) == ValidateNewsSources(sources, registry)
  {
    FirstErrorIgnoresTail(sources, tail, registry);
  }

  lemma {:induction false} FirstErrorIgnoresTail(sources: seq<NewsSource>, tail: seq<NewsSource>, registry: set<string>)
    requires FirstEntryError(sources, registry) != Pass
    ensures FirstEntryError(sources + tail, registry) == FirstEntryError(sources, registry)
  {
    assert sources != [];
    assert (sources + tail)[0] == sources[0];
    if CheckEntry(sources[0], registry) == Pass {
      assert (sources + tail)[1..] == sources[1..] + tail;
      FirstErrorIgnoresTail(sources[1..], tail, registry);
    }
  }

  /** The configuration main.py passes to both stages is accepted. */
  lemma MainConfigurationIsValid()
    ensures ValidateNewsSources(
              [ NewsSource(Text("www.theguardian.com"), Text("theguardian")),
                NewsSource(Text("://news.yahoo.com"), Text("yahoo")),
                NewsSource(Text("://www.nytimes.com"), Text("nytimes")) ],
              ScraperModuleFunctions) == Pass
  {
  }

  /** Because the registry holds every function visible in the module, an
      imported helper passes validation as if it were an extraction function. */
  lemma ImportedHelperPassesValidation(source: string)
    requires source != ""
    ensures ValidateNewsSources([NewsSource(Text(source), Text("urljoin"))], ScraperModuleFunctions) == Pass
  {
  }
}
