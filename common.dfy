/** Values shared by all three stages of the scraper: queue items with an
    explicit end-of-stream marker, the records that travel between stages,
    and the few string operations the stages use (splitting on line breaks,
    Python's substring test `a in b`, reversal, dropping empty lines). */
module Common {

  datatype Option<+T> = None | Some(value: T)

  /** Pass, or the first error found. */
  datatype Outcome<+E> = Pass | Fail(error: E)

  /** An item taken from a queue: a payload, or the end-of-stream marker
      that the Python code writes as `None`. */
  datatype Item<+T> = Data(value: T) | EndOfStream

  newtype byte = x: int | 0 <= x < 256

  type Bytes = seq<byte>

  /** A sentiment score. The source carries it as a float read from a batch
      record and never computes with it, so the model keeps it opaque;
      `NoScore` is what `ar.get("score")` gives for a record without one. */
  datatype Sentiment = NoScore | Score(literal: string)

  /** A task on the cross-stage queue: `{"url", "sentiment", "source"}`. */
  datatype ScrapeTask = ScrapeTask(url: string, sentiment: Sentiment, source: string)

  /** A record on the writer queue: `{"url", "sentiment", "article_text"}`,
      in that key order. */
  datatype ArticleRecord = ArticleRecord(url: string, sentiment: Sentiment, articleText: string)

  /** One cell of a CSV row. */
  datatype Cell = TextCell(text: string) | ScoreCell(score: Sentiment)

  type Row = seq<Cell>

  // ---------------------------------------------------------------------
  // Queues

  /** The payloads a consumer takes off a queue before it first meets the
      end-of-stream marker. */
  function DataBeforeSentinel<T>(q: seq<Item<T>>): (d: seq<T>)
    ensures |d| <= |q|
    ensures forall i :: 0 <= i < |d| ==> q[i] == Data(d[i])
    ensures |d| < |q| ==> q[|d|] == EndOfStream
  {
    if q == [] then []
    else match q[0]
      case EndOfStream => []
      case Data(x) => [x] + DataBeforeSentinel(q[1..])
  }

  /** The queue holds an end-of-stream marker exactly when a consumer stops
      before it has read all of it. */
  lemma SentinelIffShortPrefix<T>(q: seq<Item<T>>)
    ensures EndOfStream in q <==> |DataBeforeSentinel(q)| < |q|
  {
    var d := DataBeforeSentinel(q);
    if |d| == |q| {
      assert forall i :: 0 <= i < |q| ==> q[i].Data?;
    }
  }

  /** Appending is associative (stated once so that queue proofs need not
      rediscover it element by element). */
  lemma AppendAssoc<T>(a: seq<T>, b: seq<T>, c: seq<T>)
    ensures (a + b) + c == a + (b + c)
  {
  }

  /** A payload met at position `i` before any marker extends the payloads
      read so far by one. */
  lemma DataBeforeSentinelStep<T>(q: seq<Item<T>>, i: nat)
    requires i < |q| && i <= |DataBeforeSentinel(q)| && q[i].Data?
    ensures i < |DataBeforeSentinel(q)|
    ensures DataBeforeSentinel(q)[..i + 1] == DataBeforeSentinel(q)[..i] + [q[i].value]
  {
    var d := DataBeforeSentinel(q);
    assert d[..i + 1] == d[..i] + [d[i]];
  }

  /** Payloads with no marker after them are all taken. */
  lemma DataBeforeSentinelOfData<T>(d: seq<T>)
    ensures DataBeforeSentinel(DataItems(d)) == d
  {
    var q := DataItems(d);
    CountSentinelsOfData(d);
    SentinelIffShortPrefix(q);
    var r := DataBeforeSentinel(q);
    assert forall i :: 0 <= i < |r| ==> Data(r[i]) == q[i] == Data(d[i]);
  }

  /** A payload in front of a queue is taken first. */
  lemma DataBeforeSentinelCons<T>(x: T, rest: seq<Item<T>>)
    ensures DataBeforeSentinel([Data(x)] + rest) == [x] + DataBeforeSentinel(rest)
  {
    assert ([Data(x)] + rest)[1..] == rest;
  }

  /** Payloads followed by one marker are read back as exactly those payloads. */
  lemma {:induction false} DataBeforeSentinelOfStream<T>(d: seq<T>, rest: seq<Item<T>>)
    ensures DataBeforeSentinel(DataItems(d) + [EndOfStream] + rest) == d
  {
    var q := DataItems(d) + [EndOfStream] + rest;
    if d != [] {
      assert q[1..] == DataItems(d[1..]) + [EndOfStream] + rest;
      DataBeforeSentinelOfStream(d[1..], rest);
      assert [d[0]] + d[1..] == d;
    }
  }

  /** `n` end-of-stream markers. */
  function Sentinels<T>(n: nat): (s: seq<Item<T>>)
    ensures |s| == n
    ensures forall i :: 0 <= i < n ==> s[i] == EndOfStream
  {
    seq(n, _ => EndOfStream)
  }

  /** Each payload wrapped as a queue item, in order. */
  function DataItems<T>(d: seq<T>): (q: seq<Item<T>>)
    ensures |q| == |d|
    ensures forall i :: 0 <= i < |d| ==> q[i] == Data(d[i])
  {
    seq(|d|, i requires 0 <= i < |d| => Data(d[i]))
  }

  /** Wrapping one more payload adds its item at the end. */
  lemma DataItemsSnoc<T>(d: seq<T>, x: T)
    ensures DataItems(d + [x]) == DataItems(d) + [Data(x)]
  {
    assert DataItems(d + [x]) == DataItems(d) + [Data(x)];
  }

  /** The number of end-of-stream markers in a queue. */
  function CountSentinels<T>(q: seq<Item<T>>): (n: nat)
    ensures n <= |q|
    ensures n == 0 <==> EndOfStream !in q
  {
    if q == [] then 0
    else CountSentinels(q[..|q| - 1]) + (if q[|q| - 1] == EndOfStream then 1 else 0)
  }

  lemma {:induction false} CountSentinelsAppend<T>(a: seq<Item<T>>, b: seq<Item<T>>)
    ensures CountSentinels(a + b) == CountSentinels(a) + CountSentinels(b)
  {
    if b != [] {
      calc {
        CountSentinels(a + b);
        { assert (a + b)[..|a + b| - 1] == a + b[..|b| - 1]; }
        CountSentinels(a + b[..|b| - 1]) + (if b[|b| - 1] == EndOfStream then 1 else 0);
        { CountSentinelsAppend(a, b[..|b| - 1]); }
        CountSentinels(a) + CountSentinels(b);
      }
    } else {
      assert a + b == a;
    }
  }

  lemma {:induction false} CountSentinelsOfSentinels<T>(n: nat)
    ensures CountSentinels(Sentinels<T>(n)) == n
  {
    if n > 0 {
      assert Sentinels<T>(n)[..n - 1] == Sentinels<T>(n - 1);
      CountSentinelsOfSentinels<T>(n - 1);
    }
  }

  lemma {:induction false} CountSentinelsOfData<T>(d: seq<T>)
    ensures CountSentinels(DataItems(d)) == 0
  {
    if d != [] {
      assert DataItems(d)[..|d| - 1] == DataItems(d[..|d| - 1]);
      CountSentinelsOfData(d[..|d| - 1]);
    }
  }

  /** The payloads of a queue in order, skipping its markers. */
  function DataOf<T>(q: seq<Item<T>>): (d: seq<T>)
    ensures |d| <= |q|
  {
    if q == [] then []
    else DataOf(q[..|q| - 1]) + (match q[|q| - 1] case Data(x) => [x] case EndOfStream => [])
  }

  lemma {:induction false} DataOfAppend<T>(a: seq<Item<T>>, b: seq<Item<T>>)
    ensures DataOf(a + b) == DataOf(a) + DataOf(b)
  {
    if b == [] {
      assert a + b == a;
    } else {
      assert (a + b)[..|a + b| - 1] == a + b[..|b| - 1];
      DataOfAppend(a, b[..|b| - 1]);
    }
  }

  /** Wrapped payloads give back the payloads. */
  lemma {:induction false} DataOfDataItems<T>(d: seq<T>)
    ensures DataOf(DataItems(d)) == d
  {
    if d != [] {
      var p := d[..|d| - 1];
      DataOfDataItems(p);
      assert DataItems(d)[..|d| - 1] == DataItems(p);
      assert p + [d[|d| - 1]] == d;
    }
  }

  /** Markers carry no payload. */
  lemma {:induction false} DataOfSentinels<T>(n: nat)
    ensures DataOf(Sentinels<T>(n)) == []
  {
    if n > 0 {
      assert Sentinels<T>(n)[..n - 1] == Sentinels<T>(n - 1);
      DataOfSentinels<T>(n - 1);
    }
  }

  /** A queue without markers is its payloads, wrapped. */
  lemma {:induction false} NoSentinelIsData<T>(q: seq<Item<T>>)
    requires CountSentinels(q) == 0
    ensures q == DataItems(DataOf(q))
  {
    if q != [] {
      var p := q[..|q| - 1];
      NoSentinelIsData(p);
      assert q == p + [q[|q| - 1]];
      assert DataItems(DataOf(q)) == DataItems(DataOf(p)) + [q[|q| - 1]];
    }
  }

  // ---------------------------------------------------------------------
  // Strings

  /** Python's `s.split(sep)`: the pieces between separators, always at
      least one, none containing the separator. */
  function Split(s: string, sep: char): (parts: seq<string>)
    ensures |parts| >= 1
    ensures forall i :: 0 <= i < |parts| ==> sep !in parts[i]
  {
    if s == [] then [""]
    else
      var rest := Split(s[1..], sep);
      if s[0] == sep then [""] + rest
      else [[s[0]] + rest[0]] + rest[1..]
  }

  /** Python's `sep.join(parts)`. */
  function Join(parts: seq<string>, sep: char): string
    requires |parts| >= 1
  {
    if |parts| == 1 then parts[0] else parts[0] + [sep] + Join(parts[1..], sep)
  }

  /** Splitting loses nothing: joining the pieces back gives the text. */
  lemma {:induction false} JoinSplit(s: string, sep: char)
    ensures Join(Split(s, sep), sep) == s
  {
    if s != [] {
      var rest := Split(s[1..], sep);
      JoinSplit(s[1..], sep);
      if s[0] != sep {
        if |rest| == 1 {
          assert Join(Split(s, sep), sep) == [s[0]] + rest[0];
        } else {
          assert Split(s, sep)[1..] == rest[1..];
          assert Join(rest, sep) == rest[0] + [sep] + Join(rest[1..], sep);
        }
      }
    }
  }

  /** Splitting a join of separator-free pieces gives the pieces back. */
  lemma {:induction false} SplitJoin(parts: seq<string>, sep: char)
    requires |parts| >= 1
    requires forall i :: 0 <= i < |parts| ==> sep !in parts[i]
    ensures Split(Join(parts, sep), sep) == parts
  {
    if |parts| == 1 {
      SplitNoSep(parts[0], sep);
    } else {
      SplitJoin(parts[1..], sep);
      SplitAppend(parts[0], Join(parts[1..], sep), sep);
      SplitNoSep(parts[0], sep);
      assert [parts[0]] + parts[1..] == parts;
    }
  }

  /** Text without a separator is a single piece. */
  lemma {:induction false} SplitNoSep(s: string, sep: char)
    requires sep !in s
    ensures Split(s, sep) == [s]
  {
    if s != [] {
      SplitNoSep(s[1..], sep);
      assert [s[0]] + s[1..] == s;
    }
  }

  /** A separator between two texts separates their pieces. */
  lemma {:induction false} SplitAppend(a: string, b: string, sep: char)
    ensures Split(a + [sep] + b, sep) == Split(a, sep) + Split(b, sep)
  {
    if a == [] {
      assert a + [sep] + b == [sep] + b;
      assert ([sep] + b)[1..] == b;
    } else {
      var s := a + [sep] + b;
      assert s[0] == a[0] && s[1..] == a[1..] + [sep] + b;
      SplitAppend(a[1..], b, sep);
    }
  }

  function Reverse<T>(s: seq<T>): (r: seq<T>)
    ensures |r| == |s|
    ensures forall i :: 0 <= i < |s| ==> r[i] == s[|s| - 1 - i]
  {
    if s == [] then []
    else
      assert s == [s[0]] + s[1..];
      Reverse(s[1..]) + [s[0]]
  }

  /** A reversal holds the same items. */
  lemma ReverseMembers<T>(s: seq<T>, x: T)
    ensures x in Reverse(s) <==> x in s
  {
    var r := Reverse(s);
    if x in s {
      var i :| 0 <= i < |s| && s[i] == x;
      assert r[|s| - 1 - i] == x;
    }
    if x in r {
      var i :| 0 <= i < |r| && r[i] == x;
      assert s[|s| - 1 - i] == x;
    }
  }

  /** Dropping the first `h` items of a reversal drops the last `h` items
      of the original. */
  lemma ReverseSuffix<T>(s: seq<T>, h: nat)
    requires h <= |s|
    ensures Reverse(s)[h..] == Reverse(s[..|s| - h])
  {
    var older, newer := s[..|s| - h], s[|s| - h..];
    assert s == older + newer;
    ReverseAppend(older, newer);
    assert Reverse(s)[h..] == (Reverse(newer) + Reverse(older))[|Reverse(newer)|..];
  }

  lemma ReverseAppend<T>(a: seq<T>, b: seq<T>)
    ensures Reverse(a + b) == Reverse(b) + Reverse(a)
  {
    var l, r := Reverse(a + b), Reverse(b) + Reverse(a);
    assert |l| == |r|;
    forall i | 0 <= i < |l| ensures l[i] == r[i] {
      if i < |b| {
        assert l[i] == (a + b)[|a| + |b| - 1 - i] == b[|b| - 1 - i];
      } else {
        assert l[i] == (a + b)[|a| + |b| - 1 - i] == a[|a| - 1 - (i - |b|)];
      }
    }
  }

  /** The non-empty strings of `ls`, in order (`[i for i in ls if len(i)]`). */
  function NonEmpty(ls: seq<string>): (r: seq<string>)
    ensures |r| <= |ls|
    ensures forall l :: l in r <==> l in ls && l != ""
  {
    if ls == [] then []
    else NonEmpty(ls[..|ls| - 1]) + (if ls[|ls| - 1] == "" then [] else [ls[|ls| - 1]])
  }

  lemma {:induction false} NonEmptyAppend(a: seq<string>, b: seq<string>)
    ensures NonEmpty(a + b) == NonEmpty(a) + NonEmpty(b)
  {
    if b == [] {
      assert a + b == a;
    } else {
      assert (a + b)[..|a + b| - 1] == a + b[..|b| - 1];
      NonEmptyAppend(a, b[..|b| - 1]);
    }
  }

  /** Python's substring test `needle in hay`. */
  predicate Contains(hay: string, needle: string)
    decreases |hay|
  {
    |needle| <= |hay| && (hay[..|needle|] == needle || Contains(hay[1..], needle))
  }

  /** `needle` occurs in `hay` starting at offset `k`. */
  predicate OccursAt(hay: string, needle: string, k: int)
  {
    0 <= k <= |hay| - |needle| && hay[k..k + |needle|] == needle
  }

  /** `Contains` holds exactly when the needle occurs at some offset. */
  lemma {:induction false} ContainsIff(hay: string, needle: string)
    ensures Contains(hay, needle) <==> exists k :: OccursAt(hay, needle, k)
    decreases |hay|
  {
    if |needle| <= |hay| && hay[..|needle|] == needle {
      assert OccursAt(hay, needle, 0);
    } else if |needle| < |hay| || (|needle| == |hay| && hay != []) {
      ContainsIff(hay[1..], needle);
      if Contains(hay, needle) {
        var k :| OccursAt(hay[1..], needle, k);
        assert hay[k + 1..k + 1 + |needle|] == hay[1..][k..k + |needle|];
        assert OccursAt(hay, needle, k + 1);
      }
      if k :| OccursAt(hay, needle, k) {
        assert k != 0;
        assert hay[1..][k - 1..k - 1 + |needle|] == hay[k..k + |needle|];
        assert OccursAt(hay[1..], needle, k - 1);
      }
    } else {
      assert forall k :: !OccursAt(hay, needle, k);
    }
  }
}
