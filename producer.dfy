/**
 * The segment producer run at start-up: queue the intro clip, then one clip
 * per coin report, then one clip per news article. Each article is enriched
 * by the LLM only when its URL is not yet in the store of analysed articles;
 * a falsy reply falls back to the title followed by the description, and
 * only a truthy reply writes the store to its file.
 *
 * `ProcessAll` is the reference for the article loop and the `lemma`s below
 * state what it guarantees; `PreGenerate` is the loop itself over the
 * shared store and queue, proved to end in the state `ProcessAll` gives.
 */
module Producer {
  import opened Wrappers
  import Text
  import Format
  import Metrics
  import Enrichment
  import LoopQueue

  /** The intro clip that plays while the rest is being produced. */
  const INTRO: string := "musac1.mp4"

  /** A news article as the provider returns it. */
  datatype Article = Article(url: string, title: string, description: Option<string>)

  /** An entry of the store; an entry read from the file may lack its "analysis". */
  datatype Record = Record(sentiment: real, analysis: Option<string>)

  /** A clip handed to the renderer: where it is written and what it narrates. */
  datatype Segment = Segment(path: string, narration: string)

  /** `article.get("description") or ""`. */
  function ArticleText(a: Article): string {
    a.description.GetOr("")
  }

  /** `f"{title} {analysis}"`. */
  function Narration(title: string, analysis: string): string {
    title + " " + analysis
  }

  /** `article_id.replace('/', '_')`. */
  function ClipStem(url: string): string {
    Text.Replace(url, '/', '_')
  }

  function VideoPath(url: string): string {
    "tts_clips/" + ClipStem(url) + ".mp4"
  }

  function AudioPath(url: string): string {
    "tts_clips/" + ClipStem(url) + ".mp3"
  }

  /** The clip of a coin report, named after the report's hash (`hash` stands for Python's `hash`). */
  function CoinSegment(metric: string, hash: string -> int): Segment {
    Segment("tts_clips/coin_metrics_" + Format.IntToString(hash(metric)) + ".mp4", metric)
  }

  // ---------------------------------------------------------------------
  // Clip names and narration

  /**
   * An article's clip lives directly in `tts_clips/`: the name has the URL's
   * length, keeps every character but '/', which becomes '_', and so holds no
   * '/'; the audio and the video file share that name.
   */
  lemma ClipPathsFlatten(url: string)
    ensures var v, a, stem := VideoPath(url), AudioPath(url), ClipStem(url);
      && |stem| == |url| && '/' !in stem
      && (forall i :: 0 <= i < |url| ==> stem[i] == if url[i] == '/' then '_' else url[i])
      && v == "tts_clips/" + stem + ".mp4" && a == "tts_clips/" + stem + ".mp3"
      && |v| == |url| + 14 && v[..10] == "tts_clips/" && v[10..10 + |url|] == stem
  {
    var v, stem := VideoPath(url), ClipStem(url);
    assert v == "tts_clips/" + (stem + ".mp4");
    assert (stem + ".mp4")[..|stem|] == stem;
  }

  /** The renaming is not one-to-one: URLs that differ only in '/' against '_' share a clip file. */
  lemma ClipPathsCanCollide()
    ensures "a/b" != "a_b" && VideoPath("a/b") == VideoPath("a_b")
  {
    assert ClipStem("a/b") == "a_b" == ClipStem("a_b");
  }

  /** The narration reads the title, then one space, then the analysis. */
  lemma NarrationParts(title: string, analysis: string)
    ensures var m := Narration(title, analysis);
      |m| == |title| + 1 + |analysis| && m[..|title|] == title && m[|title|] == ' ' && m[|title| + 1..] == analysis
  {
    var m := Narration(title, analysis);
    assert m == title + ([' '] + analysis);
  }

  // ---------------------------------------------------------------------
  // The article loop as a function

  /** Where the article loop stands: the store, its last saved copy, the clips so far and the URLs enriched. */
  datatype Run = Run(records: map<string, Record>, saved: map<string, Record>, segments: seq<Segment>, enriched: seq<string>)

  /** The record created for an article seen for the first time, given the enrichment reply. */
  function NewRecord(a: Article, reply: Option<string>, polarity: string -> real): Record {
    Record(polarity(ArticleText(a)), Some(if Enrichment.Truthy(reply) then reply.value else a.title + ArticleText(a)))
  }

  /** The enrichment reply for each article, were it asked for; `llm[i]` is what the endpoints do for article `i`. */
  function Replies(llm: seq<seq<Enrichment.Attempt>>): (r: seq<Option<string>>)
    ensures |r| == |llm|
  {
    seq(|llm|, i requires 0 <= i < |llm| => Enrichment.Failover(llm[i]).reply)
  }

  /** One turn of the article loop. */
  function ProcessArticle(r: Run, a: Article, reply: Option<string>, polarity: string -> real): Run {
    var r1 :=
      if a.url in r.records then r
      else
        var records := r.records[a.url := NewRecord(a, reply, polarity)];
        var saved := if Enrichment.Truthy(reply) then records else r.saved;
        Run(records, saved, r.segments, r.enriched + [a.url]);
    var analysis := r1.records[a.url].analysis;
    if analysis.Some? then r1.(segments := r1.segments + [Segment(VideoPath(a.url), Narration(a.title, analysis.value))])
    else r1
  }

  /** The article loop over `articles`; `replies[i]` is the enrichment reply if article `i` is enriched. */
  function ProcessAll(r: Run, articles: seq<Article>, replies: seq<Option<string>>, polarity: string -> real): Run
    requires |replies| == |articles|
  {
    if articles == [] then r
    else
      var n := |articles| - 1;
      ProcessArticle(ProcessAll(r, articles[..n], replies[..n], polarity), articles[n], replies[n], polarity)
  }

  function Urls(articles: seq<Article>): set<string> {
    set i | 0 <= i < |articles| :: articles[i].url
  }

  /** Article `i` is the first with its URL, and the URL was not in the store before the loop. */
  predicate FirstSeen(records: map<string, Record>, articles: seq<Article>, i: nat)
    requires i < |articles|
  {
    articles[i].url !in records && forall j :: 0 <= j < i ==> articles[j].url != articles[i].url
  }

  predicate IsSubMap(m: map<string, Record>, m': map<string, Record>) {
    forall k :: k in m ==> k in m' && m'[k] == m[k]
  }

  predicate AllAnalysed(records: map<string, Record>) {
    forall k :: k in records ==> records[k].analysis.Some?
  }

  function Elems(s: seq<string>): set<string> {
    set x | x in s
  }

  predicate NoDuplicates(s: seq<string>) {
    forall i, j :: 0 <= i < j < |s| ==> s[i] != s[j]
  }

  // ---------------------------------------------------------------------
  // What the article loop guarantees

  /**
   * One turn on the store: a stored URL leaves everything but the clips as it
   * was; an unseen one gets its new entry, is counted as enriched, and the
   * saved copy catches up with the store exactly when the reply is truthy.
   */
  lemma ArticleStep(r: Run, a: Article, reply: Option<string>, polarity: string -> real)
    ensures var o := ProcessArticle(r, a, reply, polarity);
      && IsSubMap(r.records, o.records) && o.records.Keys == r.records.Keys + {a.url}
      && (a.url in r.records ==> o.records == r.records && o.saved == r.saved && o.enriched == r.enriched)
      && (a.url !in r.records ==>
            && o.records == r.records[a.url := NewRecord(a, reply, polarity)]
            && o.enriched == r.enriched + [a.url]
            && o.saved == if Enrichment.Truthy(reply) then o.records else r.saved)
  {
  }

  lemma ElemsSnoc(s: seq<string>, u: string)
    ensures Elems(s + [u]) == Elems(s) + {u}
  {
  }

  /** Adding `u` to the URLs seen adds it to the unseen ones exactly when it was not stored. */
  lemma UnseenStep(seen: set<string>, stored: set<string>, u: string)
    ensures (seen + {u}) - stored == if u in stored || u in seen then seen - stored else (seen - stored) + {u}
  {
  }

  /**
   * Entries are written once: an entry present before the loop is still there,
   * unchanged, afterwards; the store ends up with exactly the old URLs and
   * those of the articles.
   */
  lemma {:induction false} EntriesWrittenOnce(r: Run, articles: seq<Article>, replies: seq<Option<string>>, polarity: string -> real)
    requires |replies| == |articles|
    ensures var out := ProcessAll(r, articles, replies, polarity);
      IsSubMap(r.records, out.records) && out.records.Keys == r.records.Keys + Urls(articles)
  {
    if articles != [] {
      var n := |articles| - 1;
      EntriesWrittenOnce(r, articles[..n], replies[..n], polarity);
      ArticleStep(ProcessAll(r, articles[..n], replies[..n], polarity), articles[n], replies[n], polarity);
      assert Urls(articles) == Urls(articles[..n]) + {articles[n].url};
    }
  }

  /**
   * The LLM is asked about a URL only when the store lacked it, and at most
   * once per URL.
   */
  lemma {:induction false} EnrichedOnlyWhenUnseen(r: Run, articles: seq<Article>, replies: seq<Option<string>>, polarity: string -> real)
    requires |replies| == |articles| && r.enriched == []
    ensures var out := ProcessAll(r, articles, replies, polarity);
      && NoDuplicates(out.enriched)
      && (forall i :: 0 <= i < |out.enriched| ==> out.enriched[i] !in r.records && out.enriched[i] in out.records)
  {
    if articles != [] {
      var n := |articles| - 1;
      var mid := ProcessAll(r, articles[..n], replies[..n], polarity);
      EnrichedOnlyWhenUnseen(r, articles[..n], replies[..n], polarity);
      EntriesWrittenOnce(r, articles[..n], replies[..n], polarity);
      ArticleStep(mid, articles[n], replies[n], polarity);
    }
  }

  /** The LLM is asked about every URL among the articles that the store lacked. */
  lemma {:induction false} EveryUnseenEnriched(r: Run, articles: seq<Article>, replies: seq<Option<string>>, polarity: string -> real)
    requires |replies| == |articles| && r.enriched == []
    ensures Elems(ProcessAll(r, articles, replies, polarity).enriched) == Urls(articles) - r.records.Keys
  {
    if articles != [] {
      var n := |articles| - 1;
      var mid := ProcessAll(r, articles[..n], replies[..n], polarity);
      var out := ProcessAll(r, articles, replies, polarity);
      EveryUnseenEnriched(r, articles[..n], replies[..n], polarity);
      EntriesWrittenOnce(r, articles[..n], replies[..n], polarity);
      ArticleStep(mid, articles[n], replies[n], polarity);
      var u := articles[n].url;
      assert Urls(articles) == Urls(articles[..n]) + {u};
      if u in mid.records {
        assert u in r.records || u in Urls(articles[..n]);
      } else {
        ElemsSnoc(mid.enriched, u);
      }
      UnseenStep(Urls(articles[..n]), r.records.Keys, u);
    }
  }

  /**
   * The entry of an article seen for the first time is the one made from the
   * LLM outcome of that article: its sentiment, and either the stripped reply
   * or, when the reply is falsy, the title followed by the description.
   */
  lemma {:induction false} FirstSightingDecides(r: Run, articles: seq<Article>, replies: seq<Option<string>>, polarity: string -> real, i: nat)
    requires |replies| == |articles| && i < |articles| && FirstSeen(r.records, articles, i)
    ensures var out := ProcessAll(r, articles, replies, polarity);
      articles[i].url in out.records && out.records[articles[i].url] == NewRecord(articles[i], replies[i], polarity)
  {
    var n := |articles| - 1;
    var mid := ProcessAll(r, articles[..n], replies[..n], polarity);
    EntriesWrittenOnce(r, articles[..n], replies[..n], polarity);
    if i == n {
      assert articles[i].url !in Urls(articles[..n]);
    } else {
      FirstSightingDecides(r, articles[..n], replies[..n], polarity, i);
    }
  }

  /** When every endpoint raises, the entry's analysis is the title followed by the description. */
  lemma AllEndpointsDownFallsBack(a: Article, eps: seq<Enrichment.Attempt>, polarity: string -> real)
    requires forall i :: 0 <= i < |eps| ==> eps[i].outcome.Raised?
    ensures NewRecord(a, Enrichment.Failover(eps).reply, polarity)
      == Record(polarity(ArticleText(a)), Some(a.title + ArticleText(a)))
  {
    Enrichment.AllDownGivesNone(eps);
  }

  /** The saved copy is always a part of the store. */
  lemma {:induction false} SavedIsPartOfStore(r: Run, articles: seq<Article>, replies: seq<Option<string>>, polarity: string -> real)
    requires |replies| == |articles| && IsSubMap(r.saved, r.records)
    ensures var out := ProcessAll(r, articles, replies, polarity);
      IsSubMap(out.saved, out.records)
  {
    if articles != [] {
      var n := |articles| - 1;
      SavedIsPartOfStore(r, articles[..n], replies[..n], polarity);
    }
  }

  /** The saved copy changes only when an enrichment reply was truthy. */
  lemma {:induction false} SavedOnlyOnTruthyReply(r: Run, articles: seq<Article>, replies: seq<Option<string>>, polarity: string -> real)
    requires |replies| == |articles|
    requires forall i :: 0 <= i < |articles| && FirstSeen(r.records, articles, i) ==> !Enrichment.Truthy(replies[i])
    ensures ProcessAll(r, articles, replies, polarity).saved == r.saved
  {
    if articles != [] {
      var n := |articles| - 1;
      var mid := ProcessAll(r, articles[..n], replies[..n], polarity);
      forall i | 0 <= i < n && FirstSeen(r.records, articles[..n], i)
        ensures !Enrichment.Truthy(replies[..n][i])
      {
        FirstSeenInPrefix(r.records, articles, n, i);
      }
      SavedOnlyOnTruthyReply(r, articles[..n], replies[..n], polarity);
      EntriesWrittenOnce(r, articles[..n], replies[..n], polarity);
      var a := articles[n];
      if a.url !in mid.records {
        UnstoredIsFirstSeen(r.records, articles, n, mid.records.Keys);
      }
      ArticleStep(mid, a, replies[n], polarity);
    }
  }

  /** First seen within a prefix is first seen within the whole list. */
  lemma FirstSeenInPrefix(records: map<string, Record>, articles: seq<Article>, n: nat, i: nat)
    requires i < n <= |articles| && FirstSeen(records, articles[..n], i)
    ensures FirstSeen(records, articles, i)
  {
    forall j | 0 <= j < i
      ensures articles[j].url != articles[i].url
    {
      assert articles[..n][j] == articles[j];
    }
  }

  /** An article whose URL is neither stored before the loop nor among those before it is first seen. */
  lemma UnstoredIsFirstSeen(records: map<string, Record>, articles: seq<Article>, n: nat, keys: set<string>)
    requires n < |articles| && keys == records.Keys + Urls(articles[..n]) && articles[n].url !in keys
    ensures FirstSeen(records, articles, n)
  {
    forall j | 0 <= j < n
      ensures articles[j].url != articles[n].url
    {
      assert articles[..n][j] == articles[j];
      assert articles[j].url in Urls(articles[..n]);
    }
  }

  /** An article whose stored entry has no "analysis" gets no clip and changes nothing. */
  lemma EntryWithoutAnalysisSkipped(r: Run, a: Article, reply: Option<string>, polarity: string -> real)
    requires a.url in r.records && r.records[a.url].analysis.None?
    ensures ProcessArticle(r, a, reply, polarity) == r
  {
  }

  /**
   * When every entry has an analysis (as every entry this loop writes does),
   * each article contributes exactly one clip, in article order, narrating
   * its title and its stored analysis.
   */
  lemma {:induction false} OneClipPerArticleInOrder(r: Run, articles: seq<Article>, replies: seq<Option<string>>, polarity: string -> real)
    requires |replies| == |articles| && AllAnalysed(r.records)
    ensures var out := ProcessAll(r, articles, replies, polarity);
      && AllAnalysed(out.records)
      && |out.segments| == |r.segments| + |articles|
      && out.segments[..|r.segments|] == r.segments
      && forall i :: 0 <= i < |articles| ==>
           articles[i].url in out.records
           && out.segments[|r.segments| + i]
              == Segment(VideoPath(articles[i].url), Narration(articles[i].title, out.records[articles[i].url].analysis.value))
  {
    if articles != [] {
      var n := |articles| - 1;
      var mid := ProcessAll(r, articles[..n], replies[..n], polarity);
      var out := ProcessAll(r, articles, replies, polarity);
      OneClipPerArticleInOrder(r, articles[..n], replies[..n], polarity);
      assert IsSubMap(mid.records, out.records);
      assert out.segments == mid.segments + [out.segments[|out.segments| - 1]];
      forall i | 0 <= i < |articles|
        ensures articles[i].url in out.records
        ensures out.segments[|r.segments| + i]
              == Segment(VideoPath(articles[i].url), Narration(articles[i].title, out.records[articles[i].url].analysis.value))
      {
        if i < n {
          assert articles[..n][i] == articles[i];
          assert out.segments[|r.segments| + i] == mid.segments[|r.segments| + i];
        }
      }
    }
  }

  // ---------------------------------------------------------------------
  // The whole start-up pass

  function CoinSegments(texts: seq<string>, hash: string -> int): seq<Segment> {
    Metrics.PerCoin(t => CoinSegment(t, hash), texts)
  }

  function Paths(segments: seq<Segment>): (r: seq<string>)
    ensures |r| == |segments| && forall i :: 0 <= i < |segments| ==> r[i] == segments[i].path
  {
    if segments == [] then [] else Paths(segments[..|segments| - 1]) + [segments[|segments| - 1].path]
  }

  lemma PathsSnoc(s: seq<Segment>, x: Segment)
    ensures Paths(s + [x]) == Paths(s) + [x.path]
  {
    assert (s + [x])[..|s|] == s;
  }

  /** The clips the start-up pass appends to the queue, given the coin reports and the enrichment replies. */
  function InitialFill(records: map<string, Record>, saved: map<string, Record>, texts: seq<string>,
                       hash: string -> int, articles: seq<Article>, replies: seq<Option<string>>,
                       polarity: string -> real): seq<string>
    requires |replies| == |articles|
  {
    var coins := [INTRO] + Paths(CoinSegments(texts, hash));
    if articles == [] then coins
    else coins + Paths(ProcessAll(Run(records, saved, [], []), articles, replies, polarity).segments)
  }

  /**
   * The intro comes first, then one clip per coin report in report order,
   * then the clips of `Kept`: one per article in the order the provider
   * returned them, less those whose stored entry has no analysis — so all of
   * them when every stored entry has one; with no articles the fill stops
   * after the coins.
   */
  lemma FillOrder(records: map<string, Record>, saved: map<string, Record>, texts: seq<string>,
                  hash: string -> int, articles: seq<Article>, replies: seq<Option<string>>,
                  polarity: string -> real)
    requires |replies| == |articles|
    ensures var q := InitialFill(records, saved, texts, hash, articles, replies, polarity);
      && |q| >= 1 + |texts|
      && q[0] == INTRO
      && (forall j :: 0 <= j < |texts| ==> q[1 + j] == CoinSegment(texts[j], hash).path)
      && q == [INTRO] + Paths(CoinSegments(texts, hash)) + Kept(records, articles)
      && (articles == [] ==> |q| == 1 + |texts|)
      && (AllAnalysed(records) ==>
            |q| == 1 + |texts| + |articles|
            && forall i :: 0 <= i < |articles| ==> q[1 + |texts| + i] == VideoPath(articles[i].url))
  {
    var coins, kept := Paths(CoinSegments(texts, hash)), Kept(records, articles);
    FillIsKept(records, saved, texts, hash, articles, replies, polarity);
    CoinClipsInOrder(texts, hash);
    KeptAllWhenAnalysed(records, articles);
    Layout(INTRO, coins, kept);
  }

  /** The article part of the fill is `Kept`, whether or not there are articles. */
  lemma FillIsKept(records: map<string, Record>, saved: map<string, Record>, texts: seq<string>,
                   hash: string -> int, articles: seq<Article>, replies: seq<Option<string>>,
                   polarity: string -> real)
    requires |replies| == |articles|
    ensures InitialFill(records, saved, texts, hash, articles, replies, polarity)
            == [INTRO] + Paths(CoinSegments(texts, hash)) + Kept(records, articles)
  {
    if articles != [] {
      ArticleClipsAreKept(Run(records, saved, [], []), articles, replies, polarity);
      assert Paths([]) == [];
    } else {
      assert Kept(records, articles) == [];
    }
  }

  /** Where each part of a fill `[intro] + coins + clips` sits. */
  lemma Layout(intro: string, coins: seq<string>, clips: seq<string>)
    ensures var q := [intro] + coins + clips;
      && |q| == 1 + |coins| + |clips|
      && q[0] == intro
      && (forall j :: 0 <= j < |coins| ==> q[1 + j] == coins[j])
      && (forall i :: 0 <= i < |clips| ==> q[1 + |coins| + i] == clips[i])
  {
  }

  /** With every stored entry analysed, `Kept` is one clip per article, in article order. */
  lemma {:induction false} KeptAllWhenAnalysed(records: map<string, Record>, articles: seq<Article>)
    ensures AllAnalysed(records) ==>
      |Kept(records, articles)| == |articles|
      && forall i :: 0 <= i < |articles| ==> Kept(records, articles)[i] == VideoPath(articles[i].url)
  {
    if articles != [] {
      var n := |articles| - 1;
      KeptAllWhenAnalysed(records, articles[..n]);
      if AllAnalysed(records) {
        forall i | 0 <= i < n
          ensures Kept(records, articles)[i] == VideoPath(articles[i].url)
        {
          assert articles[..n][i] == articles[i];
        }
      }
    }
  }

  /**
   * The clips the article loop queues, given the store before the loop: one
   * per article, in article order, except an article whose URL already has an
   * entry without an analysis. Entries the loop itself writes always have one.
   */
  function Kept(records: map<string, Record>, articles: seq<Article>): seq<string> {
    if articles == [] then []
    else
      var n := |articles| - 1;
      var a := articles[n];
      Kept(records, articles[..n]) + (if a.url !in records || records[a.url].analysis.Some? then [VideoPath(a.url)] else [])
  }

  /** `Kept` of a non-empty list: `Kept` of all but the last article, then the last one's clip if it is kept. */
  lemma KeptSnoc(records: map<string, Record>, articles: seq<Article>)
    requires articles != []
    ensures var a := articles[|articles| - 1];
      Kept(records, articles) == Kept(records, articles[..|articles| - 1])
        + (if a.url !in records || records[a.url].analysis.Some? then [VideoPath(a.url)] else [])
  {
  }

  /** `x == y + k` with `y == p + m` is `p + (m + k)`. */
  lemma AppendChain<T>(x: seq<T>, y: seq<T>, p: seq<T>, m: seq<T>, k: seq<T>, z: seq<T>)
    requires x == y + k && y == p + m && z == m + k
    ensures x == p + z
  {
  }

  /** Every entry the loop writes has an analysis. */
  lemma {:induction false} NewEntriesAnalysed(r: Run, articles: seq<Article>, replies: seq<Option<string>>, polarity: string -> real)
    requires |replies| == |articles|
    ensures var out := ProcessAll(r, articles, replies, polarity);
      forall k :: k in out.records && k !in r.records ==> out.records[k].analysis.Some?
  {
    if articles != [] {
      var n := |articles| - 1;
      NewEntriesAnalysed(r, articles[..n], replies[..n], polarity);
      ArticleStep(ProcessAll(r, articles[..n], replies[..n], polarity), articles[n], replies[n], polarity);
    }
  }

  /** The loop appends exactly the clips of `Kept`, in that order, to those already there. */
  lemma {:induction false} ArticleClipsAreKept(r: Run, articles: seq<Article>, replies: seq<Option<string>>, polarity: string -> real)
    requires |replies| == |articles|
    ensures Paths(ProcessAll(r, articles, replies, polarity).segments) == Paths(r.segments) + Kept(r.records, articles)
  {
    if articles != [] {
      var n := |articles| - 1;
      var a := articles[n];
      var mid := ProcessAll(r, articles[..n], replies[..n], polarity);
      var out := ProcessArticle(mid, a, replies[n], polarity);
      ArticleClipsAreKept(r, articles[..n], replies[..n], polarity);
      var keep := a.url !in r.records || r.records[a.url].analysis.Some?;
      EntryDecidesKeep(r, articles[..n], replies[..n], polarity, a.url);
      ClipStep(mid, a, replies[n], polarity, keep);
      KeptSnoc(r.records, articles);
      assert ProcessAll(r, articles, replies, polarity) == out;
      AppendChain(Paths(out.segments), Paths(mid.segments), Paths(r.segments), Kept(r.records, articles[..n]),
                  if keep then [VideoPath(a.url)] else [], Kept(r.records, articles));
    }
  }

  /** After the loop, the entry found for `u` has an analysis exactly when `Kept` would keep `u`. */
  lemma EntryDecidesKeep(r: Run, articles: seq<Article>, replies: seq<Option<string>>, polarity: string -> real, u: string)
    requires |replies| == |articles|
    ensures var now := ProcessAll(r, articles, replies, polarity).records;
      && (u in now ==> (now[u].analysis.Some? <==> u !in r.records || r.records[u].analysis.Some?))
      && (u !in now ==> u !in r.records)
  {
    EntriesWrittenOnce(r, articles, replies, polarity);
    NewEntriesAnalysed(r, articles, replies, polarity);
  }

  /** One turn appends a clip exactly when the entry it finds (or writes) has an analysis. */
  lemma ClipStep(r: Run, a: Article, reply: Option<string>, polarity: string -> real, keep: bool)
    requires a.url in r.records ==> r.records[a.url].analysis.Some? == keep
    requires a.url !in r.records ==> keep
    ensures Paths(ProcessArticle(r, a, reply, polarity).segments) == Paths(r.segments) + (if keep then [VideoPath(a.url)] else [])
  {
    var out := ProcessArticle(r, a, reply, polarity);
    if keep {
      assert out.segments == r.segments + [Segment(VideoPath(a.url), out.segments[|r.segments|].narration)];
      PathsSnoc(r.segments, out.segments[|r.segments|]);
    } else {
      assert out.segments == r.segments;
    }
  }

  /** One clip per coin report, in report order. */
  lemma CoinClipsInOrder(texts: seq<string>, hash: string -> int)
    ensures var p := Paths(CoinSegments(texts, hash));
      |p| == |texts| && forall j :: 0 <= j < |texts| ==> p[j] == CoinSegment(texts[j], hash).path
  {
    var coinSegs := CoinSegments(texts, hash);
    if |texts| > 0 {
      Metrics.PerCoinInOrder(t => CoinSegment(t, hash), texts, 0);
    } else {
      assert coinSegs == [];
    }
    forall j | 0 <= j < |texts|
      ensures coinSegs[j] == CoinSegment(texts[j], hash)
    {
      Metrics.PerCoinInOrder(t => CoinSegment(t, hash), texts, j);
    }
  }

  // ---------------------------------------------------------------------
  // The shared state and the start-up pass over it

  /** `previous_analyzed_articles` and the copy of it last written to the file. */
  class AnalysisStore {
    var records: map<string, Record>
    var saved: map<string, Record>

    /** Loading at start-up: a missing file gives an empty store. */
    constructor Load(file: Option<map<string, Record>>)
      ensures records == file.GetOr(map[]) && saved == records
    {
      records := file.GetOr(map[]);
      saved := records;
    }

    method Put(url: string, record: Record)
      modifies this
      ensures records == old(records)[url := record] && saved == old(saved)
    {
      records := records[url := record];
    }

    /** `save_analyzed_articles()`: the file now holds the whole store. */
    method Save()
      modifies this
      ensures saved == records && records == old(records)
    {
      saved := records;
    }
  }

  /** The coin loop: each report is rendered and its clip queued, in report order. */
  method QueueCoinClips(queue: LoopQueue.ClipQueue, texts: seq<string>, hash: string -> int)
    returns (ghost rendered: seq<Segment>)
    modifies queue
    ensures rendered == CoinSegments(texts, hash)
    ensures queue.clips == old(queue.clips) + Paths(rendered)
  {
    ghost var base := queue.clips;
    rendered := [];
    for i := 0 to |texts|
      invariant rendered == CoinSegments(texts[..i], hash)
      invariant queue.clips == base + Paths(rendered)
    {
      var segment := CoinSegment(texts[i], hash);
      CoinSegmentsSnoc(texts, hash, i);
      PathsSnoc(rendered, segment);
      queue.Append(segment.path);
      rendered := rendered + [segment];
    }
    assert texts[..|texts|] == texts;
  }

  lemma CoinSegmentsSnoc(texts: seq<string>, hash: string -> int, i: nat)
    requires i < |texts|
    ensures CoinSegments(texts[..i + 1], hash) == CoinSegments(texts[..i], hash) + [CoinSegment(texts[i], hash)]
  {
    assert texts[..i + 1][..i] == texts[..i];
  }

  /**
   * An unseen article is enriched (`attempts` is what the endpoints do) and
   * recorded; the file is rewritten exactly when the reply is truthy.
   */
  method RecordArticle(store: AnalysisStore, a: Article, attempts: seq<Enrichment.Attempt>, polarity: string -> real)
    modifies store
    ensures store.records == old(store.records)[a.url := NewRecord(a, Enrichment.Failover(attempts).reply, polarity)]
    ensures store.saved == if Enrichment.Truthy(Enrichment.Failover(attempts).reply) then store.records else old(store.saved)
  {
    var text := ArticleText(a);
    var sentiment := polarity(text);
    var reply, logged, tried := Enrichment.GenerateResponse(attempts);
    if Enrichment.Truthy(reply) {
      store.Put(a.url, Record(sentiment, Some(reply.value)));
      store.Save();
    } else {
      store.Put(a.url, Record(sentiment, Some(a.title + text)));
    }
  }

  /**
   * One turn of the article loop on the shared state: an unseen article is
   * recorded as `RecordArticle` says; then a clip is queued if the entry has
   * an analysis. `r` is the loop's state before the turn, `r'` after it.
   */
  method HandleArticle(store: AnalysisStore, queue: LoopQueue.ClipQueue, a: Article,
                       attempts: seq<Enrichment.Attempt>, polarity: string -> real,
                       ghost r: Run, ghost base: seq<string>)
    returns (ghost r': Run)
    requires store.records == r.records && store.saved == r.saved
    requires queue.clips == base + Paths(r.segments)
    modifies store, queue
    ensures r' == ProcessArticle(r, a, Enrichment.Failover(attempts).reply, polarity)
    ensures store.records == r'.records && store.saved == r'.saved
    ensures queue.clips == base + Paths(r'.segments)
  {
    ghost var reply := Enrichment.Failover(attempts).reply;
    ghost var r1 :=
      if a.url in r.records then r
      else
        var records := r.records[a.url := NewRecord(a, reply, polarity)];
        Run(records, if Enrichment.Truthy(reply) then records else r.saved, r.segments, r.enriched + [a.url]);
    r' := r;
    if a.url !in store.records {
      RecordArticle(store, a, attempts, polarity);
      r' := Run(store.records, store.saved, r.segments, r.enriched + [a.url]);
    }
    assert r' == r1;
    r' := QueueArticleClip(store, queue, a, r', base);
  }

  /** The clip step of a turn: queue the article's clip if its entry has an analysis. */
  method QueueArticleClip(store: AnalysisStore, queue: LoopQueue.ClipQueue, a: Article, ghost r: Run, ghost base: seq<string>)
    returns (ghost r': Run)
    requires store.records == r.records && a.url in r.records
    requires queue.clips == base + Paths(r.segments)
    modifies queue
    ensures r' == if r.records[a.url].analysis.Some?
                  then r.(segments := r.segments + [Segment(VideoPath(a.url), Narration(a.title, r.records[a.url].analysis.value))])
                  else r
    ensures queue.clips == base + Paths(r'.segments)
  {
    r' := r;
    if store.records[a.url].analysis.Some? {
      var segment := Segment(VideoPath(a.url), Narration(a.title, store.records[a.url].analysis.value));
      queue.Append(segment.path);
      PathsSnoc(r.segments, segment);
      r' := r.(segments := r.segments + [segment]);
    }
  }

  /** The article loop: `HandleArticle` on each article in turn, as `ProcessAll` describes. */
  method ProcessArticles(store: AnalysisStore, queue: LoopQueue.ClipQueue, articles: seq<Article>,
                         llm: seq<seq<Enrichment.Attempt>>, polarity: string -> real)
    returns (ghost run: Run)
    requires |llm| == |articles|
    modifies store, queue
    ensures run == ProcessAll(Run(old(store.records), old(store.saved), [], []), articles, Replies(llm), polarity)
    ensures store.records == run.records && store.saved == run.saved
    ensures queue.clips == old(queue.clips) + Paths(run.segments)
  {
    ghost var init := Run(store.records, store.saved, [], []);
    ghost var base := queue.clips;
    run := init;
    for i := 0 to |articles|
      invariant run == ProcessAll(init, articles[..i], Replies(llm)[..i], polarity)
      invariant store.records == run.records && store.saved == run.saved
      invariant queue.clips == base + Paths(run.segments)
    {
      assert articles[..i + 1][..i] == articles[..i] && Replies(llm)[..i + 1][..i] == Replies(llm)[..i];
      run := HandleArticle(store, queue, articles[i], llm[i], polarity, run, base);
    }
    assert articles[..|articles|] == articles && Replies(llm)[..|llm|] == Replies(llm);
  }

  /** With or without articles, the fill is the intro, the coin clips and the article clips. */
  lemma InitialFillParts(records: map<string, Record>, saved: map<string, Record>, texts: seq<string>,
                         hash: string -> int, articles: seq<Article>, replies: seq<Option<string>>,
                         polarity: string -> real)
    requires |replies| == |articles|
    ensures InitialFill(records, saved, texts, hash, articles, replies, polarity)
      == [INTRO] + Paths(CoinSegments(texts, hash))
         + Paths(ProcessAll(Run(records, saved, [], []), articles, replies, polarity).segments)
  {
    if articles == [] {
      assert Paths(ProcessAll(Run(records, saved, [], []), articles, replies, polarity).segments) == [];
    }
  }

  /**
   * `pre_generate_tts_clips`: the intro, the coin clips, then — unless the
   * provider returned no articles — the article loop.
   * `rendered` lists the clips handed to the renderer and `enriched` the URLs
   * the LLM was asked about, in call order.
   */
  method PreGenerate(store: AnalysisStore, queue: LoopQueue.ClipQueue, fetch: string -> Metrics.CoinData,
                     hash: string -> int, articles: seq<Article>, llm: seq<seq<Enrichment.Attempt>>,
                     polarity: string -> real)
    returns (ghost rendered: seq<Segment>, ghost enriched: seq<string>)
    requires |llm| == |articles|
    modifies store, queue
    ensures var run := ProcessAll(Run(old(store.records), old(store.saved), [], []), articles, Replies(llm), polarity);
      && store.records == run.records && store.saved == run.saved && enriched == run.enriched
      && rendered == CoinSegments(Metrics.CoinReports(fetch), hash) + run.segments
    ensures queue.clips == old(queue.clips)
      + InitialFill(old(store.records), old(store.saved), Metrics.CoinReports(fetch), hash, articles, Replies(llm), polarity)
  {
    ghost var q0 := queue.clips;
    ghost var init := Run(store.records, store.saved, [], []);
    InitialFillParts(store.records, store.saved, Metrics.CoinReports(fetch), hash, articles, Replies(llm), polarity);
    queue.Append(INTRO);
    var texts := Metrics.FetchCoinMetrics(fetch);
    ghost var coinSegments := QueueCoinClips(queue, texts, hash);
    ghost var q1 := queue.clips;
    if articles == [] {
      rendered, enriched := coinSegments, [];
      assert ProcessAll(init, articles, Replies(llm), polarity) == init;
      JoinParts(q0, [INTRO], Paths(coinSegments), []);
      return;
    }
    ghost var run := ProcessArticles(store, queue, articles, llm, polarity);
    rendered, enriched := coinSegments + run.segments, run.enriched;
    JoinParts(q0, [INTRO], Paths(coinSegments), Paths(run.segments));
  }

  /**
   * The server thread runs during the pass, so requests may be served between
   * the producer's appends. Whatever pulls come in between, the queue ends up
   * with exactly the clips of `q0` and of the fill, each as often as there.
   */
  lemma FillUnderPulls(q0: seq<string>, ops: seq<LoopQueue.Access<string>>,
                       records: map<string, Record>, saved: map<string, Record>, texts: seq<string>,
                       hash: string -> int, articles: seq<Article>, replies: seq<Option<string>>,
                       polarity: string -> real)
    requires |replies| == |articles|
    requires LoopQueue.Appended(ops) == InitialFill(records, saved, texts, hash, articles, replies, polarity)
    ensures var fill := InitialFill(records, saved, texts, hash, articles, replies, polarity);
      |LoopQueue.Run(q0, ops)| == |q0| + |fill| && multiset(LoopQueue.Run(q0, ops)) == multiset(q0 + fill)
  {
    LoopQueue.InterleavingLosesNothing(q0, ops);
  }

  /** A pull between two appends of the fill moves the intro behind the first clip. */
  lemma PullDuringFillReorders()
    ensures LoopQueue.Run([], [LoopQueue.Append(INTRO), LoopQueue.Append("c1"), LoopQueue.Pull, LoopQueue.Append("c2")])
            == ["c1", INTRO, "c2"]
  {
    var ops := [LoopQueue.Append(INTRO), LoopQueue.Append("c1"), LoopQueue.Pull, LoopQueue.Append("c2")];
    assert ops[..3][..2][..1][..0] == [];
    assert LoopQueue.Run([], ops[..3][..2][..1]) == [INTRO];
    assert LoopQueue.Run([], ops[..3][..2]) == [INTRO, "c1"];
    assert LoopQueue.Run([], ops[..3]) == ["c1", INTRO];
  }

  lemma JoinParts<T>(a: seq<T>, b: seq<T>, c: seq<T>, d: seq<T>)
    ensures a + (b + c + d) == a + b + c + d
  {
  }
}
