/** news_monitor_minimal.py: the MinimalNewsMonitor. Relevance is a plain
    substring disjunction over the lower-cased title and description; Google
    News RSS is queried for the first two keywords, NewsAPI (with a key) for the
    first one. */
module MinimalNewsMonitor {
  import opened Wrappers
  import opened Text
  import opened MentionStore
  import opened Feeds
  import opened Pipeline

  /** The default of MAX_ARTICLES_PER_CHECK in config_minimal.py. */
  const DefaultMaxArticles: nat := 10

  /** The lower-cased word w occurs in the lower-cased title or text. */
  predicate Mentions(title: string, content: string, w: string) {
    Contains(title, LowerStr(w)) || Contains(content, LowerStr(w))
  }

  /** The keyword loop: True at the first keyword found. */
  predicate KeywordMentioned(ks: seq<string>, title: string, content: string) {
    if ks == [] then false else Mentions(title, content, ks[0]) || KeywordMentioned(ks[1..], title, content)
  }

  /** _is_relevant_mention */
  predicate IsRelevant(title: string, description: string, c: Company) {
    var t := LowerStr(title);
    var d := LowerStr(description);
    Mentions(t, d, c.name) || KeywordMentioned(c.keywords, t, d)
  }

  lemma {:induction false} KeywordMentionedIff(ks: seq<string>, title: string, content: string)
    ensures KeywordMentioned(ks, title, content) <==> exists k :: k in ks && Mentions(title, content, k)
  {
    if ks != [] {
      KeywordMentionedIff(ks[1..], title, content);
      assert ks[0] in ks;
      if exists k :: k in ks && Mentions(title, content, k) {
        var k :| k in ks && Mentions(title, content, k);
        if k != ks[0] {
          assert k in ks[1..];
        }
      }
    }
  }

  /** Relevant iff the name or some keyword, lower-cased, occurs in the lower-cased title or description. */
  lemma IsRelevantIff(title: string, description: string, c: Company)
    ensures IsRelevant(title, description, c) <==>
      exists w :: (w == c.name || w in c.keywords) && Mentions(LowerStr(title), LowerStr(description), w)
  {
    KeywordMentionedIff(c.keywords, LowerStr(title), LowerStr(description));
    if Mentions(LowerStr(title), LowerStr(description), c.name) {
      assert exists w :: (w == c.name || w in c.keywords) && Mentions(LowerStr(title), LowerStr(description), w);
    }
  }

  /** A title that contains the name, in whatever case, is always relevant. */
  lemma NameInTitle(title: string, description: string, c: Company)
    requires Contains(LowerStr(title), LowerStr(c.name)) || Contains(title, c.name)
    ensures IsRelevant(title, description, c)
  {
    if Contains(title, c.name) {
      ContainsLower(title, c.name);
    }
  }

  /** Adding text around the title and the description never loses relevance. */
  lemma Monotone(title: string, description: string, c: Company, t1: string, t2: string, d1: string, d2: string)
    requires IsRelevant(title, description, c)
    ensures IsRelevant(t1 + title + t2, d1 + description + d2, c)
  {
    var t, d := LowerStr(title), LowerStr(description);
    var t', d' := LowerStr(t1 + title + t2), LowerStr(d1 + description + d2);
    LowerStrAppend(t1 + title, t2);
    LowerStrAppend(t1, title);
    LowerStrAppend(d1 + description, d2);
    LowerStrAppend(d1, description);
    assert t' == LowerStr(t1) + t + LowerStr(t2);
    assert d' == LowerStr(d1) + d + LowerStr(d2);
    IsRelevantIff(title, description, c);
    var w :| (w == c.name || w in c.keywords) && Mentions(t, d, w);
    if Contains(t, LowerStr(w)) {
      ContainsAppend(t, LowerStr(w), LowerStr(t1), LowerStr(t2));
    } else {
      ContainsAppend(d, LowerStr(w), LowerStr(d1), LowerStr(d2));
    }
    assert Mentions(t', d', w);
    IsRelevantIff(t1 + title + t2, d1 + description + d2, c);
  }

  /** An empty keyword or an empty name makes every article relevant. */
  lemma EmptyWordMatchesAll(title: string, description: string, c: Company)
    requires c.name == "" || "" in c.keywords
    ensures IsRelevant(title, description, c)
  {
    assert StartsWith(LowerStr(title), "");
    IsRelevantIff(title, description, c);
    if c.name == "" {
      assert Mentions(LowerStr(title), LowerStr(description), c.name);
    } else {
      assert Mentions(LowerStr(title), LowerStr(description), "");
    }
  }

  // ------------------------------------------------------------ adapters

  /** One Google News entry: `entry.title` raises when missing, `entry.link`
      only once the entry is found relevant. */
  function EntryOutcome(c: Company, polarity: string -> real, e: Entry): Outcome {
    if e.title.None? then Raise
    else
      var summary := OrElse(e.summary, "");
      if !IsRelevant(e.title.value, summary, c) then Skip
      else if e.link.None? then Raise
      else Emit(MentionData(c.name, e.title.value, Value(summary), e.link.value,
        "Google News - " + OrElse(e.sourceHref, "Unknown"), Value(OrElse(e.published, "")),
        Value(polarity(e.title.value + " " + summary))))
  }

  /** search_google_news_rss: the first two keywords, the first `max` entries of each feed. */
  function SearchGoogleNewsRss(c: Company, fetchRss: string -> seq<Entry>, polarity: string -> real, max: nat): seq<MentionData> {
    Collect(Take(c.keywords, 2), k => Scan(Take(fetchRss(k), max), e => EntryOutcome(c, polarity, e)))
  }

  /** One NewsAPI article: kept when relevant. A null title or description
      raises at `.lower()`, and a null source object at `.get('name')`. */
  function ArticleOutcome(c: Company, polarity: string -> real, a: Article): Outcome {
    var title := GetOr(a.title, "");
    var description := GetOr(a.description, "");
    if title.None? || description.None? then Raise
    else if !IsRelevant(title.value, description.value, c) then Skip
    else
      var source := SourceName(a.source);
      if source.None? then Raise
      else if a.url.Null? then Skip
      else Emit(MentionData(c.name, title.value, Value(description.value), OrElse(Get(a.url), ""),
        "NewsAPI - " + source.value, GetText(a.publishedAt),
        Value(polarity(title.value + " " + description.value))))
  }

  /** An article whose title or description is null raises inside the `try`
      around the whole search: no NewsAPI mention is returned for the company. */
  lemma NullTextEndsSearch(c: Company, polarity: string -> real, a: Article, rest: seq<Article>)
    requires a.title.Null? || a.description.Null?
    ensures ArticleOutcome(c, polarity, a).Raise?
    ensures Scan([a] + rest, x => ArticleOutcome(c, polarity, x)) == []
  {
    assert ([a] + rest)[0] == a;
  }

  /** A relevant article whose url is JSON null is never stored: the url
      column is NOT NULL, so add_mention's INSERT fails and returns None. The
      model drops it where it is read; a null url raises nothing, so the
      articles after it are still scanned. */
  lemma NullUrlNeverStored(c: Company, polarity: string -> real, a: Article, rest: seq<Article>)
    requires a.url.Null?
    ensures !ArticleOutcome(c, polarity, a).Emit?
    ensures a.title.Value? && a.description.Value? && a.source != Null ==>
              ArticleOutcome(c, polarity, a) == Skip && Scan([a] + rest, x => ArticleOutcome(c, polarity, x)) == Scan(rest, x => ArticleOutcome(c, polarity, x))
  {
    assert ([a] + rest)[0] == a && ([a] + rest)[1..] == rest;
  }

  /** search_newsapi_if_available: nothing without a key; otherwise the first keyword only. */
  function SearchNewsApiIfAvailable(apiKey: string, c: Company, fetchNews: string -> Option<seq<Article>>,
                                    polarity: string -> real): (r: seq<MentionData>)
    ensures apiKey == "" ==> r == []
  {
    if apiKey == "" then []
    else Collect(Take(c.keywords, 1), k =>
      if fetchNews(k).Some? then Scan(fetchNews(k).value, a => ArticleOutcome(c, polarity, a)) else [])
  }

  lemma SearchGoogleNewsRssBound(c: Company, fetchRss: string -> seq<Entry>, polarity: string -> real, max: nat)
    ensures |SearchGoogleNewsRss(c, fetchRss, polarity, max)| <= 2 * max
  {
    CollectBound(Take(c.keywords, 2), k => Scan(Take(fetchRss(k), max), e => EntryOutcome(c, polarity, e)), max);
  }

  /** Only the feeds of the first two keywords are read. */
  lemma SearchGoogleNewsRssFirstTwo(c: Company, fetch1: string -> seq<Entry>, fetch2: string -> seq<Entry>,
                                    polarity: string -> real, max: nat)
    requires forall k :: k in Take(c.keywords, 2) ==> fetch1(k) == fetch2(k)
    ensures SearchGoogleNewsRss(c, fetch1, polarity, max) == SearchGoogleNewsRss(c, fetch2, polarity, max)
  {
    CollectCongruent(Take(c.keywords, 2),
      k => Scan(Take(fetch1(k), max), e => EntryOutcome(c, polarity, e)),
      k => Scan(Take(fetch2(k), max), e => EntryOutcome(c, polarity, e)));
  }

  /** Only the answer for the first keyword is read. */
  lemma SearchNewsApiFirstKeyword(apiKey: string, c: Company, fetch1: string -> Option<seq<Article>>,
                                  fetch2: string -> Option<seq<Article>>, polarity: string -> real)
    requires |c.keywords| > 0 ==> fetch1(c.keywords[0]) == fetch2(c.keywords[0])
    ensures SearchNewsApiIfAvailable(apiKey, c, fetch1, polarity) == SearchNewsApiIfAvailable(apiKey, c, fetch2, polarity)
  {
    if apiKey != "" {
      assert forall k :: k in Take(c.keywords, 1) ==> k == c.keywords[0];
      CollectCongruent(Take(c.keywords, 1),
        k => if fetch1(k).Some? then Scan(fetch1(k).value, a => ArticleOutcome(c, polarity, a)) else [],
        k => if fetch2(k).Some? then Scan(fetch2(k).value, a => ArticleOutcome(c, polarity, a)) else []);
    }
  }

  // ------------------------------------------------------------ orchestration

  function CompanyCandidates(c: Company, apiKey: string, fetchNews: string -> Option<seq<Article>>,
                             fetchRss: string -> seq<Entry>, polarity: string -> real, max: nat): seq<MentionData> {
    SearchNewsApiIfAvailable(apiKey, c, fetchNews, polarity) + SearchGoogleNewsRss(c, fetchRss, polarity, max)
  }

  function Batches(companies: seq<Company>, apiKey: string, fetchNews: string -> Option<seq<Article>>,
                   fetchRss: string -> seq<Entry>, polarity: string -> real, max: nat): (b: seq<seq<MentionData>>)
    ensures |b| == |companies|
    ensures forall i :: 0 <= i < |companies| ==> b[i] == CompanyCandidates(companies[i], apiKey, fetchNews, fetchRss, polarity, max)
  {
    seq(|companies|, i requires 0 <= i < |companies| =>
      CompanyCandidates(companies[i], apiKey, fetchNews, fetchRss, polarity, max))
  }

  /** monitor_all_companies: the newly stored candidates, in company order,
      NewsAPI results before Google results, each tagged with its id. */
  method MonitorAllCompanies(db: MentionDatabase, companies: seq<Company>, apiKey: string,
                             fetchNews: string -> Option<seq<Article>>, fetchRss: string -> seq<Entry>,
                             polarity: string -> real, max: nat, now: int) returns (allMentions: seq<Tagged>)
    requires db.Valid()
    modifies db
    ensures db.Valid()
    ensures var b := Batches(companies, apiKey, fetchNews, fetchRss, polarity, max);
      && Table(db.mentions, db.nextMentionId) == InsertAll(db.md5, old(Table(db.mentions, db.nextMentionId)), Flatten(b), now).0
      && allMentions == InsertAll(db.md5, old(Table(db.mentions, db.nextMentionId)), Flatten(b), now).1
    ensures unchanged(db`alerts, db`nextAlertId, db`companies, db`nextCompanyId)
  {
    var batches := Batches(companies, apiKey, fetchNews, fetchRss, polarity, max);
    allMentions := StoreAllCompanies(db, batches, now);
  }
}
