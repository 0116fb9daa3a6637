/** news_monitor.py: the NewsMonitor, whose relevance test chains a per-company
    exclusion filter, a name/keyword trigger and a generic deny/allow gate.
    The network is given as already-fetched data: `fetchNews` answers the
    NewsAPI query for one keyword (None when the request fails or the status is
    not 'ok'), `fetchRss` the Google News feed for one keyword (empty when the
    request fails). TextBlob's polarity is the parameter `polarity`. */
module NewsMonitor {
  import opened Wrappers
  import opened Text
  import opened Ordered
  import opened MentionStore
  import opened Feeds
  import opened Pipeline

  /** The default of MAX_ARTICLES_PER_CHECK in config.py. */
  const DefaultMaxArticles: nat := 50

  const FinchPersonIndicators: seq<string> := [
    "obituary", "died", "death", "funeral", "memorial",
    "birthday", "anniversary", "wedding", "married",
    "graduated", "student", "teacher", "professor",
    "mayor", "politician", "election", "candidate",
    "chris finch", "beth finch", "tess finch", "spencer finch",
    "christine finch", "evelyn finch", "elisabeth finch",
    "real estate agent", "coach", "athlete", "player",
    "timberwolves", "nba", "basketball", "sports"]

  const FinchBusinessKeywords: seq<string> := [
    "app", "platform", "software", "startup", "company",
    "venue marketing", "ai-powered", "technology", "funding"]

  const CerebraMedicalIndicators: seq<string> := [
    "cerebral palsy", "cerebral", "patient", "medical",
    "hospital", "treatment", "therapy", "disability",
    "palsy", "brain injury", "neurological"]

  const CerebraAiKeywords: seq<string> := [
    "ai", "artificial intelligence", "machine learning",
    "computer vision", "startup", "funding", "technology"]

  const FalsePositiveTerms: seq<string> := [
    "recipe", "cooking", "food blog", "restaurant menu",
    "weather forecast", "entertainment news", "movie review",
    "zelda", "gaming", "video game", "nintendo"]

  const BusinessIndicators: seq<string> := [
    "startup", "company", "business", "technology", "tech",
    "funding", "investment", "venture", "innovation",
    "platform", "software", "service", "solution", "ai",
    "artificial intelligence", "machine learning", "saas"]

  // ------------------------------------------------------------ classifier

  /** _company_specific_filter: Finch and Cerebra (name compared lower-cased)
      must show no excluded term and some context term; others always pass. */
  predicate CompanySpecificFilter(text: string, name: string) {
    var lower := LowerStr(text);
    var company := LowerStr(name);
    if company == "finch" then
      !FirstContained(lower, FinchPersonIndicators) && FirstContained(lower, FinchBusinessKeywords)
    else if company == "cerebra" then
      !FirstContained(lower, CerebraMedicalIndicators) && FirstContained(lower, CerebraAiKeywords)
    else true
  }

  /** _additional_relevance_check: no false-positive term, and some business
      indicator, both as raw substrings of the lower-cased text. */
  predicate AdditionalRelevanceCheck(text: string) {
    var lower := LowerStr(text);
    !FirstContained(lower, FalsePositiveTerms) && FirstContained(lower, BusinessIndicators)
  }

  /** The lower-cased word w occurs in the lower-cased title or description. */
  predicate Mentions(title: string, content: string, w: string) {
    Contains(title, LowerStr(w)) || Contains(content, LowerStr(w))
  }

  /** The keyword loop of _is_relevant_mention. */
  predicate KeywordHit(ks: seq<string>, title: string, content: string, full: string) {
    if ks == [] then false
    else (Mentions(title, content, ks[0]) && AdditionalRelevanceCheck(full)) || KeywordHit(ks[1..], title, content, full)
  }

  /** The text the filters see: `title.lower() + ' ' + description.lower()`. */
  function FullText(title: string, description: string): string {
    LowerStr(title) + " " + LowerStr(description)
  }

  /** _is_relevant_mention */
  predicate IsRelevant(title: string, description: string, c: Company) {
    var t := LowerStr(title);
    var d := LowerStr(description);
    var full := FullText(title, description);
    if !CompanySpecificFilter(full, c.name) then false
    else if Mentions(t, d, c.name) && AdditionalRelevanceCheck(full) then true
    else KeywordHit(c.keywords, t, d, full)
  }

  // ------------------------------------------------------------ classifier lemmas

  lemma FullTextLower(title: string, description: string)
    ensures LowerStr(FullText(title, description)) == FullText(title, description)
  {
    LowerStrAppend(LowerStr(title) + " ", LowerStr(description));
    LowerStrAppend(LowerStr(title), " ");
    LowerStrIdempotent(title);
    LowerStrIdempotent(description);
  }

  lemma {:induction false} KeywordHitIff(ks: seq<string>, title: string, content: string, full: string)
    ensures KeywordHit(ks, title, content, full)
        <==> (exists k :: k in ks && Mentions(title, content, k)) && AdditionalRelevanceCheck(full)
  {
    if ks != [] {
      KeywordHitIff(ks[1..], title, content, full);
      assert ks[0] in ks;
      if exists k :: k in ks && Mentions(title, content, k) {
        var k :| k in ks && Mentions(title, content, k);
        if k != ks[0] {
          assert k in ks[1..];
        }
      }
    }
  }

  /** The gate chain is the conjunction of its three conditions. */
  lemma IsRelevantIff(title: string, description: string, c: Company)
    ensures IsRelevant(title, description, c) <==>
      && CompanySpecificFilter(FullText(title, description), c.name)
      && (Mentions(LowerStr(title), LowerStr(description), c.name)
          || exists k :: k in c.keywords && Mentions(LowerStr(title), LowerStr(description), k))
      && AdditionalRelevanceCheck(FullText(title, description))
  {
    KeywordHitIff(c.keywords, LowerStr(title), LowerStr(description), FullText(title, description));
  }

  /** The filter in terms of "some term occurs". */
  lemma CompanySpecificFilterIff(text: string, name: string)
    ensures LowerStr(name) == "finch" ==>
      (CompanySpecificFilter(text, name) <==>
        !ContainsAny(LowerStr(text), FinchPersonIndicators) && ContainsAny(LowerStr(text), FinchBusinessKeywords))
    ensures LowerStr(name) == "cerebra" ==>
      (CompanySpecificFilter(text, name) <==>
        !ContainsAny(LowerStr(text), CerebraMedicalIndicators) && ContainsAny(LowerStr(text), CerebraAiKeywords))
  {
    FirstContainedIff(LowerStr(text), FinchPersonIndicators);
    FirstContainedIff(LowerStr(text), FinchBusinessKeywords);
    FirstContainedIff(LowerStr(text), CerebraMedicalIndicators);
    FirstContainedIff(LowerStr(text), CerebraAiKeywords);
  }

  /** The deny-list wins over the allow-list; otherwise one business indicator suffices. */
  lemma AdditionalRelevanceCheckIff(text: string)
    ensures AdditionalRelevanceCheck(text) <==>
      !ContainsAny(LowerStr(text), FalsePositiveTerms) && ContainsAny(LowerStr(text), BusinessIndicators)
  {
    FirstContainedIff(LowerStr(text), FalsePositiveTerms);
    FirstContainedIff(LowerStr(text), BusinessIndicators);
  }

  /** A person indicator anywhere in the text rejects a Finch article, whatever business terms it has. */
  lemma FinchPersonRejects(title: string, description: string, c: Company, indicator: string)
    requires LowerStr(c.name) == "finch"
    requires indicator in FinchPersonIndicators
    requires Contains(FullText(title, description), indicator)
    ensures !IsRelevant(title, description, c)
  {
    FullTextLower(title, description);
    CompanySpecificFilterIff(FullText(title, description), c.name);
  }

  /** A Finch article without any business keyword is rejected. */
  lemma FinchNeedsBusiness(title: string, description: string, c: Company)
    requires LowerStr(c.name) == "finch"
    requires !ContainsAny(FullText(title, description), FinchBusinessKeywords)
    ensures !IsRelevant(title, description, c)
  {
    FullTextLower(title, description);
    CompanySpecificFilterIff(FullText(title, description), c.name);
  }

  /** A medical indicator rejects a Cerebra article. */
  lemma CerebraMedicalRejects(title: string, description: string, c: Company, indicator: string)
    requires LowerStr(c.name) == "cerebra"
    requires indicator in CerebraMedicalIndicators
    requires Contains(FullText(title, description), indicator)
    ensures !IsRelevant(title, description, c)
  {
    FullTextLower(title, description);
    CompanySpecificFilterIff(FullText(title, description), c.name);
  }

  /** A Cerebra article without AI context is rejected. */
  lemma CerebraNeedsAi(title: string, description: string, c: Company)
    requires LowerStr(c.name) == "cerebra"
    requires !ContainsAny(FullText(title, description), CerebraAiKeywords)
    ensures !IsRelevant(title, description, c)
  {
    FullTextLower(title, description);
    CompanySpecificFilterIff(FullText(title, description), c.name);
  }

  /** For every other company only the trigger and the generic gate matter. */
  lemma OtherCompaniesUnfiltered(title: string, description: string, c: Company)
    requires LowerStr(c.name) != "finch" && LowerStr(c.name) != "cerebra"
    ensures IsRelevant(title, description, c) <==>
      && (Mentions(LowerStr(title), LowerStr(description), c.name)
          || exists k :: k in c.keywords && Mentions(LowerStr(title), LowerStr(description), k))
      && AdditionalRelevanceCheck(FullText(title, description))
  {
    IsRelevantIff(title, description, c);
  }

  /** A false-positive term vetoes, even next to business terms. */
  lemma FalsePositiveVetoes(text: string, term: string)
    requires term in FalsePositiveTerms
    requires Contains(LowerStr(text), term)
    ensures !AdditionalRelevanceCheck(text)
  {
    AdditionalRelevanceCheckIff(text);
  }

  /** 'ai' inside 'said' counts as business context. */
  lemma SaidHasBusinessContext()
    ensures AdditionalRelevanceCheck("said")
  {
    var lower := LowerStr("said");
    assert lower == "said";
    assert Contains(lower[1..], "ai");
    assert Contains(lower, "ai");
    assert BusinessIndicators[13] == "ai";
    forall t | t in FalsePositiveTerms ensures !Contains(lower, t) {
      TooLongAbsent(lower, t);
    }
    AdditionalRelevanceCheckIff("said");
  }

  // ------------------------------------------------------------ adapters

  /** One NewsAPI article: kept when relevant. A null title or description
      raises at `.lower()`, and a null source object at `.get('name')`. */
  function ArticleOutcome(c: Company, polarity: string -> real, a: Article): Outcome {
    var title := GetOr(a.title, "");
    var description := GetOr(a.description, "");
    if title.None? || description.None? then Raise
    else if !IsRelevant(title.value, description.value, c) then Skip
    else
      var source := SourceName(a.source);
      if source.None? then Raise
      else if a.url.Null? then Skip
      else Emit(MentionData(c.name, title.value, Value(description.value), OrElse(Get(a.url), ""),
        "NewsAPI - " + source.value, GetText(a.publishedAt),
        Value(polarity(title.value + " " + description.value))))
  }

  /** An article whose title or description is null raises, and the scan of
      that keyword's articles stops there: the articles after it are lost. */
  lemma NullTextStopsScan(c: Company, polarity: string -> real, a: Article, rest: seq<Article>)
    requires a.title.Null? || a.description.Null?
    ensures ArticleOutcome(c, polarity, a).Raise?
    ensures Scan([a] + rest, x => ArticleOutcome(c, polarity, x)) == []
  {
    assert ([a] + rest)[0] == a;
  }

  /** A relevant article whose url is JSON null is never stored: the url
      column is NOT NULL, so add_mention's INSERT fails and returns None. The
      model drops it where it is read; a null url raises nothing, so the
      articles after it are still scanned. */
  lemma NullUrlNeverStored(c: Company, polarity: string -> real, a: Article, rest: seq<Article>)
    requires a.url.Null?
    ensures !ArticleOutcome(c, polarity, a).Emit?
    ensures a.title.Value? && a.description.Value? && a.source != Null ==>
              ArticleOutcome(c, polarity, a) == Skip && Scan([a] + rest, x => ArticleOutcome(c, polarity, x)) == Scan(rest, x => ArticleOutcome(c, polarity, x))
  {
    assert ([a] + rest)[0] == a && ([a] + rest)[1..] == rest;
  }

  /** search_newsapi: nothing without a key; otherwise every keyword's articles. */
  function SearchNewsApi(apiKey: string, c: Company, fetchNews: string -> Option<seq<Article>>,
                         polarity: string -> real): (r: seq<MentionData>)
    ensures apiKey == "" ==> r == []
  {
    if apiKey == "" then []
    else Collect(c.keywords, k =>
      if fetchNews(k).Some? then Scan(fetchNews(k).value, a => ArticleOutcome(c, polarity, a)) else [])
  }

  /** One Google News entry: `entry.title` raises when missing, `entry.link`
      raises (only) when the entry is relevant. */
  function EntryOutcome(c: Company, polarity: string -> real, e: Entry): Outcome {
    if e.title.None? then Raise
    else
      var summary := OrElse(e.summary, "");
      if !IsRelevant(e.title.value, summary, c) then Skip
      else if e.link.None? then Raise
      else Emit(MentionData(c.name, e.title.value, Value(summary), e.link.value,
        "Google News - " + OrElse(e.sourceHref, "Unknown"), Value(OrElse(e.published, "")),
        Value(polarity(e.title.value + " " + summary))))
  }

  /** search_google_news: every keyword, the first `max` entries of each feed. */
  function SearchGoogleNews(c: Company, fetchRss: string -> seq<Entry>, polarity: string -> real, max: nat): seq<MentionData> {
    Collect(c.keywords, k => Scan(Take(fetchRss(k), max), e => EntryOutcome(c, polarity, e)))
  }

  /** What either adapter returns is a relevant article of the company. */
  predicate Sound(c: Company, m: MentionData) {
    && m.companyName == c.name
    && m.content.Value?
    && IsRelevant(m.title, m.content.v, c)
  }

  lemma SearchNewsApiSound(apiKey: string, c: Company, fetchNews: string -> Option<seq<Article>>, polarity: string -> real)
    ensures forall m :: m in SearchNewsApi(apiKey, c, fetchNews, polarity) ==> Sound(c, m)
  {
    if apiKey != "" {
      var f := k => if fetchNews(k).Some? then Scan(fetchNews(k).value, a => ArticleOutcome(c, polarity, a)) else [];
      forall k | k in c.keywords ensures forall m :: m in f(k) ==> Sound(c, m) {
        if fetchNews(k).Some? {
          ScanAll(fetchNews(k).value, a => ArticleOutcome(c, polarity, a), m => Sound(c, m));
        }
      }
      CollectAll(c.keywords, f, m => Sound(c, m));
    }
  }

  lemma SearchGoogleNewsSound(c: Company, fetchRss: string -> seq<Entry>, polarity: string -> real, max: nat)
    ensures forall m :: m in SearchGoogleNews(c, fetchRss, polarity, max) ==> Sound(c, m)
  {
    var f := k => Scan(Take(fetchRss(k), max), e => EntryOutcome(c, polarity, e));
    forall k | k in c.keywords ensures forall m :: m in f(k) ==> Sound(c, m) {
      ScanAll(Take(fetchRss(k), max), e => EntryOutcome(c, polarity, e), m => Sound(c, m));
    }
    CollectAll(c.keywords, f, m => Sound(c, m));
  }

  /** At most `max` mentions per keyword. */
  lemma SearchGoogleNewsBound(c: Company, fetchRss: string -> seq<Entry>, polarity: string -> real, max: nat)
    ensures |SearchGoogleNews(c, fetchRss, polarity, max)| <= |c.keywords| * max
  {
    var f := k => Scan(Take(fetchRss(k), max), e => EntryOutcome(c, polarity, e));
    CollectBound(c.keywords, f, max);
  }

  // ------------------------------------------------------------ orchestration

  /** `newsapi_mentions + google_mentions` for one company. */
  function CompanyCandidates(c: Company, apiKey: string, fetchNews: string -> Option<seq<Article>>,
                             fetchRss: string -> seq<Entry>, polarity: string -> real, max: nat): seq<MentionData> {
    SearchNewsApi(apiKey, c, fetchNews, polarity) + SearchGoogleNews(c, fetchRss, polarity, max)
  }

  function Batches(companies: seq<Company>, apiKey: string, fetchNews: string -> Option<seq<Article>>,
                   fetchRss: string -> seq<Entry>, polarity: string -> real, max: nat): (b: seq<seq<MentionData>>)
    ensures |b| == |companies|
    ensures forall i :: 0 <= i < |companies| ==> b[i] == CompanyCandidates(companies[i], apiKey, fetchNews, fetchRss, polarity, max)
  {
    seq(|companies|, i requires 0 <= i < |companies| =>
      CompanyCandidates(companies[i], apiKey, fetchNews, fetchRss, polarity, max))
  }

  /** monitor_all_companies: the newly stored candidates, in company order,
      NewsAPI results before Google News results, each tagged with its id. */
  method MonitorAllCompanies(db: MentionDatabase, companies: seq<Company>, apiKey: string,
                             fetchNews: string -> Option<seq<Article>>, fetchRss: string -> seq<Entry>,
                             polarity: string -> real, max: nat, now: int) returns (allMentions: seq<Tagged>)
    requires db.Valid()
    modifies db
    ensures db.Valid()
    ensures var b := Batches(companies, apiKey, fetchNews, fetchRss, polarity, max);
      && Table(db.mentions, db.nextMentionId) == InsertAll(db.md5, old(Table(db.mentions, db.nextMentionId)), Flatten(b), now).0
      && allMentions == InsertAll(db.md5, old(Table(db.mentions, db.nextMentionId)), Flatten(b), now).1
    ensures unchanged(db`alerts, db`nextAlertId, db`companies, db`nextCompanyId)
  {
    var batches := Batches(companies, apiKey, fetchNews, fetchRss, polarity, max);
    allMentions := StoreAllCompanies(db, batches, now);
  }

  /** The counting loop of get_trending_mentions over the recent rows. */
  method GetTrendingMentions(db: MentionDatabase, hours: int, now: int)
    returns (total: nat, byCompany: Counts, bySource: Counts)
    ensures total == |db.RecentMentions(hours, now)|
    ensures byCompany == CountBy(db.RecentMentions(hours, now), CompanyOf)
    ensures bySource == CountBy(db.RecentMentions(hours, now), SourceOf)
    ensures Total(byCompany) == total && Total(bySource) == total
  {
    var recent := db.RecentMentions(hours, now);
    byCompany, bySource := [], [];
    var i := 0;
    while i < |recent|
      invariant 0 <= i <= |recent|
      invariant byCompany == CountBy(recent[..i], CompanyOf)
      invariant bySource == CountBy(recent[..i], SourceOf)
    {
      CountByStep(recent, i, CompanyOf);
      CountByStep(recent, i, SourceOf);
      byCompany := Bump(byCompany, recent[i].companyName);
      bySource := Bump(bySource, recent[i].source);
      i := i + 1;
    }
    assert recent[..i] == recent;
    total := |recent|;
    CountByTotal(recent, CompanyOf);
    CountByTotal(recent, SourceOf);
  }
}
