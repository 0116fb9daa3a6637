/** news_monitor_complete.py: the CompleteNewsMonitor. Its relevance test has
    hard-wired cases for Coqui and The Blue Dot, then whole-word matching of the
    company name, then a fast path on "specific identifiers" taken from the
    keywords; it has no deny-list. Google News RSS is always queried (first two
    keywords), NewsAPI only with a key (first keyword). The date normalisation
    of both adapters is the opaque parameter `dateOf` / `normalize`. */
module CompleteNewsMonitor {
  import opened Wrappers
  import opened Text
  import opened MentionStore
  import opened Feeds
  import opened Pipeline

  /** The default of MAX_ARTICLES_PER_CHECK in config_complete.py. */
  const DefaultMaxArticles: nat := 10

  const CoquiTechIndicators: seq<string> := [
    "ai", "artificial intelligence", "text-to-speech", "tts", "voice", "speech", "generative", "coqui.ai"]

  const BlueDotNegativeIndicators: seq<string> := [
    "android", "text message", "text messages", "message", "notification", "unread"]

  const BlueDotCompanyIndicators: seq<string> := [
    "thebluedot", "thebluedot.co", "bluedot", "charging", "electric car", "expense management", "fleet", "ev charging"]

  /** Lower-cased keywords that count as specific identifiers even without '.com'. */
  const IdentifierSlugs: seq<string> := [
    "vectroid", "kuzudb", "finchnow", "buluttan", "opnova", "hyperbee",
    "ubicloud", "icosacomputing", "kondukto", "peaka",
    "flowla", "figopara", "altogic", "atlas-robotics", "upstash",
    "locomation", "invidyo", "hipporello", "cerebra", "genomize", "genialis",
    "quantive", "thundra", "cybeats", "resmo", "datarow"]

  // ------------------------------------------------------------ classifier

  predicate IsIdentifier(lowered: string) {
    Contains(lowered, ".com") || lowered in IdentifierSlugs
  }

  /** The list the identifier loop builds: the qualifying lower-cased keywords, in order. */
  function SpecificIdentifiers(ks: seq<string>): seq<string> {
    if ks == [] then []
    else (if IsIdentifier(LowerStr(ks[0])) then [LowerStr(ks[0])] else []) + SpecificIdentifiers(ks[1..])
  }

  /** The text of the classifier: `f"{title} {content}"` of the lower-cased parts. */
  function FullText(title: string, description: string): string {
    LowerStr(title) + " " + LowerStr(description)
  }

  /** _is_relevant_mention */
  predicate IsRelevant(title: string, description: string, c: Company) {
    var t := LowerStr(title);
    var d := LowerStr(description);
    var full := FullText(title, description);
    if c.name == "Coqui" then FirstContained(full, CoquiTechIndicators)
    else if c.name == "The Blue Dot" then
      !FirstContained(full, BlueDotNegativeIndicators) && FirstContained(full, BlueDotCompanyIndicators)
    else if ContainsWord(t, LowerStr(c.name)) || ContainsWord(d, LowerStr(c.name)) then true
    else FirstContained(full, SpecificIdentifiers(c.keywords))
  }

  /** _is_relevant_mention as written: the branches, the loop that builds the
      identifier list, and the loop that scans it. */
  method IsRelevantMention(title: string, description: string, c: Company) returns (b: bool)
    ensures b == IsRelevant(title, description, c)
  {
    var t := LowerStr(title);
    var d := LowerStr(description);
    var full := t + " " + d;
    if c.name == "Coqui" {
      return FirstContained(full, CoquiTechIndicators);
    }
    if c.name == "The Blue Dot" {
      if FirstContained(full, BlueDotNegativeIndicators) {
        return false;
      }
      return FirstContained(full, BlueDotCompanyIndicators);
    }
    var name := LowerStr(c.name);
    if ContainsWord(t, name) || ContainsWord(d, name) {
      return true;
    }
    var ids := CollectIdentifiers(c.keywords);
    b := ScanIdentifiers(full, ids);
  }

  /** The loop that builds specific_identifiers. */
  method CollectIdentifiers(ks: seq<string>) returns (ids: seq<string>)
    ensures ids == SpecificIdentifiers(ks)
  {
    ids := [];
    var i := 0;
    while i < |ks|
      invariant 0 <= i <= |ks|
      invariant ids + SpecificIdentifiers(ks[i..]) == SpecificIdentifiers(ks)
    {
      assert ks[i..][1..] == ks[i + 1..];
      var kw := LowerStr(ks[i]);
      if IsIdentifier(kw) {
        ids := ids + [kw];
      }
      i := i + 1;
    }
    assert ks[i..] == [];
  }

  /** The loop that returns True at the first identifier found in the text. */
  method ScanIdentifiers(full: string, ids: seq<string>) returns (b: bool)
    ensures b == FirstContained(full, ids)
  {
    var j := 0;
    while j < |ids|
      invariant 0 <= j <= |ids|
      invariant FirstContained(full, ids) == FirstContained(full, ids[j..])
    {
      assert ids[j..][1..] == ids[j + 1..];
      if Contains(full, ids[j]) {
        return true;
      }
      j := j + 1;
    }
    return false;
  }

  // ------------------------------------------------------------ classifier lemmas

  /** The identifiers are exactly the lower-cased keywords that contain '.com'
      or are in the slug list. */
  lemma {:induction false} SpecificIdentifiersMembers(ks: seq<string>, x: string)
    ensures x in SpecificIdentifiers(ks) <==> IsIdentifier(x) && exists k :: k in ks && LowerStr(k) == x
  {
    if ks != [] {
      SpecificIdentifiersMembers(ks[1..], x);
      assert ks[0] in ks;
      if IsIdentifier(x) && exists k :: k in ks && LowerStr(k) == x {
        var k :| k in ks && LowerStr(k) == x;
        if k != ks[0] {
          assert k in ks[1..];
        }
      }
    }
  }

  /** For Coqui only the tech indicators decide; the keywords play no role. */
  lemma CoquiIff(title: string, description: string, c: Company)
    requires c.name == "Coqui"
    ensures IsRelevant(title, description, c) <==> ContainsAny(FullText(title, description), CoquiTechIndicators)
  {
    FirstContainedIff(FullText(title, description), CoquiTechIndicators);
  }

  /** For The Blue Dot a negative indicator rejects, whatever else the text says. */
  lemma BlueDotNegativeRejects(title: string, description: string, c: Company, indicator: string)
    requires c.name == "The Blue Dot"
    requires indicator in BlueDotNegativeIndicators && Contains(FullText(title, description), indicator)
    ensures !IsRelevant(title, description, c)
  {
    FirstContainedIff(FullText(title, description), BlueDotNegativeIndicators);
  }

  /** Without a negative indicator, The Blue Dot is relevant iff a company indicator occurs. */
  lemma BlueDotIff(title: string, description: string, c: Company)
    requires c.name == "The Blue Dot"
    requires !ContainsAny(FullText(title, description), BlueDotNegativeIndicators)
    ensures IsRelevant(title, description, c) <==> ContainsAny(FullText(title, description), BlueDotCompanyIndicators)
  {
    FirstContainedIff(FullText(title, description), BlueDotNegativeIndicators);
    FirstContainedIff(FullText(title, description), BlueDotCompanyIndicators);
  }

  /** Every other company: the name as a whole word, or an identifier as a raw
      substring; nothing else, and no deny-list. */
  lemma OtherCompaniesIff(title: string, description: string, c: Company)
    requires c.name != "Coqui" && c.name != "The Blue Dot"
    ensures IsRelevant(title, description, c) <==>
      || ContainsWord(LowerStr(title), LowerStr(c.name))
      || ContainsWord(LowerStr(description), LowerStr(c.name))
      || ContainsAny(FullText(title, description), SpecificIdentifiers(c.keywords))
  {
    FirstContainedIff(FullText(title, description), SpecificIdentifiers(c.keywords));
  }

  /** One identifier anywhere in the text is enough. */
  lemma IdentifierSuffices(title: string, description: string, c: Company, k: string)
    requires c.name != "Coqui" && c.name != "The Blue Dot"
    requires k in c.keywords && IsIdentifier(LowerStr(k))
    requires Contains(FullText(title, description), LowerStr(k))
    ensures IsRelevant(title, description, c)
  {
    SpecificIdentifiersMembers(c.keywords, LowerStr(k));
    OtherCompaniesIff(title, description, c);
  }

  /** "finchx" contains "finch" but not as a whole word. */
  lemma EmbeddedNameIsNoWord()
    ensures Contains("finchx", "finch")
    ensures !ContainsWord("finchx", "finch")
  {
    var s := "finchx";
    assert OccursAt(s, "finch", 0);
    OccursContains(s, "finch", 0);
    forall i | 0 <= i <= |s| - 5 ensures !WholeWordAt(s, "finch", i) {
      if i == 0 {
        assert IsWordChar(s[4]) && IsWordChar(s[5]);
        assert !WordBoundary(s, 5);
      } else {
        assert s[1] == 'i';
        assert s[i..i + 5][0] != 'f';
      }
    }
  }

  /** So an article titled "finchx" with an empty description is not about Finch. */
  lemma EmbeddedNameNotRelevant(c: Company)
    requires c.name == "Finch" && c.keywords == ["Finch"]
    ensures !IsRelevant("finchx", "", c)
  {
    EmbeddedNameIsNoWord();
    FinchHasNoIdentifiers();
    assert LowerStr("finchx") == "finchx";
    assert LowerStr("Finch") == "finch";
    assert LowerStr("") == "";
    assert !ContainsWord("", "finch");
  }

  /** The keyword "Finch" is neither a domain nor a known slug. */
  lemma FinchHasNoIdentifiers()
    ensures SpecificIdentifiers(["Finch"]) == []
  {
    FinchIsNoIdentifier();
    assert LowerStr("Finch") == "finch";
    assert ["Finch"][1..] == [];
  }

  lemma FinchIsNoIdentifier()
    ensures !IsIdentifier("finch")
  {
    FirstCharAbsent("finch", ".com");
    assert "finch" !in IdentifierSlugs;
  }

  // ------------------------------------------------------------ adapters

  /** One Google News entry: `entry.title` raises when missing, `entry.link`
      only once the entry is found relevant. */
  function EntryOutcome(c: Company, dateOf: Entry -> string, polarity: string -> real, e: Entry): Outcome {
    if e.title.None? then Raise
    else
      var summary := OrElse(e.summary, "");
      if !IsRelevant(e.title.value, summary, c) then Skip
      else if e.link.None? then Raise
      else Emit(MentionData(c.name, e.title.value, Value(summary), e.link.value,
        "Google News - " + OrElse(e.sourceHref, "Unknown"), Value(dateOf(e)),
        Value(polarity(e.title.value + " " + summary))))
  }

  /** search_google_news_rss: the first two keywords, the first `max` entries of each feed. */
  function SearchGoogleNewsRss(c: Company, fetchRss: string -> seq<Entry>, dateOf: Entry -> string,
                               polarity: string -> real, max: nat): seq<MentionData> {
    Collect(Take(c.keywords, 2), k => Scan(Take(fetchRss(k), max), e => EntryOutcome(c, dateOf, polarity, e)))
  }

  /** One NewsAPI article; a non-empty publishedAt goes through the date
      normalisation, a null one is stored as NULL. A null title or description
      raises at `.lower()`, and a null source object at `.get('name')`. */
  function ArticleOutcome(c: Company, normalize: string -> string, polarity: string -> real, a: Article): Outcome {
    var title := GetOr(a.title, "");
    var description := GetOr(a.description, "");
    if title.None? || description.None? then Raise
    else if !IsRelevant(title.value, description.value, c) then Skip
    else
      var published := GetText(a.publishedAt);
      var source := SourceName(a.source);
      if source.None? then Raise
      else if a.url.Null? then Skip
      else Emit(MentionData(c.name, title.value, Value(description.value), OrElse(Get(a.url), ""),
        "NewsAPI - " + source.value,
        if published.Value? && published.v != "" then Value(normalize(published.v)) else published,
        Value(polarity(title.value + " " + description.value))))
  }

  /** An article whose title or description is null raises inside the `try`
      around the whole search: no NewsAPI mention is returned for the company. */
  lemma NullTextEndsSearch(c: Company, normalize: string -> string, polarity: string -> real,
                           a: Article, rest: seq<Article>)
    requires a.title.Null? || a.description.Null?
    ensures ArticleOutcome(c, normalize, polarity, a).Raise?
    ensures Scan([a] + rest, x => ArticleOutcome(c, normalize, polarity, x)) == []
  {
    assert ([a] + rest)[0] == a;
  }

  /** A relevant article whose url is JSON null is never stored: the url
      column is NOT NULL, so add_mention's INSERT fails and returns None. The
      model drops it where it is read; a null url raises nothing, so the
      articles after it are still scanned. */
  lemma NullUrlNeverStored(c: Company, normalize: string -> string, polarity: string -> real,
                           a: Article, rest: seq<Article>)
    requires a.url.Null?
    ensures !ArticleOutcome(c, normalize, polarity, a).Emit?
    ensures a.title.Value? && a.description.Value? && a.source != Null ==>
              ArticleOutcome(c, normalize, polarity, a) == Skip && Scan([a] + rest, x => ArticleOutcome(c, normalize, polarity, x)) == Scan(rest, x => ArticleOutcome(c, normalize, polarity, x))
  {
    assert ([a] + rest)[0] == a && ([a] + rest)[1..] == rest;
  }

  /** search_newsapi_if_available: nothing without a key; otherwise the first keyword only. */
  function SearchNewsApiIfAvailable(apiKey: string, c: Company, fetchNews: string -> Option<seq<Article>>,
                                    normalize: string -> string, polarity: string -> real): (r: seq<MentionData>)
    ensures apiKey == "" ==> r == []
  {
    if apiKey == "" then []
    else Collect(Take(c.keywords, 1), k =>
      if fetchNews(k).Some? then Scan(fetchNews(k).value, a => ArticleOutcome(c, normalize, polarity, a)) else [])
  }

  /** At most two keywords of `max` entries each. */
  lemma SearchGoogleNewsRssBound(c: Company, fetchRss: string -> seq<Entry>, dateOf: Entry -> string,
                                 polarity: string -> real, max: nat)
    ensures |SearchGoogleNewsRss(c, fetchRss, dateOf, polarity, max)| <= 2 * max
  {
    var f := k => Scan(Take(fetchRss(k), max), e => EntryOutcome(c, dateOf, polarity, e));
    CollectBound(Take(c.keywords, 2), f, max);
  }

  /** Only the feeds of the first two keywords are read. */
  lemma SearchGoogleNewsRssFirstTwo(c: Company, fetch1: string -> seq<Entry>, fetch2: string -> seq<Entry>,
                                    dateOf: Entry -> string, polarity: string -> real, max: nat)
    requires forall k :: k in Take(c.keywords, 2) ==> fetch1(k) == fetch2(k)
    ensures SearchGoogleNewsRss(c, fetch1, dateOf, polarity, max) == SearchGoogleNewsRss(c, fetch2, dateOf, polarity, max)
  {
    CollectCongruent(Take(c.keywords, 2),
      k => Scan(Take(fetch1(k), max), e => EntryOutcome(c, dateOf, polarity, e)),
      k => Scan(Take(fetch2(k), max), e => EntryOutcome(c, dateOf, polarity, e)));
  }

  /** Only the answer for the first keyword is read. */
  lemma SearchNewsApiFirstKeyword(apiKey: string, c: Company, fetch1: string -> Option<seq<Article>>,
                                  fetch2: string -> Option<seq<Article>>, normalize: string -> string, polarity: string -> real)
    requires |c.keywords| > 0 ==> fetch1(c.keywords[0]) == fetch2(c.keywords[0])
    ensures SearchNewsApiIfAvailable(apiKey, c, fetch1, normalize, polarity)
         == SearchNewsApiIfAvailable(apiKey, c, fetch2, normalize, polarity)
  {
    if apiKey != "" {
      assert forall k :: k in Take(c.keywords, 1) ==> k == c.keywords[0];
      CollectCongruent(Take(c.keywords, 1),
        k => if fetch1(k).Some? then Scan(fetch1(k).value, a => ArticleOutcome(c, normalize, polarity, a)) else [],
        k => if fetch2(k).Some? then Scan(fetch2(k).value, a => ArticleOutcome(c, normalize, polarity, a)) else []);
    }
  }

  /** What the adapters return is a relevant article of the company. */
  predicate Sound(c: Company, m: MentionData) {
    && m.companyName == c.name
    && m.content.Value?
    && IsRelevant(m.title, m.content.v, c)
  }

  lemma SearchGoogleNewsRssSound(c: Company, fetchRss: string -> seq<Entry>, dateOf: Entry -> string,
                                 polarity: string -> real, max: nat)
    ensures forall m :: m in SearchGoogleNewsRss(c, fetchRss, dateOf, polarity, max) ==> Sound(c, m)
  {
    var P := (m: MentionData) => Sound(c, m);
    var f := k => Scan(Take(fetchRss(k), max), e => EntryOutcome(c, dateOf, polarity, e));
    forall k | k in Take(c.keywords, 2) ensures forall m :: m in f(k) ==> P(m) {
      ScanAll(Take(fetchRss(k), max), e => EntryOutcome(c, dateOf, polarity, e), P);
    }
    CollectAll(Take(c.keywords, 2), f, P);
  }

  // ------------------------------------------------------------ orchestration

  /** `newsapi_mentions + google_mentions` for one company. */
  function CompanyCandidates(c: Company, apiKey: string, fetchNews: string -> Option<seq<Article>>,
                             normalize: string -> string, fetchRss: string -> seq<Entry>,
                             dateOf: Entry -> string, polarity: string -> real, max: nat): seq<MentionData> {
    SearchNewsApiIfAvailable(apiKey, c, fetchNews, normalize, polarity)
      + SearchGoogleNewsRss(c, fetchRss, dateOf, polarity, max)
  }

  function Batches(companies: seq<Company>, apiKey: string, fetchNews: string -> Option<seq<Article>>,
                   normalize: string -> string, fetchRss: string -> seq<Entry>,
                   dateOf: Entry -> string, polarity: string -> real, max: nat): (b: seq<seq<MentionData>>)
    ensures |b| == |companies|
    ensures forall i :: 0 <= i < |companies| ==>
      b[i] == CompanyCandidates(companies[i], apiKey, fetchNews, normalize, fetchRss, dateOf, polarity, max)
  {
    seq(|companies|, i requires 0 <= i < |companies| =>
      CompanyCandidates(companies[i], apiKey, fetchNews, normalize, fetchRss, dateOf, polarity, max))
  }

  /** monitor_all_companies: the newly stored candidates, in company order,
      NewsAPI results before Google results, each tagged with its id. */
  method MonitorAllCompanies(db: MentionDatabase, companies: seq<Company>, apiKey: string,
                             fetchNews: string -> Option<seq<Article>>, normalize: string -> string,
                             fetchRss: string -> seq<Entry>, dateOf: Entry -> string,
                             polarity: string -> real, max: nat, now: int) returns (allMentions: seq<Tagged>)
    requires db.Valid()
    modifies db
    ensures db.Valid()
    ensures var b := Batches(companies, apiKey, fetchNews, normalize, fetchRss, dateOf, polarity, max);
      && Table(db.mentions, db.nextMentionId) == InsertAll(db.md5, old(Table(db.mentions, db.nextMentionId)), Flatten(b), now).0
      && allMentions == InsertAll(db.md5, old(Table(db.mentions, db.nextMentionId)), Flatten(b), now).1
    ensures unchanged(db`alerts, db`nextAlertId, db`companies, db`nextCompanyId)
  {
    var batches := Batches(companies, apiKey, fetchNews, normalize, fetchRss, dateOf, polarity, max);
    allMentions := StoreAllCompanies(db, batches, now);
  }
}
