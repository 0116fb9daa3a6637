/** linkedin_monitor.py: the LinkedInMonitor. The official-API and third-party
    searches are placeholders that never produce a mention; the Google site
    search keeps every LinkedIn result without a relevance check; the RSS path
    reads one slug. `fetchSearch` answers the Google query for one keyword (no
    blocks unless the status is 200), `fetchFeed` the feed for a slug (None
    unless the status is 200), `nowIso` stands for `datetime.now().isoformat()`. */
module LinkedInMonitor {
  import opened Wrappers
  import opened Text
  import opened Ordered
  import opened MentionStore
  import opened Feeds
  import opened Pipeline

  /** The placeholder searches: whatever the token and the API answer, the
      list they return is never appended to. */
  function SearchLinkedInApi<R>(token: string, response: Option<R>): (r: seq<MentionData>)
    ensures r == []
  {
    var mentions: seq<MentionData> := [];
    if token == "" then [] else mentions
  }

  function SearchThirdPartyApis(c: Company): (r: seq<MentionData>)
    ensures r == []
  {
    []
  }

  // ------------------------------------------------------------ Google site search

  /** A result is kept iff it has an h3 title and a link whose href contains 'linkedin.com'. */
  function ResultOutcome(c: Company, nowIso: string, polarity: string -> real, r: SearchResult): Outcome {
    if r.title.Some? && r.href.Some? && Contains(r.href.value, "linkedin.com") then
      var snippet := OrElse(r.snippet, "");
      Emit(MentionData(c.name, r.title.value, Value(snippet), r.href.value,
        "LinkedIn (via Google)", Value(nowIso), Value(polarity(r.title.value + " " + snippet))))
    else Skip
  }

  /** search_linkedin_google: the first three keywords, the first five blocks each. */
  function SearchLinkedInGoogle(c: Company, fetchSearch: string -> seq<SearchResult>, nowIso: string,
                                polarity: string -> real): seq<MentionData> {
    Collect(Take(c.keywords, 3), k => Scan(Take(fetchSearch(k), 5), r => ResultOutcome(c, nowIso, polarity, r)))
  }

  /** Every kept result is exactly one LinkedIn block of a queried keyword,
      and there are at most 15 of them. */
  lemma SearchLinkedInGoogleShape(c: Company, fetchSearch: string -> seq<SearchResult>, nowIso: string,
                                  polarity: string -> real)
    ensures |SearchLinkedInGoogle(c, fetchSearch, nowIso, polarity)| <= 15
    ensures forall m :: m in SearchLinkedInGoogle(c, fetchSearch, nowIso, polarity) ==>
      m.companyName == c.name && Contains(m.url, "linkedin.com") && m.source == "LinkedIn (via Google)"
  {
    var step := r => ResultOutcome(c, nowIso, polarity, r);
    var f := k => Scan(Take(fetchSearch(k), 5), step);
    var P := (m: MentionData) => m.companyName == c.name && Contains(m.url, "linkedin.com") && m.source == "LinkedIn (via Google)";
    CollectBound(Take(c.keywords, 3), f, 5);
    forall k | k in Take(c.keywords, 3) ensures forall m :: m in f(k) ==> P(m) {
      ScanAll(Take(fetchSearch(k), 5), step, P);
    }
    CollectAll(Take(c.keywords, 3), f, P);
  }

  /** No relevance check: a LinkedIn block is kept whatever its text. */
  lemma KeepsIrrelevantResults(c: Company, nowIso: string, polarity: string -> real, r: SearchResult)
    requires r.title.Some? && r.href.Some? && Contains(r.href.value, "linkedin.com")
    ensures ResultOutcome(c, nowIso, polarity, r).Emit?
    ensures ResultOutcome(c, nowIso, polarity, r).mention.title == r.title.value
  {
  }

  // ------------------------------------------------------------ RSS

  /** The feed slug: the lower-cased name with spaces replaced by '-'. */
  function RssSlug(name: string): (slug: string)
    ensures ' ' !in slug
    ensures |slug| == |name|
    ensures forall j :: 0 <= j < |name| ==> slug[j] == if name[j] == ' ' then '-' else Lower(name[j])
    ensures slug == Join(Split(LowerStr(name), ' '), "-")
  {
    var slug := ReplaceChar(LowerStr(name), ' ', '-');
    ReplaceCharJoinSplit(LowerStr(name), ' ', '-');
    assert forall j :: 0 <= j < |slug| ==> slug[j] != ' ';
    slug
  }

  /** One feed entry, unfiltered: `entry.title` and `entry.link` raise when missing. */
  function RssEntryOutcome(c: Company, polarity: string -> real, e: Entry): Outcome {
    if e.title.None? || e.link.None? then Raise
    else
      var summary := OrElse(e.summary, "");
      Emit(MentionData(c.name, e.title.value, Value(summary), e.link.value,
        "LinkedIn RSS", Value(OrElse(e.published, "")), Value(polarity(e.title.value + " " + summary))))
  }

  /** search_linkedin_rss_feeds: the first ten entries of the company's feed. */
  function SearchLinkedInRssFeeds(c: Company, fetchFeed: string -> Option<seq<Entry>>, polarity: string -> real): (r: seq<MentionData>)
    ensures |r| <= 10
  {
    var feed := fetchFeed(RssSlug(c.name));
    if feed.None? then [] else Scan(Take(feed.value, 10), e => RssEntryOutcome(c, polarity, e))
  }

  /** Without a malformed entry, the first ten entries all become mentions, in
      order: the i-th mention has the i-th entry's title and link. */
  lemma RssKeepsWellFormedEntries(c: Company, fetchFeed: string -> Option<seq<Entry>>, polarity: string -> real)
    requires fetchFeed(RssSlug(c.name)).Some?
    requires forall e :: e in fetchFeed(RssSlug(c.name)).value ==> e.title.Some? && e.link.Some?
    ensures var es := Take(fetchFeed(RssSlug(c.name)).value, 10);
      var r := SearchLinkedInRssFeeds(c, fetchFeed, polarity);
      && |r| == |es|
      && forall i :: 0 <= i < |es| ==>
           r[i] == RssEntryOutcome(c, polarity, es[i]).mention
           && r[i].title == es[i].title.value && r[i].url == es[i].link.value && r[i].source == "LinkedIn RSS"
  {
    var es := Take(fetchFeed(RssSlug(c.name)).value, 10);
    var step := e => RssEntryOutcome(c, polarity, e);
    assert forall e :: e in es ==> e in fetchFeed(RssSlug(c.name)).value;
    ScanNoRaise(es, step);
    EmittedAll(es, step);
  }

  lemma {:induction false} EmittedAll<E>(es: seq<E>, step: E -> Outcome)
    requires forall e :: e in es ==> step(e).Emit?
    ensures |Emitted(es, step)| == |es|
    ensures forall i :: 0 <= i < |es| ==> Emitted(es, step)[i] == step(es[i]).mention
  {
    if es != [] {
      assert es[0] in es;
      assert forall e :: e in es[1..] ==> e in es;
      EmittedAll(es[1..], step);
    }
  }

  // ------------------------------------------------------------ orchestration

  function CompanyCandidates(c: Company, fetchSearch: string -> seq<SearchResult>, fetchFeed: string -> Option<seq<Entry>>,
                             nowIso: string, polarity: string -> real): seq<MentionData> {
    SearchLinkedInGoogle(c, fetchSearch, nowIso, polarity) + SearchLinkedInRssFeeds(c, fetchFeed, polarity)
  }

  function Batches(companies: seq<Company>, fetchSearch: string -> seq<SearchResult>, fetchFeed: string -> Option<seq<Entry>>,
                   nowIso: string, polarity: string -> real): (b: seq<seq<MentionData>>)
    ensures |b| == |companies|
    ensures forall i :: 0 <= i < |companies| ==> b[i] == CompanyCandidates(companies[i], fetchSearch, fetchFeed, nowIso, polarity)
  {
    seq(|companies|, i requires 0 <= i < |companies| => CompanyCandidates(companies[i], fetchSearch, fetchFeed, nowIso, polarity))
  }

  /** monitor_all_companies: the newly stored candidates, in company order,
      Google results before feed results, each tagged with its id. */
  method MonitorAllCompanies(db: MentionDatabase, companies: seq<Company>, fetchSearch: string -> seq<SearchResult>,
                             fetchFeed: string -> Option<seq<Entry>>, nowIso: string, polarity: string -> real, now: int)
    returns (allMentions: seq<Tagged>)
    requires db.Valid()
    modifies db
    ensures db.Valid()
    ensures var b := Batches(companies, fetchSearch, fetchFeed, nowIso, polarity);
      && Table(db.mentions, db.nextMentionId) == InsertAll(db.md5, old(Table(db.mentions, db.nextMentionId)), Flatten(b), now).0
      && allMentions == InsertAll(db.md5, old(Table(db.mentions, db.nextMentionId)), Flatten(b), now).1
    ensures unchanged(db`alerts, db`nextAlertId, db`companies, db`nextCompanyId)
  {
    var batches := Batches(companies, fetchSearch, fetchFeed, nowIso, polarity);
    allMentions := StoreAllCompanies(db, batches, now);
  }

  // ------------------------------------------------------------ insights

  predicate FromLinkedIn(x: Row) {
    Contains(LowerStr(x.source), "linkedin")
  }

  function LinkedInRows(rows: seq<Row>): (r: seq<Row>)
    ensures forall x :: x in r <==> x in rows && FromLinkedIn(x)
    ensures forall x :: multiset(r)[x] == if FromLinkedIn(x) then multiset(rows)[x] else 0
    ensures |r| <= |rows|
  {
    WhereCount(rows, FromLinkedIn);
    Where(rows, FromLinkedIn)
  }

  /** The comprehension keeps the order of the rows: filtering a concatenation
      is concatenating the filtered parts. */
  lemma LinkedInRowsAppend(a: seq<Row>, b: seq<Row>)
    ensures LinkedInRows(a + b) == LinkedInRows(a) + LinkedInRows(b)
  {
    WhereAppend(a, b, FromLinkedIn);
  }

  /** get_linkedin_insights: the LinkedIn rows among the recent ones, counted
      per company; the average sentiment stays empty. */
  method GetLinkedInInsights(db: MentionDatabase, hours: int, now: int)
    returns (total: nat, byCompany: Counts, averageSentiment: seq<(string, real)>)
    ensures total == |LinkedInRows(db.RecentMentions(hours, now))|
    ensures byCompany == CountBy(LinkedInRows(db.RecentMentions(hours, now)), CompanyOf)
    ensures Total(byCompany) == total
    ensures averageSentiment == []
  {
    var recent := LinkedInRows(db.RecentMentions(hours, now));
    total := |recent|;
    byCompany := [];
    averageSentiment := [];
    var i := 0;
    while i < |recent|
      invariant 0 <= i <= |recent|
      invariant byCompany == CountBy(recent[..i], CompanyOf)
    {
      CountByStep(recent, i, CompanyOf);
      byCompany := Bump(byCompany, recent[i].companyName);
      i := i + 1;
    }
    assert recent[..i] == recent;
    CountByTotal(recent, CompanyOf);
  }
}
