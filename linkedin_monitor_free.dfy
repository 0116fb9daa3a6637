/** linkedin_monitor_free.py: the FreeLinkedInMonitor. It reads Google result
    blocks for `site:linkedin.com "<keyword>"` (first two keywords, first five
    blocks each) and tries three slug spellings of the company's LinkedIn RSS
    feed. `fetchSearch` answers the Google query for one keyword (no blocks
    when the request fails), `fetchPage` the feed for one slug (None unless the
    status is 200), `nowIso` stands for `datetime.now().isoformat()`. */
module FreeLinkedInMonitor {
  import opened Wrappers
  import opened Text
  import opened Ordered
  import opened MentionStore
  import opened Feeds
  import opened Pipeline
  import MinimalNewsMonitor

  // ------------------------------------------------------------ classifier

  predicate Mentions(title: string, content: string, w: string) {
    Contains(title, LowerStr(w)) || Contains(content, LowerStr(w))
  }

  predicate KeywordMentioned(ks: seq<string>, title: string, content: string) {
    if ks == [] then false else Mentions(title, content, ks[0]) || KeywordMentioned(ks[1..], title, content)
  }

  /** _is_relevant_mention, on the 'title' and 'content' keys. */
  predicate IsRelevant(title: string, content: string, c: Company) {
    var t := LowerStr(title);
    var s := LowerStr(content);
    Mentions(t, s, c.name) || KeywordMentioned(c.keywords, t, s)
  }

  lemma {:induction false} KeywordMentionedAgree(ks: seq<string>, title: string, content: string)
    ensures KeywordMentioned(ks, title, content) == MinimalNewsMonitor.KeywordMentioned(ks, title, content)
  {
    if ks != [] {
      KeywordMentionedAgree(ks[1..], title, content);
    }
  }

  /** The same substring rule as the minimal news monitor, applied to the snippet. */
  lemma SameRuleAsMinimal(title: string, snippet: string, c: Company)
    ensures IsRelevant(title, snippet, c) == MinimalNewsMonitor.IsRelevant(title, snippet, c)
  {
    KeywordMentionedAgree(c.keywords, LowerStr(title), LowerStr(snippet));
  }

  // ------------------------------------------------------------ Google site search

  /** One result block: skipped without an h3 title or without a link whose
      href contains 'linkedin.com', or when not relevant. */
  function ResultOutcome(c: Company, nowIso: string, polarity: string -> real, r: SearchResult): Outcome {
    if r.title.None? then Skip
    else if r.href.None? || !Contains(r.href.value, "linkedin.com") then Skip
    else
      var snippet := OrElse(r.snippet, "");
      if !IsRelevant(r.title.value, snippet, c) then Skip
      else Emit(MentionData(c.name, r.title.value, Value(snippet), r.href.value,
        "LinkedIn - " + OrElse(r.cite, "LinkedIn"), Value(nowIso),
        Value(polarity(r.title.value + " " + snippet))))
  }

  /** search_linkedin_google */
  function SearchLinkedInGoogle(c: Company, fetchSearch: string -> seq<SearchResult>, nowIso: string,
                                polarity: string -> real): seq<MentionData> {
    Collect(Take(c.keywords, 2), k => Scan(Take(fetchSearch(k), 5), r => ResultOutcome(c, nowIso, polarity, r)))
  }

  /** What the Google path returns: a relevant LinkedIn url, labelled with the cite. */
  predicate GoogleSound(c: Company, m: MentionData) {
    && m.companyName == c.name
    && Contains(m.url, "linkedin.com")
    && m.content.Value?
    && IsRelevant(m.title, m.content.v, c)
    && StartsWith(m.source, "LinkedIn - ")
  }

  /** m is what result block r yields: its h3 title, its href, and the cite
      text (default 'LinkedIn') as the source label. */
  predicate FromResult(m: MentionData, r: SearchResult) {
    && r.title == Some(m.title)
    && r.href == Some(m.url)
    && m.source == "LinkedIn - " + OrElse(r.cite, "LinkedIn")
  }

  lemma SearchLinkedInGoogleSound(c: Company, fetchSearch: string -> seq<SearchResult>, nowIso: string,
                                  polarity: string -> real)
    ensures forall m :: m in SearchLinkedInGoogle(c, fetchSearch, nowIso, polarity) ==> GoogleSound(c, m)
    ensures forall m :: m in SearchLinkedInGoogle(c, fetchSearch, nowIso, polarity) ==>
              exists k, r :: k in Take(c.keywords, 2) && r in Take(fetchSearch(k), 5) && FromResult(m, r)
  {
    SearchLinkedInGoogleOrigin(c, fetchSearch, nowIso, polarity);
    var step := r => ResultOutcome(c, nowIso, polarity, r);
    var P := (m: MentionData) => GoogleSound(c, m);
    forall r | ResultOutcome(c, nowIso, polarity, r).Emit?
      ensures GoogleSound(c, ResultOutcome(c, nowIso, polarity, r).mention)
    {
      var m := ResultOutcome(c, nowIso, polarity, r).mention;
      assert m.source == "LinkedIn - " + OrElse(r.cite, "LinkedIn");
      assert m.source[..|"LinkedIn - "|] == "LinkedIn - ";
    }
    forall k | k in Take(c.keywords, 2) ensures forall m :: m in Scan(Take(fetchSearch(k), 5), step) ==> P(m) {
      ScanAll(Take(fetchSearch(k), 5), step, P);
    }
    CollectAll(Take(c.keywords, 2), k => Scan(Take(fetchSearch(k), 5), step), P);
  }

  lemma SearchLinkedInGoogleOrigin(c: Company, fetchSearch: string -> seq<SearchResult>, nowIso: string,
                                   polarity: string -> real)
    ensures forall m :: m in SearchLinkedInGoogle(c, fetchSearch, nowIso, polarity) ==>
              exists k, r :: k in Take(c.keywords, 2) && r in Take(fetchSearch(k), 5) && FromResult(m, r)
  {
    var step := r => ResultOutcome(c, nowIso, polarity, r);
    var P := (m: MentionData) =>
      exists k, r :: k in Take(c.keywords, 2) && r in Take(fetchSearch(k), 5) && FromResult(m, r);
    forall k, m | k in Take(c.keywords, 2) && m in Scan(Take(fetchSearch(k), 5), step) ensures P(m) {
      ScanEmitted(Take(fetchSearch(k), 5), step, m);
      var r :| r in Take(fetchSearch(k), 5) && step(r) == Emit(m);
      assert FromResult(m, r);
    }
    CollectAll(Take(c.keywords, 2), k => Scan(Take(fetchSearch(k), 5), step), P);
  }

  /** At most five results for each of at most two keywords. */
  lemma SearchLinkedInGoogleBound(c: Company, fetchSearch: string -> seq<SearchResult>, nowIso: string,
                                  polarity: string -> real)
    ensures |SearchLinkedInGoogle(c, fetchSearch, nowIso, polarity)| <= 10
  {
    CollectBound(Take(c.keywords, 2), k => Scan(Take(fetchSearch(k), 5), r => ResultOutcome(c, nowIso, polarity, r)), 5);
  }

  // ------------------------------------------------------------ company page feeds

  /** The three slug spellings, in the order they are tried. */
  function Slugs(name: string): (r: seq<string>)
    ensures |r| == 3
    ensures |r[2]| == |name| && forall j :: 0 <= j < |name| ==> r[2][j] == Lower(name[j])
    ensures |r[0]| == |name| && forall j :: 0 <= j < |name| ==> r[0][j] == if name[j] == ' ' then '-' else Lower(name[j])
    ensures r[0] == Join(Split(r[2], ' '), "-")
    ensures r[1] == Join(Split(r[2], ' '), "")
    ensures multiset(r[1]) == multiset(r[2])[' ' := 0]
  {
    var lower := LowerStr(name);
    ReplaceCharJoinSplit(lower, ' ', '-');
    RemoveCharJoinSplit(lower, ' ');
    [ReplaceChar(lower, ' ', '-'), RemoveChar(lower, ' '), lower]
  }

  /** The first two spellings contain no space; all three are lower-case. */
  lemma SlugsShape(name: string)
    ensures ' ' !in Slugs(name)[0] && ' ' !in Slugs(name)[1]
    ensures forall i :: 0 <= i < 3 ==> LowerStr(Slugs(name)[i]) == Slugs(name)[i]
  {
    var lower := LowerStr(name);
    var dashed := ReplaceChar(lower, ' ', '-');
    forall j | 0 <= j < |dashed| ensures dashed[j] != ' ' && Lower(dashed[j]) == dashed[j] {
      assert dashed[j] == (if lower[j] == ' ' then '-' else lower[j]);
    }
    assert LowerStr(dashed) == dashed;
    var squeezed := RemoveChar(lower, ' ');
    forall j | 0 <= j < |squeezed| ensures Lower(squeezed[j]) == squeezed[j] {
      assert squeezed[j] in squeezed;
      assert squeezed[j] in lower;
    }
    assert LowerStr(squeezed) == squeezed;
    LowerStrIdempotent(name);
  }

  /** One feed entry: `entry.title` and `entry.link` raise when missing. */
  function PageEntryOutcome(c: Company, polarity: string -> real, e: Entry): Outcome {
    if e.title.None? || e.link.None? then Raise
    else
      var summary := OrElse(e.summary, "");
      Emit(MentionData(c.name, e.title.value, Value(summary), e.link.value,
        "LinkedIn Company Page", Value(OrElse(e.published, "")),
        Value(polarity(e.title.value + " " + summary))))
  }

  /** The slug loop: a feed with entries yields its first three and ends the
      loop; an entry that raises abandons that slug, keeping what was appended,
      and the loop goes on with the next slug. */
  function TryPages(slugs: seq<string>, c: Company, fetchPage: string -> Option<seq<Entry>>,
                    polarity: string -> real): seq<MentionData>
    decreases |slugs|
  {
    if slugs == [] then []
    else
      var page := fetchPage(slugs[0]);
      if page.None? || page.value == [] then TryPages(slugs[1..], c, fetchPage, polarity)
      else
        var es := Take(page.value, 3);
        var found := Scan(es, e => PageEntryOutcome(c, polarity, e));
        if Raises(es, e => PageEntryOutcome(c, polarity, e)) then found + TryPages(slugs[1..], c, fetchPage, polarity)
        else found
  }

  /** search_linkedin_company_pages */
  function SearchCompanyPages(c: Company, fetchPage: string -> Option<seq<Entry>>, polarity: string -> real): seq<MentionData> {
    TryPages(Slugs(c.name), c, fetchPage, polarity)
  }

  /** No feed entry raises. */
  predicate WellFormedPages(slugs: seq<string>, c: Company, fetchPage: string -> Option<seq<Entry>>, polarity: string -> real) {
    forall s :: s in slugs && fetchPage(s).Some? ==>
      !Raises(Take(fetchPage(s).value, 3), e => PageEntryOutcome(c, polarity, e))
  }

  lemma {:induction false} TryPagesBound(slugs: seq<string>, c: Company, fetchPage: string -> Option<seq<Entry>>,
                                         polarity: string -> real)
    ensures |TryPages(slugs, c, fetchPage, polarity)| <= 3 * |slugs|
    ensures WellFormedPages(slugs, c, fetchPage, polarity) ==> |TryPages(slugs, c, fetchPage, polarity)| <= 3
    decreases |slugs|
  {
    if slugs != [] {
      TryPagesBound(slugs[1..], c, fetchPage, polarity);
      if WellFormedPages(slugs, c, fetchPage, polarity) {
        assert slugs[0] in slugs;
        assert forall s :: s in slugs[1..] ==> s in slugs;
        assert WellFormedPages(slugs[1..], c, fetchPage, polarity);
      }
    }
  }

  /** Three mentions at most from well-formed feeds, nine in any case. */
  lemma SearchCompanyPagesBound(c: Company, fetchPage: string -> Option<seq<Entry>>, polarity: string -> real)
    ensures |SearchCompanyPages(c, fetchPage, polarity)| <= 9
    ensures WellFormedPages(Slugs(c.name), c, fetchPage, polarity) ==> |SearchCompanyPages(c, fetchPage, polarity)| <= 3
  {
    TryPagesBound(Slugs(c.name), c, fetchPage, polarity);
  }

  /** The first slug whose feed has entries ends the search when they are well formed. */
  lemma {:induction false} FirstFeedWins(slugs: seq<string>, c: Company, fetchPage: string -> Option<seq<Entry>>,
                                         polarity: string -> real, k: nat)
    requires k < |slugs|
    requires forall j :: 0 <= j < k ==> fetchPage(slugs[j]).None? || fetchPage(slugs[j]).value == []
    requires fetchPage(slugs[k]).Some? && fetchPage(slugs[k]).value != []
    requires !Raises(Take(fetchPage(slugs[k]).value, 3), e => PageEntryOutcome(c, polarity, e))
    ensures TryPages(slugs, c, fetchPage, polarity)
         == Scan(Take(fetchPage(slugs[k]).value, 3), e => PageEntryOutcome(c, polarity, e))
    decreases k
  {
    if k > 0 {
      assert fetchPage(slugs[0]).None? || fetchPage(slugs[0]).value == [];
      FirstFeedWins(slugs[1..], c, fetchPage, polarity, k - 1);
    }
  }

  // ------------------------------------------------------------ orchestration

  /** `google_mentions + rss_mentions` for one company. */
  function CompanyCandidates(c: Company, fetchSearch: string -> seq<SearchResult>, fetchPage: string -> Option<seq<Entry>>,
                             nowIso: string, polarity: string -> real): seq<MentionData> {
    SearchLinkedInGoogle(c, fetchSearch, nowIso, polarity) + SearchCompanyPages(c, fetchPage, polarity)
  }

  function Batches(companies: seq<Company>, fetchSearch: string -> seq<SearchResult>, fetchPage: string -> Option<seq<Entry>>,
                   nowIso: string, polarity: string -> real): (b: seq<seq<MentionData>>)
    ensures |b| == |companies|
    ensures forall i :: 0 <= i < |companies| ==> b[i] == CompanyCandidates(companies[i], fetchSearch, fetchPage, nowIso, polarity)
  {
    seq(|companies|, i requires 0 <= i < |companies| => CompanyCandidates(companies[i], fetchSearch, fetchPage, nowIso, polarity))
  }

  /** monitor_all_companies: the newly stored candidates, in company order,
      Google results before feed results, each tagged with its id. */
  method MonitorAllCompanies(db: MentionDatabase, companies: seq<Company>, fetchSearch: string -> seq<SearchResult>,
                             fetchPage: string -> Option<seq<Entry>>, nowIso: string, polarity: string -> real, now: int)
    returns (allMentions: seq<Tagged>)
    requires db.Valid()
    modifies db
    ensures db.Valid()
    ensures var b := Batches(companies, fetchSearch, fetchPage, nowIso, polarity);
      && Table(db.mentions, db.nextMentionId) == InsertAll(db.md5, old(Table(db.mentions, db.nextMentionId)), Flatten(b), now).0
      && allMentions == InsertAll(db.md5, old(Table(db.mentions, db.nextMentionId)), Flatten(b), now).1
    ensures unchanged(db`alerts, db`nextAlertId, db`companies, db`nextCompanyId)
  {
    var batches := Batches(companies, fetchSearch, fetchPage, nowIso, polarity);
    allMentions := StoreAllCompanies(db, batches, now);
  }

  // ------------------------------------------------------------ insights

  predicate FromLinkedIn(x: Row) {
    Contains(LowerStr(x.source), "linkedin")
  }

  /** `[m for m in rows if 'linkedin' in m['source'].lower()]` */
  function LinkedInRows(rows: seq<Row>): (r: seq<Row>)
    ensures forall x :: x in r <==> x in rows && FromLinkedIn(x)
    ensures forall x :: multiset(r)[x] == if FromLinkedIn(x) then multiset(rows)[x] else 0
    ensures |r| <= |rows|
  {
    WhereCount(rows, FromLinkedIn);
    Where(rows, FromLinkedIn)
  }

  /** The comprehension keeps the order of the rows: filtering a concatenation
      is concatenating the filtered parts. */
  lemma LinkedInRowsAppend(a: seq<Row>, b: seq<Row>)
    ensures LinkedInRows(a + b) == LinkedInRows(a) + LinkedInRows(b)
  {
    WhereAppend(a, b, FromLinkedIn);
  }

  /** get_linkedin_insights: the LinkedIn rows among the recent ones, counted
      per company and per source. */
  method GetLinkedInInsights(db: MentionDatabase, hours: int, now: int)
    returns (total: nat, byCompany: Counts, bySource: Counts)
    ensures total == |LinkedInRows(db.RecentMentions(hours, now))|
    ensures byCompany == CountBy(LinkedInRows(db.RecentMentions(hours, now)), CompanyOf)
    ensures bySource == CountBy(LinkedInRows(db.RecentMentions(hours, now)), SourceOf)
    ensures Total(byCompany) == total && Total(bySource) == total
  {
    var recent := LinkedInRows(db.RecentMentions(hours, now));
    total := |recent|;
    byCompany, bySource := [], [];
    var i := 0;
    while i < |recent|
      invariant 0 <= i <= |recent|
      invariant byCompany == CountBy(recent[..i], CompanyOf)
      invariant bySource == CountBy(recent[..i], SourceOf)
    {
      CountByStep(recent, i, CompanyOf);
      CountByStep(recent, i, SourceOf);
      byCompany := Bump(byCompany, recent[i].companyName);
      bySource := Bump(bySource, recent[i].source);
      i := i + 1;
    }
    assert recent[..i] == recent;
    CountByTotal(recent, CompanyOf);
    CountByTotal(recent, SourceOf);
  }
}
