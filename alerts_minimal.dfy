/** alerts_minimal.py: the MinimalAlertSystem of the demo. Its three senders
    only print (the printing is not modelled) and always report success;
    send_alerts records three 'sent' rows for every stored mention. */
module MinimalAlertSystem {
  import opened Wrappers
  import opened Text
  import opened Ordered
  import opened MentionStore
  import opened Feeds
  import opened Alerting

  /** Content longer than this is cut in the alert. */
  const ContentLimit: nat := 150
  /** The sentiment scores beyond ±0.3 are positive / negative. */
  const Threshold: real := 0.3
  /** The demo Slack message shows this many mentions per company. */
  const DemoSlackShown: nat := 2

  /** format_mention_for_alert: the first 150 characters followed by '...'
      when the content is longer, otherwise the content itself. */
  function FormatMention(m: AlertMention): (f: Formatted)
    ensures f.company == m.companyName && f.title == m.title && f.url == m.url && f.source == m.source
    ensures |Content(m)| <= ContentLimit ==> f.content == Content(m)
    ensures |Content(m)| > ContentLimit ==> f.content == Content(m)[..ContentLimit] + "..."
    ensures |f.content| <= ContentLimit + 3
    ensures f.sentimentScore == Score(m) && f.sentimentEmoji == SentimentEmoji(Score(m))
  {
    var f := Format(m, ContentLimit, Threshold);
    assert |Content(m)| > ContentLimit ==> f.content == f.content[..ContentLimit] + f.content[ContentLimit..];
    f
  }

  /** _get_sentiment_emoji */
  function SentimentEmoji(score: real): (e: string)
    ensures e == PositiveEmoji <==> score > Threshold
    ensures e == NegativeEmoji <==> score < -Threshold
    ensures e == NeutralEmoji <==> -Threshold <= score <= Threshold
  {
    Emoji(score, Threshold)
  }

  function Groups(ms: seq<AlertMention>): Groups<Formatted> {
    GroupBy(FormatAll(ms, ContentLimit, Threshold), FormattedCompany)
  }

  // ------------------------------------------------------------ demo senders

  /** send_console_alert, send_demo_email_alert and send_demo_slack_alert:
      whatever the mentions, each prints and returns True. */
  function SendConsoleAlert(ms: seq<AlertMention>): (ok: bool)
    ensures ok
  {
    true
  }

  function SendDemoEmailAlert(ms: seq<AlertMention>): (ok: bool)
    ensures ok
  {
    true
  }

  function SendDemoSlackAlert(ms: seq<AlertMention>): (ok: bool)
    ensures ok
  {
    true
  }

  /** What the demo Slack message prints for one company: its name, its
      mention count, and the first two formatted mentions. */
  datatype DemoCompany = DemoCompany(company: string, count: nat, shown: seq<Formatted>)

  function DemoSlackDigest(groups: Groups<Formatted>): (d: seq<DemoCompany>)
    ensures |d| == |groups|
  {
    seq(|groups|, i requires 0 <= i < |groups| =>
      DemoCompany(groups[i].0, |groups[i].1|, Take(groups[i].1, DemoSlackShown)))
  }

  /** Each company of the demo Slack message is shown with its full count but
      at most two of its mentions, the first ones in input order, and all of
      them exactly when it has at most two; the counts add up to the number
      of mentions. */
  lemma DemoSlackCapped(ms: seq<AlertMention>)
    ensures var d := DemoSlackDigest(Groups(ms));
      && |d| == |FirstAppearances(Project(ms, CompanyName))|
      && (forall i :: 0 <= i < |d| ==> d[i].company == FirstAppearances(Project(ms, CompanyName))[i])
      && (forall i :: 0 <= i < |d| ==>
           && |d[i].shown| <= DemoSlackShown
           && d[i].shown <= Select(FormatAll(ms, ContentLimit, Threshold), FormattedCompany, d[i].company)
           && ((d[i].shown == Select(FormatAll(ms, ContentLimit, Threshold), FormattedCompany, d[i].company))
               <==> (d[i].count <= DemoSlackShown)))
      && DemoTotal(d) == |ms|
  {
    var fs := FormatAll(ms, ContentLimit, Threshold);
    var g := Groups(ms);
    var d := DemoSlackDigest(g);
    GroupByFaithful(fs, FormattedCompany);
    GroupByKeys(fs, FormattedCompany);
    GroupBySizes(fs, FormattedCompany);
    assert Project(fs, FormattedCompany) == Project(ms, CompanyName) by {
      ProjectCompanies(ms);
    }
    DemoTotalSizes(g);
  }

  lemma ProjectCompanies(ms: seq<AlertMention>)
    ensures Project(FormatAll(ms, ContentLimit, Threshold), FormattedCompany) == Project(ms, CompanyName)
  {
    var fs := FormatAll(ms, ContentLimit, Threshold);
    assert |Project(fs, FormattedCompany)| == |Project(ms, CompanyName)|;
    forall i | 0 <= i < |ms|
      ensures Project(fs, FormattedCompany)[i] == Project(ms, CompanyName)[i]
    {
    }
  }

  /** The sum of the printed counts. */
  function DemoTotal(d: seq<DemoCompany>): nat {
    if d == [] then 0 else DemoTotal(d[..|d| - 1]) + d[|d| - 1].count
  }

  lemma {:induction false} DemoTotalSizes(g: Groups<Formatted>)
    ensures DemoTotal(DemoSlackDigest(g)) == Total(Sizes(g))
  {
    if g != [] {
      var n := |g| - 1;
      DemoTotalSizes(g[..n]);
      assert DemoSlackDigest(g)[..n] == DemoSlackDigest(g[..n]);
      assert Sizes(g)[..n] == Sizes(g[..n]);
    }
  }

  // ------------------------------------------------------------ send_alerts

  /** The rows recorded per stored mention, in this order. */
  const DemoKinds: seq<(string, string)> := [("console", "sent"), ("email_demo", "sent"), ("slack_demo", "sent")]

  /** send_alerts: {} and no rows for no mentions; otherwise all three demo
      channels report True and every mention with an id gets its three rows. */
  method SendAlerts(db: MentionDatabase, ms: seq<AlertMention>) returns (results: seq<(string, bool)>)
    requires db.Valid()
    modifies db
    ensures db.Valid()
    ensures ms == [] ==> results == [] && db.alerts == old(db.alerts) && db.nextAlertId == old(db.nextAlertId)
    ensures ms != [] ==> results == [("console", true), ("email_demo", true), ("slack_demo", true)]
    ensures ms != [] ==> db.alerts == old(db.alerts) + Records(Ids(ms), DemoKinds, old(db.nextAlertId))
    ensures unchanged(db`mentions, db`nextMentionId, db`companies, db`nextCompanyId)
  {
    if ms == [] {
      return [];
    }
    results := [("console", SendConsoleAlert(ms))];
    results := results + [("email_demo", SendDemoEmailAlert(ms))];
    results := results + [("slack_demo", SendDemoSlackAlert(ms))];
    RecordAlerts(db, ms, DemoKinds);
  }

  /** The rows send_alerts records: three per mention with an id, all 'sent',
      of the three demo types, with consecutive alert ids; a mention without
      an id contributes none. */
  lemma DemoRecordsRule(ms: seq<AlertMention>, nextId: nat)
    ensures |Records(Ids(ms), DemoKinds, nextId)| == 3 * |Ids(ms)|
    ensures forall k :: 0 <= k < |Records(Ids(ms), DemoKinds, nextId)| ==>
      var x := Records(Ids(ms), DemoKinds, nextId)[k];
      && x.id == nextId + k
      && x.status == "sent"
      && (x.alertType == "console" || x.alertType == "email_demo" || x.alertType == "slack_demo")
      && exists m :: m in ms && HasId(m) && m.id.value == x.mentionId
  {
    RecordsLength(Ids(ms), DemoKinds, nextId);
    RecordsShape(Ids(ms), DemoKinds, nextId);
    IdsMembers(ms);
  }

  /** create_daily_summary, without the sentiment averages. */
  method CreateDailySummary(db: MentionDatabase, now: int) returns (s: DailyCounts)
    ensures var recent := db.RecentMentions(24, now);
      && s.totalMentions == |recent|
      && s.mentionsByCompany == CountBy(recent, CompanyOf)
      && s.topSources == CountBy(recent, SourceOf)
    ensures Total(s.mentionsByCompany) == s.totalMentions
    ensures Total(s.topSources) == s.totalMentions
  {
    s := SummarizeRecent(db, now);
  }
}
