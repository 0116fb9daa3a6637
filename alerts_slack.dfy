/** alerts_slack.py: the SlackAlertSystem used for the live demo. The POST to
    the webhook is the parameter `post`, true when Slack answers 200 (a raised
    request error also reads as false). */
module SlackAlertSystem {
  import opened Wrappers
  import opened Text
  import opened Ordered
  import opened MentionStore
  import opened Feeds
  import opened Alerting

  /** Content longer than this is cut in the alert. */
  const ContentLimit: nat := 200
  /** The sentiment scores beyond ±0.1 are positive / negative. */
  const Threshold: real := 0.1
  /** Titles longer than this are cut in a mention section ... */
  const TitleLimit: nat := 80
  /** ... to this many characters followed by '...'. */
  const TitleKeep: nat := 77

  /** format_mention_for_alert: the first 200 characters followed by '...'
      when the content is longer, otherwise the content itself. */
  function FormatMention(m: AlertMention): (f: Formatted)
    ensures f.company == m.companyName && f.title == m.title && f.url == m.url && f.source == m.source
    ensures |Content(m)| <= ContentLimit ==> f.content == Content(m)
    ensures |Content(m)| > ContentLimit ==> f.content == Content(m)[..ContentLimit] + "..."
    ensures |f.content| <= ContentLimit + 3
    ensures f.sentimentScore == Score(m) && f.sentimentEmoji == SentimentEmoji(Score(m))
  {
    var f := Format(m, ContentLimit, Threshold);
    assert |Content(m)| > ContentLimit ==> f.content == f.content[..ContentLimit] + f.content[ContentLimit..];
    f
  }

  /** _get_sentiment_emoji, with the narrower neutral band [-0.1, 0.1]. */
  function SentimentEmoji(score: real): (e: string)
    ensures e == PositiveEmoji <==> score > Threshold
    ensures e == NegativeEmoji <==> score < -Threshold
    ensures e == NeutralEmoji <==> -Threshold <= score <= Threshold
  {
    Emoji(score, Threshold)
  }

  /** The title as a mention section shows it: a title of more than 80
      characters becomes its first 77 followed by '...', exactly 80 in all;
      a shorter one is shown whole. */
  function DisplayTitle(title: string): (t: string)
    ensures |title| <= TitleLimit ==> t == title
    ensures |title| > TitleLimit ==> |t| == TitleLimit && t == title[..TitleKeep] + "..."
    ensures |t| <= TitleLimit
  {
    var t := Elide(title, TitleLimit, TitleKeep);
    assert |title| > TitleLimit ==> t == t[..TitleKeep] + t[TitleKeep..];
    t
  }

  /** The section of one mention: the displayed title with the emoji, the
      url as "Read more" and the source. */
  function Section(m: AlertMention): Block {
    MentionSection(DisplayTitle(m.title), FormatMention(m))
  }

  /** The grouping dict of send_slack_alert: the raw mentions per company. */
  function Groups(ms: seq<AlertMention>): Groups<AlertMention> {
    GroupBy(ms, CompanyName)
  }

  /** _create_slack_blocks: header, the summary "Found n new mentions across
      c companies", a divider, each company's blocks, the timestamp footer.
      The n shown is the sum of the group sizes. */
  function SlackBlocks(ms: seq<AlertMention>): seq<Block> {
    var g := Groups(ms);
    [Header(None), Summary(Total(Sizes(g)), |g|), Divider] + GroupBlocks(g, Section) + [Timestamp]
  }

  /** Every mention section of a company list shows a title of at most 80 characters. */
  lemma {:induction false} TitlesFit(groups: Groups<AlertMention>)
    ensures forall b :: b in GroupBlocks(groups, Section) && b.MentionSection? ==> |b.title| <= TitleLimit
  {
    if groups != [] {
      var n := |groups| - 1;
      var last := groups[n];
      var shown := Sections(Take(last.1, ShownPerCompany), Section);
      TitlesFit(groups[..n]);
      var tail := CompanyBlocks(last.0, |last.1|, shown);
      forall b | b in tail && b.MentionSection? ensures |b.title| <= TitleLimit {
        assert b in shown;
        var i :| 0 <= i < |shown| && shown[i] == b;
        assert b == Section(Take(last.1, ShownPerCompany)[i]);
      }
    }
  }

  /** No mention section of the payload shows a title longer than 80 characters. */
  lemma SlackTitlesFit(ms: seq<AlertMention>)
    ensures forall b :: b in SlackBlocks(ms) && b.MentionSection? ==> |b.title| <= TitleLimit
  {
    TitlesFit(Groups(ms));
  }

  /** The payload has 3 + the company budgets + 1 blocks; its summary reports
      every mention and every company; it shows min(n, 3) sections per
      company. */
  lemma SlackBlocksShape(ms: seq<AlertMention>)
    ensures |SlackBlocks(ms)| == 3 + Budget(Sizes(Groups(ms))) + 1
    ensures SlackBlocks(ms)[1] == Summary(|ms|, |FirstAppearances(Project(ms, CompanyName))|)
    ensures SectionCount(SlackBlocks(ms)) == Shown(Sizes(Groups(ms))) <= |ms|
  {
    var g := Groups(ms);
    var head := [Header(None), Summary(Total(Sizes(g)), |g|), Divider];
    var body := GroupBlocks(g, Section);
    SectionCountNone(head);
    SectionCountNone([Timestamp]);
    GroupBlocksCount(g, Section);
    GroupBySizes(ms, CompanyName);
    GroupByFaithful(ms, CompanyName);
    ShownAtMostTotal(Sizes(g));
    SectionCountAppend(head, body);
    SectionCountAppend(head + body, [Timestamp]);
  }

  /** send_slack_alert: False without posting when the webhook or the mention
      list is empty; otherwise the grouped mentions' blocks are posted and the
      result is whether Slack accepted them. */
  method SendSlackAlert(webhook: string, ms: seq<AlertMention>, post: seq<Block> -> bool) returns (ok: bool)
    ensures ok == (webhook != "" && ms != [] && post(SlackBlocks(ms)))
  {
    if webhook == "" || ms == [] {
      return false;
    }
    var groups := GroupInOrder(ms, CompanyName);
    var blocks := AppendCompanyBlocks([Header(None), Summary(Total(Sizes(groups)), |groups|), Divider], groups, Section);
    blocks := blocks + [Timestamp];
    ok := post(blocks);
  }

  /** The one mention of send_test_alert, published `now`. */
  function TestMention(now: string): AlertMention {
    AlertMention("Test Company", "Test Alert - ScaleX Ventures Portfolio Monitor",
      Some("This is a test alert to verify your Slack integration is working correctly."),
      "https://scalexventures.com", "Test Source", Some(now), Some(0.5), None)
  }

  /** send_test_alert posts the blocks of the test mention. */
  method SendTestAlert(webhook: string, now: string, post: seq<Block> -> bool) returns (ok: bool)
    ensures ok == (webhook != "" && post(SlackBlocks([TestMention(now)])))
  {
    ok := SendSlackAlert(webhook, [TestMention(now)], post);
  }

  /** The test message: seven blocks, its one section showing the positive
      emoji and the whole title. */
  lemma TestAlertShape(now: string)
    ensures |SlackBlocks([TestMention(now)])| == 7
    ensures SlackBlocks([TestMention(now)])[4] == Section(TestMention(now))
    ensures Section(TestMention(now)).mention.sentimentEmoji == PositiveEmoji
    ensures Section(TestMention(now)).title == TestMention(now).title
  {
    var m := TestMention(now);
    var g := Groups([m]);
    assert [m][..0] == [];
    var none: Groups<AlertMention> := [];
    assert GroupBy([m][..0], CompanyName) == none;
    assert IndexOf(Keys(none), m.companyName) == -1;
    assert g == [("Test Company", [m])];
    assert Take([m], ShownPerCompany) == [m];
    assert GroupBlocks(g, Section) == [CompanyHeader("Test Company", 1), Section(m), Divider] by {
      assert g[..0] == [];
    }
  }

  // ------------------------------------------------------------ daily summary

  /** One company line of the daily summary: its mentions and how many are
      positive, neutral and negative. */
  datatype CompanyLine = CompanyLine(company: string, mentions: nat, positive: nat, neutral: int, negative: nat)

  predicate IsPositive(m: AlertMention) { Score(m) > Threshold }
  predicate IsNegative(m: AlertMention) { Score(m) < -Threshold }
  predicate IsNeutral(m: AlertMention) { -Threshold <= Score(m) <= Threshold }

  /** `sum(1 for m in ms if p(m))`: the number of mentions that satisfy p. */
  function CountWhere(ms: seq<AlertMention>, p: AlertMention -> bool): (n: nat)
    ensures n <= |ms|
    ensures n == |Where(ms, p)|
  {
    if ms == [] then 0
    else
      var init, last := ms[..|ms| - 1], ms[|ms| - 1];
      assert ms == init + [last];
      WhereAppend(init, [last], p);
      assert Where([last], p) == (if p(last) then [last] else []) + Where([], p);
      CountWhere(init, p) + (if p(last) then 1 else 0)
  }

  /** The line of one company: the positive and negative counts, and the
      neutral count as the rest. */
  function Line(company: string, ms: seq<AlertMention>): CompanyLine {
    var positive := CountWhere(ms, IsPositive);
    var negative := CountWhere(ms, IsNegative);
    CompanyLine(company, |ms|, positive, |ms| - positive - negative, negative)
  }

  /** Every mention is exactly one of positive, neutral, negative: the counts
      partition the mentions. */
  lemma {:induction false} Partition(ms: seq<AlertMention>)
    ensures CountWhere(ms, IsPositive) + CountWhere(ms, IsNeutral) + CountWhere(ms, IsNegative) == |ms|
  {
    if ms != [] {
      Partition(ms[..|ms| - 1]);
    }
  }

  /** The neutral count, computed as the rest, is never negative and counts
      exactly the scores in [-0.1, 0.1]; the three counts add up. */
  lemma LineCounts(company: string, ms: seq<AlertMention>)
    ensures Line(company, ms).neutral == CountWhere(ms, IsNeutral) >= 0
    ensures Line(company, ms).positive + Line(company, ms).neutral + Line(company, ms).negative == Line(company, ms).mentions
  {
    Partition(ms);
  }

  /** The summary posted: the number of mentions and of companies, and one
      line per company in first-appearance order. */
  datatype DailyMessage = DailyMessage(found: nat, companies: nat, lines: seq<CompanyLine>)

  function Lines(g: Groups<AlertMention>): (ls: seq<CompanyLine>)
    ensures |ls| == |g|
  {
    seq(|g|, i requires 0 <= i < |g| => Line(g[i].0, g[i].1))
  }

  function DailyMessageOf(ms: seq<AlertMention>): DailyMessage {
    var g := Groups(ms);
    DailyMessage(|ms|, |g|, Lines(g))
  }

  /** Each line of the summary covers its company's mentions, partitioned by
      sentiment, and the lines add up to all mentions. */
  lemma DailyMessageCounts(ms: seq<AlertMention>)
    ensures var d := DailyMessageOf(ms);
      && d.companies == |d.lines| == |FirstAppearances(Project(ms, CompanyName))|
      && (forall i :: 0 <= i < |d.lines| ==>
            && d.lines[i].mentions == |Select(ms, CompanyName, d.lines[i].company)|
            && d.lines[i].neutral >= 0
            && d.lines[i].positive + d.lines[i].neutral + d.lines[i].negative == d.lines[i].mentions)
      && Total(Sizes(Groups(ms))) == d.found
  {
    var g := Groups(ms);
    GroupByFaithful(ms, CompanyName);
    GroupBySizes(ms, CompanyName);
    forall i | 0 <= i < |g|
      ensures Lines(g)[i].neutral >= 0
      ensures Lines(g)[i].positive + Lines(g)[i].neutral + Lines(g)[i].negative == Lines(g)[i].mentions
    {
      LineCounts(g[i].0, g[i].1);
    }
  }

  /** send_daily_summary. `byDate` is what `db.get_mentions_by_date(today)`
      gives: None when the call raises, which it does on the MentionDatabase
      of this repository, since that class has no such method; the exception
      is caught and False returned. No mentions return True without posting. */
  function SendDailySummary(byDate: Option<seq<AlertMention>>, post: DailyMessage -> bool): (ok: bool)
    ensures byDate.None? ==> !ok
    ensures byDate == Some([]) ==> ok
    ensures byDate.Some? && byDate.value != [] ==> ok == post(DailyMessageOf(byDate.value))
  {
    match byDate
    case None => false
    case Some(ms) => if ms == [] then true else post(DailyMessageOf(ms))
  }
}
