/** alerts.py: the AlertSystem of the main pipeline. The SMTP exchange and the
    Slack POST are parameters (`smtpOk`, `post`); the email bodies are not
    modelled, only whether a send is attempted and what it returns. */
module AlertSystem {
  import opened Wrappers
  import opened Text
  import opened Ordered
  import opened MentionStore
  import opened Feeds
  import opened Alerting

  /** Content longer than this is cut in the alert. */
  const ContentLimit: nat := 200
  /** The sentiment scores beyond ±0.3 are positive / negative. */
  const Threshold: real := 0.3

  /** format_mention_for_alert: at most 203 characters of content, the first
      200 followed by '...' when cut, and the emoji of the score. */
  function FormatMention(m: AlertMention): (f: Formatted)
    ensures |Content(m)| <= ContentLimit ==> f.content == Content(m)
    ensures |Content(m)| > ContentLimit ==> f.content == Content(m)[..ContentLimit] + "..."
    ensures |f.content| <= ContentLimit + 3
    ensures f.sentimentEmoji == SentimentEmoji(f.sentimentScore)
  {
    var f := Format(m, ContentLimit, Threshold);
    assert |Content(m)| > ContentLimit ==> f.content == f.content[..ContentLimit] + f.content[ContentLimit..];
    f
  }

  /** _get_sentiment_emoji */
  function SentimentEmoji(score: real): (e: string)
    ensures e == PositiveEmoji <==> score > Threshold
    ensures e == NegativeEmoji <==> score < -Threshold
    ensures e == NeutralEmoji <==> -Threshold <= score <= Threshold
  {
    Emoji(score, Threshold)
  }

  /** _get_sentiment_class */
  function SentimentClass(score: real): string {
    if score > 0.3 then "positive"
    else if score < -0.3 then "negative"
    else "neutral"
  }

  /** The emoji and the CSS class of a score always agree, and both scores
      ±0.3 themselves are neutral. */
  lemma EmojiMatchesClass(score: real)
    ensures SentimentEmoji(score) == PositiveEmoji <==> SentimentClass(score) == "positive"
    ensures SentimentEmoji(score) == NegativeEmoji <==> SentimentClass(score) == "negative"
    ensures SentimentEmoji(score) == NeutralEmoji <==> SentimentClass(score) == "neutral"
    ensures SentimentClass(0.3) == "neutral" && SentimentClass(-0.3) == "neutral"
  {
  }

  // ------------------------------------------------------------ configuration

  /** The alert settings of config.py that alerts.py reads. */
  datatype AlertConfig = AlertConfig(
    emailUsername: string, emailPassword: string, recipients: seq<string>, slackWebhook: string)

  /** ALERT_EMAIL_RECIPIENTS as config.py computes it: the variable split at
      every comma. */
  function RecipientsAsWritten(env: string): seq<string> {
    Split(env, ',')
  }

  /** With the variable unset the list is [''], which is truthy: the
      recipients test of send_alerts and send_email_alert never fails, and a
      configured username and password lead to an SMTP send to ''. */
  lemma UnsetRecipientsPassGuard(user: string, password: string)
    requires user != "" && password != ""
    ensures RecipientsAsWritten("") == [""]
    ensures EmailConfigured(AlertConfig(user, password, RecipientsAsWritten(""), ""))
    ensures forall env :: RecipientsAsWritten(env) != []
  {
  }

  /** The parts of a list that are not empty strings. */
  function NonEmpty(parts: seq<string>): (r: seq<string>)
    ensures forall x :: x in r <==> x in parts && x != ""
    ensures forall x :: multiset(r)[x] == if x == "" then 0 else multiset(parts)[x]
    ensures |r| <= |parts|
  {
    WhereCount(parts, IsAddress);
    Where(parts, IsAddress)
  }

  predicate IsAddress(part: string) {
    part != ""
  }

  /** Dropping the empty parts keeps the order of the others: it distributes
      over concatenation. */
  lemma NonEmptyAppend(a: seq<string>, b: seq<string>)
    ensures NonEmpty(a + b) == NonEmpty(a) + NonEmpty(b)
  {
    WhereAppend(a, b, IsAddress);
  }

  /** The recipients the settings evidently mean: the non-empty comma-separated
      addresses, each as often as it is listed; none when the variable is unset. */
  function Recipients(env: string): (r: seq<string>)
    ensures forall x :: x in r <==> x in Split(env, ',') && x != ""
    ensures forall x :: multiset(r)[x] == if x == "" then 0 else multiset(Split(env, ','))[x]
    ensures forall x :: x in r ==> ',' !in x
  {
    NonEmpty(Split(env, ','))
  }

  /** The settings, read from the environment with the corrected recipients. */
  function FromEnvironment(user: string, password: string, recipientsEnv: string, webhook: string): AlertConfig {
    AlertConfig(user, password, Recipients(recipientsEnv), webhook)
  }

  /** Without any address the recipient list is empty, so the email channel
      is skipped; any address keeps it. */
  lemma RecipientsEmptyIff(env: string)
    ensures Recipients(env) == [] <==> forall x :: x in Split(env, ',') ==> x == ""
  {
    if Recipients(env) == [] {
      forall x | x in Split(env, ',') ensures x == "" {
        assert x in Recipients(env) <==> x != "";
      }
    } else {
      var y := Recipients(env)[0];
      assert y in Recipients(env);
      assert y in Split(env, ',') && y != "";
    }
  }

  // ------------------------------------------------------------ senders

  /** `if EMAIL_USERNAME and ALERT_EMAIL_RECIPIENTS:` in send_alerts. */
  predicate EmailConfigured(cfg: AlertConfig) {
    cfg.emailUsername != "" && cfg.recipients != []
  }

  /** send_email_alert: False without username, password or recipients,
      otherwise whether the SMTP exchange went through. */
  function SendEmailAlert(cfg: AlertConfig, smtpOk: bool): (ok: bool)
    ensures cfg.emailUsername == "" || cfg.emailPassword == "" || cfg.recipients == [] ==> !ok
    ensures cfg.emailUsername != "" && cfg.emailPassword != "" && cfg.recipients != [] ==> ok == smtpOk
  {
    if cfg.emailUsername == "" || cfg.emailPassword == "" || cfg.recipients == [] then false
    else smtpOk
  }

  /** A mention section of the Slack message: title, content, source, score
      and a "Read More" button to the url. */
  function Section(f: Formatted): Block {
    MentionSection(f.title, f)
  }

  function Groups(ms: seq<AlertMention>): Groups<Formatted> {
    GroupBy(FormatAll(ms, ContentLimit, Threshold), FormattedCompany)
  }

  /** The Slack payload: a header with the mention count, the generated
      timestamp, then each company's blocks. */
  function SlackBlocks(ms: seq<AlertMention>): seq<Block> {
    [Header(Some(|ms|)), Timestamp] + GroupBlocks(Groups(ms), Section)
  }

  /** The size of the Slack payload is 2 plus each company's budget; it shows
      at most |ms| mentions, and all of them exactly when no company has more
      than three. */
  lemma SlackBlocksShape(ms: seq<AlertMention>)
    ensures |SlackBlocks(ms)| == 2 + Budget(Sizes(Groups(ms)))
    ensures SectionCount(SlackBlocks(ms)) == Shown(Sizes(Groups(ms))) <= |ms|
    ensures SectionCount(SlackBlocks(ms)) == |ms| <==>
      forall j :: 0 <= j < |Groups(ms)| ==> |Groups(ms)[j].1| <= ShownPerCompany
  {
    GroupBlocksCount(Groups(ms), Section);
    SectionCountAppend([Header(Some(|ms|)), Timestamp], GroupBlocks(Groups(ms), Section));
    SectionCountNone([Header(Some(|ms|)), Timestamp]);
    GroupBySizes(FormatAll(ms, ContentLimit, Threshold), FormattedCompany);
    ShownAtMostTotal(Sizes(Groups(ms)));
  }

  /** send_slack_alert: False without a webhook; otherwise the payload built
      from the grouped, formatted mentions is posted and the result is whether
      the post succeeded. */
  method SendSlackAlert(cfg: AlertConfig, ms: seq<AlertMention>, post: seq<Block> -> bool) returns (ok: bool)
    ensures ok == (cfg.slackWebhook != "" && post(SlackBlocks(ms)))
  {
    if cfg.slackWebhook == "" {
      return false;
    }
    var formatted := FormatAll(ms, ContentLimit, Threshold);
    var groups := GroupInOrder(formatted, FormattedCompany);
    var blocks := AppendCompanyBlocks([Header(Some(|ms|)), Timestamp], groups, Section);
    ok := post(blocks);
  }

  // ------------------------------------------------------------ send_alerts

  function Status(ok: bool): string {
    if ok then "sent" else "failed"
  }

  /** What send_slack_alert returns for these mentions. */
  function SlackSent(cfg: AlertConfig, ms: seq<AlertMention>, post: seq<Block> -> bool): bool {
    cfg.slackWebhook != "" && post(SlackBlocks(ms))
  }

  /** The results dict of send_alerts, given what each sender returned: empty
      for no mentions; otherwise an 'email' entry when username and recipients
      are set, then a 'slack' entry when the webhook is set. */
  function AlertResults(ms: seq<AlertMention>, cfg: AlertConfig, emailOk: bool, slackOk: bool): seq<(string, bool)> {
    if ms == [] then []
    else
      (if EmailConfigured(cfg) then [("email", emailOk)] else [])
      + (if cfg.slackWebhook != "" then [("slack", slackOk)] else [])
  }

  function EmailRows(ms: seq<AlertMention>, cfg: AlertConfig, emailOk: bool, nextId: nat): seq<AlertRow> {
    if ms != [] && EmailConfigured(cfg) then Records(Ids(ms), [("email", Status(emailOk))], nextId) else []
  }

  function SlackRows(ms: seq<AlertMention>, cfg: AlertConfig, slackOk: bool, nextId: nat): seq<AlertRow> {
    if ms != [] && cfg.slackWebhook != "" then Records(Ids(ms), [("slack", Status(slackOk))], nextId) else []
  }

  /** The alert rows send_alerts appends: the email rows, then the slack rows. */
  function AlertLog(ms: seq<AlertMention>, cfg: AlertConfig, emailOk: bool, slackOk: bool, nextId: nat): seq<AlertRow> {
    var email := EmailRows(ms, cfg, emailOk, nextId);
    email + SlackRows(ms, cfg, slackOk, nextId + |email|)
  }

  /** The email rows of send_alerts, given what send_email_alert returned:
      one per mention with an id when the channel is configured. */
  method RecordEmail(db: MentionDatabase, ms: seq<AlertMention>, cfg: AlertConfig, emailOk: bool)
    requires db.Valid()
    modifies db
    ensures db.Valid()
    ensures db.alerts == old(db.alerts) + EmailRows(ms, cfg, emailOk, old(db.nextAlertId))
    ensures db.nextAlertId == old(db.nextAlertId) + |EmailRows(ms, cfg, emailOk, old(db.nextAlertId))|
    ensures unchanged(db`mentions, db`nextMentionId, db`companies, db`nextCompanyId)
  {
    if ms != [] && EmailConfigured(cfg) {
      RecordAlerts(db, ms, [("email", if emailOk then "sent" else "failed")]);
      RecordsOneKindLength(Ids(ms), ("email", Status(emailOk)), old(db.nextAlertId));
    } else {
      assert db.alerts == old(db.alerts) + [];
    }
  }

  /** The slack rows of send_alerts, given what send_slack_alert returned. */
  method RecordSlack(db: MentionDatabase, ms: seq<AlertMention>, cfg: AlertConfig, slackOk: bool)
    requires db.Valid()
    modifies db
    ensures db.Valid()
    ensures db.alerts == old(db.alerts) + SlackRows(ms, cfg, slackOk, old(db.nextAlertId))
    ensures unchanged(db`mentions, db`nextMentionId, db`companies, db`nextCompanyId)
  {
    if ms != [] && cfg.slackWebhook != "" {
      RecordAlerts(db, ms, [("slack", if slackOk then "sent" else "failed")]);
    } else {
      assert db.alerts == old(db.alerts) + [];
    }
  }

  /** The recording part of send_alerts: the email rows, then the slack rows. */
  method RecordResults(db: MentionDatabase, ms: seq<AlertMention>, cfg: AlertConfig, emailOk: bool, slackOk: bool)
    requires db.Valid()
    modifies db
    ensures db.Valid()
    ensures db.alerts == old(db.alerts) + AlertLog(ms, cfg, emailOk, slackOk, old(db.nextAlertId))
    ensures unchanged(db`mentions, db`nextMentionId, db`companies, db`nextCompanyId)
  {
    ghost var a0, n0 := db.alerts, db.nextAlertId;
    ghost var email := EmailRows(ms, cfg, emailOk, n0);
    ghost var slack := SlackRows(ms, cfg, slackOk, n0 + |email|);
    RecordEmail(db, ms, cfg, emailOk);
    ghost var a1, n1 := db.alerts, db.nextAlertId;
    assert n1 == n0 + |email|;
    RecordSlack(db, ms, cfg, slackOk);
    assert db.alerts == a1 + SlackRows(ms, cfg, slackOk, n1);
    AppendAssoc(a0, email, slack);
    AlertLogSplit(ms, cfg, emailOk, slackOk, n0);
  }

  /** send_alerts: the senders are called as configured, and the rows appended
      record what they returned. */
  method SendAlerts(db: MentionDatabase, ms: seq<AlertMention>, cfg: AlertConfig, smtpOk: bool, post: seq<Block> -> bool)
    returns (results: seq<(string, bool)>)
    requires db.Valid()
    modifies db
    ensures db.Valid()
    ensures results == AlertResults(ms, cfg, SendEmailAlert(cfg, smtpOk), SlackSent(cfg, ms, post))
    ensures db.alerts == old(db.alerts) + AlertLog(ms, cfg, SendEmailAlert(cfg, smtpOk), SlackSent(cfg, ms, post), old(db.nextAlertId))
    ensures unchanged(db`mentions, db`nextMentionId, db`companies, db`nextCompanyId)
  {
    var emailOk := SendEmailAlert(cfg, smtpOk);
    var slackOk := SendSlackAlert(cfg, ms, post);
    results := AlertResults(ms, cfg, emailOk, slackOk);
    RecordResults(db, ms, cfg, emailOk, slackOk);
  }

  lemma AlertLogSplit(ms: seq<AlertMention>, cfg: AlertConfig, emailOk: bool, slackOk: bool, nextId: nat)
    ensures AlertLog(ms, cfg, emailOk, slackOk, nextId)
      == EmailRows(ms, cfg, emailOk, nextId) + SlackRows(ms, cfg, slackOk, nextId + |EmailRows(ms, cfg, emailOk, nextId)|)
  {
  }

  /** The recording rules: no rows for no mentions; otherwise one row per
      mention with an id for each channel tried, email first. */
  lemma AlertLogCount(ms: seq<AlertMention>, cfg: AlertConfig, emailOk: bool, slackOk: bool, nextId: nat)
    ensures ms == [] ==> AlertResults(ms, cfg, emailOk, slackOk) == [] && AlertLog(ms, cfg, emailOk, slackOk, nextId) == []
    ensures ms != [] ==>
      |AlertLog(ms, cfg, emailOk, slackOk, nextId)|
        == (if EmailConfigured(cfg) then |Ids(ms)| else 0) + (if cfg.slackWebhook != "" then |Ids(ms)| else 0)
  {
    if ms != [] {
      var email := EmailRows(ms, cfg, emailOk, nextId);
      EmailRowsLength(ms, cfg, emailOk, nextId);
      SlackRowsLength(ms, cfg, slackOk, nextId + |email|);
      assert AlertLog(ms, cfg, emailOk, slackOk, nextId) == email + SlackRows(ms, cfg, slackOk, nextId + |email|);
    }
  }

  lemma EmailRowsLength(ms: seq<AlertMention>, cfg: AlertConfig, emailOk: bool, nextId: nat)
    ensures |EmailRows(ms, cfg, emailOk, nextId)| == if ms != [] && EmailConfigured(cfg) then |Ids(ms)| else 0
  {
    RecordsOneKindLength(Ids(ms), ("email", Status(emailOk)), nextId);
  }

  lemma SlackRowsLength(ms: seq<AlertMention>, cfg: AlertConfig, slackOk: bool, nextId: nat)
    ensures |SlackRows(ms, cfg, slackOk, nextId)| == if ms != [] && cfg.slackWebhook != "" then |Ids(ms)| else 0
  {
    RecordsOneKindLength(Ids(ms), ("slack", Status(slackOk)), nextId);
  }

  /** Every row names a recorded mention and its channel, and says 'sent'
      exactly when that channel's send returned True. */
  lemma AlertLogStatus(ms: seq<AlertMention>, cfg: AlertConfig, emailOk: bool, slackOk: bool, nextId: nat)
    ensures forall x :: x in AlertLog(ms, cfg, emailOk, slackOk, nextId) ==>
      && x.mentionId in Ids(ms)
      && (x.alertType == "email" || x.alertType == "slack")
      && (x.alertType == "email" ==> EmailConfigured(cfg) && x.status == Status(emailOk))
      && (x.alertType == "slack" ==> cfg.slackWebhook != "" && x.status == Status(slackOk))
  {
    var email := EmailRows(ms, cfg, emailOk, nextId);
    var slack := SlackRows(ms, cfg, slackOk, nextId + |email|);
    RecordsOneKind(Ids(ms), ("email", Status(emailOk)), nextId);
    RecordsOneKind(Ids(ms), ("slack", Status(slackOk)), nextId + |email|);
    assert AlertLog(ms, cfg, emailOk, slackOk, nextId) == email + slack;
    forall x: AlertRow | x in email + slack
      ensures x.mentionId in Ids(ms) && (x.alertType == "email" || x.alertType == "slack")
      ensures x.alertType == "email" ==> EmailConfigured(cfg) && x.status == Status(emailOk)
      ensures x.alertType == "slack" ==> cfg.slackWebhook != "" && x.status == Status(slackOk)
    {
      if x in email {
        assert x.alertType == "email" && x.status == Status(emailOk);
      } else {
        assert x in slack;
        assert x.alertType == "slack" && x.status == Status(slackOk);
      }
    }
  }

  /** A username and recipients without a password still try the email
      channel: its entry is False and every email row says 'failed'. */
  lemma MissingPasswordRecordsFailures(ms: seq<AlertMention>, cfg: AlertConfig, smtpOk: bool, slackOk: bool, nextId: nat)
    requires ms != [] && EmailConfigured(cfg) && cfg.emailPassword == ""
    ensures ("email", false) in AlertResults(ms, cfg, SendEmailAlert(cfg, smtpOk), slackOk)
    ensures forall x :: x in AlertLog(ms, cfg, SendEmailAlert(cfg, smtpOk), slackOk, nextId) && x.alertType == "email" ==>
      x.status == "failed"
  {
    AlertLogStatus(ms, cfg, SendEmailAlert(cfg, smtpOk), slackOk, nextId);
    assert AlertResults(ms, cfg, SendEmailAlert(cfg, smtpOk), slackOk)[0] == ("email", false);
  }

  /** With the corrected recipients and the variable unset, send_alerts tries
      no email: no 'email' entry and no email rows. */
  lemma UnsetRecipientsSkipEmail(ms: seq<AlertMention>, user: string, password: string, webhook: string,
                                 emailOk: bool, slackOk: bool, nextId: nat)
    ensures forall r :: r in AlertResults(ms, FromEnvironment(user, password, "", webhook), emailOk, slackOk) ==> r.0 == "slack"
    ensures forall x :: x in AlertLog(ms, FromEnvironment(user, password, "", webhook), emailOk, slackOk, nextId) ==>
      x.alertType == "slack"
  {
    var cfg := FromEnvironment(user, password, "", webhook);
    assert Split("", ',') == [""];
    RecipientsEmptyIff("");
    assert !EmailConfigured(cfg);
    AlertLogStatus(ms, cfg, emailOk, slackOk, nextId);
  }

  /** create_daily_summary, without the sentiment averages. */
  method CreateDailySummary(db: MentionDatabase, now: int) returns (s: DailyCounts)
    ensures var recent := db.RecentMentions(24, now);
      && s.totalMentions == |recent|
      && s.mentionsByCompany == CountBy(recent, CompanyOf)
      && s.topSources == CountBy(recent, SourceOf)
    ensures Total(s.mentionsByCompany) == s.totalMentions
    ensures Total(s.topSources) == s.totalMentions
  {
    s := SummarizeRecent(db, now);
  }
}
