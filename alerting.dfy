/** What the three alert systems (alerts.py, alerts_minimal.py, alerts_slack.py)
    have in common: the mention dict they are handed, its formatted form, the
    sentiment emoji, the Slack block layout of one company, and the audit rows
    that `send_alerts` appends through add_alert_record. */
module Alerting {
  import opened Wrappers
  import opened Text
  import opened Ordered
  import opened MentionStore
  import opened Feeds

  /** A mention dict handed to the alert systems: a stored candidate plus the
      id add_mention returned. `content`, `published_date`, `sentiment_score`
      and `id` are read with `.get`; None here means the key is missing. */
  datatype AlertMention = AlertMention(
    companyName: string, title: string, content: Option<string>, url: string,
    source: string, publishedDate: Option<string>, sentiment: Option<real>, id: Option<int>)

  /** `mention.get('content', '')` */
  function Content(m: AlertMention): string {
    OrElse(m.content, "")
  }

  /** `mention.get('sentiment_score', 0)` */
  function Score(m: AlertMention): real {
    if m.sentiment.Some? then m.sentiment.value else 0.0
  }

  const PositiveEmoji: string := "\U{1F60A}"
  const NegativeEmoji: string := "\U{1F61F}"
  const NeutralEmoji: string := "\U{1F610}"

  /** `_get_sentiment_emoji` with the module's threshold: strictly above it is
      positive, strictly below its negation is negative, the band between
      (both ends included) is neutral. */
  function Emoji(score: real, threshold: real): (e: string)
    requires threshold >= 0.0
    ensures e == PositiveEmoji <==> score > threshold
    ensures e == NegativeEmoji <==> score < -threshold
    ensures e == NeutralEmoji <==> -threshold <= score <= threshold
  {
    if score > threshold then PositiveEmoji
    else if score < -threshold then NegativeEmoji
    else NeutralEmoji
  }

  /** The dict format_mention_for_alert returns. */
  datatype Formatted = Formatted(
    company: string, title: string, content: string, url: string, source: string,
    publishedDate: string, sentimentScore: real, sentimentEmoji: string)

  /** format_mention_for_alert with the module's content limit and emoji threshold. */
  function Format(m: AlertMention, limit: nat, threshold: real): (f: Formatted)
    requires threshold >= 0.0
    ensures f.company == m.companyName && f.title == m.title && f.url == m.url && f.source == m.source
    ensures |Content(m)| <= limit ==> f.content == Content(m)
    ensures |Content(m)| > limit ==>
      |f.content| == limit + 3 && StartsWith(f.content, Content(m)[..limit]) && f.content[limit..] == "..."
    ensures |f.content| <= limit + 3
    ensures f.sentimentScore == Score(m)
    ensures f.sentimentEmoji == Emoji(Score(m), threshold)
  {
    Formatted(m.companyName, m.title, Elide(Content(m), limit, limit), m.url, m.source,
      OrElse(m.publishedDate, ""), Score(m), Emoji(Score(m), threshold))
  }

  function FormatAll(ms: seq<AlertMention>, limit: nat, threshold: real): (fs: seq<Formatted>)
    requires threshold >= 0.0
    ensures |fs| == |ms|
    ensures forall i :: 0 <= i < |ms| ==> fs[i] == Format(ms[i], limit, threshold)
  {
    seq(|ms|, i requires 0 <= i < |ms| => Format(ms[i], limit, threshold))
  }

  /** The grouping key of the formatting loops: `mention['company_name']`. */
  function CompanyName(m: AlertMention): string { m.companyName }

  function FormattedCompany(f: Formatted): string { f.company }

  // ------------------------------------------------------------ Slack blocks

  /** The Slack blocks the senders build, with their text reduced to the data
      it shows. `title` of a mention section is the title as displayed. */
  datatype Block =
    | Header(announced: Option<nat>)
    | Summary(found: nat, companies: nat)
    | CompanyHeader(company: string, count: nat)
    | MentionSection(title: string, mention: Formatted)
    | More(rest: nat)
    | Divider
    | Timestamp

  /** Mentions shown per company in a Slack message. */
  const ShownPerCompany: nat := 3

  /** One company's blocks: its header, the sections shown, "... and n-3 more"
      when there are more than three, and a divider. */
  function CompanyBlocks(company: string, count: nat, sections: seq<Block>): seq<Block> {
    [CompanyHeader(company, count)] + sections
      + (if count > ShownPerCompany then [More(count - ShownPerCompany)] else []) + [Divider]
  }

  function Sections<T>(items: seq<T>, section: T -> Block): (r: seq<Block>)
    ensures |r| == |items|
    ensures forall i :: 0 <= i < |items| ==> r[i] == section(items[i])
  {
    seq(|items|, i requires 0 <= i < |items| => section(items[i]))
  }

  /** The blocks of every company, in the order of the grouping dict. */
  function GroupBlocks<T>(groups: Groups<T>, section: T -> Block): seq<Block> {
    if groups == [] then []
    else
      var last := groups[|groups| - 1];
      GroupBlocks(groups[..|groups| - 1], section)
        + CompanyBlocks(last.0, |last.1|, Sections(Take(last.1, ShownPerCompany), section))
  }

  /** `min(n, 3)` */
  function Capped(n: nat): nat {
    if n < ShownPerCompany then n else ShownPerCompany
  }

  /** Blocks one company with n mentions takes: header, min(n,3) sections,
      the "more" block when n > 3, divider. */
  function CompanyBudget(n: nat): nat {
    1 + Capped(n) + (if n > ShownPerCompany then 1 else 0) + 1
  }

  /** The sum of CompanyBudget over the group sizes. */
  function Budget(sizes: Counts): nat {
    if sizes == [] then 0 else Budget(sizes[..|sizes| - 1]) + CompanyBudget(sizes[|sizes| - 1].1)
  }

  /** The number of mentions shown: the sum of min(n, 3) over the group sizes. */
  function Shown(sizes: Counts): nat {
    if sizes == [] then 0 else Shown(sizes[..|sizes| - 1]) + Capped(sizes[|sizes| - 1].1)
  }

  function SectionCount(bs: seq<Block>): nat {
    if bs == [] then 0
    else SectionCount(bs[..|bs| - 1]) + (if bs[|bs| - 1].MentionSection? then 1 else 0)
  }

  lemma {:induction false} SectionCountAppend(a: seq<Block>, b: seq<Block>)
    ensures SectionCount(a + b) == SectionCount(a) + SectionCount(b)
  {
    if b != [] {
      assert (a + b)[..|a + b| - 1] == a + b[..|b| - 1];
      SectionCountAppend(a, b[..|b| - 1]);
    } else {
      assert a + b == a;
    }
  }

  lemma {:induction false} SectionCountNone(bs: seq<Block>)
    requires forall i :: 0 <= i < |bs| ==> !bs[i].MentionSection?
    ensures SectionCount(bs) == 0
  {
    if bs != [] {
      SectionCountNone(bs[..|bs| - 1]);
    }
  }

  lemma {:induction false} SectionCountAll<T>(items: seq<T>, section: T -> Block)
    requires forall i :: 0 <= i < |items| ==> section(items[i]).MentionSection?
    ensures SectionCount(Sections(items, section)) == |items|
  {
    if items != [] {
      var n := |items| - 1;
      assert Sections(items, section)[..n] == Sections(items[..n], section);
      SectionCountAll(items[..n], section);
    }
  }

  /** One company shows min(n, 3) mention sections, and carries the block
      "... and n-3 more" exactly when it has more than three mentions. */
  lemma CompanyBlocksCapped<T>(company: string, items: seq<T>, section: T -> Block)
    requires forall t :: section(t).MentionSection?
    ensures var bs := CompanyBlocks(company, |items|, Sections(Take(items, ShownPerCompany), section));
      && SectionCount(bs) == Capped(|items|) <= ShownPerCompany
      && |bs| == CompanyBudget(|items|)
      && ((exists b :: b in bs && b.More?) <==> |items| > ShownPerCompany)
      && (|items| > ShownPerCompany ==> More(|items| - ShownPerCompany) in bs)
  {
    var shown := Sections(Take(items, ShownPerCompany), section);
    var more: seq<Block> := if |items| > ShownPerCompany then [More(|items| - ShownPerCompany)] else [];
    var bs := CompanyBlocks(company, |items|, shown);
    assert bs == [CompanyHeader(company, |items|)] + shown + more + [Divider];
    SectionCountAll(Take(items, ShownPerCompany), section);
    SectionCountAppend([CompanyHeader(company, |items|)], shown);
    SectionCountAppend([CompanyHeader(company, |items|)] + shown, more);
    SectionCountAppend([CompanyHeader(company, |items|)] + shown + more, [Divider]);
    assert SectionCount([CompanyHeader(company, |items|)]) == 0;
    assert SectionCount([Divider]) == 0;
    assert SectionCount(more) == 0 by {
      if more != [] {
        assert more[..0] == [];
      }
    }
    if exists b :: b in bs && b.More? {
      var b :| b in bs && b.More?;
      assert forall s :: s in shown ==> s.MentionSection?;
    }
  }

  /** The per-company blocks of all companies: their count is the sum of the
      per-company budgets, and the sections shown add up to the sum of min(n, 3). */
  lemma {:induction false} GroupBlocksCount<T>(groups: Groups<T>, section: T -> Block)
    requires forall t :: section(t).MentionSection?
    ensures |GroupBlocks(groups, section)| == Budget(Sizes(groups))
    ensures SectionCount(GroupBlocks(groups, section)) == Shown(Sizes(groups))
  {
    if groups != [] {
      var n := |groups| - 1;
      var last := groups[n];
      assert Sizes(groups)[..n] == Sizes(groups[..n]);
      GroupBlocksCount(groups[..n], section);
      CompanyBlocksCapped(last.0, last.1, section);
      SectionCountAppend(GroupBlocks(groups[..n], section),
        CompanyBlocks(last.0, |last.1|, Sections(Take(last.1, ShownPerCompany), section)));
    }
  }

  /** No company shows more mentions than it has, and every mention is shown
      exactly when no company has more than three. */
  lemma {:induction false} ShownAtMostTotal(sizes: Counts)
    ensures Shown(sizes) <= Total(sizes)
    ensures Shown(sizes) == Total(sizes) <==> forall j :: 0 <= j < |sizes| ==> sizes[j].1 <= ShownPerCompany
  {
    if sizes != [] {
      var n := |sizes| - 1;
      ShownAtMostTotal(sizes[..n]);
      if Shown(sizes) == Total(sizes) {
        forall j | 0 <= j < |sizes| ensures sizes[j].1 <= ShownPerCompany {
          if j < n {
            assert sizes[..n][j] == sizes[j];
          }
        }
      }
      if forall j :: 0 <= j < |sizes| ==> sizes[j].1 <= ShownPerCompany {
        assert forall j :: 0 <= j < n ==> sizes[..n][j] == sizes[j];
      }
    }
  }

  /** The nested loops of the Slack senders: for each company append its
      header, its first three mention sections, the "more" block, a divider. */
  method AppendCompanyBlocks<T>(blocks: seq<Block>, groups: Groups<T>, section: T -> Block) returns (r: seq<Block>)
    ensures r == blocks + GroupBlocks(groups, section)
  {
    r := blocks;
    var j := 0;
    while j < |groups|
      invariant 0 <= j <= |groups|
      invariant r == blocks + GroupBlocks(groups[..j], section)
    {
      GroupBlocksStep(groups, j, section);
      r := AppendCompany(r, groups[j].0, groups[j].1, section);
      AppendAssoc(blocks, GroupBlocks(groups[..j], section),
        CompanyBlocks(groups[j].0, |groups[j].1|, Sections(Take(groups[j].1, ShownPerCompany), section)));
      j := j + 1;
    }
    assert groups[..j] == groups;
  }

  lemma GroupBlocksStep<T>(groups: Groups<T>, j: int, section: T -> Block)
    requires 0 <= j < |groups|
    ensures GroupBlocks(groups[..j + 1], section)
         == GroupBlocks(groups[..j], section) + CompanyBlocks(groups[j].0, |groups[j].1|, Sections(Take(groups[j].1, ShownPerCompany), section))
  {
    assert groups[..j + 1][..j] == groups[..j];
  }

  /** The body of the per-company loop: the header, up to three sections,
      the "more" line when some are not shown, and the divider. */
  method AppendCompany<T>(blocks: seq<Block>, company: string, items: seq<T>, section: T -> Block) returns (r: seq<Block>)
    ensures r == blocks + CompanyBlocks(company, |items|, Sections(Take(items, ShownPerCompany), section))
  {
    r := blocks + [CompanyHeader(company, |items|)];
    var shown := Take(items, ShownPerCompany);
    var k := 0;
    while k < |shown|
      invariant 0 <= k <= |shown|
      invariant r == blocks + [CompanyHeader(company, |items|)] + Sections(shown[..k], section)
    {
      assert Sections(shown[..k + 1], section) == Sections(shown[..k], section) + [section(shown[k])];
      r := r + [section(shown[k])];
      k := k + 1;
    }
    assert shown[..k] == shown;
    if |items| > ShownPerCompany {
      r := r + [More(|items| - ShownPerCompany)];
    }
    r := r + [Divider];
  }


  // ------------------------------------------------------------ alert audit rows

  /** `if mention.get('id'):` */
  predicate HasId(m: AlertMention) {
    m.id.Some? && m.id.value != 0
  }

  /** The ids of the mentions that get alert rows, in input order. */
  function Ids(ms: seq<AlertMention>): (ids: seq<int>)
    ensures |ids| <= |ms|
  {
    if ms == [] then []
    else Ids(ms[..|ms| - 1]) + (if HasId(ms[|ms| - 1]) then [ms[|ms| - 1].id.value] else [])
  }

  /** Exactly the non-zero ids present are recorded; with an id on every
      mention, one entry per mention. */
  lemma {:induction false} IdsMembers(ms: seq<AlertMention>)
    ensures forall x :: x in Ids(ms) <==> exists m :: m in ms && HasId(m) && m.id.value == x
    ensures (forall m :: m in ms ==> HasId(m)) ==> |Ids(ms)| == |ms|
  {
    if ms != [] {
      var n := |ms| - 1;
      IdsMembers(ms[..n]);
      assert ms == ms[..n] + [ms[n]];
      forall x | exists m :: m in ms && HasId(m) && m.id.value == x
        ensures x in Ids(ms)
      {
        var m :| m in ms && HasId(m) && m.id.value == x;
        if m != ms[n] {
          assert m in ms[..n];
        }
      }
      if forall m :: m in ms ==> HasId(m) {
        assert forall m :: m in ms[..n] ==> m in ms;
      }
    }
  }

  /** The rows of one mention: one add_alert_record per (alert_type, status)
      pair, the alert ids counting up from nextId. */
  function Rows(mentionId: int, kinds: seq<(string, string)>, nextId: nat): (r: seq<AlertRow>)
    ensures |r| == |kinds|
    ensures forall j :: 0 <= j < |kinds| ==> r[j] == AlertRow(nextId + j, mentionId, kinds[j].0, kinds[j].1, None, None)
  {
    seq(|kinds|, j requires 0 <= j < |kinds| => AlertRow(nextId + j, mentionId, kinds[j].0, kinds[j].1, None, None))
  }

  /** The rows of all recorded ids, in order. */
  function Records(ids: seq<int>, kinds: seq<(string, string)>, nextId: nat): seq<AlertRow> {
    if ids == [] then []
    else
      var prev := Records(ids[..|ids| - 1], kinds, nextId);
      prev + Rows(ids[|ids| - 1], kinds, nextId + |prev|)
  }

  /** Each recorded id gets one row per (alert_type, status) pair. */
  lemma {:induction false} RecordsLength(ids: seq<int>, kinds: seq<(string, string)>, nextId: nat)
    ensures |Records(ids, kinds, nextId)| == |ids| * |kinds|
  {
    if ids != [] {
      RecordsLength(ids[..|ids| - 1], kinds, nextId);
      assert (|ids| - 1) * |kinds| + |kinds| == |ids| * |kinds|;
    }
  }

  /** Every recorded row names a recorded id and one of
      the (alert_type, status) pairs, has no sent_at and no error, and the
      alert ids run consecutively from nextId. */
  lemma {:induction false} RecordsShape(ids: seq<int>, kinds: seq<(string, string)>, nextId: nat)
    ensures forall k :: 0 <= k < |Records(ids, kinds, nextId)| ==>
      var x := Records(ids, kinds, nextId)[k];
      && x.id == nextId + k
      && x.mentionId in ids
      && (x.alertType, x.status) in kinds
      && x.sentAt.None? && x.errorMessage.None?
  {
    if ids != [] {
      var n := |ids| - 1;
      RecordsShape(ids[..n], kinds, nextId);
      var prev := Records(ids[..n], kinds, nextId);
      var r := Records(ids, kinds, nextId);
      assert r == prev + Rows(ids[n], kinds, nextId + |prev|);
      forall k | 0 <= k < |r|
        ensures r[k].id == nextId + k && r[k].mentionId in ids && (r[k].alertType, r[k].status) in kinds
          && r[k].sentAt.None? && r[k].errorMessage.None?
      {
        if k < |prev| {
          assert r[k] == prev[k];
          assert prev[k].mentionId in ids[..n];
        } else {
          assert r[k] == Rows(ids[n], kinds, nextId + |prev|)[k - |prev|];
          assert kinds[k - |prev|] in kinds;
        }
      }
    }
  }

  /** With a single (alert_type, status) pair, the k-th row is that pair for
      the k-th recorded id. */
  lemma {:induction false} RecordsSingle(ids: seq<int>, kind: (string, string), nextId: nat)
    ensures |Records(ids, [kind], nextId)| == |ids|
    ensures forall k :: 0 <= k < |ids| ==>
      Records(ids, [kind], nextId)[k] == AlertRow(nextId + k, ids[k], kind.0, kind.1, None, None)
  {
    if ids != [] {
      var n := |ids| - 1;
      RecordsSingle(ids[..n], kind, nextId);
      var r := Records(ids, [kind], nextId);
      assert r == Records(ids[..n], [kind], nextId) + Rows(ids[n], [kind], nextId + n);
      forall k | 0 <= k < |ids| ensures r[k] == AlertRow(nextId + k, ids[k], kind.0, kind.1, None, None) {
        if k < n {
          assert ids[..n][k] == ids[k];
        }
      }
    }
  }

  lemma RecordsOneKindLength(ids: seq<int>, kind: (string, string), nextId: nat)
    ensures |Records(ids, [kind], nextId)| == |ids|
  {
    RecordsLength(ids, [kind], nextId);
  }

  /** With a single (alert_type, status) pair, every row carries that pair. */
  lemma RecordsOneKind(ids: seq<int>, kind: (string, string), nextId: nat)
    ensures forall x :: x in Records(ids, [kind], nextId) ==>
      x.mentionId in ids && x.alertType == kind.0 && x.status == kind.1
  {
    RecordsShape(ids, [kind], nextId);
    forall x | x in Records(ids, [kind], nextId)
      ensures x.mentionId in ids && x.alertType == kind.0 && x.status == kind.1
    {
      var k :| 0 <= k < |Records(ids, [kind], nextId)| && Records(ids, [kind], nextId)[k] == x;
    }
  }

  lemma RecordsSnoc(ids: seq<int>, x: int, kinds: seq<(string, string)>, nextId: nat)
    ensures Records(ids + [x], kinds, nextId)
         == Records(ids, kinds, nextId) + Rows(x, kinds, nextId + |Records(ids, kinds, nextId)|)
  {
    var ys := ids + [x];
    assert ys[..|ys| - 1] == ids;
    assert ys[|ys| - 1] == x;
    var prev := Records(ys[..|ys| - 1], kinds, nextId);
    assert Records(ys, kinds, nextId) == prev + Rows(ys[|ys| - 1], kinds, nextId + |prev|);
  }

  lemma IdsStep(ms: seq<AlertMention>, i: int)
    requires 0 <= i < |ms|
    ensures Ids(ms[..i + 1]) == Ids(ms[..i]) + (if HasId(ms[i]) then [ms[i].id.value] else [])
  {
    assert ms[..i + 1][..i] == ms[..i];
  }

  /** The rows of one mention: one add_alert_record per (alert_type, status) pair. */
  method RecordMention(db: MentionDatabase, mentionId: int, kinds: seq<(string, string)>)
    requires db.Valid()
    modifies db
    ensures db.Valid()
    ensures db.alerts == old(db.alerts) + Rows(mentionId, kinds, old(db.nextAlertId))
    ensures db.nextAlertId == old(db.nextAlertId) + |kinds|
    ensures unchanged(db`mentions, db`nextMentionId, db`companies, db`nextCompanyId)
  {
    var j := 0;
    while j < |kinds|
      invariant 0 <= j <= |kinds|
      invariant db.Valid()
      invariant db.alerts == old(db.alerts) + Rows(mentionId, kinds[..j], old(db.nextAlertId))
      invariant db.nextAlertId == old(db.nextAlertId) + j
      invariant unchanged(db`mentions, db`nextMentionId, db`companies, db`nextCompanyId)
    {
      assert Rows(mentionId, kinds[..j + 1], old(db.nextAlertId))
          == Rows(mentionId, kinds[..j], old(db.nextAlertId)) + [AlertRow(db.nextAlertId, mentionId, kinds[j].0, kinds[j].1, None, None)];
      db.AddAlertRecord(mentionId, kinds[j].0, kinds[j].1);
      j := j + 1;
    }
    assert kinds[..j] == kinds;
  }

  /** The rows one mention gets: none without an id. */
  function MentionRows(m: AlertMention, kinds: seq<(string, string)>, nextId: nat): seq<AlertRow> {
    if HasId(m) then Rows(m.id.value, kinds, nextId) else []
  }

  lemma RecordsStep(ms: seq<AlertMention>, i: int, kinds: seq<(string, string)>, nextId: nat)
    requires 0 <= i < |ms|
    ensures Records(Ids(ms[..i + 1]), kinds, nextId)
         == Records(Ids(ms[..i]), kinds, nextId) + MentionRows(ms[i], kinds, nextId + |Records(Ids(ms[..i]), kinds, nextId)|)
  {
    IdsStep(ms, i);
    if HasId(ms[i]) {
      RecordsSnoc(Ids(ms[..i]), ms[i].id.value, kinds, nextId);
    } else {
      var ids := Ids(ms[..i]);
      assert ids + [] == ids;
      var prev := Records(ids, kinds, nextId);
      assert MentionRows(ms[i], kinds, nextId + |prev|) == [];
      assert prev + [] == prev;
    }
  }

  /** The body of the recording loop for one mention. */
  method RecordIfStored(db: MentionDatabase, m: AlertMention, kinds: seq<(string, string)>)
    requires db.Valid()
    modifies db
    ensures db.Valid()
    ensures db.alerts == old(db.alerts) + MentionRows(m, kinds, old(db.nextAlertId))
    ensures db.nextAlertId == old(db.nextAlertId) + |MentionRows(m, kinds, old(db.nextAlertId))|
    ensures unchanged(db`mentions, db`nextMentionId, db`companies, db`nextCompanyId)
  {
    if m.id.Some? && m.id.value != 0 {
      RecordMention(db, m.id.value, kinds);
    } else {
      assert db.alerts == old(db.alerts) + [];
    }
  }

  /** The recording loop: for each mention with an id, one add_alert_record
      per (alert_type, status) pair. */
  method RecordAlerts(db: MentionDatabase, ms: seq<AlertMention>, kinds: seq<(string, string)>)
    requires db.Valid()
    modifies db
    ensures db.Valid()
    ensures db.alerts == old(db.alerts) + Records(Ids(ms), kinds, old(db.nextAlertId))
    ensures db.nextAlertId == old(db.nextAlertId) + |Ids(ms)| * |kinds|
    ensures unchanged(db`mentions, db`nextMentionId, db`companies, db`nextCompanyId)
  {
    ghost var start := db.nextAlertId;
    ghost var base := db.alerts;
    var i := 0;
    while i < |ms|
      invariant 0 <= i <= |ms|
      invariant db.Valid()
      invariant db.alerts == base + Records(Ids(ms[..i]), kinds, start)
      invariant db.nextAlertId == start + |Records(Ids(ms[..i]), kinds, start)|
      invariant unchanged(db`mentions, db`nextMentionId, db`companies, db`nextCompanyId)
    {
      ghost var prev := Records(Ids(ms[..i]), kinds, start);
      ghost var here := MentionRows(ms[i], kinds, start + |prev|);
      RecordsStep(ms, i, kinds, start);
      assert Records(Ids(ms[..i + 1]), kinds, start) == prev + here;
      ghost var alerts0 := db.alerts;
      RecordIfStored(db, ms[i], kinds);
      assert db.alerts == alerts0 + here;
      AppendAssoc(base, prev, here);
      i := i + 1;
    }
    assert ms[..i] == ms;
    RecordsLength(Ids(ms), kinds, start);
  }

  // ------------------------------------------------------------ daily summary

  /** The counts of create_daily_summary: mentions of the last 24 hours, per
      company and per source, in first-appearance order. */
  datatype DailyCounts = DailyCounts(totalMentions: nat, mentionsByCompany: Counts, topSources: Counts)

  /** The counting loop of create_daily_summary over get_recent_mentions(24). */
  method SummarizeRecent(db: MentionDatabase, now: int) returns (s: DailyCounts)
    ensures var recent := db.RecentMentions(24, now);
      && s.totalMentions == |recent|
      && s.mentionsByCompany == CountBy(recent, CompanyOf)
      && s.topSources == CountBy(recent, SourceOf)
    ensures Total(s.mentionsByCompany) == s.totalMentions
    ensures Total(s.topSources) == s.totalMentions
  {
    var recent := db.RecentMentions(24, now);
    var byCompany: Counts := [];
    var bySource: Counts := [];
    var i := 0;
    while i < |recent|
      invariant 0 <= i <= |recent|
      invariant byCompany == CountBy(recent[..i], CompanyOf)
      invariant bySource == CountBy(recent[..i], SourceOf)
    {
      CountByStep(recent, i, CompanyOf);
      CountByStep(recent, i, SourceOf);
      byCompany := Bump(byCompany, recent[i].companyName);
      bySource := Bump(bySource, recent[i].source);
      i := i + 1;
    }
    assert recent[..i] == recent;
    CountByTotal(recent, CompanyOf);
    CountByTotal(recent, SourceOf);
    s := DailyCounts(|recent|, byCompany, bySource);
  }
}
