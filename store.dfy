/** The SQLite mention store of database.py. Each table is a sequence of rows in
    rowid order plus the AUTOINCREMENT counter; the two UNIQUE columns of the
    mentions table (hash and url) are part of the store's invariant. */
module MentionStore {
  import opened Wrappers
  import opened Text
  import opened Ordered

  /** One key of a Python dict: missing, present with None, or present with a value. */
  datatype Field<T> = Absent | Null | Value(v: T)

  /** `d.get(key, default)`, with None stored as NULL. */
  function GetOr<T>(f: Field<T>, default: T): Option<T> {
    match f
    case Absent => Some(default)
    case Null => None
    case Value(v) => Some(v)
  }

  /** `d.get(key)` */
  function Get<T>(f: Field<T>): Option<T> {
    match f
    case Value(v) => Some(v)
    case _ => None
  }

  /** The mention dict handed to add_mention. The four keys read with `[...]`
      are required; the others are read with `.get`. */
  datatype MentionData = MentionData(
    companyName: string, title: string, content: Field<string>, url: string,
    source: string, publishedDate: Field<string>, sentiment: Field<real>)

  /** A row of the mentions table; created_at is the insertion clock, in seconds. */
  datatype Row = Row(
    id: nat, companyName: string, title: string, content: Option<string>, url: string,
    source: string, publishedDate: Option<string>, sentiment: Option<real>,
    hash: string, createdAt: int)

  /** A row of the alerts table. */
  datatype AlertRow = AlertRow(
    id: nat, mentionId: int, alertType: string, status: string,
    sentAt: Option<int>, errorMessage: Option<string>)

  /** A row of the portfolio_companies table (keywords joined with ','). */
  datatype CompanyRow = CompanyRow(
    id: nat, name: string, fund: string, website: Option<string>,
    description: Option<string>, keywords: string)

  /** A company dict handed to populate_portfolio_companies. */
  datatype CompanyConfig = CompanyConfig(
    name: Field<string>, fund: Field<string>, website: Field<string>,
    description: Field<string>, keywords: Field<seq<string>>)

  const SecondsPerHour := 3600

  // ------------------------------------------------------------ fingerprint

  /** The string generate_hash feeds to MD5. */
  function Joined(title: string, url: string, company: string): string {
    title + "|" + url + "|" + company
  }

  /** generate_hash: MD5 (an opaque function) of the joined string. */
  function Fingerprint(md5: string -> string, title: string, url: string, company: string): string {
    md5(Joined(title, url, company))
  }

  /** The fingerprint cannot tell where a '|' belongs: moving one from the end of
      the title to the front of the url gives a different triple with the same
      fingerprint. */
  lemma SeparatorShiftCollides(md5: string -> string, title: string, url: string, company: string)
    ensures title + "|" != title && "|" + url != url
    ensures Fingerprint(md5, title + "|", url, company) == Fingerprint(md5, title, "|" + url, company)
  {
    assert |title + "|"| == |title| + 1;
    assert Joined(title + "|", url, company) == Joined(title, "|" + url, company);
  }

  // ------------------------------------------------------------ mentions table

  /** Rowid order, and both UNIQUE columns differ. */
  predicate Before(a: Row, b: Row) {
    a.id < b.id && a.hash != b.hash && a.url != b.url
  }

  predicate RowsValid(md5: string -> string, rows: seq<Row>, nextId: nat) {
    && nextId >= 1
    && (forall i, j :: 0 <= i < j < |rows| ==> Before(rows[i], rows[j]))
    && (forall i :: 0 <= i < |rows| ==> 1 <= rows[i].id < nextId)
    && (forall i :: 0 <= i < |rows| ==>
          rows[i].hash == Fingerprint(md5, rows[i].title, rows[i].url, rows[i].companyName))
  }

  /** `SELECT 1 FROM mentions WHERE hash = ?` */
  predicate HashTaken(rows: seq<Row>, h: string) {
    exists i :: 0 <= i < |rows| && rows[i].hash == h
  }

  /** The url UNIQUE constraint would refuse this url. */
  predicate UrlTaken(rows: seq<Row>, u: string) {
    exists i :: 0 <= i < |rows| && rows[i].url == u
  }

  /** The row the INSERT of add_mention writes: a missing content or published
      date becomes '', a missing sentiment NULL. */
  function StoredRow(id: nat, m: MentionData, h: string, now: int): Row {
    Row(id, m.companyName, m.title, GetOr(m.content, ""), m.url, m.source,
        GetOr(m.publishedDate, ""), Get(m.sentiment), h, now)
  }

  datatype Table = Table(rows: seq<Row>, nextId: nat)

  /** add_mention on a table value: (new table, returned id). */
  function Insert(md5: string -> string, t: Table, m: MentionData, now: int): (res: (Table, Option<nat>))
    ensures res.1.None? <==>
              HashTaken(t.rows, Fingerprint(md5, m.title, m.url, m.companyName)) || UrlTaken(t.rows, m.url)
    ensures res.1.None? ==> res.0 == t
    ensures res.1.Some? ==>
              && res.1.value == t.nextId
              && res.0.nextId == t.nextId + 1
              && res.0.rows == t.rows + [StoredRow(t.nextId, m, Fingerprint(md5, m.title, m.url, m.companyName), now)]
  {
    var h := Fingerprint(md5, m.title, m.url, m.companyName);
    if HashTaken(t.rows, h) then (t, None)
    else if UrlTaken(t.rows, m.url) then (t, None)
    else (Table(t.rows + [StoredRow(t.nextId, m, h, now)], t.nextId + 1), Some(t.nextId))
  }

  /** A successful insert keeps every table invariant: fresh id above all others,
      no second row with the same hash or url. */
  lemma InsertKeepsValid(md5: string -> string, t: Table, m: MentionData, now: int)
    requires RowsValid(md5, t.rows, t.nextId)
    ensures RowsValid(md5, Insert(md5, t, m, now).0.rows, Insert(md5, t, m, now).0.nextId)
  {
    var (t', id) := Insert(md5, t, m, now);
    if id.Some? {
      var x := t'.rows[|t.rows|];
      forall i | 0 <= i < |t.rows| ensures Before(t.rows[i], x) {
        assert t.rows[i].hash != x.hash;
        assert t.rows[i].url != x.url;
      }
    }
  }

  /** After any add_mention attempt the triple is blocked: its fingerprint or its
      url is in the table. */
  lemma InsertBlocks(md5: string -> string, t: Table, m: MentionData, now: int)
    ensures var t' := Insert(md5, t, m, now).0;
      HashTaken(t'.rows, Fingerprint(md5, m.title, m.url, m.companyName)) || UrlTaken(t'.rows, m.url)
  {
    var t' := Insert(md5, t, m, now).0;
    if Insert(md5, t, m, now).1.Some? {
      assert t'.rows[|t.rows|].url == m.url;
    }
  }

  /** Inserting the same (title, url, company) twice: the second call returns
      None and leaves the table as the first call left it. */
  lemma InsertTwice(md5: string -> string, t: Table, m: MentionData, now1: int, now2: int)
    ensures var t1 := Insert(md5, t, m, now1).0;
      Insert(md5, t1, m, now2) == (t1, None)
  {
    InsertBlocks(md5, t, m, now1);
  }

  /** Two triples whose joined strings coincide: once the first is stored, the
      second is refused although its title differs and its url is new. */
  lemma CollidingTripleRefused(md5: string -> string, t: Table, m: MentionData, now1: int, now2: int)
    requires Insert(md5, t, m.(title := m.title + "|"), now1).1.Some?
    ensures var t1 := Insert(md5, t, m.(title := m.title + "|"), now1).0;
      && m.(title := m.title + "|") != m.(url := "|" + m.url)
      && Insert(md5, t1, m.(url := "|" + m.url), now2) == (t1, None)
  {
    var first := m.(title := m.title + "|");
    var second := m.(url := "|" + m.url);
    SeparatorShiftCollides(md5, m.title, m.url, m.companyName);
    var t1 := Insert(md5, t, first, now1).0;
    assert t1.rows[|t.rows|].hash == Fingerprint(md5, second.title, second.url, second.companyName);
  }

  // ------------------------------------------------------------ queries

  predicate NewestFirst(rows: seq<Row>) {
    forall i, j :: 0 <= i < j < |rows| ==> rows[i].createdAt >= rows[j].createdAt
  }

  function InsertNewestFirst(x: Row, s: seq<Row>): (r: seq<Row>)
    requires NewestFirst(s)
    ensures NewestFirst(r)
    ensures multiset(r) == multiset(s) + multiset{x}
    ensures |r| == |s| + 1 && (r[0] == x || (s != [] && r[0] == s[0]))
  {
    if s == [] then [x]
    else if x.createdAt >= s[0].createdAt then PrependNewer(x, s); [x] + s
    else
      TailNewestFirst(s);
      var rest := InsertNewestFirst(x, s[1..]);
      PrependNewest(x, s, rest);
      [s[0]] + rest
  }

  /** A row no older than the head of a sorted list can go in front of it. */
  lemma PrependNewer(x: Row, s: seq<Row>)
    requires NewestFirst(s) && s != [] && x.createdAt >= s[0].createdAt
    ensures NewestFirst([x] + s)
  {
    var r := [x] + s;
    forall i, j | 0 <= i < j < |r| ensures r[i].createdAt >= r[j].createdAt {
      if i == 0 {
        assert r[j].createdAt <= s[0].createdAt;
      }
    }
  }

  lemma TailNewestFirst(s: seq<Row>)
    requires NewestFirst(s) && s != []
    ensures NewestFirst(s[1..])
  {
  }

  /** The head of a sorted list stays first when a later row is inserted into its tail. */
  lemma PrependNewest(x: Row, s: seq<Row>, rest: seq<Row>)
    requires NewestFirst(s) && s != [] && x.createdAt < s[0].createdAt
    requires NewestFirst(rest) && multiset(rest) == multiset(s[1..]) + multiset{x}
    ensures NewestFirst([s[0]] + rest)
    ensures multiset([s[0]] + rest) == multiset(s) + multiset{x}
  {
    HeadIsNewest(x, s, rest);
    var r := [s[0]] + rest;
    forall i, j | 0 <= i < j < |r| ensures r[i].createdAt >= r[j].createdAt {
      assert r[j] in rest;
    }
    assert s == [s[0]] + s[1..];
  }

  lemma HeadIsNewest(x: Row, s: seq<Row>, rest: seq<Row>)
    requires NewestFirst(s) && s != [] && x.createdAt < s[0].createdAt
    requires multiset(rest) == multiset(s[1..]) + multiset{x}
    ensures forall y :: y in rest ==> y.createdAt <= s[0].createdAt
  {
    forall y | y in rest ensures y.createdAt <= s[0].createdAt {
      assert y in multiset(rest);
      if y != x {
        assert y in multiset(s[1..]);
        var k :| 1 <= k < |s| && s[k] == y;
      }
    }
  }

  /** `ORDER BY created_at DESC` (the order among equal timestamps is the one
      this insertion sort picks; SQL leaves it open). */
  function SortNewestFirst(s: seq<Row>): (r: seq<Row>)
    ensures NewestFirst(r)
    ensures multiset(r) == multiset(s)
    ensures |r| == |s|
  {
    if s == [] then []
    else
      assert s == [s[0]] + s[1..];
      InsertNewestFirst(s[0], SortNewestFirst(s[1..]))
  }

  /** `WHERE company_name = ?` */
  function OfCompany(rows: seq<Row>, company: string): (r: seq<Row>)
    ensures forall x :: x in r <==> x in rows && x.companyName == company
    ensures multiset(r) <= multiset(rows)
  {
    if rows == [] then []
    else
      var init := rows[..|rows| - 1];
      var last := rows[|rows| - 1];
      assert rows == init + [last];
      OfCompany(init, company) + (if last.companyName == company then [last] else [])
  }

  /** `WHERE created_at >= since` */
  function CreatedSince(rows: seq<Row>, since: int): (r: seq<Row>)
    ensures forall x :: x in r <==> x in rows && x.createdAt >= since
    ensures multiset(r) <= multiset(rows)
  {
    if rows == [] then []
    else
      var init := rows[..|rows| - 1];
      var last := rows[|rows| - 1];
      assert rows == init + [last];
      CreatedSince(init, since) + (if last.createdAt >= since then [last] else [])
  }

  /** SQLite `LIMIT n`: a negative limit means no limit. */
  function Limit(s: seq<Row>, n: int): (r: seq<Row>)
    ensures |r| == if n < 0 || n >= |s| then |s| else n
    ensures r <= s
  {
    if n < 0 || n >= |s| then s else s[..n]
  }

  /** Sorting keeps exactly the rows it was given. */
  lemma SortedMembers(s: seq<Row>)
    ensures forall x :: x in SortNewestFirst(s) <==> x in s
  {
    var sorted := SortNewestFirst(s);
    assert forall x :: x in sorted <==> x in multiset(sorted);
    assert forall x :: x in s <==> x in multiset(s);
  }

  /** A limit keeps a prefix: its rows are among the given ones, still newest
      first, and no row it drops is newer than a row it keeps. */
  lemma LimitSorted(s: seq<Row>, n: int)
    requires NewestFirst(s)
    ensures NewestFirst(Limit(s, n))
    ensures forall x :: x in Limit(s, n) ==> x in s
    ensures forall x, y :: x in s && x !in Limit(s, n) && y in Limit(s, n) ==> x.createdAt <= y.createdAt
  {
    var r := Limit(s, n);
    forall x | x in r ensures x in s {
      var i :| 0 <= i < |r| && r[i] == x;
      assert s[i] == x;
    }
    forall i, j | 0 <= i < j < |r| ensures r[i].createdAt >= r[j].createdAt {
      assert r[i] == s[i] && r[j] == s[j];
    }
    assert forall i :: 0 <= i < |r| ==> s[i] in r;
    forall x, y | x in s && x !in r && y in r ensures x.createdAt <= y.createdAt {
      var k :| 0 <= k < |s| && s[k] == x;
      var j :| 0 <= j < |r| && r[j] == y;
      assert s[j] == y;
    }
  }

  datatype Stats = Stats(
    totalMentions: nat, recentMentions24h: nat, mentionsByCompany: Counts, mentionsBySource: Counts)

  // ------------------------------------------------------------ false-positive purge

  const FinchFalsePositives: seq<string> := [
    "beth finch", "chris finch", "tess finch", "spencer finch",
    "christine finch", "evelyn finch", "elisabeth finch",
    "obituary", "mayor", "timberwolves", "nba", "basketball",
    "real estate agent", "grey's anatomy", "coach", "player"]

  const CerebraFalsePositives: seq<string> := [
    "cerebral palsy", "cerebral", "brain injury", "palsy",
    "patient", "medical", "hospital", "therapy", "disability",
    "neurological", "treatment"]

  /** `LOWER(title) LIKE '%p%' OR LOWER(content) LIKE '%p%'`; a NULL content never matches.
      None of the patterns holds a LIKE wildcard, so LIKE is substring search. */
  predicate MatchesPattern(r: Row, p: string) {
    Contains(LowerStr(r.title), p) || (r.content.Some? && Contains(LowerStr(r.content.value), p))
  }

  predicate MatchesAnyPattern(r: Row, ps: seq<string>) {
    exists p :: p in ps && MatchesPattern(r, p)
  }

  /** A row one of the DELETE statements for this company removes. */
  predicate Purged(r: Row, company: string, ps: seq<string>) {
    r.companyName == company && MatchesAnyPattern(r, ps)
  }

  /** The rows that survive one DELETE per pattern of ps for the given company. */
  function Survivors(rows: seq<Row>, company: string, ps: seq<string>): (r: seq<Row>)
    ensures |r| <= |rows|
  {
    if rows == [] then []
    else
      var init := rows[..|rows| - 1];
      var last := rows[|rows| - 1];
      Survivors(init, company, ps) + (if Purged(last, company, ps) then [] else [last])
  }

  /** The survivors are exactly the rows no pattern matched, in table order. */
  lemma {:induction false} SurvivorsMembers(rows: seq<Row>, company: string, ps: seq<string>)
    ensures forall x :: x in Survivors(rows, company, ps) <==> x in rows && !Purged(x, company, ps)
  {
    if rows != [] {
      var init := rows[..|rows| - 1];
      var last := rows[|rows| - 1];
      SurvivorsMembers(init, company, ps);
      assert rows == init + [last];
    }
  }

  lemma PurgedStep(r: Row, company: string, ps: seq<string>, p: string)
    ensures Purged(r, company, ps + [p]) <==> Purged(r, company, ps) || Purged(r, company, [p])
  {
    assert forall q :: q in ps + [p] <==> q in ps || q in [p];
  }

  /** One step of the row loop of a DELETE. */
  lemma SurvivorsPrefix(rows: seq<Row>, company: string, ps: seq<string>, i: int)
    requires 0 <= i < |rows|
    ensures Survivors(rows[..i + 1], company, ps)
         == Survivors(rows[..i], company, ps) + (if Purged(rows[i], company, ps) then [] else [rows[i]])
  {
    assert rows[..i + 1][..i] == rows[..i];
  }

  /** One step of the pattern loop: the next DELETE on what the earlier ones left. */
  lemma SurvivorsPatternStep(rows: seq<Row>, company: string, ps: seq<string>, i: int)
    requires 0 <= i < |ps|
    ensures Survivors(Survivors(rows, company, ps[..i]), company, [ps[i]]) == Survivors(rows, company, ps[..i + 1])
  {
    SurvivorsStep(rows, company, ps[..i], ps[i]);
    assert ps[..i + 1] == ps[..i] + [ps[i]];
  }

  lemma {:induction false} SurvivorsStep(rows: seq<Row>, company: string, ps: seq<string>, p: string)
    ensures Survivors(Survivors(rows, company, ps), company, [p]) == Survivors(rows, company, ps + [p])
  {
    if rows != [] {
      var init := rows[..|rows| - 1];
      var last := rows[|rows| - 1];
      var s := Survivors(init, company, ps);
      SurvivorsStep(init, company, ps, p);
      PurgedStep(last, company, ps, p);
      assert Survivors(rows, company, ps + [p])
          == Survivors(init, company, ps + [p]) + (if Purged(last, company, ps + [p]) then [] else [last]);
      if Purged(last, company, ps) {
        assert Survivors(rows, company, ps) == s + [];
        assert s + [] == s;
      } else {
        var s' := s + [last];
        assert Survivors(rows, company, ps) == s';
        assert s'[..|s'| - 1] == s && s'[|s'| - 1] == last;
        assert Survivors(s', company, [p]) == Survivors(s, company, [p]) + (if Purged(last, company, [p]) then [] else [last]);
      }
    }
  }

  /** A purge with the same patterns removes nothing the second time. */
  lemma {:induction false} SurvivorsIdempotent(rows: seq<Row>, company: string, ps: seq<string>)
    ensures Survivors(Survivors(rows, company, ps), company, ps) == Survivors(rows, company, ps)
  {
    if rows != [] {
      var init := rows[..|rows| - 1];
      var last := rows[|rows| - 1];
      SurvivorsIdempotent(init, company, ps);
      assert Survivors(rows, company, ps) == Survivors(init, company, ps) + (if Purged(last, company, ps) then [] else [last]);
      if Purged(last, company, ps) {
        assert Survivors(rows, company, ps) == Survivors(init, company, ps);
      } else {
        var s' := Survivors(init, company, ps) + [last];
        assert s'[..|s'| - 1] == Survivors(init, company, ps) && s'[|s'| - 1] == last;
        assert Survivors(s', company, ps) == Survivors(Survivors(init, company, ps), company, ps) + [last];
      }
    }
  }

  /** A purge that finds no matching row changes nothing. */
  lemma {:induction false} SurvivorsUnmatched(rows: seq<Row>, company: string, ps: seq<string>)
    requires forall x :: x in rows ==> !Purged(x, company, ps)
    ensures Survivors(rows, company, ps) == rows
  {
    if rows != [] {
      var init := rows[..|rows| - 1];
      assert rows == init + [rows[|rows| - 1]];
      assert forall x :: x in init ==> x in rows;
      SurvivorsUnmatched(init, company, ps);
    }
  }

  /** Two purges for two companies leave exactly the rows neither matched. */
  lemma TwoPurgesMembers(rows: seq<Row>, c1: string, ps1: seq<string>, c2: string, ps2: seq<string>)
    ensures forall x :: x in Survivors(Survivors(rows, c1, ps1), c2, ps2) <==>
              x in rows && !Purged(x, c1, ps1) && !Purged(x, c2, ps2)
  {
    SurvivorsMembers(rows, c1, ps1);
    SurvivorsMembers(Survivors(rows, c1, ps1), c2, ps2);
  }

  /** Dropping rows keeps the table invariant. */
  lemma {:induction false} SurvivorsKeepValid(md5: string -> string, rows: seq<Row>, nextId: nat, company: string, ps: seq<string>)
    requires RowsValid(md5, rows, nextId)
    ensures RowsValid(md5, Survivors(rows, company, ps), nextId)
  {
    if rows != [] {
      var init := rows[..|rows| - 1];
      var last := rows[|rows| - 1];
      RowsPrefixValid(md5, rows, nextId);
      SurvivorsKeepValid(md5, init, nextId, company, ps);
      if !Purged(last, company, ps) {
        SurvivorsMembers(init, company, ps);
        var s := Survivors(init, company, ps);
        forall y | y in s ensures Before(y, last) {
          var i :| 0 <= i < |init| && init[i] == y;
          assert Before(rows[i], rows[|rows| - 1]);
        }
        AppendRowValid(md5, s, last, nextId);
      }
    }
  }

  /** Dropping the last row keeps the table invariant. */
  lemma RowsPrefixValid(md5: string -> string, rows: seq<Row>, nextId: nat)
    requires RowsValid(md5, rows, nextId) && rows != []
    ensures RowsValid(md5, rows[..|rows| - 1], nextId)
  {
  }

  /** A row after every row of a valid table, with a fresh id and its own
      fingerprint, extends the table validly. */
  lemma AppendRowValid(md5: string -> string, s: seq<Row>, x: Row, nextId: nat)
    requires RowsValid(md5, s, nextId)
    requires forall y :: y in s ==> Before(y, x)
    requires 1 <= x.id < nextId && x.hash == Fingerprint(md5, x.title, x.url, x.companyName)
    ensures RowsValid(md5, s + [x], nextId)
  {
    assert forall i :: 0 <= i < |s| ==> s[i] in s;
  }

  // ------------------------------------------------------------ alerts table

  predicate AlertsValid(alerts: seq<AlertRow>, nextId: nat) {
    && nextId >= 1
    && (forall i, j :: 0 <= i < j < |alerts| ==> alerts[i].id < alerts[j].id)
    && (forall i :: 0 <= i < |alerts| ==> 1 <= alerts[i].id < nextId)
  }

  /** `UPDATE alerts SET status, sent_at, error_message WHERE id = ?` */
  function WithStatus(alerts: seq<AlertRow>, alertId: int, status: string, now: int, err: Option<string>): (r: seq<AlertRow>)
    ensures |r| == |alerts|
    ensures forall i :: 0 <= i < |alerts| ==>
              r[i] == if alerts[i].id == alertId
                      then alerts[i].(status := status, sentAt := Some(now), errorMessage := err)
                      else alerts[i]
  {
    seq(|alerts|, i requires 0 <= i < |alerts| =>
      if alerts[i].id == alertId
      then alerts[i].(status := status, sentAt := Some(now), errorMessage := err)
      else alerts[i])
  }

  /** An update whose id names no row leaves the table as it was. */
  lemma WithStatusAbsent(alerts: seq<AlertRow>, alertId: int, status: string, now: int, err: Option<string>)
    requires forall i :: 0 <= i < |alerts| ==> alerts[i].id != alertId
    ensures WithStatus(alerts, alertId, status, now, err) == alerts
  {
  }

  /** The update keeps every row's id, mention and channel, and with them the
      table invariant; it changes at most one row, since ids are distinct, and
      that row then holds the new status, time and error. */
  lemma WithStatusKeepsValid(alerts: seq<AlertRow>, nextId: nat, alertId: int, status: string, now: int,
                             err: Option<string>)
    requires AlertsValid(alerts, nextId)
    ensures var r := WithStatus(alerts, alertId, status, now, err);
      && AlertsValid(r, nextId)
      && (forall i :: 0 <= i < |r| ==>
            r[i].id == alerts[i].id && r[i].mentionId == alerts[i].mentionId && r[i].alertType == alerts[i].alertType)
      && (forall i, j :: 0 <= i < |r| && 0 <= j < |r| && i != j && r[i] != alerts[i] ==> r[j] == alerts[j])
      && (forall i :: 0 <= i < |r| && r[i] != alerts[i] ==>
            alerts[i].id == alertId && r[i].status == status && r[i].sentAt == Some(now) && r[i].errorMessage == err)
  {
    var r := WithStatus(alerts, alertId, status, now, err);
    forall i, j | 0 <= i < |r| && 0 <= j < |r| && i != j && r[i] != alerts[i] ensures r[j] == alerts[j] {
      assert alerts[i].id == alertId;
      if i < j {
        assert alerts[i].id < alerts[j].id;
      } else {
        assert alerts[j].id < alerts[i].id;
      }
    }
  }

  // ------------------------------------------------------------ portfolio_companies table

  predicate CompaniesValid(rows: seq<CompanyRow>, nextId: nat) {
    && nextId >= 1
    && (forall i, j :: 0 <= i < j < |rows| ==> rows[i].id < rows[j].id && rows[i].name != rows[j].name)
    && (forall i :: 0 <= i < |rows| ==> 1 <= rows[i].id < nextId)
  }

  /** The INSERT OR REPLACE of populate_portfolio_companies goes through: a
      missing key raises KeyError, a None keyword list makes ','.join raise, and
      a NULL name or fund breaks NOT NULL (no default, so REPLACE aborts). Each
      of these is caught and the entry skipped. */
  predicate Insertable(c: CompanyConfig) {
    c.name.Value? && c.fund.Value? && !c.website.Absent? && !c.description.Absent? && c.keywords.Value?
  }

  /** The except handler reads `company['name']` again, so an entry without a
      name escapes the handler and aborts the whole call. */
  predicate Aborts(cs: seq<CompanyConfig>) {
    exists k :: 0 <= k < |cs| && cs[k].name.Absent?
  }

  function CompanyRowOf(id: nat, c: CompanyConfig): CompanyRow
    requires Insertable(c)
  {
    CompanyRow(id, c.name.v, c.fund.v, Get(c.website), Get(c.description), Join(c.keywords.v, ","))
  }

  function WithoutName(rows: seq<CompanyRow>, name: string): (r: seq<CompanyRow>)
    ensures forall x :: x in r <==> x in rows && x.name != name
    ensures |r| <= |rows|
  {
    if rows == [] then []
    else
      var init := rows[..|rows| - 1];
      var last := rows[|rows| - 1];
      assert rows == init + [last];
      WithoutName(init, name) + (if last.name == name then [] else [last])
  }

  /** A company row listed before another: a lower id and another name. */
  predicate CompanyBefore(a: CompanyRow, b: CompanyRow) {
    a.id < b.id && a.name != b.name
  }

  /** Appending a row whose id is above and whose name differs from every row keeps the invariant. */
  lemma AppendCompanyValid(w: seq<CompanyRow>, x: CompanyRow, nextId: nat)
    requires CompaniesValid(w, nextId) && 1 <= x.id < nextId
    requires forall y :: y in w ==> CompanyBefore(y, x)
    ensures CompaniesValid(w + [x], nextId)
  {
    assert forall i :: 0 <= i < |w| ==> w[i] in w;
  }

  lemma {:induction false} WithoutNameKeepsValid(rows: seq<CompanyRow>, nextId: nat, name: string)
    requires CompaniesValid(rows, nextId)
    ensures CompaniesValid(WithoutName(rows, name), nextId)
  {
    if rows != [] {
      var init := rows[..|rows| - 1];
      var last := rows[|rows| - 1];
      var w := WithoutName(init, name);
      LastAfterRest(rows, nextId, name, w);
      CompaniesPrefixValid(rows, nextId);
      WithoutNameKeepsValid(init, nextId, name);
      if last.name != name {
        AppendCompanyValid(w, last, nextId);
      }
    }
  }

  /** The last row of a valid company table comes after every row kept from the others. */
  lemma LastAfterRest(rows: seq<CompanyRow>, nextId: nat, name: string, w: seq<CompanyRow>)
    requires CompaniesValid(rows, nextId) && rows != []
    requires w == WithoutName(rows[..|rows| - 1], name)
    ensures forall y :: y in w ==> CompanyBefore(y, rows[|rows| - 1])
  {
    var init := rows[..|rows| - 1];
    forall y | y in w ensures CompanyBefore(y, rows[|rows| - 1]) {
      var k :| 0 <= k < |init| && init[k] == y;
      assert CompanyBefore(rows[k], rows[|rows| - 1]);
    }
  }

  lemma CompaniesPrefixValid(rows: seq<CompanyRow>, nextId: nat)
    requires CompaniesValid(rows, nextId) && rows != []
    ensures CompaniesValid(rows[..|rows| - 1], nextId)
    ensures 1 <= rows[|rows| - 1].id < nextId
  {
  }

  /** `INSERT OR REPLACE`: the row holding the name is deleted and the new row
      takes the next id, at the end of the table. */
  function Upsert(rows: seq<CompanyRow>, nextId: nat, c: CompanyConfig): (seq<CompanyRow>, nat)
    requires Insertable(c)
  {
    (WithoutName(rows, c.name.v) + [CompanyRowOf(nextId, c)], nextId + 1)
  }

  /** The loop of populate_portfolio_companies over entries that all have a name key. */
  function PopulateAll(rows: seq<CompanyRow>, nextId: nat, cs: seq<CompanyConfig>): (seq<CompanyRow>, nat)
  {
    if cs == [] then (rows, nextId)
    else
      var (rows', next') := PopulateAll(rows, nextId, cs[..|cs| - 1]);
      var c := cs[|cs| - 1];
      if Insertable(c) then Upsert(rows', next', c) else (rows', next')
  }

  lemma PopulateStep(rows: seq<CompanyRow>, nextId: nat, cs: seq<CompanyConfig>, i: int)
    requires 0 <= i < |cs|
    ensures PopulateAll(rows, nextId, cs[..i + 1])
         == var p := PopulateAll(rows, nextId, cs[..i]);
            if Insertable(cs[i]) then Upsert(p.0, p.1, cs[i]) else p
  {
    assert cs[..i + 1][..i] == cs[..i];
  }

  /** Upserting keeps one row per name, ids increasing. */
  lemma UpsertKeepsValid(rows: seq<CompanyRow>, nextId: nat, c: CompanyConfig)
    requires Insertable(c) && CompaniesValid(rows, nextId)
    ensures CompaniesValid(Upsert(rows, nextId, c).0, Upsert(rows, nextId, c).1)
  {
    var w := WithoutName(rows, c.name.v);
    WithoutNameKeepsValid(rows, nextId, c.name.v);
    forall i | 0 <= i < |w| ensures w[i].name != c.name.v {
      assert w[i] in w;
    }
  }

  lemma {:induction false} PopulateAllKeepsValid(rows: seq<CompanyRow>, nextId: nat, cs: seq<CompanyConfig>)
    requires CompaniesValid(rows, nextId)
    ensures CompaniesValid(PopulateAll(rows, nextId, cs).0, PopulateAll(rows, nextId, cs).1)
  {
    if cs != [] {
      PopulateAllKeepsValid(rows, nextId, cs[..|cs| - 1]);
      var (rows', next') := PopulateAll(rows, nextId, cs[..|cs| - 1]);
      if Insertable(cs[|cs| - 1]) {
        UpsertKeepsValid(rows', next', cs[|cs| - 1]);
      }
    }
  }

  /** The last insertable entry for a name wins: its values are in the table,
      whatever was there before and whatever earlier entries said. */
  lemma {:induction false} PopulateLastWins(rows: seq<CompanyRow>, nextId: nat, cs: seq<CompanyConfig>, k: int)
    requires 0 <= k < |cs| && Insertable(cs[k])
    requires forall j :: k < j < |cs| && Insertable(cs[j]) ==> cs[j].name != cs[k].name
    ensures exists x :: x in PopulateAll(rows, nextId, cs).0 && x == CompanyRowOf(x.id, cs[k])
  {
    var init := cs[..|cs| - 1];
    var c := cs[|cs| - 1];
    var (rows', next') := PopulateAll(rows, nextId, init);
    if k == |cs| - 1 {
      var r := WithoutName(rows', c.name.v) + [CompanyRowOf(next', c)];
      assert r[|r| - 1] in r;
    } else {
      PopulateLastWins(rows, nextId, init, k);
      var x :| x in rows' && x == CompanyRowOf(x.id, cs[k]);
      if Insertable(c) {
        assert c.name != cs[k].name;
        var w := WithoutName(rows', c.name.v);
        assert x in w;
        assert x in w + [CompanyRowOf(next', c)];
      }
    }
  }

  predicate HasName(rows: seq<CompanyRow>, n: string) {
    exists x :: x in rows && x.name == n
  }

  /** Some entry of cs would store the name n. */
  predicate Offers(cs: seq<CompanyConfig>, n: string) {
    exists k :: 0 <= k < |cs| && Insertable(cs[k]) && cs[k].name.v == n
  }

  lemma OffersSplit(cs: seq<CompanyConfig>, n: string)
    requires cs != []
    ensures Offers(cs, n) <==>
            Offers(cs[..|cs| - 1], n) || (Insertable(cs[|cs| - 1]) && cs[|cs| - 1].name.v == n)
  {
    var init := cs[..|cs| - 1];
    if Offers(cs, n) {
      var k :| 0 <= k < |cs| && Insertable(cs[k]) && cs[k].name.v == n;
      if k < |init| {
        assert init[k] == cs[k];
      }
    }
    if Offers(init, n) {
      var k :| 0 <= k < |init| && Insertable(init[k]) && init[k].name.v == n;
      assert cs[k] == init[k];
    }
  }

  lemma UpsertNames(rows: seq<CompanyRow>, nextId: nat, c: CompanyConfig, n: string)
    requires Insertable(c)
    ensures HasName(Upsert(rows, nextId, c).0, n) <==> HasName(rows, n) || c.name.v == n
  {
    var r := Upsert(rows, nextId, c).0;
    assert r[|r| - 1] in r;
    if HasName(rows, n) && c.name.v != n {
      var x :| x in rows && x.name == n;
      assert x in r;
    }
    if HasName(r, n) && c.name.v != n {
      var x :| x in r && x.name == n;
      assert x in rows;
    }
  }

  /** A name is in the table afterwards iff it was before or some entry stores it. */
  lemma {:induction false} PopulateAllNames(rows: seq<CompanyRow>, nextId: nat, cs: seq<CompanyConfig>, n: string)
    ensures HasName(PopulateAll(rows, nextId, cs).0, n) <==> HasName(rows, n) || Offers(cs, n)
  {
    if cs != [] {
      var init := cs[..|cs| - 1];
      var c := cs[|cs| - 1];
      PopulateAllNames(rows, nextId, init, n);
      OffersSplit(cs, n);
      var (rows', next') := PopulateAll(rows, nextId, init);
      if Insertable(c) {
        UpsertNames(rows', next', c, n);
      }
    }
  }

  // ------------------------------------------------------------ statistics

  predicate CountDescending(c: Counts) {
    forall i, j :: 0 <= i < j < |c| ==> c[i].1 >= c[j].1
  }

  function InsertByCount(x: (string, nat), c: Counts): (r: Counts)
    requires CountDescending(c)
    ensures CountDescending(r)
    ensures multiset(r) == multiset(c) + multiset{x}
    ensures |r| == |c| + 1 && (r[0] == x || (c != [] && r[0] == c[0]))
  {
    if c == [] then [x]
    else if x.1 >= c[0].1 then
      assert forall j :: 0 <= j < |c| ==> c[j].1 <= c[0].1;
      [x] + c
    else
      var rest := InsertByCount(x, c[1..]);
      assert c == [c[0]] + c[1..];
      assert forall j :: 0 <= j < |rest| ==> rest[j].1 <= rest[0].1;
      [c[0]] + rest
  }

  lemma {:induction false} TotalInsertByCount(x: (string, nat), c: Counts)
    requires CountDescending(c)
    ensures Total(InsertByCount(x, c)) == Total(c) + x.1
  {
    if c == [] {
      assert [x][..0] == [];
    } else if x.1 >= c[0].1 {
      TotalCons(x, c);
    } else {
      TotalInsertByCount(x, c[1..]);
      assert c == [c[0]] + c[1..];
      TotalCons(c[0], c[1..]);
      TotalCons(c[0], InsertByCount(x, c[1..]));
    }
  }

  lemma {:induction false} TotalCons(x: (string, nat), c: Counts)
    ensures Total([x] + c) == x.1 + Total(c)
    decreases |c|
  {
    if c != [] {
      var c' := [x] + c;
      assert c'[..|c'| - 1] == [x] + c[..|c| - 1];
      TotalCons(x, c[..|c| - 1]);
    }
  }

  /** `ORDER BY count DESC` on a grouped count (ties keep first-appearance order). */
  function SortByCountDesc(c: Counts): (r: Counts)
    ensures CountDescending(r)
    ensures multiset(r) == multiset(c)
  {
    if c == [] then []
    else
      assert c == [c[0]] + c[1..];
      InsertByCount(c[0], SortByCountDesc(c[1..]))
  }

  /** Reordering the counts keeps their sum. */
  lemma {:induction false} TotalSortByCountDesc(c: Counts)
    ensures Total(SortByCountDesc(c)) == Total(c)
  {
    if c != [] {
      TotalSortByCountDesc(c[1..]);
      TotalInsertByCount(c[0], SortByCountDesc(c[1..]));
      assert c == [c[0]] + c[1..];
      TotalCons(c[0], c[1..]);
    }
  }

  // ------------------------------------------------------------ the store object

  /** MentionDatabase: one SQLite file with the three tables. `md5` stands for
      hashlib.md5(...).hexdigest(); `now` parameters stand for CURRENT_TIMESTAMP,
      in seconds. */
  class MentionDatabase {
    const md5: string -> string
    var mentions: seq<Row>
    var nextMentionId: nat
    var alerts: seq<AlertRow>
    var nextAlertId: nat
    var companies: seq<CompanyRow>
    var nextCompanyId: nat

    ghost predicate Valid()
      reads this
    {
      && RowsValid(md5, mentions, nextMentionId)
      && AlertsValid(alerts, nextAlertId)
      && CompaniesValid(companies, nextCompanyId)
    }

    /** init_database on a new file: three empty tables. */
    constructor (md5: string -> string)
      ensures Valid()
      ensures this.md5 == md5
      ensures mentions == [] && alerts == [] && companies == []
    {
      this.md5 := md5;
      mentions := [];
      nextMentionId := 1;
      alerts := [];
      nextAlertId := 1;
      companies := [];
      nextCompanyId := 1;
    }

    /** generate_hash */
    function GenerateHash(title: string, url: string, company: string): (h: string)
    {
      Fingerprint(md5, title, url, company)
    }

    /** mention_exists */
    function MentionExists(h: string): (b: bool)
      reads this
      ensures b <==> exists x :: x in mentions && x.hash == h
    {
      HashTaken(mentions, h)
    }

    /** add_mention: the fingerprint check, then the INSERT, which the url
        UNIQUE constraint may refuse; the new row's id is returned. */
    method AddMention(m: MentionData, now: int) returns (id: Option<nat>)
      requires Valid()
      modifies this
      ensures Valid()
      ensures (Table(mentions, nextMentionId), id) == Insert(md5, old(Table(mentions, nextMentionId)), m, now)
      ensures unchanged(this`alerts, this`nextAlertId, this`companies, this`nextCompanyId)
    {
      InsertKeepsValid(md5, Table(mentions, nextMentionId), m, now);
      var h := GenerateHash(m.title, m.url, m.companyName);
      if MentionExists(h) {
        return None;
      }
      if UrlTaken(mentions, m.url) {
        return None;
      }
      id := Some(nextMentionId);
      mentions := mentions + [StoredRow(nextMentionId, m, h, now)];
      nextMentionId := nextMentionId + 1;
    }

    /** get_recent_mentions: rows created in the last `hours` hours, newest first. */
    function RecentMentions(hours: int, now: int): (r: seq<Row>)
      reads this
      ensures forall x :: x in r <==> x in mentions && x.createdAt >= now - hours * SecondsPerHour
      ensures NewestFirst(r)
      ensures multiset(r) <= multiset(mentions)
    {
      var since := CreatedSince(mentions, now - hours * SecondsPerHour);
      var r := SortNewestFirst(since);
      assert forall x :: x in r <==> x in multiset(r);
      assert forall x :: x in since <==> x in multiset(since);
      r
    }

    /** get_mentions_by_company: the company's rows, newest first, at most
        `limit` of them (no bound when limit is negative). */
    function MentionsByCompany(company: string, limit: int): (r: seq<Row>)
      reads this
      ensures forall x :: x in r ==> x in mentions && x.companyName == company
      ensures NewestFirst(r)
      ensures |r| == if 0 <= limit < |OfCompany(mentions, company)| then limit else |OfCompany(mentions, company)|
      ensures (limit < 0 || limit >= |OfCompany(mentions, company)|) ==>
                forall x :: x in mentions && x.companyName == company ==> x in r
      ensures forall x, y :: x in mentions && x.companyName == company && x !in r && y in r ==>
                x.createdAt <= y.createdAt
    {
      var sorted := SortNewestFirst(OfCompany(mentions, company));
      SortedMembers(OfCompany(mentions, company));
      LimitSorted(sorted, limit);
      Limit(sorted, limit)
    }

    /** get_statistics */
    function Statistics(now: int): (st: Stats)
      reads this
      ensures st.totalMentions == |mentions|
      ensures st.recentMentions24h == |CreatedSince(mentions, now - 24 * SecondsPerHour)|
      ensures multiset(st.mentionsByCompany) == multiset(CountBy(mentions, CompanyOf))
      ensures multiset(st.mentionsBySource) == multiset(CountBy(mentions, SourceOf))
      ensures CountDescending(st.mentionsByCompany) && CountDescending(st.mentionsBySource)
      ensures Total(st.mentionsByCompany) == st.totalMentions
      ensures Total(st.mentionsBySource) == st.totalMentions
    {
      CountByTotal(mentions, CompanyOf);
      CountByTotal(mentions, SourceOf);
      TotalSortByCountDesc(CountBy(mentions, CompanyOf));
      TotalSortByCountDesc(CountBy(mentions, SourceOf));
      Stats(|mentions|, |CreatedSince(mentions, now - 24 * SecondsPerHour)|,
            SortByCountDesc(CountBy(mentions, CompanyOf)), SortByCountDesc(CountBy(mentions, SourceOf)))
    }

    /** add_alert_record: the foreign key is not enforced (SQLite's default). */
    method AddAlertRecord(mentionId: int, alertType: string, status: string := "pending")
      requires Valid()
      modifies this
      ensures Valid()
      ensures alerts == old(alerts) + [AlertRow(old(nextAlertId), mentionId, alertType, status, None, None)]
      ensures nextAlertId == old(nextAlertId) + 1
      ensures unchanged(this`mentions, this`nextMentionId, this`companies, this`nextCompanyId)
    {
      alerts := alerts + [AlertRow(nextAlertId, mentionId, alertType, status, None, None)];
      nextAlertId := nextAlertId + 1;
    }

    /** update_alert_status: status, sent_at and error_message of the row with
        that id; nothing changes when there is none. */
    method UpdateAlertStatus(alertId: int, status: string, now: int, errorMessage: Option<string> := None)
      requires Valid()
      modifies this
      ensures Valid()
      ensures alerts == WithStatus(old(alerts), alertId, status, now, errorMessage)
      ensures unchanged(this`mentions, this`nextMentionId, this`nextAlertId, this`companies, this`nextCompanyId)
    {
      alerts := WithStatus(alerts, alertId, status, now, errorMessage);
    }

    /** One `DELETE FROM mentions WHERE company_name = ? AND (LOWER(title) LIKE ?
        OR LOWER(content) LIKE ?)`, returning cursor.rowcount. */
    method DeleteMatching(company: string, pattern: string) returns (rowcount: nat)
      requires Valid()
      modifies this`mentions
      ensures Valid()
      ensures mentions == Survivors(old(mentions), company, [pattern])
      ensures rowcount == |old(mentions)| - |mentions|
    {
      var kept: seq<Row> := [];
      var i := 0;
      while i < |mentions|
        invariant 0 <= i <= |mentions|
        invariant unchanged(this)
        invariant kept == Survivors(mentions[..i], company, [pattern])
        invariant |kept| <= i
      {
        SurvivorsPrefix(mentions, company, [pattern], i);
        if !Purged(mentions[i], company, [pattern]) {
          kept := kept + [mentions[i]];
        }
        i := i + 1;
      }
      assert mentions[..i] == mentions;
      SurvivorsKeepValid(md5, mentions, nextMentionId, company, [pattern]);
      rowcount := |mentions| - |kept|;
      mentions := kept;
    }

    /** The DELETE loop over one company's patterns. */
    method DeleteAll(company: string, patterns: seq<string>) returns (deleted: nat)
      requires Valid()
      modifies this`mentions
      ensures Valid()
      ensures mentions == Survivors(old(mentions), company, patterns)
      ensures deleted == |old(mentions)| - |mentions|
    {
      deleted := 0;
      SurvivorsNone(mentions, company);
      var i := 0;
      while i < |patterns|
        invariant 0 <= i <= |patterns|
        invariant Valid()
        invariant mentions == Survivors(old(mentions), company, patterns[..i])
        invariant deleted == |old(mentions)| - |mentions|
      {
        SurvivorsPatternStep(old(mentions), company, patterns, i);
        var n := DeleteMatching(company, patterns[i]);
        deleted := deleted + n;
        i := i + 1;
      }
      assert patterns[..i] == patterns;
    }

    /** clean_false_positives: the Finch patterns, then the Cerebra patterns. */
    method CleanFalsePositives() returns (deletedCount: nat)
      requires Valid()
      modifies this`mentions
      ensures Valid()
      ensures mentions == Survivors(Survivors(old(mentions), "Finch", FinchFalsePositives), "Cerebra", CerebraFalsePositives)
      ensures deletedCount == |old(mentions)| - |mentions|
    {
      var finch := DeleteAll("Finch", FinchFalsePositives);
      var cerebra := DeleteAll("Cerebra", CerebraFalsePositives);
      deletedCount := finch + cerebra;
    }

    /** populate_portfolio_companies. Returns whether the call raised (an entry
        without a name); the `with` block then rolls the whole call back. */
    method PopulatePortfolioCompanies(cs: seq<CompanyConfig>) returns (raised: bool)
      requires Valid()
      modifies this`companies, this`nextCompanyId
      ensures Valid()
      ensures raised <==> Aborts(cs)
      ensures raised ==> companies == old(companies) && nextCompanyId == old(nextCompanyId)
      ensures !raised ==> (companies, nextCompanyId) == PopulateAll(old(companies), old(nextCompanyId), cs)
    {
      var savedRows, savedNext := companies, nextCompanyId;
      var i := 0;
      while i < |cs|
        invariant 0 <= i <= |cs|
        invariant savedRows == old(companies) && savedNext == old(nextCompanyId)
        invariant CompaniesValid(companies, nextCompanyId)
        invariant (companies, nextCompanyId) == PopulateAll(old(companies), old(nextCompanyId), cs[..i])
        invariant forall k :: 0 <= k < i ==> !cs[k].name.Absent?
      {
        PopulateStep(old(companies), old(nextCompanyId), cs, i);
        var c := cs[i];
        if c.name.Absent? {
          assert Aborts(cs) by { assert cs[i].name.Absent?; }
          companies, nextCompanyId := savedRows, savedNext;
          return true;
        }
        if Insertable(c) {
          UpsertKeepsValid(companies, nextCompanyId, c);
          companies, nextCompanyId := Upsert(companies, nextCompanyId, c).0, Upsert(companies, nextCompanyId, c).1;
        }
        i := i + 1;
      }
      assert cs[..i] == cs;
      assert !Aborts(cs);
      raised := false;
    }
  }

  function CompanyOf(r: Row): string { r.companyName }
  function SourceOf(r: Row): string { r.source }

  lemma {:induction false} SurvivorsNone(rows: seq<Row>, company: string)
    ensures Survivors(rows, company, []) == rows
  {
    if rows != [] {
      SurvivorsNone(rows[..|rows| - 1], company);
      assert rows == rows[..|rows| - 1] + [rows[|rows| - 1]];
    }
  }
}
