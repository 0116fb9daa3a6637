/** The storing half of every monitor_all_companies: each candidate is handed
    to add_mention in order, and the ones that get a truthy id are tagged with
    it (`mention['id'] = mention_id`) and returned, company after company. */
module Pipeline {
  import opened Wrappers
  import opened Ordered
  import opened MentionStore

  /** A candidate after `mention['id'] = mention_id`. */
  datatype Tagged = Tagged(mention: MentionData, id: nat)

  /** Python's `if mention_id:` on the Optional[int] add_mention returns. */
  predicate Truthy(id: Option<nat>) {
    id.Some? && id.value != 0
  }

  /** The candidates inserted one after the other: the final table and the tagged survivors. */
  function InsertAll(md5: string -> string, t: Table, cs: seq<MentionData>, now: int): (Table, seq<Tagged>)
    decreases |cs|
  {
    if cs == [] then (t, [])
    else
      var first := Insert(md5, t, cs[0], now);
      var rest := InsertAll(md5, first.0, cs[1..], now);
      (rest.0, Head(cs[0], first.1) + rest.1)
  }

  /** The tags of the first candidate's insert. */
  function Head(c: MentionData, id: Option<nat>): seq<Tagged> {
    if Truthy(id) then [Tagged(c, id.value)] else []
  }

  /** One step of InsertAll: the first candidate's insert, then the rest. */
  lemma InsertAllCons(md5: string -> string, t: Table, cs: seq<MentionData>, now: int)
    requires cs != []
    ensures var first := Insert(md5, t, cs[0], now);
      var rest := InsertAll(md5, first.0, cs[1..], now);
      InsertAll(md5, t, cs, now) == (rest.0, Head(cs[0], first.1) + rest.1)
  {
  }

  /** The step of the storing loop at candidate i. */
  lemma InsertAllStep(md5: string -> string, t: Table, cs: seq<MentionData>, i: int, now: int)
    requires 0 <= i < |cs|
    ensures var first := Insert(md5, t, cs[i], now);
      var rest := InsertAll(md5, first.0, cs[i + 1..], now);
      InsertAll(md5, t, cs[i..], now) == (rest.0, Head(cs[i], first.1) + rest.1)
  {
    assert cs[i..][0] == cs[i] && cs[i..][1..] == cs[i + 1..];
    InsertAllCons(md5, t, cs[i..], now);
  }

  /** A candidate is blocked by a table when its fingerprint or its url is taken. */
  predicate Blocked(md5: string -> string, rows: seq<Row>, m: MentionData) {
    HashTaken(rows, Fingerprint(md5, m.title, m.url, m.companyName)) || UrlTaken(rows, m.url)
  }

  lemma BlockedGrows(md5: string -> string, rows: seq<Row>, more: seq<Row>, m: MentionData)
    requires Blocked(md5, rows, m)
    ensures Blocked(md5, rows + more, m)
  {
    if HashTaken(rows, Fingerprint(md5, m.title, m.url, m.companyName)) {
      var i :| 0 <= i < |rows| && rows[i].hash == Fingerprint(md5, m.title, m.url, m.companyName);
      assert (rows + more)[i] == rows[i];
    } else {
      var i :| 0 <= i < |rows| && rows[i].url == m.url;
      assert (rows + more)[i] == rows[i];
    }
  }

  /** Inserting only appends rows, one per tagged candidate, and the id
      counter advances by the number of tagged candidates. */
  lemma {:induction false} InsertAllShape(md5: string -> string, t: Table, cs: seq<MentionData>, now: int)
    requires t.nextId >= 1
    ensures t.rows <= InsertAll(md5, t, cs, now).0.rows
    ensures |InsertAll(md5, t, cs, now).0.rows| == |t.rows| + |InsertAll(md5, t, cs, now).1|
    ensures InsertAll(md5, t, cs, now).0.nextId == t.nextId + |InsertAll(md5, t, cs, now).1|
    decreases |cs|
  {
    if cs != [] {
      var first := Insert(md5, t, cs[0], now);
      InsertAllShape(md5, first.0, cs[1..], now);
      var rest := InsertAll(md5, first.0, cs[1..], now);
      InsertAllCons(md5, t, cs, now);
      if first.1.Some? {
        assert Truthy(first.1);
      }
    }
  }

  /** The table invariant holds after any run of inserts. */
  lemma {:induction false} InsertAllValid(md5: string -> string, t: Table, cs: seq<MentionData>, now: int)
    requires RowsValid(md5, t.rows, t.nextId)
    ensures RowsValid(md5, InsertAll(md5, t, cs, now).0.rows, InsertAll(md5, t, cs, now).0.nextId)
    decreases |cs|
  {
    if cs != [] {
      var first := Insert(md5, t, cs[0], now);
      InsertKeepsValid(md5, t, cs[0], now);
      InsertAllValid(md5, first.0, cs[1..], now);
      assert InsertAll(md5, t, cs, now).0 == InsertAll(md5, first.0, cs[1..], now).0;
    }
  }

  /** Ids stay in step with the returned tags: the k-th tagged candidate is one
      of the candidates and got id `t.nextId + k`. */
  lemma {:induction false} InsertAllTagAt(md5: string -> string, t: Table, cs: seq<MentionData>, now: int, k: nat)
    requires t.nextId >= 1
    requires k < |InsertAll(md5, t, cs, now).1|
    ensures InsertAll(md5, t, cs, now).1[k].id == t.nextId + k
    ensures InsertAll(md5, t, cs, now).1[k].mention in cs
    decreases |cs|
  {
    var first := Insert(md5, t, cs[0], now);
    var rest := InsertAll(md5, first.0, cs[1..], now);
    var tagged := InsertAll(md5, t, cs, now).1;
    InsertAllCons(md5, t, cs, now);
    if first.1.Some? {
      assert Truthy(first.1);
      assert tagged == [Tagged(cs[0], first.1.value)] + rest.1;
      if k > 0 {
        InsertAllTagAt(md5, first.0, cs[1..], now, k - 1);
        assert tagged[k] == rest.1[k - 1];
        assert rest.1[k - 1].mention in cs[1..];
      }
    } else {
      assert tagged == rest.1;
      InsertAllTagAt(md5, first.0, cs[1..], now, k);
      assert rest.1[k].mention in cs[1..];
    }
  }

  /** The rows add_mention writes for tagged candidates, in order. */
  function StoredRows(md5: string -> string, tags: seq<Tagged>, now: int): (r: seq<Row>)
    ensures |r| == |tags|
    ensures forall k :: 0 <= k < |tags| ==>
      r[k] == StoredRow(tags[k].id, tags[k].mention, Fingerprint(md5, tags[k].mention.title, tags[k].mention.url, tags[k].mention.companyName), now)
  {
    seq(|tags|, k requires 0 <= k < |tags| =>
      StoredRow(tags[k].id, tags[k].mention, Fingerprint(md5, tags[k].mention.title, tags[k].mention.url, tags[k].mention.companyName), now))
  }

  lemma StoredRowsAppend(md5: string -> string, a: seq<Tagged>, b: seq<Tagged>, now: int)
    ensures StoredRows(md5, a + b, now) == StoredRows(md5, a, now) + StoredRows(md5, b, now)
  {
    assert forall k :: 0 <= k < |a| + |b| ==> (a + b)[k] == if k < |a| then a[k] else b[k - |a|];
  }

  /** The rows a run appends are exactly the rows of the returned tags, in
      the same order: every tagged candidate is stored under its id, and
      nothing else is stored. */
  lemma {:induction false} InsertAllRows(md5: string -> string, t: Table, cs: seq<MentionData>, now: int)
    requires t.nextId >= 1
    ensures InsertAll(md5, t, cs, now).0.rows == t.rows + StoredRows(md5, InsertAll(md5, t, cs, now).1, now)
    decreases |cs|
  {
    if cs == [] {
      assert t.rows + [] == t.rows;
    } else {
      var first := Insert(md5, t, cs[0], now);
      var rest := InsertAll(md5, first.0, cs[1..], now);
      var head := Head(cs[0], first.1);
      InsertAllCons(md5, t, cs, now);
      InsertAllRows(md5, first.0, cs[1..], now);
      StoredRowsAppend(md5, head, rest.1, now);
      if first.1.Some? {
        assert Truthy(first.1);
        assert first.0.rows == t.rows + StoredRows(md5, head, now);
      } else {
        assert head == [];
        assert StoredRows(md5, head, now) == [];
      }
      AppendAssoc(t.rows, StoredRows(md5, head, now), StoredRows(md5, rest.1, now));
    }
  }

  /** After a run every candidate is blocked, whether it was stored or refused. */
  lemma {:induction false} InsertAllBlocks(md5: string -> string, t: Table, cs: seq<MentionData>, now: int)
    requires RowsValid(md5, t.rows, t.nextId)
    ensures forall m :: m in cs ==> Blocked(md5, InsertAll(md5, t, cs, now).0.rows, m)
    decreases |cs|
  {
    if cs != [] {
      var t1 := Insert(md5, t, cs[0], now).0;
      InsertKeepsValid(md5, t, cs[0], now);
      InsertBlocks(md5, t, cs[0], now);
      InsertAllBlocks(md5, t1, cs[1..], now);
      InsertAllShape(md5, t1, cs[1..], now);
      var t2 := InsertAll(md5, t1, cs[1..], now).0;
      assert t2 == InsertAll(md5, t, cs, now).0;
      var more := t2.rows[|t1.rows|..];
      assert t2.rows == t1.rows + more;
      BlockedGrows(md5, t1.rows, more, cs[0]);
      assert forall m :: m in cs ==> m == cs[0] || m in cs[1..];
    }
  }

  /** Candidates that are all blocked insert nothing and yield nothing. */
  lemma {:induction false} InsertAllBlocked(md5: string -> string, t: Table, cs: seq<MentionData>, now: int)
    requires forall m :: m in cs ==> Blocked(md5, t.rows, m)
    ensures InsertAll(md5, t, cs, now).0 == t
    ensures InsertAll(md5, t, cs, now).1 == []
    decreases |cs|
  {
    if cs != [] {
      assert forall m :: m in cs[1..] ==> m in cs;
      InsertAllBlocked(md5, t, cs[1..], now);
      assert cs[0] in cs;
      var first := Insert(md5, t, cs[0], now);
      assert first.0 == t && first.1.None?;
    }
  }

  /** Re-running the same candidates against the resulting store stores
      nothing more and returns no mention. */
  lemma RerunStoresNothing(md5: string -> string, t: Table, cs: seq<MentionData>, now1: int, now2: int)
    requires RowsValid(md5, t.rows, t.nextId)
    ensures var t' := InsertAll(md5, t, cs, now1).0;
      InsertAll(md5, t', cs, now2).0 == t' && InsertAll(md5, t', cs, now2).1 == []
  {
    InsertAllBlocks(md5, t, cs, now1);
    InsertAllBlocked(md5, InsertAll(md5, t, cs, now1).0, cs, now2);
  }

  /** Inserting two batches one after the other is inserting their concatenation. */
  lemma {:induction false} InsertAllConcat(md5: string -> string, t: Table, a: seq<MentionData>, b: seq<MentionData>, now: int)
    ensures InsertAll(md5, t, a + b, now).0 == InsertAll(md5, InsertAll(md5, t, a, now).0, b, now).0
    ensures InsertAll(md5, t, a + b, now).1 == InsertAll(md5, t, a, now).1 + InsertAll(md5, InsertAll(md5, t, a, now).0, b, now).1
    decreases |a|
  {
    if a == [] {
      assert a + b == b;
    } else {
      var first := Insert(md5, t, a[0], now);
      assert (a + b)[0] == a[0] && (a + b)[1..] == a[1..] + b;
      InsertAllConcat(md5, first.0, a[1..], b, now);
      InsertAllCons(md5, t, a, now);
      InsertAllCons(md5, t, a + b, now);
      var head := Head(a[0], first.1);
      var ra := InsertAll(md5, first.0, a[1..], now);
      var rb := InsertAll(md5, ra.0, b, now);
      AppendAssoc(head, ra.1, rb.1);
    }
  }

  /** The concatenation of the per-company candidate lists. */
  function Flatten(batches: seq<seq<MentionData>>): seq<MentionData> {
    if batches == [] then [] else batches[0] + Flatten(batches[1..])
  }

  lemma FlattenStep(batches: seq<seq<MentionData>>, i: int)
    requires 0 <= i < |batches|
    ensures Flatten(batches[i..]) == batches[i] + Flatten(batches[i + 1..])
  {
    assert batches[i..][0] == batches[i] && batches[i..][1..] == batches[i + 1..];
  }

  /** The inner loop of monitor_all_companies for one company. */
  method StoreNew(db: MentionDatabase, candidates: seq<MentionData>, now: int) returns (newMentions: seq<Tagged>)
    requires db.Valid()
    modifies db
    ensures db.Valid()
    ensures Table(db.mentions, db.nextMentionId) == InsertAll(db.md5, old(Table(db.mentions, db.nextMentionId)), candidates, now).0
    ensures newMentions == InsertAll(db.md5, old(Table(db.mentions, db.nextMentionId)), candidates, now).1
    ensures unchanged(db`alerts, db`nextAlertId, db`companies, db`nextCompanyId)
  {
    newMentions := [];
    var i := 0;
    assert candidates[i..] == candidates;
    while i < |candidates|
      invariant 0 <= i <= |candidates|
      invariant db.Valid()
      invariant unchanged(db`alerts, db`nextAlertId, db`companies, db`nextCompanyId)
      invariant InsertAll(db.md5, Table(db.mentions, db.nextMentionId), candidates[i..], now).0
                == InsertAll(db.md5, old(Table(db.mentions, db.nextMentionId)), candidates, now).0
      invariant newMentions + InsertAll(db.md5, Table(db.mentions, db.nextMentionId), candidates[i..], now).1
                == InsertAll(db.md5, old(Table(db.mentions, db.nextMentionId)), candidates, now).1
    {
      InsertAllStep(db.md5, Table(db.mentions, db.nextMentionId), candidates, i, now);
      var id := db.AddMention(candidates[i], now);
      ghost var rest := InsertAll(db.md5, Table(db.mentions, db.nextMentionId), candidates[i + 1..], now).1;
      var head: seq<Tagged> := if Truthy(id) then [Tagged(candidates[i], id.value)] else [];
      assert head == Head(candidates[i], id);
      AppendAssoc(newMentions, head, rest);
      newMentions := newMentions + head;
      i := i + 1;
    }
    assert candidates[i..] == [];
    assert newMentions + [] == newMentions;
  }

  /** The outer loop of monitor_all_companies, once every company's candidates
      are gathered (in company order). */
  method StoreAllCompanies(db: MentionDatabase, batches: seq<seq<MentionData>>, now: int) returns (allMentions: seq<Tagged>)
    requires db.Valid()
    modifies db
    ensures db.Valid()
    ensures Table(db.mentions, db.nextMentionId) == InsertAll(db.md5, old(Table(db.mentions, db.nextMentionId)), Flatten(batches), now).0
    ensures allMentions == InsertAll(db.md5, old(Table(db.mentions, db.nextMentionId)), Flatten(batches), now).1
    ensures unchanged(db`alerts, db`nextAlertId, db`companies, db`nextCompanyId)
  {
    allMentions := [];
    var i := 0;
    assert batches[i..] == batches;
    while i < |batches|
      invariant 0 <= i <= |batches|
      invariant db.Valid()
      invariant unchanged(db`alerts, db`nextAlertId, db`companies, db`nextCompanyId)
      invariant InsertAll(db.md5, Table(db.mentions, db.nextMentionId), Flatten(batches[i..]), now).0
                == InsertAll(db.md5, old(Table(db.mentions, db.nextMentionId)), Flatten(batches), now).0
      invariant allMentions + InsertAll(db.md5, Table(db.mentions, db.nextMentionId), Flatten(batches[i..]), now).1
                == InsertAll(db.md5, old(Table(db.mentions, db.nextMentionId)), Flatten(batches), now).1
    {
      FlattenStep(batches, i);
      InsertAllConcat(db.md5, Table(db.mentions, db.nextMentionId), batches[i], Flatten(batches[i + 1..]), now);
      var stored := StoreNew(db, batches[i], now);
      ghost var later := InsertAll(db.md5, Table(db.mentions, db.nextMentionId), Flatten(batches[i + 1..]), now).1;
      AppendAssoc(allMentions, stored, later);
      allMentions := allMentions + stored;
      i := i + 1;
    }
    assert batches[i..] == [];
    assert Flatten(batches[i..]) == [];
    assert allMentions + [] == allMentions;
  }
}
