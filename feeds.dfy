/** What the monitors receive from the network, once fetched: RSS entries
    (feedparser), NewsAPI articles, and Google result blocks (BeautifulSoup).
    Attribute reads that raise are modelled by `None` fields of entries and
    results and by null fields of articles; the scanning
    loop stops at the entry that raises, keeping what it already appended,
    which is what the per-keyword `try` of every adapter does. */
module Feeds {
  import opened Wrappers
  import opened MentionStore

  /** A portfolio company entry of the configuration. */
  datatype Company = Company(name: string, keywords: seq<string>)

  /** A feedparser entry: `entry.title` and `entry.link` raise when absent. */
  datatype Entry = Entry(
    title: Option<string>, summary: Option<string>, link: Option<string>,
    published: Option<string>, sourceHref: Option<string>)

  /** A NewsAPI article, parsed from JSON: a key may be missing, hold null, or
      hold a value; `source` is itself an object with a `name` key. */
  datatype Article = Article(
    title: Field<string>, description: Field<string>, url: Field<string>,
    source: Field<Field<string>>, publishedAt: Field<string>)

  /** `article.get('source', {}).get('name', 'Unknown')`: None when `source`
      is null, since `None.get` raises; a null name is formatted as "None". */
  function SourceName(src: Field<Field<string>>): (r: Option<string>)
    ensures r.None? <==> src.Null?
    ensures src.Absent? || src == Value(Absent) ==> r == Some("Unknown")
  {
    match src
    case Absent => Some("Unknown")
    case Null => None
    case Value(Absent) => Some("Unknown")
    case Value(Null) => Some("None")
    case Value(Value(n)) => Some(n)
  }

  /** `article.get(key, '')` stored as it is: a null value stays NULL. */
  function GetText(f: Field<string>): (r: Field<string>)
    ensures r.Null? <==> f.Null?
    ensures f.Value? ==> r == f
    ensures f.Absent? ==> r == Value("")
  {
    if f.Absent? then Value("") else f
  }

  /** A Google result block: the h3 text, the href of the first link (None when
      there is no link, "" when the link has no href), the snippet and the cite. */
  datatype SearchResult = SearchResult(
    title: Option<string>, href: Option<string>, snippet: Option<string>, cite: Option<string>)

  /** `d.get(key, default)` */
  function OrElse(o: Option<string>, default: string): string {
    if o.Some? then o.value else default
  }

  /** Python's `s[:n]`. */
  function Take<T>(s: seq<T>, n: nat): (r: seq<T>)
    ensures |r| == if n < |s| then n else |s|
    ensures r <= s
  {
    if n < |s| then s[..n] else s
  }

  /** What one entry contributes: nothing, one mention, or an exception that
      ends the scan of its feed. */
  datatype Outcome = Skip | Emit(mention: MentionData) | Raise

  /** The append loop over a feed, stopping at the first entry that raises. */
  function Scan<E>(es: seq<E>, step: E -> Outcome): (r: seq<MentionData>)
    ensures |r| <= |es|
  {
    if es == [] then []
    else match step(es[0])
      case Raise => []
      case Skip => Scan(es[1..], step)
      case Emit(m) => [m] + Scan(es[1..], step)
  }

  /** Some entry of the feed raises, so the scan ends early. */
  predicate Raises<E>(es: seq<E>, step: E -> Outcome) {
    exists i :: 0 <= i < |es| && step(es[i]).Raise?
  }

  /** Every mention the scan yields is emitted by some entry. */
  lemma {:induction false} ScanEmitted<E>(es: seq<E>, step: E -> Outcome, m: MentionData)
    requires m in Scan(es, step)
    ensures exists e :: e in es && step(e) == Emit(m)
  {
    assert es != [];
    match step(es[0])
    case Raise =>
    case Skip =>
      ScanEmitted(es[1..], step, m);
      var e :| e in es[1..] && step(e) == Emit(m);
      assert e in es;
    case Emit(m0) =>
      if m != m0 {
        ScanEmitted(es[1..], step, m);
        var e :| e in es[1..] && step(e) == Emit(m);
        assert e in es;
      }
  }

  /** The mentions emitted by the entries, ignoring exceptions. */
  function Emitted<E>(es: seq<E>, step: E -> Outcome): seq<MentionData> {
    if es == [] then []
    else (if step(es[0]).Emit? then [step(es[0]).mention] else []) + Emitted(es[1..], step)
  }

  /** Without any raising entry the scan keeps exactly the emitted mentions, in order. */
  lemma {:induction false} ScanNoRaise<E>(es: seq<E>, step: E -> Outcome)
    requires forall e :: e in es ==> !step(e).Raise?
    ensures Scan(es, step) == Emitted(es, step)
  {
    if es != [] {
      assert forall e :: e in es[1..] ==> e in es;
      ScanNoRaise(es[1..], step);
    }
  }

  /** The scanning loop of every adapter. */
  method ScanEntries<E>(es: seq<E>, step: E -> Outcome) returns (mentions: seq<MentionData>)
    ensures mentions == Scan(es, step)
  {
    mentions := [];
    var j := 0;
    while j < |es|
      invariant 0 <= j <= |es|
      invariant mentions + Scan(es[j..], step) == Scan(es, step)
    {
      assert es[j..][1..] == es[j + 1..];
      var o := step(es[j]);
      if o.Raise? {
        break;
      }
      if o.Emit? {
        mentions := mentions + [o.mention];
      }
      j := j + 1;
    }
  }

  /** `for keyword in keywords: mentions += per-keyword results` */
  function Collect<K>(ks: seq<K>, f: K -> seq<MentionData>): seq<MentionData> {
    if ks == [] then [] else f(ks[0]) + Collect(ks[1..], f)
  }

  /** The nested loops of an adapter: for each keyword, scan its fetched
      entries and extend the result. */
  method SearchKeywords<K, E>(ks: seq<K>, fetch: K -> seq<E>, step: E -> Outcome) returns (mentions: seq<MentionData>)
    ensures mentions == Collect(ks, k => Scan(fetch(k), step))
  {
    mentions := [];
    var i := 0;
    while i < |ks|
      invariant 0 <= i <= |ks|
      invariant mentions + Collect(ks[i..], k => Scan(fetch(k), step)) == Collect(ks, k => Scan(fetch(k), step))
    {
      assert ks[i..][1..] == ks[i + 1..];
      var found := ScanEntries(fetch(ks[i]), step);
      mentions := mentions + found;
      i := i + 1;
    }
    assert Collect(ks[i..], k => Scan(fetch(k), step)) == [];
  }

  /** Each keyword contributes at most `bound` mentions. */
  lemma {:induction false} CollectBound<K>(ks: seq<K>, f: K -> seq<MentionData>, bound: nat)
    requires forall k :: k in ks ==> |f(k)| <= bound
    ensures |Collect(ks, f)| <= |ks| * bound
  {
    if ks != [] {
      assert ks[0] in ks;
      assert forall k :: k in ks[1..] ==> k in ks;
      CollectBound(ks[1..], f, bound);
      assert |Collect(ks, f)| == |f(ks[0])| + |Collect(ks[1..], f)|;
      MulSucc(|ks| - 1, bound);
    }
  }

  lemma MulSucc(n: nat, b: nat)
    ensures (n + 1) * b == n * b + b
  {
  }

  /** A property every per-keyword result has, the collected list has. */
  lemma {:induction false} CollectAll<K>(ks: seq<K>, f: K -> seq<MentionData>, P: MentionData -> bool)
    requires forall k, m :: k in ks && m in f(k) ==> P(m)
    ensures forall m :: m in Collect(ks, f) ==> P(m)
  {
    if ks != [] {
      assert forall k :: k in ks[1..] ==> k in ks;
      CollectAll(ks[1..], f, P);
    }
  }

  /** Only the fetched results of the keywords in `ks` matter. */
  lemma {:induction false} CollectCongruent<K>(ks: seq<K>, f: K -> seq<MentionData>, g: K -> seq<MentionData>)
    requires forall k :: k in ks ==> f(k) == g(k)
    ensures Collect(ks, f) == Collect(ks, g)
  {
    if ks != [] {
      assert ks[0] in ks;
      assert forall k :: k in ks[1..] ==> k in ks;
      CollectCongruent(ks[1..], f, g);
    }
  }

  /** A property of every emitted mention holds of the scan. */
  lemma ScanAll<E>(es: seq<E>, step: E -> Outcome, P: MentionData -> bool)
    requires forall e :: e in es && step(e).Emit? ==> P(step(e).mention)
    ensures forall m :: m in Scan(es, step) ==> P(m)
  {
    forall m | m in Scan(es, step) ensures P(m) {
      ScanEmitted(es, step, m);
    }
  }
}
