/** String helpers shared by the relevance classifiers, the store's LIKE filters
    and the alert formatters. Strings are sequences of code points; lower-casing
    and the regex word class are the ASCII versions (SQLite's LOWER is ASCII-only;
    Python's str.lower and \w are approximated by it). */
module Text {

  /** ASCII lower-casing of one character. */
  function Lower(c: char): char {
    if 'A' <= c <= 'Z' then (c as int + 32) as char else c
  }

  /** `s.lower()` in Python, `LOWER(s)` in SQLite. */
  function LowerStr(s: string): (r: string)
    ensures |r| == |s|
    ensures forall i :: 0 <= i < |s| ==> r[i] == Lower(s[i])
  {
    seq(|s|, i requires 0 <= i < |s| => Lower(s[i]))
  }

  lemma LowerStrAppend(a: string, b: string)
    ensures LowerStr(a + b) == LowerStr(a) + LowerStr(b)
  {
  }

  lemma LowerStrSlice(s: string, i: int, j: int)
    requires 0 <= i <= j <= |s|
    ensures LowerStr(s)[i..j] == LowerStr(s[i..j])
  {
  }

  /** p occurs in s starting at index i. */
  predicate OccursAt(s: string, p: string, i: int) {
    0 <= i && i + |p| <= |s| && s[i..i + |p|] == p
  }

  predicate StartsWith(s: string, p: string) {
    |p| <= |s| && s[..|p|] == p
  }

  /** Python's `p in s` on strings, and SQL `s LIKE '%p%'` for a pattern
      without wildcards: p is a contiguous block of s. */
  predicate Contains(s: string, p: string)
    decreases |s|
  {
    StartsWith(s, p) || (|s| > 0 && Contains(s[1..], p))
  }

  /** The scanning definition of Contains agrees with "occurs somewhere". */
  lemma {:induction false} ContainsIffOccurs(s: string, p: string)
    ensures Contains(s, p) <==> exists i :: OccursAt(s, p, i)
    decreases |s|
  {
    if StartsWith(s, p) {
      assert OccursAt(s, p, 0);
    } else if |s| > 0 {
      ContainsIffOccurs(s[1..], p);
      if Contains(s[1..], p) {
        var j :| OccursAt(s[1..], p, j);
        assert s[1..][j..j + |p|] == s[j + 1..j + 1 + |p|];
        assert OccursAt(s, p, j + 1);
      }
      if i :| OccursAt(s, p, i) {
        assert i != 0;
        assert s[1..][i - 1..i - 1 + |p|] == s[i..i + |p|];
        assert OccursAt(s[1..], p, i - 1);
      }
    }
  }

  lemma OccursContains(s: string, p: string, i: int)
    requires OccursAt(s, p, i)
    ensures Contains(s, p)
  {
    ContainsIffOccurs(s, p);
  }

  /** Appending text on either side never destroys an occurrence. */
  lemma ContainsAppend(s: string, p: string, before: string, after: string)
    requires Contains(s, p)
    ensures Contains(before + s + after, p)
  {
    ContainsIffOccurs(s, p);
    var i :| OccursAt(s, p, i);
    var t := before + s + after;
    assert t[|before| + i..|before| + i + |p|] == s[i..i + |p|];
    OccursContains(t, p, |before| + i);
  }

  /** An occurrence survives lower-casing both sides. */
  lemma ContainsLower(s: string, p: string)
    requires Contains(s, p)
    ensures Contains(LowerStr(s), LowerStr(p))
  {
    ContainsIffOccurs(s, p);
    var i :| OccursAt(s, p, i);
    LowerStrSlice(s, i, i + |p|);
    OccursContains(LowerStr(s), LowerStr(p), i);
  }

  /** Python's `any(t in s for t in terms)`. */
  predicate ContainsAny(s: string, terms: seq<string>) {
    exists t :: t in terms && Contains(s, t)
  }

  lemma ContainsAnyAppend(s: string, terms: seq<string>, before: string, after: string)
    requires ContainsAny(s, terms)
    ensures ContainsAny(before + s + after, terms)
  {
    var t :| t in terms && Contains(s, t);
    ContainsAppend(s, t, before, after);
  }

  /** A pattern longer than the text cannot occur in it. */
  lemma TooLongAbsent(s: string, p: string)
    requires |p| > |s|
    ensures !Contains(s, p)
  {
    ContainsIffOccurs(s, p);
  }

  /** A pattern whose first character is not in the text cannot occur in it. */
  lemma FirstCharAbsent(s: string, p: string)
    requires |p| > 0 && p[0] !in s
    ensures !Contains(s, p)
  {
    ContainsIffOccurs(s, p);
    forall i ensures !OccursAt(s, p, i) {
      if 0 <= i && i + |p| <= |s| {
        assert s[i..i + |p|][0] == s[i];
      }
    }
  }

  /** The early-return loop `for t in terms: if t in s: return True`. */
  function FirstContained(s: string, terms: seq<string>): bool {
    if terms == [] then false else Contains(s, terms[0]) || FirstContained(s, terms[1..])
  }

  /** The scanning loop finds a term exactly when one of the terms occurs. */
  lemma {:induction false} FirstContainedIff(s: string, terms: seq<string>)
    ensures FirstContained(s, terms) <==> ContainsAny(s, terms)
  {
    if terms != [] {
      FirstContainedIff(s, terms[1..]);
      assert terms[0] in terms;
      if ContainsAny(s, terms) && !Contains(s, terms[0]) {
        var t :| t in terms && Contains(s, t);
        assert t in terms[1..];
      }
    }
  }

  /** Lower-casing twice is lower-casing once. */
  lemma LowerStrIdempotent(s: string)
    ensures LowerStr(LowerStr(s)) == LowerStr(s)
  {
  }

  /** The ASCII approximation of the regex class \w. */
  predicate IsWordChar(c: char) {
    'a' <= c <= 'z' || 'A' <= c <= 'Z' || '0' <= c <= '9' || c == '_'
  }

  /** The regex assertion \b at position k of s. */
  predicate WordBoundary(s: string, k: int)
    requires 0 <= k <= |s|
  {
    (k > 0 && IsWordChar(s[k - 1])) != (k < |s| && IsWordChar(s[k]))
  }

  predicate WholeWordAt(s: string, w: string, i: int) {
    OccursAt(s, w, i) && WordBoundary(s, i) && WordBoundary(s, i + |w|)
  }

  /** `re.search(r'\b' + re.escape(w) + r'\b', s) is not None`. */
  predicate ContainsWord(s: string, w: string) {
    exists i | 0 <= i <= |s| - |w| :: WholeWordAt(s, w, i)
  }

  /** A whole-word match is in particular a substring match. */
  lemma ContainsWordContains(s: string, w: string)
    requires ContainsWord(s, w)
    ensures Contains(s, w)
  {
    var i :| 0 <= i <= |s| - |w| && WholeWordAt(s, w, i);
    OccursContains(s, w, i);
  }

  /** Python's `s[:keep] + '...' if len(s) > limit else s`. */
  function Elide(s: string, limit: nat, keep: nat): (r: string)
    requires keep <= limit
    ensures |s| <= limit ==> r == s
    ensures |s| > limit ==> |r| == keep + 3 && StartsWith(r, s[..keep]) && r[keep..] == "..."
  {
    if |s| > limit then s[..keep] + "..." else s
  }

  /** `s.replace(a, b)` for single characters. */
  function ReplaceChar(s: string, a: char, b: char): (r: string)
    ensures |r| == |s|
    ensures forall i :: 0 <= i < |s| ==> r[i] == (if s[i] == a then b else s[i])
  {
    seq(|s|, i requires 0 <= i < |s| => if s[i] == a then b else s[i])
  }

  /** `s.replace(a, '')` for a single character. */
  function RemoveChar(s: string, a: char): (r: string)
    ensures a !in r
    ensures forall c :: c in r <==> c in s && c != a
    ensures multiset(r) == multiset(s)[a := 0]
    ensures |r| <= |s|
  {
    if s == [] then []
    else
      assert s == [s[0]] + s[1..];
      (if s[0] == a then [] else [s[0]]) + RemoveChar(s[1..], a)
  }

  /** Every `a` of s replaced by the string `w`, left to right. */
  function Subst(s: string, a: char, w: string): string {
    if s == [] then [] else (if s[0] == a then w else [s[0]]) + Subst(s[1..], a, w)
  }

  lemma JoinHead(c: char, x: string, tail: seq<string>, sep: string)
    ensures Join([[c] + x] + tail, sep) == [c] + Join([x] + tail, sep)
  {
    if tail != [] {
      assert ([[c] + x] + tail)[1..] == tail;
      assert ([x] + tail)[1..] == tail;
    }
  }

  /** Joining the parts of a split with `w` substitutes `w` for the separator. */
  lemma {:induction false} JoinSplitSubst(s: string, a: char, w: string)
    ensures Join(Split(s, a), w) == Subst(s, a, w)
    decreases |s|
  {
    if s != [] {
      var rest := Split(s[1..], a);
      JoinSplitSubst(s[1..], a, w);
      if s[0] == a {
        assert ([""] + rest)[1..] == rest;
      } else {
        JoinHead(s[0], rest[0], rest[1..], w);
        assert [rest[0]] + rest[1..] == rest;
      }
    }
  }

  lemma {:induction false} ReplaceCharSubst(s: string, a: char, b: char)
    ensures ReplaceChar(s, a, b) == Subst(s, a, [b])
    decreases |s|
  {
    if s != [] {
      ReplaceCharSubst(s[1..], a, b);
      assert ReplaceChar(s, a, b) == [if s[0] == a then b else s[0]] + ReplaceChar(s[1..], a, b);
    }
  }

  lemma {:induction false} RemoveCharSubst(s: string, a: char)
    ensures RemoveChar(s, a) == Subst(s, a, [])
    decreases |s|
  {
    if s != [] {
      RemoveCharSubst(s[1..], a);
    }
  }

  /** `s.replace(a, b) == b.join(s.split(a))`: the replacement keeps every
      other character, in order, and puts b where each a was. */
  lemma ReplaceCharJoinSplit(s: string, a: char, b: char)
    ensures ReplaceChar(s, a, b) == Join(Split(s, a), [b])
  {
    ReplaceCharSubst(s, a, b);
    JoinSplitSubst(s, a, [b]);
  }

  /** `s.replace(a, '') == ''.join(s.split(a))`: the other characters, in order. */
  lemma RemoveCharJoinSplit(s: string, a: char)
    ensures RemoveChar(s, a) == Join(Split(s, a), "")
  {
    RemoveCharSubst(s, a);
    JoinSplitSubst(s, a, "");
  }

  /** Replacing a by a character b that s does not contain can be undone. */
  lemma ReplaceCharRoundTrip(s: string, a: char, b: char)
    requires b !in s
    ensures ReplaceChar(ReplaceChar(s, a, b), b, a) == s
  {
    var t := ReplaceChar(s, a, b);
    assert forall i :: 0 <= i < |s| ==> ReplaceChar(t, b, a)[i] == s[i];
  }

  /** `sep.join(parts)`. */
  function Join(parts: seq<string>, sep: string): (r: string)
  {
    if parts == [] then ""
    else if |parts| == 1 then parts[0]
    else parts[0] + sep + Join(parts[1..], sep)
  }

  /** `s.split(sep)` for a one-character separator: never an empty list. */
  function Split(s: string, sep: char): (r: seq<string>)
    ensures |r| >= 1
    ensures forall j :: 0 <= j < |r| ==> sep !in r[j]
  {
    if s == [] then [""]
    else
      var rest := Split(s[1..], sep);
      if s[0] == sep then [""] + rest
      else [[s[0]] + rest[0]] + rest[1..]
  }

  /** `sep.join(s.split(sep)) == s`. */
  lemma {:induction false} JoinSplit(s: string, sep: char)
    ensures Join(Split(s, sep), [sep]) == s
  {
    if s != [] {
      var rest := Split(s[1..], sep);
      JoinSplit(s[1..], sep);
      if s[0] == sep {
        assert Split(s, sep) == [""] + rest;
        assert Join([""] + rest, [sep]) == "" + [sep] + Join(rest, [sep]);
      } else {
        var r := Split(s, sep);
        assert r == [[s[0]] + rest[0]] + rest[1..];
        if |rest| == 1 {
          assert Join(rest, [sep]) == rest[0];
        } else {
          assert Join(rest, [sep]) == rest[0] + [sep] + Join(rest[1..], [sep]);
          assert r[1..] == rest[1..];
        }
      }
    }
  }
}
