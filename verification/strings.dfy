/**
 * String helpers used by the route engine and by the policy conversion:
 * Go's `strings.Replace(s, old, new, -1)`, `strings.Join` and `strings.Split`
 * on a one-character separator, and a deterministic (lexicographic)
 * enumeration of a finite set of strings, which the model uses wherever the
 * Go code ranges over a map.
 */
module Strings {

  predicate StartsWith(s: string, p: string) {
    |p| <= |s| && s[..|p|] == p
  }

  /** `p` occurs in `s` starting at index `i`. */
  predicate OccursAt(p: string, s: string, i: nat) {
    i + |p| <= |s| && s[i..i + |p|] == p
  }

  /** `p` occurs in `s` at some index at or after `k`; written by recursion so
      that it can be evaluated on literals. */
  predicate OccursFrom(p: string, s: string, k: nat)
    decreases |s| - k
  {
    k + |p| <= |s| && (OccursAt(p, s, k) || OccursFrom(p, s, k + 1))
  }

  lemma {:induction false} OccursFromMeansSomeIndex(p: string, s: string, k: nat)
    ensures OccursFrom(p, s, k) <==> exists i :: k <= i && OccursAt(p, s, i)
    decreases |s| - k
  {
    if k + |p| <= |s| {
      OccursFromMeansSomeIndex(p, s, k + 1);
      if exists i :: k <= i && OccursAt(p, s, i) {
        var i :| k <= i && OccursAt(p, s, i);
        if i != k {
          assert k + 1 <= i;
        }
      }
    } else {
      forall i | k <= i ensures !OccursAt(p, s, i) { }
    }
  }

  // ---------------------------------------------------------------------
  // strings.Replace(s, pat, rep, -1): leftmost, non-overlapping replacement
  // ---------------------------------------------------------------------

  function ReplaceAll(s: string, pat: string, rep: string): (r: string)
    requires |pat| > 0
    ensures (forall i: nat :: !OccursAt(pat, s, i)) ==> r == s
    ensures |rep| == |pat| ==> |r| == |s|
    decreases |s|
  {
    if |s| < |pat| then s
    else if StartsWith(s, pat) then
      assert OccursAt(pat, s, 0);
      rep + ReplaceAll(s[|pat|..], pat, rep)
    else
      assert forall i: nat :: OccursAt(pat, s[1..], i) ==> OccursAt(pat, s, i + 1);
      [s[0]] + ReplaceAll(s[1..], pat, rep)
  }

  /** With a one-character pattern, replacement works character by character. */
  lemma {:induction false} ReplaceCharAt(s: string, c: char, d: char, i: nat)
    requires i < |s|
    ensures |ReplaceAll(s, [c], [d])| == |s|
    ensures ReplaceAll(s, [c], [d])[i] == if s[i] == c then d else s[i]
    decreases |s|
  {
    if i > 0 {
      ReplaceCharAt(s[1..], c, d, i - 1);
    }
  }

  /** With a one-character pattern, replacement distributes over concatenation. */
  lemma ReplaceCharAppend(a: string, b: string, c: char, d: char)
    ensures ReplaceAll(a + b, [c], [d]) == ReplaceAll(a, [c], [d]) + ReplaceAll(b, [c], [d])
  {
    var l, r1, r2 := ReplaceAll(a + b, [c], [d]), ReplaceAll(a, [c], [d]), ReplaceAll(b, [c], [d]);
    if |a + b| > 0 { ReplaceCharAt(a + b, c, d, 0); }
    forall i | 0 <= i < |a + b| ensures l[i] == (r1 + r2)[i] {
      ReplaceCharAt(a + b, c, d, i);
      if i < |a| {
        ReplaceCharAt(a, c, d, i);
      } else {
        ReplaceCharAt(b, c, d, i - |a|);
      }
    }
    if |a| > 0 { ReplaceCharAt(a, c, d, 0); }
    if |b| > 0 { ReplaceCharAt(b, c, d, 0); }
  }

  /**
   * Every occurrence of `pat` is replaced: the result contains none, provided
   * the replacement cannot create a new one. The three conditions say that
   * `pat` does not occur inside `rep`, that no proper suffix of `rep` begins
   * `pat`, and that the first character of `rep` appears nowhere in `pat`
   * after its first position.
   */
  lemma {:induction false} ReplaceAllLeavesNoOccurrence(s: string, pat: string, rep: string)
    requires |pat| > 0 && |rep| > 0
    requires forall j: nat :: !OccursAt(pat, rep, j)
    requires forall n :: 0 < n < |pat| && n <= |rep| ==> rep[|rep| - n..] != pat[..n]
    requires forall j :: 0 < j < |pat| ==> pat[j] != rep[0]
    ensures forall i: nat :: !OccursAt(pat, ReplaceAll(s, pat, rep), i)
    decreases |s|
  {
    if |s| < |pat| {
    } else if StartsWith(s, pat) {
      ReplaceAllLeavesNoOccurrence(s[|pat|..], pat, rep);
      NoOccurrenceAcrossRep(rep, ReplaceAll(s[|pat|..], pat, rep), pat);
    } else {
      var t := ReplaceAll(s[1..], pat, rep);
      ReplaceAllLeavesNoOccurrence(s[1..], pat, rep);
      forall i: nat ensures !OccursAt(pat, [s[0]] + t, i) {
        if i == 0 {
          NoOccurrenceAtHead(s, pat, rep);
        } else {
          if i + |pat| <= |t| + 1 {
            assert ([s[0]] + t)[i..i + |pat|] == t[i - 1..i - 1 + |pat|];
          }
          assert !OccursAt(pat, t, i - 1);
        }
      }
    }
  }

  lemma NoOccurrenceAcrossRep(rep: string, t: string, pat: string)
    requires |pat| > 0
    requires forall j: nat :: !OccursAt(pat, rep, j)
    requires forall n :: 0 < n < |pat| && n <= |rep| ==> rep[|rep| - n..] != pat[..n]
    requires forall j: nat :: !OccursAt(pat, t, j)
    ensures forall i: nat :: !OccursAt(pat, rep + t, i)
  {
    var r := rep + t;
    forall i: nat ensures !OccursAt(pat, r, i) {
      if i + |pat| > |r| {
      } else if i + |pat| <= |rep| {
        assert r[i..i + |pat|] == rep[i..i + |pat|];
        assert !OccursAt(pat, rep, i);
      } else if i < |rep| {
        var n := |rep| - i;
        assert r[i..i + |pat|][..n] == r[i..i + n] == rep[i..];
        assert rep[i..] == rep[|rep| - n..];
      } else {
        assert r[i..i + |pat|] == t[i - |rep|..i - |rep| + |pat|];
        assert !OccursAt(pat, t, i - |rep|);
      }
    }
  }

  lemma NoOccurrenceAtHead(s: string, pat: string, rep: string)
    requires |rep| > 0 && |pat| <= |s| && |pat| > 0 && !StartsWith(s, pat)
    requires forall j :: 0 < j < |pat| ==> pat[j] != rep[0]
    ensures !OccursAt(pat, [s[0]] + ReplaceAll(s[1..], pat, rep), 0)
  {
    var t := ReplaceAll(s[1..], pat, rep);
    var r := [s[0]] + t;
    if OccursAt(pat, r, 0) {
      if |pat| > 1 {
        assert t[..|pat| - 1] == pat[1..] by {
          assert r[1..|pat|] == t[..|pat| - 1];
        }
        ResultStartingWithPatternTail(s[1..], pat, rep, 1);
      }
    }
  }

  /** If the replaced text begins with the tail `pat[k..]`, so did the original. */
  lemma {:induction false} ResultStartingWithPatternTail(u: string, pat: string, rep: string, k: nat)
    requires |rep| > 0 && 0 < k < |pat|
    requires forall j :: 0 < j < |pat| ==> pat[j] != rep[0]
    requires StartsWith(ReplaceAll(u, pat, rep), pat[k..])
    ensures StartsWith(u, pat[k..])
    decreases |u|
  {
    var t := ReplaceAll(u, pat, rep);
    assert t[0] == pat[k];
    if |u| < |pat| {
    } else if StartsWith(u, pat) {
      assert false;
    } else {
      var t' := ReplaceAll(u[1..], pat, rep);
      assert t == [u[0]] + t';
      if k + 1 < |pat| {
        assert t'[..|pat| - k - 1] == pat[k + 1..] by {
          assert t[1..|pat| - k] == t'[..|pat| - k - 1];
          assert t[..|pat| - k] == pat[k..];
        }
        ResultStartingWithPatternTail(u[1..], pat, rep, k + 1);
        assert u[..|pat| - k] == [u[0]] + u[1..][..|pat| - k - 1];
      } else {
        assert u[..1] == [u[0]];
      }
    }
  }

  // ---------------------------------------------------------------------
  // strings.Join and strings.Split on a one-character separator
  // ---------------------------------------------------------------------

  function Join(xs: seq<string>, sep: string): (r: string)
    ensures xs == [] ==> r == ""
    ensures |xs| == 1 ==> r == xs[0]
  {
    if xs == [] then ""
    else if |xs| == 1 then xs[0]
    else xs[0] + sep + Join(xs[1..], sep)
  }

  /** The pieces of `s` between occurrences of `sep` (Go's `strings.Split`). */
  function Split(s: string, sep: char): (r: seq<string>)
    ensures |r| >= 1
    decreases |s|
  {
    if s == [] then [""]
    else if s[0] == sep then [""] + Split(s[1..], sep)
    else
      var rest := Split(s[1..], sep);
      [[s[0]] + rest[0]] + rest[1..]
  }

  lemma {:induction false} SplitAppendWord(w: string, tail: string, sep: char)
    requires sep !in w
    ensures Split(w + [sep] + tail, sep) == [w] + Split(tail, sep)
    ensures Split(w, sep) == [w]
    decreases |w|
  {
    if w == [] {
      assert w + [sep] + tail == [sep] + tail;
      assert ([sep] + tail)[1..] == tail;
    } else {
      SplitAppendWord(w[1..], tail, sep);
      assert (w + [sep] + tail)[1..] == w[1..] + [sep] + tail;
      assert [w[0]] + w[1..] == w;
    }
  }

  /** Splitting a join on the separator gives back the items, when none of
      them contains the separator. */
  lemma {:induction false} SplitJoin(xs: seq<string>, sep: char)
    requires |xs| >= 1
    requires forall i :: 0 <= i < |xs| ==> sep !in xs[i]
    ensures Split(Join(xs, [sep]), sep) == xs
  {
    if |xs| == 1 {
      SplitAppendWord(xs[0], "", sep);
    } else {
      SplitJoin(xs[1..], sep);
      SplitAppendWord(xs[0], Join(xs[1..], [sep]), sep);
      assert [xs[0]] + xs[1..] == xs;
    }
  }

  // ---------------------------------------------------------------------
  // Lexicographic order and sorted enumeration of a set of strings
  // ---------------------------------------------------------------------

  predicate LexLess(a: string, b: string)
    decreases |a|
  {
    |b| > 0 && (|a| == 0 || a[0] < b[0] || (a[0] == b[0] && LexLess(a[1..], b[1..])))
  }

  lemma {:induction false} LexIrreflexive(a: string)
    ensures !LexLess(a, a)
    decreases |a|
  {
    if |a| > 0 { LexIrreflexive(a[1..]); }
  }

  lemma {:induction false} LexTransitive(a: string, b: string, c: string)
    requires LexLess(a, b) && LexLess(b, c)
    ensures LexLess(a, c)
    decreases |a|
  {
    if |a| > 0 && a[0] == b[0] && b[0] == c[0] {
      LexTransitive(a[1..], b[1..], c[1..]);
    }
  }

  lemma {:induction false} LexTotal(a: string, b: string)
    requires a != b
    ensures LexLess(a, b) || LexLess(b, a)
    decreases |a|
  {
    if |a| > 0 && |b| > 0 && a[0] == b[0] {
      assert a == [a[0]] + a[1..] && b == [b[0]] + b[1..];
      LexTotal(a[1..], b[1..]);
    }
  }

  predicate IsLeast(m: string, s: set<string>) {
    m in s && forall x :: x in s && x != m ==> LexLess(m, x)
  }

  lemma {:induction false} LeastExists(s: set<string>)
    requires s != {}
    ensures exists m :: IsLeast(m, s)
    decreases |s|
  {
    var x :| x in s;
    if s == {x} {
      assert IsLeast(x, s);
    } else {
      LeastExists(s - {x});
      var m :| IsLeast(m, s - {x});
      LexTotal(x, m);
      if LexLess(x, m) {
        forall y | y in s && y != x ensures LexLess(x, y) {
          if y != m { LexTransitive(x, m, y); }
        }
        assert IsLeast(x, s);
      } else {
        assert IsLeast(m, s);
      }
    }
  }

  lemma LeastUnique(s: set<string>)
    ensures forall a, b :: IsLeast(a, s) && IsLeast(b, s) ==> a == b
  {
    forall a, b | IsLeast(a, s) && IsLeast(b, s) ensures a == b {
      if a != b {
        LexTransitive(a, b, a);
        LexIrreflexive(a);
      }
    }
  }

  /** The elements of `s`, each once, in increasing lexicographic order. */
  function SortedSeq(s: set<string>): (r: seq<string>)
    ensures |r| == |s|
    ensures forall x :: x in r <==> x in s
    ensures forall i, j :: 0 <= i < j < |r| ==> LexLess(r[i], r[j])
    decreases |s|
  {
    if s == {} then []
    else
      LeastExists(s);
      LeastUnique(s);
      var m :| IsLeast(m, s);
      var rest := SortedSeq(s - {m});
      forall j | 0 <= j < |rest| ensures LexLess(m, rest[j]) {
        assert rest[j] in s - {m};
      }
      [m] + rest
  }

  lemma SortedSeqDistinct(s: set<string>)
    ensures forall i, j :: 0 <= i < j < |SortedSeq(s)| ==> SortedSeq(s)[i] != SortedSeq(s)[j]
  {
    var r := SortedSeq(s);
    forall i, j | 0 <= i < j < |r| ensures r[i] != r[j] {
      LexIrreflexive(r[i]);
    }
  }
}
