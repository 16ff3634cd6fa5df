// Literal string search and replacement, as JavaScript's String.prototype.replace
// does it for a literal pattern: the first occurrence only for a string pattern,
// every leftmost non-overlapping occurrence for a global pattern.

module Strings {
  import opened Wrappers

  /** JavaScript's `a || b` on strings: the empty string is the only falsy one. */
  function Or(a: string, b: string): string {
    if a == "" then b else a
  }

  /** `pat` occurs in `s` starting at index `j`. */
  predicate At(s: string, pat: string, j: nat) {
    j + |pat| <= |s| && s[j..j + |pat|] == pat
  }

  predicate Occurs(pat: string, s: string) {
    exists j: nat :: j <= |s| && At(s, pat, j)
  }

  /** The index of the leftmost occurrence of `pat` in `s`, if any. */
  function FirstIndex(s: string, pat: string): (r: Option<nat>)
    ensures r.Some? ==> At(s, pat, r.value) && forall j: nat :: j < r.value ==> !At(s, pat, j)
    ensures r.None? ==> forall j: nat :: j <= |s| ==> !At(s, pat, j)
    decreases |s|
  {
    if |s| < |pat| then
      None
    else if s[..|pat|] == pat then
      Some(0)
    else
      match FirstIndex(s[1..], pat)
      case None =>
        assert forall j: nat :: 1 <= j <= |s| && At(s, pat, j) ==> At(s[1..], pat, j - 1);
        None
      case Some(i) =>
        assert forall j: nat :: 1 <= j < i + 1 && At(s, pat, j) ==> At(s[1..], pat, j - 1);
        assert s[1..][i..i + |pat|] == s[i + 1..i + 1 + |pat|];
        Some(i + 1)
  }

  /** The first occurrence of `pat` replaced by `rep`; `s` itself when there is none. */
  function ReplaceFirst(s: string, pat: string, rep: string): (r: string)
    ensures FirstIndex(s, pat).None? ==> r == s
    ensures FirstIndex(s, pat).Some? ==>
      var i := FirstIndex(s, pat).value;
      |r| == |s| - |pat| + |rep| && r[..i] == s[..i] && r[i..i + |rep|] == rep && r[i + |rep|..] == s[i + |pat|..]
  {
    match FirstIndex(s, pat)
    case None => s
    case Some(i) => s[..i] + rep + s[i + |pat|..]
  }

  /** Every leftmost non-overlapping occurrence of `pat` replaced by `rep`, scanning left to right. */
  function ReplaceAll(s: string, pat: string, rep: string): (r: string)
    requires |pat| > 0
    ensures |rep| == |pat| ==> |r| == |s|
    ensures |rep| <= |pat| ==> |r| <= |s|
    decreases |s|
  {
    if |s| < |pat| then s
    else if s[..|pat|] == pat then rep + ReplaceAll(s[|pat|..], pat, rep)
    else [s[0]] + ReplaceAll(s[1..], pat, rep)
  }

  /** The pieces of `s` between the leftmost non-overlapping occurrences of `pat`. */
  function Split(s: string, pat: string): (pieces: seq<string>)
    requires |pat| > 0
    ensures |pieces| > 0
    decreases |s|
  {
    if |s| < |pat| then [s]
    else if s[..|pat|] == pat then [""] + Split(s[|pat|..], pat)
    else
      var rest := Split(s[1..], pat);
      [[s[0]] + rest[0]] + rest[1..]
  }

  /** The pieces glued together with `sep` between neighbours. */
  function Join(pieces: seq<string>, sep: string): (r: string)
    ensures |pieces| > 0 ==> |pieces[0]| <= |r| && r[..|pieces[0]|] == pieces[0]
  {
    if |pieces| == 0 then ""
    else if |pieces| == 1 then pieces[0]
    else pieces[0] + sep + Join(pieces[1..], sep)
  }

  /** Gluing the pieces back with the pattern gives the original string. */
  lemma {:induction false} SplitJoinRoundTrip(s: string, pat: string)
    requires |pat| > 0
    ensures Join(Split(s, pat), pat) == s
    decreases |s|
  {
    if |s| < |pat| {
    } else if s[..|pat|] == pat {
      SplitJoinRoundTrip(s[|pat|..], pat);
      JoinConsEmpty(Split(s[|pat|..], pat), pat);
      assert s == pat + s[|pat|..];
    } else {
      SplitJoinRoundTrip(s[1..], pat);
      JoinConsFirst(Split(s[1..], pat), s[0], pat);
      assert s == [s[0]] + s[1..];
    }
  }

  /** An empty first piece puts the separator first. */
  lemma JoinConsEmpty(rest: seq<string>, sep: string)
    requires |rest| > 0
    ensures Join([""] + rest, sep) == sep + Join(rest, sep)
  {
    assert ([""] + rest)[1..] == rest;
  }

  /** Prefixing the first piece prefixes the joined string. */
  lemma JoinConsFirst(rest: seq<string>, c: char, sep: string)
    requires |rest| > 0
    ensures Join([[c] + rest[0]] + rest[1..], sep) == [c] + Join(rest, sep)
  {
    if |rest| > 1 {
      assert ([[c] + rest[0]] + rest[1..])[1..] == rest[1..];
    }
  }

  /** Global replacement puts `rep` exactly where the pattern separated the pieces. */
  lemma {:induction false} ReplaceAllIsSplitJoin(s: string, pat: string, rep: string)
    requires |pat| > 0
    ensures ReplaceAll(s, pat, rep) == Join(Split(s, pat), rep)
    decreases |s|
  {
    if |s| < |pat| {
    } else if s[..|pat|] == pat {
      ReplaceAllIsSplitJoin(s[|pat|..], pat, rep);
    } else {
      ReplaceAllIsSplitJoin(s[1..], pat, rep);
      JoinConsFirst(Split(s[1..], pat), s[0], rep);
    }
  }

  /** No piece contains the pattern: every occurrence was a separator. */
  lemma {:induction false} SplitPiecesFree(s: string, pat: string)
    requires |pat| > 0
    ensures forall k :: 0 <= k < |Split(s, pat)| ==> !Occurs(pat, Split(s, pat)[k])
    decreases |s|
  {
    var pieces := Split(s, pat);
    if |s| < |pat| {
      forall j: nat | j <= |s| ensures !At(s, pat, j) {}
    } else if s[..|pat|] == pat {
      SplitPiecesFree(s[|pat|..], pat);
      assert pieces[1..] == Split(s[|pat|..], pat);
      forall k | 0 <= k < |pieces| ensures !Occurs(pat, pieces[k]) {
        if k > 0 {
          assert pieces[k] == Split(s[|pat|..], pat)[k - 1];
        }
      }
    } else {
      SplitPiecesFree(s[1..], pat);
      var rest := Split(s[1..], pat);
      SplitFirstIsPrefix(s[1..], pat);
      forall k | 0 <= k < |pieces| ensures !Occurs(pat, pieces[k]) {
        if k > 0 {
          assert pieces[k] == rest[k];
        } else {
          FirstPieceFree(s, pat, rest[0]);
        }
      }
    }
  }

  /** The first piece is a prefix of the string. */
  lemma {:induction false} SplitFirstIsPrefix(s: string, pat: string)
    requires |pat| > 0
    ensures |Split(s, pat)[0]| <= |s| && Split(s, pat)[0] == s[..|Split(s, pat)[0]|]
    decreases |s|
  {
    if |s| < |pat| {
      assert Split(s, pat) == [s];
    } else if s[..|pat|] == pat {
      assert Split(s, pat)[0] == "";
    } else {
      SplitFirstIsPrefix(s[1..], pat);
      var rest := Split(s[1..], pat);
      var n := |rest[0]|;
      assert rest[0] == s[1..][..n];
      assert Split(s, pat)[0] == [s[0]] + rest[0];
      assert s[..n + 1] == [s[0]] + s[1..][..n];
    }
  }

  /** A character that does not start the pattern, followed by a pattern-free prefix of the rest, is pattern-free. */
  lemma FirstPieceFree(s: string, pat: string, p: string)
    requires |pat| > 0 && |s| >= |pat| && s[..|pat|] != pat
    requires |p| <= |s| - 1 && p == s[1..][..|p|] && !Occurs(pat, p)
    ensures !Occurs(pat, [s[0]] + p)
  {
    var q := [s[0]] + p;
    assert q == s[..|q|];
    forall j: nat | j <= |q| ensures !At(q, pat, j) {
      if j == 0 {
        if |pat| <= |q| {
          assert q[..|pat|] == s[..|pat|];
        }
      } else if j + |pat| <= |q| {
        assert q[j..j + |pat|] == p[j - 1..j - 1 + |pat|];
        assert !At(p, pat, j - 1);
      }
    }
  }

  /** Replacing a pattern by itself changes nothing. */
  lemma ReplaceAllSelf(s: string, pat: string)
    requires |pat| > 0
    ensures ReplaceAll(s, pat, pat) == s
  {
    ReplaceAllIsSplitJoin(s, pat, pat);
    SplitJoinRoundTrip(s, pat);
  }

  /** A string without the pattern is left alone by global replacement. */
  lemma {:induction false} ReplaceAllAbsent(s: string, pat: string, rep: string)
    requires |pat| > 0 && !Occurs(pat, s)
    ensures ReplaceAll(s, pat, rep) == s
    decreases |s|
  {
    if |s| >= |pat| {
      assert !At(s, pat, 0);
      assert s[..|pat|] != pat;
      forall j: nat | j <= |s[1..]| ensures !At(s[1..], pat, j) {
        if j + |pat| <= |s[1..]| {
          assert s[1..][j..j + |pat|] == s[j + 1..j + 1 + |pat|];
          assert !At(s, pat, j + 1);
        }
      }
      ReplaceAllAbsent(s[1..], pat, rep);
    }
  }

  /** A string without the pattern is left alone by first-occurrence replacement. */
  lemma ReplaceFirstAbsent(s: string, pat: string, rep: string)
    requires !Occurs(pat, s)
    ensures ReplaceFirst(s, pat, rep) == s
  {
  }

  /** A string in which `pre` never occurs contains nothing that starts with `pre`. */
  lemma AbsentPrefix(s: string, pre: string, pat: string)
    requires |pre| <= |pat| && pat[..|pre|] == pre && !Occurs(pre, s)
    ensures !Occurs(pat, s)
  {
    forall j: nat | j <= |s| ensures !At(s, pat, j) {
      if j + |pat| <= |s| {
        assert s[j..j + |pre|] == s[j..j + |pat|][..|pre|];
        assert !At(s, pre, j);
      }
    }
  }

  /** A prefix of a string without the pattern is without it too. */
  lemma PrefixAbsent(s: string, pat: string, k: nat)
    requires k <= |s| && !Occurs(pat, s)
    ensures !Occurs(pat, s[..k])
  {
    forall j: nat | j <= k ensures !At(s[..k], pat, j) {
      if j + |pat| <= k {
        assert s[..k][j..j + |pat|] == s[j..j + |pat|];
        assert !At(s, pat, j);
      }
    }
  }

  /** A string without the pattern splits into itself alone. */
  lemma {:induction false} SplitOfAbsent(s: string, pat: string)
    requires |pat| > 0 && !Occurs(pat, s)
    ensures Split(s, pat) == [s]
    decreases |s|
  {
    if |s| >= |pat| {
      assert !At(s, pat, 0);
      assert s[..|pat|] != pat;
      forall j: nat | j <= |s[1..]| ensures !At(s[1..], pat, j) {
        if j + |pat| <= |s[1..]| {
          assert s[1..][j..j + |pat|] == s[j + 1..j + 1 + |pat|];
          assert !At(s, pat, j + 1);
        }
      }
      SplitOfAbsent(s[1..], pat);
      assert [s[0]] + s[1..] == s;
    }
  }
}
