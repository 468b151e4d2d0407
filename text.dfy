/**
 * The operations on Python strings that the deployment script uses: `in`
 * (substring test), `str.endswith`, `sep.join(xs)` and `s.split(sep)` with an
 * explicit, non-empty separator. `Find` is the leftmost-occurrence search
 * that `Split` is defined by.
 */
module Text {
  import opened Wrappers

  /** `pat` occurs in `s` starting at index `i`. */
  predicate OccursAt(s: string, pat: string, i: nat)
  {
    i + |pat| <= |s| && s[i..i + |pat|] == pat
  }

  /** Python's `pat in s`. */
  predicate Contains(s: string, pat: string)
  {
    exists i: nat | i <= |s| :: OccursAt(s, pat, i)
  }

  /** Python's `s.endswith(suffix)`. */
  predicate EndsWith(s: string, suffix: string)
  {
    |suffix| <= |s| && s[|s| - |suffix|..] == suffix
  }

  /** An occurrence in `s[1..]` is an occurrence in `s`, one place further right. */
  lemma OccursAtTail(s: string, pat: string, k: nat)
    requires |s| > 0
    ensures OccursAt(s[1..], pat, k) <==> OccursAt(s, pat, k + 1)
  {
    if k + |pat| <= |s[1..]| {
      assert s[1..][k..k + |pat|] == s[k + 1..k + 1 + |pat|];
    }
  }

  /** The leftmost index at which `pat` occurs in `s`, if any (as Python's `s.find(pat)`); `Split` is built on it. */
  function Find(s: string, pat: string): (r: Option<nat>)
    requires pat != []
    ensures r.Some? ==> OccursAt(s, pat, r.value)
    ensures r.Some? ==> forall j: nat :: j < r.value ==> !OccursAt(s, pat, j)
    ensures r.None? <==> !Contains(s, pat)
    decreases |s|
  {
    if |s| < |pat| then None
    else if s[..|pat|] == pat then Some(0)
    else
      var rest := Find(s[1..], pat);
      forall j: nat ensures OccursAt(s[1..], pat, j) <==> OccursAt(s, pat, j + 1) {
        OccursAtTail(s, pat, j);
      }
      assert !OccursAt(s, pat, 0);
      if rest.None? then
        assert forall j: nat :: !OccursAt(s, pat, j) by {
          forall j: nat ensures !OccursAt(s, pat, j) {
            if j > 0 { assert !OccursAt(s[1..], pat, j - 1); }
          }
        }
        None
      else
        assert forall j: nat :: j < rest.value + 1 ==> !OccursAt(s, pat, j) by {
          forall j: nat | j < rest.value + 1 ensures !OccursAt(s, pat, j) {
            if j > 0 { assert !OccursAt(s[1..], pat, j - 1); }
          }
        }
        Some(rest.value + 1)
  }

  /** Python's `sep.join(xs)`. */
  function Join(sep: string, xs: seq<string>): string
  {
    if |xs| == 0 then ""
    else if |xs| == 1 then xs[0]
    else xs[0] + sep + Join(sep, xs[1..])
  }

  /**
   * Python's `s.split(sep)` for a non-empty `sep`: the pieces between the
   * non-overlapping occurrences of `sep`, found left to right. There is always
   * at least one piece (`"".split(", ") == [""]`), joining the pieces again
   * gives `s` back, and no piece contains the separator.
   */
  function Split(s: string, sep: string): (r: seq<string>)
    requires sep != []
    ensures |r| >= 1
    ensures Join(sep, r) == s
    ensures forall k :: 0 <= k < |r| ==> !Contains(r[k], sep)
    decreases |s|
  {
    match Find(s, sep)
    case None => [s]
    case Some(i) =>
      var head := s[..i];
      var rest := Split(s[i + |sep|..], sep);
      assert !Contains(head, sep) by {
        forall j: nat | OccursAt(head, sep, j) ensures false {
          assert s[j..j + |sep|] == head[j..j + |sep|];
          assert OccursAt(s, sep, j);
        }
      }
      assert Join(sep, [head] + rest) == s by {
        assert ([head] + rest)[1..] == rest;
        assert s == head + sep + s[i + |sep|..];
      }
      [head] + rest
  }

  /**
   * A separator of two distinct characters, like `", "`: an occurrence of it
   * can never straddle the end of a piece and the separator that follows it.
   */
  predicate UnborderedPair(sep: string)
  {
    |sep| == 2 && sep[0] != sep[1]
  }

  /** `x + sep + rest` finds `sep` first at `|x|` when `x` does not contain it. */
  lemma FindAfterPiece(x: string, sep: string, rest: string)
    requires UnborderedPair(sep) && !Contains(x, sep)
    ensures Find(x + sep + rest, sep) == Some(|x|)
  {
    var s := x + sep + rest;
    assert OccursAt(s, sep, |x|) by { assert s[|x|..|x| + 2] == sep; }
    forall j: nat | j < |x| && OccursAt(s, sep, j) ensures false {
      if j + 2 <= |x| {
        assert x[j..j + 2] == s[j..j + 2];
        assert OccursAt(x, sep, j);
      }
    }
  }

  /** Splitting `x + sep + rest` yields `x` first when `x` does not contain `sep`. */
  lemma SplitAfterPiece(x: string, sep: string, rest: string)
    requires UnborderedPair(sep) && !Contains(x, sep)
    ensures Split(x + sep + rest, sep) == [x] + Split(rest, sep)
  {
    var s := x + sep + rest;
    FindAfterPiece(x, sep, rest);
    assert s[..|x|] == x;
    assert s[|x| + |sep|..] == rest;
  }

  /**
   * Split/join round trip: splitting the join of a non-empty list of pieces,
   * none of which contains the separator, gives back exactly those pieces.
   */
  lemma {:induction false} SplitJoin(sep: string, xs: seq<string>)
    requires UnborderedPair(sep)
    requires |xs| >= 1
    requires forall k :: 0 <= k < |xs| ==> !Contains(xs[k], sep)
    ensures Split(Join(sep, xs), sep) == xs
  {
    if |xs| == 1 {
      assert Join(sep, xs) == xs[0];
    } else {
      var tail := xs[1..];
      assert Join(sep, xs) == xs[0] + sep + Join(sep, tail);
      SplitAfterPiece(xs[0], sep, Join(sep, tail));
      assert forall k :: 0 <= k < |tail| ==> !Contains(tail[k], sep) by {
        forall k | 0 <= k < |tail| ensures !Contains(tail[k], sep) {
          assert tail[k] == xs[k + 1];
        }
      }
      SplitJoin(sep, tail);
      assert xs == [xs[0]] + tail;
    }
  }

  /** The empty string splits into one empty piece, not into no pieces. */
  lemma SplitEmpty(sep: string)
    requires sep != []
    ensures Split("", sep) == [""]
  {
    assert !OccursAt("", sep, 0);
  }
}
