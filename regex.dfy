/** The two shapes of regular expression (seven expressions in all) the dashboard's narrative
    helpers run on the portfolio analysis text, each as an explicit left-to-right scan with
    the `i` flag and without the `m` and `s` flags: `.` matches every character but a line
    terminator, `$` is the end of the input, and ASCII letters of the pattern match either
    case.

      - `word(.+?)(\.|$)`           lazy capture up to the next full stop or the end, for the
                                    words "Recommend ", "focus", "attention" and "address";
      - `(\d+)\s*projects.*?colour` a digit run before "projects" and a colour on that line,
                                    for "Green", "Amber" and "Red".

    Each scan is proved against a declarative statement of what the expression matches. */
module Regex {
  import opened Outcomes
  import Js

  // ---------------------------------------------------------------------------------------
  // (.+?)(\.|$) anchored at a position

  /** The group `(.+?)` of length `n` starting at `p` can be followed by `(\.|$)`. */
  ghost predicate StopMatch(s: string, p: nat, n: int) {
    1 <= n && p + n <= |s|
    && (forall k :: p <= k < p + n ==> !Js.IsLineTerminator(s[k]))
    && (p + n == |s| || s[p + n] == '.')
  }

  /** The first position at or after `j` holding a full stop or a line terminator, or the end. */
  function StopFrom(s: string, j: nat): (e: nat)
    requires j <= |s|
    ensures j <= e <= |s|
    ensures e < |s| ==> s[e] == '.' || Js.IsLineTerminator(s[e])
    ensures forall k :: j <= k < e ==> s[k] != '.' && !Js.IsLineTerminator(s[k])
    decreases |s| - j
  {
    if j == |s| || s[j] == '.' || Js.IsLineTerminator(s[j]) then j else StopFrom(s, j + 1)
  }

  /** `(.+?)(\.|$)` tried at position `p`: the captured text, or `None` when no match starts
      there. The first character is taken whatever it is (a full stop too), then characters
      up to the next full stop or the end; a line terminator on the way fails the match. */
  function LazyToStop(s: string, p: nat): (r: Option<string>)
    requires p <= |s|
    ensures r.Some? ==> StopMatch(s, p, |r.value|) && r.value == s[p..p + |r.value|]
    ensures r.Some? ==> forall n :: 1 <= n < |r.value| ==> !StopMatch(s, p, n)
    ensures r.None? ==> forall n :: !StopMatch(s, p, n)
  {
    if p == |s| || Js.IsLineTerminator(s[p]) then None
    else
      var e := StopFrom(s, p + 1);
      if e == |s| || s[e] == '.' then Some(s[p..e])
      else
        assert e < |s| && Js.IsLineTerminator(s[e]);
        None
  }

  // ---------------------------------------------------------------------------------------
  // word(.+?)(\.|$): leftmost match

  /** A match of `word(.+?)(\.|$)` starts at `i`. */
  ghost predicate LazyMatchAt(s: string, w: string, i: int) {
    Js.OccursAtIgnoreCase(s, w, i) && LazyToStop(s, i + |w|).Some?
  }

  /** `s.match(/word(.+?)(\.|$)/i)[1]` searched from position `from`: the capture of the
      leftmost match. */
  function SearchLazy(s: string, w: string, from: nat): (r: Option<string>)
    requires from <= |s|
    decreases |s| - from
  {
    if from + |w| > |s| then None
    else if Js.OccursAtIgnoreCase(s, w, from) && LazyToStop(s, from + |w|).Some? then LazyToStop(s, from + |w|)
    else if from == |s| then None
    else SearchLazy(s, w, from + 1)
  }

  /** The search finds a match iff one starts at or after `from`, and then it returns the
      capture of the leftmost one. */
  lemma {:induction false} SearchLazyLeftmost(s: string, w: string, from: nat)
    requires from <= |s|
    ensures SearchLazy(s, w, from).Some? <==> exists i :: from <= i && LazyMatchAt(s, w, i)
    ensures SearchLazy(s, w, from).Some? ==>
              exists i :: from <= i && LazyMatchAt(s, w, i) && SearchLazy(s, w, from) == LazyToStop(s, i + |w|)
                          && forall j :: from <= j < i ==> !LazyMatchAt(s, w, j)
    decreases |s| - from
  {
    if from + |w| > |s| {
      assert forall i :: from <= i ==> !Js.OccursAtIgnoreCase(s, w, i);
    } else if LazyMatchAt(s, w, from) {
    } else if from == |s| {
      assert forall i :: from < i ==> !Js.OccursAtIgnoreCase(s, w, i);
    } else {
      SearchLazyLeftmost(s, w, from + 1);
      assert forall i :: from <= i && LazyMatchAt(s, w, i) ==> from + 1 <= i;
      if SearchLazy(s, w, from).Some? {
        var i :| from + 1 <= i && LazyMatchAt(s, w, i) && SearchLazy(s, w, from + 1) == LazyToStop(s, i + |w|)
                 && forall j :: from + 1 <= j < i ==> !LazyMatchAt(s, w, j);
        assert forall j :: from <= j < i ==> !LazyMatchAt(s, w, j);
      }
    }
  }

  /** A capture of `(.+?)` is never empty. */
  lemma {:induction false} SearchLazyNonEmpty(s: string, w: string)
    ensures SearchLazy(s, w, 0).Some? ==> |SearchLazy(s, w, 0).value| >= 1
  {
    SearchLazyLeftmost(s, w, 0);
  }

  /** Some match of `word(.+?)(\.|$)` exists. */
  ghost predicate HasLazyMatch(s: string, w: string) {
    exists i :: LazyMatchAt(s, w, i)
  }

  /** The leftmost match of `word(.+?)(\.|$)` starts at `i`. */
  ghost predicate FirstLazyMatch(s: string, w: string, i: int) {
    LazyMatchAt(s, w, i) && forall j :: 0 <= j < i ==> !LazyMatchAt(s, w, j)
  }

  /** The search from `from` returns the capture of the first match at or after `from`. */
  lemma {:induction false} SearchLazyReaches(s: string, w: string, from: nat, i: int)
    requires from <= i && LazyMatchAt(s, w, i)
    requires forall j :: from <= j < i ==> !LazyMatchAt(s, w, j)
    ensures from <= |s| && SearchLazy(s, w, from) == LazyToStop(s, i + |w|)
    decreases i - from
  {
    if from < i {
      assert !LazyMatchAt(s, w, from);
      SearchLazyReaches(s, w, from + 1, i);
    }
  }

  /** The search from the start returns the capture of the leftmost match. */
  lemma {:induction false} SearchLazyFinds(s: string, w: string, i: int)
    requires FirstLazyMatch(s, w, i)
    ensures SearchLazy(s, w, 0) == LazyToStop(s, i + |w|)
  {
    assert 0 <= i;
    SearchLazyReaches(s, w, 0, i);
  }

  /** Without a match the search returns nothing. */
  lemma {:induction false} SearchLazyMisses(s: string, w: string)
    requires !HasLazyMatch(s, w)
    ensures SearchLazy(s, w, 0).None?
  {
    SearchLazyLeftmost(s, w, 0);
  }

  // ---------------------------------------------------------------------------------------
  // (\d+)\s*projects.*?colour: leftmost match

  const ProjectsWord := "projects"

  /** The first position at or after `j` that is not a digit. */
  function DigitsEnd(s: string, j: nat): (e: nat)
    requires j <= |s|
    ensures j <= e <= |s| && (e < |s| ==> !Js.IsDigit(s[e]))
    ensures forall k :: j <= k < e ==> Js.IsDigit(s[k])
    decreases |s| - j
  {
    if j < |s| && Js.IsDigit(s[j]) then DigitsEnd(s, j + 1) else j
  }

  /** The first position at or after `j` that is not white space. */
  function WhiteEnd(s: string, j: nat): (e: nat)
    requires j <= |s|
    ensures j <= e <= |s| && (e < |s| ==> !Js.IsWhite(s[e]))
    ensures forall k :: j <= k < e ==> Js.IsWhite(s[k])
    decreases |s| - j
  {
    if j < |s| && Js.IsWhite(s[j]) then WhiteEnd(s, j + 1) else j
  }

  /** `w` occurs, ignoring case, at some position `q >= j` with no line terminator between. */
  ghost predicate OnSameLine(s: string, w: string, j: nat, q: int) {
    j <= q && Js.OccursAtIgnoreCase(s, w, q) && forall k :: j <= k < q ==> !Js.IsLineTerminator(s[k])
  }

  /** `.*?w` tried at position `j`: the lazy group takes zero characters first, then one more
      at a time, never a line terminator. */
  function LazyReaches(s: string, w: string, j: nat): (b: bool)
    requires j <= |s|
    ensures b <==> exists q :: OnSameLine(s, w, j, q)
    decreases |s| - j
  {
    if Js.OccursAtIgnoreCase(s, w, j) then
      assert OnSameLine(s, w, j, j);
      true
    else if j == |s| || Js.IsLineTerminator(s[j]) then
      assert j < |s| ==> Js.IsLineTerminator(s[j]);
      false
    else
      var b := LazyReaches(s, w, j + 1);
      assert b ==> exists q :: OnSameLine(s, w, j, q) by {
        if b {
          var q :| OnSameLine(s, w, j + 1, q);
          assert OnSameLine(s, w, j, q);
        }
      }
      assert (exists q :: OnSameLine(s, w, j, q)) ==> b by {
        if exists q :: OnSameLine(s, w, j, q) {
          var q :| OnSameLine(s, w, j, q);
          assert q != j;
          assert OnSameLine(s, w, j + 1, q);
        }
      }
      b
  }

  /** `(\d+)\s*projects.*?colour` tried at position `i`: the digit run, or `None`. The digit
      run and the white space are taken greedily; giving either back cannot help, since the
      next character would then be a digit or white space and not the "p" of "projects". */
  function CountAt(s: string, colour: string, i: nat): (r: Option<string>)
    requires i <= |s|
    ensures r.Some? ==> |r.value| >= 1 && (forall k :: 0 <= k < |r.value| ==> Js.IsDigit(r.value[k]))
                        && i + |r.value| <= |s| && r.value == s[i..i + |r.value|]
                        && (i + |r.value| == |s| || !Js.IsDigit(s[i + |r.value|]))
  {
    if i < |s| && Js.IsDigit(s[i]) then
      var d := DigitsEnd(s, i);
      var w := WhiteEnd(s, d);
      if Js.OccursAtIgnoreCase(s, ProjectsWord, w) && LazyReaches(s, colour, w + |ProjectsWord|) then Some(s[i..d])
      else None
    else None
  }

  /** What `CountAt` accepts, stated without the scans: a maximal digit run at `i`, then white
      space, then "projects", then the colour later on the same line. */
  ghost predicate CountMatchAt(s: string, colour: string, i: nat, d: nat, w: nat, e: nat) {
    i < d <= w <= |s| && e == w + |ProjectsWord|
    && (forall k :: i <= k < d ==> Js.IsDigit(s[k])) && (d == |s| || !Js.IsDigit(s[d]))
    && (forall k :: d <= k < w ==> Js.IsWhite(s[k])) && (w == |s| || !Js.IsWhite(s[w]))
    && Js.OccursAtIgnoreCase(s, ProjectsWord, w)
    && exists q :: OnSameLine(s, colour, e, q)
  }

  lemma {:induction false} CountAtMeaning(s: string, colour: string, i: nat)
    requires i <= |s|
    ensures CountAt(s, colour, i).Some? <==> exists d: nat, w: nat, e: nat :: CountMatchAt(s, colour, i, d, w, e)
    ensures forall d: nat, w: nat, e: nat :: CountMatchAt(s, colour, i, d, w, e) ==> CountAt(s, colour, i) == Some(s[i..d])
  {
    forall d: nat, w: nat, e: nat | CountMatchAt(s, colour, i, d, w, e)
      ensures d == DigitsEnd(s, i) && w == WhiteEnd(s, d)
    {
      var d' := DigitsEnd(s, i);
      assert d < |s| ==> !Js.IsDigit(s[d]);
      assert d' < |s| ==> !Js.IsDigit(s[d']);
      var w' := WhiteEnd(s, d);
      assert w < |s| ==> !Js.IsWhite(s[w]);
      assert w' < |s| ==> !Js.IsWhite(s[w']);
    }
    if CountAt(s, colour, i).Some? {
      var d := DigitsEnd(s, i);
      var w := WhiteEnd(s, d);
      assert CountMatchAt(s, colour, i, d, w, w + |ProjectsWord|);
    }
  }

  /** `s.match(/(\d+)\s*projects.*?colour/i)[1]` searched from position `from`. */
  function SearchCount(s: string, colour: string, from: nat): (r: Option<string>)
    requires from <= |s|
    ensures r.Some? <==> exists i :: from <= i <= |s| && CountAt(s, colour, i).Some?
    ensures r.Some? ==> exists i :: from <= i <= |s| && r == CountAt(s, colour, i)
                                   && forall j :: from <= j < i ==> CountAt(s, colour, j).None?
    ensures r.Some? ==> |r.value| >= 1 && forall k :: 0 <= k < |r.value| ==> Js.IsDigit(r.value[k])
    decreases |s| - from
  {
    if CountAt(s, colour, from).Some? then CountAt(s, colour, from)
    else if from == |s| then None
    else
      var r := SearchCount(s, colour, from + 1);
      assert forall i :: from <= i <= |s| && CountAt(s, colour, i).Some? ==> from + 1 <= i;
      r
  }
}
