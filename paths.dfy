/**
 * `realpath`, the path canonicalisation of the loader: one global replace of
 * "/./", one global replace collapsing runs of slashes after an ordinary
 * character, then a loop that removes the leftmost "/segment/../" until none is
 * left. Each regular expression is written out as the scan a JavaScript
 * `String.prototype.replace` with that pattern performs.
 */
module Paths {
  import opened Wrappers

  // ---- `path.replace(/\/\.\//g, "/")` ----

  /** "/./" occurs at `i`. */
  predicate DotAt(s: string, i: int) {
    0 <= i && i + 3 <= |s| && s[i] == '/' && s[i + 1] == '.' && s[i + 2] == '/'
  }

  /**
   * The global replace: scanning left to right, each "/./" found becomes "/" and the
   * scan resumes after it, so matches never overlap ("/././" leaves "/./").
   */
  function ReplaceDots(s: string): (r: string)
    ensures |r| <= |s|
    ensures (forall i :: !DotAt(s, i)) ==> r == s
    ensures |s| > 0 ==> |r| > 0 && r[0] == s[0]
  {
    if |s| == 0 then []
    else if DotAt(s, 0) then
      assert forall i :: DotAt(s[3..], i) ==> DotAt(s, i + 3);
      "/" + ReplaceDots(s[3..])
    else
      assert forall i :: DotAt(s[1..], i) ==> DotAt(s, i + 1);
      [s[0]] + ReplaceDots(s[1..])
  }

  // ---- `path.replace(/([^:/])\/+\//g, "$1/")` ----

  /** A character other than ':' and '/' followed by two slashes at `i`: where the pattern matches. */
  predicate SlashesAt(s: string, i: int) {
    0 <= i && i + 3 <= |s| && s[i] != ':' && s[i] != '/' && s[i + 1] == '/' && s[i + 2] == '/'
  }

  /** The length of the run of slashes `s` starts with. */
  function SlashRun(s: string): (n: nat)
    ensures n <= |s|
    ensures forall k :: 0 <= k < n ==> s[k] == '/'
    ensures n < |s| ==> s[n] != '/'
  {
    if |s| > 0 && s[0] == '/' then 1 + SlashRun(s[1..]) else 0
  }

  /**
   * The global replace: at a match, the character and its whole run of slashes (the
   * greedy `\/+\/`) become the character and one slash; elsewhere the character is
   * kept and the scan moves on by one.
   */
  function CollapseSlashes(s: string): (r: string)
    ensures |r| <= |s|
    ensures |s| > 0 ==> |r| > 0 && r[0] == s[0]
    ensures (forall i :: !SlashesAt(s, i)) ==> r == s
    decreases |s|
  {
    if |s| == 0 then []
    else if SlashesAt(s, 0) then
      var k := SlashRun(s[1..]);
      assert k >= 2;
      [s[0], '/'] + CollapseSlashes(s[1 + k..])
    else
      assert forall i :: SlashesAt(s[1..], i) ==> SlashesAt(s, i + 1);
      [s[0]] + CollapseSlashes(s[1..])
  }

  /** After the replace no ordinary character is followed by two slashes: one pass removes them all. */
  lemma {:induction false} CollapseSlashesComplete(s: string)
    ensures forall i :: !SlashesAt(CollapseSlashes(s), i)
    decreases |s|
  {
    var r := CollapseSlashes(s);
    if |s| == 0 {
    } else if SlashesAt(s, 0) {
      var k := SlashRun(s[1..]);
      var rest := CollapseSlashes(s[1 + k..]);
      CollapseSlashesComplete(s[1 + k..]);
      assert r == [s[0], '/'] + rest;
      assert |rest| > 0 ==> rest[0] == s[1 + k] && rest[0] != '/';
      forall i | SlashesAt(r, i) ensures false {
        if i >= 2 {
          assert SlashesAt(rest, i - 2);
        }
      }
    } else {
      var rest := CollapseSlashes(s[1..]);
      CollapseSlashesComplete(s[1..]);
      assert r == [s[0]] + rest;
      if |s| >= 3 && s[1] == '/' {
        assert !SlashesAt(s[1..], 0);
        assert s[1..][1..] == s[2..];
        assert rest == [s[1]] + CollapseSlashes(s[2..]);
        assert rest[1] == s[2];
      }
      forall i | SlashesAt(r, i) ensures false {
        if i >= 1 {
          assert SlashesAt(rest, i - 1);
        }
      }
    }
  }

  // ---- `while (path.match(/\/[^/]+\/\.\.\//)) path = path.replace(…, "/")` ----

  /** The first slash at or after `k`, or `|s|` when there is none. */
  function NextSlash(s: string, k: nat): (j: nat)
    requires k <= |s|
    ensures k <= j <= |s| && (j < |s| ==> s[j] == '/')
    ensures forall x :: k <= x < j ==> s[x] != '/'
    decreases |s| - k
  {
    if k == |s| || s[k] == '/' then k else NextSlash(s, k + 1)
  }

  /**
   * "/segment/../" starts at `i`: a slash, a non-empty run of non-slashes (which may
   * itself be ".."), then "/../".
   */
  predicate UpAt(s: string, i: int) {
    0 <= i < |s| && s[i] == '/' &&
    var j := NextSlash(s, i + 1);
    i + 1 < j && j + 4 <= |s| && s[j + 1] == '.' && s[j + 2] == '.' && s[j + 3] == '/'
  }

  /** The leftmost match at or after `from`, as a regular expression search finds it. */
  function FindUp(s: string, from: nat): (r: Option<nat>)
    ensures r.Some? ==> from <= r.value && UpAt(s, r.value) && forall i :: from <= i < r.value ==> !UpAt(s, i)
    ensures r.None? ==> forall i :: from <= i ==> !UpAt(s, i)
    decreases |s| - from
  {
    if from >= |s| then None
    else if UpAt(s, from) then Some(from)
    else FindUp(s, from + 1)
  }

  /** One `replace`: the leftmost "/segment/../" becomes "/". */
  function StepUp(s: string, i: nat): (r: string)
    requires UpAt(s, i)
    ensures |r| < |s|
  {
    s[..i] + "/" + s[NextSlash(s, i + 1) + 4..]
  }

  /** The loop, as a function: step until no "/segment/../" is left. */
  function CollapseUps(s: string): (r: string)
    ensures |r| <= |s|
    ensures forall i :: !UpAt(r, i)
    ensures (forall i :: !UpAt(s, i)) ==> r == s
    decreases |s|
  {
    match FindUp(s, 0)
    case None => s
    case Some(i) => CollapseUps(StepUp(s, i))
  }

  /** The whole canonicalisation. */
  function Canonical(path: string): string {
    CollapseUps(CollapseSlashes(ReplaceDots(path)))
  }

  /**
   * `realpath(path)`: the two replaces, then the loop in place on `path`. The result
   * is `Canonical(path)`.
   */
  method Realpath(path: string) returns (r: string)
    ensures r == Canonical(path)
  {
    r := ReplaceDots(path);
    r := CollapseSlashes(r);
    ghost var start := r;
    var m := FindUp(r, 0);
    while m.Some?
      invariant m == FindUp(r, 0)
      invariant CollapseUps(r) == CollapseUps(start)
      decreases |r|
    {
      r := StepUp(r, m.value);
      m := FindUp(r, 0);
    }
  }

  /** A path with no "/./", no doubled slash after an ordinary character and no "/segment/../" is its own canonical form. */
  lemma CanonicalFixes(path: string)
    requires forall i :: !DotAt(path, i)
    requires forall i :: !SlashesAt(path, i)
    requires forall i :: !UpAt(path, i)
    ensures Canonical(path) == path
  {
  }
}
