/**
 * The version lookup of `get_new_version`: a regular-expression search for
 * `packages/<pkg>-\s*([\d.]+)` in the package index page, whose first group
 * loses its last character. The search is stated here without regular
 * expressions: `MatchesAt` says where the pattern matches and `Group` what
 * its group captures, and `Search` finds the leftmost match.
 */
module PackageIndex {
  import opened Host
  import opened Text

  /** What `[\d.]` is taken to match: the ASCII digits and the dot. Python 3's
      `\d` also matches other Unicode decimal digits, which are not modelled. */
  predicate IsVersionChar(c: char)
  {
    ('0' <= c <= '9') || c == '.'
  }

  /** The literal part of the pattern. The package name is inserted unescaped;
      for the names used here it holds no regular-expression metacharacter. */
  function Anchor(pkg: string): string
  {
    "packages/" + pkg + "-"
  }

  /** End of the white-space run starting at `i` (what greedy `\s*` consumes). */
  function SkipSpace(s: string, i: nat): (j: nat)
    requires i <= |s|
    ensures i <= j <= |s|
    ensures forall k :: i <= k < j ==> IsSpace(s[k])
    ensures j == |s| || !IsSpace(s[j])
    decreases |s| - i
  {
    if i < |s| && IsSpace(s[i]) then SkipSpace(s, i + 1) else i
  }

  /** End of the `[\d.]` run starting at `i` (what greedy `[\d.]+` consumes). */
  function VersionEnd(s: string, i: nat): (j: nat)
    requires i <= |s|
    ensures i <= j <= |s|
    ensures forall k :: i <= k < j ==> IsVersionChar(s[k])
    ensures j == |s| || !IsVersionChar(s[j])
    decreases |s| - i
  {
    if i < |s| && IsVersionChar(s[i]) then VersionEnd(s, i + 1) else i
  }

  /** The pattern matches at `i`: the anchor, then white space, then at least one
      version character. White space and version characters are disjoint, so
      giving back white space never helps, and this is the only way to match. */
  predicate MatchesAt(s: string, pkg: string, i: nat)
  {
    var a := Anchor(pkg);
    i + |a| <= |s| && s[i..i + |a|] == a &&
    var j := SkipSpace(s, i + |a|);
    j < |s| && IsVersionChar(s[j])
  }

  /** Group 1 of the match at `i`: the longest run of version characters. */
  function Group(s: string, pkg: string, i: nat): (g: string)
    requires MatchesAt(s, pkg, i)
    ensures |g| >= 1
    ensures forall t :: 0 <= t < |g| ==> IsVersionChar(g[t])
  {
    var j := SkipSpace(s, i + |Anchor(pkg)|);
    s[j..VersionEnd(s, j)]
  }

  /** `k` is where `re.search` reports its match: the first position that matches. */
  predicate Leftmost(s: string, pkg: string, k: nat)
  {
    k <= |s| && MatchesAt(s, pkg, k) && forall m :: 0 <= m < k ==> !MatchesAt(s, pkg, m)
  }

  /** The leftmost match at or after `from`, as `re.search` scans. */
  function SearchFrom(s: string, pkg: string, from: nat): (r: Option<nat>)
    requires from <= |s|
    ensures r.Some? ==> from <= r.value <= |s| && MatchesAt(s, pkg, r.value)
    ensures r.Some? ==> forall k :: from <= k < r.value ==> !MatchesAt(s, pkg, k)
    ensures r.None? ==> forall k :: from <= k <= |s| ==> !MatchesAt(s, pkg, k)
    decreases |s| - from
  {
    if MatchesAt(s, pkg, from) then Some(from)
    else if from == |s| then None
    else SearchFrom(s, pkg, from + 1)
  }

  /** `re.search(pattern, page).group(1)[:-1]`; no match makes `.group` be called
      on `None`, which raises. */
  function ParseVersion(page: string, pkg: string): Outcome<string>
  {
    match SearchFrom(page, pkg, 0)
    case None => Raised
    case Some(k) =>
      var g := Group(page, pkg, k);
      Returned(g[..|g| - 1])
  }

  /** The lookup raises exactly when the pattern matches nowhere; a version it
      reads is group 1 of the leftmost match without its last character, so only
      digits and dots. */
  lemma ParseVersionSpec(page: string, pkg: string)
    ensures var r := ParseVersion(page, pkg);
      (r.Raised? <==> forall k :: 0 <= k <= |page| ==> !MatchesAt(page, pkg, k)) &&
      (r.Returned? ==> exists k :: Leftmost(page, pkg, k) &&
                         |Group(page, pkg, k)| == |r.value| + 1 && r.value == Group(page, pkg, k)[..|r.value|]) &&
      (r.Returned? ==> forall t :: 0 <= t < |r.value| ==> IsVersionChar(r.value[t]))
  {
    var s := SearchFrom(page, pkg, 0);
    if s.Some? {
      assert Leftmost(page, pkg, s.value);
    }
  }

  /** An entry `<anchor><v>` at `i`, with `v` a maximal run of digits and dots,
      is a match whose group is `v`. */
  lemma EntryMatches(s: string, pkg: string, i: nat, v: string)
    requires |v| >= 1 && forall t :: 0 <= t < |v| ==> IsVersionChar(v[t])
    requires i + |Anchor(pkg)| + |v| <= |s|
    requires s[i..i + |Anchor(pkg)|] == Anchor(pkg)
    requires s[i + |Anchor(pkg)|..i + |Anchor(pkg)| + |v|] == v
    requires i + |Anchor(pkg)| + |v| == |s| || !IsVersionChar(s[i + |Anchor(pkg)| + |v|])
    ensures MatchesAt(s, pkg, i) && Group(s, pkg, i) == v
  {
    var j := i + |Anchor(pkg)|;
    assert s[j] == v[0];
    assert SkipSpace(s, j) == j;
    forall t | j <= t < j + |v| ensures IsVersionChar(s[t]) {
      assert s[t] == v[t - j];
    }
    assert VersionEnd(s, j) == j + |v|;
  }

  /** When the first entry of the package on the page is `<anchor><v><tail>`, with
      `v` a maximal run of digits and dots, the lookup yields `v` minus its last
      character. */
  lemma FirstEntryVersion(pre: string, pkg: string, v: string, tail: string)
    requires |v| >= 1 && forall t :: 0 <= t < |v| ==> IsVersionChar(v[t])
    requires tail == [] || !IsVersionChar(tail[0])
    requires forall k :: 0 <= k < |pre| ==> !MatchesAt(pre + Anchor(pkg) + v + tail, pkg, k)
    ensures ParseVersion(pre + Anchor(pkg) + v + tail, pkg) == Returned(v[..|v| - 1])
  {
    var a := Anchor(pkg);
    var s := pre + a + v + tail;
    var i, j := |pre|, |pre| + |a|;
    assert s[i..j] == a;
    assert s[j..j + |v|] == v;
    assert j + |v| == |s| || s[j + |v|] == tail[0];
    EntryMatches(s, pkg, i, v);
    var r := SearchFrom(s, pkg, 0);
    assert r == Some(i);
  }

  /** The usual index entry `packages/<pkg>-<ver>.tar.gz`: the group captured is
      `<ver>.` and the character dropped is the dot before `tar`, so the lookup
      yields `<ver>` itself. */
  lemma TarballEntry(pre: string, pkg: string, ver: string)
    requires forall t :: 0 <= t < |ver| ==> IsVersionChar(ver[t])
    requires forall k :: 0 <= k < |pre| ==> !MatchesAt(pre + Anchor(pkg) + ver + ".tar.gz", pkg, k)
    ensures ParseVersion(pre + Anchor(pkg) + ver + ".tar.gz", pkg) == Returned(ver)
  {
    var v, tail := ver + ".", "tar.gz";
    assert pre + Anchor(pkg) + v + tail == pre + Anchor(pkg) + ver + ".tar.gz";
    FirstEntryVersion(pre, pkg, v, tail);
    assert v[..|v| - 1] == ver;
  }

  /** A directory-style entry `packages/<pkg>-<ver>/` loses the last character of
      `<ver>`: for `3.4.52/` the lookup yields `3.4.5`. */
  lemma DirectoryEntry(pre: string, pkg: string, ver: string)
    requires |ver| >= 1 && forall t :: 0 <= t < |ver| ==> IsVersionChar(ver[t])
    requires forall k :: 0 <= k < |pre| ==> !MatchesAt(pre + Anchor(pkg) + ver + "/", pkg, k)
    ensures ParseVersion(pre + Anchor(pkg) + ver + "/", pkg) == Returned(ver[..|ver| - 1])
  {
    FirstEntryVersion(pre, pkg, ver, "/");
  }

  /** A page without the package's anchor makes the lookup raise. */
  lemma NoEntryRaises(page: string, pkg: string)
    requires forall k :: 0 <= k <= |page| ==> !(Anchor(pkg) <= page[k..])
    ensures ParseVersion(page, pkg) == Raised
  {
    var a := Anchor(pkg);
    forall k | 0 <= k <= |page| ensures !MatchesAt(page, pkg, k) {
      assert !(a <= page[k..]);
      if k + |a| <= |page| {
        assert page[k..k + |a|] == page[k..][..|a|];
      }
    }
  }
}
