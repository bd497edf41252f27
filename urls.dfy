/**
 * String and version helpers the collections and models share: `'/'.join`,
 * `str.replace`, the collection url, and the minimum-version gate.
 */
module Urls {
  import opened Json

  /** `sep.join(parts)`. */
  function Join(parts: seq<string>, sep: string): string
  {
    if |parts| == 0 then ""
    else if |parts| == 1 then parts[0]
    else parts[0] + sep + Join(parts[1..], sep)
  }

  /** Joining a non-empty list: the separator goes between consecutive parts and nowhere else. */
  lemma {:induction false} JoinAll(parts: seq<string>, sep: string)
    ensures |parts| == 2 ==> Join(parts, sep) == parts[0] + sep + parts[1]
    ensures |parts| == 5 ==>
      Join(parts, sep) == parts[0] + sep + parts[1] + sep + parts[2] + sep + parts[3] + sep + parts[4]
  {
    if |parts| == 5 {
      assert parts[1..][1..] == parts[2..] && parts[2..][1..] == parts[3..] && parts[3..][1..] == parts[4..];
      assert Join(parts[3..], sep) == parts[3] + sep + parts[4];
      assert Join(parts[2..], sep) == parts[2] + sep + parts[3] + sep + parts[4];
      assert Join(parts[1..], sep) == parts[1] + sep + parts[2] + sep + parts[3] + sep + parts[4];
    } else if |parts| == 2 {
      assert Join(parts[1..], sep) == parts[1];
    }
  }

  /** `pat` occurs in `s` starting at index `i`. */
  predicate OccursAt(s: string, pat: string, i: int)
  {
    0 <= i && i + |pat| <= |s| && s[i..i + |pat|] == pat
  }

  /** `s.replace(pat, rep)`: every non-overlapping occurrence, scanning left to right. */
  function ReplaceAll(s: string, pat: string, rep: string): string
    requires |pat| > 0
    decreases |s|
  {
    if |s| < |pat| then s
    else if s[..|pat|] == pat then rep + ReplaceAll(s[|pat|..], pat, rep)
    else [s[0]] + ReplaceAll(s[1..], pat, rep)
  }

  /** A string in which the pattern never occurs comes back unchanged. */
  lemma {:induction false} ReplaceAbsentIsIdentity(s: string, pat: string, rep: string)
    requires |pat| > 0
    requires forall i :: !OccursAt(s, pat, i)
    ensures ReplaceAll(s, pat, rep) == s
    decreases |s|
  {
    if |s| >= |pat| {
      assert !OccursAt(s, pat, 0);
      forall i ensures !OccursAt(s[1..], pat, i) {
        if OccursAt(s[1..], pat, i) {
          assert s[1..][i..i + |pat|] == s[i + 1..i + 1 + |pat|];
          assert OccursAt(s, pat, i + 1);
        }
      }
      ReplaceAbsentIsIdentity(s[1..], pat, rep);
    }
  }

  /** `pat in s` for strings: a substring test, scanning left to right. */
  function Contains(s: string, pat: string): bool
    decreases |s|
  {
    if |s| < |pat| then false
    else s[..|pat|] == pat || Contains(s[1..], pat)
  }

  /** The scan finds the pattern exactly when it occurs somewhere. */
  lemma {:induction false} ContainsIffOccurs(s: string, pat: string)
    ensures Contains(s, pat) <==> exists i :: OccursAt(s, pat, i)
    decreases |s|
  {
    if |s| >= |pat| {
      if s[..|pat|] == pat {
        assert OccursAt(s, pat, 0);
      } else {
        ContainsIffOccurs(s[1..], pat);
        if Contains(s[1..], pat) {
          var i :| OccursAt(s[1..], pat, i);
          assert s[1..][i..i + |pat|] == s[i + 1..i + 1 + |pat|];
          assert OccursAt(s, pat, i + 1);
        }
        if i :| OccursAt(s, pat, i) {
          assert i > 0;
          assert s[1..][i - 1..i - 1 + |pat|] == s[i..i + |pat|];
          assert OccursAt(s[1..], pat, i - 1);
        }
      }
    } else {
      if i :| OccursAt(s, pat, i) {
        assert false;
      }
    }
  }

  /** A leading occurrence is replaced and scanning resumes after it. */
  lemma ReplaceLeading(pat: string, rest: string, rep: string)
    requires |pat| > 0
    ensures ReplaceAll(pat + rest, pat, rep) == rep + ReplaceAll(rest, pat, rep)
  {
    assert (pat + rest)[..|pat|] == pat;
    assert (pat + rest)[|pat|..] == rest;
  }

  /** The rewrite applied to every href a model is built with. */
  function FixHref(href: string): string
  {
    ReplaceAll(href, "classifications/", "classification/")
  }

  /** A model's href has each `classifications/` segment rewritten to `classification/`; any other text is kept. */
  lemma FixHrefRewritesSegment(rest: string)
    ensures FixHref("classifications/" + rest) == "classification/" + FixHref(rest)
  {
    ReplaceLeading("classifications/", rest, "classification/");
  }

  /** An href without a `classifications/` segment is kept as it is. */
  lemma FixHrefKeepsPlain(href: string)
    requires forall i :: !OccursAt(href, "classifications/", i)
    ensures FixHref(href) == href
  {
    ReplaceAbsentIsIdentity(href, "classifications/", "classification/");
  }

  /** The rewrite applied to the parent collection's url when a model derives its own url (misspelt as in the source). */
  function FixParentUrl(url: string): string
  {
    ReplaceAll(url, "classifications/", "classficiation/")
  }

  /** The parent-url rewrite turns a `classifications/` segment into the misspelt `classficiation/`. */
  lemma ParentRewriteIsMisspelt(rest: string)
    ensures FixParentUrl("classifications/" + rest) == "classficiation/" + FixParentUrl(rest)
  {
    ReplaceLeading("classifications/", rest, "classficiation/");
  }

  /**
   * A collection's url: the admin api root, the v2 api root (no parent), or
   * the parent's url, followed by the model class's `path`; joining a None
   * path is a TypeError.
   */
  function CollectionUrl(baseUrl: string, isAdminApi: bool, parentUrl: Option<string>, path: Option<string>): (r: Result<string>)
    ensures r.Ok? <==> path.Some?
    ensures r.Ok? && isAdminApi ==> r.value == baseUrl + "/" + "api" + "/" + "atlas" + "/" + "admin" + "/" + path.value
    ensures r.Ok? && !isAdminApi && parentUrl.None? ==> r.value == baseUrl + "/" + "api" + "/" + "atlas" + "/" + "v2" + "/" + path.value
    ensures r.Ok? && !isAdminApi && parentUrl.Some? ==> r.value == parentUrl.value + "/" + path.value
  {
    if path.None? then Err(TypeError("sequence item: expected str instance, NoneType found"))
    else
      var pieces :=
        if isAdminApi then [baseUrl, "api", "atlas", "admin"]
        else if parentUrl.None? then [baseUrl, "api", "atlas", "v2"]
        else [parentUrl.value];
      var all := pieces + [path.value];
      JoinAll(all, "/");
      Ok(Join(all, "/"))
  }

  /** Python's `<` on tuples of integers: lexicographic, a proper prefix being smaller. */
  predicate TupleLess(a: seq<int>, b: seq<int>)
    decreases |a|
  {
    if |a| == 0 then |b| > 0
    else if |b| == 0 then false
    else if a[0] != b[0] then a[0] < b[0]
    else TupleLess(a[1..], b[1..])
  }

  lemma {:induction false} TupleLessIrreflexive(a: seq<int>)
    ensures !TupleLess(a, a)
    decreases |a|
  {
    if |a| > 0 {
      TupleLessIrreflexive(a[1..]);
    }
  }

  lemma {:induction false} TupleLessTransitive(a: seq<int>, b: seq<int>, c: seq<int>)
    requires TupleLess(a, b) && TupleLess(b, c)
    ensures TupleLess(a, c)
    decreases |a|
  {
    if |a| > 0 && a[0] == b[0] && b[0] == c[0] {
      TupleLessTransitive(a[1..], b[1..], c[1..]);
    }
  }

  /** Any two version tuples are equal or ordered one way or the other. */
  lemma {:induction false} TupleLessTotal(a: seq<int>, b: seq<int>)
    ensures a == b || TupleLess(a, b) || TupleLess(b, a)
    decreases |a|
  {
    if |a| > 0 && |b| > 0 && a[0] == b[0] {
      TupleLessTotal(a[1..], b[1..]);
      if a[1..] == b[1..] {
        assert a == [a[0]] + a[1..] && b == [b[0]] + b[1..];
      }
    }
  }

  /** OLDEST_SUPPORTED_VERSION. */
  const OLDEST_SUPPORTED: seq<int> := [1, 7, 0]

  /** The gate of `check_version`: a resource newer than the oldest supported version, on an older server. */
  predicate VersionBlocked(minVersion: seq<int>, current: seq<int>)
  {
    TupleLess(OLDEST_SUPPORTED, minVersion) && TupleLess(current, minVersion)
  }

  /**
   * `check_version`: a ClientError naming the collection url and both
   * versions exactly when the gate closes (an error computing the url is
   * raised instead); otherwise nothing happens.
   */
  function CheckVersion(minVersion: seq<int>, current: seq<int>, url: Result<string>): (r: Outcome)
    ensures r.Fail? <==> VersionBlocked(minVersion, current)
    ensures r.Fail? && url.Ok? ==> r.error == VersionError(url.value, current, minVersion)
    ensures r.Fail? && url.Err? ==> r.error == url.error
  {
    if VersionBlocked(minVersion, current) then
      if url.Err? then Fail(url.error) else Fail(VersionError(url.value, current, minVersion))
    else Pass
  }

  /** A resource that keeps the default minimum version is never blocked, whatever the server version. */
  lemma DefaultMinimumNeverBlocks(current: seq<int>, url: Result<string>)
    ensures CheckVersion(OLDEST_SUPPORTED, current, url) == Pass
  {
    TupleLessIrreflexive(OLDEST_SUPPORTED);
  }

  /** A server at or above the resource's minimum version is never blocked. */
  lemma RecentServerNeverBlocked(minVersion: seq<int>, current: seq<int>, url: Result<string>)
    requires current == minVersion || TupleLess(minVersion, current)
    ensures CheckVersion(minVersion, current, url) == Pass
  {
    TupleLessIrreflexive(minVersion);
    if TupleLess(current, minVersion) && TupleLess(minVersion, current) {
      TupleLessTransitive(current, minVersion, current);
      TupleLessIrreflexive(current);
    }
  }
}
