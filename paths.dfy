/** The string operations on names, paths and URLs that the content sources and the role loader use:
    `str.split('/', 1)`, POSIX `os.path.join` and `os.path.basename`, and the path part of `urlparse`. */
module Paths {
  import opened Runtime

  /** Position of the first `c` in `s` (`|s|` when there is none). */
  function IndexOf(s: string, c: char): (i: nat)
    ensures i <= |s|
    ensures i < |s| ==> s[i] == c
    ensures forall j :: 0 <= j < i ==> s[j] != c
  {
    if s == [] then 0
    else if s[0] == c then 0
    else 1 + IndexOf(s[1..], c)
  }

  /** Position of the last `c` in `s` (-1 when there is none), as `str.rfind`. */
  function LastIndexOf(s: string, c: char): (i: int)
    ensures -1 <= i < |s|
    ensures 0 <= i ==> s[i] == c
    ensures forall j :: i < j < |s| ==> s[j] != c
  {
    if s == [] then -1
    else if s[|s| - 1] == c then |s| - 1
    else LastIndexOf(s[..|s| - 1], c)
  }

  /** `cookbook, name = s.split('/', 1)`: None when the unpacking fails because `s` holds no '/'. */
  function SplitFirst(s: string): (r: Option<(string, string)>)
    ensures r.None? <==> '/' !in s
    ensures r.Some? ==> '/' !in r.value.0 && s == r.value.0 + "/" + r.value.1
  {
    var i := IndexOf(s, '/');
    if i == |s| then None
    else
      assert s == s[..i] + "/" + s[i + 1..];
      Some((s[..i], s[i + 1..]))
  }

  /** The split is on the first '/': the part before it never holds a '/', the part after it may. */
  lemma {:induction false} SplitFirstAt(cookbook: string, rest: string)
    requires '/' !in cookbook
    ensures SplitFirst(cookbook + "/" + rest) == Some((cookbook, rest))
  {
    var s := cookbook + "/" + rest;
    var i := IndexOf(s, '/');
    assert s[|cookbook|] == '/';
    assert forall j :: 0 <= j < |cookbook| ==> s[j] == cookbook[j];
    assert i == |cookbook|;
    assert s[..i] == cookbook;
    assert s[i + 1..] == rest;
  }

  predicate IsAbsolute(p: string) {
    |p| > 0 && p[0] == '/'
  }

  /** POSIX `os.path.join(a, b)`: an absolute `b` discards `a`; otherwise one '/' goes between them unless
      `a` is empty or already ends with '/'. */
  function Join(a: string, b: string): (r: string)
    ensures |b| <= |r| && r[|r| - |b|..] == b
    ensures !IsAbsolute(b) ==> a <= r
    ensures IsAbsolute(b) ==> r == b
  {
    if IsAbsolute(b) then b
    else if a == [] || a[|a| - 1] == '/' then a + b
    else a + "/" + b
  }

  /** `os.path.join(root, sub, rest)` for a root and a sub-directory name without stray slashes: the
      path is `root/sub/rest`, unless `rest` is absolute, which then stands alone. */
  lemma JoinUnder(root: string, sub: string, rest: string)
    requires root != [] && root[|root| - 1] != '/'
    requires sub != [] && '/' !in sub
    ensures Join(Join(root, sub), rest) == if IsAbsolute(rest) then rest else root + "/" + sub + "/" + rest
  {
    assert sub[0] != '/' && sub[|sub| - 1] != '/';
    assert Join(root, sub) == root + "/" + sub;
  }

  /** The name of the directory a path denotes: trailing slashes dropped, the root kept as "/". The
      operating system resolves `dir/` and `dir` to the same directory. */
  function TrimTrailingSlashes(p: string): (r: string)
    ensures r <= p && (r == [] <==> p == [])
    ensures |r| <= 1 || r[|r| - 1] != '/'
    ensures forall k :: |r| <= k < |p| ==> p[k] == '/'
    decreases |p|
  {
    if |p| > 1 && p[|p| - 1] == '/' then TrimTrailingSlashes(p[..|p| - 1]) else p
  }

  /** A slash appended to a directory name that has none at its end still names that directory. */
  lemma TrimAppendedSlash(dir: string)
    requires dir != [] && dir[|dir| - 1] != '/'
    ensures TrimTrailingSlashes(dir + "/") == dir
  {
    assert (dir + "/")[..|dir|] == dir;
  }

  /** `os.path.basename(p)`: what follows the last '/'. */
  function Basename(p: string): string {
    p[LastIndexOf(p, '/') + 1..]
  }

  /** The base name is the longest suffix of the path without a '/'. */
  lemma BasenameIsLastComponent(p: string)
    ensures '/' !in Basename(p)
    ensures |Basename(p)| <= |p| && p[|p| - |Basename(p)|..] == Basename(p)
    ensures |Basename(p)| < |p| ==> p[|p| - |Basename(p)| - 1] == '/'
  {
    var i := LastIndexOf(p, '/');
    var r := p[i + 1..];
    forall k | 0 <= k < |r|
      ensures r[k] != '/'
    {
      assert r[k] == p[i + 1 + k];
    }
  }

  /** `s` up to (not including) the first `c`. */
  function Before(s: string, c: char): string {
    s[..IndexOf(s, c)]
  }

  predicate IsSchemeChar(c: char) {
    'a' <= c <= 'z' || 'A' <= c <= 'Z' || '0' <= c <= '9' || c == '+' || c == '-' || c == '.'
  }

  /** Drops a leading `scheme:`, a non-empty run of scheme characters followed by ':'. */
  function StripScheme(u: string): string {
    var i := IndexOf(u, ':');
    if 0 < i < |u| && forall k :: 0 <= k < i ==> IsSchemeChar(u[k]) then u[i + 1..] else u
  }

  /** Drops a leading `//netloc`, the authority running up to the next '/'. */
  function StripNetloc(u: string): string {
    if |u| >= 2 && u[..2] == "//" then
      var rest := u[2..];
      rest[IndexOf(rest, '/')..]
    else u
  }

  /** The `path` component of `urlparse(url)`: fragment and query cut off, then scheme and authority. */
  function UrlPath(url: string): string {
    StripNetloc(StripScheme(Before(Before(url, '#'), '?')))
  }

  /** A character missing from a string is missing from every suffix of it. */
  lemma SuffixLacks(s: string, suffix: string, c: char)
    requires |suffix| <= |s| && s[|s| - |suffix|..] == suffix && c !in s
    ensures c !in suffix
  {
    assert forall k :: 0 <= k < |suffix| ==> suffix[k] == s[|s| - |suffix| + k];
  }

  /** The URL path carries neither the fragment nor the query. */
  lemma UrlPathDropsQueryAndFragment(url: string)
    ensures '#' !in UrlPath(url) && '?' !in UrlPath(url)
  {
    var noFragment := Before(url, '#');
    var noQuery := Before(noFragment, '?');
    assert noFragment <= url && noQuery <= noFragment;
    assert '#' !in noQuery by {
      assert forall k :: 0 <= k < |noQuery| ==> noQuery[k] == noFragment[k];
    }
    var u := StripScheme(noQuery);
    assert |u| <= |noQuery| && noQuery[|noQuery| - |u|..] == u;
    SuffixLacks(noQuery, u, '#');
    SuffixLacks(noQuery, u, '?');
    var path := StripNetloc(u);
    if |u| >= 2 && u[..2] == "//" {
      var rest := u[2..];
      assert path == rest[IndexOf(rest, '/')..];
      assert u[|u| - |path|..] == path;
    }
    SuffixLacks(u, path, '#');
    SuffixLacks(u, path, '?');
  }
}
