/** The home-directory prefix that the client's path helpers recognise with the pattern
    `^/home/[^/]+` (src/frontend/components/DirectoryPicker.tsx and ChatView.tsx). */
module HomePath {
  import opened Values
  import opened Text

  const HomeRoot: string := "/home/"

  /** The length of the leading run of characters other than '/'. */
  function SegmentLength(s: string): (n: nat)
    ensures n <= |s|
    ensures forall i :: 0 <= i < n ==> s[i] != '/'
    ensures n < |s| ==> s[n] == '/'
    decreases |s|
  {
    if |s| == 0 || s[0] == '/' then 0 else 1 + SegmentLength(s[1..])
  }

  /** `path.match(/^\/home\/[^/]+/)?.[0]`: "/home/" and the greedy, non-empty user name that
      follows it. */
  function MatchHome(path: string): (home: Option<string>)
    ensures home.Some? <==> IsPrefix(HomeRoot, path) && |path| > |HomeRoot| && path[|HomeRoot|] != '/'
    ensures home.Some? ==>
      && IsPrefix(home.value, path)
      && IsPrefix(HomeRoot, home.value) && |home.value| > |HomeRoot|
      && (forall i :: |HomeRoot| <= i < |home.value| ==> home.value[i] != '/')
      && (|home.value| < |path| ==> path[|home.value|] == '/')
  {
    if IsPrefix(HomeRoot, path) && |path| > |HomeRoot| && path[|HomeRoot|] != '/' then
      var n := SegmentLength(path[|HomeRoot|..]);
      Some(path[..|HomeRoot| + n])
    else None
  }

  /** `home && path.startsWith(home)`: the condition both helpers test before abbreviating. */
  predicate UnderHome(path: string) {
    MatchHome(path).Some? && MatchHome(path).value != "" && IsPrefix(MatchHome(path).value, path)
  }

  /** The start test is redundant: a match is always a non-empty prefix. */
  lemma UnderHomeIffMatch(path: string)
    ensures UnderHome(path) <==> MatchHome(path).Some?
  {
  }
}
