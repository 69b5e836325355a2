/** The two path helpers of the directory picker (src/frontend/components/DirectoryPicker.tsx):
    the abbreviated path shown in its header, and the breadcrumb trail of a path. */
module DirectoryPicker {
  import opened Values
  import opened Text
  import opened HomePath

  /** `abbreviatePath`: "~" in place of a leading `/home/<user>`; any other path unchanged. */
  function AbbreviatePath(path: string): (r: string)
    ensures MatchHome(path).None? ==> r == path
    ensures MatchHome(path).Some? ==> |r| >= 1 && r[0] == '~' && MatchHome(path).value + r[1..] == path
  {
    if UnderHome(path) then
      var home := MatchHome(path).value;
      assert path == home + path[|home|..];
      "~" + path[|home|..]
    else path
  }

  /** One breadcrumb: its label and the directory it opens. */
  datatype Crumb = Crumb(caption: string, path: string)

  /** The value of `current` after the loop has appended "/" + part for each of `parts`. */
  function Walk(base: string, parts: seq<string>): string
    decreases |parts|
  {
    if parts == [] then base else Walk(base, parts[..|parts| - 1]) + "/" + parts[|parts| - 1]
  }

  /** The crumbs the loop pushes for `parts`, starting from `base`. */
  function Chain(base: string, parts: seq<string>): (r: seq<Crumb>)
    ensures |r| == |parts|
    decreases |parts|
  {
    if parts == [] then []
    else Chain(base, parts[..|parts| - 1]) + [Crumb(parts[|parts| - 1], Walk(base, parts))]
  }

  /** The i-th crumb of a chain is labelled with the i-th part and opens the walk through the
      parts up to and including it. */
  lemma {:induction false} ChainAt(base: string, parts: seq<string>, i: nat)
    requires i < |parts|
    ensures Chain(base, parts)[i] == Crumb(parts[i], Walk(base, parts[..i + 1]))
    decreases |parts|
  {
    var init := parts[..|parts| - 1];
    if i < |init| {
      ChainAt(base, init, i);
      assert init[..i + 1] == parts[..i + 1];
    } else {
      assert parts[..i + 1] == parts;
    }
  }

  /** Consecutive crumbs of a chain: the first opens `base` + "/" + its label, every later
      one its predecessor's directory + "/" + its label. */
  lemma ChainLinks(base: string, parts: seq<string>, i: nat)
    requires i < |parts|
    ensures var c := Chain(base, parts);
      c[i].path == (if i == 0 then base else c[i - 1].path) + "/" + c[i].caption
  {
    ChainAt(base, parts, i);
    assert parts[..i + 1][..i] == parts[..i];
    if i > 0 {
      ChainAt(base, parts, i - 1);
    }
  }

  /** The components of `s` between slashes, empty ones dropped: `s.split("/").filter(Boolean)`. */
  function Components(s: string): (parts: seq<string>)
    ensures forall i :: 0 <= i < |parts| ==> parts[i] != "" && '/' !in parts[i]
    ensures forall p :: p != "" ==> (p in Split(s, '/') <==> p in parts)
  {
    var r := NonEmpty(Split(s, '/'));
    assert forall i :: 0 <= i < |r| ==> r[i] in Split(s, '/');
    r
  }

  /** What `breadcrumbSegments` returns: a root crumb ("~" for the home directory, "/"
      otherwise), then one crumb per non-empty component below it. */
  function Crumbs(path: string): seq<Crumb> {
    if UnderHome(path) then
      var home := MatchHome(path).value;
      var rest := path[|home|..];
      [Crumb("~", home)] + (if rest != "" then Chain(home, Components(rest)) else [])
    else
      [Crumb("/", "/")] + Chain("", Components(path))
  }

  /** `breadcrumbSegments` */
  method BreadcrumbSegments(path: string) returns (segments: seq<Crumb>)
    ensures segments == Crumbs(path)
  {
    var home := MatchHome(path);
    segments := [];
    if UnderHome(path) {
      segments := segments + [Crumb("~", home.value)];
      var rest := path[|home.value|..];
      if rest != "" {
        var parts := Components(rest);
        var current := home.value;
        var i := 0;
        while i < |parts|
          invariant 0 <= i <= |parts|
          invariant current == Walk(home.value, parts[..i])
          invariant segments == [Crumb("~", home.value)] + Chain(home.value, parts[..i])
        {
          assert parts[..i + 1][..i] == parts[..i];
          current := current + "/" + parts[i];
          segments := segments + [Crumb(parts[i], current)];
          i := i + 1;
        }
        assert parts[..|parts|] == parts;
      }
    } else {
      var parts := Components(path);
      segments := segments + [Crumb("/", "/")];
      var current := "";
      var i := 0;
      while i < |parts|
        invariant 0 <= i <= |parts|
        invariant current == Walk("", parts[..i])
        invariant segments == [Crumb("/", "/")] + Chain("", parts[..i])
      {
        assert parts[..i + 1][..i] == parts[..i];
        current := current + "/" + parts[i];
        segments := segments + [Crumb(parts[i], current)];
        i := i + 1;
      }
      assert parts[..|parts|] == parts;
    }
  }

  /** The trail starts at "~" (opening the home directory) exactly for paths under a home
      directory, and at "/" otherwise; there is one crumb per non-empty component below the
      root; every later label is one non-empty component, and each crumb opens its
      predecessor's directory extended by its own label (the first one below "/" opens
      "/" + its label). */
  lemma {:induction false} CrumbsShape(path: string)
    ensures var r := Crumbs(path);
      && |r| >= 1
      && (UnderHome(path) ==> (r[0] == Crumb("~", MatchHome(path).value)
            && |r| == 1 + |Components(path[|MatchHome(path).value|..])|))
      && (!UnderHome(path) ==> r[0] == Crumb("/", "/") && |r| == 1 + |Components(path)|)
      && (forall i :: 1 <= i < |r| ==> r[i].caption != "" && '/' !in r[i].caption)
      && (forall i :: 2 <= i < |r| ==> r[i].path == r[i - 1].path + "/" + r[i].caption)
      && (|r| > 1 ==> r[1].path == (if UnderHome(path) then r[0].path else "") + "/" + r[1].caption)
  {
    var r := Crumbs(path);
    var base := if UnderHome(path) then MatchHome(path).value else "";
    var rest := if UnderHome(path) then path[|base|..] else path;
    var parts := Components(rest);
    if UnderHome(path) && rest == "" {
      assert Split(rest, '/') == [""];
      assert parts == [];
    }
    var chain := Chain(base, parts);
    assert r == [r[0]] + chain;
    ChainShape(base, parts);
    assert forall i :: 1 <= i < |r| ==> r[i] == chain[i - 1];
  }

  /** Every crumb of a chain over non-empty, slash-free parts is labelled by one such part, and
      opens its predecessor's directory (the base for the first) extended by its label. */
  lemma ChainShape(base: string, parts: seq<string>)
    requires forall i :: 0 <= i < |parts| ==> parts[i] != "" && '/' !in parts[i]
    ensures var c := Chain(base, parts);
      && (forall i :: 0 <= i < |c| ==> c[i].caption != "" && '/' !in c[i].caption)
      && (forall i :: 1 <= i < |c| ==> c[i].path == c[i - 1].path + "/" + c[i].caption)
      && (|c| > 0 ==> c[0].path == base + "/" + c[0].caption)
  {
    var c := Chain(base, parts);
    forall i | 0 <= i < |c| ensures c[i].caption != "" && '/' !in c[i].caption {
      ChainAt(base, parts, i);
    }
    forall i | 0 <= i < |c| ensures c[i].path == (if i == 0 then base else c[i - 1].path) + "/" + c[i].caption {
      ChainLinks(base, parts, i);
    }
  }

  /** `Split` keeps a leading separator as an empty first part. */
  lemma SplitLeading(s: string)
    requires |s| > 0 && s[0] == '/'
    ensures Split(s, '/') == [""] + Split(s[1..], '/')
  {
  }

  /** Dropping empty parts from parts that are all non-empty changes nothing. */
  lemma {:induction false} NonEmptyAll(parts: seq<string>)
    requires forall i :: 0 <= i < |parts| ==> parts[i] != ""
    ensures NonEmpty(parts) == parts
    decreases |parts|
  {
    if parts != [] {
      NonEmptyAll(parts[1..]);
    }
  }

  /** The walk through non-empty parts spells out the slash-joined parts after the base. */
  lemma {:induction false} WalkJoin(base: string, parts: seq<string>)
    requires parts != []
    ensures Walk(base, parts) == base + "/" + Join(parts, "/")
    decreases |parts|
  {
    var init := parts[..|parts| - 1];
    var last := parts[|parts| - 1];
    if init == [] {
      assert parts == [last];
    } else {
      WalkJoin(base, init);
      assert init + [last] == parts;
      JoinSnoc(init, last, "/");
    }
  }

  /** For `s` starting with '/' and with no doubled or trailing slash, walking through its
      components from `base` gives `base + s` back. */
  lemma WalkComponents(base: string, s: string)
    requires |s| > 0 && s[0] == '/'
    requires forall i :: 1 <= i < |Split(s, '/')| ==> Split(s, '/')[i] != ""
    ensures |Components(s)| > 0 && Walk(base, Components(s)) == base + s
  {
    var tail := Split(s[1..], '/');
    RootedComponents(s);
    WalkJoin(base, tail);
    JoinRooted(s);
  }

  /** Below a leading slash with no doubled or trailing slash, every part is a component. */
  lemma RootedComponents(s: string)
    requires |s| > 0 && s[0] == '/'
    requires forall i :: 1 <= i < |Split(s, '/')| ==> Split(s, '/')[i] != ""
    ensures Components(s) == Split(s[1..], '/')
  {
    var tail := Split(s[1..], '/');
    var parts := [""] + tail;
    SplitLeading(s);
    forall i | 0 <= i < |tail| ensures tail[i] != "" {
      assert tail[i] == parts[i + 1];
    }
    NonEmptyAll(tail);
    assert parts[1..] == tail;
  }

  /** A string with a leading slash is "/" followed by its later parts joined with "/". */
  lemma JoinRooted(s: string)
    requires |s| > 0 && s[0] == '/'
    ensures "/" + Join(Split(s[1..], '/'), "/") == s
  {
    var tail := Split(s[1..], '/');
    SplitLeading(s);
    JoinSplit(s, '/');
    assert Join([""] + tail, "/") == "" + "/" + Join(tail, "/");
  }

  /** Below a base, the chain of a rooted path without empty parts ends at base + path. */
  lemma ChainEndsAt(base: string, s: string)
    requires |s| > 0 && s[0] == '/'
    requires forall i :: 1 <= i < |Split(s, '/')| ==> Split(s, '/')[i] != ""
    ensures var c := Chain(base, Components(s)); |c| > 0 && c[|c| - 1].path == base + s
  {
    WalkComponents(base, s);
    var parts := Components(s);
    assert parts[..|parts|] == parts;
  }

  /** Under the home directory, the last crumb is the home crumb or the end of the chain. */
  lemma LastCrumbUnderHome(path: string)
    requires UnderHome(path)
    requires var rest := path[|MatchHome(path).value|..];
      forall i :: 1 <= i < |Split(rest, '/')| ==> Split(rest, '/')[i] != ""
    ensures var r := Crumbs(path); r[|r| - 1].path == path
  {
    var r := Crumbs(path);
    var home := MatchHome(path).value;
    var rest := path[|home|..];
    assert home + rest == path;
    if rest == "" {
      assert r == [Crumb("~", home)];
    } else {
      var c := Chain(home, Components(rest));
      ChainEndsAt(home, rest);
      assert r == [Crumb("~", home)] + c;
      assert r[|r| - 1] == c[|c| - 1];
    }
  }

  /** Outside the home directory, the last crumb is the root crumb or the end of the chain. */
  lemma LastCrumbOutsideHome(path: string)
    requires !UnderHome(path)
    requires path == "/" || (|path| > 0 && path[0] == '/' && forall i :: 1 <= i < |Split(path, '/')| ==> Split(path, '/')[i] != "")
    ensures var r := Crumbs(path); r[|r| - 1].path == path
  {
    var r := Crumbs(path);
    if path == "/" {
      assert Split(path, '/') == ["", ""];
      assert NonEmpty([""]) == [] by { assert [""][1..] == []; }
      assert NonEmpty(["", ""]) == [] by { assert ["", ""][1..] == [""]; }
      assert r == [Crumb("/", "/")];
    } else {
      var c := Chain("", Components(path));
      ChainEndsAt("", path);
      assert r == [Crumb("/", "/")] + c;
      assert r[|r| - 1] == c[|c| - 1];
      assert "" + path == path;
    }
  }

  /** The last crumb opens the path itself when the path is the root, the home directory, or
      has no doubled or trailing slash below its root. */
  lemma LastCrumbIsPath(path: string)
    requires UnderHome(path) ==>
      var rest := path[|MatchHome(path).value|..];
      forall i :: 1 <= i < |Split(rest, '/')| ==> Split(rest, '/')[i] != ""
    requires !UnderHome(path) ==>
      path == "/" || (|path| > 0 && path[0] == '/' && forall i :: 1 <= i < |Split(path, '/')| ==> Split(path, '/')[i] != "")
    ensures var r := Crumbs(path); r[|r| - 1].path == path
  {
    if UnderHome(path) {
      LastCrumbUnderHome(path);
    } else {
      LastCrumbOutsideHome(path);
    }
  }
}
