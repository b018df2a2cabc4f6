/**
 * Removing a browser profile without following links or crossing devices, and the path arithmetic of
 * its mount-boundary check. Models packages/cli/src/browser-profile.ts.
 */
module BrowserProfile {
  import opened Wrappers
  import opened Sorting

  // ----- Linux mount table escapes -----

  /** How the kernel writes the characters that separate fields. */
  function Escaped(c: char): string {
    match c
    case '\t' => "\\011"
    case '\n' => "\\012"
    case ' ' => "\\040"
    case '\\' => "\\134"
    case _ => [c]
  }

  function Mangled(path: string): string {
    if path == "" then "" else Escaped(path[0]) + Mangled(path[1..])
  }

  function Replacement(code: string): Option<char> {
    if code == "\\011" then Some('\t')
    else if code == "\\012" then Some('\n')
    else if code == "\\040" then Some(' ')
    else if code == "\\134" then Some('\\')
    else None
  }

  function Take(s: string, n: nat): string {
    if |s| <= n then s else s[..n]
  }

  function Decoded(value: string): Option<string>
    decreases |value|
  {
    if value == "" then Some("")
    else if value[0] != '\\' then
      var rest := Decoded(value[1..]);
      if rest.Some? then Some([value[0]] + rest.value) else None
    else
      var c := Replacement(Take(value, 4));
      if c.None? then None
      else
        var rest := Decoded(value[4..]);
        if rest.Some? then Some([c.value] + rest.value) else None
  }

  /** decodeLinuxMountPath */
  method DecodeLinuxMountPath(value: string) returns (r: Option<string>)
    ensures r == Decoded(value)
  {
    var decoded := "";
    var index := 0;
    assert value[0..] == value;
    NoPrefix(Decoded(value));
    while index < |value|
      invariant index <= |value|
      invariant Decoded(value) == Prefixed(decoded, Decoded(value[index..]))
    {
      var rest := value[index..];
      if value[index] != '\\' {
        assert rest[1..] == value[index + 1..];
        Append(decoded, value[index], Decoded(value[index + 1..]));
        decoded := decoded + [value[index]];
        index := index + 1;
      } else {
        var replacement := Replacement(Take(rest, 4));
        if replacement.None? { return None; }
        assert rest[4..] == value[index + 4..];
        Append(decoded, replacement.value, Decoded(value[index + 4..]));
        decoded := decoded + [replacement.value];
        index := index + 4;
      }
    }
    assert value[index..] == "" && decoded + "" == decoded;
    r := Some(decoded);
  }

  lemma NoPrefix(tail: Option<string>)
    ensures Prefixed("", tail) == tail
  {
    if tail.Some? {
      assert "" + tail.value == tail.value;
    }
  }

  function Prefixed(head: string, tail: Option<string>): Option<string> {
    if tail.Some? then Some(head + tail.value) else None
  }

  lemma Append(head: string, c: char, tail: Option<string>)
    ensures Prefixed(head + [c], tail) == Prefixed(head, Prefixed([c], tail))
  {
    if tail.Some? {
      assert (head + [c]) + tail.value == head + ([c] + tail.value);
    }
  }

  predicate Separates(c: char) { c in {'\t', '\n', ' '} }

  lemma DecodeOne(c: char, rest: string)
    ensures Decoded(Escaped(c) + rest) == Prefixed([c], Decoded(rest))
  {
    var value := Escaped(c) + rest;
    assert value[|Escaped(c)|..] == rest;
    if c in {'\t', '\n', ' ', '\\'} {
      assert value[..4] == Escaped(c);
      assert Take(value, 4) == Escaped(c);
    }
  }

  /** Decoding inverts the kernel's escaping. */
  lemma {:induction false} MangledDecodes(path: string)
    ensures Decoded(Mangled(path)) == Some(path)
  {
    if path != "" {
      MangledDecodes(path[1..]);
      DecodeOne(path[0], Mangled(path[1..]));
      assert [path[0]] + path[1..] == path;
    }
  }

  lemma ReplacedCode(value: string)
    requires Replacement(Take(value, 4)).Some?
    ensures |value| >= 4 && value[..4] == Escaped(Replacement(Take(value, 4)).value)
  {
  }

  lemma MangledCons(c: char, rest: string)
    ensures Mangled([c] + rest) == Escaped(c) + Mangled(rest)
  {
    assert ([c] + rest)[1..] == rest;
  }

  /** In a field without raw separators nothing else decodes. */
  lemma {:induction false} DecodedMangles(value: string)
    requires (forall i :: 0 <= i < |value| ==> !Separates(value[i])) && Decoded(value).Some?
    ensures Mangled(Decoded(value).value) == value
    decreases |value|
  {
    if value != "" {
      if value[0] != '\\' {
        DecodedMangles(value[1..]);
        MangledCons(value[0], Decoded(value[1..]).value);
        assert value == [value[0]] + value[1..];
      } else {
        ReplacedCode(value);
        DecodedMangles(value[4..]);
        MangledCons(Replacement(Take(value, 4)).value, Decoded(value[4..]).value);
        assert value == value[..4] + value[4..];
      }
    }
  }

  /** A field decodes to a path exactly when it is that path escaped. */
  lemma DecodesIffMangled(value: string, path: string)
    requires forall i :: 0 <= i < |value| ==> !Separates(value[i])
    ensures Decoded(value) == Some(path) <==> value == Mangled(path)
  {
    MangledDecodes(path);
    if Decoded(value).Some? {
      DecodedMangles(value);
    }
  }

  // ----- paths and mount points -----

  type Path = seq<string>

  predicate Component(name: string) {
    name != "" && '/' !in name && name != "." && name != ".."
  }

  predicate Canonical(path: Path) {
    forall i :: 0 <= i < |path| ==> Component(path[i])
  }

  /** A canonical absolute path; normalization leaves a trailing slash alone. */
  function Rendered(path: Path, trailing: bool): string {
    if path == [] then "/" else Joined(path) + if trailing then "/" else ""
  }

  function Joined(path: Path): string {
    if path == [] then "" else "/" + path[0] + Joined(path[1..])
  }

  predicate StartsWith(text: string, prefix: string) {
    prefix <= text
  }

  /** pathAtOrBelow */
  predicate PathAtOrBelow(root: string, candidate: string) {
    if root == "/" then StartsWith(candidate, "/") else candidate == root || StartsWith(candidate, root + "/")
  }

  lemma NotShorter(a: string, b: string, s: string, t: string)
    requires '/' !in b && (s == "" || s[0] == '/') && a + s == b + t
    ensures |a| >= |b|
  {
    assert forall i :: 0 <= i < |b| ==> (b + t)[i] == b[i] && b[i] != '/';
    assert s != "" ==> (a + s)[|a|] == '/';
  }

  lemma SlashSplit(a: string, b: string, s: string, t: string)
    requires '/' !in a && '/' !in b
    requires (s == "" || s[0] == '/') && (t == "" || t[0] == '/') && a + s == b + t
    ensures a == b && s == t
  {
    NotShorter(a, b, s, t);
    NotShorter(b, a, t, s);
    assert a == (a + s)[..|a|] && b == (b + t)[..|b|];
    assert s == (a + s)[|a|..] && t == (b + t)[|b|..];
  }

  lemma JoinedStart(path: Path, rest: string)
    requires rest == "" || rest[0] == '/'
    ensures var text := Joined(path) + rest; text == "" || text[0] == '/'
    ensures path != [] ==> Joined(path) + rest == "/" + (path[0] + (Joined(path[1..]) + rest))
  {
  }

  /** One path's text followed by a slash begins another's exactly when its components do. */
  lemma {:induction false} JoinedPrefix(a: Path, b: Path, tail: string, rest: string)
    requires Canonical(a) && Canonical(b) && (tail == "" || tail == "/") && (rest == "" || rest[0] == '/')
    requires Joined(a) + rest == Joined(b) + tail
    ensures a <= b && rest == Joined(b[|a|..]) + tail
  {
    if a == [] {
      assert Joined(a) + rest == rest && b[0..] == b;
    } else {
      JoinedStart(a, rest);
      JoinedStart(b, tail);
      var restA := a[0] + (Joined(a[1..]) + rest);
      assert (Joined(a) + rest)[1..] == restA;
      EmptyIsShort(a, b, tail, rest);
      var restB := b[0] + (Joined(b[1..]) + tail);
      assert (Joined(b) + tail)[1..] == restB;
      JoinedStart(a[1..], rest);
      JoinedStart(b[1..], tail);
      SlashSplit(a[0], b[0], Joined(a[1..]) + rest, Joined(b[1..]) + tail);
      JoinedPrefix(a[1..], b[1..], tail, rest);
      assert a == [a[0]] + a[1..] && b == [b[0]] + b[1..] && b[|a|..] == b[1..][|a[1..]|..];
    }
  }

  lemma EmptyIsShort(a: Path, b: Path, tail: string, rest: string)
    requires a != [] && Canonical(a) && (tail == "" || tail == "/") && Joined(a) + rest == Joined(b) + tail
    ensures b != []
  {
    assert Component(a[0]) && |Joined(a)| >= 2;
  }

  lemma {:induction false} JoinedAppend(a: Path, b: Path)
    ensures Joined(a + b) == Joined(a) + Joined(b)
  {
    var whole := a + b;
    if a == [] {
      assert whole == b;
      EmptySides(Joined(b));
    } else {
      assert whole[0] == a[0] && whole[1..] == a[1..] + b;
      JoinedAppend(a[1..], b);
      JoinedSplit(whole);
      JoinedSplit(a);
      hide Joined;
      Associates("/" + a[0], Joined(a[1..]), Joined(b));
    }
  }

  lemma JoinedSplit(path: Path)
    requires path != []
    ensures Joined(path) == ("/" + path[0]) + Joined(path[1..])
  {
  }

  /**
   * On canonical paths the text test is the component test, provided the root has no trailing slash;
   * a root written with one covers nothing but itself.
   */
  lemma AtOrBelowIffComponents(root: Path, candidate: Path, rootSlash: bool, slash: bool)
    requires Canonical(root) && Canonical(candidate)
    ensures PathAtOrBelow(Rendered(root, rootSlash), Rendered(candidate, slash))
        <==> if root != [] && rootSlash then candidate == root && slash else root <= candidate
  {
    var a, b := Rendered(root, rootSlash), Rendered(candidate, slash);
    if root == [] {
      JoinedStart(candidate, if slash then "/" else "");
    } else {
      RootIsNotSlash(root, rootSlash);
      if PathAtOrBelow(a, b) { AtOrBelowMeansPrefix(root, candidate, rootSlash, slash); }
      if root <= candidate { PrefixMeansAtOrBelow(root, candidate, slash); }
    }
  }

  /** The slash matters: what lies below a root is not found below the same root with a slash behind it. */
  lemma TrailingSlashHidesChildren()
    ensures PathAtOrBelow("/a", "/a/b") && !PathAtOrBelow("/a/", "/a/b")
  {
    var root, child: Path := ["a"], ["a", "b"];
    assert Joined([]) == "" && Joined(["b"]) == "/b" + Joined([]) && Joined(root) == "/a" + Joined([])
           && child[1..] == ["b"];
    assert Rendered(root, false) == "/a" && Rendered(root, true) == "/a/";
    assert Rendered(child, false) == "/a/b";
    AtOrBelowIffComponents(root, child, false, false);
    AtOrBelowIffComponents(root, child, true, false);
  }

  lemma RootIsNotSlash(root: Path, rootSlash: bool)
    requires root != [] && Canonical(root)
    ensures Rendered(root, rootSlash) != "/" && |Joined(root)| >= 2
    ensures Rendered(root, rootSlash) == Joined(root) + if rootSlash then "/" else ""
  {
    assert Component(root[0]);
  }

  lemma BelowMeansPrefix(root: Path, candidate: Path, slash: bool, rest: string)
    requires root != [] && Canonical(root) && Canonical(candidate)
    requires Rendered(candidate, slash) == Joined(root) + rest && (rest == "" || rest[0] == '/')
    ensures root <= candidate && rest == Joined(candidate[|root|..]) + if slash then "/" else ""
  {
    var tail := if slash then "/" else "";
    RootIsNotSlash(root, false);
    assert |Rendered(candidate, slash)| >= 2;
    assert Rendered(candidate, slash) == Joined(candidate) + tail;
    JoinedPrefix(root, candidate, tail, rest);
  }

  lemma AtOrBelowMeansPrefix(root: Path, candidate: Path, rootSlash: bool, slash: bool)
    requires root != [] && Canonical(root) && Canonical(candidate)
    requires PathAtOrBelow(Rendered(root, rootSlash), Rendered(candidate, slash))
    ensures root <= candidate && (rootSlash ==> candidate == root && slash)
  {
    RootIsNotSlash(root, rootSlash);
    hide Joined, Rendered;
    var rest := RestStart(Rendered(root, rootSlash), Rendered(candidate, slash), Joined(root), rootSlash);
    BelowMeansPrefix(root, candidate, slash, rest);
    if rootSlash {
      var below := candidate[|root|..];
      SlashTail(below, if slash then "/" else "", rest);
      assert candidate == root + below;
    }
  }

  lemma RestStart(a: string, b: string, joined: string, rootSlash: bool) returns (rest: string)
    requires a == joined + (if rootSlash then "/" else "") && (b == a || StartsWith(b, a + "/"))
    ensures b == joined + rest && (rest == "" || rest[0] == '/')
    ensures rootSlash ==> rest == "/" || (|rest| > 1 && rest[..2] == "//")
  {
    var end := if rootSlash then "/" else "";
    if b == a {
      rest := end;
    } else {
      rest := end + "/" + b[|a| + 1..];
      assert b == (a + "/") + b[|a| + 1..];
    }
  }

  lemma BelowStart(below: Path, tail: string)
    requires below != [] && Canonical(below)
    ensures |Joined(below) + tail| >= 2 && (Joined(below) + tail)[1] != '/'
  {
    assert Component(below[0]) && below[0][0] in below[0];
    assert Joined(below) + tail == "/" + (below[0] + (Joined(below[1..]) + tail));
  }

  /** Behind a path, a text beginning with a slash that ends or doubles there is the bare slash. */
  lemma SlashTail(below: Path, tail: string, rest: string)
    requires Canonical(below) && (tail == "" || tail == "/") && rest == Joined(below) + tail
    requires rest == "/" || (|rest| > 1 && rest[..2] == "//")
    ensures below == [] && tail == "/"
  {
    assert |rest| > 1 ==> rest[1] == rest[..2][1];
    if below != [] {
      BelowStart(below, tail);
      assert false;
    }
  }

  lemma PrefixMeansAtOrBelow(root: Path, candidate: Path, slash: bool)
    requires root != [] && Canonical(root) && Canonical(candidate) && root <= candidate
    ensures PathAtOrBelow(Rendered(root, false), Rendered(candidate, slash))
  {
    var below := candidate[|root|..];
    RootIsNotSlash(root, false);
    JoinedAppend(root, below);
    assert candidate == root + below;
    var tail := if slash then "/" else "";
    JoinedStart(below, tail);
    assert Rendered(candidate, slash) == Joined(root) + (Joined(below) + tail);
    if Joined(below) + tail != "" {
      assert StartsWith(Rendered(candidate, slash), Joined(root) + "/");
    }
  }

  // ----- removal -----

  datatype Entry = File | Link(target: string) | Directory(device: int, inode: int)
  datatype Mount = Mount(path: Path, slash: bool)

  predicate AtOrBelow(path: Path, q: Path) { path <= q }
  predicate Below(path: Path, q: Path) { path < q }

  /** Every entry lies in real directories all the way down from the root. */
  predicate Rooted(entries: map<Path, Entry>) {
    forall q, k :: q in entries && 0 <= k < |q| ==> q[..k] in entries && entries[q[..k]].Directory?
  }

  function Subtree(entries: map<Path, Entry>, path: Path): set<Path> {
    set q | q in entries && AtOrBelow(path, q)
  }

  function Inside(entries: map<Path, Entry>, path: Path): set<Path> {
    set q | q in entries && Below(path, q)
  }

  predicate Foreign(entry: Entry, device: int) {
    entry.Directory? && entry.device != device
  }

  predicate ForeignBelow(entries: map<Path, Entry>, path: Path, device: int) {
    exists q :: q in entries && Below(path, q) && Foreign(entries[q], device)
  }

  /** Entries are only removed, and only strictly below `path`. */
  predicate OnlyInside(before: map<Path, Entry>, after: map<Path, Entry>, path: Path) {
    && (forall q :: q in after ==> q in before && after[q] == before[q])
    && forall q :: q in before && q !in after ==> Below(path, q)
  }

  /** Whatever lies at or below a directory of another device is still there. */
  predicate ForeignKept(before: map<Path, Entry>, after: map<Path, Entry>, path: Path, device: int) {
    forall q, r :: q in before && Below(path, q) && Foreign(before[q], device) && r in before && AtOrBelow(q, r) ==>
          r in after
  }

  lemma BelowPrefix(path: Path, q: Path)
    ensures Below(path, q) ==> |path| < |q| && q[..|path|] == path
  {
  }

  lemma SiblingNotBelow(child: Path, q: Path)
    requires |q| == |child|
    ensures !Below(child, q)
  {
  }

  lemma WithoutLeaf(entries: map<Path, Entry>, leaf: Path)
    requires Rooted(entries) && leaf in entries && Inside(entries, leaf) == {}
    ensures Rooted(entries - {leaf})
  {
    forall q, k | q in entries - {leaf} && 0 <= k < |q|
      ensures q[..k] != leaf
    {
      assert q !in Inside(entries, leaf);
    }
  }

  lemma NonDirectoryIsLeaf(entries: map<Path, Entry>, path: Path)
    requires Rooted(entries) && path in entries && !entries[path].Directory?
    ensures Inside(entries, path) == {}
  {
    forall q | q in entries
      ensures !Below(path, q)
    {
      BelowPrefix(path, q);
      assert |path| < |q| ==> q[..|path|] in entries && entries[q[..|path|]].Directory?;
    }
  }

  function Child(path: Path, q: Path): Path
    requires Below(path, q)
  {
    q[..|path| + 1]
  }

  /** What has happened so far while the children of `path` are removed one by one. */
  ghost predicate Partway(before: map<Path, Entry>, entries: map<Path, Entry>, path: Path, device: int,
                          pending: set<Path>)
  {
    && Rooted(entries) && OnlyInside(before, entries, path) && ForeignKept(before, entries, path, device)
    && (forall q :: q in pending ==> q in entries && Below(path, q) && |q| == |path| + 1)
    && (forall q :: q in before && Below(path, q) ==> (q in entries <==> Child(path, q) in pending))
    && forall q :: q in before && Below(path, q) && Child(path, q) !in pending ==> !Foreign(before[q], device)
  }

  lemma StartPartway(before: map<Path, Entry>, path: Path, device: int, pending: set<Path>)
    requires Rooted(before) && pending == set q | q in before && |q| == |path| + 1 && Below(path, q)
    ensures Partway(before, before, path, device, pending)
  {
    forall q | q in before && Below(path, q)
      ensures Child(path, q) in pending
    {
      if |q| == |path| + 1 {
        assert Child(path, q) == q;
      } else {
        assert q[..|path| + 1] in before;
        assert q[..|path| + 1][..|path|] == path;
      }
    }
  }

  lemma NothingPending(before: map<Path, Entry>, entries: map<Path, Entry>, path: Path, device: int)
    requires Partway(before, entries, path, device, {})
    ensures Inside(entries, path) == {} && !ForeignBelow(before, path, device)
  {
  }

  lemma BelowChild(path: Path, child: Path, q: Path)
    requires Below(path, child) && |child| == |path| + 1 && Below(path, q)
    ensures AtOrBelow(child, q) <==> Child(path, q) == child
    ensures AtOrBelow(child, q) <==> q == child || Below(child, q)
  {
  }

  lemma SameChild(path: Path, q: Path, r: Path)
    requires Below(path, q) && AtOrBelow(q, r)
    ensures Below(path, r) && Child(path, r) == Child(path, q)
  {
  }

  lemma ForeignPairKept(before: map<Path, Entry>, start: map<Path, Entry>, after: map<Path, Entry>, path: Path,
                        device: int, pending: set<Path>, child: Path, q: Path, r: Path)
    requires Partway(before, start, path, device, pending) && child in pending && !Foreign(start[child], device)
    requires OnlyInside(start, after, child) && ForeignKept(start, after, child, device)
    requires q in before && Below(path, q) && Foreign(before[q], device) && r in before && AtOrBelow(q, r)
    ensures r in after
  {
    hide Below, AtOrBelow, Child, Rooted;
    SameChild(path, q, r);
    BelowChild(path, child, q);
    BelowChild(path, child, r);
    assert q in start && r in start && start[q] == before[q];
  }

  lemma EmptiedInside(before: map<Path, Entry>, start: map<Path, Entry>, after: map<Path, Entry>, path: Path,
                      child: Path)
    requires OnlyInside(before, start, path) && OnlyInside(start, after, child) && Below(path, child)
    ensures OnlyInside(before, after, path)
  {
    hide Below;
    forall q | q in before && q !in after
      ensures Below(path, q)
    {
      if q in start {
        BelowChildIsBelow(path, child, q);
      }
    }
  }

  /** However far one child was emptied, only entries inside `path` are gone and foreign directories are kept. */
  lemma ChildEmptied(before: map<Path, Entry>, start: map<Path, Entry>, after: map<Path, Entry>, path: Path,
                     device: int, pending: set<Path>, child: Path)
    requires Partway(before, start, path, device, pending) && child in pending && !Foreign(start[child], device)
    requires OnlyInside(start, after, child) && ForeignKept(start, after, child, device)
    ensures OnlyInside(before, after, path) && ForeignKept(before, after, path, device)
  {
    hide Below, AtOrBelow, Child, Rooted, OnlyInside;
    assert Below(path, child);
    EmptiedInside(before, start, after, path, child);
    forall q, r | q in before && Below(path, q) && Foreign(before[q], device) && r in before && AtOrBelow(q, r)
      ensures r in after
    {
      ForeignPairKept(before, start, after, path, device, pending, child, q, r);
    }
  }

  lemma BelowChildIsBelow(path: Path, child: Path, q: Path)
    requires Below(path, child) && Below(child, q)
    ensures Below(path, q)
  {
  }

  lemma Unchanged(entries: map<Path, Entry>, path: Path, device: int)
    ensures OnlyInside(entries, entries, path) && ForeignKept(entries, entries, path, device)
    ensures Inside(entries, path) == {} ==> !ForeignBelow(entries, path, device)
  {
    if Inside(entries, path) == {} {
      forall q | q in entries
        ensures !Below(path, q)
      {
        assert q !in Inside(entries, path);
      }
    }
  }

  lemma PathKept(before: map<Path, Entry>, after: map<Path, Entry>, path: Path)
    requires OnlyInside(before, after, path) && path in before
    ensures path in after && after[path] == before[path]
  {
  }

  lemma PartwayMeans(before: map<Path, Entry>, entries: map<Path, Entry>, path: Path, device: int, pending: set<Path>)
    requires Partway(before, entries, path, device, pending)
    ensures Rooted(entries) && OnlyInside(before, entries, path) && ForeignKept(before, entries, path, device)
    ensures Inside(entries, path) <= Inside(before, path)
  {
  }

  lemma PartwayFacts(before: map<Path, Entry>, start: map<Path, Entry>, path: Path, device: int, pending: set<Path>,
                     child: Path)
    requires Partway(before, start, path, device, pending) && child in pending && path in start
    ensures child in start && child != path && path in before && before[path] == start[path]
    ensures Rooted(start) && OnlyInside(before, start, path) && ForeignKept(before, start, path, device)
    ensures Foreign(start[child], device) ==> ForeignBelow(before, path, device)
    ensures Inside(start, child) < Inside(start, path)
  {
    assert child in before && before[child] == start[child];
    forall q | q in Inside(start, child)
      ensures q in Inside(start, path)
    {
      BelowChildIsBelow(path, child, q);
    }
    assert child in Inside(start, path) && child !in Inside(start, child);
  }

  lemma ForeignInherited(before: map<Path, Entry>, start: map<Path, Entry>, path: Path, device: int, pending: set<Path>,
                         child: Path)
    requires Partway(before, start, path, device, pending) && child in pending
    ensures ForeignBelow(start, child, device) ==> ForeignBelow(before, path, device)
  {
    if ForeignBelow(start, child, device) {
      var q :| q in start && Below(child, q) && Foreign(start[q], device);
      assert q in before && Below(path, q) && Foreign(before[q], device);
    }
  }

  /** A child that has been emptied and removed, everything else being as it was. */
  ghost predicate ChildGone(start: map<Path, Entry>, emptied: map<Path, Entry>, after: map<Path, Entry>, path: Path,
                            device: int, child: Path)
  {
    && child in start && !Foreign(start[child], device)
    && OnlyInside(start, emptied, child) && ForeignKept(start, emptied, child, device)
    && Inside(emptied, child) == {} && !ForeignBelow(start, child, device)
    && after == emptied - {child}
  }

  lemma GoneKeepsForeign(before: map<Path, Entry>, start: map<Path, Entry>, emptied: map<Path, Entry>,
                         after: map<Path, Entry>, path: Path, device: int, pending: set<Path>, child: Path, q: Path,
                             r: Path)
    requires Partway(before, start, path, device, pending) && child in pending
             && ChildGone(start, emptied, after, path, device, child)
    requires q in before && Below(path, q) && Foreign(before[q], device) && r in before && AtOrBelow(q, r)
    ensures r in after
  {
    hide Below, AtOrBelow, Child, Rooted;
    SameChild(path, q, r);
    BelowChild(path, child, q);
    BelowChild(path, child, r);
    ForeignPairKept(before, start, emptied, path, device, pending, child, q, r);
    assert q in start && start[q] == before[q];
    assert forall x :: x in start && Below(child, x) ==> !Foreign(start[x], device);
  }

  lemma GonePending(before: map<Path, Entry>, start: map<Path, Entry>, emptied: map<Path, Entry>,
                    after: map<Path, Entry>, path: Path, device: int, pending: set<Path>, child: Path, q: Path)
    requires Partway(before, start, path, device, pending) && child in pending
             && ChildGone(start, emptied, after, path, device, child)
    requires q in before && Below(path, q)
    ensures q in after <==> Child(path, q) in pending - {child}
    ensures Child(path, q) !in pending - {child} ==> !Foreign(before[q], device)
  {
    hide Below, AtOrBelow, Child, Rooted, ForeignKept;
    BelowChild(path, child, q);
    assert q !in Inside(emptied, child);
    assert q in start ==> start[q] == before[q];
    assert q in start && Below(child, q) ==> !Foreign(start[q], device);
  }

  lemma GoneInside(before: map<Path, Entry>, start: map<Path, Entry>, emptied: map<Path, Entry>,
                   after: map<Path, Entry>, path: Path, device: int, pending: set<Path>, child: Path)
    requires Partway(before, start, path, device, pending) && child in pending
             && ChildGone(start, emptied, after, path, device, child)
    ensures OnlyInside(before, after, path)
  {
    hide Below, AtOrBelow, Child, Rooted, ForeignBelow, Foreign, Inside;
    ChildEmptied(before, start, emptied, path, device, pending, child);
    hide ForeignKept;
  }

  /** An emptied child that has gone leaves the others as they were. */
  lemma ChildRemoved(before: map<Path, Entry>, start: map<Path, Entry>, emptied: map<Path, Entry>,
                     after: map<Path, Entry>, path: Path, device: int, pending: set<Path>, child: Path)
    requires Partway(before, start, path, device, pending) && child in pending
             && ChildGone(start, emptied, after, path, device, child)
    requires Rooted(after)
    ensures Partway(before, after, path, device, pending - {child})
  {
    hide Below, AtOrBelow, Child, Rooted, ForeignBelow, Foreign, Inside, OnlyInside;
    GoneInside(before, start, emptied, after, path, device, pending, child);
    forall q | q in before && Below(path, q)
      ensures q in after <==> Child(path, q) in pending - {child}
      ensures Child(path, q) !in pending - {child} ==> !Foreign(before[q], device)
    {
      GonePending(before, start, emptied, after, path, device, pending, child, q);
    }
    forall q, r | q in before && Below(path, q) && Foreign(before[q], device) && r in before && AtOrBelow(q, r)
      ensures r in after
    {
      GoneKeepsForeign(before, start, emptied, after, path, device, pending, child, q, r);
    }
    forall q | q in pending - {child}
      ensures q in after
    {
      SiblingStays(start, emptied, child, q);
    }
  }

  lemma SiblingStays(start: map<Path, Entry>, emptied: map<Path, Entry>, child: Path, q: Path)
    requires OnlyInside(start, emptied, child) && q in start && |q| == |child|
    ensures q in emptied
  {
    SiblingNotBelow(child, q);
  }

  class FileSystem {
    /** When false, no system call fails. */
    const faulty: bool
    var entries: map<Path, Entry>

    ghost predicate Valid()
      reads this
    {
      Rooted(entries)
    }

    method Unlink(path: Path) returns (ok: bool)
      requires Valid() && path in entries && !entries[path].Directory?
      modifies this`entries
      ensures Valid() && entries == if ok then old(entries) - {path} else old(entries)
      ensures !faulty ==> ok
    {
      var failed: bool := *;
      if faulty && failed { return false; }
      NonDirectoryIsLeaf(entries, path);
      WithoutLeaf(entries, path);
      entries := entries - {path};
      return true;
    }

    method Rmdir(path: Path) returns (ok: bool)
      requires Valid() && path in entries
      modifies this`entries
      ensures Valid() && entries == if ok then old(entries) - {path} else old(entries)
      ensures ok ==> Inside(old(entries), path) == {}
      ensures !faulty && Inside(old(entries), path) == {} ==> ok
    {
      var failed: bool := *;
      if (faulty && failed) || Inside(entries, path) != {} { return false; }
      WithoutLeaf(entries, path);
      entries := entries - {path};
      return true;
    }

    /** removeDirectoryContentsNoFollow */
    method RemoveContents(path: Path, device: int, inode: int) returns (ok: bool)
      requires Valid() && path in entries
      modifies this`entries
      ensures Valid() && OnlyInside(old(entries), entries, path)
      ensures ForeignKept(old(entries), entries, path, device)
      ensures ok ==> Inside(entries, path) == {}
      ensures ok ==> !ForeignBelow(old(entries), path, device)
      ensures !faulty && !ok ==>
                old(entries)[path] != Directory(device, inode) || ForeignBelow(old(entries), path, device)
      decreases Inside(entries, path)
    {
      hide Partway, OnlyInside, ForeignKept, ForeignBelow, Rooted, Below, AtOrBelow;
      Unchanged(entries, path, device);
      if entries[path] != Directory(device, inode) { return false; }
      var unreadable: bool := *;
      if faulty && unreadable { return false; }
      ghost var before := entries;
      var pending := set q | q in entries && |q| == |path| + 1 && Below(path, q);
      StartPartway(before, path, device, pending);
      while pending != {}
        invariant Partway(before, entries, path, device, pending)
        invariant path in entries && entries[path] == Directory(device, inode)
      {
        var child: Path :| child in pending;
        PartwayMeans(before, entries, path, device, pending);
        ok := RemoveChild(before, path, device, pending, child, inode);
        if !ok { return; }
        pending := pending - {child};
      }
      PartwayMeans(before, entries, path, device, pending);
      NothingPending(before, entries, path, device);
      ok := true;
    }

    /** One turn of the loop: a link or file is unlinked, a directory of the same device is emptied first. */
    method RemoveChild(ghost before: map<Path, Entry>, path: Path, device: int, pending: set<Path>, child: Path,
                       inode: int)
      returns (ok: bool)
      requires Partway(before, entries, path, device, pending) && child in pending
      requires path in entries && entries[path] == Directory(device, inode)
      modifies this`entries
      ensures Valid() && OnlyInside(before, entries, path) && ForeignKept(before, entries, path, device)
      ensures ok ==>
                Partway(before, entries, path, device, pending - {child}) && path in entries
                  && entries[path] == old(entries)[path]
      ensures !faulty && !ok ==> ForeignBelow(before, path, device)
      decreases Inside(entries, path), 0
    {
      hide OnlyInside, ForeignKept, ForeignBelow, Rooted, AtOrBelow, Below, Child;
      ghost var start := entries;
      PartwayFacts(before, start, path, device, pending, child);
      var info := entries[child];
      if info.Directory? {
        if info.device != device {
          return false;
        }
        ok := RemoveContents(child, device, info.inode);
        ChildEmptied(before, start, entries, path, device, pending, child);
        if !ok {
          ForeignInherited(before, start, path, device, pending, child);
          return;
        }
        ghost var emptied := entries;
        PathKept(start, emptied, child);
        ok := Rmdir(child);
        PathKept(before, emptied, path);
        if ok { ChildRemoved(before, start, emptied, entries, path, device, pending, child); }
      } else {
        NonDirectoryIsLeaf(entries, child);
        ok := Unlink(child);
        Unchanged(start, child, device);
        if ok { ChildRemoved(before, start, start, entries, path, device, pending, child); }
      }
    }

    /** removeBrowserProfileNoFollow */
    method RemoveProfile(profile: Path, mounts: seq<Mount>) returns (ok: bool)
      requires Valid() && Canonical(profile) && profile != [] && forall m :: m in mounts ==> Canonical(m.path)
      modifies this`entries
      ensures Valid()
      ensures ok ==> profile in old(entries) && entries == old(entries) - Subtree(old(entries), profile)
      ensures OnlyInside(old(entries), entries, profile) || (ok && profile !in entries)
      ensures profile in old(entries) && old(entries)[profile].Directory? ==>
                ForeignKept(old(entries), entries, profile, old(entries)[profile].device)
      ensures CrossesMount(profile, mounts) ==> !ok && entries == old(entries)
      ensures !faulty ==> (ok <==> Removable(old(entries), profile, mounts))
    {
      hide PathAtOrBelow, Rendered, OnlyInside, ForeignKept, ForeignBelow, Rooted, Canonical, Below;
      MountChecks(profile, mounts);
      if profile !in entries || !entries[profile].Directory? {
        Unchanged(entries, profile, 0);
        return false;
      }
      var device, inode := entries[profile].device, entries[profile].inode;
      Unchanged(entries, profile, device);
      if !ClearOfMounts(profile, mounts) { return false; }
      ghost var before := entries;
      ok := RemoveContents(profile, device, inode);
      PathKept(before, entries, profile);
      if !ok { return; }
      if entries[profile] != Directory(device, inode) || !ClearOfMounts(profile, mounts) { return false; }
      ghost var emptied := entries;
      ok := Rmdir(profile);
      if ok { ProfileGone(before, emptied, profile, device); }
    }

    /** assertNoBrowserProfileMountBoundaries does not throw. */
    predicate ClearOfMounts(profile: Path, mounts: seq<Mount>) {
      && (exists m :: m in mounts && PathAtOrBelow(Rendered(m.path, m.slash), Rendered(profile, false)))
      && !exists m :: m in mounts && PathAtOrBelow(Rendered(profile, false), Rendered(m.path, m.slash))
    }

    lemma MountChecks(profile: Path, mounts: seq<Mount>)
      requires Canonical(profile) && profile != [] && forall m :: m in mounts ==> Canonical(m.path)
      ensures ClearOfMounts(profile, mounts) <==> Covered(profile, mounts) && !CrossesMount(profile, mounts)
    {
      forall m | m in mounts
        ensures PathAtOrBelow(Rendered(m.path, m.slash), Rendered(profile, false)) <==> Covers(m, profile)
        ensures PathAtOrBelow(Rendered(profile, false), Rendered(m.path, m.slash)) <==> profile <= m.path
      {
        AtOrBelowIffComponents(m.path, profile, m.slash, false);
        AtOrBelowIffComponents(profile, m.path, false, m.slash);
      }
    }
  }

  /** A mount point at or below the profile, by path components. */
  predicate CrossesMount(profile: Path, mounts: seq<Mount>) {
    exists m :: m in mounts && profile <= m.path
  }

  predicate Covers(m: Mount, profile: Path) {
    m.path <= profile && (m.path == [] || !m.slash)
  }

  predicate Covered(profile: Path, mounts: seq<Mount>) {
    exists m :: m in mounts && Covers(m, profile)
  }

  /** When removal succeeds without failing system calls. */
  predicate Removable(entries: map<Path, Entry>, profile: Path, mounts: seq<Mount>) {
    && profile in entries && entries[profile].Directory?
    && Covered(profile, mounts) && !CrossesMount(profile, mounts)
    && !ForeignBelow(entries, profile, entries[profile].device)
  }

  lemma AtOrBelowSplits(path: Path, q: Path)
    ensures AtOrBelow(path, q) <==> q == path || Below(path, q)
  {
    if AtOrBelow(path, q) && |q| == |path| {
      assert q == path;
    }
  }

  lemma ProfileGone(before: map<Path, Entry>, emptied: map<Path, Entry>, profile: Path, device: int)
    requires OnlyInside(before, emptied, profile) && ForeignKept(before, emptied, profile, device)
    requires profile in emptied && Inside(emptied, profile) == {} && !ForeignBelow(before, profile, device)
    ensures emptied - {profile} == before - Subtree(before, profile)
    ensures ForeignKept(before, emptied - {profile}, profile, device)
  {
    forall q | q in before
      ensures q in emptied - {profile} <==> !AtOrBelow(profile, q)
    {
      AtOrBelowSplits(profile, q);
      assert q !in Inside(emptied, profile);
    }
  }
}
