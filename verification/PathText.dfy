/**
 POSIX paths as the launcher compares them: by string, through `path.relative`.

 A canonical path is read as a place: the directory it names, as a list of segments, and whether it is
 spelled with a trailing separator. The lemmas say which places the string tests relate.
 */
module PathText {
  import opened Common
  import opened Strings

  predicate IsSegment(s: string) {
    s != "" && s != "." && s != ".." && '/' !in s
  }

  predicate AreSegments(ss: seq<string>) {
    forall i | 0 <= i < |ss| :: IsSegment(ss[i])
  }

  datatype Place = Place(dir: seq<string>, trailing: bool)

  /** The pieces of an absolute, normalized path that is not the filesystem root; normalizing keeps one trailing separator. */
  predicate ArePieces(parts: seq<string>) {
    && |parts| >= 2 && parts[0] == "" && parts[1] != ""
    && (forall i | 0 < i < |parts| - 1 :: IsSegment(parts[i]))
    && (IsSegment(parts[|parts| - 1]) || (parts[|parts| - 1] == "" && |parts| >= 3))
  }

  predicate IsCanonical(path: string) {
    '\0' !in path && ArePieces(Split(path, '/'))
  }

  function PlaceOfPieces(parts: seq<string>): (p: Place)
    requires ArePieces(parts)
    ensures p.dir != [] && AreSegments(p.dir)
    ensures parts == [""] + p.dir + if p.trailing then [""] else []
  {
    if parts[|parts| - 1] == "" then Place(parts[1..|parts| - 1], true) else Place(parts[1..], false)
  }

  function View(path: string): (p: Place)
    requires IsCanonical(path)
    ensures p.dir != [] && AreSegments(p.dir)
  {
    PlaceOfPieces(Split(path, '/'))
  }

  /** A place has one spelling. */
  lemma ViewInjective(p: string, q: string)
    requires IsCanonical(p) && IsCanonical(q) && View(p) == View(q)
    ensures p == q
  {
    SplitInjective(p, q, '/');
  }

  function Shared(a: seq<string>, b: seq<string>): (k: nat)
    ensures k <= |a| && k <= |b| && a[..k] == b[..k]
    ensures k < |a| && k < |b| ==> a[k] != b[k]
  {
    if a == [] || b == [] || a[0] != b[0] then 0 else 1 + Shared(a[1..], b[1..])
  }

  function Ups(n: nat): (ss: seq<string>)
    ensures |ss| == n && forall i | 0 <= i < n :: ss[i] == ".."
  {
    seq(n, i => "..")
  }

  /** `path.relative` between two directories: up out of what is not shared, then down. */
  function RelativeDirs(from: seq<string>, to: seq<string>): string {
    Join(Ups(|from| - Shared(from, to)) + to[Shared(from, to)..], '/')
  }

  /** The launcher's reading of a relative path: not empty, not beginning with two dots, not absolute. */
  predicate LeadsInside(relative: string) {
    relative != "" && !StartsWith(relative, "..") && !StartsWith(relative, "/")
  }

  predicate IsSameOrAncestor(parent: string, child: string)
    requires IsCanonical(parent) && IsCanonical(child)
  {
    parent == child || LeadsInside(RelativeDirs(View(parent).dir, View(child).dir))
  }

  predicate PathsOverlap(left: string, right: string)
    requires IsCanonical(left) && IsCanonical(right)
  {
    IsSameOrAncestor(left, right) || IsSameOrAncestor(right, left)
  }

  predicate DotDot(s: string) {
    StartsWith(s, "..")
  }

  /** What the test sees of two places: the same spelling, or a descent whose first segment does not begin with two dots. */
  predicate Descends(p: seq<string>, c: seq<string>) {
    p < c && !DotDot(c[|p|])
  }

  predicate SeesOverlap(p: Place, q: Place) {
    p == q || Descends(p.dir, q.dir) || Descends(q.dir, p.dir)
  }

  lemma JoinStarts(ss: seq<string>)
    requires ss != [] && (IsSegment(ss[0]) || ss[0] == "..")
    ensures LeadsInside(Join(ss, '/')) <==> !DotDot(ss[0])
  {
    var j, s := Join(ss, '/'), ss[0];
    assert j == s || j == s + ['/'] + Join(ss[1..], '/');
    assert s <= j;
    assert !StartsWith(j, "/") by { assert j[0] == s[0]; }
    if |s| == 1 && |j| > 1 { assert j[1] == '/'; }
    if |s| >= 2 { assert j[0] == s[0] && j[1] == s[1]; }
    if StartsWith(j, "..") { assert j[0] == '.' && j[1] == '.'; }
    if |s| == 1 { assert s == [s[0]]; }
  }

  lemma RelativeIsExact(p: seq<string>, c: seq<string>)
    requires AreSegments(c)
    ensures LeadsInside(RelativeDirs(p, c)) <==> Descends(p, c)
  {
    var k := Shared(p, c);
    var parts := Ups(|p| - k) + c[k..];
    if k < |p| {
      JoinStarts(parts);
    } else {
      assert parts == c[k..];
      if k < |c| { JoinStarts(c[k..]); }
    }
  }

  /** The string test is exactly what it sees of the two places. */
  lemma OverlapBySight(left: string, right: string)
    requires IsCanonical(left) && IsCanonical(right)
    ensures PathsOverlap(left, right) <==> SeesOverlap(View(left), View(right))
  {
    RelativeIsExact(View(left).dir, View(right).dir);
    RelativeIsExact(View(right).dir, View(left).dir);
    if View(left) == View(right) { ViewInjective(left, right); }
  }

  /** One directory is the other or lies in it. */
  predicate Nested(a: seq<string>, b: seq<string>) {
    a <= b || b <= a
  }

  /** Nested places that the test takes for separate: another spelling, or a first segment beginning with two dots. */
  predicate Hidden(p: Place, q: Place) {
    || (p.dir == q.dir && p.trailing != q.trailing)
    || (p.dir < q.dir && DotDot(q.dir[|p.dir|]))
    || (q.dir < p.dir && DotDot(p.dir[|q.dir|]))
  }

  lemma SightIsExact(p: Place, q: Place)
    ensures (SeesOverlap(p, q) <==> Nested(p.dir, q.dir)) <==> !Hidden(p, q)
    ensures SeesOverlap(p, q) ==> Nested(p.dir, q.dir)
  {
  }

  /** The overlap test agrees with the directories exactly when the pair is not hidden from it; it never errs the other way. */
  lemma OverlapTestIsExact(left: string, right: string)
    requires IsCanonical(left) && IsCanonical(right)
    ensures var p, q := View(left), View(right);
            && ((PathsOverlap(left, right) <==> Nested(p.dir, q.dir)) <==> !Hidden(p, q))
            && (PathsOverlap(left, right) ==> Nested(p.dir, q.dir))
  {
    OverlapBySight(left, right);
    SightIsExact(View(left), View(right));
  }

  lemma ViewChild(path: string, name: string)
    requires IsCanonical(path) && !View(path).trailing && '/' !in name && '\0' !in name && name != "." && name != ".."
    ensures var child := path + ['/'] + name;
            && IsCanonical(child)
            && View(child) == if name == "" then Place(View(path).dir, true) else Place(View(path).dir + [name], false)
  {
    var child := path + ['/'] + name;
    SplitAtSeparator(path, name, '/');
    NoSeparator(name, '/');
    var parts := Split(path, '/');
    assert Split(child, '/') == parts + [name];
    assert parts == [""] + View(path).dir;
    assert forall i | 0 <= i < |parts| :: (parts + [name])[i] == parts[i];
    if name == "" {
      assert (parts + [name])[1..|parts|] == View(path).dir;
    } else {
      assert (parts + [name])[1..] == View(path).dir + [name];
    }
  }

  lemma SlashA()
    ensures IsCanonical("/a") && View("/a") == Place(["a"], false)
  {
    SplitAtSeparator("", "a", '/');
    NoSeparator("", '/');
    NoSeparator("a", '/');
    assert "" + ['/'] + "a" == "/a";
    assert Split("/a", '/') == ["", "a"];
  }

  /** One blind spot: a directory and its trailing-separator spelling. */
  lemma SpellingIsHidden()
    ensures IsCanonical("/a") && IsCanonical("/a/")
    ensures !PathsOverlap("/a", "/a/") && View("/a").dir == View("/a/").dir
  {
    SlashA();
    ViewChild("/a", "");
    assert "/a" + ['/'] + "" == "/a/";
    OverlapBySight("/a", "/a/");
  }

  lemma SlashADotted()
    ensures IsCanonical("/a/..b") && View("/a/..b") == Place(["a", "..b"], false)
  {
    SlashA();
    ViewChild("/a", "..b");
    assert "/a" + ['/'] + "..b" == "/a/..b";
    assert ["a"] + ["..b"] == ["a", "..b"];
  }

  /** The other: a child whose name begins with two dots. */
  lemma DottedChildIsHidden()
    ensures IsCanonical("/a") && IsCanonical("/a/..b")
    ensures !PathsOverlap("/a", "/a/..b") && View("/a").dir < View("/a/..b").dir
  {
    SlashA();
    SlashADotted();
    OverlapBySight("/a", "/a/..b");
  }

  // Namespaces.

  predicate UnsafeChar(c: char) {
    c < ' ' || c in {'<', '>', ':', '"', '|', '?', '*'}
  }

  predicate SafeSegment(s: string) {
    s != "" && s != "." && s != ".." && forall j | 0 <= j < |s| :: !UnsafeChar(s[j])
  }

  predicate IsNamespace(ns: string) {
    0 < |ns| <= 512 && '\\' !in ns && forall i | 0 <= i < |Split(ns, '/')| :: SafeSegment(Split(ns, '/')[i])
  }

  predicate NamespaceOverlaps(left: string, right: string) {
    left == right || StartsWith(left, right + "/") || StartsWith(right, left + "/")
  }

  /** The namespace test is exact: it compares whole segments. */
  lemma NamespaceTestIsExact(left: string, right: string)
    ensures NamespaceOverlaps(left, right) <==> Nested(Split(left, '/'), Split(right, '/'))
  {
    PrefixIsPiecewise(left, right, '/');
    PrefixIsPiecewise(right, left, '/');
    if Split(left, '/') == Split(right, '/') { SplitInjective(left, right, '/'); }
  }

  /** A namespace is portable: no separator of another system, no control and no reserved character anywhere in it. */
  lemma NamespaceIsPortable(ns: string, c: char)
    requires IsNamespace(ns) && c in ns
    ensures |ns| <= 512 && c >= ' ' && c !in "\\<>:\"|?*"
  {
    var parts := Split(ns, '/');
    if c != '/' && forall i | 0 <= i < |parts| :: c !in parts[i] {
      JoinAvoids(parts, '/', c);
      JoinSplit(ns, '/');
      assert false;
    }
    if c != '/' {
      var i :| 0 <= i < |parts| && c in parts[i];
      assert SafeSegment(parts[i]);
    }
  }

  /** The normalized path of a namespace below a root, as `path.resolve` gives it. */
  function Resolve(root: string, ns: string): string
    requires IsCanonical(root)
  {
    Join([""] + (View(root).dir + Split(ns, '/')), '/')
  }

  lemma NamespacePieces(ns: string)
    requires IsNamespace(ns)
    ensures AreSegments(Split(ns, '/')) && Printable(Split(ns, '/'))
  {
    PiecesAvoid(ns, '/', '/');
    forall i | 0 <= i < |Split(ns, '/')| ensures '\0' !in Split(ns, '/')[i] {
      assert SafeSegment(Split(ns, '/')[i]);
    }
  }

  lemma PiecesOfDirectory(dir: seq<string>)
    requires dir != [] && AreSegments(dir)
    ensures ArePieces([""] + dir) && PlaceOfPieces([""] + dir) == Place(dir, false)
  {
    var parts := [""] + dir;
    assert parts[1..] == dir && forall i | 0 < i < |parts| :: parts[i] == dir[i - 1];
  }

  predicate Printable(ss: seq<string>) {
    forall i | 0 <= i < |ss| :: '\0' !in ss[i]
  }

  lemma ViewJoin(dir: seq<string>)
    requires dir != [] && AreSegments(dir) && Printable(dir)
    ensures IsCanonical(Join([""] + dir, '/')) && View(Join([""] + dir, '/')) == Place(dir, false)
  {
    PiecesOfDirectory(dir);
    SplitJoin([""] + dir, '/');
    JoinAvoids([""] + dir, '/', '\0');
  }

  lemma ViewPrintable(path: string)
    requires IsCanonical(path)
    ensures Printable(View(path).dir)
  {
    PiecesAvoid(path, '/', '\0');
    var dir, parts := View(path).dir, Split(path, '/');
    forall i | 0 <= i < |dir| ensures '\0' !in dir[i] {
      assert dir[i] == parts[i + 1];
    }
  }

  lemma PrintableConcat(a: seq<string>, b: seq<string>)
    requires Printable(a) && Printable(b) && AreSegments(a) && AreSegments(b)
    ensures Printable(a + b) && AreSegments(a + b)
  {
  }

  /** What is resolved is canonical and names the segments of the namespace below the root, however the root is spelled. */
  lemma ResolveView(root: string, ns: string)
    requires IsCanonical(root) && IsNamespace(ns)
    ensures IsCanonical(Resolve(root, ns)) && View(Resolve(root, ns)) == Place(View(root).dir + Split(ns, '/'), false)
  {
    var dir, tail := View(root).dir, Split(ns, '/');
    NamespacePieces(ns);
    ViewPrintable(root);
    PrintableConcat(dir, tail);
    ViewJoin(dir + tail);
  }

  lemma RootSpelling(root: string)
    requires IsCanonical(root)
    ensures root == Join([""] + View(root).dir, '/') + if View(root).trailing then ['/'] else []
  {
    var trunk := [""] + View(root).dir;
    JoinSplit(root, '/');
    if View(root).trailing {
      assert Split(root, '/') == trunk + [""];
      JoinConcat(trunk, [""], '/');
    } else {
      assert Split(root, '/') == trunk;
    }
  }

  /** As text: the root, one separator and the namespace. */
  lemma ResolveSpelling(root: string, ns: string)
    requires IsCanonical(root)
    ensures Resolve(root, ns) == root + (if View(root).trailing then [] else ['/']) + ns
  {
    RootSpelling(root);
    JoinBelow(View(root).dir, Split(ns, '/'));
    JoinSplit(ns, '/');
  }

  lemma JoinBelow(dir: seq<string>, tail: seq<string>)
    requires tail != []
    ensures Join([""] + (dir + tail), '/') == Join([""] + dir, '/') + ['/'] + Join(tail, '/')
  {
    assert [""] + (dir + tail) == ([""] + dir) + tail;
    JoinConcat([""] + dir, tail, '/');
  }

  /** The launcher's resolution: the path, or None for a namespace it refuses. */
  function ResolveNamespace(root: string, ns: string): Option<string>
    requires IsCanonical(root)
  {
    if !IsNamespace(ns) then None
    else
      var target := Resolve(root, ns);
      if IsCanonical(target) && root != target && IsSameOrAncestor(root, target) then Some(target) else None
  }

  /** A valid namespace is refused below a root exactly when its first segment begins with two dots, whatever the root. */
  lemma ResolveTestIsExact(root: string, ns: string)
    requires IsCanonical(root)
    ensures ResolveNamespace(root, ns) ==
              if IsNamespace(ns) && !DotDot(Split(ns, '/')[0]) then Some(Resolve(root, ns)) else None
  {
    if IsNamespace(ns) {
      ResolveView(root, ns);
      BelowIsSeen(root, Resolve(root, ns), Split(ns, '/'));
    }
  }

  lemma BelowIsSeen(root: string, target: string, tail: seq<string>)
    requires IsCanonical(root) && IsCanonical(target) && tail != [] && View(target).dir == View(root).dir + tail
    ensures root != target && (IsSameOrAncestor(root, target) <==> !DotDot(tail[0]))
  {
    var r, t := View(root).dir, View(target).dir;
    RelativeIsExact(r, t);
    assert r < t && t[|r|] == tail[0];
  }

  // How persisted text is read: what a check refuses is None.

  function ReadPath(path: string): Option<Place> {
    if IsCanonical(path) then Some(View(path)) else None
  }

  function ReadNamespace(ns: string): Option<seq<string>> {
    if IsNamespace(ns) then Some(Split(ns, '/')) else None
  }

  /** Testing the persisted text and testing what is read from it are the same. */
  lemma ReadingIsFaithful(left: string, right: string)
    ensures ReadPath(left).Some? && ReadPath(right).Some? ==>
              (SeesOverlap(ReadPath(left).value, ReadPath(right).value) <==> PathsOverlap(left, right))
    ensures ReadNamespace(left).Some? && ReadNamespace(right).Some? ==>
              (Nested(ReadNamespace(left).value, ReadNamespace(right).value) <==> NamespaceOverlaps(left, right))
  {
    if IsCanonical(left) && IsCanonical(right) { OverlapBySight(left, right); }
    NamespaceTestIsExact(left, right);
  }
}
