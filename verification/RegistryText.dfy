/**
 The registry as it is persisted, as text, and what its acceptance means for the paths resolved from it.
 */
module RegistryText {
  import opened Common
  import opened Strings
  import opened PathText
  import opened OwnershipTopology

  datatype RootText = RootText(id: string, kind: Kind, path: string)

  datatype BindingText = BindingText(rootId: string, ns: string)

  datatype WorkspaceText = WorkspaceText(
    id: string, title: string, capability: string, directory: string, bindings: seq<BindingText>)

  datatype RegistryText = RegistryText(roots: seq<RootText>, workspaces: seq<WorkspaceText>, home: string)

  // How it is read.

  function ReadRoots(rs: seq<RootText>): (r: seq<Root>)
    ensures |r| == |rs| && forall i | 0 <= i < |rs| :: r[i] == Root(rs[i].id, rs[i].kind, ReadPath(rs[i].path))
  {
    seq(|rs|, i requires 0 <= i < |rs| => Root(rs[i].id, rs[i].kind, ReadPath(rs[i].path)))
  }

  function ReadBindings(bs: seq<BindingText>): (r: seq<Binding>)
    ensures |r| == |bs| && forall i | 0 <= i < |bs| :: r[i] == Binding(bs[i].rootId, ReadNamespace(bs[i].ns))
  {
    seq(|bs|, i requires 0 <= i < |bs| => Binding(bs[i].rootId, ReadNamespace(bs[i].ns)))
  }

  function ReadWorkspace(w: WorkspaceText): Workspace {
    Workspace(w.id, w.title, w.capability, ReadPath(w.directory), ReadBindings(w.bindings))
  }

  function ReadWorkspaces(ws: seq<WorkspaceText>): (r: seq<Workspace>)
    ensures |r| == |ws| && forall i | 0 <= i < |ws| :: r[i] == ReadWorkspace(ws[i])
  {
    seq(|ws|, i requires 0 <= i < |ws| => ReadWorkspace(ws[i]))
  }

  /** All bindings, workspace by workspace. */
  function Bindings(ws: seq<WorkspaceText>): seq<BindingText> {
    if ws == [] then [] else Bindings(ws[..|ws| - 1]) + ws[|ws| - 1].bindings
  }

  lemma ReadConcat(a: seq<BindingText>, b: seq<BindingText>)
    ensures ReadBindings(a + b) == ReadBindings(a) + ReadBindings(b)
  {
  }

  lemma {:induction false} FlatIsRead(ws: seq<WorkspaceText>)
    ensures Flat(ReadWorkspaces(ws)) == ReadBindings(Bindings(ws))
  {
    if ws != [] {
      var n := |ws| - 1;
      FlatIsRead(ws[..n]);
      assert ReadWorkspaces(ws)[..n] == ReadWorkspaces(ws[..n]);
      ReadConcat(Bindings(ws[..n]), ws[n].bindings);
    }
  }

  /** Acceptance: the DSH home is canonical too, and what is read passes every check. */
  ghost predicate Accepted(titles: Titles, reg: RegistryText) {
    IsCanonical(reg.home) && RegistryOk(titles, ReadRoots(reg.roots), ReadWorkspaces(reg.workspaces), View(reg.home))
  }

  method ValidateText(titles: Titles, reg: RegistryText) returns (ok: bool)
    ensures ok <==> Accepted(titles, reg)
  {
    if !IsCanonical(reg.home) { return false; }
    ok := ValidateManagedRootRegistry(titles, ReadRoots(reg.roots), ReadWorkspaces(reg.workspaces), View(reg.home));
  }

  // The directories the launcher gives to the workspaces.

  /** Binding `k`, resolved below root `r`, gives this path. */
  predicate Gives(reg: RegistryText, k: int, r: int, path: string) {
    var bs := Bindings(reg.workspaces);
    && 0 <= k < |bs| && 0 <= r < |reg.roots| && bs[k].rootId == reg.roots[r].id
    && IsCanonical(reg.roots[r].path) && ResolveNamespace(reg.roots[r].path, bs[k].ns) == Some(path)
  }

  /** Two paths name directories neither of which is the other or lies in it. */
  predicate Apart(p: string, q: string) {
    IsCanonical(p) && IsCanonical(q) && !Nested(View(p).dir, View(q).dir)
  }

  ghost predicate PathsApart(reg: RegistryText) {
    forall k, r, p, l, s, q | Gives(reg, k, r, p) && Gives(reg, l, s, q) && k != l :: Apart(p, q)
  }

  ghost predicate PathsApartFrom(reg: RegistryText, other: string) {
    forall k, r, p | Gives(reg, k, r, p) :: Apart(p, other)
  }

  /** Every resolved path is apart from every other one, from every working directory and from the DSH home. */
  ghost predicate AllApartText(reg: RegistryText) {
    && PathsApart(reg)
    && (forall i | 0 <= i < |reg.workspaces| :: PathsApartFrom(reg, reg.workspaces[i].directory))
    && PathsApartFrom(reg, reg.home)
  }

  /** Every binding resolves, below whatever root it names. */
  ghost predicate EveryBindingResolves(reg: RegistryText) {
    var bs := Bindings(reg.workspaces);
    forall k | 0 <= k < |bs| && IsNamespace(bs[k].ns) :: !DotDot(Split(bs[k].ns, '/')[0])
  }

  lemma ResolvesOnRead(reg: RegistryText)
    requires EveryBindingResolves(reg)
    ensures AllResolve(Flat(ReadWorkspaces(reg.workspaces)))
  {
    FlatIsRead(reg.workspaces);
  }

  /** A resolved path names the directory that the reading of the registry gives to the binding. */
  lemma GivesDirectory(reg: RegistryText, k: int, r: int, path: string)
    ensures var roots, bs := ReadRoots(reg.roots), Flat(ReadWorkspaces(reg.workspaces));
            Gives(reg, k, r, path) ==>
              Below(roots, bs, k, r) && IsCanonical(path) && View(path).dir == DirectoryOf(roots, bs, k, r)
  {
    FlatIsRead(reg.workspaces);
    if Gives(reg, k, r, path) {
      ResolveView(reg.roots[r].path, Bindings(reg.workspaces)[k].ns);
    }
  }

  lemma BelowGives(reg: RegistryText, k: int, r: int) returns (path: string)
    requires EveryBindingResolves(reg) && Below(ReadRoots(reg.roots), Flat(ReadWorkspaces(reg.workspaces)), k, r)
    ensures Gives(reg, k, r, path)
  {
    FlatIsRead(reg.workspaces);
    var root, ns := reg.roots[r].path, Bindings(reg.workspaces)[k].ns;
    ResolveTestIsExact(root, ns);
    path := Resolve(root, ns);
  }

  lemma PathsApartIff(reg: RegistryText)
    requires EveryBindingResolves(reg)
    ensures PathsApart(reg) <==> OwnedApart(ReadRoots(reg.roots), Flat(ReadWorkspaces(reg.workspaces)))
  {
    var roots, bs := ReadRoots(reg.roots), Flat(ReadWorkspaces(reg.workspaces));
    if PathsApart(reg) {
      forall k, l, r, s | Below(roots, bs, k, r) && Below(roots, bs, l, s) && k != l
        ensures !Nested(DirectoryOf(roots, bs, k, r), DirectoryOf(roots, bs, l, s))
      {
        var p := BelowGives(reg, k, r);
        var q := BelowGives(reg, l, s);
        GivesDirectory(reg, k, r, p);
        GivesDirectory(reg, l, s, q);
        assert Apart(p, q);
      }
    }
    if OwnedApart(roots, bs) {
      forall k, r, p, l, s, q | Gives(reg, k, r, p) && Gives(reg, l, s, q) && k != l ensures Apart(p, q) {
        GivesDirectory(reg, k, r, p);
        GivesDirectory(reg, l, s, q);
      }
    }
  }

  lemma PathsApartFromIff(reg: RegistryText, other: string)
    requires EveryBindingResolves(reg) && IsCanonical(other)
    ensures PathsApartFrom(reg, other) <==> ApartFrom(ReadRoots(reg.roots), Flat(ReadWorkspaces(reg.workspaces)), View(other))
  {
    var roots, bs := ReadRoots(reg.roots), Flat(ReadWorkspaces(reg.workspaces));
    if PathsApartFrom(reg, other) {
      forall k, r | Below(roots, bs, k, r) ensures !Nested(DirectoryOf(roots, bs, k, r), View(other).dir) {
        var p := BelowGives(reg, k, r);
        GivesDirectory(reg, k, r, p);
        assert Apart(p, other);
      }
    }
    if ApartFrom(roots, bs, View(other)) {
      forall k, r, p | Gives(reg, k, r, p) ensures Apart(p, other) {
        GivesDirectory(reg, k, r, p);
      }
    }
  }

  lemma DirectoryReads(titles: Titles, reg: RegistryText, i: int)
    requires Accepted(titles, reg) && 0 <= i < |reg.workspaces|
    ensures IsCanonical(reg.workspaces[i].directory)
    ensures ReadWorkspaces(reg.workspaces)[i].directory == Some(View(reg.workspaces[i].directory))
  {
    assert WorkspaceOk(titles, ReadWorkspaces(reg.workspaces)[i], ReadRoots(reg.roots), View(reg.home));
  }

  lemma TextDisjointIff(titles: Titles, reg: RegistryText)
    requires Accepted(titles, reg) && EveryBindingResolves(reg)
    ensures AllApartText(reg) <==> Disjoint(ReadRoots(reg.roots), ReadWorkspaces(reg.workspaces), View(reg.home))
  {
    var roots, ws := ReadRoots(reg.roots), ReadWorkspaces(reg.workspaces);
    PathsApartIff(reg);
    PathsApartFromIff(reg, reg.home);
    forall i | 0 <= i < |ws|
      ensures ws[i].directory.Some?
      ensures PathsApartFrom(reg, reg.workspaces[i].directory) <==> ApartFrom(roots, Flat(ws), ws[i].directory.value)
    {
      DirectoryReads(titles, reg, i);
      PathsApartFromIff(reg, reg.workspaces[i].directory);
    }
  }

  /**
   In every accepted registry whose namespaces resolve, the resolved paths are apart from each other, from
   every working directory and from the DSH home exactly when nothing is hidden from the overlap test.
   */
  lemma ResolvedPathsAreApartIff(titles: Titles, reg: RegistryText)
    requires Accepted(titles, reg) && EveryBindingResolves(reg)
    ensures AllApartText(reg) <==> Visible(ReadRoots(reg.roots), ReadWorkspaces(reg.workspaces), View(reg.home))
  {
    ResolvesOnRead(reg);
    TextDisjointIff(titles, reg);
    OwnershipIsDisjointIff(titles, ReadRoots(reg.roots), ReadWorkspaces(reg.workspaces), View(reg.home));
  }

  predicate PlainText(path: string) {
    IsCanonical(path) ==> Plain(View(path))
  }

  /** No path of the registry ends with a separator or has a segment that begins with two dots. */
  ghost predicate PlainlySpelled(reg: RegistryText) {
    && PlainText(reg.home)
    && (forall r | 0 <= r < |reg.roots| :: PlainText(reg.roots[r].path))
    && (forall i | 0 <= i < |reg.workspaces| :: PlainText(reg.workspaces[i].directory))
  }

  lemma PlainOnRead(reg: RegistryText)
    requires IsCanonical(reg.home) && PlainlySpelled(reg)
    ensures AllPlain(ReadRoots(reg.roots), ReadWorkspaces(reg.workspaces), View(reg.home))
  {
    forall r | 0 <= r < |reg.roots| && IsCanonical(reg.roots[r].path) ensures Plain(View(reg.roots[r].path)) {
      assert PlainText(reg.roots[r].path);
    }
    forall i | 0 <= i < |reg.workspaces| && IsCanonical(reg.workspaces[i].directory) ensures Plain(View(reg.workspaces[i].directory)) {
      assert PlainText(reg.workspaces[i].directory);
    }
  }

  /** So with plainly spelled paths all of them are apart. */
  lemma PlainPathsAreApart(titles: Titles, reg: RegistryText)
    requires Accepted(titles, reg) && EveryBindingResolves(reg) && PlainlySpelled(reg)
    ensures AllApartText(reg)
  {
    ResolvesOnRead(reg);
    TextDisjointIff(titles, reg);
    PlainOnRead(reg);
    PlainRegistryIsDisjoint(titles, ReadRoots(reg.roots), ReadWorkspaces(reg.workspaces), View(reg.home));
  }

  // The condition matters: two registries that are accepted and give nested directories.

  const NAMES := ["root-a", "root-b", "root-c", "root-d"]
  const KINDS := [Harness, Plugins, Presets, Settings]

  /** Accepted, with namespaces that resolve, and yet not apart. */
  ghost predicate Slips(titles: Titles, reg: RegistryText) {
    Accepted(titles, reg) && EveryBindingResolves(reg) && !AllApartText(reg)
  }

  /** Four roots, one workspace bound to the same namespace below each of them. */
  function OneWorkspace(paths: seq<string>, title: string, directory: string, home: string): RegistryText
    requires |paths| == 4
  {
    RegistryText(
      seq(4, i requires 0 <= i < 4 => RootText(NAMES[i], KINDS[i], paths[i])),
      [WorkspaceText("workspace", title, "capability", directory, seq(4, i requires 0 <= i < 4 => BindingText(NAMES[i], "n")))],
      home)
  }

  /** A canonical text and the place it names. */
  predicate Spells(path: string, place: Place) {
    IsCanonical(path) && View(path) == place
  }

  /** Four places the launcher accepts as roots, next to a working directory and the DSH home. */
  ghost predicate Admissible(ps: seq<Place>, w: Place, h: Place) {
    && |ps| == 4 && PlaceOk(Some(w), h)
    && (forall i | 0 <= i < 4 :: PlaceOk(Some(ps[i]), h) && !SeesOverlap(ps[i], w))
    && (forall i, j | 0 <= i < j < 4 :: !SeesOverlap(ps[i], ps[j]))
  }

  lemma NamesAreValid()
    ensures forall i | 0 <= i < 4 :: IsOpaqueId(NAMES[i])
    ensures forall i, j | 0 <= i < j < 4 :: NAMES[i] != NAMES[j] && KINDS[i] != KINDS[j]
    ensures IsOpaqueId("workspace") && IsOpaqueId("capability")
  {
  }

  lemma NameIsNamespace()
    ensures IsNamespace("n") && Split("n", '/') == ["n"] && ReadNamespace("n") == Some(["n"])
  {
    NoSeparator("n", '/');
  }

  lemma RootsAccepted(roots: seq<Root>, ps: seq<Place>, w: Place, h: Place)
    requires Admissible(ps, w, h)
    requires |roots| == 4 && forall i | 0 <= i < 4 :: roots[i] == Root(NAMES[i], KINDS[i], Some(ps[i]))
    ensures LayoutOk(roots, h) && forall i | 0 <= i < 4 :: Outside(Some(w), roots[i])
  {
    NamesAreValid();
  }

  lemma BindingsAccepted(roots: seq<Root>, bs: seq<Binding>)
    requires |roots| == |bs| == 4
    requires forall i | 0 <= i < 4 :: roots[i].id == NAMES[i] && bs[i] == Binding(NAMES[i], Some(["n"]))
    ensures BindingsOk(bs, roots) && Separate(bs)
  {
    NamesAreValid();
  }

  lemma WorkspaceAccepted(titles: Titles, title: string, roots: seq<Root>, ws: seq<Workspace>, bs: seq<Binding>, ps: seq<Place>, w: Place, h: Place)
    requires titles.valid(title) && Admissible(ps, w, h)
    requires |roots| == 4 && forall i | 0 <= i < 4 :: roots[i] == Root(NAMES[i], KINDS[i], Some(ps[i]))
    requires |bs| == 4 && forall i | 0 <= i < 4 :: bs[i] == Binding(NAMES[i], Some(["n"]))
    requires ws == [Workspace("workspace", title, "capability", Some(w), bs)]
    ensures RegistryOk(titles, roots, ws, h)
  {
    NamesAreValid();
    RootsAccepted(roots, ps, w, h);
    BindingsAccepted(roots, bs);
    assert ws[..0] == [];
    assert Flat(ws) == Flat([]) + bs == bs;
  }

  lemma OneWorkspaceAccepted(titles: Titles, paths: seq<string>, title: string, directory: string, home: string, ps: seq<Place>, w: Place, h: Place)
    requires |paths| == 4 && titles.valid(title) && Admissible(ps, w, h)
    requires Spells(directory, w) && Spells(home, h) && forall i | 0 <= i < 4 :: Spells(paths[i], ps[i])
    ensures Accepted(titles, OneWorkspace(paths, title, directory, home))
  {
    var reg := OneWorkspace(paths, title, directory, home);
    var ws := ReadWorkspaces(reg.workspaces);
    NameIsNamespace();
    WorkspaceAccepted(titles, title, ReadRoots(reg.roots), ws, ws[0].bindings, ps, w, h);
  }

  lemma OneWorkspaceGives(paths: seq<string>, title: string, directory: string, home: string, r: int)
    requires |paths| == 4 && 0 <= r < 4 && IsCanonical(paths[r])
    ensures var reg := OneWorkspace(paths, title, directory, home);
            EveryBindingResolves(reg) && Gives(reg, r, r, Resolve(paths[r], "n"))
    ensures IsCanonical(Resolve(paths[r], "n")) && View(Resolve(paths[r], "n")).dir == View(paths[r]).dir + ["n"]
  {
    var reg := OneWorkspace(paths, title, directory, home);
    NameIsNamespace();
    ResolveTestIsExact(paths[r], "n");
    ResolveView(paths[r], "n");
    assert reg.workspaces[..0] == [];
    assert Bindings(reg.workspaces) == Bindings([]) + reg.workspaces[0].bindings == reg.workspaces[0].bindings;
  }

  lemma ShortPath(name: string)
    requires IsSegment(name) && '\0' !in name
    ensures Spells("/" + name, Place([name], false))
  {
    ViewJoin([name]);
    assert [""] + [name] == ["", name];
    assert Join(["", name], '/') == "" + ['/'] + Join([name], '/') by { assert ["", name][1..] == [name]; }
    assert "" + ['/'] + name == "/" + name;
  }

  lemma TrailingPath(path: string, name: string)
    requires Spells(path, Place([name], false))
    ensures Spells(path + "/", Place([name], true))
  {
    ViewChild(path, "");
    assert path + ['/'] + "" == path + "/";
  }

  lemma ChildPath(path: string, name: string, child: string)
    requires Spells(path, Place([name], false)) && IsSegment(child) && '\0' !in child
    ensures Spells(path + "/" + child, Place([name, child], false))
  {
    ViewChild(path, child);
    assert path + ['/'] + child == path + "/" + child;
    assert [name] + [child] == [name, child];
  }

  /** A directory name that no check objects to, such as `a`. */
  predicate Simple(name: string) {
    IsSegment(name) && '\0' !in name && name != ".dsh"
  }

  /** Five such names, pairwise different. */
  predicate Simples(names: seq<string>) {
    |names| == 5 && (forall i | 0 <= i < 5 :: Simple(names[i])) && forall i, j | 0 <= i < j < 5 :: names[i] != names[j]
  }

  lemma TwinsAreAdmissible(n: seq<string>, ps: seq<Place>)
    requires Simples(n)
    requires ps == [Place([n[0]], false), Place([n[0]], true), Place([n[1]], false), Place([n[2]], false)]
    ensures Admissible(ps, Place([n[3]], false), Place([n[4]], false))
  {
  }

  lemma TwinsSlip(titles: Titles, paths: seq<string>, title: string, directory: string, home: string, ps: seq<Place>, w: Place, h: Place)
    requires |paths| == 4 && titles.valid(title) && Admissible(ps, w, h) && ps[0].dir == ps[1].dir
    requires Spells(directory, w) && Spells(home, h) && forall i | 0 <= i < 4 :: Spells(paths[i], ps[i])
    ensures Slips(titles, OneWorkspace(paths, title, directory, home))
  {
    OneWorkspaceAccepted(titles, paths, title, directory, home, ps, w, h);
    OneWorkspaceGives(paths, title, directory, home, 0);
    OneWorkspaceGives(paths, title, directory, home, 1);
    assert !Apart(Resolve(paths[0], "n"), Resolve(paths[1], "n"));
  }

  /** Roots at `/a` and `/a/` pass every check, and give the same directory to one workspace twice. */
  lemma TwinRootsShareDirectory(titles: Titles, title: string, n: seq<string>)
    requires titles.valid(title) && Simples(n)
    ensures Slips(titles, OneWorkspace(["/" + n[0], "/" + n[0] + "/", "/" + n[1], "/" + n[2]], title, "/" + n[3], "/" + n[4]))
  {
    forall i | 0 <= i < 5 ensures Spells("/" + n[i], Place([n[i]], false)) {
      ShortPath(n[i]);
    }
    TrailingPath("/" + n[0], n[0]);
    var ps := [Place([n[0]], false), Place([n[0]], true), Place([n[1]], false), Place([n[2]], false)];
    var paths := ["/" + n[0], "/" + n[0] + "/", "/" + n[1], "/" + n[2]];
    TwinsAreAdmissible(n, ps);
    TwinsSlip(titles, paths, title, "/" + n[3], "/" + n[4], ps, Place([n[3]], false), Place([n[4]], false));
  }

  lemma DottedIsAdmissible(n: seq<string>, child: string, ps: seq<Place>)
    requires Simples(n) && Simple(child) && DotDot(child)
    requires ps == [Place([n[4], child], false), Place([n[0]], false), Place([n[1]], false), Place([n[2]], false)]
    ensures Admissible(ps, Place([n[3]], false), Place([n[4]], false))
  {
  }

  lemma BelowHomeSlips(titles: Titles, paths: seq<string>, title: string, directory: string, home: string, ps: seq<Place>, w: Place, h: Place)
    requires |paths| == 4 && titles.valid(title) && Admissible(ps, w, h) && h.dir <= ps[0].dir
    requires Spells(directory, w) && Spells(home, h) && forall i | 0 <= i < 4 :: Spells(paths[i], ps[i])
    ensures Slips(titles, OneWorkspace(paths, title, directory, home))
  {
    OneWorkspaceAccepted(titles, paths, title, directory, home, ps, w, h);
    OneWorkspaceGives(paths, title, directory, home, 0);
    assert h.dir <= ps[0].dir + ["n"];
    assert !Apart(Resolve(paths[0], "n"), home);
  }

  /** A root at `/h/..a` next to the DSH home `/h` passes every check, and its directory lies in that home. */
  lemma DottedRootLiesInHome(titles: Titles, title: string, n: seq<string>, child: string)
    requires titles.valid(title) && Simples(n) && Simple(child) && DotDot(child)
    ensures Slips(titles, OneWorkspace(["/" + n[4] + "/" + child, "/" + n[0], "/" + n[1], "/" + n[2]], title, "/" + n[3], "/" + n[4]))
  {
    forall i | 0 <= i < 5 ensures Spells("/" + n[i], Place([n[i]], false)) {
      ShortPath(n[i]);
    }
    ChildPath("/" + n[4], n[4], child);
    var ps := [Place([n[4], child], false), Place([n[0]], false), Place([n[1]], false), Place([n[2]], false)];
    var paths := ["/" + n[4] + "/" + child, "/" + n[0], "/" + n[1], "/" + n[2]];
    DottedIsAdmissible(n, child, ps);
    BelowHomeSlips(titles, paths, title, "/" + n[3], "/" + n[4], ps, Place([n[3]], false), Place([n[4]], false));
  }
}
