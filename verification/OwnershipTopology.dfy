/**
 Who owns which directory: managed roots, workspace namespaces, working directories and the DSH home.

 A persisted path or namespace is given as PathText reads it; None is one its check refuses. Overlap of
 two places is what the launcher's string test sees (PathText.OverlapBySight), and overlap of two
 namespaces is nesting of their segments (PathText.NamespaceTestIsExact).
 */
module OwnershipTopology {
  import opened Common
  import opened PathText

  datatype Kind = Harness | Plugins | Presets | Settings

  datatype Root = Root(id: string, kind: Kind, path: Option<Place>)

  datatype Binding = Binding(rootId: string, ns: Option<seq<string>>)

  datatype Workspace = Workspace(id: string, title: string, capability: string, directory: Option<Place>, bindings: seq<Binding>)

  /** Trimming and folding display names is left to the host. */
  datatype Titles = Titles(valid: string -> bool, key: string -> string)

  predicate IsOpaqueId(s: string) {
    && 3 <= |s| <= 128 && 'a' <= s[0] <= 'z'
    && forall i | 1 <= i < |s| :: 'a' <= s[i] <= 'z' || '0' <= s[i] <= '9' || s[i] == '_' || s[i] == '-'
  }

  /** A launcher-owned place: canonical, without a `.dsh` segment, and apart from the DSH home. */
  predicate PlaceOk(path: Option<Place>, home: Place) {
    path.Some? && ".dsh" !in path.value.dir && !SeesOverlap(path.value, home)
  }

  predicate RootsDiffer(a: Root, b: Root) {
    a.kind != b.kind && a.id != b.id
  }

  predicate RootsApart(a: Root, b: Root) {
    a.path.Some? && b.path.Some? && !SeesOverlap(a.path.value, b.path.value)
  }

  predicate RootOk(root: Root, home: Place) {
    IsOpaqueId(root.id) && PlaceOk(root.path, home)
  }

  ghost predicate AllDiffer(roots: seq<Root>, home: Place) {
    && (forall i | 0 <= i < |roots| :: RootOk(roots[i], home))
    && (forall i, j | 0 <= i < j < |roots| :: RootsDiffer(roots[i], roots[j]))
  }

  ghost predicate LayoutOk(roots: seq<Root>, home: Place) {
    && |roots| == 4
    && AllDiffer(roots, home)
    && (forall i, j | 0 <= i < j < |roots| :: RootsApart(roots[i], roots[j]))
  }

  /** The layout check: one pass that grows the sets of kinds and ids, then all pairs. */
  method AssertManagedRootLayout(roots: seq<Root>, home: Place) returns (ok: bool)
    ensures ok <==> LayoutOk(roots, home)
  {
    if |roots| != 4 { return false; }
    ok := CheckEach(roots, home);
    if !ok { return; }
    ok := AllApart(roots);
  }

  predicate HasKind(roots: seq<Root>, kind: Kind) {
    exists j :: 0 <= j < |roots| && roots[j].kind == kind
  }

  lemma AllDifferSnoc(roots: seq<Root>, root: Root, home: Place)
    requires AllDiffer(roots, home)
    ensures AllDiffer(roots + [root], home) <==> RootOk(root, home) && !HasKind(roots, root.kind) && !Registered(roots, root.id)
  {
    var more := roots + [root];
    assert more[|roots|] == root && forall j | 0 <= j < |roots| :: more[j] == roots[j];
    if j :| 0 <= j < |roots| && !RootsDiffer(roots[j], root) {
      assert !RootsDiffer(more[j], more[|roots|]);
    }
  }

  lemma AllDifferPrefix(roots: seq<Root>, i: nat, home: Place)
    requires i <= |roots| && AllDiffer(roots, home)
    ensures AllDiffer(roots[..i], home)
  {
  }

  lemma SnocKnows(roots: seq<Root>, root: Root, kind: Kind, id: string)
    ensures HasKind(roots + [root], kind) <==> HasKind(roots, kind) || root.kind == kind
    ensures Registered(roots + [root], id) <==> Registered(roots, id) || root.id == id
  {
    var more := roots + [root];
    assert more[|roots|] == root && forall j | 0 <= j < |roots| :: more[j] == roots[j];
  }

  method CheckEach(roots: seq<Root>, home: Place) returns (ok: bool)
    ensures ok <==> AllDiffer(roots, home)
  {
    var kinds: set<Kind>, ids: set<string> := {}, {};
    for i := 0 to |roots|
      invariant forall k :: k in kinds <==> HasKind(roots[..i], k)
      invariant forall d :: d in ids <==> Registered(roots[..i], d)
      invariant AllDiffer(roots[..i], home)
    {
      var root := roots[i];
      assert roots[..i + 1] == roots[..i] + [root];
      AllDifferSnoc(roots[..i], root, home);
      if !RootOk(root, home) || root.kind in kinds || root.id in ids {
        if AllDiffer(roots, home) { AllDifferPrefix(roots, i + 1, home); }
        return false;
      }
      forall k, d ensures HasKind(roots[..i + 1], k) <==> k in kinds || root.kind == k
                  ensures Registered(roots[..i + 1], d) <==> d in ids || root.id == d
      {
        SnocKnows(roots[..i], root, k, d);
      }
      kinds, ids := kinds + {root.kind}, ids + {root.id};
    }
    assert roots[..|roots|] == roots;
    ok := true;
  }

  method AllApart(roots: seq<Root>) returns (ok: bool)
    ensures ok <==> forall i, j | 0 <= i < j < |roots| :: RootsApart(roots[i], roots[j])
  {
    for i := 0 to |roots|
      invariant forall j, k | 0 <= j < i && j < k < |roots| :: RootsApart(roots[j], roots[k])
    {
      for j := i + 1 to |roots|
        invariant forall k | i < k < j :: RootsApart(roots[i], roots[k])
      {
        if !RootsApart(roots[i], roots[j]) { return false; }
      }
    }
    ok := true;
  }

  predicate Registered(roots: seq<Root>, id: string) {
    exists r :: 0 <= r < |roots| && roots[r].id == id
  }

  /** Every root is bound at most once, each binding names a root, and there are as many bindings as roots. */
  ghost predicate BindingsOk(bs: seq<Binding>, roots: seq<Root>) {
    && |bs| == |roots|
    && (forall i | 0 <= i < |bs| :: IsOpaqueId(bs[i].rootId) && bs[i].ns.Some? && Registered(roots, bs[i].rootId))
    && (forall i, j | 0 <= i < j < |bs| :: bs[i].rootId != bs[j].rootId)
  }

  method AssertBindings(bs: seq<Binding>, roots: seq<Root>) returns (ok: bool)
    ensures ok <==> BindingsOk(bs, roots)
  {
    if |bs| != |roots| { return false; }
    var bound: set<string> := {};
    for i := 0 to |bs|
      invariant bound == set j | 0 <= j < i :: bs[j].rootId
      invariant forall j | 0 <= j < i :: IsOpaqueId(bs[j].rootId) && bs[j].ns.Some? && Registered(roots, bs[j].rootId)
      invariant forall j, k | 0 <= j < k < i :: bs[j].rootId != bs[k].rootId
    {
      if !IsOpaqueId(bs[i].rootId) || bs[i].ns.None? || !Registered(roots, bs[i].rootId) { return false; }
      if bs[i].rootId in bound {
        assert exists j :: 0 <= j < i && bs[j].rootId == bs[i].rootId;
        return false;
      }
      assert forall j | 0 <= j < i :: bs[j].rootId in bound;
      bound := bound + {bs[i].rootId};
    }
    ok := true;
  }

  predicate Outside(w: Option<Place>, root: Root) {
    w.Some? && root.path.Some? && !SeesOverlap(root.path.value, w.value)
  }

  ghost predicate WorkspaceOk(titles: Titles, w: Workspace, roots: seq<Root>, home: Place) {
    && IsOpaqueId(w.id) && titles.valid(w.title) && IsOpaqueId(w.capability)
    && PlaceOk(w.directory, home)
    && (forall i | 0 <= i < |roots| :: Outside(w.directory, roots[i]))
    && BindingsOk(w.bindings, roots)
  }

  method AssertWorkspaceBinding(titles: Titles, w: Workspace, roots: seq<Root>, home: Place) returns (ok: bool)
    ensures ok <==> WorkspaceOk(titles, w, roots, home)
  {
    if !IsOpaqueId(w.id) || !titles.valid(w.title) || !IsOpaqueId(w.capability) { return false; }
    if !PlaceOk(w.directory, home) { return false; }
    for i := 0 to |roots|
      invariant forall j | 0 <= j < i :: Outside(w.directory, roots[j])
    {
      if !Outside(w.directory, roots[i]) { return false; }
    }
    ok := AssertBindings(w.bindings, roots);
  }

  // Namespaces of different workspaces.

  /** All bindings, workspace by workspace. */
  function Flat(ws: seq<Workspace>): seq<Binding> {
    if ws == [] then [] else Flat(ws[..|ws| - 1]) + ws[|ws| - 1].bindings
  }

  predicate Clash(a: Option<seq<string>>, b: Option<seq<string>>) {
    a.Some? && b.Some? && Nested(a.value, b.value)
  }

  /** Two bindings of the same root, in whatever workspaces, have namespaces that do not overlap. */
  ghost predicate Separate(bs: seq<Binding>) {
    forall k, l | 0 <= k < l < |bs| && bs[k].rootId == bs[l].rootId :: !Clash(bs[k].ns, bs[l].ns)
  }

  function Ids(ws: seq<Workspace>): seq<string> {
    seq(|ws|, i requires 0 <= i < |ws| => ws[i].id)
  }

  ghost predicate Distinct(names: seq<string>) {
    forall i, j | 0 <= i < j < |names| :: names[i] != names[j]
  }

  lemma DistinctSnoc(names: seq<string>, i: nat)
    requires i < |names| && Distinct(names[..i])
    ensures Distinct(names[..i + 1]) <==> names[i] !in names[..i]
    ensures names[i] in names[..i] ==> !Distinct(names)
    ensures forall d :: d in names[..i + 1] <==> d in names[..i] || d == names[i]
  {
  }

  ghost predicate NamespacesOk(ws: seq<Workspace>) {
    Distinct(Ids(ws)) && Separate(Flat(ws))
  }

  /** `entries` groups the bindings seen so far by root. */
  ghost predicate Groups(entries: map<string, seq<Binding>>, seen: seq<Binding>) {
    && (forall k | 0 <= k < |seen| :: seen[k].rootId in entries && seen[k] in entries[seen[k].rootId])
    && (forall id, b | id in entries && b in entries[id] :: b in seen && b.rootId == id)
  }

  /** `b` overlaps no earlier binding of its root. */
  ghost predicate ClearOf(bs: seq<Binding>, b: Binding) {
    forall k | 0 <= k < |bs| && bs[k].rootId == b.rootId :: !Clash(bs[k].ns, b.ns)
  }

  lemma SeparateSnoc(seen: seq<Binding>, b: Binding)
    requires Separate(seen)
    ensures Separate(seen + [b]) <==> ClearOf(seen, b)
  {
    var more := seen + [b];
    assert more[|seen|] == b && forall k | 0 <= k < |seen| :: more[k] == seen[k];
    if k :| 0 <= k < |seen| && seen[k].rootId == b.rootId && Clash(seen[k].ns, b.ns) {
      assert more[k].rootId == more[|seen|].rootId && Clash(more[k].ns, more[|seen|].ns);
    }
  }

  function Own(entries: map<string, seq<Binding>>, id: string): seq<Binding> {
    if id in entries then entries[id] else []
  }

  lemma GroupsSnoc(entries: map<string, seq<Binding>>, seen: seq<Binding>, b: Binding)
    requires Groups(entries, seen)
    ensures Groups(entries[b.rootId := Own(entries, b.rootId) + [b]], seen + [b])
  {
  }

  /** The earlier bindings of a root are the ones filed under it. */
  lemma OwnIsComplete(entries: map<string, seq<Binding>>, seen: seq<Binding>, b: Binding)
    requires Groups(entries, seen)
    ensures ClearOf(seen, b) <==> forall c | c in Own(entries, b.rootId) :: !Clash(c.ns, b.ns)
  {
  }

  /** One binding is compared with the earlier ones of its root and then filed with them. */
  method FileBinding(entries: map<string, seq<Binding>>, b: Binding, ghost seen: seq<Binding>)
    returns (ok: bool, filed: map<string, seq<Binding>>)
    requires Groups(entries, seen) && Separate(seen)
    ensures ok <==> Separate(seen + [b])
    ensures ok ==> Groups(filed, seen + [b])
  {
    SeparateSnoc(seen, b);
    OwnIsComplete(entries, seen, b);
    GroupsSnoc(entries, seen, b);
    ok := HasNoClash(Own(entries, b.rootId), b);
    filed := if ok then entries[b.rootId := Own(entries, b.rootId) + [b]] else entries;
  }

  method HasNoClash(own: seq<Binding>, b: Binding) returns (ok: bool)
    ensures ok <==> forall c | c in own :: !Clash(c.ns, b.ns)
  {
    for i := 0 to |own|
      invariant forall j | 0 <= j < i :: !Clash(own[j].ns, b.ns)
    {
      if Clash(own[i].ns, b.ns) { return false; }
    }
    ok := true;
  }

  lemma SeparatePrefix(a: seq<Binding>, c: seq<Binding>)
    requires a <= c && !Separate(a)
    ensures !Separate(c)
  {
  }

  lemma {:induction false} FlatPrefix(ws: seq<Workspace>, i: nat)
    requires i < |ws|
    ensures Flat(ws[..i]) + ws[i].bindings <= Flat(ws)
    decreases |ws|
  {
    var n := |ws| - 1;
    if i == n {
      assert Flat(ws) == Flat(ws[..n]) + ws[n].bindings;
    } else {
      FlatPrefix(ws[..n], i);
      assert ws[..n][..i] == ws[..i];
    }
  }

  /** Files the bindings of one workspace. */
  method FileWorkspace(entries: map<string, seq<Binding>>, bs: seq<Binding>, ghost before: seq<Binding>)
    returns (ok: bool, filed: map<string, seq<Binding>>)
    requires Groups(entries, before) && Separate(before)
    ensures ok <==> Separate(before + bs)
    ensures ok ==> Groups(filed, before + bs)
  {
    filed := entries;
    assert before + bs[..0] == before;
    for a := 0 to |bs|
      invariant Groups(filed, before + bs[..a]) && Separate(before + bs[..a])
    {
      assert before + bs[..a] + [bs[a]] == before + bs[..a + 1];
      ok, filed := FileBinding(filed, bs[a], before + bs[..a]);
      if !ok {
        SeparatePrefix(before + bs[..a + 1], before + bs);
        return;
      }
    }
    assert bs[..|bs|] == bs;
    ok := true;
  }

  lemma OverlapShows(ws: seq<Workspace>, i: nat)
    requires i < |ws| && !Separate(Flat(ws[..i]) + ws[i].bindings)
    ensures !Separate(Flat(ws))
  {
    FlatPrefix(ws, i);
    SeparatePrefix(Flat(ws[..i]) + ws[i].bindings, Flat(ws));
  }

  lemma FlatSnoc(ws: seq<Workspace>, i: nat)
    requires i < |ws|
    ensures Flat(ws[..i + 1]) == Flat(ws[..i]) + ws[i].bindings
  {
    assert ws[..i + 1][..i] == ws[..i];
  }

  method AssertNamespacesDoNotOverlap(ws: seq<Workspace>) returns (ok: bool)
    ensures ok <==> NamespacesOk(ws)
  {
    var ids: set<string> := {};
    var entries: map<string, seq<Binding>> := map[];
    ghost var names := Ids(ws);
    for i := 0 to |ws|
      invariant forall d :: d in ids <==> d in names[..i]
      invariant Distinct(names[..i])
      invariant Groups(entries, Flat(ws[..i])) && Separate(Flat(ws[..i]))
    {
      DistinctSnoc(names, i);
      if ws[i].id in ids { return false; }
      ids := ids + {ws[i].id};
      ok, entries := FileWorkspace(entries, ws[i].bindings, Flat(ws[..i]));
      if !ok {
        OverlapShows(ws, i);
        return;
      }
      FlatSnoc(ws, i);
    }
    assert ws[..|ws|] == ws && names[..|ws|] == names;
    ok := true;
  }

  // What an accepted registry guarantees.

  function Keys(titles: Titles, ws: seq<Workspace>): seq<string> {
    seq(|ws|, i requires 0 <= i < |ws| => titles.key(ws[i].title))
  }

  predicate DirectoriesApart(a: Workspace, b: Workspace) {
    a.directory.Some? && b.directory.Some? && !SeesOverlap(a.directory.value, b.directory.value)
  }

  ghost predicate DirectoriesOk(titles: Titles, ws: seq<Workspace>) {
    && Distinct(Keys(titles, ws))
    && (forall i, j | 0 <= i < j < |ws| :: DirectoriesApart(ws[i], ws[j]))
  }

  ghost predicate RegistryOk(titles: Titles, roots: seq<Root>, ws: seq<Workspace>, home: Place) {
    && LayoutOk(roots, home)
    && (forall i | 0 <= i < |ws| :: WorkspaceOk(titles, ws[i], roots, home))
    && NamespacesOk(ws) && DirectoriesOk(titles, ws)
  }

  method AssertDirectoriesDoNotOverlap(titles: Titles, ws: seq<Workspace>) returns (ok: bool)
    ensures ok <==> DirectoriesOk(titles, ws)
  {
    var keys: set<string> := {};
    ghost var names := Keys(titles, ws);
    for i := 0 to |ws|
      invariant forall d :: d in keys <==> d in names[..i]
      invariant Distinct(names[..i])
      invariant forall j, k | 0 <= j < i && j < k < |ws| :: DirectoriesApart(ws[j], ws[k])
    {
      DistinctSnoc(names, i);
      if titles.key(ws[i].title) in keys { return false; }
      keys := keys + {titles.key(ws[i].title)};
      for j := i + 1 to |ws|
        invariant forall k | i < k < j :: DirectoriesApart(ws[i], ws[k])
      {
        if !DirectoriesApart(ws[i], ws[j]) { return false; }
      }
    }
    assert names[..|ws|] == names;
    ok := true;
  }

  /** The registry check, in the launcher's order. */
  method ValidateManagedRootRegistry(titles: Titles, roots: seq<Root>, ws: seq<Workspace>, home: Place) returns (ok: bool)
    ensures ok <==> RegistryOk(titles, roots, ws, home)
  {
    ok := AssertManagedRootLayout(roots, home);
    if !ok { return; }
    for i := 0 to |ws|
      invariant forall j | 0 <= j < i :: WorkspaceOk(titles, ws[j], roots, home)
    {
      ok := AssertWorkspaceBinding(titles, ws[i], roots, home);
      if !ok { return; }
    }
    ok := AssertNamespacesDoNotOverlap(ws);
    if !ok { return; }
    ok := AssertDirectoriesDoNotOverlap(titles, ws);
  }

  function BoundIds(bs: seq<Binding>): set<string> {
    set i | 0 <= i < |bs| :: bs[i].rootId
  }

  function RootIds(roots: seq<Root>): set<string> {
    set i | 0 <= i < |roots| :: roots[i].id
  }

  lemma {:induction false} DistinctIdsCount(bs: seq<Binding>)
    requires forall i, j | 0 <= i < j < |bs| :: bs[i].rootId != bs[j].rootId
    ensures |BoundIds(bs)| == |bs|
  {
    if bs != [] {
      var n := |bs| - 1;
      DistinctIdsCount(bs[..n]);
      assert BoundIds(bs) == BoundIds(bs[..n]) + {bs[n].rootId};
    }
  }

  lemma {:induction false} RootIdsCount(roots: seq<Root>)
    ensures |RootIds(roots)| <= |roots|
  {
    if roots != [] {
      var n := |roots| - 1;
      RootIdsCount(roots[..n]);
      assert RootIds(roots) == RootIds(roots[..n]) + {roots[n].id};
    }
  }

  lemma SubsetOfSameSize(a: set<string>, b: set<string>)
    requires a <= b && |b| <= |a|
    ensures a == b
  {
    assert |b - a| == |b| - |a|;
    assert b == a + (b - a);
  }

  /** Every root is bound in every accepted workspace, and only once. */
  lemma EveryRootIsBound(bs: seq<Binding>, roots: seq<Root>, r: int)
    requires BindingsOk(bs, roots) && 0 <= r < |roots|
    ensures exists i :: 0 <= i < |bs| && bs[i].rootId == roots[r].id && forall j | 0 <= j < |bs| && j != i :: bs[j].rootId != roots[r].id
  {
    DistinctIdsCount(bs);
    RootIdsCount(roots);
    SubsetOfSameSize(BoundIds(bs), RootIds(roots));
    assert roots[r].id in BoundIds(bs);
    var i :| 0 <= i < |bs| && bs[i].rootId == roots[r].id;
    forall j | 0 <= j < |bs| && j != i ensures bs[j].rootId != roots[r].id {
      if j < i { assert bs[j].rootId != bs[i].rootId; } else { assert bs[i].rootId != bs[j].rootId; }
    }
  }

  /** A place that is neither the DSH home nor near it by sight, and not inside any `.dsh` directory. */
  predicate KeepsAway(path: Option<Place>, home: Place) {
    path.Some? && !SeesOverlap(path.value, home) && forall i | 0 <= i < |path.value.dir| :: path.value.dir[i] != ".dsh"
  }

  /** What acceptance guarantees of the roots: one of each kind, with different ids, away from each other and from DSH. */
  lemma AcceptedRoots(titles: Titles, roots: seq<Root>, ws: seq<Workspace>, home: Place, kind: Kind)
    requires RegistryOk(titles, roots, ws, home)
    ensures |roots| == 4 && exists r :: 0 <= r < 4 && roots[r].kind == kind
    ensures forall r | 0 <= r < 4 :: KeepsAway(roots[r].path, home) && 3 <= |roots[r].id| <= 128
    ensures forall r, s | 0 <= r < s < 4 ::
              roots[r].kind != roots[s].kind && roots[r].id != roots[s].id && !SeesOverlap(roots[r].path.value, roots[s].path.value)
  {
    forall r | 0 <= r < 4 ensures KeepsAway(roots[r].path, home) && 3 <= |roots[r].id| <= 128 {
      assert RootOk(roots[r], home);
    }
    forall r, s | 0 <= r < s < 4
      ensures roots[r].kind != roots[s].kind && roots[r].id != roots[s].id && !SeesOverlap(roots[r].path.value, roots[s].path.value)
    {
      assert RootsDiffer(roots[r], roots[s]) && RootsApart(roots[r], roots[s]);
    }
    assert roots[0].kind == kind || roots[1].kind == kind || roots[2].kind == kind || roots[3].kind == kind;
  }

  /** What acceptance guarantees of a workspace: its working directory is away from every root and from DSH. */
  lemma AcceptedWorkspace(titles: Titles, roots: seq<Root>, ws: seq<Workspace>, home: Place, i: int, r: int)
    requires RegistryOk(titles, roots, ws, home) && 0 <= i < |ws| && 0 <= r < |roots|
    ensures titles.valid(ws[i].title) && 3 <= |ws[i].id| <= 128 && KeepsAway(ws[i].directory, home)
    ensures roots[r].path.Some? && !SeesOverlap(roots[r].path.value, ws[i].directory.value)
    ensures BindingsOk(ws[i].bindings, roots)
  {
    assert WorkspaceOk(titles, ws[i], roots, home);
    assert Outside(ws[i].directory, roots[r]);
  }

  /** Two accepted workspaces have different ids and titles, and working directories away from each other. */
  lemma AcceptedWorkspaces(titles: Titles, roots: seq<Root>, ws: seq<Workspace>, home: Place, i: int, j: int)
    requires RegistryOk(titles, roots, ws, home) && 0 <= i < j < |ws|
    ensures ws[i].id != ws[j].id && titles.key(ws[i].title) != titles.key(ws[j].title)
    ensures ws[i].directory.Some? && ws[j].directory.Some? && !SeesOverlap(ws[i].directory.value, ws[j].directory.value)
  {
    assert Ids(ws)[i] != Ids(ws)[j] && Keys(titles, ws)[i] != Keys(titles, ws)[j];
    assert DirectoriesApart(ws[i], ws[j]);
  }

  /** A namespace the launcher resolves: not empty, its first segment not beginning with two dots (PathText.ResolveTestIsExact). */
  predicate Resolves(ns: seq<string>) {
    ns != [] && !DotDot(ns[0])
  }

  lemma ApartAt(a: seq<string>, b: seq<string>, k: nat)
    requires k < |a| && k < |b| && a[k] != b[k]
    ensures !Nested(a, b)
  {
  }

  lemma TailsNest(p: seq<string>, m: seq<string>, n: seq<string>)
    ensures Nested(p + m, p + n) <==> Nested(m, n)
  {
    assert (p + m)[|p|..] == m && (p + n)[|p|..] == n;
    if p + m <= p + n { assert m == n[..|m|] by { assert (p + n)[..|p + m|] == p + n[..|m|]; } }
    if p + n <= p + m { assert n == m[..|n|] by { assert (p + m)[..|p + n|] == p + m[..|n|]; } }
  }

  /** Below two roots the test keeps apart, directories are nested exactly when one root is spelled twice and the namespaces overlap. */
  lemma RootPairIff(p: Place, q: Place, m: seq<string>, n: seq<string>)
    requires !SeesOverlap(p, q) && Resolves(m) && Resolves(n)
    ensures Nested(p.dir + m, q.dir + n) <==> p.dir == q.dir && Nested(m, n)
  {
    var k := Shared(p.dir, q.dir);
    if p.dir == q.dir {
      TailsNest(p.dir, m, n);
    } else if k == |p.dir| {
      assert p.dir < q.dir;
      ApartAt(p.dir + m, q.dir + n, k);
    } else if k == |q.dir| {
      assert q.dir < p.dir;
      ApartAt(p.dir + m, q.dir + n, k);
    } else {
      ApartAt(p.dir + m, q.dir + n, k);
    }
  }

  /** A directory below a root and a place outside it are nested exactly when that place lies hidden above the root. */
  lemma OutsiderIff(p: Place, m: seq<string>, w: Place)
    requires !SeesOverlap(p, w) && Resolves(m)
    ensures Nested(p.dir + m, w.dir) <==> w.dir <= p.dir
  {
  }

  /** Binding `k` is bound below root `r`, and both read. */
  predicate Below(roots: seq<Root>, bs: seq<Binding>, k: int, r: int) {
    0 <= k < |bs| && 0 <= r < |roots| && bs[k].rootId == roots[r].id && bs[k].ns.Some? && roots[r].path.Some?
  }

  function DirectoryOf(roots: seq<Root>, bs: seq<Binding>, k: int, r: int): seq<string>
    requires Below(roots, bs, k, r)
  {
    roots[r].path.value.dir + bs[k].ns.value
  }

  ghost predicate AllResolve(bs: seq<Binding>) {
    forall k | 0 <= k < |bs| && bs[k].ns.Some? :: Resolves(bs[k].ns.value)
  }

  /** Owned directories of distinct bindings are never nested. */
  ghost predicate OwnedApart(roots: seq<Root>, bs: seq<Binding>) {
    forall k, l, r, s | Below(roots, bs, k, r) && Below(roots, bs, l, s) && k != l ::
      !Nested(DirectoryOf(roots, bs, k, r), DirectoryOf(roots, bs, l, s))
  }

  /** No owned directory is nested with a given place. */
  ghost predicate ApartFrom(roots: seq<Root>, bs: seq<Binding>, w: Place) {
    forall k, r | Below(roots, bs, k, r) :: !Nested(DirectoryOf(roots, bs, k, r), w.dir)
  }

  ghost predicate Disjoint(roots: seq<Root>, ws: seq<Workspace>, home: Place) {
    && OwnedApart(roots, Flat(ws))
    && (forall i | 0 <= i < |ws| && ws[i].directory.Some? :: ApartFrom(roots, Flat(ws), ws[i].directory.value))
    && ApartFrom(roots, Flat(ws), home)
  }

  /** The condition on the registered paths: roots spelled twice have separate namespaces, and no bound root lies below an outsider. */
  ghost predicate TwinsSeparate(roots: seq<Root>, bs: seq<Binding>) {
    forall k, l, r, s | Below(roots, bs, k, r) && Below(roots, bs, l, s) && r != s ::
      roots[r].path.value.dir == roots[s].path.value.dir ==> !Nested(bs[k].ns.value, bs[l].ns.value)
  }

  ghost predicate NotAbove(roots: seq<Root>, bs: seq<Binding>, w: Place) {
    forall k, r | Below(roots, bs, k, r) :: !(w.dir <= roots[r].path.value.dir)
  }

  ghost predicate Visible(roots: seq<Root>, ws: seq<Workspace>, home: Place) {
    && TwinsSeparate(roots, Flat(ws))
    && (forall i | 0 <= i < |ws| && ws[i].directory.Some? :: NotAbove(roots, Flat(ws), ws[i].directory.value))
    && NotAbove(roots, Flat(ws), home)
  }

  lemma RootIdsDiffer(roots: seq<Root>, home: Place, r: int, s: int)
    requires LayoutOk(roots, home) && 0 <= r < |roots| && 0 <= s < |roots| && r != s
    ensures roots[r].id != roots[s].id && roots[r].path.Some? && roots[s].path.Some? && !SeesOverlap(roots[r].path.value, roots[s].path.value)
  {
  }

  lemma BindingPairIff(roots: seq<Root>, bs: seq<Binding>, home: Place, k: int, l: int, r: int, s: int)
    requires LayoutOk(roots, home) && Separate(bs) && AllResolve(bs)
    requires Below(roots, bs, k, r) && Below(roots, bs, l, s) && k != l
    ensures Nested(DirectoryOf(roots, bs, k, r), DirectoryOf(roots, bs, l, s)) <==>
              r != s && roots[r].path.value.dir == roots[s].path.value.dir && Nested(bs[k].ns.value, bs[l].ns.value)
  {
    if r == s {
      TailsNest(roots[r].path.value.dir, bs[k].ns.value, bs[l].ns.value);
      if k < l { assert !Clash(bs[k].ns, bs[l].ns); } else { assert !Clash(bs[l].ns, bs[k].ns); }
    } else {
      RootIdsDiffer(roots, home, r, s);
      RootPairIff(roots[r].path.value, roots[s].path.value, bs[k].ns.value, bs[l].ns.value);
    }
  }

  lemma OwnedApartIff(roots: seq<Root>, bs: seq<Binding>, home: Place)
    requires LayoutOk(roots, home) && Separate(bs) && AllResolve(bs)
    ensures OwnedApart(roots, bs) <==> TwinsSeparate(roots, bs)
  {
    forall k, l, r, s | Below(roots, bs, k, r) && Below(roots, bs, l, s) && k != l
      ensures Nested(DirectoryOf(roots, bs, k, r), DirectoryOf(roots, bs, l, s)) <==>
                r != s && roots[r].path.value.dir == roots[s].path.value.dir && Nested(bs[k].ns.value, bs[l].ns.value)
    {
      BindingPairIff(roots, bs, home, k, l, r, s);
    }
    forall k, l, r, s | Below(roots, bs, k, r) && Below(roots, bs, l, s) && r != s ensures k != l {
      RootIdsDiffer(roots, home, r, s);
    }
  }

  lemma ApartFromIff(roots: seq<Root>, bs: seq<Binding>, w: Place)
    requires AllResolve(bs)
    requires forall r | 0 <= r < |roots| && roots[r].path.Some? :: !SeesOverlap(roots[r].path.value, w)
    ensures ApartFrom(roots, bs, w) <==> NotAbove(roots, bs, w)
  {
  }

  /**
   In every accepted registry whose namespaces resolve, ownership is disjoint exactly under the condition
   on the registered paths: it fails only through what the overlap test does not see.
   */
  lemma OwnershipIsDisjointIff(titles: Titles, roots: seq<Root>, ws: seq<Workspace>, home: Place)
    requires RegistryOk(titles, roots, ws, home) && AllResolve(Flat(ws))
    ensures Disjoint(roots, ws, home) <==> Visible(roots, ws, home)
  {
    var bs := Flat(ws);
    OwnedApartIff(roots, bs, home);
    assert forall r | 0 <= r < |roots| :: RootOk(roots[r], home);
    ApartFromIff(roots, bs, home);
    forall i | 0 <= i < |ws| && ws[i].directory.Some?
      ensures ApartFrom(roots, bs, ws[i].directory.value) <==> NotAbove(roots, bs, ws[i].directory.value)
    {
      assert WorkspaceOk(titles, ws[i], roots, home);
      assert forall r | 0 <= r < |roots| :: Outside(ws[i].directory, roots[r]);
      ApartFromIff(roots, bs, ws[i].directory.value);
    }
  }

  /** A path without the two spellings that escape the test. */
  predicate Plain(p: Place) {
    !p.trailing && forall i | 0 <= i < |p.dir| :: !DotDot(p.dir[i])
  }

  lemma PlainApart(p: Place, q: Place)
    requires Plain(p) && Plain(q) && !SeesOverlap(p, q)
    ensures !Nested(p.dir, q.dir)
  {
  }

  ghost predicate AllPlain(roots: seq<Root>, ws: seq<Workspace>, home: Place) {
    && Plain(home)
    && (forall r | 0 <= r < |roots| && roots[r].path.Some? :: Plain(roots[r].path.value))
    && (forall i | 0 <= i < |ws| && ws[i].directory.Some? :: Plain(ws[i].directory.value))
  }

  lemma PlainNotAbove(roots: seq<Root>, bs: seq<Binding>, w: Place)
    requires Plain(w) && forall r | 0 <= r < |roots| && roots[r].path.Some? :: Plain(roots[r].path.value) && !SeesOverlap(roots[r].path.value, w)
    ensures NotAbove(roots, bs, w)
  {
  }

  /** With plainly spelled paths, every accepted registry whose namespaces resolve is disjoint. */
  lemma PlainRegistryIsDisjoint(titles: Titles, roots: seq<Root>, ws: seq<Workspace>, home: Place)
    requires RegistryOk(titles, roots, ws, home) && AllResolve(Flat(ws)) && AllPlain(roots, ws, home)
    ensures Disjoint(roots, ws, home)
  {
    var bs := Flat(ws);
    forall k, l, r, s | Below(roots, bs, k, r) && Below(roots, bs, l, s) && r != s
      ensures roots[r].path.value.dir != roots[s].path.value.dir
    {
      RootIdsDiffer(roots, home, r, s);
      PlainApart(roots[r].path.value, roots[s].path.value);
    }
    assert forall r | 0 <= r < |roots| :: RootOk(roots[r], home);
    PlainNotAbove(roots, bs, home);
    forall i | 0 <= i < |ws| && ws[i].directory.Some? ensures NotAbove(roots, bs, ws[i].directory.value) {
      assert WorkspaceOk(titles, ws[i], roots, home);
      assert forall r | 0 <= r < |roots| :: Outside(ws[i].directory, roots[r]);
      PlainNotAbove(roots, bs, ws[i].directory.value);
    }
    OwnershipIsDisjointIff(titles, roots, ws, home);
  }
}
