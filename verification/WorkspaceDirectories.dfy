/**
 Creating the directories of a new workspace: all of them, or none.

 The disk maps paths, as lists of segments, to what stands there. Every system call may fail for a
 reason of its own: `faults(n)` says whether the n-th call does. Nobody else changes the disk meanwhile.
 */
module WorkspaceDirectories {
  import opened Common

  type Path = seq<string>

  datatype Node = Directory | Other

  type Tree = map<Path, Node>

  /** What to create below one root; None is a missing binding or a namespace that does not resolve. */
  datatype Plan = Plan(root: Path, kind: string, ns: Option<seq<string>>)

  function Parent(p: Path): Path
    requires p != []
  {
    p[..|p| - 1]
  }

  predicate IsDirectory(t: Tree, p: Path) {
    p in t && t[p] == Directory
  }

  /** Every entry but the top stands in a directory. */
  ghost predicate WellFormed(t: Tree) {
    forall p | p in t && p != [] :: IsDirectory(t, Parent(p))
  }

  /** The disk after these directories were created in order. */
  function Built(t: Tree, created: seq<Path>): Tree {
    if created == [] then t else Built(t, created[..|created| - 1])[created[|created| - 1] := Directory]
  }

  /** Each was absent when it was created, in a directory that was there. */
  ghost predicate Creatable(t: Tree, created: seq<Path>) {
    created != [] ==>
      var n := |created| - 1;
      && Creatable(t, created[..n])
      && created[n] != [] && created[n] !in Built(t, created[..n]) && IsDirectory(Built(t, created[..n]), Parent(created[n]))
  }

  /** The disk holds what was there before and these created directories. */
  ghost predicate Grown(before: Tree, created: seq<Path>, now: Tree) {
    Creatable(before, created) && now == Built(before, created)
  }

  lemma {:induction false} BuiltWellFormed(t: Tree, created: seq<Path>)
    requires WellFormed(t) && Creatable(t, created)
    ensures WellFormed(Built(t, created))
  {
    if created != [] { BuiltWellFormed(t, created[..|created| - 1]); }
  }

  lemma {:induction false} CreatablePrefix(t: Tree, created: seq<Path>, n: nat)
    requires n <= |created| && Creatable(t, created)
    ensures Creatable(t, created[..n])
    decreases |created|
  {
    if n < |created| {
      CreatablePrefix(t, created[..|created| - 1], n);
      assert created[..|created| - 1][..n] == created[..n];
    } else {
      assert created[..n] == created;
    }
  }

  lemma CreatableSnoc(t: Tree, created: seq<Path>, p: Path)
    requires Creatable(t, created) && p != [] && p !in Built(t, created) && IsDirectory(Built(t, created), Parent(p))
    ensures Creatable(t, created + [p]) && Built(t, created + [p]) == Built(t, created)[p := Directory]
  {
    assert (created + [p])[..|created|] == created;
  }

  predicate IsEmpty(t: Tree, p: Path) {
    forall q | q in t && q != [] :: Parent(q) != p
  }

  /** Nothing stands in a directory that is not there. */
  lemma AbsentIsEmpty(t: Tree, p: Path)
    requires WellFormed(t) && p !in t
    ensures IsEmpty(t, p)
  {
  }

  lemma AddedIsEmpty(t: Tree, p: Path)
    requires IsEmpty(t, p) && p !in t && p != []
    ensures IsEmpty(t[p := Directory], p) && t[p := Directory] - {p} == t
  {
  }

  /** The newest created directory is empty, and taking it away gives back the disk before it. */
  lemma NewestIsEmpty(t: Tree, created: seq<Path>)
    requires WellFormed(t) && Creatable(t, created) && created != []
    ensures var p := created[|created| - 1];
            IsDirectory(Built(t, created), p) && IsEmpty(Built(t, created), p)
            && Built(t, created) - {p} == Built(t, created[..|created| - 1])
  {
    var n := |created| - 1;
    BuiltWellFormed(t, created[..n]);
    AbsentIsEmpty(Built(t, created[..n]), created[n]);
    AddedIsEmpty(Built(t, created[..n]), created[n]);
  }

  lemma LastUndoes(before: Tree, created: seq<Path>, now: Tree)
    requires WellFormed(before) && Grown(before, created, now) && created != []
    ensures var p := created[|created| - 1];
            IsDirectory(now, p) && IsEmpty(now, p) && Grown(before, created[..|created| - 1], now - {p})
  {
    NewestIsEmpty(before, created);
  }

  lemma {:induction false} BuiltKeeps(t: Tree, created: seq<Path>, p: Path)
    requires p in t && Creatable(t, created)
    ensures p in Built(t, created) && Built(t, created)[p] == t[p]
  {
    if created != [] {
      var n := |created| - 1;
      BuiltKeeps(t, created[..n], p);
    }
  }

  lemma {:induction false} CreatedAreNew(t: Tree, created: seq<Path>, i: nat)
    requires i < |created| && Creatable(t, created)
    ensures created[i] !in t && IsDirectory(Built(t, created), created[i])
  {
    CreatablePrefix(t, created, i + 1);
    assert created[..i + 1][..i] == created[..i];
    if created[i] in t { BuiltKeeps(t, created[..i], created[i]); }
    BuiltLater(t, created, i);
  }

  lemma {:induction false} BuiltLater(t: Tree, created: seq<Path>, i: nat)
    requires i < |created|
    ensures IsDirectory(Built(t, created), created[i])
    decreases |created|
  {
    var n := |created| - 1;
    if i < n { BuiltLater(t, created[..n], i); }
  }

  function Target(plan: Plan): Path
    requires plan.ns.Some?
  {
    plan.root + plan.ns.value
  }

  /** The answer: the directory of each kind, or an error; `restored` is whether the undo went through. */
  datatype Answer = Ready(directories: map<string, Path>) | Failed(restored: bool)

  /** Kinds to targets, a later plan of the same kind replacing an earlier one. */
  function Directories(plans: seq<Plan>): map<string, Path>
    requires forall i | 0 <= i < |plans| :: plans[i].ns.Some?
  {
    if plans == [] then map[] else Directories(plans[..|plans| - 1])[plans[|plans| - 1].kind := Target(plans[|plans| - 1])]
  }

  lemma DirectoriesSnoc(plans: seq<Plan>, plan: Plan)
    requires plan.ns.Some? && forall i | 0 <= i < |plans| :: plans[i].ns.Some?
    ensures Directories(plans + [plan]) == Directories(plans)[plan.kind := Target(plan)]
  {
  }

  predicate AllCreated(plans: seq<Plan>, created: seq<Path>) {
    forall i | 0 <= i < |plans| :: plans[i].ns.Some? && Target(plans[i]) in created
  }

  /** The answer for these plans, all of whose targets were created. */
  ghost predicate Answers(plans: seq<Plan>, created: seq<Path>, directories: map<string, Path>) {
    AllCreated(plans, created) && directories == Directories(plans)
  }

  lemma AnswersSnoc(plans: seq<Plan>, i: nat, earlier: seq<Path>, created: seq<Path>, directories: map<string, Path>)
    requires i < |plans| && Answers(plans[..i], earlier, directories)
    requires earlier <= created && plans[i].ns.Some? && Target(plans[i]) in created
    ensures Answers(plans[..i + 1], created, directories[plans[i].kind := Target(plans[i])])
  {
    assert plans[..i + 1] == plans[..i] + [plans[i]];
    DirectoriesSnoc(plans[..i], plans[i]);
    forall p | p in earlier ensures p in created {
      var k :| 0 <= k < |earlier| && earlier[k] == p;
      assert created[k] == p;
    }
  }

  // When creation goes through.

  /** The disk once the first `n` directories on the way to a target are there. */
  ghost function Walked(t: Tree, root: Path, ns: seq<string>, n: nat): Tree
    requires n <= |ns|
  {
    if n == 0 then t else Walked(t, root, ns, n - 1)[root + ns[..n] := Directory]
  }

  /** The root is a directory, what is on the way is a directory or missing, and the target is missing. */
  ghost predicate Free(t: Tree, root: Path, ns: seq<string>) {
    && IsDirectory(t, root) && root + ns !in t
    && forall k | 0 < k < |ns| && root + ns[..k] in t :: IsDirectory(t, root + ns[..k])
  }

  lemma {:induction false} WalkedBeyond(t: Tree, root: Path, ns: seq<string>, n: nat, p: Path)
    requires n <= |ns| && |p| > |root| + n
    ensures p in Walked(t, root, ns, n) <==> p in t
    ensures p in t ==> Walked(t, root, ns, n)[p] == t[p]
  {
    if n > 0 { WalkedBeyond(t, root, ns, n - 1, p); }
  }

  /** What one step of the walk needs: the next directory is there and may be passed, or is missing below a directory. */
  ghost predicate Passable(t: Tree, p: Path, final: bool) {
    if p in t then !final && IsDirectory(t, p) else p != [] && IsDirectory(t, Parent(p))
  }

  ghost predicate FreeUpTo(t: Tree, root: Path, ns: seq<string>, n: nat)
    requires n <= |ns|
  {
    && (n > 0 ==> IsDirectory(t, root))
    && (forall k | 0 < k <= n && root + ns[..k] in t :: k < |ns| && IsDirectory(t, root + ns[..k]))
  }

  lemma FreeWhenWalked(t: Tree, root: Path, ns: seq<string>, n: nat)
    requires ns != [] && n <= |ns|
    ensures Free(t, root, ns) <==> FreeUpTo(t, root, ns, |ns|)
    ensures Free(t, root, ns) ==> FreeUpTo(t, root, ns, n)
  {
    assert ns[..|ns|] == ns;
  }

  lemma FreeUpToNext(t: Tree, root: Path, ns: seq<string>, n: nat)
    requires n < |ns| && FreeUpTo(t, root, ns, n)
    ensures var p := root + ns[..n + 1];
            FreeUpTo(t, root, ns, n + 1) <==> IsDirectory(t, root) && (p in t ==> n + 1 < |ns| && IsDirectory(t, p))
  {
  }

  /** The next step of the walk passes exactly when nothing on the disk is in its way. */
  lemma WalkStep(t: Tree, root: Path, ns: seq<string>, n: nat)
    requires WellFormed(t) && n < |ns| && FreeUpTo(t, root, ns, n)
    ensures Passable(Walked(t, root, ns, n), root + ns[..n + 1], n == |ns| - 1) <==> FreeUpTo(t, root, ns, n + 1)
  {
    var p := root + ns[..n + 1];
    FreeUpToNext(t, root, ns, n);
    WalkedBeyond(t, root, ns, n, p);
    assert Parent(p) == root + ns[..n];
    if n == 0 { assert root + ns[..0] == root; }
  }

  /** The disk after these plans, and whether each of them finds its way free when its turn comes. */
  ghost function After(t: Tree, plans: seq<Plan>): Tree {
    if plans == [] then t
    else
      var n := |plans| - 1;
      var before := After(t, plans[..n]);
      if plans[n].ns.None? then before else Walked(before, plans[n].root, plans[n].ns.value, |plans[n].ns.value|)
  }

  ghost predicate AllFree(t: Tree, plans: seq<Plan>) {
    plans != [] ==>
      var n := |plans| - 1;
      AllFree(t, plans[..n]) && plans[n].ns.Some? && Free(After(t, plans[..n]), plans[n].root, plans[n].ns.value)
  }

  lemma {:induction false} AllFreePrefix(t: Tree, plans: seq<Plan>, n: nat)
    requires n <= |plans| && AllFree(t, plans)
    ensures AllFree(t, plans[..n])
    decreases |plans|
  {
    if n == |plans| {
      assert plans[..n] == plans;
    } else {
      AllFreePrefix(t, plans[..|plans| - 1], n);
      assert plans[..|plans| - 1][..n] == plans[..n];
    }
  }

  lemma AllFreeStep(t: Tree, plans: seq<Plan>, i: nat)
    requires i < |plans| && AllFree(t, plans[..i])
    ensures AllFree(t, plans[..i + 1]) <==> plans[i].ns.Some? && Free(After(t, plans[..i]), plans[i].root, plans[i].ns.value)
    ensures plans[i].ns.Some? ==>
              After(t, plans[..i + 1]) == Walked(After(t, plans[..i]), plans[i].root, plans[i].ns.value, |plans[i].ns.value|)
  {
    assert plans[..i + 1][..i] == plans[..i];
  }

  class Disk {
    var tree: Tree
    var calls: nat
    const faults: nat -> bool

    constructor (t: Tree, f: nat -> bool)
      ensures tree == t && calls == 0 && faults == f
    {
      tree, calls, faults := t, 0, f;
    }

    /** Creates one directory, or fails without effect. */
    method Mkdir(p: Path) returns (made: bool, present: bool)
      modifies this
      ensures calls == old(calls) + 1
      ensures made ==> p != [] && p !in old(tree) && IsDirectory(old(tree), Parent(p)) && tree == old(tree)[p := Directory]
      ensures !made ==> tree == old(tree)
      ensures present ==> !made && p in tree
      ensures made <==> !faults(old(calls)) && p !in old(tree) && p != [] && IsDirectory(old(tree), Parent(p))
      ensures present <==> !faults(old(calls)) && p in old(tree)
    {
      calls := calls + 1;
      made, present := false, false;
      if faults(calls - 1) { return; }
      if p in tree { present := true; return; }
      if p == [] || !IsDirectory(tree, Parent(p)) { return; }
      tree := tree[p := Directory];
      made := true;
    }

    method Lstat(p: Path) returns (direct: bool)
      modifies this`calls
      ensures calls == old(calls) + 1
      ensures direct <==> !faults(old(calls)) && IsDirectory(tree, p)
    {
      calls := calls + 1;
      direct := !faults(calls - 1) && IsDirectory(tree, p);
    }

    /** Removes one empty directory; it fails on a fault, on anything else and on a directory with entries. */
    method Rmdir(p: Path) returns (ok: bool)
      modifies this
      ensures calls == old(calls) + 1
      ensures ok <==> !faults(old(calls)) && IsDirectory(old(tree), p) && IsEmpty(old(tree), p)
      ensures tree == if ok then old(tree) - {p} else old(tree)
    {
      calls := calls + 1;
      ok := !faults(calls - 1) && IsDirectory(tree, p) && IsEmpty(tree, p);
      if ok { tree := tree - {p}; }
    }

    /** No call of this range fails for a reason of its own. */
    ghost predicate Faultless(from: nat, to: nat) {
      forall n: nat | from <= n < to :: !faults(n)
    }

    /** Undoes the newest created directory, which is there and empty: only a fault of this very call can stop it. */
    method RemoveNewest(created: seq<Path>, ghost before: Tree) returns (ok: bool)
      requires created != [] && WellFormed(before) && Grown(before, created, tree)
      modifies this
      ensures calls == old(calls) + 1 && ok == !faults(old(calls))
      ensures Grown(before, if ok then created[..|created| - 1] else created, tree)
    {
      LastUndoes(before, created, tree);
      ok := Rmdir(created[|created| - 1]);
    }

    /** Undoes the created directories, newest first; it stops only at a fault of its own. */
    method RemoveCreated(created: seq<Path>, ghost before: Tree) returns (ok: bool, ghost left: seq<Path>)
      requires WellFormed(before) && Grown(before, created, tree)
      modifies this
      ensures left <= created && Grown(before, left, tree) && calls >= old(calls)
      ensures ok <==> Faultless(old(calls), calls)
      ensures ok ==> tree == before
      ensures !ok ==> left != [] && old(calls) < calls && faults(calls - 1)
    {
      var rest := created;
      while rest != []
        invariant calls >= old(calls) && rest <= created
        invariant Grown(before, rest, tree) && Faultless(old(calls), calls)
      {
        ok := RemoveNewest(rest, before);
        if !ok { return false, rest; }
        rest := rest[..|rest| - 1];
      }
      ok, left := true, [];
    }

    /** One directory on the way; an existing one is accepted unless it is the target itself. */
    method CreateDirect(p: Path, final: bool, made: seq<Path>, ghost before: Tree) returns (ok: bool, created: seq<Path>)
      requires WellFormed(before) && Grown(before, made, tree)
      modifies this
      ensures Grown(before, created, tree) && calls >= old(calls)
      ensures created == made || created == made + [p]
      ensures ok && final ==> created == made + [p]
      ensures ok <==> Faultless(old(calls), calls) && Passable(old(tree), p, final)
      ensures ok ==> tree == old(tree)[p := Directory]
    {
      created := made;
      var added, present := Mkdir(p);
      if added {
        CreatableSnoc(before, made, p);
        created := made + [p];
      } else if !present || final {
        return false, created;
      }
      ok := Lstat(p);
    }

    /** One step on the way to a target, from the disk as it was when the walk began. */
    method CreateStep(root: Path, ns: seq<string>, i: nat, made: seq<Path>, ghost before: Tree, ghost start: Tree)
      returns (ok: bool, created: seq<Path>)
      requires WellFormed(before) && Grown(before, made, tree) && WellFormed(start)
      requires i < |ns| && FreeUpTo(start, root, ns, i) && tree == Walked(start, root, ns, i)
      modifies this
      ensures Grown(before, created, tree) && calls >= old(calls)
      ensures made <= created && (ok && i == |ns| - 1 ==> root + ns in created)
      ensures ok <==> Faultless(old(calls), calls) && FreeUpTo(start, root, ns, i + 1)
      ensures ok ==> tree == Walked(start, root, ns, i + 1)
    {
      WalkStep(start, root, ns, i);
      var p := root + ns[..i + 1];
      ok, created := CreateDirect(p, i == |ns| - 1, made, before);
      if i == |ns| - 1 { assert ns[..i + 1] == ns; }
    }

    /** Creates what is missing on the way to one target; the target itself must be new. */
    method CreateNamespace(root: Path, ns: seq<string>, made: seq<Path>, ghost before: Tree)
      returns (ok: bool, created: seq<Path>)
      requires ns != []
      requires WellFormed(before) && Grown(before, made, tree)
      modifies this
      ensures Grown(before, created, tree) && made <= created && calls >= old(calls)
      ensures ok ==> root + ns in created
      ensures ok <==> Faultless(old(calls), calls) && Free(old(tree), root, ns)
      ensures ok ==> tree == Walked(old(tree), root, ns, |ns|)
    {
      ghost var start := tree;
      BuiltWellFormed(before, made);
      created := made;
      for i := 0 to |ns|
        invariant calls >= old(calls) && Grown(before, created, tree) && made <= created
        invariant i == |ns| ==> root + ns in created
        invariant Faultless(old(calls), calls) && FreeUpTo(start, root, ns, i) && tree == Walked(start, root, ns, i)
      {
        FreeWhenWalked(start, root, ns, i + 1);
        ok, created := CreateStep(root, ns, i, created, before, start);
        if !ok { return; }
      }
      FreeWhenWalked(start, root, ns, 0);
      ok := true;
    }

    /** One root: its binding must be there and resolve. */
    method CreatePlan(plan: Plan, made: seq<Path>, ghost before: Tree) returns (ok: bool, created: seq<Path>)
      requires plan.ns.Some? ==> plan.ns.value != []
      requires WellFormed(before) && Grown(before, made, tree)
      modifies this
      ensures Grown(before, created, tree) && made <= created && calls >= old(calls)
      ensures ok ==> plan.ns.Some? && Target(plan) in created
      ensures ok <==> Faultless(old(calls), calls) && plan.ns.Some? && Free(old(tree), plan.root, plan.ns.value)
      ensures ok ==> tree == Walked(old(tree), plan.root, plan.ns.value, |plan.ns.value|)
    {
      if plan.ns.None? { return false, made; }
      ok, created := CreateNamespace(plan.root, plan.ns.value, made, before);
    }

    /** Creates every workspace directory; on an error the created list says what there is to undo. */
    method ResolveDirectories(plans: seq<Plan>) returns (ok: bool, directories: map<string, Path>, created: seq<Path>)
      requires WellFormed(tree)
      requires forall i | 0 <= i < |plans| && plans[i].ns.Some? :: plans[i].ns.value != []
      modifies this
      ensures Grown(old(tree), created, tree) && calls >= old(calls)
      ensures ok ==> Answers(plans, created, directories) && tree == After(old(tree), plans)
      ensures ok <==> Faultless(old(calls), calls) && AllFree(old(tree), plans)
    {
      ghost var before := tree;
      created, directories := [], map[];
      for i := 0 to |plans|
        invariant calls >= old(calls) && Grown(before, created, tree)
        invariant Answers(plans[..i], created, directories)
        invariant Faultless(old(calls), calls) && AllFree(before, plans[..i]) && tree == After(before, plans[..i])
      {
        AllFreeStep(before, plans, i);
        ghost var earlier := created;
        ok, created := CreatePlan(plans[i], created, before);
        if !ok {
          if AllFree(before, plans) { AllFreePrefix(before, plans, i + 1); }
          return;
        }
        AnswersSnoc(plans, i, earlier, created, directories);
        directories := directories[plans[i].kind := Target(plans[i])];
      }
      assert plans[..|plans|] == plans;
      ok := true;
    }

    /**
     Creates every workspace directory, or restores the disk. Call `undo` is the first of the rollback; the
     disk is restored exactly when none of the rollback's own calls fails, so a fault of a creating call
     alone never leaves anything behind.
     */
    method CreateManagedWorkspaceDirectories(plans: seq<Plan>)
      returns (answer: Answer, ghost left: seq<Path>, ghost undo: nat)
      requires WellFormed(tree)
      requires forall i | 0 <= i < |plans| && plans[i].ns.Some? :: plans[i].ns.value != []
      modifies this
      ensures Grown(old(tree), left, tree) && old(calls) <= undo <= calls
      ensures answer.Ready? <==> Faultless(old(calls), undo) && AllFree(old(tree), plans)
      ensures answer.Ready? ==> Answers(plans, left, answer.directories) && tree == After(old(tree), plans)
      ensures answer.Failed? ==> (answer.restored <==> Faultless(undo, calls))
      ensures answer.Failed? && answer.restored ==> tree == old(tree)
      ensures answer.Failed? && !answer.restored ==> left != [] && undo < calls && faults(calls - 1)
      ensures (forall n: nat | faults(n) :: n < undo) && answer.Failed? ==> tree == old(tree)
    {
      ghost var before := tree;
      var ok, directories, created := ResolveDirectories(plans);
      undo := calls;
      if ok { return Ready(directories), created, undo; }
      ok, left := RemoveCreated(created, before);
      answer := Failed(ok);
    }
  }

  /** A created target is new, and nothing that was there before is gone or changed. */
  lemma ReadyMeansFresh(before: Tree, created: seq<Path>, now: Tree, p: Path)
    requires Grown(before, created, now)
    ensures p in created ==> p !in before && IsDirectory(now, p)
    ensures p in before ==> p in now && now[p] == before[p]
    ensures p in now ==> p in before || p in created
  {
    if p in created {
      var i :| 0 <= i < |created| && created[i] == p;
      CreatedAreNew(before, created, i);
    }
    if p in before { BuiltKeeps(before, created, p); }
    if p in Built(before, created) { BuiltOnly(before, created, p); }
  }

  lemma {:induction false} BuiltOnly(t: Tree, created: seq<Path>, p: Path)
    requires p in Built(t, created)
    ensures p in t || p in created
  {
    if created != [] && p != created[|created| - 1] { BuiltOnly(t, created[..|created| - 1], p); }
  }
}
