/**
 Launcher-owned plugin sources: installing, adopting, updating and removing them while the native
 profile refers to their directories by path.

 The profile belongs to DSH. What is asked of its commands is that a refused one leaves the profile as
 it was, an accepted `add` binds one name to the added directory, an accepted `remove` drops the name
 and an accepted `update` keeps every binding. Every await may fail, and the process may crash at it.
 The reporter admits one operation at a time, so at most one is in flight.
 */
module PluginSources {
  import opened Common

  type Name = string
  type Dir = nat

  /** What a profile entry points at: a directory the launcher owns, or anything else. */
  datatype Target = Managed(dir: Dir) | Foreign(text: string)

  datatype Source = Source(name: Name, dir: Dir, git: bool, revision: string)

  /** The owned directories that exist, the source document, and every directory name ever drawn. */
  datatype Sources = Sources(dirs: set<Dir>, records: seq<Source>, used: set<Dir>)

  // The source store.

  predicate Recorded(s: Sources, name: Name) {
    exists i :: 0 <= i < |s.records| && s.records[i].name == name
  }

  /** The index of the record of a name, or the number of records. */
  function Find(records: seq<Source>, name: Name): (i: nat)
    ensures i <= |records|
    ensures i < |records| ==> records[i].name == name
    ensures forall j | 0 <= j < i :: records[j].name != name
  {
    if records == [] || records[0].name == name then 0 else 1 + Find(records[1..], name)
  }

  function Create(s: Sources, dir: Dir): Sources {
    s.(dirs := s.dirs + {dir}, used := s.used + {dir})
  }

  function Delete(s: Sources, dir: Dir): Sources {
    s.(dirs := s.dirs - {dir})
  }

  /** A second record of a name is an error. */
  function AddRecord(s: Sources, r: Source): Sources {
    if Recorded(s, r.name) then s else s.(records := s.records + [r])
  }

  function DropRecord(s: Sources, name: Name): Sources {
    var i := Find(s.records, name);
    if i == |s.records| then s else s.(records := s.records[..i] + s.records[i + 1..])
  }

  function Revise(s: Sources, name: Name, revision: string): Sources {
    var i := Find(s.records, name);
    if i == |s.records| || !s.records[i].git then s else s.(records := s.records[i := s.records[i].(revision := revision)])
  }

  /** Recorded names and directories are pairwise distinct, and every directory bears a name that was drawn. */
  ghost predicate Tidy(s: Sources) {
    Distinct(s) && s.dirs <= s.used && forall i | 0 <= i < |s.records| :: s.records[i].dir in s.used
  }

  /**
   The store as an object: what each of its operations does to directories and document, and what is
   left when one of its awaits fails.
   */
  class ManagedPluginSources {
    var dirs: set<Dir>
    var records: seq<Source>
    var used: set<Dir>

    function Value(): Sources
      reads this
    {
      Sources(dirs, records, used)
    }

    constructor ()
      ensures Value() == Sources({}, [], {}) && Tidy(Value())
    {
      dirs, records, used := {}, [], {};
    }

    /** `dir` is the freshly drawn directory name; a source that is not complete is cleaned up, or remains in part. */
    method Materialize(dir: Dir, complete: bool, remains: bool) returns (ok: bool)
      requires dir !in used
      modifies this
      ensures ok == complete && records == old(records) && used == old(used) + {dir}
      ensures dirs == if complete || remains then old(dirs) + {dir} else old(dirs)
      ensures Tidy(old(Value())) ==> Tidy(Value()) && Unrecorded(Value(), dir)
    {
      used := used + {dir};
      if complete || remains { dirs := dirs + {dir}; }
      ok := complete;
    }

    method Discard(dir: Dir, deleted: bool)
      modifies this
      ensures Value() == if deleted then Delete(old(Value()), dir) else old(Value())
      ensures Tidy(old(Value())) ==> Tidy(Value())
    {
      if deleted { dirs := dirs - {dir}; }
    }

    method Record(r: Source, written: bool) returns (ok: bool)
      modifies this
      ensures ok == (!Recorded(old(Value()), r.name) && written)
      ensures Value() == if written then AddRecord(old(Value()), r) else old(Value())
      ensures Tidy(old(Value())) && Unrecorded(old(Value()), r.dir) && r.dir in used ==> Tidy(Value())
    {
      for i := 0 to |records|
        invariant forall j | 0 <= j < i :: records[j].name != r.name
        invariant Value() == old(Value())
      {
        if records[i].name == r.name { return false; }
      }
      if !written { return false; }
      records := records + [r];
      ok := true;
    }

    /** Moves the record of a git source to the fetched revision, if fetching and writing succeed; any other name is refused. */
    method Update(name: Name, revision: string, fetched: bool) returns (ok: bool)
      modifies this
      ensures ok == (fetched && Find(old(records), name) < |old(records)| && old(records)[Find(old(records), name)].git)
      ensures Value() == if ok then Revise(old(Value()), name, revision) else old(Value())
      ensures |records| == |old(records)| && dirs == old(dirs)
      ensures forall i | 0 <= i < |records| :: records[i].name == old(records)[i].name && records[i].dir == old(records)[i].dir
      ensures Tidy(old(Value())) ==> Tidy(Value())
    {
      var i := Find(records, name);
      if i == |records| || !records[i].git || !fetched { return false; }
      records := records[i := records[i].(revision := revision)];
      ok := true;
    }

    /**
     Removes the recorded directory of a name and then its record. The deletion fails on a missing directory;
     a failing one may leave the directory or not, and the record stays until its removal is written.
     */
    method Remove(name: Name, deletes: bool, remains: bool, written: bool) returns (ok: bool)
      modifies this
      ensures var i := Find(old(records), name);
              var s := old(Value());
              if i == |s.records| then ok && Value() == s
              else if !deletes || s.records[i].dir !in s.dirs then
                !ok && Value() == if remains then s else Delete(s, s.records[i].dir)
              else ok == written && Value() == if written then DropRecord(Delete(s, s.records[i].dir), name) else Delete(s, s.records[i].dir)
      ensures Tidy(old(Value())) ==> Tidy(Value())
    {
      var i := Find(records, name);
      if i == |records| { return true; }
      var dir := records[i].dir;
      ghost var s := Value();
      if !deletes || dir !in dirs {
        if !remains { dirs := dirs - {dir}; }
        return false;
      }
      dirs := dirs - {dir};
      if !written { return false; }
      records := records[..i] + records[i + 1..];
      ok := true;
      if Tidy(s) { DropKeepsTidy(Delete(s, dir), name); }
    }
  }

  lemma DropKeepsTidy(s: Sources, name: Name)
    requires Tidy(s)
    ensures Tidy(DropRecord(s, name))
  {
  }

  // Operations, cut at their awaits.

  /** `before` are the user plugins seen first, `bound` the name an accepted add gave to the new directory. */
  datatype Op =
    | InstallAdd(before: set<Name>, dir: Dir, git: bool)
    | InstallLook(before: set<Name>, dir: Dir, git: bool, bound: Name)
    | InstallRecord(name: Name, dir: Dir, git: bool, bound: Name)
    | AdoptAdd(name: Name, dir: Dir)
    | AdoptLook(name: Name, dir: Dir, bound: Name)
    | AdoptRecord(name: Name, dir: Dir, bound: Name)
    | Discarding(dir: Dir)
    | UninstallCommand(name: Name)
    | UninstallDelete(name: Name)
    | UninstallForget(name: Name)
    | UpdateFetch(name: Name)
    | UpdateCommand(name: Name)

  datatype World = World(profile: map<Name, Target>, sources: Sources, op: Option<Op>)

  /** An answer to the current await: success or failure, with the new name, directory or remains it carries. */
  datatype Action =
    | Install(dir: Dir, git: bool, complete: bool, remains: bool)
    | Adopt(name: Name, dir: Dir, complete: bool, remains: bool)
    | Uninstall(name: Name)
    | Update(name: Name)
    | Accepts(bound: Name)
    | Goes(revision: string)
    | Fails(remains: bool)
    | Crash

  predicate GitManaged(s: Sources, name: Name) {
    exists i :: 0 <= i < |s.records| && s.records[i].name == name && s.records[i].git
  }

  /** Directory names are random and never drawn twice. */
  predicate Enabled(w: World, a: Action) {
    match a
    case Install(dir, _, _, _) => w.op.None? && dir !in w.sources.used
    case Adopt(_, dir, _, _) => w.op.None? && dir !in w.sources.used
    case Uninstall(_) => w.op.None?
    case Update(_) => w.op.None?
    case Accepts(_) => w.op.Some? && (w.op.value.InstallAdd? || w.op.value.AdoptAdd?)
    case Goes(_) => w.op.Some? && !w.op.value.InstallAdd? && !w.op.value.AdoptAdd?
    case Fails(_) => w.op.Some?
    case Crash => true
  }

  function Done(w: World): World { w.(op := None) }

  /** Materialising a source: an incomplete one may leave its directory behind. */
  function Materialized(w: World, dir: Dir, complete: bool, remains: bool, op: Op): World {
    if complete then World(w.profile, Create(w.sources, dir), Some(op))
    else if remains then w.(sources := Create(w.sources, dir))
    else w.(sources := w.sources.(used := w.sources.used + {dir}))
  }

  /** The user plugins that were not there before. */
  function Appeared(profile: map<Name, Target>, before: set<Name>): set<Name> {
    profile.Keys - before
  }

  ghost function Proceed(w: World, revision: string): World
    requires Enabled(w, Goes(revision))
  {
    match w.op.value
    case InstallLook(before, dir, git, bound) =>
      if |Appeared(w.profile, before)| != 1 then Done(w)
      else
        var name :| name in Appeared(w.profile, before);
        w.(op := Some(InstallRecord(name, dir, git, bound)))
    case InstallRecord(name, dir, git, _) => Done(w.(sources := AddRecord(w.sources, Source(name, dir, git, ""))))
    case AdoptLook(name, dir, bound) =>
      if name in w.profile then w.(op := Some(AdoptRecord(name, dir, bound))) else Done(w)
    case AdoptRecord(name, dir, _) => Done(w.(sources := AddRecord(w.sources, Source(name, dir, true, ""))))
    case Discarding(dir) => Done(w.(sources := Delete(w.sources, dir)))
    case UninstallCommand(name) => World(w.profile - {name}, w.sources, Some(UninstallDelete(name)))
    case UninstallDelete(name) =>
      var i := Find(w.sources.records, name);
      if i == |w.sources.records| || w.sources.records[i].dir !in w.sources.dirs then Done(w)
      else World(w.profile, Delete(w.sources, w.sources.records[i].dir), Some(UninstallForget(name)))
    case UninstallForget(name) => Done(w.(sources := DropRecord(w.sources, name)))
    case UpdateFetch(name) =>
      if GitManaged(w.sources, name) then World(w.profile, Revise(w.sources, name, revision), Some(UpdateCommand(name))) else Done(w)
    case UpdateCommand(_) => Done(w)
    case InstallAdd(_, _, _) => w
    case AdoptAdd(_, _) => w
  }

  /** A refused add discards the new source; any other failure ends the operation where it stands. */
  function Fail(w: World, remains: bool): World
    requires w.op.Some?
  {
    match w.op.value
    case InstallAdd(_, dir, _) => w.(op := Some(Discarding(dir)))
    case AdoptAdd(_, dir) => w.(op := Some(Discarding(dir)))
    case Discarding(dir) => if remains then Done(w) else Done(w.(sources := Delete(w.sources, dir)))
    case UninstallDelete(name) =>
      var i := Find(w.sources.records, name);
      if remains || i == |w.sources.records| then Done(w) else Done(w.(sources := Delete(w.sources, w.sources.records[i].dir)))
    case _ => Done(w)
  }

  ghost function Next(w: World, a: Action): World
    requires Enabled(w, a)
  {
    match a
    case Install(dir, git, complete, remains) =>
      Materialized(w, dir, complete, remains, InstallAdd(w.profile.Keys, dir, git))
    case Adopt(name, dir, complete, remains) =>
      if name !in w.profile || GitManaged(w.sources, name) then w
      else Materialized(w, dir, complete, remains, AdoptAdd(name, dir))
    case Uninstall(name) => if name in w.profile then w.(op := Some(UninstallCommand(name))) else w
    case Update(name) => if name in w.profile then w.(op := Some(UpdateFetch(name))) else w
    case Accepts(bound) =>
      var profile := w.profile[bound := Managed(w.op.value.dir)];
      (match w.op.value
       case InstallAdd(before, dir, git) => World(profile, w.sources, Some(InstallLook(before, dir, git, bound)))
       case AdoptAdd(name, dir) => World(profile, w.sources, Some(AdoptLook(name, dir, bound)))
       case _ => w)
    case Goes(revision) => Proceed(w, revision)
    case Fails(remains) => Fail(w, remains)
    case Crash => Done(w)
  }

  ghost predicate Run(worlds: seq<World>, actions: seq<Action>) {
    && |worlds| == |actions| + 1 && Start(worlds[0])
    && forall i | 0 <= i < |actions| :: Enabled(worlds[i], actions[i]) && worlds[i + 1] == Next(worlds[i], actions[i])
  }

  /** A profile without managed entries and an empty store. */
  ghost predicate Start(w: World) {
    w.op.None? && w.sources == Sources({}, [], {}) && forall x | x in w.profile :: w.profile[x].Foreign?
  }

  // The claims.

  /** Every managed directory the profile refers to exists. */
  ghost predicate Intact(w: World) {
    forall x | x in w.profile && w.profile[x].Managed? :: w.profile[x].dir in w.sources.dirs
  }

  /** Recorded names are pairwise distinct, and so are recorded directories. */
  ghost predicate Distinct(s: Sources) {
    forall i, j | 0 <= i < j < |s.records| :: s.records[i].name != s.records[j].name && s.records[i].dir != s.records[j].dir
  }

  /** Nobody but the recorded name uses a recorded directory. */
  ghost predicate Owned(w: World) {
    forall i, x | 0 <= i < |w.sources.records| && x in w.profile && w.profile[x] == Managed(w.sources.records[i].dir) ::
      x == w.sources.records[i].name
  }

  predicate Unrecorded(s: Sources, dir: Dir) {
    forall i | 0 <= i < |s.records| :: s.records[i].dir != dir
  }

  predicate OnlyBinder(w: World, dir: Dir, bound: Name) {
    forall x | x in w.profile && w.profile[x] == Managed(dir) :: x == bound
  }

  predicate Unbound(w: World, dir: Dir) {
    forall x | x in w.profile :: w.profile[x] != Managed(dir)
  }

  /** What the operation in flight may rely on. */
  ghost predicate OpOk(w: World) {
    w.op.Some? ==>
      match w.op.value
      case InstallAdd(before, dir, _) => before == w.profile.Keys && dir in w.sources.dirs && Unbound(w, dir) && Unrecorded(w.sources, dir)
      case InstallLook(before, dir, _, bound) =>
        dir in w.sources.dirs && OnlyBinder(w, dir, bound) && Unrecorded(w.sources, dir) && w.profile.Keys <= before + {bound}
      case InstallRecord(name, dir, _, bound) => name == bound && OnlyBinder(w, dir, bound) && Unrecorded(w.sources, dir) && dir in w.sources.used
      case AdoptAdd(name, dir) => name in w.profile && dir in w.sources.dirs && Unbound(w, dir) && Unrecorded(w.sources, dir)
      case AdoptLook(_, dir, bound) => OnlyBinder(w, dir, bound) && Unrecorded(w.sources, dir) && dir in w.sources.used
      case AdoptRecord(_, dir, bound) => OnlyBinder(w, dir, bound) && Unrecorded(w.sources, dir) && dir in w.sources.used
      case Discarding(dir) => Unbound(w, dir)
      case UninstallDelete(name) => name !in w.profile
      case UninstallForget(name) => name !in w.profile
      case _ => true
  }

  ghost predicate Drawn(w: World) {
    && w.sources.dirs <= w.sources.used
    && (forall i | 0 <= i < |w.sources.records| :: w.sources.records[i].dir in w.sources.used)
    && (forall x | x in w.profile && w.profile[x].Managed? :: w.profile[x].dir in w.sources.used)
  }

  ghost predicate Base(w: World) {
    Distinct(w.sources) && Drawn(w) && OpOk(w)
  }

  /** The one thing adopting depends on: the accepted add binds the adopted name itself, or that name has a record already. */
  predicate Harmless(w: World, a: Action) {
    a.Accepts? && w.op.Some? && w.op.value.AdoptAdd? ==> a.bound == w.op.value.name || Recorded(w.sources, w.op.value.name)
  }

  /** An adoption in flight will record the name the add bound, or nothing. */
  predicate RecordsSafely(w: World) {
    w.op.Some? ==>
      match w.op.value
      case AdoptLook(name, _, bound) => name == bound || Recorded(w.sources, name)
      case AdoptRecord(name, _, bound) => name == bound || Recorded(w.sources, name)
      case _ => true
  }

  // Every step keeps the bookkeeping.

  lemma BaseRecord(w: World, r: Source)
    requires Base(w) && Unrecorded(w.sources, r.dir) && r.dir in w.sources.used
    ensures Base(Done(w.(sources := AddRecord(w.sources, r))))
  {
  }

  lemma BaseForget(w: World, name: Name)
    requires Base(w)
    ensures Base(Done(w.(sources := DropRecord(w.sources, name))))
  {
  }

  lemma BaseRevise(w: World, name: Name, revision: string)
    requires Base(w)
    ensures Base(World(w.profile, Revise(w.sources, name, revision), Some(UpdateCommand(name))))
  {
  }

  lemma BaseLook(w: World, revision: string)
    requires Base(w) && w.op.Some? && w.op.value.InstallLook?
    ensures Base(Proceed(w, revision))
  {
  }

  lemma BaseProceed(w: World, revision: string)
    requires Base(w) && Enabled(w, Goes(revision))
    ensures Base(Proceed(w, revision))
  {
    match w.op.value {
      case InstallLook(_, _, _, _) => BaseLook(w, revision);
      case InstallRecord(name, dir, git, _) => BaseRecord(w, Source(name, dir, git, ""));
      case AdoptRecord(name, dir, _) => BaseRecord(w, Source(name, dir, true, ""));
      case UninstallForget(name) => BaseForget(w, name);
      case UpdateFetch(name) => BaseRevise(w, name, revision);
      case _ =>
    }
  }

  lemma BaseMaterialized(w: World, dir: Dir, complete: bool, remains: bool, op: Op)
    requires Base(w) && w.op.None? && dir !in w.sources.used
    requires (op.InstallAdd? && op.before == w.profile.Keys && op.dir == dir) || (op.AdoptAdd? && op.dir == dir && op.name in w.profile)
    ensures Base(Materialized(w, dir, complete, remains, op))
  {
  }

  lemma BaseStep(w: World, a: Action)
    requires Base(w) && Enabled(w, a)
    ensures Base(Next(w, a))
  {
    match a {
      case Install(dir, git, complete, remains) => BaseMaterialized(w, dir, complete, remains, InstallAdd(w.profile.Keys, dir, git));
      case Adopt(name, dir, complete, remains) =>
        if name in w.profile { BaseMaterialized(w, dir, complete, remains, AdoptAdd(name, dir)); }
      case Goes(revision) => BaseProceed(w, revision);
      case _ =>
    }
  }

  lemma OwnedRecord(w: World, r: Source)
    requires Owned(w) && OnlyBinder(w, r.dir, r.name)
    ensures Owned(Done(w.(sources := AddRecord(w.sources, r))))
  {
  }

  lemma OwnedForget(w: World, name: Name)
    requires Owned(w) && Distinct(w.sources)
    ensures Owned(Done(w.(sources := DropRecord(w.sources, name))))
  {
  }

  lemma OwnedRevise(w: World, name: Name, revision: string)
    requires Owned(w)
    ensures Owned(World(w.profile, Revise(w.sources, name, revision), Some(UpdateCommand(name))))
  {
  }

  /** A step that leaves the records alone and binds nothing new. */
  lemma OwnedFewer(w: World, w': World)
    requires Owned(w) && w'.sources.records == w.sources.records
    requires forall x | x in w'.profile :: x in w.profile && w'.profile[x] == w.profile[x]
    ensures Owned(w')
  {
  }

  lemma RecordsProceed(w: World, revision: string)
    requires RecordsSafely(w) && Enabled(w, Goes(revision))
    ensures RecordsSafely(Proceed(w, revision))
  {
  }

  lemma OwnedProceed(w: World, revision: string)
    requires Base(w) && Owned(w) && RecordsSafely(w) && Enabled(w, Goes(revision))
    ensures Owned(Proceed(w, revision))
  {
    var op := w.op.value;
    if op.InstallRecord? {
      OwnedRecord(w, Source(op.name, op.dir, op.git, ""));
    } else if op.AdoptRecord? && op.name == op.bound {
      OwnedRecord(w, Source(op.name, op.dir, true, ""));
    } else if op.UninstallForget? {
      OwnedForget(w, op.name);
    } else if op.UpdateFetch? {
      OwnedRevise(w, op.name, revision);
    } else {
      OwnedFewer(w, Proceed(w, revision));
    }
  }

  /** Ownership survives every harmless step. */
  lemma OwnedStep(w: World, a: Action)
    requires Base(w) && Owned(w) && RecordsSafely(w) && Enabled(w, a) && Harmless(w, a)
    ensures Owned(Next(w, a)) && RecordsSafely(Next(w, a))
  {
    if a.Goes? {
      OwnedProceed(w, a.revision);
      RecordsProceed(w, a.revision);
    }
  }

  lemma IntactProceed(w: World, revision: string)
    requires Base(w) && Owned(w) && Intact(w) && Enabled(w, Goes(revision))
    ensures Intact(Proceed(w, revision))
  {
  }

  lemma IntactFail(w: World, remains: bool)
    requires Base(w) && Owned(w) && Intact(w) && w.op.Some?
    ensures Intact(Fail(w, remains))
  {
  }

  lemma IntactStep(w: World, a: Action)
    requires Base(w) && Owned(w) && Intact(w) && Enabled(w, a)
    ensures Intact(Next(w, a))
  {
    match a {
      case Goes(revision) => IntactProceed(w, revision);
      case Fails(remains) => IntactFail(w, remains);
      case _ =>
    }
  }

  /** In every run, recorded names and recorded directories stay pairwise distinct. */
  lemma {:induction false} RecordsStayDistinct(worlds: seq<World>, actions: seq<Action>, i: nat)
    requires Run(worlds, actions) && i < |worlds|
    ensures Base(worlds[i])
  {
    if i > 0 {
      RecordsStayDistinct(worlds, actions, i - 1);
      BaseStep(worlds[i - 1], actions[i - 1]);
      assert worlds[i] == Next(worlds[i - 1], actions[i - 1]);
    }
  }

  /**
   In every run of installs, adoptions, updates and removals with failures and crashes at any await, the
   profile refers only to managed directories that exist, if every adopting add binds the adopted name or finds it recorded.
   */
  lemma {:induction false} ProfileStaysIntact(worlds: seq<World>, actions: seq<Action>, i: nat)
    requires Run(worlds, actions) && i < |worlds|
    requires forall k | 0 <= k < |actions| :: Harmless(worlds[k], actions[k])
    ensures Intact(worlds[i]) && Owned(worlds[i]) && RecordsSafely(worlds[i])
  {
    if i > 0 {
      ProfileStaysIntact(worlds, actions, i - 1);
      RecordsStayDistinct(worlds, actions, i - 1);
      OwnedStep(worlds[i - 1], actions[i - 1]);
      IntactStep(worlds[i - 1], actions[i - 1]);
      assert worlds[i] == Next(worlds[i - 1], actions[i - 1]);
    }
  }

  // The condition is exact.

  /** The world once an adoption has recorded its source. */
  ghost predicate AboutToRecord(w: World, name: Name, dir: Dir, bound: Name) {
    && Base(w) && Owned(w) && w.op == Some(AdoptRecord(name, dir, bound))
    && name in w.profile && bound in w.profile && w.profile[bound] == Managed(dir) && !Recorded(w.sources, name)
  }

  lemma {:induction false} FindLast(records: seq<Source>, r: Source)
    requires forall i | 0 <= i < |records| :: records[i].name != r.name
    ensures Find(records + [r], r.name) == |records|
  {
    if records != [] {
      FindLast(records[1..], r);
      assert (records + [r])[1..] == records[1..] + [r];
    }
  }

  /** When it bound another name, removing the adopted plugin deletes a directory the profile still refers to. */
  lemma UnfaithfulAdoptBreaks(w: World, name: Name, dir: Dir, bound: Name)
    requires AboutToRecord(w, name, dir, bound) && bound != name
    ensures var w1 := Next(w, Goes(""));
            && Enabled(w1, Uninstall(name))
            && var w2 := Next(w1, Uninstall(name));
            && Enabled(w2, Goes(""))
            && var w3 := Next(w2, Goes(""));
            && Enabled(w3, Goes(""))
            && !Intact(Next(w3, Goes("")))
  {
    var r := Source(name, dir, true, "");
    var w1 := Next(w, Goes(""));
    assert w1.sources.records == w.sources.records + [r];
    FindLast(w.sources.records, r);
    var w2 := Next(w1, Uninstall(name));
    var w3 := Next(w2, Goes(""));
    var w4 := Next(w3, Goes(""));
    assert w3.op == Some(UninstallDelete(name));
    assert w4.sources.dirs == w3.sources.dirs - {dir};
    assert bound in w4.profile && w4.profile[bound] == Managed(dir);
  }

  /** Such a world is reachable: adopting `name` when the cloned package calls itself `bound`. */
  lemma UnfaithfulAdoptIsReachable(name: Name, bound: Name, text: string)
    requires name != bound
    ensures var w0 := World(map[name := Foreign(text)], Sources({}, [], {}), None);
            && Start(w0) && Enabled(w0, Adopt(name, 0, true, false))
            && var w1 := Next(w0, Adopt(name, 0, true, false));
            && Enabled(w1, Accepts(bound))
            && var w2 := Next(w1, Accepts(bound));
            && Enabled(w2, Goes(""))
            && AboutToRecord(Next(w2, Goes("")), name, 0, bound)
  {
  }

  /** What holds between two operations. */
  ghost predicate Sound(w: World) {
    Base(w) && Owned(w) && Intact(w) && RecordsSafely(w)
  }

  lemma SoundStep(w: World, a: Action)
    requires Sound(w) && Enabled(w, a) && Harmless(w, a)
    ensures Sound(Next(w, a))
  {
    BaseStep(w, a);
    OwnedStep(w, a);
    IntactStep(w, a);
  }

  /** `n` harmless steps may lead from one world to another. */
  ghost predicate Leads(n: nat, w: World, w': World) {
    if n == 0 then w == w' else exists u, a :: Leads(n - 1, w, u) && Enabled(u, a) && Harmless(u, a) && w' == Next(u, a)
  }

  /** Whatever harmless steps follow, the profile refers only to managed directories that exist. */
  ghost predicate StaysIntact(w: World) {
    forall n: nat, w' | Leads(n, w, w') :: Intact(w')
  }

  lemma {:induction false} LeadsSoundly(n: nat, w: World, w': World)
    requires Sound(w) && Leads(n, w, w')
    ensures Sound(w')
  {
    if n > 0 {
      var u, a :| Leads(n - 1, w, u) && Enabled(u, a) && Harmless(u, a) && w' == Next(u, a);
      LeadsSoundly(n - 1, w, u);
      SoundStep(u, a);
    }
  }

  lemma LeadsNext(n: nat, w: World, u: World, a: Action)
    requires Leads(n, w, u) && Enabled(u, a) && Harmless(u, a)
    ensures Leads(n + 1, w, Next(u, a))
  {
  }

  /** The add has bound another name and the adopted one has no record: five steps later a directory in use is gone. */
  lemma UnfaithfulAdoptLeads(w: World, name: Name, dir: Dir, bound: Name) returns (end: World)
    requires Base(w) && Owned(w) && w.op == Some(AdoptAdd(name, dir)) && bound != name && !Recorded(w.sources, name)
    ensures Leads(5, Next(w, Accepts(bound)), end) && !Intact(end)
  {
    var w0 := Next(w, Accepts(bound));
    var w1 := Next(w0, Goes(""));
    BaseStep(w, Accepts(bound));
    BaseStep(w0, Goes(""));
    assert AboutToRecord(w1, name, dir, bound);
    UnfaithfulAdoptBreaks(w1, name, dir, bound);
    var w2 := Next(w1, Goes(""));
    var w3 := Next(w2, Uninstall(name));
    var w4 := Next(w3, Goes(""));
    end := Next(w4, Goes(""));
    LeadsNext(0, w0, w0, Goes(""));
    LeadsNext(1, w0, w1, Goes(""));
    LeadsNext(2, w0, w2, Uninstall(name));
    LeadsNext(3, w0, w3, Goes(""));
    LeadsNext(4, w0, w4, Goes(""));
  }

  /**
   The condition is exact. In every world that a harmless run reaches with an adopting add under way, the
   profile stays intact in all harmless continuations if and only if the add binds the adopted name or that
   name has a record already.
   */
  lemma AdoptStaysIntactIff(worlds: seq<World>, actions: seq<Action>, i: nat, name: Name, dir: Dir, bound: Name)
    requires Run(worlds, actions) && i < |worlds|
    requires forall k | 0 <= k < |actions| :: Harmless(worlds[k], actions[k])
    requires worlds[i].op == Some(AdoptAdd(name, dir))
    ensures StaysIntact(Next(worlds[i], Accepts(bound))) <==> bound == name || Recorded(worlds[i].sources, name)
  {
    var w := worlds[i];
    RecordsStayDistinct(worlds, actions, i);
    ProfileStaysIntact(worlds, actions, i);
    if bound == name || Recorded(w.sources, name) {
      SoundStep(w, Accepts(bound));
      forall n: nat, w' | Leads(n, Next(w, Accepts(bound)), w') ensures Intact(w') {
        LeadsSoundly(n, Next(w, Accepts(bound)), w');
      }
    } else {
      var end := UnfaithfulAdoptLeads(w, name, dir, bound);
    }
  }

  // The operations as the launcher runs them, one after the other.

  lemma OnlyOne(names: set<Name>, x: Name, y: Name)
    requires |names| == 1 && x in names && y in names
    ensures x == y
  {
    var rest := names - {x};
    assert |rest| == 0;
    assert y !in rest;
  }

  /** The owned directories after a source was materialized and offered to DSH. */
  function Kept(dirs: set<Dir>, dir: Dir, complete: bool, remains: bool, refused: bool, discarded: bool): set<Dir> {
    if !complete then if remains then dirs + {dir} else dirs
    else if refused && discarded then dirs + {dir} - {dir}
    else dirs + {dir}
  }

  class LauncherPlugins {
    var profile: map<Name, Target>
    const sources: ManagedPluginSources

    ghost function Value(): World
      reads this, sources
    {
      World(profile, sources.Value(), None)
    }

    constructor (native: map<Name, Target>)
      requires forall x | x in native :: native[x].Foreign?
      ensures Start(Value()) && Sound(Value()) && fresh(sources)
    {
      profile := native;
      sources := new ManagedPluginSources();
    }

    /** Offers a materialized source to DSH; a refusal discards it again. */
    method AddSource(dir: Dir, accepted: Option<Name>, discarded: bool) returns (ok: bool)
      modifies this, sources
      ensures ok == accepted.Some? && sources.records == old(sources.records) && sources.used == old(sources.used)
      ensures profile == if ok then old(profile)[accepted.value := Managed(dir)] else old(profile)
      ensures sources.dirs == if !ok && discarded then old(sources.dirs) - {dir} else old(sources.dirs)
    {
      if accepted.None? {
        sources.Discard(dir, discarded);
        return false;
      }
      profile := profile[accepted.value := Managed(dir)];
      ok := true;
    }

    /** Installs a source; `accepted` is the name DSH binds to it, and each other flag says whether an await succeeds. */
    method InstallPlugin(dir: Dir, git: bool, complete: bool, remains: bool, accepted: Option<Name>, discarded: bool, looked: bool, written: bool)
      returns (ok: bool)
      requires dir !in sources.used
      modifies this, sources
      ensures Sound(old(Value())) ==> Sound(Value())
      ensures ok <==> && complete && accepted.Some? && looked && written
                      && accepted.value !in old(profile) && !Recorded(old(sources.Value()), accepted.value)
      ensures sources.records == if ok then old(sources.records) + [Source(accepted.value, dir, git, "")] else old(sources.records)
      ensures profile == if complete && accepted.Some? then old(profile)[accepted.value := Managed(dir)] else old(profile)
      ensures sources.dirs == Kept(old(sources.dirs), dir, complete, remains, accepted.None?, discarded)
    {
      ghost var w := Value();
      ok := InstallSteps(dir, git, complete, remains, accepted, discarded, looked, written);
      if Sound(w) { InstallsSoundly(w, dir, git, complete, remains, accepted, discarded, ok, Value()); }
    }

    method InstallSteps(dir: Dir, git: bool, complete: bool, remains: bool, accepted: Option<Name>, discarded: bool, looked: bool, written: bool)
      returns (ok: bool)
      requires dir !in sources.used
      modifies this, sources
      ensures ok <==> && complete && accepted.Some? && looked && written
                      && accepted.value !in old(profile) && !Recorded(old(sources.Value()), accepted.value)
      ensures sources.records == if ok then old(sources.records) + [Source(accepted.value, dir, git, "")] else old(sources.records)
      ensures profile == if complete && accepted.Some? then old(profile)[accepted.value := Managed(dir)] else old(profile)
      ensures sources.dirs == Kept(old(sources.dirs), dir, complete, remains, accepted.None?, discarded)
      ensures sources.used == old(sources.used) + {dir}
    {
      var before := profile.Keys;
      ok := sources.Materialize(dir, complete, remains);
      if !ok { return; }
      ok := AddSource(dir, accepted, discarded);
      if !ok { return; }
      ok := looked && |profile.Keys - before| == 1;
      if !ok { return; }
      var name :| name in profile.Keys - before;
      assert name == accepted.value;
      ok := sources.Record(Source(name, dir, git, ""), written);
    }

    /** Moves a plugin into a launcher-owned clone. */
    method AdoptPlugin(name: Name, dir: Dir, complete: bool, remains: bool, accepted: Option<Name>, discarded: bool, looked: bool, written: bool)
      returns (ok: bool)
      requires dir !in sources.used
      modifies this, sources
      ensures Sound(old(Value())) && (accepted.Some? ==> accepted.value == name || Recorded(old(sources.Value()), name)) ==> Sound(Value())
      ensures ok <==> && name in old(profile) && !Recorded(old(sources.Value()), name)
                      && complete && accepted.Some? && looked && written
      ensures ok ==> profile == old(profile)[accepted.value := Managed(dir)] && dir in sources.dirs
      ensures sources.records == if ok then old(sources.records) + [Source(name, dir, true, "")] else old(sources.records)
      ensures accepted.None? ==> profile == old(profile)
    {
      ghost var w := Value();
      var managed := Find(sources.records, name);
      if name !in profile || (managed < |sources.records| && sources.records[managed].git) { return false; }
      ok := AdoptSteps(name, dir, complete, remains, accepted, discarded, looked, written);
      ghost var bound := if accepted.Some? then accepted.value else name;
      if Sound(w) && (bound == name || Recorded(w.sources, name)) {
        AdoptsSoundly(w, name, dir, bound, complete, remains, accepted.None?, discarded, ok, Value());
      }
    }

    method AdoptSteps(name: Name, dir: Dir, complete: bool, remains: bool, accepted: Option<Name>, discarded: bool, looked: bool, written: bool)
      returns (ok: bool)
      requires dir !in sources.used && name in profile
      modifies this, sources
      ensures ok <==> complete && accepted.Some? && looked && written && !Recorded(old(sources.Value()), name)
      ensures sources.records == if ok then old(sources.records) + [Source(name, dir, true, "")] else old(sources.records)
      ensures profile == if complete && accepted.Some? then old(profile)[accepted.value := Managed(dir)] else old(profile)
      ensures sources.dirs == Kept(old(sources.dirs), dir, complete, remains, accepted.None?, discarded)
      ensures sources.used == old(sources.used) + {dir}
    {
      ok := sources.Materialize(dir, complete, remains);
      if !ok { return; }
      ok := AddSource(dir, accepted, discarded);
      if !ok { return; }
      ok := looked && name in profile;
      if !ok { return; }
      ok := sources.Record(Source(name, dir, true, ""), written);
    }

    /** Removes a plugin from the profile, then its owned source. */
    method UninstallPlugin(name: Name, refused: bool, deletes: bool, remains: bool, written: bool) returns (ok: bool)
      modifies this, sources
      ensures Sound(old(Value())) ==> Sound(Value())
      ensures var i, s := Find(old(sources.records), name), old(sources.Value());
              ok <==> name in old(profile) && !refused && (i == |s.records| || (deletes && s.records[i].dir in s.dirs && written))
      ensures profile == if name in old(profile) && !refused then old(profile) - {name} else old(profile)
      ensures ok ==> RemovedExactly(old(sources.Value()), sources.Value(), name)
      ensures name !in old(profile) || refused ==> sources.Value() == old(sources.Value())
    {
      ghost var w0 := Value();
      if name !in profile || refused { return false; }
      profile := profile - {name};
      ok := sources.Remove(name, deletes, remains, written);
      if ok { RemovesExactly(w0.sources, name); }
      if Sound(w0) { UninstallsSoundly(w0, name, deletes, remains, written, Value()); }
    }

    /** Fetches a git source and lets DSH reconcile it, which keeps every binding. */
    method UpdatePlugin(name: Name, revision: string, fetched: bool, reconciled: bool) returns (ok: bool)
      modifies this, sources
      ensures Sound(old(Value())) ==> Sound(Value())
      ensures profile == old(profile) && sources.dirs == old(sources.dirs)
      ensures var i := Find(old(sources.records), name);
              var revised := name in profile && fetched && i < |old(sources.records)| && old(sources.records)[i].git;
              && ok == (revised && reconciled)
              && sources.records ==
                   if revised then old(sources.records)[i := old(sources.records)[i].(revision := revision)] else old(sources.records)
    {
      ghost var w0 := Value();
      if name !in profile { return false; }
      ok := sources.Update(name, revision, fetched);
      if Sound(w0) && ok { UpdatesSoundly(w0, name, revision); }
      ok := ok && reconciled;
    }
  }

  /** The first record of the name is gone with its directory, and no other record or directory differs. */
  ghost predicate RemovedExactly(s: Sources, t: Sources, name: Name) {
    var i := Find(s.records, name);
    if i == |s.records| then t == s && !Recorded(t, name)
    else
      && t.records == s.records[..i] + s.records[i + 1..] && t.used == s.used
      && t.dirs == s.dirs - {s.records[i].dir}
      && (Distinct(s) ==> !Recorded(t, name))
  }

  lemma RemovesExactly(s: Sources, name: Name)
    ensures var i := Find(s.records, name);
            RemovedExactly(s, if i == |s.records| then s else DropRecord(Delete(s, s.records[i].dir), name), name)
  {
    var i := Find(s.records, name);
    if i < |s.records| && Distinct(s) {
      var rest := s.records[..i] + s.records[i + 1..];
      forall j | 0 <= j < |rest| ensures rest[j].name != name {
        assert rest[j] == s.records[if j < i then j else j + 1];
      }
    }
  }

  lemma NotGit(s: Sources, name: Name)
    requires Distinct(s)
    requires var i := Find(s.records, name); i == |s.records| || !s.records[i].git
    ensures !GitManaged(s, name)
  {
  }

  /** A refused add: the new source is discarded, or stays as a directory nobody refers to. */
  lemma RefusedSound(w: World, dir: Dir, discarded: bool)
    requires Sound(w) && w.op.Some? && (w.op.value.InstallAdd? || w.op.value.AdoptAdd?) && w.op.value.dir == dir
    ensures Sound(Done(w.(sources := if discarded then Delete(w.sources, dir) else w.sources)))
  {
    SoundStep(w, Fails(true));
    SoundStep(Fail(w, true), if discarded then Goes("") else Fails(true));
  }

  lemma LooksAndRecords(w: World, name: Name, dir: Dir, git: bool)
    requires Sound(w) && w.op.Some? && w.op.value.InstallLook? && w.op.value.dir == dir && w.op.value.git == git
    requires |Appeared(w.profile, w.op.value.before)| == 1 && name in Appeared(w.profile, w.op.value.before)
    ensures Sound(Done(w.(sources := AddRecord(w.sources, Source(name, dir, git, "")))))
  {
    var v := Next(w, Goes(""));
    SoundStep(w, Goes(""));
    OnlyOne(Appeared(w.profile, w.op.value.before), name, v.op.value.name);
    SoundStep(v, Goes(""));
  }

  lemma InstallsSoundly(
    w: World, dir: Dir, git: bool, complete: bool, remains: bool, accepted: Option<Name>, discarded: bool, ok: bool, end: World)
    requires Sound(w) && w.op.None? && dir !in w.sources.used && end.op.None?
    requires ok ==> complete && accepted.Some? && accepted.value !in w.profile && !Recorded(w.sources, accepted.value)
    requires end.sources.records == if ok then w.sources.records + [Source(accepted.value, dir, git, "")] else w.sources.records
    requires end.profile == if complete && accepted.Some? then w.profile[accepted.value := Managed(dir)] else w.profile
    requires end.sources.dirs == Kept(w.sources.dirs, dir, complete, remains, accepted.None?, discarded)
    requires end.sources.used == w.sources.used + {dir}
    ensures Sound(end)
  {
    var w1 := Next(w, Install(dir, git, complete, remains));
    SoundStep(w, Install(dir, git, complete, remains));
    if complete {
      if accepted.None? {
        RefusedSound(w1, dir, discarded);
      } else {
        var w2 := Next(w1, Accepts(accepted.value));
        SoundStep(w1, Accepts(accepted.value));
        SoundStep(w2, Crash);
        if ok {
          assert Appeared(w2.profile, w.profile.Keys) == {accepted.value};
          LooksAndRecords(w2, accepted.value, dir, git);
        }
      }
    }
  }

  lemma AdoptsAndRecords(w: World, name: Name, dir: Dir, bound: Name)
    requires Sound(w) && w.op == Some(AdoptLook(name, dir, bound)) && name in w.profile
    ensures Sound(Done(w.(sources := AddRecord(w.sources, Source(name, dir, true, "")))))
    ensures Sound(Done(w))
  {
    SoundStep(w, Crash);
    SoundStep(w, Goes(""));
    SoundStep(Next(w, Goes("")), Goes(""));
  }

  lemma AdoptsSoundly(
    w: World, name: Name, dir: Dir, bound: Name, complete: bool, remains: bool, refused: bool, discarded: bool, ok: bool, end: World)
    requires Sound(w) && w.op.None? && name in w.profile && dir !in w.sources.used && end.op.None?
    requires bound == name || Recorded(w.sources, name)
    requires var i := Find(w.sources.records, name); i == |w.sources.records| || !w.sources.records[i].git
    requires end.sources.records == if ok then w.sources.records + [Source(name, dir, true, "")] else w.sources.records
    requires end.profile == if complete && !refused then w.profile[bound := Managed(dir)] else w.profile
    requires end.sources.dirs == Kept(w.sources.dirs, dir, complete, remains, refused, discarded)
    requires end.sources.used == w.sources.used + {dir}
    requires ok ==> complete && !refused && !Recorded(w.sources, name)
    ensures Sound(end)
  {
    NotGit(w.sources, name);
    var w1 := Next(w, Adopt(name, dir, complete, remains));
    SoundStep(w, Adopt(name, dir, complete, remains));
    if complete {
      if refused {
        RefusedSound(w1, dir, discarded);
      } else {
        SoundStep(w1, Accepts(bound));
        AdoptsAndRecords(Next(w1, Accepts(bound)), name, dir, bound);
      }
    }
  }

  lemma UninstallsSoundly(w: World, name: Name, deletes: bool, remains: bool, written: bool, end: World)
    requires Sound(w) && w.op.None? && name in w.profile
    requires end.profile == w.profile - {name} && end.op.None?
    requires var i := Find(w.sources.records, name);
             var s := w.sources;
             end.sources == if i == |s.records| then s
                            else if !deletes || s.records[i].dir !in s.dirs then if remains then s else Delete(s, s.records[i].dir)
                            else if written then DropRecord(Delete(s, s.records[i].dir), name) else Delete(s, s.records[i].dir)
    ensures Sound(end)
  {
    var i := Find(w.sources.records, name);
    var w1 := Next(w, Uninstall(name));
    SoundStep(w, Uninstall(name));
    var w2 := Next(w1, Goes(""));
    SoundStep(w1, Goes(""));
    if i == |w.sources.records| {
      SoundStep(w2, Goes(""));
    } else if !deletes || w.sources.records[i].dir !in w.sources.dirs {
      SoundStep(w2, Fails(remains));
    } else {
      SoundStep(w2, Goes(""));
      SoundStep(Next(w2, Goes("")), if written then Goes("") else Fails(true));
    }
  }

  lemma UpdatesSoundly(w: World, name: Name, revision: string)
    requires Sound(w) && w.op.None? && name in w.profile && GitManaged(w.sources, name)
    ensures Sound(w.(sources := Revise(w.sources, name, revision)))
  {
    var w1 := Next(w, Update(name));
    SoundStep(w, Update(name));
    var w2 := Next(w1, Goes(revision));
    SoundStep(w1, Goes(revision));
    SoundStep(w2, Goes(""));
  }
}
