/**
 Switching DSH versions: build a commit in its own directory, check it, flip the pointer, prune.

 A version directory is present or not, and when present it passes the readiness check or not; what
 git and pnpm leave behind is any of these, also when they fail. The operation is cut at its awaits,
 each of which may fail, and the process may crash between any two steps. Operations are admitted by
 the reporter's counter, and the trace records what each one checked, moved and touched.
 */
module VersionStore {
  import opened Common

  type Commit = string

  predicate IsCommit(c: Commit) {
    |c| == 40 && forall i | 0 <= i < 40 :: '0' <= c[i] <= '9' || 'a' <= c[i] <= 'f'
  }

  datatype Pointer = Absent | Names(commit: Commit) | Garbled

  /** The next await of an operation. `Foreign` is any other operation the reporter admits. */
  datatype Pc =
    | Probe | ReadPointer | Clear | Ancestry | AddTree | Install | Build | Reconcile | Verify
    | Validate | Flip | List | Prune(left: set<Commit>) | Foreign

  datatype Op = Op(commit: Commit, pc: Pc)

  datatype CheckKind = Readiness | Compatibility

  datatype Event =
    | Passed(op: nat, commit: Commit, check: CheckKind)
    | Moved(op: nat, commit: Commit)
    | Touched(commit: Commit)

  /** What happened so far, in order. */
  datatype Trace = NoEvents | Then(before: Trace, last: Event)

  /** `dirs[c]` is whether the directory of `c` passes the readiness check. */
  datatype Store = Store(
    pointer: Pointer, dirs: map<Commit, bool>, registered: set<Commit>,
    active: nat, ops: map<nat, Op>, next: nat, events: Trace)

  predicate Ready(s: Store, c: Commit) {
    c in s.dirs && s.dirs[c]
  }

  /** What a step leaves behind: the directory gone, or present and ready or not, and whether git lists it after a failure. */
  datatype Residue = Residue(dir: Option<bool>, listed: bool)

  function Leave(dirs: map<Commit, bool>, c: Commit, left: Option<bool>): map<Commit, bool> {
    if left.None? then dirs - {c} else dirs[c := left.value]
  }

  // The reporter.

  /** Claims the single slot before the first await; a second operation is refused. */
  function Admit(s: Store, commit: Commit, pc: Pc, blocked: bool): Store {
    if s.active > 0 || blocked then s
    else s.(active := s.active + 1, ops := s.ops[s.next := Op(commit, pc)], next := s.next + 1)
  }

  function Release(s: Store, id: nat): Store {
    s.(active := if s.active > 0 then s.active - 1 else 0, ops := s.ops - {id})
  }

  function Goto(s: Store, id: nat, pc: Pc): Store
    requires id in s.ops
  {
    s.(ops := s.ops[id := s.ops[id].(pc := pc)])
  }

  /** A step that changed the directory of a commit. */
  function Touch(s: Store, c: Commit, left: Option<bool>): Store {
    s.(dirs := Leave(s.dirs, c, left), events := Then(s.events, Touched(c)))
  }

  function Listed(s: Store, c: Commit, listed: bool): Store {
    s.(registered := if listed then s.registered + {c} else s.registered - {c})
  }

  // One function for each piece between two awaits.

  /** The first readiness check; an error counts as not ready. */
  function DoProbe(s: Store, id: nat, ok: bool): Store
    requires id in s.ops
  {
    var c := s.ops[id].commit;
    if !IsCommit(c) then Release(s, id)
    else if ok && Ready(s, c) then Goto(s, id, Validate).(events := Then(s.events, Passed(id, c, Readiness)))
    else Goto(s, id, ReadPointer)
  }

  /** The version in use is never rebuilt in place. */
  function DoReadPointer(s: Store, id: nat, ok: bool): Store
    requires id in s.ops
  {
    if !ok || s.pointer.Garbled? || s.pointer == Names(s.ops[id].commit) then Release(s, id) else Goto(s, id, Clear)
  }

  /** Removes the interrupted preparation, through git when the directory is registered. */
  function DoClear(s: Store, id: nat, ok: bool, left: Residue): Store
    requires id in s.ops
  {
    var c := s.ops[id].commit;
    if ok then Goto(Touch(s, c, None), id, Ancestry).(registered := s.registered - {c})
    else Release(Listed(Touch(s, c, left.dir), c, left.listed), id)
  }

  function DoAncestry(s: Store, id: nat, ok: bool): Store
    requires id in s.ops
  {
    if ok then Goto(s, id, AddTree) else Release(s, id)
  }

  predicate IsBuilding(pc: Pc) {
    pc.AddTree? || pc.Install? || pc.Build? || pc.Reconcile?
  }

  function AfterBuild(pc: Pc): Pc {
    match pc
    case AddTree => Install
    case Install => Build
    case Build => Reconcile
    case _ => Verify
  }

  /** Adding the worktree, installing, building and reconciling: each may leave anything in the directory. */
  function DoBuild(s: Store, id: nat, ok: bool, left: Residue): Store
    requires id in s.ops
  {
    var op := s.ops[id];
    var touched := Touch(s, op.commit, left.dir);
    var t := if op.pc.AddTree? then Listed(touched, op.commit, ok || left.listed) else touched;
    if ok then Goto(t, id, AfterBuild(op.pc)) else Release(t, id)
  }

  function DoVerify(s: Store, id: nat, ok: bool): Store
    requires id in s.ops
  {
    var c := s.ops[id].commit;
    if ok && Ready(s, c) then Goto(s, id, Validate).(events := Then(s.events, Passed(id, c, Readiness))) else Release(s, id)
  }

  function DoValidate(s: Store, id: nat, ok: bool): Store
    requires id in s.ops
  {
    if ok then Goto(s, id, Flip).(events := Then(s.events, Passed(id, s.ops[id].commit, Compatibility))) else Release(s, id)
  }

  /** The rename that publishes the pointer. */
  function DoFlip(s: Store, id: nat, ok: bool): Store
    requires id in s.ops
  {
    var c := s.ops[id].commit;
    if ok then Goto(s, id, List).(pointer := Names(c), events := Then(s.events, Moved(id, c))) else Release(s, id)
  }

  function DoList(s: Store, id: nat, ok: bool): Store
    requires id in s.ops
  {
    if ok then Goto(s, id, Prune((set c | c in s.dirs && IsCommit(c)) - {s.ops[id].commit})) else Release(s, id)
  }

  /** Deletes one listed directory; when none is left, git forgets worktrees whose directory is gone. */
  function DoPrune(s: Store, id: nat, ok: bool, left: Residue, victim: Commit): Store
    requires id in s.ops && s.ops[id].pc.Prune?
  {
    var rest := s.ops[id].pc.left;
    if victim in rest then Goto(Touch(s, victim, if ok then None else left.dir), id, Prune(rest - {victim}))
    else if rest == {} then Release(s.(registered := if ok then s.registered * s.dirs.Keys else s.registered), id)
    else s
  }

  datatype Action =
    | Begin(commit: Commit, blocked: bool)
    | BeginForeign(blocked: bool)
    | Step(id: nat, ok: bool, left: Residue, victim: Commit)
    | Crash

  predicate Enabled(s: Store, a: Action) {
    a.Step? ==> a.id in s.ops
  }

  function Advance(s: Store, id: nat, ok: bool, left: Residue, victim: Commit): Store
    requires id in s.ops
  {
    match s.ops[id].pc
    case Probe => DoProbe(s, id, ok)
    case ReadPointer => DoReadPointer(s, id, ok)
    case Clear => DoClear(s, id, ok, left)
    case Ancestry => DoAncestry(s, id, ok)
    case AddTree | Install | Build | Reconcile => DoBuild(s, id, ok, left)
    case Verify => DoVerify(s, id, ok)
    case Validate => DoValidate(s, id, ok)
    case Flip => DoFlip(s, id, ok)
    case List => DoList(s, id, ok)
    case Prune(_) => DoPrune(s, id, ok, left, victim)
    case Foreign => Release(s, id)
  }

  function Next(s: Store, a: Action): Store
    requires Enabled(s, a)
  {
    match a
    case Begin(commit, blocked) => Admit(s, commit, Probe, blocked)
    case BeginForeign(blocked) => Admit(s, "", Foreign, blocked)
    case Step(id, ok, left, victim) => Advance(s, id, ok, left, victim)
    case Crash => s.(active := 0, ops := map[])
  }

  /** The same pieces as the launcher runs them on its own state. */
  class LauncherVersions {
    var pointer: Pointer
    var dirs: map<Commit, bool>
    var registered: set<Commit>
    var active: nat
    var ops: map<nat, Op>
    var next: nat
    var events: Trace

    function Value(): Store
      reads this
    {
      Store(pointer, dirs, registered, active, ops, next, events)
    }

    method ReportOperation(commit: Commit, pc: Pc, blocked: bool) returns (admitted: bool)
      modifies this
      ensures Value() == Admit(old(Value()), commit, pc, blocked)
      ensures admitted == (old(active) == 0 && !blocked)
      ensures admitted ==> old(next) in ops && ops[old(next)] == Op(commit, pc)
      ensures pc in {Probe, Foreign} ==> KeepsLaw(old(Value()), Value())
    {
      AdmitLaw(Value(), commit, pc, blocked);
      if active > 0 || blocked { return false; }
      active := active + 1;
      ops := ops[next := Op(commit, pc)];
      next := next + 1;
      admitted := true;
    }

    method Settle(id: nat)
      modifies this
      ensures Value() == Release(old(Value()), id)
      ensures id !in ops && active == if old(active) > 0 then old(active) - 1 else 0
      ensures id in old(ops) ==> KeepsLaw(old(Value()), Value())
    {
      if id in ops { ReleaseLaw(Value(), id); }
      ops := ops - {id};
      if active > 0 { active := active - 1; }
    }

    method ProbeTarget(id: nat, ok: bool)
      requires id in ops
      modifies this
      ensures Value() == DoProbe(old(Value()), id, ok)
      ensures id in ops ==> ops[id].pc == if ok && Ready(old(Value()), old(ops[id].commit)) then Validate else ReadPointer
      ensures id in ops <==> IsCommit(old(ops[id].commit))
      ensures old(ops[id].pc).Probe? ==> KeepsLaw(old(Value()), Value())
    {
      if ops[id].pc.Probe? { StepLaw(Value(), id, ok, NOTHING, ""); }
      var c := ops[id].commit;
      if !IsCommit(c) { Settle(id); return; }
      if ok && c in dirs && dirs[c] {
        ops := ops[id := Op(c, Validate)];
        events := Then(events, Passed(id, c, Readiness));
      } else {
        ops := ops[id := Op(c, ReadPointer)];
      }
    }

    method ReadCurrentPointer(id: nat, ok: bool)
      requires id in ops
      modifies this
      ensures Value() == DoReadPointer(old(Value()), id, ok)
      ensures id in ops <==> ok && !pointer.Garbled? && pointer != Names(old(ops[id].commit))
      ensures id in ops ==> ops[id] == Op(old(ops[id].commit), Clear)
      ensures pointer == old(pointer) && dirs == old(dirs) && registered == old(registered)
      ensures old(ops[id].pc).ReadPointer? ==> KeepsLaw(old(Value()), Value())
    {
      if ops[id].pc.ReadPointer? { StepLaw(Value(), id, ok, NOTHING, ""); }
      var c := ops[id].commit;
      if !ok || pointer == Garbled || pointer == Names(c) { Settle(id); return; }
      ops := ops[id := Op(c, Clear)];
    }

    method RemoveInterrupted(id: nat, ok: bool, left: Residue)
      requires id in ops
      modifies this
      ensures Value() == DoClear(old(Value()), id, ok, left)
      ensures id in ops <==> ok
      ensures ok ==> ops[id] == Op(old(ops[id].commit), Ancestry) && ops[id].commit !in dirs && ops[id].commit !in registered
      ensures pointer == old(pointer) && SameElsewhere(old(Value()), Value(), old(ops[id].commit))
      ensures old(ops[id].pc).Clear? ==> KeepsLaw(old(Value()), Value())
    {
      if ops[id].pc.Clear? { StepLaw(Value(), id, ok, left, ""); }
      var c := ops[id].commit;
      events := Then(events, Touched(c));
      if ok {
        dirs := dirs - {c};
        registered := registered - {c};
        ops := ops[id := Op(c, Ancestry)];
      } else {
        dirs := Leave(dirs, c, left.dir);
        registered := if left.listed then registered + {c} else registered - {c};
        SettleQuietly(id);
      }
    }

    /** Gives the slot back in the middle of a step. */
    method SettleQuietly(id: nat)
      modifies this
      ensures Value() == Release(old(Value()), id)
    {
      ops := ops - {id};
      if active > 0 { active := active - 1; }
    }

    method CheckAncestry(id: nat, ok: bool)
      requires id in ops
      modifies this
      ensures Value() == DoAncestry(old(Value()), id, ok)
      ensures (id in ops <==> ok) && (ok ==> ops[id] == Op(old(ops[id].commit), AddTree))
      ensures dirs == old(dirs) && registered == old(registered) && pointer == old(pointer)
      ensures old(ops[id].pc).Ancestry? ==> KeepsLaw(old(Value()), Value())
    {
      if ops[id].pc.Ancestry? { StepLaw(Value(), id, ok, NOTHING, ""); }
      if !ok { Settle(id); return; }
      ops := ops[id := Op(ops[id].commit, AddTree)];
    }

    method RunBuildStep(id: nat, ok: bool, left: Residue)
      requires id in ops
      modifies this
      ensures Value() == DoBuild(old(Value()), id, ok, left)
      ensures (id in ops <==> ok) && (ok ==> ops[id] == Op(old(ops[id].commit), AfterBuild(old(ops[id].pc))))
      ensures pointer == old(pointer) && SameElsewhere(old(Value()), Value(), old(ops[id].commit))
      ensures Ready(Value(), old(ops[id].commit)) <==> left.dir == Some(true)
      ensures old(ops[id].pc).AddTree? ==> (old(ops[id].commit) in registered <==> ok || left.listed)
      ensures !old(ops[id].pc).AddTree? ==> registered == old(registered)
      ensures IsBuilding(old(ops[id].pc)) ==> KeepsLaw(old(Value()), Value())
    {
      if IsBuilding(ops[id].pc) { StepLaw(Value(), id, ok, left, ""); }
      var c, pc := ops[id].commit, ops[id].pc;
      events := Then(events, Touched(c));
      dirs := Leave(dirs, c, left.dir);
      if pc.AddTree? { registered := if ok || left.listed then registered + {c} else registered - {c}; }
      if !ok { SettleQuietly(id); return; }
      ops := ops[id := Op(c, AfterBuild(pc))];
    }

    method VerifyBuilt(id: nat, ok: bool)
      requires id in ops
      modifies this
      ensures Value() == DoVerify(old(Value()), id, ok)
      ensures id in ops <==> ok && Ready(Value(), old(ops[id].commit))
      ensures id in ops ==> ops[id] == Op(old(ops[id].commit), Validate)
      ensures pointer == old(pointer) && dirs == old(dirs) && registered == old(registered)
      ensures old(ops[id].pc).Verify? ==> KeepsLaw(old(Value()), Value())
    {
      if ops[id].pc.Verify? { StepLaw(Value(), id, ok, NOTHING, ""); }
      var c := ops[id].commit;
      if !ok || c !in dirs || !dirs[c] { Settle(id); return; }
      events := Then(events, Passed(id, c, Readiness));
      ops := ops[id := Op(c, Validate)];
    }

    method ValidateProfile(id: nat, ok: bool)
      requires id in ops
      modifies this
      ensures Value() == DoValidate(old(Value()), id, ok)
      ensures (id in ops <==> ok) && (ok ==> ops[id] == Op(old(ops[id].commit), Flip))
      ensures pointer == old(pointer) && dirs == old(dirs) && registered == old(registered)
      ensures old(ops[id].pc).Validate? ==> KeepsLaw(old(Value()), Value())
    {
      if ops[id].pc.Validate? { StepLaw(Value(), id, ok, NOTHING, ""); }
      var c := ops[id].commit;
      if !ok { Settle(id); return; }
      events := Then(events, Passed(id, c, Compatibility));
      ops := ops[id := Op(c, Flip)];
    }

    method WritePointer(id: nat, ok: bool)
      requires id in ops
      modifies this
      ensures Value() == DoFlip(old(Value()), id, ok)
      ensures pointer == if ok then Names(old(ops[id].commit)) else old(pointer)
      ensures (id in ops <==> ok) && (ok ==> ops[id] == Op(old(ops[id].commit), List))
      ensures dirs == old(dirs) && registered == old(registered)
      ensures old(ops[id].pc).Flip? ==> KeepsLaw(old(Value()), Value())
    {
      if ops[id].pc.Flip? { StepLaw(Value(), id, ok, NOTHING, ""); }
      var c := ops[id].commit;
      if !ok { Settle(id); return; }
      pointer := Names(c);
      events := Then(events, Moved(id, c));
      ops := ops[id := Op(c, List)];
    }

    method ListInactive(id: nat, ok: bool)
      requires id in ops
      modifies this
      ensures Value() == DoList(old(Value()), id, ok)
      ensures id in ops <==> ok
      ensures ok ==> && ops[id].commit == old(ops[id].commit) && ops[id].pc.Prune?
                     && forall c :: c in ops[id].pc.left <==> c in dirs && IsCommit(c) && c != ops[id].commit
      ensures pointer == old(pointer) && dirs == old(dirs) && registered == old(registered)
      ensures old(ops[id].pc).List? ==> KeepsLaw(old(Value()), Value())
    {
      if ops[id].pc.List? { StepLaw(Value(), id, ok, NOTHING, ""); }
      var c := ops[id].commit;
      if !ok { Settle(id); return; }
      ops := ops[id := Op(c, Prune((set d | d in dirs && IsCommit(d)) - {c}))];
    }

    method PruneOne(id: nat, ok: bool, left: Residue, victim: Commit)
      requires id in ops && ops[id].pc.Prune?
      modifies this
      ensures Value() == DoPrune(old(Value()), id, ok, left, victim)
      ensures victim in old(ops[id].pc).left ==> id in ops && ops[id].pc == Prune(old(ops[id].pc).left - {victim})
      ensures victim in old(ops[id].pc).left ==> SameElsewhere(old(Value()), Value(), victim) && (ok ==> victim !in dirs)
      ensures victim !in old(ops[id].pc).left ==> dirs == old(dirs)
      ensures old(ops[id].pc).left == {} ==> id !in ops && registered == if ok then old(registered) * dirs.Keys else old(registered)
      ensures pointer == old(pointer) && KeepsLaw(old(Value()), Value())
    {
      StepLaw(Value(), id, ok, left, victim);
      var c, rest := ops[id].commit, ops[id].pc.left;
      if victim in rest {
        dirs := Leave(dirs, victim, if ok then None else left.dir);
        events := Then(events, Touched(victim));
        ops := ops[id := Op(c, Prune(rest - {victim}))];
      } else if rest == {} {
        if ok { registered := registered * dirs.Keys; }
        SettleQuietly(id);
      }
    }

    // The whole operation.

    /** The operation is at this await, or has ended; the law and a ready named version are kept. */
    ghost predicate At(p: Pointer, s: Store, id: nat, commit: Commit, pcs: set<Pc>)
      reads this
    {
      Safe(p, s, Value()) && ops.Keys <= {id} && (id in ops ==> ops[id].commit == commit && ops[id].pc in pcs)
    }

    /** Clears the way for a commit that is neither ready nor named. */
    method ClearTarget(ghost p: Pointer, id: nat, answers: nat -> Reply)
      requires Inv(p, Value()) && id in ops && ops[id].pc.ReadPointer?
      modifies this
      ensures At(p, old(Value()), id, old(ops[id].commit), {Ancestry}) && pointer == old(pointer)
      ensures SameElsewhere(old(Value()), Value(), old(ops[id].commit))
      ensures id in ops <==> answers(1).ok && !pointer.Garbled? && pointer != Names(old(ops[id].commit)) && answers(2).ok
    {
      AloneInOps(p, Value(), id);
      ReadCurrentPointer(id, answers(1).ok);
      if id !in ops { return; }
      ghost var s := Value();
      RemoveInterrupted(id, answers(2).ok, answers(2).left);
      assert Keeps(p, s, Value());
    }

    method BuildOnce(ghost p: Pointer, id: nat, reply: Reply)
      requires Inv(p, Value()) && id in ops && ops.Keys == {id} && IsBuilding(ops[id].pc)
      modifies this
      ensures At(p, old(Value()), id, old(ops[id].commit), {AfterBuild(old(ops[id].pc))}) && pointer == old(pointer)
      ensures SameElsewhere(old(Value()), Value(), old(ops[id].commit)) && (id in ops <==> reply.ok)
      ensures Ready(Value(), old(ops[id].commit)) <==> reply.left.dir == Some(true)
    {
      ghost var s := Value();
      RunBuildStep(id, reply.ok, reply.left);
      assert Keeps(p, s, Value());
    }

    /** The four build steps. */
    method BuildTarget(ghost p: Pointer, id: nat, answers: nat -> Reply)
      requires Inv(p, Value()) && id in ops && ops[id].pc.AddTree?
      modifies this
      ensures At(p, old(Value()), id, old(ops[id].commit), {Verify}) && pointer == old(pointer)
      ensures SameElsewhere(old(Value()), Value(), old(ops[id].commit))
      ensures id in ops <==> answers(4).ok && answers(5).ok && answers(6).ok && answers(7).ok
      ensures id in ops ==> (Ready(Value(), old(ops[id].commit)) <==> answers(7).left.dir == Some(true))
    {
      AloneInOps(p, Value(), id);
      BuildOnce(p, id, answers(4));
      if id !in ops { return; }
      BuildOnce(p, id, answers(5));
      if id !in ops { return; }
      BuildOnce(p, id, answers(6));
      if id !in ops { return; }
      BuildOnce(p, id, answers(7));
    }

    /** Prepares a commit that is not ready, up to the second readiness check. */
    method PrepareTarget(ghost p: Pointer, id: nat, answers: nat -> Reply)
      requires Inv(p, Value()) && id in ops && ops[id].pc.ReadPointer?
      modifies this
      ensures At(p, old(Value()), id, old(ops[id].commit), {Validate}) && pointer == old(pointer)
      ensures SameElsewhere(old(Value()), Value(), old(ops[id].commit))
      ensures id in ops <==> Prepares(pointer, old(ops[id].commit), answers)
      ensures id in ops ==> Ready(Value(), old(ops[id].commit))
    {
      ClearTarget(p, id, answers);
      if id !in ops { return; }
      CheckAncestry(id, answers(3).ok);
      if id !in ops { return; }
      BuildTarget(p, id, answers);
      if id !in ops { return; }
      VerifyBuilt(id, answers(8).ok);
    }

    /** Deletes the other versions, one after the other. */
    method PruneInactive(ghost p: Pointer, id: nat, answers: nat -> Reply)
      requires Inv(p, Value()) && id in ops && ops[id].pc.Prune?
      modifies this
      ensures Safe(p, old(Value()), Value()) && ops == map[] && active == 0 && pointer == old(pointer)
      ensures forall c | c !in old(ops[id].pc).left :: (c in dirs <==> c in old(dirs)) && (c in dirs ==> dirs[c] == old(dirs)[c])
      ensures (forall k: nat | k >= 12 :: answers(k).ok) ==> forall c | c in old(ops[id].pc).left :: c !in dirs
    {
      AloneInOps(p, Value(), id);
      var k := 12;
      while ops[id].pc.left != {}
        invariant id in ops && ops[id].pc.Prune? && ops.Keys == {id}
        invariant Safe(p, old(Value()), Value()) && pointer == old(pointer) && k >= 12
        invariant ops[id].pc.left <= old(ops[id].pc).left
        invariant forall c | c !in old(ops[id].pc).left :: (c in dirs <==> c in old(dirs)) && (c in dirs ==> dirs[c] == old(dirs)[c])
        invariant (forall n: nat | n >= 12 :: answers(n).ok) ==>
                    forall c | c in old(ops[id].pc).left && c !in ops[id].pc.left :: c !in dirs
        decreases ops[id].pc.left
      {
        ghost var s := Value();
        var victim :| victim in ops[id].pc.left;
        PruneOne(id, answers(k).ok, answers(k).left, victim);
        assert Keeps(p, s, Value());
        k := k + 1;
      }
      ghost var s := Value();
      PruneOne(id, answers(k).ok, answers(k).left, "");
      assert Keeps(p, s, Value());
    }

    /** Publishes a ready commit and deletes the other versions. */
    method PublishTarget(ghost p: Pointer, id: nat, answers: nat -> Reply)
      requires Inv(p, Value()) && id in ops && ops[id].pc.Validate?
      modifies this
      ensures Safe(p, old(Value()), Value()) && ops == map[] && active == 0
      ensures pointer == if answers(9).ok && answers(10).ok then Names(old(ops[id].commit)) else old(pointer)
      ensures !(answers(9).ok && answers(10).ok) ==> dirs == old(dirs)
      ensures forall c | c == old(ops[id].commit) || !IsCommit(c) :: (c in dirs <==> c in old(dirs)) && (c in dirs ==> dirs[c] == old(dirs)[c])
      ensures (forall k: nat | k >= 9 :: answers(k).ok) ==> forall c | c in dirs && IsCommit(c) :: c == old(ops[id].commit)
    {
      AloneInOps(p, Value(), id);
      ValidateProfile(id, answers(9).ok);
      if id !in ops { return; }
      WritePointer(id, answers(10).ok);
      if id !in ops { return; }
      ListInactive(id, answers(11).ok);
      if id !in ops { return; }
      PruneInactive(p, id, answers);
    }

    /** One version switch from its admission to its end, whatever each await answers. */
    method MaterializeVersion(ghost p: Pointer, commit: Commit, blocked: bool, answers: nat -> Reply)
      requires Inv(p, Value())
      modifies this
      ensures Safe(p, old(Value()), Value())
      ensures old(active) > 0 || blocked ==> Value() == old(Value())
      ensures old(active) == 0 ==> active == 0 && ops == map[]
      ensures pointer == if Switches(old(Value()), commit, blocked, answers) then Names(commit) else old(pointer)
      ensures Switches(old(Value()), commit, blocked, answers) ==> Ready(Value(), commit)
      ensures !Switches(old(Value()), commit, blocked, answers) ==>
                forall c | c != commit :: (c in dirs <==> c in old(dirs)) && (c in dirs ==> dirs[c] == old(dirs)[c])
      ensures Switches(old(Value()), commit, blocked, answers) && (forall k: nat | k >= 9 :: answers(k).ok) ==>
                forall c | c in dirs && IsCommit(c) :: c == commit
      ensures forall c | !IsCommit(c) :: (c in dirs <==> c in old(dirs)) && (c in dirs ==> dirs[c] == old(dirs)[c])
    {
      var id := next;
      var admitted := ReportOperation(commit, Probe, blocked);
      if !admitted { return; }
      AloneInOps(p, Value(), id);
      ProbeTarget(id, answers(0).ok);
      if id !in ops { return; }
      if ops[id].pc.ReadPointer? {
        PrepareTarget(p, id, answers);
        if id !in ops { return; }
      }
      PublishTarget(p, id, answers);
    }
  }

  /** How one await of an operation ends. */
  datatype Reply = Reply(ok: bool, left: Residue)

  /** The other commits' directories and registrations are as they were. */
  ghost predicate SameElsewhere(s: Store, t: Store, c: Commit) {
    forall d | d != c ::
      (d in s.dirs <==> d in t.dirs) && (d in s.dirs ==> t.dirs[d] == s.dirs[d]) && (d in s.registered <==> d in t.registered)
  }

  /** A commit that is not ready gets prepared: the record is readable and does not name it, every step succeeds, and the last leaves it ready. */
  predicate Prepares(pointer: Pointer, commit: Commit, answers: nat -> Reply) {
    && answers(1).ok && !pointer.Garbled? && pointer != Names(commit)
    && answers(2).ok && answers(3).ok && answers(4).ok && answers(5).ok && answers(6).ok && answers(7).ok
    && answers(7).left.dir == Some(true) && answers(8).ok
  }

  /** When a switch puts its commit in use, from the old state and the answers of its awaits. */
  predicate Switches(s: Store, commit: Commit, blocked: bool, answers: nat -> Reply) {
    && s.active == 0 && !blocked && IsCommit(commit)
    && ((answers(0).ok && Ready(s, commit)) || Prepares(s.pointer, commit, answers))
    && answers(9).ok && answers(10).ok
  }

  const NOTHING := Residue(None, false)

  // Runs: any store at rest, then any steps, crashes included.

  ghost predicate AtRest(s: Store) {
    s.active == 0 && s.ops == map[] && s.events == NoEvents
  }

  ghost predicate Run(stores: seq<Store>, actions: seq<Action>) {
    && |stores| == |actions| + 1 && AtRest(stores[0])
    && forall i | 0 <= i < |actions| :: Enabled(stores[i], actions[i]) && stores[i + 1] == Next(stores[i], actions[i])
  }

  // The law of the trace.

  /** The pointer after a trace that began with pointer `p`. */
  function PointerAfter(p: Pointer, es: Trace): Pointer {
    match es
    case NoEvents => p
    case Then(before, e) => if e.Moved? then Names(e.commit) else PointerAfter(p, before)
  }

  /** Operation `id` found `c` ready, and nothing touched its directory since. */
  predicate ReadySince(es: Trace, id: nat, c: Commit) {
    match es
    case NoEvents => false
    case Then(before, e) => e == Passed(id, c, Readiness) || (e != Touched(c) && ReadySince(before, id, c))
  }

  /** Operation `id` found `c` ready and after that compatible, and nothing touched its directory since. */
  predicate Approved(es: Trace, id: nat, c: Commit) {
    match es
    case NoEvents => false
    case Then(before, e) =>
      e != Touched(c) && (Approved(before, id, c) || (e == Passed(id, c, Compatibility) && ReadySince(before, id, c)))
  }

  /** The pointer moves only to what the same operation approved, and a touched directory is not the named one. */
  predicate Allowed(p: Pointer, before: Trace, e: Event) {
    match e
    case Passed(_, _, _) => true
    case Moved(id, c) => Approved(before, id, c)
    case Touched(c) => PointerAfter(p, before) != Names(c)
  }

  /** Every event was allowed by what came before it. */
  predicate Lawful(p: Pointer, es: Trace) {
    match es
    case NoEvents => true
    case Then(before, e) => Lawful(p, before) && Allowed(p, before, e)
  }

  /** Where an operation is decides what it may rely on. */
  ghost predicate OpOk(s: Store, id: nat)
    requires id in s.ops
  {
    var c := s.ops[id].commit;
    match s.ops[id].pc
    case Probe | ReadPointer | Foreign => true
    case Clear | Ancestry | AddTree | Install | Build | Reconcile | Verify => s.pointer != Names(c)
    case Validate => Ready(s, c) && ReadySince(s.events, id, c)
    case Flip => Ready(s, c) && Approved(s.events, id, c)
    case List => s.pointer == Names(c)
    case Prune(left) => s.pointer == Names(c) && c !in left
  }

  /** The counter admits one operation at a time. */
  ghost predicate Exclusive(s: Store) {
    && s.active <= 1 && (s.active == 0 <==> s.ops == map[])
    && (forall a, b | a in s.ops && b in s.ops :: a == b)
  }

  ghost predicate Inv(p: Pointer, s: Store) {
    && Exclusive(s)
    && s.pointer == PointerAfter(p, s.events)
    && Lawful(p, s.events)
    && forall id | id in s.ops :: OpOk(s, id)
  }

  predicate NamedIsReady(s: Store) {
    s.pointer.Names? ==> Ready(s, s.pointer.commit)
  }

  /** The directory and registration of the named commit, which a step must leave alone. */
  predicate NamedKept(s: Store, t: Store) {
    s.pointer.Names? ==>
      && (s.pointer.commit in s.dirs <==> s.pointer.commit in t.dirs)
      && (s.pointer.commit in s.dirs ==> t.dirs[s.pointer.commit] == s.dirs[s.pointer.commit])
      && (s.pointer.commit in s.registered && s.pointer.commit in s.dirs ==> s.pointer.commit in t.registered)
  }

  /** What every step keeps: the invariant, and the named directory, unless the pointer moves to another, ready one. */
  ghost predicate Keeps(p: Pointer, s: Store, t: Store) {
    Inv(p, t) && NamedKept(s, t) && (t.pointer != s.pointer ==> NamedIsReady(t))
  }

  lemma AdmitKeeps(p: Pointer, s: Store, commit: Commit, pc: Pc, blocked: bool)
    requires Inv(p, s) && pc in {Probe, Foreign}
    ensures Keeps(p, s, Admit(s, commit, pc, blocked))
  {
    var t := Admit(s, commit, pc, blocked);
    if t != s {
      assert s.next in t.ops;
    }
  }

  /** A step that only moves its operation on, or ends it, keeps the invariant if the new place may rely on what it needs. */
  lemma MovedOn(p: Pointer, s: Store, t: Store, id: nat)
    requires Inv(p, s) && id in s.ops
    requires t.pointer == PointerAfter(p, t.events) && Lawful(p, t.events)
    requires (t.ops.Keys == {id} && t.active == s.active && OpOk(t, id)) || (t.ops == map[] && t.active == 0)
    ensures Inv(p, t)
  {
  }

  lemma EndOk(p: Pointer, s: Store, id: nat)
    requires Inv(p, s) && id in s.ops
    ensures Release(s, id).ops == map[] && Release(s, id).active == 0
    ensures forall pc :: Goto(s, id, pc).ops.Keys == {id}
  {
  }

  lemma PlainStep(p: Pointer, s: Store, id: nat, ok: bool, left: Residue, victim: Commit)
    requires Inv(p, s) && id in s.ops && s.ops[id].pc in {ReadPointer, Ancestry, List, Foreign}
    ensures Keeps(p, s, Advance(s, id, ok, left, victim))
  {
  }

  /** A directory found ready takes the operation to the compatibility check. */
  lemma FoundReady(p: Pointer, s: Store, id: nat, t: Store)
    requires Inv(p, s) && id in s.ops && Ready(s, s.ops[id].commit)
    requires t == Goto(s, id, Validate).(events := Then(s.events, Passed(id, s.ops[id].commit, Readiness)))
    ensures Inv(p, t)
  {
    var c := s.ops[id].commit;
    EndOk(p, s, id);
    MovedOn(p, s, t, id);
  }

  lemma ProbeStep(p: Pointer, s: Store, id: nat, ok: bool)
    requires Inv(p, s) && id in s.ops && s.ops[id].pc.Probe?
    ensures Keeps(p, s, DoProbe(s, id, ok))
  {
    var t := DoProbe(s, id, ok);
    if IsCommit(s.ops[id].commit) && ok && Ready(s, s.ops[id].commit) {
      FoundReady(p, s, id, t);
    } else {
      EndOk(p, s, id);
      MovedOn(p, s, t, id);
    }
  }

  lemma VerifyStep(p: Pointer, s: Store, id: nat, ok: bool)
    requires Inv(p, s) && id in s.ops && s.ops[id].pc.Verify?
    ensures Keeps(p, s, DoVerify(s, id, ok))
  {
    var t := DoVerify(s, id, ok);
    if ok && Ready(s, s.ops[id].commit) {
      FoundReady(p, s, id, t);
    } else {
      EndOk(p, s, id);
      MovedOn(p, s, t, id);
    }
  }

  lemma ValidateStep(p: Pointer, s: Store, id: nat, ok: bool)
    requires Inv(p, s) && id in s.ops && s.ops[id].pc.Validate?
    ensures Keeps(p, s, DoValidate(s, id, ok))
  {
    var c, t := s.ops[id].commit, DoValidate(s, id, ok);
    EndOk(p, s, id);
    assert OpOk(s, id);
    if ok {
      var e := Passed(id, c, Compatibility);
      assert t.events == Then(s.events, e) && t.ops == s.ops[id := Op(c, Flip)] && t.dirs == s.dirs;
      assert OpOk(t, id);
    }
    MovedOn(p, s, t, id);
  }

  lemma ClearStep(p: Pointer, s: Store, id: nat, ok: bool, left: Residue)
    requires Inv(p, s) && id in s.ops && s.ops[id].pc.Clear?
    ensures Keeps(p, s, DoClear(s, id, ok, left))
  {
    EndOk(p, s, id);
    assert OpOk(s, id);
    MovedOn(p, s, DoClear(s, id, ok, left), id);
  }

  /** A step that changes only the directory and registration of a commit that is not named. */
  lemma OthersKept(s: Store, c: Commit, t: Store)
    requires s.pointer != Names(c) && t.pointer == s.pointer
    requires SameElsewhere(s, t, c)
    ensures NamedKept(s, t)
  {
  }

  lemma BuildGoes(p: Pointer, s: Store, id: nat, left: Residue, t: Store)
    requires Inv(p, s) && id in s.ops && IsBuilding(s.ops[id].pc) && t == DoBuild(s, id, true, left)
    ensures Inv(p, t)
  {
    var c := s.ops[id].commit;
    AloneInOps(p, s, id);
    assert OpOk(s, id);
    assert t.ops == s.ops[id := Op(c, AfterBuild(s.ops[id].pc))];
    assert OpOk(t, id);
    MovedOn(p, s, t, id);
  }

  lemma BuildFails(p: Pointer, s: Store, id: nat, left: Residue, t: Store)
    requires Inv(p, s) && id in s.ops && IsBuilding(s.ops[id].pc) && t == DoBuild(s, id, false, left)
    ensures Inv(p, t)
  {
    AloneInOps(p, s, id);
    assert OpOk(s, id);
    assert t.ops == map[];
    MovedOn(p, s, t, id);
  }

  lemma BuildStep(p: Pointer, s: Store, id: nat, ok: bool, left: Residue)
    requires Inv(p, s) && id in s.ops && IsBuilding(s.ops[id].pc)
    ensures Keeps(p, s, DoBuild(s, id, ok, left))
  {
    var t := DoBuild(s, id, ok, left);
    if ok { BuildGoes(p, s, id, left, t); } else { BuildFails(p, s, id, left, t); }
    assert OpOk(s, id);
    OthersKept(s, s.ops[id].commit, t);
  }

  lemma FlipStep(p: Pointer, s: Store, id: nat, ok: bool)
    requires Inv(p, s) && id in s.ops && s.ops[id].pc.Flip?
    ensures Keeps(p, s, DoFlip(s, id, ok))
  {
    EndOk(p, s, id);
    assert OpOk(s, id);
    MovedOn(p, s, DoFlip(s, id, ok), id);
  }

  lemma PruneOneStep(p: Pointer, s: Store, id: nat, ok: bool, left: Residue, victim: Commit)
    requires Inv(p, s) && id in s.ops && s.ops[id].pc.Prune? && victim in s.ops[id].pc.left
    ensures Keeps(p, s, DoPrune(s, id, ok, left, victim))
  {
    var c, rest, t := s.ops[id].commit, s.ops[id].pc.left, DoPrune(s, id, ok, left, victim);
    EndOk(p, s, id);
    assert OpOk(s, id);
    assert s.pointer == Names(c) && victim != c;
    assert t.events == Then(s.events, Touched(victim)) && t.pointer == s.pointer;
    assert t.ops == s.ops[id := Op(c, Prune(rest - {victim}))];
    assert OpOk(t, id);
    MovedOn(p, s, t, id);
  }

  lemma PruneEndStep(p: Pointer, s: Store, id: nat, ok: bool, left: Residue, victim: Commit)
    requires Inv(p, s) && id in s.ops && s.ops[id].pc.Prune? && victim !in s.ops[id].pc.left
    ensures Keeps(p, s, DoPrune(s, id, ok, left, victim))
  {
  }

  lemma AdvanceKeeps(p: Pointer, s: Store, id: nat, ok: bool, left: Residue, victim: Commit)
    requires Inv(p, s) && id in s.ops
    ensures Keeps(p, s, Advance(s, id, ok, left, victim))
  {
    match s.ops[id].pc
    case Clear => ClearStep(p, s, id, ok, left);
    case AddTree | Install | Build | Reconcile => BuildStep(p, s, id, ok, left);
    case Probe => ProbeStep(p, s, id, ok);
    case Verify => VerifyStep(p, s, id, ok);
    case Validate => ValidateStep(p, s, id, ok);
    case Flip => FlipStep(p, s, id, ok);
    case Prune(rest) =>
      if victim in rest { PruneOneStep(p, s, id, ok, left, victim); } else { PruneEndStep(p, s, id, ok, left, victim); }
    case Foreign | ReadPointer | Ancestry | List => PlainStep(p, s, id, ok, left, victim);
  }

  /** Every step keeps the invariant; the named directory changes only by the pointer moving to another, ready one. */
  lemma StepKeeps(p: Pointer, s: Store, a: Action)
    requires Inv(p, s) && Enabled(s, a)
    ensures Keeps(p, s, Next(s, a))
  {
    match a
    case Begin(commit, blocked) => AdmitKeeps(p, s, commit, Probe, blocked);
    case BeginForeign(blocked) => AdmitKeeps(p, s, "", Foreign, blocked);
    case Crash =>
    case Step(id, ok, left, victim) => AdvanceKeeps(p, s, id, ok, left, victim);
  }

  /** The step keeps the law, wherever the trace began. */
  ghost predicate KeepsLaw(s: Store, t: Store) {
    forall p | Inv(p, s) :: Keeps(p, s, t)
  }

  lemma StepLaw(s: Store, id: nat, ok: bool, left: Residue, victim: Commit)
    requires id in s.ops
    ensures KeepsLaw(s, Advance(s, id, ok, left, victim))
  {
    forall p | Inv(p, s) ensures Keeps(p, s, Advance(s, id, ok, left, victim)) {
      AdvanceKeeps(p, s, id, ok, left, victim);
    }
  }

  lemma AdmitLaw(s: Store, commit: Commit, pc: Pc, blocked: bool)
    ensures pc in {Probe, Foreign} ==> KeepsLaw(s, Admit(s, commit, pc, blocked))
  {
    if pc in {Probe, Foreign} {
      forall p | Inv(p, s) ensures Keeps(p, s, Admit(s, commit, pc, blocked)) {
        AdmitKeeps(p, s, commit, pc, blocked);
      }
    }
  }

  lemma ReleaseLaw(s: Store, id: nat)
    requires id in s.ops
    ensures KeepsLaw(s, Release(s, id))
  {
    forall p | Inv(p, s) ensures Keeps(p, s, Release(s, id)) {
      EndOk(p, s, id);
      MovedOn(p, s, Release(s, id), id);
    }
  }

  lemma AloneInOps(p: Pointer, s: Store, id: nat)
    requires Inv(p, s) && id in s.ops
    ensures s.ops.Keys == {id} && s.active == 1
  {
  }

  /** Any number of steps later: the law still holds, and a ready named version is still ready. */
  ghost predicate Safe(p: Pointer, s: Store, t: Store) {
    Inv(p, t) && (NamedIsReady(s) ==> NamedIsReady(t))
  }

  lemma {:induction false} RunKeeps(stores: seq<Store>, actions: seq<Action>, i: nat)
    requires Run(stores, actions) && i < |stores|
    ensures Inv(stores[0].pointer, stores[i])
  {
    if i > 0 {
      RunKeeps(stores, actions, i - 1);
      StepKeeps(stores[0].pointer, stores[i - 1], actions[i - 1]);
      assert stores[i] == Next(stores[i - 1], actions[i - 1]);
    }
  }

  /**
   In every run, with any failures and crashes: the pointer moves only to a commit that the same
   operation found ready and compatible with nothing touching its directory in between, no directory is
   removed, rebuilt or pruned while it is the named version, and at most one operation is ever active.
   */
  lemma SwitchIsCrashSafe(stores: seq<Store>, actions: seq<Action>, i: nat)
    requires Run(stores, actions) && i < |stores|
    ensures Lawful(stores[0].pointer, stores[i].events)
    ensures stores[i].pointer == PointerAfter(stores[0].pointer, stores[i].events)
    ensures stores[i].active <= 1 && forall a, b | a in stores[i].ops && b in stores[i].ops :: a == b
  {
    RunKeeps(stores, actions, i);
  }

  /** So a launcher that starts on a ready version, or on none, always has a ready version to run. */
  lemma {:induction false} NamedStaysReady(stores: seq<Store>, actions: seq<Action>, i: nat)
    requires Run(stores, actions) && i < |stores| && NamedIsReady(stores[0])
    ensures NamedIsReady(stores[i])
  {
    if i > 0 {
      NamedStaysReady(stores, actions, i - 1);
      RunKeeps(stores, actions, i - 1);
      StepKeeps(stores[0].pointer, stores[i - 1], actions[i - 1]);
      assert stores[i] == Next(stores[i - 1], actions[i - 1]);
    }
  }

  // Why the reporter's exclusion is needed.

  /** The same steps, but with every operation admitted at once. */
  function NextUnguarded(s: Store, a: Action): Store
    requires Enabled(s, a)
  {
    match a
    case Begin(commit, _) => s.(active := s.active + 1, ops := s.ops[s.next := Op(commit, Probe)], next := s.next + 1)
    case _ => Next(s, a)
  }

  ghost predicate Reaches(n: nat, s: Store, t: Store) {
    if n == 0 then s == t else exists u, a :: Reaches(n - 1, s, u) && Enabled(u, a) && t == NextUnguarded(u, a)
  }

  lemma ReachesNext(n: nat, s: Store, u: Store, a: Action)
    requires Reaches(n, s, u) && Enabled(u, a)
    ensures Reaches(n + 1, s, NextUnguarded(u, a))
  {
  }

  /** A ready commit after its switch up to the flip. */
  function Flipped(s: Store, id: nat, c: Commit): Store {
    s.(pointer := Names(c), ops := s.ops[id := Op(c, List)],
       events := Then(Then(Then(s.events, Passed(id, c, Readiness)), Passed(id, c, Compatibility)), Moved(id, c)))
  }

  lemma ProbesReady(s: Store, id: nat, c: Commit)
    requires id in s.ops && s.ops[id] == Op(c, Probe) && IsCommit(c) && Ready(s, c)
    ensures NextUnguarded(s, Step(id, true, NOTHING, "")) ==
              s.(ops := s.ops[id := Op(c, Validate)], events := Then(s.events, Passed(id, c, Readiness)))
  {
  }

  lemma ValidatesReady(s: Store, id: nat, c: Commit)
    requires id in s.ops && s.ops[id] == Op(c, Validate)
    ensures NextUnguarded(s, Step(id, true, NOTHING, "")) ==
              s.(ops := s.ops[id := Op(c, Flip)], events := Then(s.events, Passed(id, c, Compatibility)))
  {
  }

  lemma FlipsNext(s: Store, id: nat, c: Commit)
    requires id in s.ops && s.ops[id] == Op(c, Flip)
    ensures NextUnguarded(s, Step(id, true, NOTHING, "")) ==
              s.(pointer := Names(c), ops := s.ops[id := Op(c, List)], events := Then(s.events, Moved(id, c)))
  {
  }

  lemma FlipsReady(n: nat, s0: Store, s: Store, id: nat, c: Commit)
    requires Reaches(n, s0, s) && id in s.ops && s.ops[id] == Op(c, Probe) && IsCommit(c) && Ready(s, c)
    ensures Reaches(n + 3, s0, Flipped(s, id, c))
  {
    var go := Step(id, true, NOTHING, "");
    var s1 := NextUnguarded(s, go);
    ProbesReady(s, id, c);
    ReachesNext(n, s0, s, go);
    var s2 := NextUnguarded(s1, go);
    ValidatesReady(s1, id, c);
    ReachesNext(n + 1, s0, s1, go);
    FlipsNext(s2, id, c);
    ReachesNext(n + 2, s0, s2, go);
    assert s.ops[id := Op(c, Validate)][id := Op(c, Flip)][id := Op(c, List)] == s.ops[id := Op(c, List)];
    assert NextUnguarded(s2, go) == Flipped(s, id, c);
  }

  /** A store at rest with two built versions. */
  function TwoBuilt(a: Commit, b: Commit): Store {
    Store(Absent, map[a := true, b := true], {}, 0, map[], 0, NoEvents)
  }

  /** Both operations begun. */
  function BothBegun(a: Commit, b: Commit): Store {
    TwoBuilt(a, b).(active := 2, ops := map[0 := Op(a, Probe), 1 := Op(b, Probe)], next := 2)
  }

  lemma TwoBegin(a: Commit, b: Commit)
    ensures Reaches(2, TwoBuilt(a, b), BothBegun(a, b))
  {
    var s0 := TwoBuilt(a, b);
    var s1 := NextUnguarded(s0, Begin(a, false));
    assert s1.ops == map[0 := Op(a, Probe)];
    assert NextUnguarded(s1, Begin(b, false)) == BothBegun(a, b);
    ReachesNext(0, s0, s0, Begin(a, false));
    ReachesNext(1, s0, s1, Begin(b, false));
  }

  lemma FirstLists(n: nat, s0: Store, a: Commit, b: Commit, s: Store)
    requires a != b && IsCommit(a) && IsCommit(b) && s == Flipped(BothBegun(a, b), 0, a) && Reaches(n, s0, s)
    ensures Reaches(n + 1, s0, s.(ops := map[0 := Op(a, Prune({b})), 1 := Op(b, Probe)]))
  {
    assert (set c | c in s.dirs && IsCommit(c)) - {a} == {b};
    assert s.ops[0 := Op(a, Prune({b}))] == map[0 := Op(a, Prune({b})), 1 := Op(b, Probe)];
    assert Next(s, Step(0, true, NOTHING, "")) == s.(ops := map[0 := Op(a, Prune({b})), 1 := Op(b, Probe)]);
    ReachesNext(n, s0, s, Step(0, true, NOTHING, ""));
  }

  lemma PrunesNamed(n: nat, s0: Store, a: Commit, b: Commit, s: Store) returns (end: Store)
    requires Reaches(n, s0, s) && 0 in s.ops && s.ops[0] == Op(a, Prune({b})) && s.pointer == Names(b)
    requires s.events.Then? && s.events.last == Moved(1, b)
    ensures Reaches(n + 1, s0, end) && end.pointer == Names(b) && !NamedIsReady(end) && !Lawful(Absent, end.events)
  {
    end := Next(s, Step(0, true, NOTHING, b));
    ReachesNext(n, s0, s, Step(0, true, NOTHING, b));
    assert end.events == Then(s.events, Touched(b)) && PointerAfter(Absent, s.events) == Names(b);
  }

  /**
   Without the exclusion the law fails: from a store at rest with two built versions, two overlapping
   switches let the first delete the directory that the second has just made the version in use.
   */
  lemma OverlapBreaksTheLaw(a: Commit, b: Commit) returns (end: Store)
    requires a != b && IsCommit(a) && IsCommit(b)
    ensures AtRest(TwoBuilt(a, b)) && Reaches(10, TwoBuilt(a, b), end)
    ensures end.pointer == Names(b) && !NamedIsReady(end) && !Lawful(Absent, end.events)
  {
    var s0, s2 := TwoBuilt(a, b), BothBegun(a, b);
    var s5 := Flipped(s2, 0, a);
    var s6 := s5.(ops := map[0 := Op(a, Prune({b})), 1 := Op(b, Probe)]);
    TwoBegin(a, b);
    FlipsReady(2, s0, s2, 0, a);
    FirstLists(5, s0, a, b, s5);
    FlipsReady(6, s0, s6, 1, b);
    end := PrunesNamed(9, s0, a, b, Flipped(s6, 1, b));
  }
}
