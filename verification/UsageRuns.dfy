/**
 What the usage fold computes, said without folding.

 The usage reports and retries of a log are cut into runs. A report continues an earlier one of
 the same step when nothing but retries of other steps lies between them. Each run counts once,
 with the buckets of its last report; on the calendar it stays in the group of the earliest report
 from which those buckets have not changed since.
 */
module UsageRuns {
  import opened Common
  import opened SessionEvents
  import opened UsageFold

  datatype Action =
    | Reported(key: StepKey, buckets: Buckets, group: Option<Group>)
    | Retried(key: StepKey)

  /** The model of the last request header, which names the group of the reports after it. */
  function ModelAfter(es: seq<Event>): Option<string> {
    if es == [] then None
    else if es[|es| - 1].Header? && es[|es| - 1].model.Some? then es[|es| - 1].model
    else ModelAfter(es[..|es| - 1])
  }

  /** The reports and retries of a log, each report with the group of its own time and model. */
  function Actions(day: real -> string, es: seq<Event>): seq<Action> {
    if es == [] then []
    else
      var before, e := es[..|es| - 1], es[|es| - 1];
      Actions(day, before) + match e
        case Usage(key, buckets, time) => [Reported(key, buckets, GroupOf(day, time, ModelAfter(before)))]
        case Retry(Some(key)) => [Retried(key)]
        case _ => []
  }

  /** `log[j]` is the next report of the run that holds `log[i]`. */
  ghost predicate Continues(log: seq<Action>, i: int, j: int) {
    && 0 <= i < j < |log|
    && log[i].Reported? && log[j].Reported? && log[i].key == log[j].key
    && forall k | i < k < j :: log[k].Retried? && log[k].key != log[i].key
  }

  ghost predicate LastOfRun(log: seq<Action>, i: int) {
    0 <= i < |log| && log[i].Reported? && !exists j :: Continues(log, i, j)
  }

  /** The group of the earliest report of the run whose buckets have not changed up to `j`. */
  ghost function Home(log: seq<Action>, j: nat): Option<Group>
    requires j < |log| && log[j].Reported?
  {
    if i: nat :| Continues(log, i, j) && log[i].buckets == log[j].buckets then Home(log, i) else log[j].group
  }

  /** Which runs a sum is over: all, those without a valid time, or those of one group. */
  datatype Scope = All | Untimed | In(group: Group)

  predicate Covers(scope: Scope, home: Option<Group>) {
    match scope
    case All => true
    case Untimed => home.None?
    case In(g) => home == Some(g)
  }

  /** Whether `log[i]` is what its run counts with in this scope. */
  ghost predicate Counts(log: seq<Action>, scope: Scope, i: nat)
    requires i < |log|
  {
    LastOfRun(log, i) && Covers(scope, Home(log, i))
  }

  function Added(sum: Buckets, change: Buckets, counts: bool): Buckets {
    if counts then Plus(sum, change) else sum
  }

  function Taken(sum: Buckets, change: Buckets, counts: bool): Buckets {
    if counts then Minus(sum, change) else sum
  }

  /** The buckets of the runs of a scope whose last report lies before `n`. */
  ghost function Sum(log: seq<Action>, scope: Scope, n: nat): Buckets
    requires n <= |log|
  {
    if n == 0 then ZERO else if Counts(log, scope, n - 1) then Plus(Sum(log, scope, n - 1), log[n - 1].buckets) else Sum(log, scope, n - 1)
  }

  ghost function RunTotal(log: seq<Action>, scope: Scope): Buckets {
    Sum(log, scope, |log|)
  }

  // Appending one action.

  lemma ContinuesPrefix(log: seq<Action>, a: Action, i: int, j: int)
    requires j < |log|
    ensures Continues(log + [a], i, j) <==> Continues(log, i, j)
  {
    var bs := log + [a];
    if 0 <= i < j {
      assert forall k | i <= k <= j :: bs[k] == log[k];
    }
  }

  lemma ContinuesUnique(log: seq<Action>, i: int, i': int, j: int)
    requires Continues(log, i, j) && Continues(log, i', j)
    ensures i == i'
  {
  }

  lemma {:induction false} HomePrefix(log: seq<Action>, a: Action, j: nat)
    requires j < |log| && log[j].Reported?
    ensures Home(log + [a], j) == Home(log, j)
  {
    var bs := log + [a];
    forall i: nat ensures Continues(bs, i, j) <==> Continues(log, i, j) {
      ContinuesPrefix(log, a, i, j);
    }
    if i: nat :| Continues(log, i, j) && log[i].buckets == log[j].buckets {
      HomePrefix(log, a, i);
      HomeStep(log, i, j);
      HomeStep(bs, i, j);
    } else {
      assert forall i: nat :: Continues(bs, i, j) ==> bs[i].buckets != bs[j].buckets;
    }
  }

  lemma HomeStep(log: seq<Action>, i: nat, j: nat)
    requires Continues(log, i, j) && log[i].buckets == log[j].buckets
    ensures Home(log, j) == Home(log, i)
  {
    forall i': nat | Continues(log, i', j) ensures i' == i {
      ContinuesUnique(log, i, i', j);
    }
  }

  /** Only the report that the new action continues stops being the last of its run. */
  lemma CountsPrefix(log: seq<Action>, a: Action, scope: Scope, i: nat)
    requires i < |log|
    ensures Counts(log + [a], scope, i) <==> Counts(log, scope, i) && !Continues(log + [a], i, |log|)
  {
    var bs := log + [a];
    assert bs[i] == log[i];
    if log[i].Reported? {
      HomePrefix(log, a, i);
      if j :| Continues(log, i, j) {
        ContinuesPrefix(log, a, i, j);
        assert Continues(bs, i, j);
      } else {
        forall j | j != |log| ensures !Continues(bs, i, j) {
          if j < |log| { ContinuesPrefix(log, a, i, j); }
        }
      }
    }
  }

  lemma {:induction false} SumPrefix(log: seq<Action>, a: Action, scope: Scope, n: nat)
    requires n <= |log|
    requires forall i | 0 <= i < n :: !Continues(log + [a], i, |log|)
    ensures Sum(log + [a], scope, n) == Sum(log, scope, n)
  {
    if n > 0 {
      SumPrefix(log, a, scope, n - 1);
      CountsPrefix(log, a, scope, n - 1);
    }
  }

  lemma TakenAdded(sum: Buckets, change: Buckets, counts: bool)
    ensures Taken(Added(sum, change, counts), change, counts) == sum
    ensures Added(Taken(sum, change, counts), change, counts) == sum
  {
  }

  lemma {:induction false} SumContinued(log: seq<Action>, a: Action, scope: Scope, n: nat, p: nat)
    requires p < n <= |log| && Continues(log + [a], p, |log|)
    ensures log[p].Reported?
    ensures Sum(log + [a], scope, n) == Taken(Sum(log, scope, n), log[p].buckets, Counts(log, scope, p))
  {
    assert (log + [a])[p] == log[p] && (log + [a])[n - 1] == log[n - 1];
    CountsPrefix(log, a, scope, n - 1);
    if n - 1 == p {
      forall i | 0 <= i < p ensures !Continues(log + [a], i, |log|) {
        if Continues(log + [a], i, |log|) { ContinuesUnique(log + [a], i, p, |log|); }
      }
      SumPrefix(log, a, scope, p);
      TakenAdded(Sum(log, scope, p), log[p].buckets, Counts(log, scope, p));
    } else {
      if Continues(log + [a], n - 1, |log|) { ContinuesUnique(log + [a], n - 1, p, |log|); }
      SumContinued(log, a, scope, n - 1, p);
    }
  }

  /** The last action of a list is continued by nothing. */
  lemma NewestCounts(log: seq<Action>, a: Action, scope: Scope)
    ensures a.Reported? ==>
              && LastOfRun(log + [a], |log|)
              && RunTotal(log + [a], scope) ==
                   Added(Sum(log + [a], scope, |log|), a.buckets, Covers(scope, Home(log + [a], |log|)))
    ensures a.Retried? ==> RunTotal(log + [a], scope) == Sum(log + [a], scope, |log|)
  {
    assert forall j :: !Continues(log + [a], |log|, j);
    assert (log + [a])[|log|] == a;
  }

  // The replacement slot is the last report of the run that may still be continued.

  /** A report of step `key` appended to `log` would continue `log[p]`. */
  ghost predicate Open(log: seq<Action>, p: nat) {
    p < |log| && log[p].Reported? && forall k | p < k < |log| :: log[k].Retried? && log[k].key != log[p].key
  }

  ghost predicate SlotIsOpenRun(log: seq<Action>, last: Option<Report>) {
    match last
    case None => forall p: nat :: !Open(log, p)
    case Some(r) => exists p: nat :: Open(log, p) && log[p].key == r.key && log[p].buckets == r.buckets && Home(log, p) == r.home
  }

  lemma OpenContinues(log: seq<Action>, a: Action, p: nat)
    requires a.Reported? && p < |log|
    ensures Continues(log + [a], p, |log|) <==> Open(log, p) && log[p].key == a.key
  {
    var bs := log + [a];
    assert bs[|log|] == a && bs[p] == log[p];
    assert forall k | p < k < |log| :: bs[k] == log[k];
  }

  lemma OpenUnique(log: seq<Action>, p: nat, q: nat)
    requires Open(log, p) && Open(log, q)
    ensures p == q
  {
  }

  lemma RetryKeepsOpen(log: seq<Action>, key: StepKey, p: nat)
    requires p < |log|
    ensures Open(log + [Retried(key)], p) <==> Open(log, p) && log[p].key != key
  {
    var bs := log + [Retried(key)];
    assert bs[|log|] == Retried(key);
    assert forall k | p <= k < |log| :: bs[k] == log[k];
  }

  ghost predicate Tallies(log: seq<Action>, f: Fold) {
    && f.totals == RunTotal(log, All)
    && (forall g :: At(f.daily, g) == RunTotal(log, In(g)))
    && SlotIsOpenRun(log, f.last)
  }

  lemma RetryTally(log: seq<Action>, f: Fold, key: StepKey)
    requires Tallies(log, f)
    ensures Tallies(log + [Retried(key)], Apply(_ => "", f, Retry(Some(key))))
  {
    var a := Retried(key);
    var bs := log + [a];
    forall scope ensures RunTotal(bs, scope) == RunTotal(log, scope) {
      NewestCounts(log, a, scope);
      SumPrefix(log, a, scope, |log|);
    }
    forall p: nat | p < |log| ensures Open(bs, p) <==> Open(log, p) && log[p].key != key {
      RetryKeepsOpen(log, key, p);
    }
    if f.last.Some? {
      var p: nat :| Open(log, p) && log[p].key == f.last.value.key && log[p].buckets == f.last.value.buckets && Home(log, p) == f.last.value.home;
      if key == f.last.value.key {
        forall q: nat | Open(bs, q) ensures false {
          assert q < |log|;
          OpenUnique(log, p, q);
        }
      } else {
        HomePrefix(log, a, p);
        assert Open(bs, p) && bs[p] == log[p];
      }
    }
  }

  /** A report that continues nothing starts a run of its own. */
  lemma FreshReportTally(log: seq<Action>, f: Fold, a: Action, scope: Scope)
    requires Tallies(log, f) && a.Reported?
    requires f.last.None? || f.last.value.key != a.key
    ensures RunTotal(log + [a], scope) == Added(RunTotal(log, scope), a.buckets, Covers(scope, a.group))
    ensures Home(log + [a], |log|) == a.group
  {
    var bs := log + [a];
    forall p: nat | p < |log| ensures !Continues(bs, p, |log|) {
      OpenContinues(log, a, p);
      if f.last.Some? && Open(log, p) {
        var q: nat :| Open(log, q) && log[q].key == f.last.value.key;
        OpenUnique(log, p, q);
      }
    }
    NewestCounts(log, a, scope);
    SumPrefix(log, a, scope, |log|);
  }

  /** A report of the open run replaces the slot's report in every sum. */
  lemma ContinuingReportTally(log: seq<Action>, f: Fold, a: Action, scope: Scope)
    requires Tallies(log, f) && a.Reported?
    requires f.last.Some? && f.last.value.key == a.key
    ensures var r := f.last.value;
            var home := if r.buckets == a.buckets then r.home else a.group;
            && Home(log + [a], |log|) == home
            && RunTotal(log + [a], scope) ==
                 Added(Taken(RunTotal(log, scope), r.buckets, Covers(scope, r.home)), a.buckets, Covers(scope, home))
  {
    var r, bs := f.last.value, log + [a];
    var p: nat :| Open(log, p) && log[p].key == r.key && log[p].buckets == r.buckets && Home(log, p) == r.home;
    OpenContinues(log, a, p);
    assert bs[p] == log[p] && bs[|log|] == a;
    HomePrefix(log, a, p);
    if r.buckets == a.buckets {
      HomeStep(bs, p, |log|);
    } else {
      forall i: nat | Continues(bs, i, |log|) ensures i == p {
        ContinuesUnique(bs, i, p, |log|);
      }
    }
    assert LastOfRun(log, p);
    NewestCounts(log, a, scope);
    SumContinued(log, a, scope, |log|, p);
  }

  /** What one report turns the sum of a scope into, given the slot it finds. */
  function Retallied(f: Fold, a: Action, scope: Scope, sum: Buckets): Buckets
    requires a.Reported?
  {
    if f.last.Some? && f.last.value.key == a.key then
      var r := f.last.value;
      var home := if r.buckets == a.buckets then r.home else a.group;
      Added(Taken(sum, r.buckets, Covers(scope, r.home)), a.buckets, Covers(scope, home))
    else Added(sum, a.buckets, Covers(scope, a.group))
  }

  lemma ReportTally(log: seq<Action>, f: Fold, a: Action, scope: Scope)
    requires Tallies(log, f) && a.Reported?
    ensures RunTotal(log + [a], scope) == Retallied(f, a, scope, RunTotal(log, scope))
  {
    if f.last.Some? && f.last.value.key == a.key {
      ContinuingReportTally(log, f, a, scope);
    } else {
      FreshReportTally(log, f, a, scope);
    }
  }

  lemma AtSame(m: Daily, g: Group, change: Buckets, add: bool)
    ensures At(AddDaily(m, g, change, add), g) == if add then Plus(At(m, g), change) else Minus(At(m, g), change)
  {
  }

  lemma AtOther(m: Daily, at: Group, change: Buckets, add: bool, g: Group)
    requires g != at
    ensures At(AddDaily(m, at, change, add), g) == At(m, g)
  {
  }

  function Moved(m: Daily, home: Option<Group>, change: Buckets, add: bool): Daily {
    if home.Some? then AddDaily(m, home.value, change, add) else m
  }

  /** One addition or subtraction, seen from a single group. */
  lemma AtMoved(m: Daily, home: Option<Group>, change: Buckets, add: bool, g: Group)
    ensures At(Moved(m, home, change, add), g) ==
              if add then Added(At(m, g), change, Covers(In(g), home)) else Taken(At(m, g), change, Covers(In(g), home))
  {
    if home.Some? {
      if home.value == g { AtSame(m, g, change, add); } else { AtOther(m, home.value, change, add, g); }
    }
  }

  /** The in-place subtraction and addition are exactly that change, in the totals and in every group. */
  lemma TotalsChange(f: Fold, a: Action)
    requires a.Reported?
    ensures ApplyUsage(f, a.key, a.buckets, a.group).totals == Retallied(f, a, All, f.totals)
  {
  }

  lemma DailyReplaced(f: Fold, a: Action, slot: Report, g: Group)
    requires a.Reported? && f.last == Some(slot) && slot.key == a.key && slot.buckets != a.buckets
    ensures At(ApplyUsage(f, a.key, a.buckets, a.group).daily, g) == Retallied(f, a, In(g), At(f.daily, g))
  {
    AtMoved(f.daily, slot.home, slot.buckets, false, g);
    AtMoved(Moved(f.daily, slot.home, slot.buckets, false), a.group, a.buckets, true, g);
  }

  lemma DailyEchoed(f: Fold, a: Action, slot: Report, g: Group)
    requires a.Reported? && f.last == Some(slot) && slot.key == a.key && slot.buckets == a.buckets
    ensures At(ApplyUsage(f, a.key, a.buckets, a.group).daily, g) == Retallied(f, a, In(g), At(f.daily, g))
  {
    TakenAdded(At(f.daily, g), a.buckets, Covers(In(g), slot.home));
  }

  lemma DailyChange(f: Fold, a: Action, g: Group)
    requires a.Reported?
    ensures At(ApplyUsage(f, a.key, a.buckets, a.group).daily, g) == Retallied(f, a, In(g), At(f.daily, g))
  {
    if f.last.Some? && f.last.value.key == a.key {
      if f.last.value.buckets == a.buckets {
        DailyEchoed(f, a, f.last.value, g);
      } else {
        DailyReplaced(f, a, f.last.value, g);
      }
    } else {
      AtMoved(f.daily, a.group, a.buckets, true, g);
    }
  }

  lemma SlotAfterReport(log: seq<Action>, f: Fold, a: Action)
    requires Tallies(log, f) && a.Reported?
    ensures SlotIsOpenRun(log + [a], ApplyUsage(f, a.key, a.buckets, a.group).last)
  {
    var bs := log + [a];
    assert Open(bs, |log|) && bs[|log|] == a;
    if f.last.Some? && f.last.value.key == a.key {
      ContinuingReportTally(log, f, a, All);
    } else {
      FreshReportTally(log, f, a, All);
    }
  }

  lemma UsageTally(log: seq<Action>, f: Fold, a: Action)
    requires Tallies(log, f) && a.Reported?
    ensures Tallies(log + [a], ApplyUsage(f, a.key, a.buckets, a.group))
  {
    var r := ApplyUsage(f, a.key, a.buckets, a.group);
    assert r.totals == RunTotal(log + [a], All) by {
      TotalsChange(f, a);
      ReportTally(log, f, a, All);
    }
    forall g ensures At(r.daily, g) == RunTotal(log + [a], In(g)) {
      DailyChange(f, a, g);
      ReportTally(log, f, a, In(g));
    }
    SlotAfterReport(log, f, a);
  }

  lemma {:induction false} FoldModel(day: real -> string, es: seq<Event>)
    ensures FoldEvents(day, EMPTY, es).currentModel == ModelAfter(es)
  {
    if es != [] {
      FoldModel(day, es[..|es| - 1]);
    }
  }

  /** The fold of every log is the sum over its runs: totals, every group of the map, and the slot. */
  lemma {:induction false} FoldSumsRuns(day: real -> string, es: seq<Event>)
    ensures Tallies(Actions(day, es), FoldEvents(day, EMPTY, es))
  {
    if es != [] {
      var before, e := es[..|es| - 1], es[|es| - 1];
      var log, f := Actions(day, before), FoldEvents(day, EMPTY, before);
      FoldSumsRuns(day, before);
      FoldModel(day, before);
      match e {
        case Usage(key, buckets, time) =>
          UsageTally(log, f, Reported(key, buckets, GroupOf(day, time, f.currentModel)));
        case Retry(Some(key)) => RetryTally(log, f, key);
        case _ => assert Actions(day, es) == log;
      }
    }
  }

  // The identity half of the fold: counts, first values and last values.

  function Count(es: seq<Event>, p: Event -> bool): nat {
    if es == [] then 0 else (if p(es[0]) then 1 else 0) + Count(es[1..], p)
  }

  function First<T>(es: seq<Event>, pick: Event -> Option<T>): Option<T> {
    if es == [] then None else if pick(es[0]).Some? then pick(es[0]) else First(es[1..], pick)
  }

  function Last<T>(es: seq<Event>, pick: Event -> Option<T>): Option<T> {
    if es == [] then None else if Last(es[1..], pick).Some? then Last(es[1..], pick) else pick(es[0])
  }

  lemma {:induction false} CountSnoc(es: seq<Event>, e: Event, p: Event -> bool)
    ensures Count(es + [e], p) == Count(es, p) + if p(e) then 1 else 0
  {
    if es != [] {
      CountSnoc(es[1..], e, p);
      assert (es + [e])[1..] == es[1..] + [e];
    }
  }

  lemma {:induction false} PickSnoc<T>(es: seq<Event>, e: Event, pick: Event -> Option<T>)
    ensures First(es + [e], pick) == Or(First(es, pick), pick(e))
    ensures Last(es + [e], pick) == Or(pick(e), Last(es, pick))
  {
    if es == [] {
      assert es + [e] == [e];
    } else {
      PickSnoc(es[1..], e, pick);
      assert (es + [e])[1..] == es[1..] + [e];
    }
  }

  function IdOf(e: Event): Option<string> { if e.Session? then e.id else None }
  function CreatedOf(e: Event): Option<real> { if e.Session? then e.createdAt else None }
  function ModelOf(e: Event): Option<string> { if e.Header? then e.model else None }
  function ProviderOf(e: Event): Option<string> { if e.Header? then e.provider else None }
  function PromptOf(e: Event): Option<string> { if e.Prompt? then e.excerpt else None }

  function OrElse<T>(a: Option<T>, default: T): T { if a.Some? then a.value else default }

  ghost predicate Counted(f: Fold, es: seq<Event>) {
    f.turns == Count(es, (e: Event) => e.TurnStart?) && f.steps == Count(es, (e: Event) => e.StepStart?)
  }

  ghost predicate Named(f: Fold, es: seq<Event>) {
    f.sessionId == OrElse(Last(es, IdOf), "") && f.createdAt == OrElse(Last(es, CreatedOf), 0.0)
  }

  ghost predicate Described(f: Fold, es: seq<Event>) {
    && f.model == First(es, ModelOf) && f.currentModel == Last(es, ModelOf)
    && f.provider == Last(es, ProviderOf) && f.firstPrompt == First(es, PromptOf)
  }

  lemma CountedSnoc(day: real -> string, f: Fold, es: seq<Event>, e: Event)
    requires Counted(f, es)
    ensures Counted(Apply(day, f, e), es + [e])
  {
    CountSnoc(es, e, (e: Event) => e.TurnStart?);
    CountSnoc(es, e, (e: Event) => e.StepStart?);
  }

  lemma NamedSnoc(day: real -> string, f: Fold, es: seq<Event>, e: Event)
    requires Named(f, es)
    ensures Named(Apply(day, f, e), es + [e])
  {
    PickSnoc(es, e, IdOf);
    PickSnoc(es, e, CreatedOf);
  }

  lemma DescribedSnoc(day: real -> string, f: Fold, es: seq<Event>, e: Event)
    requires Described(f, es)
    ensures Described(Apply(day, f, e), es + [e])
  {
    PickSnoc(es, e, ModelOf);
    PickSnoc(es, e, ProviderOf);
    PickSnoc(es, e, PromptOf);
  }

  /** The session is named by its last header, its first model and its first prompt that has text. */
  lemma {:induction false} FoldIdentifies(day: real -> string, es: seq<Event>)
    ensures var f := FoldEvents(day, EMPTY, es);
            Counted(f, es) && Named(f, es) && Described(f, es)
  {
    if es != [] {
      var before, e := es[..|es| - 1], es[|es| - 1];
      var f := FoldEvents(day, EMPTY, before);
      assert es == before + [e];
      FoldIdentifies(day, before);
      CountedSnoc(day, f, before, e);
      NamedSnoc(day, f, before, e);
      DescribedSnoc(day, f, before, e);
    }
  }

  // Which day and model a report goes to.

  lemma {:induction false} ActionsPrefix(day: real -> string, es: seq<Event>, i: nat)
    requires i <= |es|
    ensures Actions(day, es[..i]) <= Actions(day, es)
    decreases |es|
  {
    if i == |es| {
      assert es[..i] == es;
    } else {
      ActionsPrefix(day, es[..|es| - 1], i);
      assert es[..|es| - 1][..i] == es[..i];
    }
  }

  /** The model a report is filed under: the last one named before it. */
  function ModelNamed(before: seq<Event>): string {
    var m := Last(before, ModelOf);
    if m.Some? then m.value else "unknown"
  }

  /**
   The report at `i` has a group exactly when its time is there and not negative; the group is then the day
   of that time and the model of the last header before it that names one, or "unknown".
   */
  lemma ReportGoesTo(day: real -> string, es: seq<Event>, i: nat)
    requires i < |es| && es[i].Usage?
    ensures var p, time := |Actions(day, es[..i])|, es[i].time;
            && p < |Actions(day, es)|
            && Actions(day, es)[p] ==
                 Reported(es[i].report, es[i].buckets,
                          if time.Some? && time.value >= 0.0 then Some(Group(day(time.value), ModelNamed(es[..i]))) else None)
  {
    var before := es[..i + 1];
    assert before[..i] == es[..i];
    FoldModel(day, es[..i]);
    FoldIdentifies(day, es[..i]);
    ActionsPrefix(day, es, i + 1);
    assert Actions(day, before)[|Actions(day, es[..i])|] == Actions(day, es)[|Actions(day, es[..i])|];
  }

  /** A retry at `i` is the retry of the step it names. */
  lemma RetryGoesTo(day: real -> string, es: seq<Event>, i: nat, key: StepKey)
    requires i < |es| && es[i] == Retry(Some(key))
    ensures var p := |Actions(day, es[..i])|;
            p < |Actions(day, es)| && Actions(day, es)[p] == Retried(key)
  {
    var before := es[..i + 1];
    assert before[..i] == es[..i];
    ActionsPrefix(day, es, i + 1);
    assert Actions(day, before)[|Actions(day, es[..i])|] == Actions(day, es)[|Actions(day, es[..i])|];
  }

  lemma FreshApplied(f: Fold, key: StepKey, buckets: Buckets, at: Group, g: Group)
    requires f.last.None? || f.last.value.key != key
    ensures var r := ApplyUsage(f, key, buckets, Some(at));
            r.totals == Plus(f.totals, buckets) && At(r.daily, g) == if g == at then Plus(At(f.daily, g), buckets) else At(f.daily, g)
  {
    if g == at { AtSame(f.daily, g, buckets, true); } else { AtOther(f.daily, at, buckets, true, g); }
  }

  lemma GroupNamed(day: real -> string, es: seq<Event>, t: real)
    requires t >= 0.0
    ensures GroupOf(day, Some(t), FoldEvents(day, EMPTY, es).currentModel) == Some(Group(day(t), ModelNamed(es)))
  {
    FoldIdentifies(day, es);
  }

  /** A report of a step whose run is not open is added to the totals and to its own day and model, and to nothing else. */
  lemma FreshReportIsFiled(day: real -> string, es: seq<Event>, key: StepKey, buckets: Buckets, t: real, g: Group)
    requires var f := FoldEvents(day, EMPTY, es); f.last.None? || f.last.value.key != key
    requires t >= 0.0
    ensures var f, f' := FoldEvents(day, EMPTY, es), FoldEvents(day, EMPTY, es + [Usage(key, buckets, Some(t))]);
            && f'.totals == Plus(f.totals, buckets)
            && At(f'.daily, g) == if g == Group(day(t), ModelNamed(es)) then Plus(At(f.daily, g), buckets) else At(f.daily, g)
  {
    assert (es + [Usage(key, buckets, Some(t))])[..|es|] == es;
    GroupNamed(day, es, t);
    FreshApplied(FoldEvents(day, EMPTY, es), key, buckets, Group(day(t), ModelNamed(es)), g);
  }
}
