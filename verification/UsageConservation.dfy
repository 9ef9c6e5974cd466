/**
 Nothing is lost between the totals and the calendar: per bucket, the totals of a session are the
 sum of its daily map plus the runs without a valid time, and merging sessions keeps that balance.
 */
module UsageConservation {
  import opened Common
  import opened SessionEvents
  import opened UsageFold
  import opened UsageRuns

  /** One of the four buckets, so that balances are equations between integers. */
  datatype Lane = UncachedInput | Output | CacheRead | CacheWrite

  function Get(b: Buckets, lane: Lane): int {
    match lane
    case UncachedInput => b.uncachedInput
    case Output => b.output
    case CacheRead => b.cacheRead
    case CacheWrite => b.cacheWrite
  }

  lemma GetPlus(a: Buckets, b: Buckets, lane: Lane)
    ensures Get(Plus(a, b), lane) == Get(a, lane) + Get(b, lane)
    ensures Get(Minus(a, b), lane) == Get(a, lane) - Get(b, lane)
    ensures Get(ZERO, lane) == 0
  {
  }

  lemma GetTaken(sum: Buckets, change: Buckets, counts: bool, lane: Lane)
    ensures Get(Taken(sum, change, counts), lane) == Get(sum, lane) - if counts then Get(change, lane) else 0
    ensures Get(Added(sum, change, counts), lane) == Get(sum, lane) + if counts then Get(change, lane) else 0
  {
  }

  /** The sum of one bucket over all entries of a daily map. */
  ghost function MapSum(m: Daily, lane: Lane): int {
    if m == map[] then 0
    else
      var g :| g in m;
      Get(m[g], lane) + MapSum(m - {g}, lane)
  }

  lemma {:induction false} MapSumSplit(m: Daily, g: Group, lane: Lane)
    requires g in m
    ensures MapSum(m, lane) == Get(m[g], lane) + MapSum(m - {g}, lane)
  {
    var h :| h in m && MapSum(m, lane) == Get(m[h], lane) + MapSum(m - {h}, lane);
    if h != g {
      MapSumSplit(m - {h}, g, lane);
      MapSumSplit(m - {g}, h, lane);
      assert m - {h} - {g} == m - {g} - {h};
    }
  }

  lemma MapSumWithout(m: Daily, g: Group, lane: Lane)
    ensures MapSum(m, lane) == Get(At(m, g), lane) + MapSum(m - {g}, lane)
  {
    if g in m {
      MapSumSplit(m, g, lane);
    } else {
      assert m - {g} == m;
    }
  }

  /** Adding to or subtracting from one group moves the sum by the same amount, also when the group leaves the map. */
  lemma MapSumAdd(m: Daily, g: Group, change: Buckets, add: bool, lane: Lane)
    ensures MapSum(AddDaily(m, g, change, add), lane) ==
              if add then MapSum(m, lane) + Get(change, lane) else MapSum(m, lane) - Get(change, lane)
  {
    var r := AddDaily(m, g, change, add);
    MapSumWithout(m, g, lane);
    MapSumWithout(r, g, lane);
    assert r - {g} == m - {g};
    assert At(r, g) == if add then Plus(At(m, g), change) else Minus(At(m, g), change);
    GetPlus(At(m, g), change, lane);
  }

  /** `u` is what the runs without a valid time contribute. */
  ghost predicate Balanced(f: Fold, u: Buckets, lane: Lane) {
    Get(f.totals, lane) == MapSum(f.daily, lane) + Get(u, lane)
  }

  lemma MoveSum(m: Daily, home: Option<Group>, change: Buckets, add: bool, lane: Lane)
    ensures var share := if home.None? then 0 else Get(change, lane);
            MapSum(Moved(m, home, change, add), lane) == if add then MapSum(m, lane) + share else MapSum(m, lane) - share
  {
    if home.Some? {
      MapSumAdd(m, home.value, change, add, lane);
    }
  }

  lemma ReplacedBalance(f: Fold, a: Action, slot: Report, u: Buckets, lane: Lane)
    requires Balanced(f, u, lane) && a.Reported? && f.last == Some(slot) && slot.key == a.key && slot.buckets != a.buckets
    ensures Balanced(ApplyUsage(f, a.key, a.buckets, a.group), Retallied(f, a, Untimed, u), lane)
  {
    var r := ApplyUsage(f, a.key, a.buckets, a.group);
    var cleared := Moved(f.daily, slot.home, slot.buckets, false);
    MoveSum(f.daily, slot.home, slot.buckets, false, lane);
    MoveSum(cleared, a.group, a.buckets, true, lane);
    assert r.daily == Moved(cleared, a.group, a.buckets, true);
    assert r.totals == Plus(Minus(f.totals, slot.buckets), a.buckets);
    GetPlus(f.totals, slot.buckets, lane);
    GetPlus(Minus(f.totals, slot.buckets), a.buckets, lane);
    GetTaken(u, slot.buckets, slot.home.None?, lane);
    GetTaken(Taken(u, slot.buckets, slot.home.None?), a.buckets, a.group.None?, lane);
  }

  lemma FreshBalance(f: Fold, a: Action, u: Buckets, lane: Lane)
    requires Balanced(f, u, lane) && a.Reported? && (f.last.None? || f.last.value.key != a.key)
    ensures Balanced(ApplyUsage(f, a.key, a.buckets, a.group), Retallied(f, a, Untimed, u), lane)
  {
    MoveSum(f.daily, a.group, a.buckets, true, lane);
    assert ApplyUsage(f, a.key, a.buckets, a.group).daily == Moved(f.daily, a.group, a.buckets, true);
    GetPlus(f.totals, a.buckets, lane);
    GetTaken(u, a.buckets, a.group.None?, lane);
  }

  lemma EchoedBalance(f: Fold, a: Action, slot: Report, u: Buckets, lane: Lane)
    requires Balanced(f, u, lane) && a.Reported? && f.last == Some(slot) && slot.key == a.key && slot.buckets == a.buckets
    ensures Balanced(ApplyUsage(f, a.key, a.buckets, a.group), Retallied(f, a, Untimed, u), lane)
  {
  }

  lemma ReportKeepsBalance(f: Fold, a: Action, u: Buckets, lane: Lane)
    requires Balanced(f, u, lane) && a.Reported?
    ensures Balanced(ApplyUsage(f, a.key, a.buckets, a.group), Retallied(f, a, Untimed, u), lane)
  {
    if f.last.Some? && f.last.value.key == a.key {
      if f.last.value.buckets == a.buckets {
        EchoedBalance(f, a, f.last.value, u, lane);
      } else {
        ReplacedBalance(f, a, f.last.value, u, lane);
      }
    } else {
      FreshBalance(f, a, u, lane);
    }
  }

  lemma RetryKeepsBalance(log: seq<Action>, f: Fold, key: StepKey, lane: Lane)
    requires Balanced(f, RunTotal(log, Untimed), lane)
    ensures RunTotal(log + [Retried(key)], Untimed) == RunTotal(log, Untimed)
  {
    NewestCounts(log, Retried(key), Untimed);
    SumPrefix(log, Retried(key), Untimed, |log|);
  }

  /** Totals are the daily map plus the runs without a valid time, in every bucket, after every log. */
  lemma {:induction false} FoldConserves(day: real -> string, es: seq<Event>, lane: Lane)
    ensures Balanced(FoldEvents(day, EMPTY, es), RunTotal(Actions(day, es), Untimed), lane)
  {
    if es != [] {
      var before, e := es[..|es| - 1], es[|es| - 1];
      var log, f := Actions(day, before), FoldEvents(day, EMPTY, before);
      FoldConserves(day, before, lane);
      match e {
        case Usage(key, buckets, time) =>
          FoldSumsRuns(day, before);
          FoldModel(day, before);
          var a := Reported(key, buckets, GroupOf(day, time, f.currentModel));
          ReportKeepsBalance(f, a, RunTotal(log, Untimed), lane);
          ReportTally(log, f, a, Untimed);
        case Retry(Some(key)) => RetryKeepsBalance(log, f, key, lane);
        case _ => assert Actions(day, es) == log;
      }
    }
  }

  predicate Countable(es: seq<Event>) {
    forall i | 0 <= i < |es| && es[i].Usage? :: NonNegative(es[i].buckets)
  }

  lemma {:induction false} EntriesCountable(h: Host, lines: seq<string>)
    ensures Countable(Entries(ReadLines(h, lines)))
  {
    if lines != [] {
      EntriesCountable(h, lines[..|lines| - 1]);
      assert ReadLines(h, lines)[..|lines| - 1] == ReadLines(h, lines[..|lines| - 1]);
    }
  }

  lemma {:induction false} ActionsCountable(day: real -> string, es: seq<Event>)
    requires Countable(es)
    ensures forall i | 0 <= i < |Actions(day, es)| && Actions(day, es)[i].Reported? :: NonNegative(Actions(day, es)[i].buckets)
  {
    if es != [] {
      ActionsCountable(day, es[..|es| - 1]);
    }
  }

  lemma {:induction false} SumNonNegative(log: seq<Action>, scope: Scope, n: nat)
    requires n <= |log|
    requires forall i | 0 <= i < |log| && log[i].Reported? :: NonNegative(log[i].buckets)
    ensures NonNegative(Sum(log, scope, n))
  {
    if n > 0 {
      SumNonNegative(log, scope, n - 1);
    }
  }

  /** No total and no daily entry of any log is ever negative. */
  lemma FoldNonNegative(h: Host, text: string)
    requires !Poisoned(h, text)
    ensures var f := FoldText(h, EMPTY, text).value;
            NonNegative(f.totals) && forall g | g in f.daily :: NonNegative(f.daily[g]) && f.daily[g] != ZERO
  {
    var es := EventsOf(h, text);
    var log, f := Actions(h.localDay, es), FoldText(h, EMPTY, text).value;
    EntriesCountable(h, Split(text));
    ActionsCountable(h.localDay, es);
    FoldSumsRuns(h.localDay, es);
    FoldKeepsWellFormed(h.localDay, EMPTY, es);
    SumNonNegative(log, All, |log|);
    forall g | g in f.daily ensures NonNegative(f.daily[g]) {
      SumNonNegative(log, In(g), |log|);
      assert At(f.daily, g) == RunTotal(log, In(g));
    }
  }

  /** A report that counts is contained in the sum of its scope, in every bucket. */
  lemma {:induction false} SumCovers(log: seq<Action>, scope: Scope, n: nat, p: nat)
    requires p < n <= |log| && Counts(log, scope, p)
    requires forall i | 0 <= i < |log| && log[i].Reported? :: NonNegative(log[i].buckets)
    ensures NonNegative(Minus(Sum(log, scope, n), log[p].buckets))
  {
    if p == n - 1 {
      SumNonNegative(log, scope, p);
    } else {
      SumCovers(log, scope, n - 1, p);
    }
  }

  lemma OpenCounts(log: seq<Action>, scope: Scope, p: nat)
    requires Open(log, p) && Covers(scope, Home(log, p))
    ensures Counts(log, scope, p)
  {
  }

  /** The slot is covered: what a later report subtracts is in the totals and in its group's entry, so nothing goes below zero in between. */
  lemma SlotCovered(h: Host, text: string)
    requires !Poisoned(h, text)
    ensures var f := FoldText(h, EMPTY, text).value;
            f.last.Some? ==>
              && NonNegative(f.last.value.buckets) && NonNegative(Minus(f.totals, f.last.value.buckets))
              && (f.last.value.home.Some? ==> NonNegative(Minus(At(f.daily, f.last.value.home.value), f.last.value.buckets)))
  {
    var es := EventsOf(h, text);
    var log, f := Actions(h.localDay, es), FoldText(h, EMPTY, text).value;
    EntriesCountable(h, Split(text));
    ActionsCountable(h.localDay, es);
    FoldSumsRuns(h.localDay, es);
    if f.last.Some? {
      var r := f.last.value;
      var p: nat :| Open(log, p) && log[p].key == r.key && log[p].buckets == r.buckets && Home(log, p) == r.home;
      OpenCounts(log, All, p);
      SumCovers(log, All, |log|, p);
      if r.home.Some? {
        OpenCounts(log, In(r.home.value), p);
        SumCovers(log, In(r.home.value), |log|, p);
        assert At(f.daily, r.home.value) == RunTotal(log, In(r.home.value));
      }
    }
  }

  // The report over all sessions.

  ghost function TotalsOf(sessions: seq<Checkpoint>): Buckets {
    if sessions == [] then ZERO
    else Plus(TotalsOf(sessions[..|sessions| - 1]), sessions[|sessions| - 1].folded.totals)
  }

  ghost function RowsOf(sessions: seq<Checkpoint>): seq<Row> {
    if sessions == [] then [] else RowsOf(sessions[..|sessions| - 1]) + sessions[|sessions| - 1].rows
  }

  lemma AddRowsSnoc(m: Daily, rows: seq<Row>, row: Row)
    ensures AddRows(m, rows + [row]) == AddDaily(AddRows(m, rows), row.group, row.buckets, true)
  {
    assert (rows + [row])[..|rows|] == rows;
  }

  lemma {:induction false} AddRowsConcat(m: Daily, a: seq<Row>, b: seq<Row>)
    ensures AddRows(m, a + b) == AddRows(AddRows(m, a), b)
  {
    if b == [] {
      assert a + b == a;
    } else {
      var init, row := b[..|b| - 1], b[|b| - 1];
      AddRowsConcat(m, a, init);
      AddRowsSnoc(m, a + init, row);
      AddRowsSnoc(AddRows(m, a), init, row);
      assert init + [row] == b && (a + init) + [row] == a + b;
    }
  }

  ghost function RowsAt(rows: seq<Row>, g: Group, lane: Lane): int {
    if rows == [] then 0
    else RowsAt(rows[..|rows| - 1], g, lane) + if rows[|rows| - 1].group == g then Get(rows[|rows| - 1].buckets, lane) else 0
  }

  lemma {:induction false} AddRowsAt(m: Daily, rows: seq<Row>, g: Group, lane: Lane)
    ensures Get(At(AddRows(m, rows), g), lane) == Get(At(m, g), lane) + RowsAt(rows, g, lane)
  {
    if rows != [] {
      var before, row := rows[..|rows| - 1], rows[|rows| - 1];
      AddRowsAt(m, before, g, lane);
      if row.group == g {
        AtSame(AddRows(m, before), g, row.buckets, true);
        GetPlus(At(AddRows(m, before), g), row.buckets, lane);
        assert RowsAt(rows, g, lane) == RowsAt(before, g, lane) + Get(row.buckets, lane);
      } else {
        AtOther(AddRows(m, before), row.group, row.buckets, true, g);
        assert RowsAt(rows, g, lane) == RowsAt(before, g, lane);
      }
      assert AddRows(m, rows) == AddDaily(AddRows(m, before), row.group, row.buckets, true);
    }
  }

  ghost function RowsSum(rows: seq<Row>, lane: Lane): int {
    if rows == [] then 0 else RowsSum(rows[..|rows| - 1], lane) + Get(rows[|rows| - 1].buckets, lane)
  }

  lemma {:induction false} AddRowsSum(m: Daily, rows: seq<Row>, lane: Lane)
    ensures MapSum(AddRows(m, rows), lane) == MapSum(m, lane) + RowsSum(rows, lane)
  {
    if rows != [] {
      AddRowsSum(m, rows[..|rows| - 1], lane);
      MapSumAdd(AddRows(m, rows[..|rows| - 1]), rows[|rows| - 1].group, rows[|rows| - 1].buckets, true, lane);
    }
  }

  lemma {:induction false} RowsConcat(a: seq<Row>, b: seq<Row>, g: Group, lane: Lane)
    ensures RowsAt(a + b, g, lane) == RowsAt(a, g, lane) + RowsAt(b, g, lane)
    ensures RowsSum(a + b, lane) == RowsSum(a, lane) + RowsSum(b, lane)
  {
    if b == [] {
      assert a + b == a;
    } else {
      RowsConcat(a, b[..|b| - 1], g, lane);
      assert (a + b)[..|a + b| - 1] == a + b[..|b| - 1];
    }
  }

  ghost function LaneSum(bs: seq<Buckets>, lane: Lane): int {
    if bs == [] then 0 else LaneSum(bs[..|bs| - 1], lane) + Get(bs[|bs| - 1], lane)
  }

  /** What the runs of one scope contribute, log by log. */
  ghost function RunsOf(h: Host, texts: seq<string>, scope: Scope): (bs: seq<Buckets>)
    ensures |bs| == |texts|
    ensures forall i | 0 <= i < |texts| :: bs[i] == RunTotal(Actions(h.localDay, EventsOf(h, texts[i])), scope)
  {
    seq(|texts|, i requires 0 <= i < |texts| => RunTotal(Actions(h.localDay, EventsOf(h, texts[i])), scope))
  }

  /** Each session was saved from the full fold of its log. */
  ghost predicate SavedFrom(h: Host, texts: seq<string>, sessions: seq<Checkpoint>) {
    && |sessions| == |texts|
    && forall i | 0 <= i < |texts| :: !Poisoned(h, texts[i]) && Saves(sessions[i], FoldText(h, EMPTY, texts[i]).value)
  }

  /** One session: its rows and totals are those of the runs of its log. */
  lemma SessionAdds(h: Host, text: string, c: Checkpoint, g: Group, lane: Lane)
    requires !Poisoned(h, text) && Saves(c, FoldText(h, EMPTY, text).value)
    ensures var log := Actions(h.localDay, EventsOf(h, text));
            && RowsAt(c.rows, g, lane) == Get(RunTotal(log, In(g)), lane)
            && c.folded.totals == RunTotal(log, All)
            && Get(c.folded.totals, lane) == RowsSum(c.rows, lane) + Get(RunTotal(log, Untimed), lane)
  {
    var es, f := EventsOf(h, text), FoldText(h, EMPTY, text).value;
    FoldSumsRuns(h.localDay, es);
    FoldConserves(h.localDay, es, lane);
    FoldKeepsWellFormed(h.localDay, EMPTY, es);
    RestoreSaved(c, f);
    assert AddRows(map[], c.rows) == f.daily;
    assert At(f.daily, g) == RunTotal(Actions(h.localDay, es), In(g));
    AddRowsAt(map[], c.rows, g, lane);
    AddRowsSum(map[], c.rows, lane);
  }

  lemma RunsStep(h: Host, texts: seq<string>, scope: Scope, lane: Lane)
    requires texts != []
    ensures var n := |texts| - 1;
            LaneSum(RunsOf(h, texts, scope), lane) ==
              LaneSum(RunsOf(h, texts[..n], scope), lane) + Get(RunTotal(Actions(h.localDay, EventsOf(h, texts[n])), scope), lane)
  {
    assert RunsOf(h, texts, scope)[..|texts| - 1] == RunsOf(h, texts[..|texts| - 1], scope);
  }

  lemma SavedFromPrefix(h: Host, texts: seq<string>, sessions: seq<Checkpoint>, n: nat)
    requires SavedFrom(h, texts, sessions) && n <= |texts|
    ensures SavedFrom(h, texts[..n], sessions[..n])
  {
  }

  lemma {:induction false} RowsAdd(h: Host, texts: seq<string>, sessions: seq<Checkpoint>, g: Group, lane: Lane)
    requires SavedFrom(h, texts, sessions)
    ensures RowsAt(RowsOf(sessions), g, lane) == LaneSum(RunsOf(h, texts, In(g)), lane)
  {
    if sessions != [] {
      var n := |sessions| - 1;
      SavedFromPrefix(h, texts, sessions, n);
      RowsAdd(h, texts[..n], sessions[..n], g, lane);
      SessionAdds(h, texts[n], sessions[n], g, lane);
      RunsStep(h, texts, In(g), lane);
      RowsConcat(RowsOf(sessions[..n]), sessions[n].rows, g, lane);
    }
  }

  lemma {:induction false} TotalsAdd(h: Host, texts: seq<string>, sessions: seq<Checkpoint>, g: Group, lane: Lane)
    requires SavedFrom(h, texts, sessions)
    ensures Get(TotalsOf(sessions), lane) == LaneSum(RunsOf(h, texts, All), lane)
    ensures Get(TotalsOf(sessions), lane) == RowsSum(RowsOf(sessions), lane) + LaneSum(RunsOf(h, texts, Untimed), lane)
  {
    if sessions != [] {
      var n := |sessions| - 1;
      SavedFromPrefix(h, texts, sessions, n);
      TotalsAdd(h, texts[..n], sessions[..n], g, lane);
      SessionAdds(h, texts[n], sessions[n], g, lane);
      RunsStep(h, texts, All, lane);
      RunsStep(h, texts, Untimed, lane);
      RowsConcat(RowsOf(sessions[..n]), sessions[n].rows, g, lane);
      GetPlus(TotalsOf(sessions[..n]), sessions[n].folded.totals, lane);
    }
  }

  /**
   Over any number of logs and sessions saved from them: every group of the merged map is what the runs of
   that group contribute, and the totals are the merged map plus the runs without a valid time.
   */
  lemma MergeConserves(h: Host, texts: seq<string>, sessions: seq<Checkpoint>, g: Group, lane: Lane)
    requires SavedFrom(h, texts, sessions)
    ensures var merged := AddRows(map[], RowsOf(sessions));
            && Get(At(merged, g), lane) == LaneSum(RunsOf(h, texts, In(g)), lane)
            && Get(TotalsOf(sessions), lane) == LaneSum(RunsOf(h, texts, All), lane)
            && Get(TotalsOf(sessions), lane) == MapSum(merged, lane) + LaneSum(RunsOf(h, texts, Untimed), lane)
  {
    RowsAdd(h, texts, sessions, g, lane);
    TotalsAdd(h, texts, sessions, g, lane);
    AddRowsAt(map[], RowsOf(sessions), g, lane);
    AddRowsSum(map[], RowsOf(sessions), lane);
  }
}
