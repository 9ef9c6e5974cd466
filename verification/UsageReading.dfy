/**
 The whole report: any number of logs, each read through its cache while it grows, then summed up.
 */
module UsageReading {
  import opened Common
  import opened SessionEvents
  import opened UsageFold
  import opened UsageRuns
  import opened UsageConservation
  import opened UsageReport
  import UsageCache

  /** One log with the run of its cache, and the read of it that the report uses. */
  datatype Reading = Reading(states: seq<UsageCache.State>, actions: seq<UsageCache.Action>, id: nat, updatedAt: real)

  ghost predicate Finished(env: UsageCache.Env, r: Reading) {
    && UsageCache.Run(env, r.states, r.actions)
    && var s := r.states[|r.states| - 1];
       r.id in s.readers && s.readers[r.id].Done?
  }

  ghost function Phase(env: UsageCache.Env, r: Reading): (p: UsageCache.Phase)
    requires Finished(env, r)
    ensures p.Done?
  {
    r.states[|r.states| - 1].readers[r.id]
  }

  ghost function Result(env: UsageCache.Env, r: Reading): Option<Listed>
    requires Finished(env, r)
  {
    var report := Phase(env, r).report;
    if report.Some? then Some(Listed(report.value, r.updatedAt)) else None
  }

  /** The text of the log at a moment between the stat and the file read of this reading. */
  ghost predicate Stood(env: UsageCache.Env, r: Reading, text: string)
    requires Finished(env, r)
  {
    var log, p := r.states[|r.states| - 1].log, Phase(env, r);
    exists k: nat :: p.from <= k <= p.to && k <= |log| && text == UsageCache.TextOf(log[..k])
  }

  /** One reading: the report is the fold of that text, or there is none because the fold throws. */
  lemma ReadingIsFold(env: UsageCache.Env, r: Reading) returns (text: string)
    requires Finished(env, r)
    ensures Stood(env, r, text)
    ensures Result(env, r).None? <==> Poisoned(env.host, text)
    ensures !Poisoned(env.host, text) ==> Saves(Result(env, r).value.saved, FoldText(env.host, EMPTY, text).value)
  {
    var n := |r.states| - 1;
    var log, p := r.states[n].log, Phase(env, r);
    UsageCache.EveryReadIsExact(env, r.states, r.actions, n, r.id);
    var k: nat :| p.from <= k <= p.to && UsageCache.IsFullFold(env, log, k, p.report);
    text := UsageCache.TextOf(log[..k]);
  }

  ghost predicate AllFinished(env: UsageCache.Env, rs: seq<Reading>) {
    forall i | 0 <= i < |rs| :: Finished(env, rs[i])
  }

  ghost function Results(env: UsageCache.Env, rs: seq<Reading>): (out: seq<Option<Listed>>)
    requires AllFinished(env, rs)
    ensures |out| == |rs| && forall i | 0 <= i < |rs| :: out[i] == Result(env, rs[i])
  {
    seq(|rs|, i requires 0 <= i < |rs| => Result(env, rs[i]))
  }

  /** The texts without a `null` line, which are those that fold. */
  ghost function Foldable(h: Host, texts: seq<string>): seq<string> {
    if texts == [] then []
    else
      var n := |texts| - 1;
      Foldable(h, texts[..n]) + if Poisoned(h, texts[n]) then [] else [texts[n]]
  }

  lemma SavedFromSnoc(h: Host, texts: seq<string>, sessions: seq<Checkpoint>, text: string, c: Checkpoint)
    requires SavedFrom(h, texts, sessions) && !Poisoned(h, text) && Saves(c, FoldText(h, EMPTY, text).value)
    ensures SavedFrom(h, texts + [text], sessions + [c])
  {
  }

  lemma SavedSnoc(s: seq<Listed>, x: Listed)
    ensures Saved(s + [x]) == Saved(s) + [x.saved]
  {
  }

  ghost predicate AllStood(env: UsageCache.Env, rs: seq<Reading>, texts: seq<string>)
    requires AllFinished(env, rs)
  {
    |texts| == |rs| && forall i | 0 <= i < |rs| :: Stood(env, rs[i], texts[i])
  }

  /** A reading more adds a session and its text, or neither. */
  lemma OneMore(h: Host, texts: seq<string>, results: seq<Option<Listed>>, text: string, x: Option<Listed>)
    requires SavedFrom(h, Foldable(h, texts), Saved(Readable(results)))
    requires x.None? <==> Poisoned(h, text)
    requires x.Some? ==> Saves(x.value.saved, FoldText(h, EMPTY, text).value)
    ensures SavedFrom(h, Foldable(h, texts + [text]), Saved(Readable(results + [x])))
  {
    assert (texts + [text])[..|texts|] == texts && (results + [x])[..|results|] == results;
    if x.Some? {
      SavedFromSnoc(h, Foldable(h, texts), Saved(Readable(results)), text, x.value.saved);
      SavedSnoc(Readable(results), x.value);
    } else {
      assert Readable(results) + [] == Readable(results);
      assert Foldable(h, texts) + [] == Foldable(h, texts);
    }
  }

  lemma ResultsSnoc(env: UsageCache.Env, rs: seq<Reading>)
    requires rs != [] && AllFinished(env, rs)
    ensures var n := |rs| - 1;
            AllFinished(env, rs[..n]) && Results(env, rs) == Results(env, rs[..n]) + [Result(env, rs[n])]
  {
  }

  lemma StoodSnoc(env: UsageCache.Env, rs: seq<Reading>, init: seq<string>, text: string)
    requires rs != [] && AllFinished(env, rs) && AllFinished(env, rs[..|rs| - 1])
    requires AllStood(env, rs[..|rs| - 1], init) && Stood(env, rs[|rs| - 1], text)
    ensures AllStood(env, rs, init + [text])
  {
    var texts, n := init + [text], |rs| - 1;
    forall i | 0 <= i < |rs| ensures Stood(env, rs[i], texts[i]) {
      if i < n { assert rs[..n][i] == rs[i] && texts[i] == init[i]; }
    }
  }

  lemma {:induction false} ReadingsAreFolds(env: UsageCache.Env, rs: seq<Reading>) returns (texts: seq<string>)
    requires AllFinished(env, rs)
    ensures AllStood(env, rs, texts)
    ensures SavedFrom(env.host, Foldable(env.host, texts), Saved(Readable(Results(env, rs))))
  {
    texts := [];
    if rs != [] {
      var n := |rs| - 1;
      ResultsSnoc(env, rs);
      var init := ReadingsAreFolds(env, rs[..n]);
      var text := ReadingIsFold(env, rs[n]);
      OneMore(env.host, init, Results(env, rs[..n]), text, Result(env, rs[n]));
      StoodSnoc(env, rs, init, text);
      texts := init + [text];
    }
  }

  /**
   End to end: for any number of logs read through their caches, the reported totals and calendar are what
   the runs of the logs contribute, as each stood at a moment between its stat and its file read; totals
   are the calendar plus the runs without a valid time, and only logs with a `null` line are left out.
   */
  lemma ReportConserves(env: UsageCache.Env, rs: seq<Reading>, limit: Option<int>, r: UsageState, g: Group, lane: Lane)
    returns (texts: seq<string>)
    requires AllFinished(env, rs) && Summarizes(Results(env, rs), limit, r)
    ensures AllStood(env, rs, texts)
    ensures r.count == |Foldable(env.host, texts)| && r.count + r.unreadable == |rs|
    ensures var logs := Foldable(env.host, texts);
            && Get(At(r.daily, g), lane) == LaneSum(RunsOf(env.host, logs, In(g)), lane)
            && Get(r.totals, lane) == LaneSum(RunsOf(env.host, logs, All), lane)
            && Get(r.totals, lane) == MapSum(r.daily, lane) + LaneSum(RunsOf(env.host, logs, Untimed), lane)
  {
    texts := ReadingsAreFolds(env, rs);
    MergeConserves(env.host, Foldable(env.host, texts), Saved(Readable(Results(env, rs))), g, lane);
  }
}
