/**
 The usage report over all sessions: the most recent ones on a page, totals and calendar over all of them.
 */
module UsageReport {
  import opened Common
  import opened SessionEvents
  import opened UsageFold
  import opened UsageConservation

  const DEFAULT_SESSION_PAGE := 50
  const MAX_SESSION_PAGE := 500

  function PageLimit(limit: Option<int>): (n: nat)
    ensures 0 < n <= MAX_SESSION_PAGE
    ensures limit.Some? && 0 < limit.value <= MAX_SESSION_PAGE ==> n == limit.value
    ensures limit.Some? && MAX_SESSION_PAGE < limit.value <= MAX_SAFE_INTEGER ==> n == MAX_SESSION_PAGE
    ensures limit.None? || limit.value <= 0 || limit.value > MAX_SAFE_INTEGER ==> n == DEFAULT_SESSION_PAGE
  {
    if limit.Some? && 0 < limit.value <= MAX_SAFE_INTEGER
    then if limit.value < MAX_SESSION_PAGE then limit.value else MAX_SESSION_PAGE
    else DEFAULT_SESSION_PAGE
  }

  /** One readable session and the time its log last changed. */
  datatype Listed = Listed(saved: Checkpoint, updatedAt: real)

  /** The sessions whose logs could be read. */
  function Readable(results: seq<Option<Listed>>): (r: seq<Listed>)
    ensures |r| <= |results|
  {
    if results == [] then []
    else
      var n := |results| - 1;
      Readable(results[..n]) + if results[n].Some? then [results[n].value] else []
  }

  /** Exactly the results that could be read, each with its time, in their order. */
  lemma {:induction false} ReadableMeans(results: seq<Option<Listed>>, i: nat)
    requires i < |results|
    ensures Readable(results[..i]) <= Readable(results)
    ensures results[i].Some? ==>
              |Readable(results[..i])| < |Readable(results)| && Readable(results)[|Readable(results[..i])|] == results[i].value
    ensures forall x | x in Readable(results) :: Some(x) in results
    decreases |results|
  {
    var n := |results| - 1;
    var init := results[..n];
    forall x | x in Readable(results) ensures Some(x) in results {
      if x in Readable(init) {
        ReadableMeans(init, n - 1);
        assert Some(x) in init;
      }
    }
    if i < n {
      ReadableMeans(init, i);
      assert init[..i] == results[..i] && init[i] == results[i];
    }
  }

  /** Behind every session that is not older, as a stable sort by time puts it. */
  function Insert(s: seq<Listed>, x: Listed): (r: seq<Listed>)
    ensures |r| == |s| + 1
  {
    if s == [] then [x]
    else if s[|s| - 1].updatedAt >= x.updatedAt then s + [x]
    else Insert(s[..|s| - 1], x) + [s[|s| - 1]]
  }

  function Newest(s: seq<Listed>): (r: seq<Listed>)
    ensures |r| == |s|
  {
    if s == [] then [] else Insert(Newest(s[..|s| - 1]), s[|s| - 1])
  }

  ghost predicate Descending(s: seq<Listed>) {
    forall i, j | 0 <= i < j < |s| :: s[i].updatedAt >= s[j].updatedAt
  }

  lemma {:induction false} InsertKeeps(s: seq<Listed>, x: Listed)
    ensures multiset(Insert(s, x)) == multiset(s) + multiset{x}
  {
    if s != [] && s[|s| - 1].updatedAt < x.updatedAt {
      InsertKeeps(s[..|s| - 1], x);
      assert s == s[..|s| - 1] + [s[|s| - 1]];
    }
  }

  predicate NoneBefore(s: seq<Listed>, time: real) {
    forall i | 0 <= i < |s| :: s[i].updatedAt >= time
  }

  lemma {:induction false} InsertNoneBefore(s: seq<Listed>, x: Listed, time: real)
    requires NoneBefore(s, time) && x.updatedAt >= time
    ensures NoneBefore(Insert(s, x), time)
  {
    if s != [] && s[|s| - 1].updatedAt < x.updatedAt { InsertNoneBefore(s[..|s| - 1], x, time); }
  }

  lemma DescendingSnoc(s: seq<Listed>, x: Listed)
    requires Descending(s) && NoneBefore(s, x.updatedAt)
    ensures Descending(s + [x])
  {
  }

  lemma {:induction false} InsertSorts(s: seq<Listed>, x: Listed)
    requires Descending(s)
    ensures Descending(Insert(s, x))
  {
    if s != [] && s[|s| - 1].updatedAt < x.updatedAt {
      var init, last := s[..|s| - 1], s[|s| - 1];
      InsertSorts(init, x);
      InsertNoneBefore(init, x, last.updatedAt);
      DescendingSnoc(Insert(init, x), last);
    }
  }

  lemma {:induction false} NewestKeeps(s: seq<Listed>)
    ensures multiset(Newest(s)) == multiset(s)
  {
    if s != [] {
      var init, last := s[..|s| - 1], s[|s| - 1];
      NewestKeeps(init);
      InsertKeeps(Newest(init), last);
      assert s == init + [last];
      assert multiset(init + [last]) == multiset(init) + multiset{last};
    }
  }

  lemma {:induction false} NewestSorts(s: seq<Listed>)
    ensures Descending(Newest(s))
  {
    if s != [] {
      NewestSorts(s[..|s| - 1]);
      InsertSorts(Newest(s[..|s| - 1]), s[|s| - 1]);
    }
  }

  /** Every session is listed once, the most recent first. */
  lemma NewestFirst(s: seq<Listed>)
    ensures Descending(Newest(s)) && multiset(Newest(s)) == multiset(s)
  {
    NewestSorts(s);
    NewestKeeps(s);
  }

  /** The sessions that changed at one moment, in their order. */
  function AtTime(s: seq<Listed>, time: real): seq<Listed> {
    if s == [] then []
    else AtTime(s[..|s| - 1], time) + if s[|s| - 1].updatedAt == time then [s[|s| - 1]] else []
  }

  lemma AtTimeSnoc(s: seq<Listed>, x: Listed, time: real)
    ensures AtTime(s + [x], time) == AtTime(s, time) + if x.updatedAt == time then [x] else []
  {
    assert (s + [x])[..|s|] == s;
  }

  lemma {:induction false} InsertStable(s: seq<Listed>, x: Listed, time: real)
    ensures AtTime(Insert(s, x), time) == AtTime(s, time) + if x.updatedAt == time then [x] else []
  {
    if s == [] {
      assert [] + [x] == [x];
      AtTimeSnoc([], x, time);
    } else if s[|s| - 1].updatedAt >= x.updatedAt {
      AtTimeSnoc(s, x, time);
    } else {
      var init, last := s[..|s| - 1], s[|s| - 1];
      InsertStable(init, x, time);
      AtTimeSnoc(Insert(init, x), last, time);
      AtTimeSnoc(init, last, time);
      assert init + [last] == s;
    }
  }

  /** Sessions that changed at the same moment keep their order. */
  lemma {:induction false} NewestIsStable(s: seq<Listed>, time: real)
    ensures AtTime(Newest(s), time) == AtTime(s, time)
  {
    if s != [] {
      NewestIsStable(s[..|s| - 1], time);
      InsertStable(Newest(s[..|s| - 1]), s[|s| - 1], time);
    }
  }

  function Saved(s: seq<Listed>): (r: seq<Checkpoint>)
    ensures |r| == |s| && forall i | 0 <= i < |s| :: r[i] == s[i].saved
  {
    seq(|s|, i requires 0 <= i < |s| => s[i].saved)
  }

  lemma TotalsSnoc(s: seq<Listed>, x: Listed)
    ensures TotalsOf(Saved(s + [x])) == Plus(TotalsOf(Saved(s)), x.saved.folded.totals)
  {
    assert Saved(s + [x])[..|s|] == Saved(s);
  }

  lemma PlusCommutes(a: Buckets, b: Buckets, c: Buckets)
    ensures Plus(Plus(a, b), c) == Plus(Plus(a, c), b)
  {
  }

  lemma {:induction false} InsertTotals(s: seq<Listed>, x: Listed)
    ensures TotalsOf(Saved(Insert(s, x))) == Plus(TotalsOf(Saved(s)), x.saved.folded.totals)
  {
    if s == [] {
      TotalsSnoc(s, x);
      assert s + [x] == [x];
    } else if s[|s| - 1].updatedAt >= x.updatedAt {
      TotalsSnoc(s, x);
    } else {
      var init, last := s[..|s| - 1], s[|s| - 1];
      InsertTotals(init, x);
      TotalsSnoc(Insert(init, x), last);
      TotalsSnoc(init, last);
      assert init + [last] == s;
      PlusCommutes(TotalsOf(Saved(init)), x.saved.folded.totals, last.saved.folded.totals);
    }
  }

  lemma SnocTotals(init: seq<Listed>, sorted: seq<Listed>, x: Listed)
    requires TotalsOf(Saved(sorted)) == TotalsOf(Saved(init))
    ensures TotalsOf(Saved(Insert(sorted, x))) == TotalsOf(Saved(init + [x]))
  {
    InsertTotals(sorted, x);
    TotalsSnoc(init, x);
  }

  lemma {:induction false} NewestTotals(s: seq<Listed>)
    ensures TotalsOf(Saved(Newest(s))) == TotalsOf(Saved(s))
  {
    if s != [] {
      var init, x := s[..|s| - 1], s[|s| - 1];
      NewestTotals(init);
      SnocTotals(init, Newest(init), x);
      assert init + [x] == s;
    }
  }

  /** The totals over the sorted sessions. */
  method SumTotals(sessions: seq<Listed>) returns (totals: Buckets)
    ensures totals == TotalsOf(Saved(sessions))
  {
    totals := ZERO;
    for i := 0 to |sessions|
      invariant totals == TotalsOf(Saved(sessions[..i]))
    {
      TotalsSnoc(sessions[..i], sessions[i]);
      assert sessions[..i] + [sessions[i]] == sessions[..i + 1];
      totals := Plus(totals, sessions[i].saved.folded.totals);
    }
    assert sessions[..|sessions|] == sessions;
  }

  method AddSession(daily: Daily, rows: seq<Row>) returns (merged: Daily)
    ensures merged == AddRows(daily, rows)
  {
    merged := daily;
    for j := 0 to |rows|
      invariant merged == AddRows(daily, rows[..j])
    {
      AddRowsSnoc(daily, rows[..j], rows[j]);
      assert rows[..j] + [rows[j]] == rows[..j + 1];
      merged := AddDaily(merged, rows[j].group, rows[j].buckets, true);
    }
    assert rows[..|rows|] == rows;
  }

  method MergeDaily(sessions: seq<Checkpoint>) returns (daily: Daily)
    ensures daily == AddRows(map[], RowsOf(sessions))
  {
    daily := map[];
    for i := 0 to |sessions|
      invariant daily == AddRows(map[], RowsOf(sessions[..i]))
    {
      assert sessions[..i + 1][..i] == sessions[..i];
      AddRowsConcat(map[], RowsOf(sessions[..i]), sessions[i].rows);
      daily := AddSession(daily, sessions[i].rows);
    }
    assert sessions[..|sessions|] == sessions;
  }

  datatype UsageState = UsageState(page: seq<Listed>, count: nat, unreadable: nat, totals: Buckets, daily: Daily)

  /** What the report says of these results. */
  ghost predicate Summarizes(results: seq<Option<Listed>>, limit: Option<int>, r: UsageState) {
    var readable := Readable(results);
    && r.count == |readable| && r.unreadable == |results| - |readable|
    && r.page <= Newest(readable)
    && |r.page| <= PageLimit(limit) && (|r.page| == |readable| || |r.page| == PageLimit(limit))
    && r.totals == TotalsOf(Saved(readable))
    && r.daily == AddRows(map[], RowsOf(Saved(readable)))
  }

  /** Totals and calendar cover every readable session; the limit only cuts the page, which holds the most recent ones. */
  method Summarize(results: seq<Option<Listed>>, limit: Option<int>) returns (r: UsageState)
    ensures Summarizes(results, limit, r)
  {
    var readable := Readable(results);
    var sessions := Newest(readable);
    var totals := SumTotals(sessions);
    NewestTotals(readable);
    var daily := MergeDaily(Saved(readable));
    var shown := if PageLimit(limit) < |sessions| then PageLimit(limit) else |sessions|;
    r := UsageState(sessions[..shown], |sessions|, |results| - |readable|, totals, daily);
  }

  /** No session left off the page is newer than one on it. */
  lemma PageShowsNewest(s: seq<Listed>, page: seq<Listed>, i: int, j: int)
    requires page <= Newest(s) && 0 <= i < |page| <= j < |s|
    ensures page[i].updatedAt >= Newest(s)[j].updatedAt
  {
    NewestFirst(s);
  }
}
