/**
 The launcher's console feed: a self-scheduling poll of the core's log by cursor, behind a
 generation fence. The code is cut at its awaits; each piece between two awaits is one method of the
 class and one function on the feed's value, and runs interleave those pieces with core answers,
 timers, starts and stops in any order.
 */
module RuntimeFeed {
  import opened Common

  const CONSOLE_POLL_MILLISECONDS: nat := 200
  const CONSOLE_IDLE_POLL_MILLISECONDS: nat := 2000
  const QUIET_DRAINS_BEFORE_BACKOFF: nat := 5

  datatype Record = Record(stream: string, text: string)

  /** The renderer knows four streams; any other name is standard output. */
  function Narrow(r: Record): (n: Record)
    ensures n.text == r.text && n.stream in {"stderr", "command", "launcher", "stdout"}
    ensures n.stream == r.stream || (r.stream !in {"stderr", "command", "launcher", "stdout"} && n.stream == "stdout")
  {
    if r.stream in {"stderr", "command", "launcher"} then r else Record("stdout", r.text)
  }

  function Forwarded(rs: seq<Record>): (out: seq<Record>)
    ensures |out| == |rs| && forall i | 0 <= i < |rs| :: out[i] == Narrow(rs[i])
  {
    seq(|rs|, i requires 0 <= i < |rs| => Narrow(rs[i]))
  }

  datatype LaunchState = Starting | Running | Stopped | Failed

  datatype Page = Page(entries: seq<Record>, cursor: nat)

  /** The feed's fields, the timers it has armed, and everything its callbacks were given. */
  datatype Feed = Feed(
    cursor: nat, timer: Option<nat>, delay: nat, quiet: nat, generation: nat,
    armed: set<nat>, nextTimer: nat, console: seq<Record>, launches: seq<LaunchState>)

  const NEW_FEED := Feed(0, None, CONSOLE_POLL_MILLISECONDS, 0, 0, {}, 0, [], [])

  function Schedule(f: Feed): Feed {
    f.(timer := Some(f.nextTimer), armed := f.armed + {f.nextTimer}, nextTimer := f.nextTimer + 1)
  }

  function Start(f: Feed, fast: nat): Feed {
    if f.timer.Some? then f
    else Schedule(f.(generation := f.generation + 1, delay := fast, quiet := 0))
  }

  function Stop(f: Feed): Feed {
    f.(generation := f.generation + 1, timer := None, armed := if f.timer.Some? then f.armed - {f.timer.value} else f.armed)
  }

  /** A console page arrives at a drain that began in generation `g`. */
  function TakePage(f: Feed, fast: nat, g: nat, page: Page): Feed {
    if g != f.generation then f
    else
      var quiet := if page.entries != [] then 0 else f.quiet + 1;
      var delay :=
        if page.entries != [] then fast
        else if quiet >= QUIET_DRAINS_BEFORE_BACKOFF
        then if f.delay * 2 < CONSOLE_IDLE_POLL_MILLISECONDS then f.delay * 2 else CONSOLE_IDLE_POLL_MILLISECONDS
        else f.delay;
      f.(cursor := page.cursor, quiet := quiet, delay := delay, console := f.console + Forwarded(page.entries))
  }

  /** A launch record arrives, or the core no longer knows the launch. */
  function TakeStatus(f: Feed, g: nat, view: Option<LaunchState>): Feed {
    if g != f.generation then f
    else match view
      case None => Stop(f)
      case Some(state) =>
        var told := f.(launches := f.launches + [state]);
        if state.Stopped? || state.Failed? then Stop(told) else told
  }

  /** After a drain settled: the chain goes on unless the feed was stopped. */
  function Chain(f: Feed): Feed {
    if f.timer.None? then f else Schedule(f)
  }

  /** The same pieces as the object runs them. */
  class LauncherRuntimeFeed {
    const fast: nat
    var cursor: nat
    var timer: Option<nat>
    var delay: nat
    var quietDrains: nat
    var generation: nat
    var armed: set<nat>
    var nextTimer: nat
    var console: seq<Record>
    var launches: seq<LaunchState>

    function Value(): Feed
      reads this
    {
      Feed(cursor, timer, delay, quietDrains, generation, armed, nextTimer, console, launches)
    }

    constructor (interval: Option<nat>)
      ensures Value() == NEW_FEED
      ensures fast == if interval.Some? then interval.value else CONSOLE_POLL_MILLISECONDS
    {
      fast := if interval.Some? then interval.value else CONSOLE_POLL_MILLISECONDS;
      cursor, timer, delay, quietDrains, generation := 0, None, CONSOLE_POLL_MILLISECONDS, 0, 0;
      armed, nextTimer, console, launches := {}, 0, [], [];
    }

    method ScheduleNext()
      modifies this
      ensures Value() == Schedule(old(Value()))
      ensures SameDeliveries(old(Value()), Value()) && timer.Some? && armed == old(armed) + {timer.value}
    {
      timer := Some(nextTimer);
      armed := armed + {nextTimer};
      nextTimer := nextTimer + 1;
    }

    method StartPolling()
      modifies this
      ensures Value() == Start(old(Value()), fast)
      ensures old(timer).Some? ==> Value() == old(Value())
      ensures old(timer).None? ==> generation > old(generation) && timer.Some? && armed == old(armed) + {timer.value}
      ensures old(timer).None? && fast <= CONSOLE_IDLE_POLL_MILLISECONDS ==> Paced(Value(), fast)
      ensures cursor == old(cursor) && console == old(console) && launches == old(launches)
    {
      if timer.Some? { return; }
      generation := generation + 1;
      delay := fast;
      quietDrains := 0;
      ScheduleNext();
    }

    method StopPolling()
      modifies this
      ensures Value() == Stop(old(Value()))
      ensures generation > old(generation) && timer.None? && armed <= old(armed)
      ensures SameDeliveries(old(Value()).(generation := generation), Value())
    {
      generation := generation + 1;
      if timer.Some? {
        armed := armed - {timer.value};
        timer := None;
      }
    }

    method ConsoleArrives(g: nat, page: Page)
      modifies this
      ensures Value() == TakePage(old(Value()), fast, g, page)
      ensures g != old(generation) ==> Value() == old(Value())
      ensures g == old(generation) ==> cursor == page.cursor && console == old(console) + Forwarded(page.entries)
      ensures fast <= CONSOLE_IDLE_POLL_MILLISECONDS && Paced(old(Value()), fast) ==> Paced(Value(), fast)
    {
      PageKeepsPace(Value(), fast, g, page);
      if g != generation { return; }
      cursor := page.cursor;
      if |page.entries| > 0 {
        quietDrains := 0;
        delay := fast;
      } else {
        quietDrains := quietDrains + 1;
        if quietDrains >= QUIET_DRAINS_BEFORE_BACKOFF {
          delay := if delay * 2 < CONSOLE_IDLE_POLL_MILLISECONDS then delay * 2 else CONSOLE_IDLE_POLL_MILLISECONDS;
        }
      }
      ghost var before := console;
      for i := 0 to |page.entries|
        invariant console == before + Forwarded(page.entries[..i])
        invariant Value().(console := before) ==
                  TakePage(old(Value()), fast, g, page).(console := before)
      {
        assert Forwarded(page.entries[..i + 1]) == Forwarded(page.entries[..i]) + [Narrow(page.entries[i])];
        console := console + [Narrow(page.entries[i])];
      }
      assert page.entries[..|page.entries|] == page.entries;
    }

    method StatusArrives(g: nat, view: Option<LaunchState>)
      modifies this
      ensures Value() == TakeStatus(old(Value()), g, view)
      ensures g != old(generation) ==> Value() == old(Value())
      ensures cursor == old(cursor) && delay == old(delay) && console == old(console)
      ensures g == old(generation) ==> launches == old(launches) + if view.Some? then [view.value] else []
      ensures g == old(generation) ==> (generation != old(generation) <==> view.None? || view.value.Stopped? || view.value.Failed?)
      ensures generation != old(generation) ==> timer.None?
    {
      if g != generation { return; }
      if view.None? {
        StopPolling();
        return;
      }
      launches := launches + [view.value];
      if view.value.Stopped? || view.value.Failed? { StopPolling(); }
    }

    method DrainSettles()
      modifies this
      ensures Value() == Chain(old(Value()))
      ensures SameDeliveries(old(Value()), Value()) && (timer.Some? <==> old(timer).Some?)
      ensures timer.Some? ==> armed == old(armed) + {timer.value}
    {
      if timer.None? { return; }
      ScheduleNext();
    }
  }

  // Runs.

  /** Where a drain waits: for the port, for a page asked from a cursor, for a status, or for its settling callback. */
  datatype Phase = AwaitPort | AwaitPage(asked: nat) | AwaitStatus | Settled

  datatype Drain = Drain(generation: nat, phase: Phase)

  /** The feed, the core's console log, and the drains in flight. */
  datatype World = World(feed: Feed, started: bool, log: seq<Record>, drains: map<nat, Drain>, nextDrain: nat)

  datatype Action =
    | DoStart
    | DoStop
    | CoreLogs(records: seq<Record>)
    | Fire(timer: nat)
    | PortAnswers(d: nat)
    | PageAnswers(d: nat, upTo: nat)
    | StatusAnswers(d: nat, view: Option<LaunchState>)
    | CoreRefuses(d: nat)
    | Settles(d: nat)

  predicate Enabled(w: World, a: Action) {
    match a
    case DoStart | DoStop | CoreLogs(_) => true
    case Fire(t) => t in w.feed.armed
    case PortAnswers(d) => d in w.drains && w.drains[d].phase.AwaitPort?
    case PageAnswers(d, upTo) => d in w.drains && w.drains[d].phase.AwaitPage? && w.drains[d].phase.asked <= upTo <= |w.log|
    case StatusAnswers(d, _) => d in w.drains && w.drains[d].phase.AwaitStatus?
    case CoreRefuses(d) => d in w.drains && !w.drains[d].phase.Settled?
    case Settles(d) => d in w.drains && w.drains[d].phase.Settled?
  }

  function Moved(w: World, d: nat, phase: Phase, feed: Feed): World
    requires d in w.drains
  {
    w.(feed := feed, drains := w.drains[d := w.drains[d].(phase := phase)])
  }

  function Next(w: World, fast: nat, a: Action): World
    requires Enabled(w, a)
  {
    match a
    case DoStart => w.(feed := Start(w.feed, fast), started := w.started || w.feed.timer.None?)
    case DoStop => w.(feed := Stop(w.feed))
    case CoreLogs(rs) => w.(log := w.log + rs)
    case Fire(t) =>
      w.(feed := w.feed.(armed := w.feed.armed - {t}),
         drains := w.drains[w.nextDrain := Drain(w.feed.generation, AwaitPort)], nextDrain := w.nextDrain + 1)
    case PortAnswers(d) => Moved(w, d, AwaitPage(w.feed.cursor), w.feed)
    case PageAnswers(d, upTo) =>
      var g := w.drains[d].generation;
      Moved(w, d, if g == w.feed.generation then AwaitStatus else Settled,
            TakePage(w.feed, fast, g, Page(w.log[w.drains[d].phase.asked..upTo], upTo)))
    case StatusAnswers(d, view) => Moved(w, d, Settled, TakeStatus(w.feed, w.drains[d].generation, view))
    case CoreRefuses(d) => Moved(w, d, Settled, w.feed)
    case Settles(d) => w.(feed := Chain(w.feed), drains := w.drains - {d})
  }

  ghost predicate Run(fast: nat, worlds: seq<World>, actions: seq<Action>) {
    && |worlds| == |actions| + 1
    && worlds[0].feed == NEW_FEED && !worlds[0].started && worlds[0].drains == map[]
    && forall i | 0 <= i < |actions| :: Enabled(worlds[i], actions[i]) && worlds[i + 1] == Next(worlds[i], fast, actions[i])
  }

  // The fence, in every run.

  /** Drain ids are given out once, generations only grow, and no drain is from the future. */
  ghost predicate Ordered(w: World) {
    forall d | d in w.drains :: d < w.nextDrain && w.drains[d].generation <= w.feed.generation
  }

  lemma OrderedStep(w: World, fast: nat, a: Action)
    requires Ordered(w) && Enabled(w, a)
    ensures Ordered(Next(w, fast, a))
    ensures w.feed.generation <= Next(w, fast, a).feed.generation && w.nextDrain <= Next(w, fast, a).nextDrain
    ensures forall d | d in w.drains && d in Next(w, fast, a).drains :: Next(w, fast, a).drains[d].generation == w.drains[d].generation
    ensures forall d | d in Next(w, fast, a).drains && d !in w.drains :: d == w.nextDrain
  {
  }

  /** The drain whose await an action ends, if any. */
  function DrainOf(a: Action): Option<nat> {
    match a
    case PortAnswers(d) => Some(d)
    case PageAnswers(d, _) => Some(d)
    case StatusAnswers(d, _) => Some(d)
    case CoreRefuses(d) => Some(d)
    case Settles(d) => Some(d)
    case _ => None
  }

  /** What a stale drain must leave alone. */
  predicate SameDeliveries(f: Feed, f': Feed) {
    && f'.cursor == f.cursor && f'.delay == f.delay && f'.quiet == f.quiet && f'.generation == f.generation
    && f'.console == f.console && f'.launches == f.launches
  }

  lemma {:induction false} RunOrdered(fast: nat, worlds: seq<World>, actions: seq<Action>, i: nat, j: nat)
    requires Run(fast, worlds, actions) && i <= j < |worlds|
    ensures Ordered(worlds[j]) && worlds[i].feed.generation <= worlds[j].feed.generation
    ensures worlds[i].nextDrain <= worlds[j].nextDrain
    ensures forall d | d in worlds[j].drains && d < worlds[i].nextDrain ::
              d in worlds[i].drains && worlds[j].drains[d].generation == worlds[i].drains[d].generation
    decreases j
  {
    if j > 0 {
      RunOrdered(fast, worlds, actions, if i < j then i else j - 1, j - 1);
      OrderedStep(worlds[j - 1], fast, actions[j - 1]);
      assert worlds[j] == Next(worlds[j - 1], fast, actions[j - 1]);
    }
  }

  /**
   Once a start or a stop has moved the generation past the one a drain began in, no later step of
   that drain delivers anything or changes the cursor or the delay, whatever happens in between.
   */
  lemma StaleDrainIsInert(fast: nat, worlds: seq<World>, actions: seq<Action>, i: nat, j: nat, d: nat)
    requires Run(fast, worlds, actions) && i <= j < |actions|
    requires d in worlds[i].drains && worlds[i].drains[d].generation != worlds[i].feed.generation
    requires DrainOf(actions[j]) == Some(d)
    ensures SameDeliveries(worlds[j].feed, worlds[j + 1].feed)
  {
    RunOrdered(fast, worlds, actions, i, i);
    RunOrdered(fast, worlds, actions, i, j);
    assert worlds[j].drains[d].generation < worlds[j].feed.generation;
    assert worlds[j + 1] == Next(worlds[j], fast, actions[j]);
  }

  // Exact delivery, when no start takes effect while a drain is in flight.

  /** The discipline: a start that takes effect finds no drain in flight. */
  predicate Orderly(w: World, a: Action) {
    a.DoStart? ==> w.drains == map[] || w.feed.timer.Some?
  }

  /** At most one timer or drain is alive, and what was forwarded is the core's log up to the cursor. */
  ghost predicate Delivering(w: World) {
    && w.feed.cursor <= |w.log|
    && w.feed.console == Forwarded(w.log[..w.feed.cursor])
    && (forall t | t in w.feed.armed :: w.feed.timer == Some(t))
    && (forall d, e | d in w.drains && e in w.drains :: d == e)
    && (w.drains != map[] ==> w.feed.armed == {})
    && (w.drains == map[] && w.feed.timer.Some? ==> w.feed.armed == {w.feed.timer.value})
    && (forall d | d in w.drains && w.drains[d].phase.AwaitPage? ::
          w.drains[d].generation == w.feed.generation ==> w.drains[d].phase.asked == w.feed.cursor)
  }

  lemma ForwardedConcat(a: seq<Record>, b: seq<Record>)
    ensures Forwarded(a + b) == Forwarded(a) + Forwarded(b)
  {
  }

  lemma PageDelivers(w: World, fast: nat, d: nat, upTo: nat)
    requires Delivering(w) && Ordered(w) && Enabled(w, PageAnswers(d, upTo))
    ensures Delivering(Next(w, fast, PageAnswers(d, upTo)))
  {
    var asked := w.drains[d].phase.asked;
    if w.drains[d].generation == w.feed.generation {
      ForwardedConcat(w.log[..asked], w.log[asked..upTo]);
      assert w.log[..upTo] == w.log[..asked] + w.log[asked..upTo];
    }
  }

  lemma DeliveringStep(w: World, fast: nat, a: Action)
    requires Delivering(w) && Ordered(w) && Enabled(w, a) && Orderly(w, a)
    ensures Delivering(Next(w, fast, a))
  {
    var w' := Next(w, fast, a);
    match a {
      case CoreLogs(rs) => assert (w.log + rs)[..w.feed.cursor] == w.log[..w.feed.cursor];
      case PageAnswers(d, upTo) => PageDelivers(w, fast, d, upTo);
      case Settles(d) => assert w'.drains == map[];
      case Fire(t) => assert w.drains == map[] && w.nextDrain in w'.drains;
      case PortAnswers(d) => assert forall e | e in w'.drains :: e == d;
      case _ =>
    }
  }

  lemma {:induction false} OrderlyRunDelivers(fast: nat, worlds: seq<World>, actions: seq<Action>, i: nat)
    requires Run(fast, worlds, actions) && i < |worlds|
    requires forall k | 0 <= k < |actions| :: Orderly(worlds[k], actions[k])
    ensures Delivering(worlds[i])
  {
    if i > 0 {
      OrderlyRunDelivers(fast, worlds, actions, i - 1);
      RunOrdered(fast, worlds, actions, i - 1, i - 1);
      DeliveringStep(worlds[i - 1], fast, actions[i - 1]);
      assert worlds[i] == Next(worlds[i - 1], fast, actions[i - 1]);
    } else {
      assert Forwarded(worlds[0].log[..0]) == [];
    }
  }

  /** In every orderly run the forwarded records are the core's log up to the cursor: in order, once each, across restarts. */
  lemma ForwardedExactlyOnce(fast: nat, worlds: seq<World>, actions: seq<Action>, i: nat)
    requires Run(fast, worlds, actions) && i < |worlds|
    requires forall k | 0 <= k < |actions| :: Orderly(worlds[k], actions[k])
    ensures worlds[i].feed.cursor <= |worlds[i].log|
    ensures worlds[i].feed.console == Forwarded(worlds[i].log[..worlds[i].feed.cursor])
  {
    OrderlyRunDelivers(fast, worlds, actions, i);
  }

  // The discipline is exactly what delivery needs.

  predicate Exact(w: World) {
    w.feed.cursor <= |w.log| && w.feed.console == Forwarded(w.log[..w.feed.cursor])
  }

  /** `n` orderly steps may lead from one world to another. */
  ghost predicate Leads(fast: nat, n: nat, w: World, w': World) {
    if n == 0 then w == w'
    else exists a :: Enabled(w, a) && Orderly(w, a) && Leads(fast, n - 1, Next(w, fast, a), w')
  }

  /** Whatever orderly steps follow a start, delivery stays exact. */
  ghost predicate StartDelivers(fast: nat, w: World) {
    forall n: nat, w' | Leads(fast, n, Next(w, fast, DoStart), w') :: Exact(w')
  }

  lemma {:induction false} LeadsKeeps(fast: nat, n: nat, w: World, w': World)
    requires Delivering(w) && Ordered(w) && Leads(fast, n, w, w')
    ensures Delivering(w')
  {
    if n > 0 {
      var a :| Enabled(w, a) && Orderly(w, a) && Leads(fast, n - 1, Next(w, fast, a), w');
      DeliveringStep(w, fast, a);
      OrderedStep(w, fast, a);
      LeadsKeeps(fast, n - 1, Next(w, fast, a), w');
    }
  }

  lemma LeadsBy(fast: nat, n: nat, w: World, a: Action, w': World)
    requires Enabled(w, a) && Orderly(w, a) && Leads(fast, n, Next(w, fast, a), w')
    ensures Leads(fast, n + 1, w, w')
  {
  }

  lemma {:induction false} LeadsOn(fast: nat, m: nat, n: nat, w: World, w': World, w'': World)
    requires Leads(fast, m, w, w') && Leads(fast, n, w', w'')
    ensures Leads(fast, m + n, w, w'')
  {
    if m > 0 {
      var a :| Enabled(w, a) && Orderly(w, a) && Leads(fast, m - 1, Next(w, fast, a), w');
      var k: nat := m - 1 + n;
      LeadsOn(fast, m - 1, n, Next(w, fast, a), w', w'');
      LeadsBy(fast, k, w, a, w'');
      assert k + 1 == m + n;
    }
  }

  /** The feed after a start that finds no timer, and after a drain settled on top of it. */
  function TwoChains(w: World, fast: nat): World {
    var f, t := w.feed, w.feed.nextTimer;
    World(f.(timer := Some(t + 1), armed := {t, t + 1}, nextTimer := t + 2, generation := f.generation + 1, delay := fast, quiet := 0),
          true, w.log, map[], w.nextDrain)
  }

  /** A start while a drain is in flight: the settling drain re-arms next to the new timer. */
  lemma RestartLeavesTwoChains(fast: nat, w: World, d: nat) returns (n: nat)
    requires Delivering(w) && d in w.drains && w.feed.timer.None?
    ensures Leads(fast, n, Next(w, fast, DoStart), TwoChains(w, fast))
  {
    var s := Next(w, fast, DoStart);
    assert s.drains == w.drains && s.feed.armed == {w.feed.nextTimer};
    if w.drains[d].phase.Settled? {
      SettlesNext(fast, w, s, d);
      n := 1;
    } else {
      var r := Next(s, fast, CoreRefuses(d));
      SettlesNext(fast, w, r, d);
      LeadsBy(fast, 1, s, CoreRefuses(d), TwoChains(w, fast));
      n := 2;
    }
  }

  lemma SettlesNext(fast: nat, w: World, s: World, d: nat)
    requires Delivering(w) && d in w.drains && w.feed.timer.None?
    requires s.drains.Keys == w.drains.Keys && s.drains[d].phase.Settled?
    requires s == Next(w, fast, DoStart).(drains := s.drains)
    ensures Leads(fast, 1, s, TwoChains(w, fast))
  {
    assert s.drains - {d} == map[];
    var t := w.feed.nextTimer;
    assert {t} + {t + 1} == {t, t + 1};
    assert Next(s, fast, Settles(d)) == TwoChains(w, fast);
    LeadsBy(fast, 0, s, Settles(d), TwoChains(w, fast));
  }

  /** Both chains have asked for the same page. */
  function BothAsked(w: World, log: seq<Record>): World {
    var n, g, c := w.nextDrain, w.feed.generation, w.feed.cursor;
    World(w.feed.(armed := {}), w.started, log,
          map[n := Drain(g, AwaitPage(c)), n + 1 := Drain(g, AwaitPage(c))], n + 2)
  }

  lemma BothAsk(fast: nat, w: World, t: nat, u: nat)
    requires w.drains == map[] && w.feed.armed == {t, u} && t != u
    ensures Leads(fast, 4, w, BothAsked(w, w.log))
  {
    var n := w.nextDrain;
    var w1 := Next(w, fast, Fire(t));
    assert w1.feed.armed == {u};
    var w2 := Next(w1, fast, Fire(u));
    assert w2.feed.armed == {};
    var w3 := Next(w2, fast, PortAnswers(n));
    var w4 := Next(w3, fast, PortAnswers(n + 1));
    assert w4 == BothAsked(w, w.log);
    LeadsBy(fast, 0, w3, PortAnswers(n + 1), w4);
    LeadsBy(fast, 1, w2, PortAnswers(n), w4);
    LeadsBy(fast, 2, w1, Fire(u), w4);
    LeadsBy(fast, 3, w, Fire(t), w4);
  }

  /** One current page, whatever else is in flight. */
  lemma OnePage(fast: nat, w: World, d: nat)
    requires d in w.drains && w.drains[d].phase.AwaitPage? && w.drains[d].generation == w.feed.generation
    requires w.drains[d].phase.asked <= |w.log|
    ensures Enabled(w, PageAnswers(d, |w.log|))
    ensures var c := Next(w, fast, PageAnswers(d, |w.log|));
            && c.log == w.log && c.feed.cursor == |w.log| && c.feed.generation == w.feed.generation
            && c.feed.console == w.feed.console + Forwarded(w.log[w.drains[d].phase.asked..])
            && forall e | e != d && e in w.drains :: e in c.drains && c.drains[e] == w.drains[e]
  {
    assert w.log[w.drains[d].phase.asked..|w.log|] == w.log[w.drains[d].phase.asked..];
  }

  lemma BothForward(fast: nat, w: World) returns (end: World)
    requires w.feed.cursor <= |w.log|
    ensures Leads(fast, 2, BothAsked(w, w.log), end)
    ensures end.log == w.log && end.feed.cursor == |w.log|
    ensures var page := Forwarded(w.log[w.feed.cursor..]); end.feed.console == w.feed.console + page + page
  {
    var b, n := BothAsked(w, w.log), w.nextDrain;
    OnePage(fast, b, n);
    var c := Next(b, fast, PageAnswers(n, |w.log|));
    OnePage(fast, c, n + 1);
    end := Next(c, fast, PageAnswers(n + 1, |w.log|));
    LeadsBy(fast, 0, c, PageAnswers(n + 1, |w.log|), end);
    LeadsBy(fast, 1, b, PageAnswers(n, |w.log|), end);
  }

  /** Two chains drain in the same generation, so both forward the page they asked for. */
  lemma TwoChainsForwardTwice(fast: nat, w: World, t: nat, u: nat, r: Record) returns (n: nat, end: World)
    requires w.drains == map[] && w.feed.armed == {t, u} && t != u && Exact(w)
    ensures Leads(fast, n, w, end) && !Exact(end)
    ensures var page := Forwarded((w.log + [r])[w.feed.cursor..]); end.feed.console == w.feed.console + page + page
  {
    var v := Next(w, fast, CoreLogs([r]));
    var b := BothAsked(v, v.log);
    BothAsk(fast, v, t, u);
    end := BothForward(fast, v);
    LeadsOn(fast, 4, 2, v, b, end);
    LeadsBy(fast, 6, w, CoreLogs([r]), end);
    n := 7;
    assert |end.feed.console| > |end.log|;
  }

  lemma TwoChainsAreExact(fast: nat, w: World)
    requires Delivering(w)
    ensures var two, t := TwoChains(w, fast), w.feed.nextTimer;
            two.drains == map[] && two.feed.armed == {t, t + 1} && t != t + 1 && Exact(two)
  {
  }

  lemma ThenForwardsTwice(fast: nat, n: nat, s: World, two: World, t: nat, u: nat, r: Record) returns (m: nat, end: World)
    requires Leads(fast, n, s, two) && two.drains == map[] && two.feed.armed == {t, u} && t != u && Exact(two)
    ensures Leads(fast, m, s, end) && !Exact(end)
  {
    var k;
    k, end := TwoChainsForwardTwice(fast, two, t, u, r);
    LeadsOn(fast, n, k, s, two, end);
    m := n + k;
  }

  /** Every start that takes effect while a drain is in flight can make one record arrive twice. */
  lemma RestartDuringDrainDuplicates(fast: nat, w: World, r: Record) returns (n: nat, end: World)
    requires Delivering(w) && !Orderly(w, DoStart)
    ensures Leads(fast, n, Next(w, fast, DoStart), end) && !Exact(end)
  {
    var d :| d in w.drains;
    var k := RestartLeavesTwoChains(fast, w, d);
    TwoChainsAreExact(fast, w);
    var t := w.feed.nextTimer;
    n, end := ThenForwardsTwice(fast, k, Next(w, fast, DoStart), TwoChains(w, fast), t, t + 1, r);
  }

  /** In every world an orderly run reaches, a start keeps delivery exact if and only if it finds no drain in flight or a timer set. */
  lemma StartDeliversIff(fast: nat, worlds: seq<World>, actions: seq<Action>, i: nat)
    requires Run(fast, worlds, actions) && i < |worlds|
    requires forall k | 0 <= k < |actions| :: Orderly(worlds[k], actions[k])
    ensures StartDelivers(fast, worlds[i]) <==> Orderly(worlds[i], DoStart)
  {
    var w := worlds[i];
    OrderlyRunDelivers(fast, worlds, actions, i);
    RunOrdered(fast, worlds, actions, i, i);
    if Orderly(w, DoStart) {
      DeliveringStep(w, fast, DoStart);
      OrderedStep(w, fast, DoStart);
      forall n: nat, w' | Leads(fast, n, Next(w, fast, DoStart), w') ensures Exact(w') {
        LeadsKeeps(fast, n, Next(w, fast, DoStart), w');
      }
    } else {
      var n, end := RestartDuringDrainDuplicates(fast, w, Record("stdout", ""));
    }
  }

  /** Such a start can happen: the feed is started, its first drain begins, and it is stopped. */
  lemma RestartIsReachable(fast: nat, log: seq<Record>)
    ensures exists w :: Leads(fast, 3, World(NEW_FEED, false, log, map[], 0), w) && Delivering(w) && !Orderly(w, DoStart)
  {
    var w0 := World(NEW_FEED, false, log, map[], 0);
    var w1 := Next(w0, fast, DoStart);
    var w2 := Next(w1, fast, Fire(0));
    var w3 := Next(w2, fast, DoStop);
    assert 0 in w3.drains;
    LeadsBy(fast, 0, w2, DoStop, w3);
    LeadsBy(fast, 1, w1, Fire(0), w3);
    LeadsBy(fast, 2, w0, DoStart, w3);
    assert Forwarded(log[..0]) == [];
    LeadsKeeps(fast, 3, w0, w3);
  }

  // The backoff, in every run.

  function Pow2(n: nat): nat {
    if n == 0 then 1 else 2 * Pow2(n - 1)
  }

  /** The delay after `quiet` empty drains in a row. */
  function Backoff(fast: nat, quiet: nat): nat {
    var n := if quiet >= QUIET_DRAINS_BEFORE_BACKOFF - 1 then quiet - (QUIET_DRAINS_BEFORE_BACKOFF - 1) else 0;
    if fast * Pow2(n) < CONSOLE_IDLE_POLL_MILLISECONDS then fast * Pow2(n) else CONSOLE_IDLE_POLL_MILLISECONDS
  }

  predicate Paced(f: Feed, fast: nat) {
    f.delay == Backoff(fast, f.quiet)
  }

  lemma PageKeepsPace(f: Feed, fast: nat, g: nat, page: Page)
    ensures fast <= CONSOLE_IDLE_POLL_MILLISECONDS && Paced(f, fast) ==> Paced(TakePage(f, fast, g, page), fast)
  {
    if f.quiet + 1 >= QUIET_DRAINS_BEFORE_BACKOFF {
      var n := f.quiet - (QUIET_DRAINS_BEFORE_BACKOFF - 1);
      assert fast * Pow2(n + 1) == 2 * (fast * Pow2(n));
    }
  }

  ghost predicate InStep(w: World, fast: nat) {
    && (w.started ==> Paced(w.feed, fast))
    && (!w.started ==> w.feed.armed == {} && w.drains == map[] && w.feed.timer.None?)
  }

  lemma InStepKept(w: World, fast: nat, a: Action)
    requires fast <= CONSOLE_IDLE_POLL_MILLISECONDS && InStep(w, fast) && Enabled(w, a)
    ensures InStep(Next(w, fast, a), fast)
  {
    if a.PageAnswers? {
      PageKeepsPace(w.feed, fast, w.drains[a.d].generation, Page(w.log[w.drains[a.d].phase.asked..a.upTo], a.upTo));
    }
  }

  /** In every run, once started, the delay is the fast rate doubled for each empty drain after the fourth, capped. */
  lemma {:induction false} DelayIsBackoff(fast: nat, worlds: seq<World>, actions: seq<Action>, i: nat)
    requires Run(fast, worlds, actions) && i < |worlds|
    requires fast <= CONSOLE_IDLE_POLL_MILLISECONDS
    ensures InStep(worlds[i], fast)
  {
    if i > 0 {
      DelayIsBackoff(fast, worlds, actions, i - 1);
      InStepKept(worlds[i - 1], fast, actions[i - 1]);
      assert worlds[i] == Next(worlds[i - 1], fast, actions[i - 1]);
    }
  }

  /** The cap on the fast rate is needed: right after a start the formula holds exactly under it. */
  lemma BackoffNeedsCap(fast: nat, f: Feed)
    requires f.timer.None?
    ensures Start(f, fast).delay == Backoff(fast, Start(f, fast).quiet) <==> fast <= CONSOLE_IDLE_POLL_MILLISECONDS
  {
  }
}
