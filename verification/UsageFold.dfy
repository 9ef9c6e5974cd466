/**
 The token-usage fold: one session log becomes billing totals, a per-day and per-model map,
 and the identity of the session. A later report for the same step replaces the earlier one.
 */
module UsageFold {
  import opened Common
  import opened SessionEvents
  import Strings

  datatype Group = Group(date: string, model: string)

  /** The pending replacement slot. `home` is the daily group the buckets were added to. */
  datatype Report = Report(key: StepKey, buckets: Buckets, home: Option<Group>)

  type Daily = map<Group, Buckets>

  datatype Fold = Fold(
    totals: Buckets, last: Option<Report>, daily: Daily,
    sessionId: string, createdAt: real, turns: nat, steps: nat,
    model: Option<string>, currentModel: Option<string>, provider: Option<string>, firstPrompt: Option<string>)

  const EMPTY := Fold(ZERO, None, map[], "", 0.0, 0, 0, None, None, None, None)

  function At(m: Daily, g: Group): Buckets {
    if g in m then m[g] else ZERO
  }

  /** Adds or subtracts one change; a group whose four buckets reach zero leaves the map. */
  function AddDaily(m: Daily, g: Group, change: Buckets, add: bool): (r: Daily)
    ensures NoZero(m) ==> NoZero(r)
  {
    var next := if add then Plus(At(m, g), change) else Minus(At(m, g), change);
    if next == ZERO then m - {g} else m[g := next]
  }

  predicate NoZero(m: Daily) {
    forall g | g in m :: m[g] != ZERO
  }

  function GroupOf(day: real -> string, time: Option<real>, model: Option<string>): Option<Group> {
    if time.Some? && time.value >= 0.0
    then Some(Group(day(time.value), if model.Some? then model.value else "unknown"))
    else None
  }

  function Or<T>(a: Option<T>, b: Option<T>): Option<T> {
    if a.Some? then a else b
  }

  /** The effect of one usage report on the totals, the map and the slot. */
  function ApplyUsage(f: Fold, key: StepKey, buckets: Buckets, home: Option<Group>): Fold {
    var continues := f.last.Some? && f.last.value.key == key;
    if continues && f.last.value.buckets == buckets then f
    else
      var cleared := if continues && f.last.value.home.Some?
                     then AddDaily(f.daily, f.last.value.home.value, f.last.value.buckets, false)
                     else f.daily;
      var base := if continues then Minus(f.totals, f.last.value.buckets) else f.totals;
      f.(totals := Plus(base, buckets),
         daily := if home.Some? then AddDaily(cleared, home.value, buckets, true) else cleared,
         last := Some(Report(key, buckets, home)))
  }

  function Apply(day: real -> string, f: Fold, e: Event): Fold {
    match e
    case Session(id, createdAt) =>
      f.(sessionId := if id.Some? then id.value else f.sessionId,
         createdAt := if createdAt.Some? then createdAt.value else f.createdAt)
    case TurnStart => f.(turns := f.turns + 1)
    case StepStart => f.(steps := f.steps + 1)
    case Header(model, provider) =>
      f.(model := Or(f.model, model), currentModel := Or(model, f.currentModel), provider := Or(provider, f.provider))
    case Prompt(excerpt) => f.(firstPrompt := Or(f.firstPrompt, excerpt))
    case Retry(key) =>
      if f.last.Some? && key == Some(f.last.value.key) then f.(last := None) else f
    case Usage(key, buckets, time) => ApplyUsage(f, key, buckets, GroupOf(day, time, f.currentModel))
    case Other => f
  }

  function FoldEvents(day: real -> string, f: Fold, es: seq<Event>): Fold {
    if es == [] then f else Apply(day, FoldEvents(day, f, es[..|es| - 1]), es[|es| - 1])
  }

  /** The fold of a whole text; it throws exactly on a text that holds a `null` line. */
  function FoldText(h: Host, f: Fold, text: string): Option<Fold> {
    if Poisoned(h, text) then None else Some(FoldEvents(h.localDay, f, EventsOf(h, text)))
  }

  // What is persisted between reads, and how a fold restarts from it.

  datatype Folded = Folded(
    sessionId: string, createdAt: real, turns: nat, steps: nat,
    model: Option<string>, provider: Option<string>, firstPrompt: Option<string>, totals: Buckets)

  datatype Row = Row(group: Group, buckets: Buckets)

  datatype Checkpoint = Checkpoint(folded: Folded, rows: seq<Row>, currentModel: Option<string>, last: Option<Report>)

  function AddRows(m: Daily, rows: seq<Row>): Daily {
    if rows == [] then m
    else AddDaily(AddRows(m, rows[..|rows| - 1]), rows[|rows| - 1].group, rows[|rows| - 1].buckets, true)
  }

  function Seeded(c: Checkpoint): Fold {
    Fold(c.folded.totals, c.last, AddRows(map[], c.rows), c.folded.sessionId, c.folded.createdAt,
         c.folded.turns, c.folded.steps, c.folded.model, Or(c.currentModel, c.folded.model),
         c.folded.provider, c.folded.firstPrompt)
  }

  /** The map the rows spell out; a later row overrides an earlier one of the same group. */
  function Collect(rows: seq<Row>): Daily {
    if rows == [] then map[] else Collect(rows[..|rows| - 1])[rows[|rows| - 1].group := rows[|rows| - 1].buckets]
  }

  /** `rows` lists every entry of `m` once, in any order. */
  ghost predicate Enumerates(rows: seq<Row>, m: Daily) {
    (forall i, j | 0 <= i < j < |rows| :: rows[i].group != rows[j].group) && Collect(rows) == m
  }

  ghost predicate Saves(c: Checkpoint, f: Fold) {
    && c.folded == Folded(f.sessionId, f.createdAt, f.turns, f.steps, f.model, f.provider, f.firstPrompt, f.totals)
    && Enumerates(c.rows, f.daily)
    && c.currentModel == f.currentModel
    && c.last == f.last
  }

  /** What every fold keeps: no zero entry, and a first model only together with a current one. */
  predicate WellFormed(f: Fold) {
    NoZero(f.daily) && (f.currentModel.None? ==> f.model.None?)
  }

  lemma {:induction false} FoldKeepsWellFormed(day: real -> string, f: Fold, es: seq<Event>)
    requires WellFormed(f)
    ensures WellFormed(FoldEvents(day, f, es))
  {
    if es != [] {
      FoldKeepsWellFormed(day, f, es[..|es| - 1]);
    }
  }

  lemma {:induction false} FoldConcat(day: real -> string, f: Fold, a: seq<Event>, b: seq<Event>)
    ensures FoldEvents(day, f, a + b) == FoldEvents(day, FoldEvents(day, f, a), b)
  {
    if b == [] {
      assert a + b == a;
    } else {
      FoldConcat(day, f, a, b[..|b| - 1]);
      assert (a + b)[..|a + b| - 1] == a + b[..|b| - 1];
    }
  }

  lemma {:induction false} CollectedFrom(rows: seq<Row>, g: Group)
    requires g in Collect(rows)
    ensures exists i :: 0 <= i < |rows| && rows[i] == Row(g, Collect(rows)[g])
  {
    var n := |rows| - 1;
    if rows[n].group == g {
      assert rows[n] == Row(g, Collect(rows)[g]);
    } else {
      CollectedFrom(rows[..n], g);
      var i :| 0 <= i < n && rows[..n][i] == Row(g, Collect(rows[..n])[g]);
      assert rows[i] == Row(g, Collect(rows)[g]);
    }
  }

  lemma {:induction false} RowsRebuild(rows: seq<Row>)
    requires forall i, j | 0 <= i < j < |rows| :: rows[i].group != rows[j].group
    requires NoZero(Collect(rows))
    ensures AddRows(map[], rows) == Collect(rows)
  {
    if rows != [] {
      var n := |rows| - 1;
      var before, g := Collect(rows[..n]), rows[n].group;
      if g in before {
        CollectedFrom(rows[..n], g);
        assert false;
      }
      forall o | o in before ensures before[o] != ZERO {
        assert Collect(rows)[o] == before[o];
      }
      RowsRebuild(rows[..n]);
      assert Collect(rows)[g] == rows[n].buckets;
      assert Plus(ZERO, rows[n].buckets) == rows[n].buckets;
    }
  }

  /** A checkpoint restores the very fold it was taken from, whatever the order of its rows. */
  lemma RestoreSaved(c: Checkpoint, f: Fold)
    requires WellFormed(f) && Saves(c, f)
    ensures Seeded(c) == f
  {
    RowsRebuild(c.rows);
  }

  /** Resuming is exact: seeding with the fold of `a` and reading `b` is reading `a + b` from scratch. */
  lemma ResumeIsExact(h: Host, a: string, b: string, c: Checkpoint)
    requires WholeLines(a)
    requires FoldText(h, EMPTY, a).Some? && Saves(c, FoldText(h, EMPTY, a).value)
    ensures FoldText(h, Seeded(c), b) == FoldText(h, EMPTY, a + b)
  {
    FoldKeepsWellFormed(h.localDay, EMPTY, EventsOf(h, a));
    RestoreSaved(c, FoldText(h, EMPTY, a).value);
    EventsAppend(h, a, b);
    FoldConcat(h.localDay, EMPTY, EventsOf(h, a), EventsOf(h, b));
  }

  lemma OneLine(h: Host, s: string)
    requires '\n' !in s
    ensures ReadLines(h, Split(s)) == [ReadLine(h, s)]
  {
    Strings.NoSeparator(s, '\n');
  }

  lemma FoldOne(day: real -> string, f: Fold, e: Event)
    ensures FoldEvents(day, f, [e]) == Apply(day, f, e)
  {
    assert [e][..0] == [];
    assert FoldEvents(day, f, []) == f;
  }

  lemma OneEntry(line: Line)
    ensures Entries([line]) == if line.Entry? then [line.event] else []
  {
    assert [line][..0] == [];
  }

  /** A single line that does not parse has no effect; one that parses has the effect of its event. */
  lemma FoldLine(h: Host, f: Fold, s: string)
    requires s != "" && '\n' !in s
    ensures h.parse(s) == None ==> FoldText(h, f, s) == Some(f)
    ensures h.parse(s).Some? && !h.parse(s).value.Null? ==>
              FoldText(h, f, s) == Some(Apply(h.localDay, f, EventOf(h, h.parse(s).value)))
  {
    var line := ReadLine(h, s);
    OneLine(h, s);
    OneEntry(line);
    if line.Entry? {
      FoldOne(h.localDay, f, line.event);
      assert FoldText(h, f, s) == Some(FoldEvents(h.localDay, f, [line.event]));
    }
  }

  /** A turn cut inside its line is lost: neither half parses, and the resumed fold does not count it. */
  lemma CutLineIsLost(h: Host, c: Checkpoint, a: string, b: string)
    requires a != "" && b != "" && '\n' !in a && '\n' !in b && Saves(c, EMPTY)
    requires h.parse(a) == None && h.parse(b) == None
    requires h.parse(a + b).Some? && !h.parse(a + b).value.Null? && EventOf(h, h.parse(a + b).value) == TurnStart
    ensures !WholeLines(a) && FoldText(h, EMPTY, a) == Some(EMPTY)
    ensures FoldText(h, Seeded(c), b) != FoldText(h, EMPTY, a + b)
  {
    FoldLine(h, EMPTY, a);
    FoldLine(h, EMPTY, b);
    FoldLine(h, EMPTY, a + b);
    RestoreSaved(c, EMPTY);
  }

  const CUT_HEAD := "{\"type\":"
  const CUT_TAIL := "\"turn/start\"}"

  lemma TurnStartRead(h: Host)
    ensures EventOf(h, Obj(map["type" := Str("turn/start")])) == TurnStart
  {
  }

  /** Such a cut exists in JSON: a text that ends inside the object `{"type":"turn/start"}`. */
  lemma ResumeNeedsWholeLines(h: Host, c: Checkpoint)
    requires h.parse(CUT_HEAD + CUT_TAIL) == Some(Obj(map["type" := Str("turn/start")]))
    requires h.parse(CUT_HEAD) == None && h.parse(CUT_TAIL) == None
    requires Saves(c, EMPTY)
    ensures !WholeLines(CUT_HEAD) && FoldText(h, EMPTY, CUT_HEAD) == Some(EMPTY)
    ensures FoldText(h, Seeded(c), CUT_TAIL) != FoldText(h, EMPTY, CUT_HEAD + CUT_TAIL)
  {
    TurnStartRead(h);
    CutLineIsLost(h, c, CUT_HEAD, CUT_TAIL);
  }

  lemma NullIsPoison(h: Host, line: string)
    requires h.parse("null") == Some(Null) && line == "null\n"
    ensures WholeLines(line) && Poisoned(h, line)
  {
    assert line == "null" + ['\n'] + "";
    Strings.SplitAtSeparator("null", "", '\n');
    Strings.NoSeparator("null", '\n');
    assert Split(line)[0] == "null";
    assert ReadLines(h, Split(line))[0] == Poison;
  }

  /** A line `null` anywhere makes the whole fold throw, whatever the other lines are. */
  lemma NullLineThrows(h: Host, f: Fold, before: string, line: string, after: string)
    requires h.parse("null") == Some(Null) && WholeLines(before) && line == "null\n"
    ensures FoldText(h, f, before + (line + after)) == None
  {
    NullIsPoison(h, line);
    EventsAppend(h, line, after);
    EventsAppend(h, before, line + after);
  }

  // The fold as the launcher runs it.

  /** Lists the entries of the map; the order is not specified. */
  method ListRows(m: Daily) returns (rows: seq<Row>)
    ensures Enumerates(rows, m)
  {
    rows := [];
    var left := m.Keys;
    while left != {}
      invariant left <= m.Keys
      invariant forall i, j | 0 <= i < j < |rows| :: rows[i].group != rows[j].group
      invariant forall i | 0 <= i < |rows| :: rows[i].group !in left
      invariant Collect(rows) == m - left
      decreases |left|
    {
      var g :| g in left;
      ghost var before := rows;
      rows := rows + [Row(g, m[g])];
      assert rows[..|before|] == before;
      assert (m - left)[g := m[g]] == m - (left - {g});
      left := left - {g};
    }
  }

  /** Re-adds the rows of a checkpoint to an empty map. */
  method Reseed(rows: seq<Row>) returns (daily: Daily)
    ensures daily == AddRows(map[], rows)
  {
    daily := map[];
    for i := 0 to |rows|
      invariant daily == AddRows(map[], rows[..i])
    {
      assert rows[..i + 1][..i] == rows[..i];
      daily := AddDaily(daily, rows[i].group, rows[i].buckets, true);
    }
    assert rows[..|rows|] == rows;
  }

  /** One event, as the loop body handles it: the fields of the running fold are updated one at a time. */
  method TakeEvent(day: real -> string, f: Fold, event: Event) returns (r: Fold)
    ensures r == Apply(day, f, event)
  {
    r := f;
    match event {
      case Session(id, created) =>
        if id.Some? { r := r.(sessionId := id.value); }
        if created.Some? { r := r.(createdAt := created.value); }
      case TurnStart => r := r.(turns := r.turns + 1);
      case StepStart => r := r.(steps := r.steps + 1);
      case Header(model, provider) =>
        if model.Some? {
          if r.model.None? { r := r.(model := model); }
          r := r.(currentModel := model);
        }
        if provider.Some? { r := r.(provider := provider); }
      case Prompt(excerpt) =>
        if r.firstPrompt.None? { r := r.(firstPrompt := excerpt); }
      case Retry(key) =>
        if r.last.Some? && key == Some(r.last.value.key) { r := r.(last := None); }
      case Usage(key, buckets, time) =>
        var continues := r.last.Some? && r.last.value.key == key;
        if continues && r.last.value.buckets == buckets { return; }
        if continues {
          var slot := r.last.value;
          r := r.(totals := Minus(r.totals, slot.buckets));
          if slot.home.Some? {
            r := r.(daily := AddDaily(r.daily, slot.home.value, slot.buckets, false));
          }
        }
        r := r.(totals := Plus(r.totals, buckets));
        var home := GroupOf(day, time, r.currentModel);
        if home.Some? {
          r := r.(daily := AddDaily(r.daily, home.value, buckets, true));
        }
        r := r.(last := Some(Report(key, buckets, home)));
      case Other =>
    }
  }

  lemma FoldNextLine(day: real -> string, f: Fold, read: seq<Line>, i: nat)
    requires i < |read|
    ensures FoldEvents(day, f, Entries(read[..i + 1])) ==
              var before := FoldEvents(day, f, Entries(read[..i]));
              if read[i].Entry? then Apply(day, before, read[i].event) else before
  {
    var es := Entries(read[..i]);
    assert read[..i + 1][..i] == read[..i];
    if read[i].Entry? {
      assert Entries(read[..i + 1]) == es + [read[i].event];
      assert (es + [read[i].event])[..|es|] == es;
    }
  }

  /** The loop over the lines. */
  method FoldLines(h: Host, start: Fold, lines: seq<string>) returns (r: Option<Fold>)
    ensures var read := ReadLines(h, lines);
            r == if Poison in read then None else Some(FoldEvents(h.localDay, start, Entries(read)))
  {
    var f := start;
    ghost var read := ReadLines(h, lines);
    for i := 0 to |lines|
      invariant f == FoldEvents(h.localDay, start, Entries(read[..i]))
      invariant Poison !in read[..i]
    {
      FoldNextLine(h.localDay, start, read, i);
      var line := ReadLine(h, lines[i]);
      assert line == read[i];
      if line.Poison? { return None; }
      if line.Entry? { f := TakeEvent(h.localDay, f, line.event); }
    }
    assert read[..|lines|] == read;
    r := Some(f);
  }

  /** Folds one text, continuing from a checkpoint when there is one. */
  method FoldSessionLog(h: Host, text: string, seed: Option<Checkpoint>) returns (r: Option<Checkpoint>)
    ensures var start := if seed.Some? then Seeded(seed.value) else EMPTY;
            match FoldText(h, start, text)
            case None => r.None?
            case Some(f) => r.Some? && Saves(r.value, f)
  {
    var start := EMPTY;
    if seed.Some? {
      var c := seed.value;
      var daily := Reseed(c.rows);
      start := Fold(c.folded.totals, c.last, daily, c.folded.sessionId, c.folded.createdAt, c.folded.turns, c.folded.steps,
                    c.folded.model, Or(c.currentModel, c.folded.model), c.folded.provider, c.folded.firstPrompt);
    }
    var folded := FoldLines(h, start, Split(text));
    if folded.None? { return None; }
    var f := folded.value;
    var rows := ListRows(f.daily);
    r := Some(Checkpoint(Folded(f.sessionId, f.createdAt, f.turns, f.steps, f.model, f.provider, f.firstPrompt, f.totals),
                         rows, f.currentModel, f.last));
  }
}
