/**
 Reading one DSH session log: lines, JSON values, and the events the usage fold reacts to.

 What the launcher takes from its host is a parameter: JSON parsing, the local calendar day of
 a timestamp, and the display excerpt of a prompt. Every theorem holds for all such hosts.
 */
module SessionEvents {
  import opened Common
  import Strings

  datatype Json =
    | Null
    | Bool(flag: bool)
    | Num(number: real)
    | Str(text: string)
    | Arr(items: seq<Json>)
    | Obj(fields: map<string, Json>)

  /** The host services the fold calls; each is any total function. */
  datatype Host = Host(parse: string -> Option<Json>, localDay: real -> string, excerpt: string -> string)

  /** The four disjoint billing buckets. They are integers, so that staying non-negative is a theorem. */
  datatype Buckets = Buckets(uncachedInput: int, output: int, cacheRead: int, cacheWrite: int)

  const ZERO := Buckets(0, 0, 0, 0)

  function Plus(a: Buckets, b: Buckets): Buckets {
    Buckets(a.uncachedInput + b.uncachedInput, a.output + b.output, a.cacheRead + b.cacheRead, a.cacheWrite + b.cacheWrite)
  }

  function Minus(a: Buckets, b: Buckets): Buckets {
    Buckets(a.uncachedInput - b.uncachedInput, a.output - b.output, a.cacheRead - b.cacheRead, a.cacheWrite - b.cacheWrite)
  }

  predicate NonNegative(b: Buckets) {
    0 <= b.uncachedInput && 0 <= b.output && 0 <= b.cacheRead && 0 <= b.cacheWrite
  }

  /** One step of one turn: what a usage report and a retry are about. */
  datatype StepKey = StepKey(turn: real, step: real)

  datatype Event =
    | Session(id: Option<string>, createdAt: Option<real>)
    | TurnStart
    | StepStart
    | Header(model: Option<string>, provider: Option<string>)
    | Prompt(excerpt: Option<string>)
    | Retry(key: Option<StepKey>)
    | Usage(report: StepKey, buckets: Buckets, time: Option<real>)
    | Other

  /** A property read: undefined unless the value is an object that has the key. */
  function Field(v: Json, key: string): Option<Json> {
    if v.Obj? && key in v.fields then Some(v.fields[key]) else None
  }

  /** `value ?? {}`: null and undefined become the empty object. */
  function OrEmpty(v: Option<Json>): Json {
    if v.None? || v.value.Null? then Obj(map[]) else v.value
  }

  function StringOf(v: Option<Json>): Option<string> {
    if v.Some? && v.value.Str? then Some(v.value.text) else None
  }

  function NumberOf(v: Option<Json>): Option<real> {
    if v.Some? && v.value.Num? then Some(v.value.number) else None
  }

  /** `typeof value === 'object' && value !== null`: objects and arrays. */
  predicate IsObject(v: Option<Json>) {
    v.Some? && (v.value.Obj? || v.value.Arr?)
  }

  /** Admits only a positive count, truncated; anything else contributes zero. */
  function CountOf(v: Option<Json>): (n: nat)
    ensures NumberOf(v).Some? && NumberOf(v).value >= 0.0 ==> n as real <= NumberOf(v).value < n as real + 1.0
    ensures NumberOf(v).None? || NumberOf(v).value < 0.0 ==> n == 0
  {
    match NumberOf(v)
    case Some(x) => if x > 0.0 then x.Floor else 0
    case None => 0
  }

  function BucketsOf(usage: Json): (b: Buckets)
    ensures NonNegative(b)
  {
    Buckets(CountOf(Field(usage, "inputTokens")), CountOf(Field(usage, "outputTokens")),
            CountOf(Field(usage, "cacheReadTokens")), CountOf(Field(usage, "cacheWriteTokens")))
  }

  function KeyOf(data: Json): Option<StepKey> {
    var turn, step := NumberOf(Field(data, "turn")), NumberOf(Field(data, "step"));
    if turn.Some? && step.Some? then Some(StepKey(turn.value, step.value)) else None
  }

  /** The usage object carried by a streaming chunk or a finalized message. */
  function UsageOf(kind: string, data: Json): Option<Json> {
    if kind == "assistant/chunk" then
      var chunk := OrEmpty(Field(data, "chunk"));
      if StringOf(Field(chunk, "type")) == Some("usage") then Field(chunk, "usage") else None
    else if kind == "assistant/message" then Field(data, "usage")
    else None
  }

  /** The first text block whose excerpt is not empty. */
  function FirstText(h: Host, blocks: seq<Json>): Option<string> {
    if blocks == [] then None
    else
      var text := StringOf(Field(blocks[0], "text"));
      if StringOf(Field(blocks[0], "type")) == Some("text") && text.Some? && h.excerpt(text.value) != ""
      then Some(h.excerpt(text.value))
      else FirstText(h, blocks[1..])
  }

  /** Sorts one parsed line into the events the fold distinguishes. */
  function EventOf(h: Host, v: Json): Event {
    var data := OrEmpty(Field(v, "data"));
    match StringOf(Field(v, "type"))
    case None => Other
    case Some(kind) =>
      if kind == "session" then Session(StringOf(Field(v, "id")), NumberOf(Field(v, "createdAt")))
      else if kind == "turn/start" then TurnStart
      else if kind == "step/start" then StepStart
      else if kind == "request/header" then
        var config := Field(OrEmpty(Field(data, "header")), "config");
        if IsObject(config)
        then Header(StringOf(Field(config.value, "model")), StringOf(Field(config.value, "provider")))
        else Header(None, None)
      else if kind == "user/message" then
        var content := Field(data, "content");
        Prompt(if content.Some? && content.value.Arr? then FirstText(h, content.value.items) else None)
      else if kind == "llm/retry-started" then Retry(KeyOf(data))
      else
        var usage, key := UsageOf(kind, data), KeyOf(data);
        if IsObject(usage) && key.Some?
        then Usage(key.value, BucketsOf(usage.value), NumberOf(Field(v, "time")))
        else Other
  }

  // What the fields of a line decide.

  /** The value found by following keys from object to object; null and missing values lead nowhere. */
  function Found(v: Option<Json>, keys: seq<string>): Option<Json>
    decreases |keys|
  {
    if keys == [] || v.None? then v else Found(Field(v.value, keys[0]), keys[1..])
  }

  /** The type of a line decides its kind of event; reports need more than the type. */
  lemma KindDecides(h: Host, v: Json)
    ensures var kind := StringOf(Field(v, "type"));
            && (EventOf(h, v).Session? <==> kind == Some("session"))
            && (EventOf(h, v).TurnStart? <==> kind == Some("turn/start"))
            && (EventOf(h, v).StepStart? <==> kind == Some("step/start"))
            && (EventOf(h, v).Header? <==> kind == Some("request/header"))
            && (EventOf(h, v).Prompt? <==> kind == Some("user/message"))
            && (EventOf(h, v).Retry? <==> kind == Some("llm/retry-started"))
  {
  }

  lemma FoundStep(v: Json, key: string, keys: seq<string>)
    ensures Found(Some(v), [key] + keys) == Found(Field(v, key), keys)
  {
    assert ([key] + keys)[1..] == keys;
  }

  lemma FoundTwo(v: Json, a: string, b: string)
    ensures Found(Some(v), [a, b]) == if Field(v, a).Some? then Field(Field(v, a).value, b) else None
  {
    FoundStep(v, a, [b]);
    if Field(v, a).Some? { FoundStep(Field(v, a).value, b, []); }
    assert [a] + [b] == [a, b] && [b] + [] == [b];
  }

  lemma FoundThree(v: Json, a: string, b: string, c: string)
    ensures Found(Some(v), [a, b, c]) == if Field(v, a).Some? then Found(Some(Field(v, a).value), [b, c]) else None
  {
    FoundStep(v, a, [b, c]);
    assert [a] + [b, c] == [a, b, c];
  }

  /** Where a report stands: in the usage chunk of a streaming event or in a finalized message. */
  function UsageAt(v: Json): Option<Json> {
    match StringOf(Found(Some(v), ["type"]))
    case None => None
    case Some(kind) =>
      if kind == "assistant/chunk" && StringOf(Found(Some(v), ["data", "chunk", "type"])) == Some("usage")
      then Found(Some(v), ["data", "chunk", "usage"])
      else if kind == "assistant/message" then Found(Some(v), ["data", "usage"])
      else None
  }

  lemma UsageFound(v: Json)
    ensures StringOf(Field(v, "type")).Some? ==>
              UsageOf(StringOf(Field(v, "type")).value, OrEmpty(Field(v, "data"))) == UsageAt(v)
    ensures StringOf(Field(v, "type")).None? ==> UsageAt(v).None?
  {
    FoundStep(v, "type", []);
    assert ["type"] + [] == ["type"];
    FoundTwo(v, "data", "usage");
    FoundThree(v, "data", "chunk", "type");
    FoundThree(v, "data", "chunk", "usage");
    if Field(v, "data").Some? {
      FoundTwo(Field(v, "data").value, "chunk", "type");
      FoundTwo(Field(v, "data").value, "chunk", "usage");
    }
  }

  lemma KeyFound(v: Json)
    ensures var turn, step := NumberOf(Found(Some(v), ["data", "turn"])), NumberOf(Found(Some(v), ["data", "step"]));
            KeyOf(OrEmpty(Field(v, "data"))) == if turn.Some? && step.Some? then Some(StepKey(turn.value, step.value)) else None
  {
    FoundTwo(v, "data", "turn");
    FoundTwo(v, "data", "step");
  }

  /** A line is a report exactly when a usage object stands in its place and the step it is about is numbered; its parts come from there. */
  lemma ReportIff(h: Host, v: Json)
    ensures var turn, step := NumberOf(Found(Some(v), ["data", "turn"])), NumberOf(Found(Some(v), ["data", "step"]));
            && (EventOf(h, v).Usage? <==> IsObject(UsageAt(v)) && turn.Some? && step.Some?)
            && (EventOf(h, v).Usage? ==>
                  EventOf(h, v) == Usage(StepKey(turn.value, step.value), BucketsOf(UsageAt(v).value), NumberOf(Field(v, "time"))))
  {
    UsageFound(v);
    KeyFound(v);
    KindDecides(h, v);
  }

  /** A block of a prompt that has text to show. */
  predicate HasText(h: Host, block: Json) {
    && StringOf(Field(block, "type")) == Some("text") && StringOf(Field(block, "text")).Some?
    && h.excerpt(StringOf(Field(block, "text")).value) != ""
  }

  /** The prompt is that of the first block with text to show. */
  lemma {:induction false} FirstTextIsFirst(h: Host, blocks: seq<Json>, i: nat)
    requires i < |blocks| && HasText(h, blocks[i]) && forall j | 0 <= j < i :: !HasText(h, blocks[j])
    ensures FirstText(h, blocks) == Some(h.excerpt(StringOf(Field(blocks[i], "text")).value))
  {
    if i > 0 {
      assert blocks[1..][i - 1] == blocks[i] && forall j | 0 <= j < i - 1 :: blocks[1..][j] == blocks[j + 1];
      assert !HasText(h, blocks[0]);
      FirstTextIsFirst(h, blocks[1..], i - 1);
    }
  }

  lemma {:induction false} NoTextNoPrompt(h: Host, blocks: seq<Json>)
    requires forall j | 0 <= j < |blocks| :: !HasText(h, blocks[j])
    ensures FirstText(h, blocks).None?
  {
    if blocks != [] {
      assert !HasText(h, blocks[0]);
      assert forall j | 0 <= j < |blocks[1..]| :: blocks[1..][j] == blocks[j + 1];
      NoTextNoPrompt(h, blocks[1..]);
    }
  }

  // How DSH writes the events, and that they are read back.

  function With(fields: map<string, Json>, key: string, v: Option<Json>): map<string, Json> {
    if v.Some? then fields[key := v.value] else fields
  }

  function Text(s: Option<string>): Option<Json> {
    if s.Some? then Some(Str(s.value)) else None
  }

  function Number(x: Option<real>): Option<Json> {
    if x.Some? then Some(Num(x.value)) else None
  }

  function Envelope(kind: string, data: Json, time: Option<real>): Json {
    Obj(With(map["type" := Str(kind), "data" := data], "time", Number(time)))
  }

  function Tokens(b: Buckets): Json {
    Obj(map["inputTokens" := Num(b.uncachedInput as real), "outputTokens" := Num(b.output as real),
            "cacheReadTokens" := Num(b.cacheRead as real), "cacheWriteTokens" := Num(b.cacheWrite as real)])
  }

  function Key(key: StepKey): map<string, Json> {
    map["turn" := Num(key.turn), "step" := Num(key.step)]
  }

  /** One event as a JSON value; a usage report travels in a streaming chunk or in a finalized message. */
  function Render(e: Event, streamed: bool): Json {
    match e
    case Session(id, createdAt) => Obj(With(With(map["type" := Str("session")], "id", Text(id)), "createdAt", Number(createdAt)))
    case TurnStart => Envelope("turn/start", Null, None)
    case StepStart => Envelope("step/start", Null, None)
    case Header(model, provider) =>
      var config := Obj(With(With(map[], "model", Text(model)), "provider", Text(provider)));
      Envelope("request/header", Obj(map["header" := Obj(map["config" := config])]), None)
    case Prompt(excerpt) =>
      var block := Obj(With(map["type" := Str("text")], "text", Text(excerpt)));
      Envelope("user/message", Obj(map["content" := Arr([block])]), None)
    case Retry(key) => Envelope("llm/retry-started", if key.Some? then Obj(Key(key.value)) else Null, None)
    case Usage(key, buckets, time) =>
      if streamed then
        var chunk := Obj(map["type" := Str("usage"), "usage" := Tokens(buckets)]);
        Envelope("assistant/chunk", Obj(Key(key)["chunk" := chunk]), time)
      else Envelope("assistant/message", Obj(Key(key)["usage" := Tokens(buckets)]), time)
    case Other => Obj(map[])
  }

  /** What a reader can give back: counts are not negative, and an excerpt is its own excerpt. */
  predicate Restorable(h: Host, e: Event) {
    match e
    case Usage(_, buckets, _) => NonNegative(buckets)
    case Prompt(Some(text)) => text != "" && h.excerpt(text) == text
    case _ => true
  }

  lemma TokensRead(b: Buckets)
    requires NonNegative(b)
    ensures BucketsOf(Tokens(b)) == b
  {
  }

  lemma EnvelopeRead(kind: string, data: Json, time: Option<real>)
    ensures var v := Envelope(kind, data, time);
            StringOf(Field(v, "type")) == Some(kind) && Field(v, "data") == Some(data) && NumberOf(Field(v, "time")) == time
  {
  }

  lemma ChunkRead(key: StepKey, b: Buckets)
    ensures var data := Obj(Key(key)["chunk" := Obj(map["type" := Str("usage"), "usage" := Tokens(b)])]);
            KeyOf(data) == Some(key) && UsageOf("assistant/chunk", data) == Some(Tokens(b))
  {
  }

  lemma MessageRead(key: StepKey, b: Buckets)
    ensures var data := Obj(Key(key)["usage" := Tokens(b)]);
            KeyOf(data) == Some(key) && UsageOf("assistant/message", data) == Some(Tokens(b))
  {
  }

  lemma ReportRead(h: Host, kind: string, data: Json, key: StepKey, b: Buckets, time: Option<real>)
    requires kind in {"assistant/chunk", "assistant/message"} && NonNegative(b)
    requires data.Obj? && KeyOf(data) == Some(key) && UsageOf(kind, data) == Some(Tokens(b))
    ensures EventOf(h, Envelope(kind, data, time)) == Usage(key, b, time)
  {
    EnvelopeRead(kind, data, time);
    TokensRead(b);
  }

  lemma UsageRead(h: Host, key: StepKey, b: Buckets, time: Option<real>, streamed: bool)
    requires NonNegative(b)
    ensures EventOf(h, Render(Usage(key, b, time), streamed)) == Usage(key, b, time)
  {
    if streamed {
      ChunkRead(key, b);
      var chunk := Obj(map["type" := Str("usage"), "usage" := Tokens(b)]);
      ReportRead(h, "assistant/chunk", Obj(Key(key)["chunk" := chunk]), key, b, time);
    } else {
      MessageRead(key, b);
      ReportRead(h, "assistant/message", Obj(Key(key)["usage" := Tokens(b)]), key, b, time);
    }
  }

  lemma PromptRead(h: Host, excerpt: Option<string>)
    requires Restorable(h, Prompt(excerpt))
    ensures EventOf(h, Render(Prompt(excerpt), false)) == Prompt(excerpt)
  {
    var block := Obj(With(map["type" := Str("text")], "text", Text(excerpt)));
    assert [block][1..] == [];
    assert FirstText(h, [block]) == excerpt;
  }

  lemma HeaderRead(h: Host, model: Option<string>, provider: Option<string>)
    ensures EventOf(h, Render(Header(model, provider), false)) == Header(model, provider)
  {
  }

  /** Every event is read back as it was written, each field from its own key. */
  lemma EventRoundTrip(h: Host, e: Event, streamed: bool)
    requires Restorable(h, e)
    ensures EventOf(h, Render(e, streamed)) == e
  {
    match e
    case Usage(key, buckets, time) => UsageRead(h, key, buckets, time, streamed);
    case Prompt(excerpt) => PromptRead(h, excerpt);
    case Header(model, provider) => HeaderRead(h, model, provider);
    case _ =>
  }

  lemma SameFields(v: Json, w: Json, key: string)
    requires v.Obj? && w.Obj? && (key in v.fields <==> key in w.fields) && (key in v.fields ==> v.fields[key] == w.fields[key])
    ensures Field(v, key) == Field(w, key)
  {
  }

  /** Five keys decide what a line means; any other field may be added to it, changed or left out. */
  lemma OtherFieldsDoNotMatter(h: Host, fields: map<string, Json>, key: string, x: Json)
    requires key !in {"type", "data", "id", "createdAt", "time"}
    ensures EventOf(h, Obj(fields[key := x])) == EventOf(h, Obj(fields))
  {
    var v, w := Obj(fields[key := x]), Obj(fields);
    SameFields(v, w, "type");
    SameFields(v, w, "data");
    SameFields(v, w, "id");
    SameFields(v, w, "createdAt");
    SameFields(v, w, "time");
  }

  /** What one line is to the fold: nothing, an event, or the value `null`, on which it throws. */
  datatype Line = Blank | Poison | Entry(event: Event)

  function ReadLine(h: Host, line: string): Line {
    if line == "" then Blank
    else match h.parse(line)
      case None => Blank
      case Some(v) => if v.Null? then Poison else Entry(EventOf(h, v))
  }

  /** The lines of a text, as `text.split('\n')` gives them. */
  function Split(text: string): (lines: seq<string>)
    ensures lines != []
  {
    Strings.Split(text, '\n')
  }

  function ReadLines(h: Host, lines: seq<string>): (r: seq<Line>)
    ensures |r| == |lines|
    ensures forall i | 0 <= i < |r| :: r[i] == ReadLine(h, lines[i])
  {
    seq(|lines|, i requires 0 <= i < |lines| => ReadLine(h, lines[i]))
  }

  function Entries(lines: seq<Line>): (es: seq<Event>) {
    if lines == [] then []
    else if lines[|lines| - 1].Entry? then Entries(lines[..|lines| - 1]) + [lines[|lines| - 1].event]
    else Entries(lines[..|lines| - 1])
  }

  /** The events of a text, in order; lines that are empty or unparsable carry none. */
  function EventsOf(h: Host, text: string): seq<Event> {
    Entries(ReadLines(h, Split(text)))
  }

  /** Whether some line is the JSON value `null`. */
  predicate Poisoned(h: Host, text: string) {
    Poison in ReadLines(h, Split(text))
  }

  /** A text whose every line is complete. */
  predicate WholeLines(text: string) {
    text == "" || text[|text| - 1] == '\n'
  }

  lemma SplitAppend(a: string, b: string)
    requires WholeLines(a)
    ensures Split(a)[|Split(a)| - 1] == ""
    ensures Split(a + b) == Split(a)[..|Split(a)| - 1] + Split(b)
  {
    if a == "" {
      assert a + b == b;
    } else {
      var body := a[..|a| - 1];
      assert a == body + ['\n'] + "" && a + b == body + ['\n'] + b;
      Strings.SplitAtSeparator(body, "", '\n');
      Strings.SplitAtSeparator(body, b, '\n');
      assert Split(a) == Split(body) + [""];
    }
  }

  lemma {:induction false} EntriesConcat(a: seq<Line>, b: seq<Line>)
    ensures Entries(a + b) == Entries(a) + Entries(b)
  {
    if b == [] {
      assert a + b == a;
    } else {
      EntriesConcat(a, b[..|b| - 1]);
      assert (a + b)[..|a + b| - 1] == a + b[..|b| - 1];
    }
  }

  lemma ReadConcat(h: Host, a: seq<string>, b: seq<string>)
    ensures ReadLines(h, a + b) == ReadLines(h, a) + ReadLines(h, b)
  {
  }

  lemma ReadEmpty(h: Host)
    ensures ReadLines(h, [""]) == [Blank] && Entries([Blank]) == []
  {
    assert [Blank][..0] == [];
  }

  /** The lines of a text of whole lines, without the empty one after its last newline. */
  lemma ReadWhole(h: Host, a: string, b: string) returns (head: seq<Line>)
    requires WholeLines(a)
    ensures ReadLines(h, Split(a)) == head + [Blank]
    ensures ReadLines(h, Split(a + b)) == head + ReadLines(h, Split(b))
  {
    SplitAppend(a, b);
    var lines := Split(a)[..|Split(a)| - 1];
    assert Split(a) == lines + [""];
    ReadConcat(h, lines, [""]);
    ReadConcat(h, lines, Split(b));
    ReadEmpty(h);
    head := ReadLines(h, lines);
  }

  /** Appending to a text of whole lines appends its events and never changes an earlier one. */
  lemma EventsAppend(h: Host, a: string, b: string)
    requires WholeLines(a)
    ensures EventsOf(h, a + b) == EventsOf(h, a) + EventsOf(h, b)
    ensures Poisoned(h, a + b) <==> Poisoned(h, a) || Poisoned(h, b)
  {
    var head := ReadWhole(h, a, b);
    EntriesConcat(head, ReadLines(h, Split(b)));
    EntriesConcat(head, [Blank]);
    ReadEmpty(h);
  }
}
