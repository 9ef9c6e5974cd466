/**
 Reading session logs through the folded-session cache while DSH keeps appending to them.

 A log is a sequence of zstd frames, and the compressed file is their concatenation. The decoder
 is a parameter; what is asked of it is that a frame followed by anything decodes to the text of
 that frame and reports its length as consumed. One machine describes one log file: appends, any
 number of overlapping reads split at their awaits, and a cache document that may also be lost.
 */
module UsageCache {
  import opened Common
  import opened SessionEvents
  import opened UsageFold

  type Bytes = seq<bv8>

  datatype Decoded = Corrupt | Decoded(out: string, consumed: int)

  datatype Env = Env(host: Host, decode: Bytes -> Decoded)

  datatype Frame = Frame(bytes: Bytes, text: string)

  /** The text decoded from an offset, and the offset reached; None when a frame does not decode. */
  function Frames(decode: Bytes -> Decoded, file: Bytes, offset: nat): Option<(string, nat)>
    decreases if offset < |file| then |file| - offset else 0
  {
    if offset >= |file| then Some(("", offset))
    else match decode(file[offset..])
      case Corrupt => None
      case Decoded(out, consumed) =>
        if consumed <= 0 then Some(("", offset))
        else match Frames(decode, file, offset + consumed)
          case None => None
          case Some((text, reached)) => Some((out + text, reached))
  }

  /** The frame loop; it ends because the remaining bytes shrink. */
  method Decompress(decode: Bytes -> Decoded, file: Bytes, start: nat) returns (r: Option<(string, nat)>)
    ensures r == Frames(decode, file, start)
  {
    var text, offset := "", start;
    assert forall more: string :: "" + more == more;
    while offset < |file|
      invariant match Frames(decode, file, offset)
                case None => Frames(decode, file, start) == None
                case Some((more, reached)) => Frames(decode, file, start) == Some((text + more, reached))
      decreases |file| - offset
    {
      match decode(file[offset..]) {
        case Corrupt => return None;
        case Decoded(out, consumed) =>
          if consumed <= 0 { break; }
          assert forall more :: text + (out + more) == text + out + more;
          text := text + out;
          offset := offset + consumed;
      }
    }
    assert text + "" == text;
    r := Some((text, offset));
  }

  function FileOf(log: seq<Frame>): Bytes {
    if log == [] then [] else log[0].bytes + FileOf(log[1..])
  }

  function TextOf(log: seq<Frame>): string {
    if log == [] then "" else log[0].text + TextOf(log[1..])
  }

  /** DSH appends whole frames of whole lines, and the decoder reads a frame whatever follows it. */
  ghost predicate GoodFrame(env: Env, f: Frame) {
    && f.bytes != [] && WholeLines(f.text)
    && forall tail :: env.decode(f.bytes + tail) == Decoded(f.text, |f.bytes|)
  }

  ghost predicate GoodLog(env: Env, log: seq<Frame>) {
    forall i | 0 <= i < |log| :: GoodFrame(env, log[i])
  }

  lemma {:induction false} ConcatFiles(a: seq<Frame>, b: seq<Frame>)
    ensures FileOf(a + b) == FileOf(a) + FileOf(b)
  {
    if a == [] {
      assert a + b == b;
    } else {
      ConcatFiles(a[1..], b);
      assert (a + b)[1..] == a[1..] + b && (a + b)[0] == a[0];
      Associate(a[0].bytes, FileOf(a[1..]), FileOf(b));
    }
  }

  lemma Associate<T>(a: seq<T>, b: seq<T>, c: seq<T>)
    ensures a + (b + c) == (a + b) + c
  {
  }

  lemma {:induction false} ConcatTexts(a: seq<Frame>, b: seq<Frame>)
    ensures TextOf(a + b) == TextOf(a) + TextOf(b)
  {
    if a == [] {
      assert a + b == b;
    } else {
      ConcatTexts(a[1..], b);
      assert (a + b)[1..] == a[1..] + b && (a + b)[0] == a[0];
      Associate(a[0].text, TextOf(a[1..]), TextOf(b));
    }
  }

  lemma {:induction false} TextWhole(env: Env, log: seq<Frame>)
    requires GoodLog(env, log)
    ensures WholeLines(TextOf(log))
  {
    if log != [] {
      assert GoodFrame(env, log[0]);
      TextWhole(env, log[1..]);
    }
  }

  /** Decoding from the end of any whole-frame prefix yields exactly the text of the rest. */
  lemma {:induction false} DecodeRest(env: Env, done: seq<Frame>, rest: seq<Frame>)
    requires GoodLog(env, done + rest)
    ensures Frames(env.decode, FileOf(done + rest), |FileOf(done)|) == Some((TextOf(rest), |FileOf(done + rest)|))
    decreases |rest|
  {
    var file := FileOf(done + rest);
    ConcatFiles(done, rest);
    if rest == [] {
      assert done + rest == done;
    } else {
      var f := rest[0];
      assert GoodFrame(env, (done + rest)[|done|]);
      assert file[|FileOf(done)|..] == f.bytes + FileOf(rest[1..]);
      assert done + [f] + rest[1..] == done + rest;
      ConcatFiles(done, [f]);
      assert FileOf([f]) == f.bytes + FileOf([]) == f.bytes;
      DecodeRest(env, done + [f], rest[1..]);
    }
  }

  // One log file and its cache entry.

  datatype CacheEntry = CacheEntry(size: nat, mtime: real, consumed: nat, saved: Checkpoint)

  /** A read at one of its awaits. `from` and `to` are the log lengths seen by stat and by the file read. */
  datatype Phase =
    | Loaded(cache: Option<CacheEntry>)
    | Waiting(cache: Option<CacheEntry>, size: nat, mtime: real, from: nat)
    | Done(entry: Option<CacheEntry>, report: Option<Checkpoint>, from: nat, to: nat)

  datatype State = State(log: seq<Frame>, mtime: real, disk: Option<CacheEntry>, readers: map<nat, Phase>)

  datatype Action =
    | Append(frame: Frame, mtime: real)
    | Touch(mtime: real)
    | Load(id: nat)
    | Stat(id: nat)
    | ReadFile(id: nat, out: Option<Checkpoint>)
    | Store(id: nat)
    | Lose

  /** What one file read may produce: nothing on a decoding or folding error, else the saved fold. */
  ghost predicate Produces(env: Env, file: Bytes, resume: Option<CacheEntry>, out: Option<Checkpoint>) {
    match Frames(env.decode, file, if resume.Some? then resume.value.consumed else 0)
    case None => out.None?
    case Some((text, _)) =>
      match FoldText(env.host, if resume.Some? then Seeded(resume.value.saved) else EMPTY, text)
      case None => out.None?
      case Some(f) => out.Some? && Saves(out.value, f)
  }

  function Reached(env: Env, file: Bytes, resume: Option<CacheEntry>): nat {
    match Frames(env.decode, file, if resume.Some? then resume.value.consumed else 0)
    case None => 0
    case Some((_, reached)) => reached
  }

  /** An unchanged log is served from the cache. */
  predicate Hit(cache: Option<CacheEntry>, size: nat, mtime: real) {
    cache.Some? && cache.value.size == size && cache.value.mtime == mtime
  }

  /** A grown log resumes where the cached fold ended; anything else starts over. */
  function Resumable(cache: Option<CacheEntry>, size: nat): Option<CacheEntry> {
    if cache.Some? && size > cache.value.size then cache else None
  }

  /** The part of one read after its file is loaded. */
  method ReadSession(env: Env, cache: Option<CacheEntry>, size: nat, mtime: real, file: Bytes)
    returns (out: Option<Checkpoint>, entry: Option<CacheEntry>)
    ensures Produces(env, file, Resumable(cache, size), out)
    ensures entry == if out.Some? then Some(CacheEntry(size, mtime, Reached(env, file, Resumable(cache, size)), out.value)) else None
  {
    var resume := Resumable(cache, size);
    var start := if resume.Some? then resume.value.consumed else 0;
    var decoded := Decompress(env.decode, file, start);
    if decoded.None? { return None, None; }
    var (text, consumed) := decoded.value;
    out := FoldSessionLog(env.host, text, if resume.Some? then Some(resume.value.saved) else None);
    entry := if out.Some? then Some(CacheEntry(size, mtime, consumed, out.value)) else None;
  }

  /** What one read may produce of a file, from the start. */
  ghost predicate FoldsWhole(env: Env, file: Bytes, out: Option<Checkpoint>) {
    match Frames(env.decode, file, 0)
    case None => out.None?
    case Some((text, _)) =>
      match FoldText(env.host, EMPTY, text)
      case None => out.None?
      case Some(f) => out.Some? && Saves(out.value, f)
  }

  /**
   One whole read. An unchanged log is served from the cache, which stays as it is. Whatever the file holds, a
   log that changed without growing, or has no entry, is folded from the start, and only a longer one is resumed.
   */
  method ReadLog(env: Env, cache: Option<CacheEntry>, size: nat, mtime: real, file: Bytes)
    returns (out: Option<Checkpoint>, entry: Option<CacheEntry>)
    ensures cache.Some? && cache.value.size == size && cache.value.mtime == mtime ==> out == Some(cache.value.saved) && entry == cache
    ensures cache.None? || (size <= cache.value.size && (size, mtime) != (cache.value.size, cache.value.mtime)) ==> FoldsWhole(env, file, out)
    ensures cache.Some? && size > cache.value.size ==> Produces(env, file, cache, out)
    ensures entry.Some? <==> out.Some?
    ensures entry.Some? ==> entry.value.size == size && entry.value.mtime == mtime && entry.value.saved == out.value
    ensures entry.Some? && entry != cache ==>
              var from := if cache.Some? && size > cache.value.size then cache.value.consumed else 0;
              Frames(env.decode, file, from).Some? && entry.value.consumed == Frames(env.decode, file, from).value.1
  {
    if Hit(cache, size, mtime) { return Some(cache.value.saved), cache; }
    out, entry := ReadSession(env, cache, size, mtime, file);
  }

  ghost predicate Step(env: Env, s: State, a: Action, s': State) {
    match a
    case Append(frame, mtime) => GoodFrame(env, frame) && s' == s.(log := s.log + [frame], mtime := mtime)
    case Touch(mtime) => s' == s.(mtime := mtime)
    case Load(id) => s' == s.(readers := s.readers[id := Loaded(s.disk)])
    case Stat(id) =>
      && id in s.readers && s.readers[id].Loaded?
      && var cache, size, n := s.readers[id].cache, |FileOf(s.log)|, |s.log|;
         s' == s.(readers := s.readers[id := if Hit(cache, size, s.mtime)
                                         then Done(cache, Some(cache.value.saved), n, n)
                                         else Waiting(cache, size, s.mtime, n)])
    case ReadFile(id, out) =>
      && id in s.readers && s.readers[id].Waiting?
      && var w, file := s.readers[id], FileOf(s.log);
         var resume := Resumable(w.cache, w.size);
         && Produces(env, file, resume, out)
         && var entry := if out.Some? then Some(CacheEntry(w.size, w.mtime, Reached(env, file, resume), out.value)) else None;
            s' == s.(readers := s.readers[id := Done(entry, out, w.from, |s.log|)])
    case Store(id) => id in s.readers && s.readers[id].Done? && s' == s.(disk := s.readers[id].entry)
    case Lose => s' == s.(disk := None)
  }

  /** The report is the full fold of the first `k` frames; none is given when that fold throws. */
  ghost predicate IsFullFold(env: Env, log: seq<Frame>, k: nat, report: Option<Checkpoint>)
    requires k <= |log|
  {
    match FoldText(env.host, EMPTY, TextOf(log[..k]))
    case None => report.None?
    case Some(f) => report.Some? && Saves(report.value, f)
  }

  /** An entry is the full fold of some prefix, ends where that prefix ends, and never claims a larger file. */
  ghost predicate EntryOk(env: Env, log: seq<Frame>, e: CacheEntry) {
    exists k: nat :: k <= |log| && e.consumed == |FileOf(log[..k])| && e.size <= e.consumed
                     && IsFullFold(env, log, k, Some(e.saved))
  }

  ghost predicate CacheOk(env: Env, log: seq<Frame>, e: Option<CacheEntry>) {
    e.Some? ==> EntryOk(env, log, e.value)
  }

  /** The claim of a finished read: its report is exact for a moment between its stat and its file read. */
  ghost predicate Exact(env: Env, log: seq<Frame>, p: Phase)
    requires p.Done?
  {
    p.from <= p.to <= |log| && exists k: nat :: p.from <= k <= p.to && IsFullFold(env, log, k, p.report)
  }

  ghost predicate PhaseOk(env: Env, log: seq<Frame>, p: Phase) {
    match p
    case Loaded(cache) => CacheOk(env, log, cache)
    case Waiting(cache, size, _, from) => CacheOk(env, log, cache) && from <= |log| && size == |FileOf(log[..from])|
    case Done(entry, _, _, _) => CacheOk(env, log, entry) && Exact(env, log, p)
  }

  ghost predicate Inv(env: Env, s: State) {
    && GoodLog(env, s.log)
    && CacheOk(env, s.log, s.disk)
    && forall id | id in s.readers :: PhaseOk(env, s.log, s.readers[id])
  }

  // Appending keeps every earlier fact.

  lemma PrefixKept(log: seq<Frame>, f: Frame, k: nat)
    requires k <= |log|
    ensures (log + [f])[..k] == log[..k]
  {
  }

  lemma EntryKept(env: Env, log: seq<Frame>, f: Frame, e: CacheEntry)
    requires EntryOk(env, log, e)
    ensures EntryOk(env, log + [f], e)
  {
    var k: nat :| k <= |log| && e.consumed == |FileOf(log[..k])| && e.size <= e.consumed && IsFullFold(env, log, k, Some(e.saved));
    PrefixKept(log, f, k);
  }

  lemma CacheKept(env: Env, log: seq<Frame>, f: Frame, e: Option<CacheEntry>)
    requires CacheOk(env, log, e)
    ensures CacheOk(env, log + [f], e)
  {
    if e.Some? { EntryKept(env, log, f, e.value); }
  }

  lemma PhaseKept(env: Env, log: seq<Frame>, f: Frame, p: Phase)
    requires PhaseOk(env, log, p)
    ensures PhaseOk(env, log + [f], p)
  {
    match p {
      case Loaded(cache) => CacheKept(env, log, f, cache);
      case Waiting(cache, _, _, from) =>
        CacheKept(env, log, f, cache);
        PrefixKept(log, f, from);
      case Done(entry, report, from, to) =>
        CacheKept(env, log, f, entry);
        var k: nat :| from <= k <= to && IsFullFold(env, log, k, report);
        PrefixKept(log, f, k);
        assert IsFullFold(env, log + [f], k, report);
    }
  }

  lemma {:induction false} FileGrows(env: Env, log: seq<Frame>, k: nat)
    requires GoodLog(env, log) && k <= |log|
    ensures |FileOf(log[..k])| <= |FileOf(log)|
    ensures |FileOf(log[..k])| == |FileOf(log)| ==> k == |log|
  {
    ConcatFiles(log[..k], log[k..]);
    assert log[..k] + log[k..] == log;
    if k < |log| {
      assert GoodFrame(env, log[k]);
      assert log[k..][0] == log[k];
    }
  }

  /** A cache hit serves a fold of the whole log: an entry of the current size has read all of it. */
  lemma HitIsWhole(env: Env, s: State, e: CacheEntry)
    requires Inv(env, s) && EntryOk(env, s.log, e) && e.size == |FileOf(s.log)|
    ensures IsFullFold(env, s.log, |s.log|, Some(e.saved))
  {
    var k: nat :| k <= |s.log| && e.consumed == |FileOf(s.log[..k])| && e.size <= e.consumed && IsFullFold(env, s.log, k, Some(e.saved));
    FileGrows(env, s.log, k);
  }

  /** Whether it resumes or starts over, a file read produces the full fold of the log it read. */
  lemma ReadIsFull(env: Env, s: State, resume: Option<CacheEntry>, out: Option<Checkpoint>)
    requires GoodLog(env, s.log) && CacheOk(env, s.log, resume)
    requires Produces(env, FileOf(s.log), resume, out)
    ensures IsFullFold(env, s.log, |s.log|, out)
    ensures Reached(env, FileOf(s.log), resume) == |FileOf(s.log)|
  {
    var log := s.log;
    assert log[..|log|] == log;
    if resume.None? {
      assert [] + log == log;
      DecodeRest(env, [], log);
    } else {
      var e := resume.value;
      var k: nat :| k <= |log| && e.consumed == |FileOf(log[..k])| && e.size <= e.consumed && IsFullFold(env, log, k, Some(e.saved));
      assert log[..k] + log[k..] == log;
      DecodeRest(env, log[..k], log[k..]);
      ConcatTexts(log[..k], log[k..]);
      TextWhole(env, log[..k]);
      ResumeIsExact(env.host, TextOf(log[..k]), TextOf(log[k..]), e.saved);
    }
  }

  lemma ReadFileKeeps(env: Env, s: State, id: nat, out: Option<Checkpoint>, s': State)
    requires Inv(env, s) && Step(env, s, ReadFile(id, out), s')
    ensures Inv(env, s')
  {
    var w, log := s.readers[id], s.log;
    assert PhaseOk(env, log, w);
    var resume := Resumable(w.cache, w.size);
    ReadIsFull(env, s, resume, out);
    FileGrows(env, log, w.from);
    assert log[..|log|] == log;
    var p := s'.readers[id];
    assert Exact(env, log, p);
    if out.Some? {
      assert EntryOk(env, log, p.entry.value);
    }
  }

  lemma StepKeeps(env: Env, s: State, a: Action, s': State)
    requires Inv(env, s) && Step(env, s, a, s')
    ensures Inv(env, s')
  {
    match a {
      case Append(frame, _) =>
        CacheKept(env, s.log, frame, s.disk);
        forall id | id in s'.readers ensures PhaseOk(env, s'.log, s'.readers[id]) {
          PhaseKept(env, s.log, frame, s.readers[id]);
        }
      case Touch(_) =>
      case Load(id) =>
      case Stat(id) =>
        assert PhaseOk(env, s.log, s.readers[id]);
        assert s.log[..|s.log|] == s.log;
        if Hit(s.readers[id].cache, |FileOf(s.log)|, s.mtime) {
          HitIsWhole(env, s, s.readers[id].cache.value);
        }
      case ReadFile(id, out) => ReadFileKeeps(env, s, id, out, s');
      case Store(id) => assert PhaseOk(env, s.log, s.readers[id]);
      case Lose =>
    }
  }

  /** A run: a log of good frames, no cache and no read at first, then any steps. */
  ghost predicate Run(env: Env, states: seq<State>, actions: seq<Action>) {
    && |states| == |actions| + 1
    && GoodLog(env, states[0].log) && states[0].disk.None? && states[0].readers == map[]
    && forall i | 0 <= i < |actions| :: Step(env, states[i], actions[i], states[i + 1])
  }

  lemma {:induction false} RunKeeps(env: Env, states: seq<State>, actions: seq<Action>, i: nat)
    requires Run(env, states, actions) && i < |states|
    ensures Inv(env, states[i])
  {
    if i > 0 {
      RunKeeps(env, states, actions, i - 1);
      StepKeeps(env, states[i - 1], actions[i - 1], states[i]);
    }
  }

  /** In every run, every finished read reports the full fold of the log at a moment between its stat and its file read. */
  lemma EveryReadIsExact(env: Env, states: seq<State>, actions: seq<Action>, i: nat, id: nat)
    requires Run(env, states, actions) && i < |states|
    requires id in states[i].readers && states[i].readers[id].Done?
    ensures Exact(env, states[i].log, states[i].readers[id])
  {
    RunKeeps(env, states, actions, i);
    assert PhaseOk(env, states[i].log, states[i].readers[id]);
  }
}
