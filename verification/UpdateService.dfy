/**
 The launcher update service: discovery, download and installer handoff behind a generation fence.
 The asynchronous code is cut at its awaits. Each piece is one method of the class and one function
 on the service's value; runs interleave checks, downloads, progress callbacks, opens and clearing
 callbacks in any order, with any answers from the network and the operating system.
 */
module UpdateService {
  import opened Common

  datatype Release = Release(version: string, asset: string)

  /** The part of an installer address that identifies it: its release tag and file name. */
  datatype Url = Url(tag: string, asset: string)

  predicate Identifies(url: Url, r: Release) {
    url.tag == "v" + r.version && url.asset == r.asset
  }

  datatype Download = NotStarted | Downloading(bytes: nat) | Downloaded | DownloadFailed | HandoffFailed(busy: bool)

  datatype Status = Idle | Checking | UpToDate | Available(release: Release, download: Download) | CheckFailed

  /** The release answer: newer with its selected asset address, not newer, or any failure. */
  datatype Answer = Newer(release: Release, url: Url) | NotNewer | Broken

  /** A download in flight: fetching, handing over to the system, or done with its clearing callback to come. */
  datatype Phase = Fetching | Opening | Landed

  datatype Task = Task(release: Release, generation: nat, phase: Phase)

  /** What the outside sees, in order. `busy` is whether a launcher operation was active at that instant. */
  datatype Event =
    | Completed(release: Release, generation: nat)
    | Opened(release: Release, generation: nat, busy: bool)
    | Succeeded(release: Release, generation: nat)
    | Quit

  datatype Service = Service(
    status: Status, url: Option<Url>, generation: nat,
    pendingCheck: Option<nat>, checks: map<nat, bool>,
    pendingDownload: Option<nat>, tasks: map<nat, Task>,
    next: nat, events: seq<Event>)

  const NEW_SERVICE := Service(Idle, None, 0, None, map[], None, map[], 0, [])

  /** Whether the state still shows the update a download began with. */
  predicate IsCurrent(s: Service, r: Release, g: nat) {
    s.generation == g && s.status.Available? && s.status.release == r
  }

  /** Begins a check unless one is pending; `checks[id]` is true while its request is out. */
  function Check(s: Service, supported: bool): Service {
    if s.pendingCheck.Some? then s
    else s.(generation := s.generation + 1, url := None,
            status := if supported then Checking else CheckFailed,
            pendingCheck := Some(s.next), checks := s.checks[s.next := supported], next := s.next + 1)
  }

  function CheckAnswered(s: Service, id: nat, answer: Answer): Service {
    var landed := s.(checks := s.checks[id := false]);
    match answer
    case NotNewer => landed.(status := UpToDate)
    case Newer(r, url) =>
      if Identifies(url, r) then landed.(url := Some(url), status := Available(r, NotStarted))
      else landed.(url := None, status := CheckFailed)
    case Broken => landed.(url := None, status := CheckFailed)
  }

  function CheckCleared(s: Service, id: nat): Service {
    s.(checks := s.checks - {id}, pendingCheck := if s.pendingCheck == Some(id) then None else s.pendingCheck)
  }

  /** The part of the handoff before the system answers: refused while an operation is active. */
  function Handoff(s: Service, id: nat, t: Task, busy: bool): Service {
    if !IsCurrent(s, t.release, t.generation) then s.(tasks := s.tasks[id := t.(phase := Landed)])
    else if busy then
      s.(status := Available(t.release, HandoffFailed(true)), tasks := s.tasks[id := t.(phase := Landed)])
    else s.(tasks := s.tasks[id := t.(phase := Opening)], events := s.events + [Opened(t.release, t.generation, busy)])
  }

  /** A download request; every early return leaves the service as it is. */
  function Begin(s: Service, busy: bool): Service {
    if !s.status.Available? || s.url.None? || s.pendingDownload.Some? || s.status.download.Downloaded? then s
    else
      var retry := s.status.download.HandoffFailed?;
      if !retry && (busy || !Identifies(s.url.value, s.status.release)) then s
      else
        var t := Task(s.status.release, s.generation, Fetching);
        var begun := s.(pendingDownload := Some(s.next), next := s.next + 1);
        if retry then Handoff(begun, s.next, t, busy)
        else begun.(status := Available(t.release, Downloading(0)), tasks := s.tasks[s.next := t])
  }

  function Progress(s: Service, r: Release, g: nat, bytes: nat): Service {
    if IsCurrent(s, r, g) then s.(status := Available(r, Downloading(bytes))) else s
  }

  function Fetched(s: Service, id: nat, t: Task, busy: bool): Service {
    Handoff(s.(events := s.events + [Completed(t.release, t.generation)]), id, t, busy)
  }

  function FetchFailed(s: Service, id: nat, t: Task): Service {
    var landed := s.(tasks := s.tasks[id := t.(phase := Landed)]);
    if IsCurrent(s, t.release, t.generation) then landed.(status := Available(t.release, DownloadFailed)) else landed
  }

  function OpenAnswered(s: Service, id: nat, t: Task, ok: bool): Service {
    var landed := s.(tasks := s.tasks[id := t.(phase := Landed)]);
    var shown := if !IsCurrent(s, t.release, t.generation) then landed
                 else landed.(status := Available(t.release, if ok then Downloaded else HandoffFailed(false)));
    if ok then shown.(events := s.events + [Succeeded(t.release, t.generation), Quit]) else shown
  }

  function DownloadCleared(s: Service, id: nat): Service {
    s.(tasks := s.tasks - {id}, pendingDownload := if s.pendingDownload == Some(id) then None else s.pendingDownload)
  }

  /** A download in flight stands at this await. */
  predicate Waits(s: Service, id: nat, t: Task, phase: Phase) {
    id in s.tasks && s.tasks[id] == t && t.phase == phase
  }

  /** The same pieces as the object runs them. */
  class LauncherUpdateService {
    const supported: bool
    var status: Status
    var url: Option<Url>
    var generation: nat
    var pendingCheck: Option<nat>
    var checks: map<nat, bool>
    var pendingDownload: Option<nat>
    var tasks: map<nat, Task>
    var next: nat
    var events: seq<Event>

    function Value(): Service
      reads this
    {
      Service(status, url, generation, pendingCheck, checks, pendingDownload, tasks, next, events)
    }

    constructor (platformSupported: bool)
      ensures Value() == NEW_SERVICE && supported == platformSupported && Inv(Value())
    {
      supported := platformSupported;
      status, url, generation, pendingCheck, checks := Idle, None, 0, None, map[];
      pendingDownload, tasks, next, events := None, map[], 0, [];
    }

    method BeginCheck()
      modifies this
      ensures Value() == Check(old(Value()), supported)
      ensures old(pendingCheck).Some? ==> Value() == old(Value())
      ensures old(pendingCheck).None? ==> generation == old(generation) + 1 && url.None? && pendingCheck.Some?
      ensures old(pendingCheck).None? ==> status == if supported then Checking else CheckFailed
      ensures Inv(old(Value())) ==> Inv(Value())
    {
      if Inv(Value()) { CheckKeeps(Value(), supported); }
      if pendingCheck.Some? { return; }
      generation := generation + 1;
      url := None;
      status := Checking;
      if !supported { status := CheckFailed; }
      checks := checks[next := supported];
      pendingCheck := Some(next);
      next := next + 1;
    }

    method AnswerCheck(id: nat, answer: Answer)
      modifies this
      ensures Value() == CheckAnswered(old(Value()), id, answer)
      ensures status.Available? <==> answer.Newer? && Identifies(answer.url, answer.release)
      ensures status.Available? ==> status == Available(answer.release, NotStarted) && url == Some(answer.url)
      ensures !status.Available? ==> status == if answer.NotNewer? then UpToDate else CheckFailed
      ensures Inv(old(Value())) && id in old(checks) && old(checks)[id] ==> Inv(Value())
    {
      if Inv(Value()) && id in checks && checks[id] { AnswerKeeps(Value(), id, answer); }
      checks := checks[id := false];
      match answer {
        case NotNewer => status := UpToDate;
        case Newer(r, u) =>
          if Identifies(u, r) {
            url := Some(u);
            status := Available(r, NotStarted);
          } else {
            url := None;
            status := CheckFailed;
          }
        case Broken =>
          url := None;
          status := CheckFailed;
      }
    }

    method ClearCheck(id: nat)
      modifies this
      ensures Value() == CheckCleared(old(Value()), id)
      ensures old(pendingCheck) != Some(id) ==> pendingCheck == old(pendingCheck)
      ensures status == old(status) && url == old(url) && generation == old(generation)
      ensures Inv(old(Value())) && id in old(checks) && !old(checks)[id] ==> Inv(Value())
    {
      if Inv(Value()) && id in checks && !checks[id] { ClearCheckKeeps(Value(), id); }
      checks := checks - {id};
      if pendingCheck == Some(id) { pendingCheck := None; }
    }

    method OpenDownloaded(id: nat, t: Task, busy: bool)
      modifies this
      ensures Value() == Handoff(old(Value()), id, t, busy)
      ensures events != old(events) ==> !busy && IsCurrent(old(Value()), t.release, t.generation)
      ensures !IsCurrent(old(Value()), t.release, t.generation) ==> status == old(status)
      ensures IsCurrent(old(Value()), t.release, t.generation) ==>
                if busy then status == Available(t.release, HandoffFailed(true)) else events == old(events) + [Opened(t.release, t.generation, false)]
    {
      if !IsCurrent(Value(), t.release, t.generation) {
        tasks := tasks[id := t.(phase := Landed)];
        return;
      }
      if busy {
        status := Available(t.release, HandoffFailed(true));
        tasks := tasks[id := t.(phase := Landed)];
        return;
      }
      tasks := tasks[id := t.(phase := Opening)];
      events := events + [Opened(t.release, t.generation, busy)];
    }

    method BeginDownload(busy: bool)
      modifies this
      ensures Value() == Begin(old(Value()), busy)
      ensures pendingDownload != old(pendingDownload) ==> old(status).Available? && old(url).Some? && old(pendingDownload).None?
      ensures events != old(events) ==> !busy && old(status).Available? && old(status).download.HandoffFailed?
      ensures busy && !(old(status).Available? && old(status).download.HandoffFailed?) ==> Value() == old(Value())
      ensures Inv(old(Value())) ==> Inv(Value())
    {
      if Inv(Value()) { BeginKeeps(Value(), busy); }
      if !status.Available? || url.None? { return; }
      if pendingDownload.Some? { return; }
      if status.download.Downloaded? { return; }
      var retry := status.download.HandoffFailed?;
      if !retry && busy { return; }
      var t := Task(status.release, generation, Fetching);
      var id := next;
      if retry {
        pendingDownload, next := Some(id), next + 1;
        OpenDownloaded(id, t, busy);
      } else {
        if !Identifies(url.value, status.release) { return; }
        status := Available(t.release, Downloading(0));
        tasks := tasks[id := t];
        pendingDownload, next := Some(id), next + 1;
      }
    }

    method ReportProgress(r: Release, g: nat, bytes: nat)
      modifies this
      ensures Value() == Progress(old(Value()), r, g, bytes)
      ensures g != old(generation) ==> Value() == old(Value())
      ensures IsCurrent(old(Value()), r, g) ==> status == Available(r, Downloading(bytes))
      ensures Inv(old(Value())) ==> Inv(Value())
    {
      if Inv(Value()) { ProgressKeeps(Value(), r, g, bytes); }
      if !IsCurrent(Value(), r, g) { return; }
      status := Available(r, Downloading(bytes));
    }

    method FinishFetch(id: nat, t: Task, busy: bool)
      modifies this
      ensures Value() == Fetched(old(Value()), id, t, busy)
      ensures Completed(t.release, t.generation) in events
      ensures t.generation != old(generation) ==> status == old(status) && url == old(url)
      ensures Inv(old(Value())) && Waits(old(Value()), id, t, Fetching) ==> Inv(Value())
    {
      if Inv(Value()) && Waits(Value(), id, t, Fetching) { FetchKeeps(Value(), id, busy); }
      events := events + [Completed(t.release, t.generation)];
      OpenDownloaded(id, t, busy);
    }

    method FailFetch(id: nat, t: Task)
      modifies this
      ensures Value() == FetchFailed(old(Value()), id, t)
      ensures events == old(events) && url == old(url)
      ensures t.generation != old(generation) ==> status == old(status)
      ensures IsCurrent(old(Value()), t.release, t.generation) ==> status == Available(t.release, DownloadFailed)
      ensures Inv(old(Value())) && Waits(old(Value()), id, t, Fetching) ==> Inv(Value())
    {
      if Inv(Value()) && Waits(Value(), id, t, Fetching) { FailKeeps(Value(), id); }
      if IsCurrent(Value(), t.release, t.generation) { status := Available(t.release, DownloadFailed); }
      tasks := tasks[id := t.(phase := Landed)];
    }

    method AnswerOpen(id: nat, t: Task, ok: bool)
      modifies this
      ensures Value() == OpenAnswered(old(Value()), id, t, ok)
      ensures IsCurrent(old(Value()), t.release, t.generation) ==>
                status == Available(t.release, if ok then Downloaded else HandoffFailed(false))
      ensures !ok ==> events == old(events)
      ensures ok ==> events == old(events) + [Succeeded(t.release, t.generation), Quit]
      ensures t.generation != old(generation) ==> status == old(status) && url == old(url)
      ensures Inv(old(Value())) && Waits(old(Value()), id, t, Opening) ==> Inv(Value())
    {
      if Inv(Value()) && Waits(Value(), id, t, Opening) { OpenKeeps(Value(), id, ok); }
      var current := IsCurrent(Value(), t.release, t.generation);
      tasks := tasks[id := t.(phase := Landed)];
      if !ok {
        if !current { return; }
        status := Available(t.release, HandoffFailed(false));
        return;
      }
      if current { status := Available(t.release, Downloaded); }
      events := events + [Succeeded(t.release, t.generation), Quit];
    }

    method ClearDownload(id: nat)
      modifies this
      ensures Value() == DownloadCleared(old(Value()), id)
      ensures old(pendingDownload) != Some(id) ==> pendingDownload == old(pendingDownload)
      ensures status == old(status) && url == old(url) && events == old(events)
      ensures Inv(old(Value())) && id in old(tasks) ==> Inv(Value())
    {
      if Inv(Value()) && id in tasks { ClearDownloadKeeps(Value(), id); }
      tasks := tasks - {id};
      if pendingDownload == Some(id) { pendingDownload := None; }
    }
  }

  // Runs.

  /** `busy` is whether a launcher operation is active; `seen` are the downloads that may still report progress. */
  datatype World = World(service: Service, busy: bool, seen: set<(Release, nat)>)

  datatype Action =
    | DoCheck
    | AnswerCheck(id: nat, answer: Answer)
    | ClearCheck(id: nat)
    | DoDownload
    | DoProgress(release: Release, generation: nat, bytes: nat)
    | FetchEnds(id: nat, complete: bool)
    | OpenEnds(id: nat, ok: bool)
    | ClearDownload(id: nat)
    | OperationsChange(busy: bool)

  predicate Enabled(w: World, a: Action) {
    var s := w.service;
    match a
    case DoCheck | DoDownload | OperationsChange(_) => true
    case AnswerCheck(id, _) => id in s.checks && s.checks[id]
    case ClearCheck(id) => id in s.checks && !s.checks[id]
    case DoProgress(r, g, _) => (r, g) in w.seen
    case FetchEnds(id, _) => id in s.tasks && s.tasks[id].phase.Fetching?
    case OpenEnds(id, _) => id in s.tasks && s.tasks[id].phase.Opening?
    case ClearDownload(id) => id in s.tasks && s.tasks[id].phase.Landed?
  }

  function Act(w: World, supported: bool, a: Action): Service
    requires Enabled(w, a)
  {
    var s := w.service;
    match a
    case DoCheck => Check(s, supported)
    case AnswerCheck(id, answer) => CheckAnswered(s, id, answer)
    case ClearCheck(id) => CheckCleared(s, id)
    case DoDownload => Begin(s, w.busy)
    case DoProgress(r, g, bytes) => Progress(s, r, g, bytes)
    case FetchEnds(id, complete) => if complete then Fetched(s, id, s.tasks[id], w.busy) else FetchFailed(s, id, s.tasks[id])
    case OpenEnds(id, ok) => OpenAnswered(s, id, s.tasks[id], ok)
    case ClearDownload(id) => DownloadCleared(s, id)
    case OperationsChange(_) => s
  }

  function Next(w: World, supported: bool, a: Action): World
    requires Enabled(w, a)
  {
    var s' := Act(w, supported, a);
    World(s', if a.OperationsChange? then a.busy else w.busy,
          w.seen + set id | id in s'.tasks :: (s'.tasks[id].release, s'.tasks[id].generation))
  }

  ghost predicate Run(supported: bool, worlds: seq<World>, actions: seq<Action>) {
    && |worlds| == |actions| + 1
    && worlds[0].service == NEW_SERVICE && worlds[0].seen == {}
    && forall i | 0 <= i < |actions| :: Enabled(worlds[i], actions[i]) && worlds[i + 1] == Next(worlds[i], supported, actions[i])
  }

  // What every reachable state satisfies.

  /** The installer address is known exactly while an update is shown, and it is that update's. */
  ghost predicate UrlOk(s: Service) {
    && (s.url.Some? <==> s.status.Available?)
    && (s.url.Some? ==> Identifies(s.url.value, s.status.release))
  }

  /** One check and one download at a time: whatever is in flight is the pending one. */
  ghost predicate OneEach(s: Service) {
    && (forall id | id in s.checks :: s.pendingCheck == Some(id) && id < s.next)
    && (s.pendingCheck.Some? ==> s.pendingCheck.value in s.checks)
    && (s.status.Checking? <==> exists id :: id in s.checks && s.checks[id])
    && (forall id | id in s.tasks :: s.pendingDownload == Some(id) && id < s.next && s.tasks[id].generation <= s.generation)
    && (s.pendingDownload.Some? ==> s.pendingDownload.value in s.tasks)
  }

  predicate Complete(s: Service, r: Release, g: nat) {
    Completed(r, g) in s.events
  }

  /** A handoff may be retried only after its own download completed, and an update is shown as downloaded only after its installer was opened. */
  ghost predicate DownloadsOk(s: Service) {
    && (s.status.Available? && s.status.download.HandoffFailed? ==> Complete(s, s.status.release, s.generation))
    && (s.status.Available? && s.status.download.Downloaded? ==> Succeeded(s.status.release, s.generation) in s.events)
    && (forall id | id in s.tasks && s.tasks[id].phase.Opening? ::
          Opened(s.tasks[id].release, s.tasks[id].generation, false) in s.events)
  }

  /** When an event may follow what happened before. */
  predicate Follows(before: seq<Event>, e: Event) {
    match e
    case Completed(_, _) => true
    case Opened(r, g, busy) => !busy && Completed(r, g) in before
    case Succeeded(r, g) => Opened(r, g, false) in before
    case Quit => before != [] && before[|before| - 1].Succeeded?
  }

  /** The law of the visible trace. */
  ghost predicate Lawful(es: seq<Event>) {
    forall k | 0 <= k < |es| :: Follows(es[..k], es[k])
  }

  ghost predicate Inv(s: Service) {
    UrlOk(s) && OneEach(s) && DownloadsOk(s) && Lawful(s.events)
  }

  lemma LawfulSnoc(es: seq<Event>, e: Event)
    requires Lawful(es) && Follows(es, e)
    ensures Lawful(es + [e])
  {
    var t := es + [e];
    forall k | 0 <= k < |t| ensures Follows(t[..k], t[k]) {
      assert t[..k] == es[..k];
    }
  }

  lemma HandoffKeeps(s: Service, id: nat, t: Task, busy: bool)
    requires UrlOk(s) && DownloadsOk(s) && Lawful(s.events)
    requires IsCurrent(s, t.release, t.generation) ==> Complete(s, t.release, t.generation)
    ensures var s' := Handoff(s, id, t, busy);
            UrlOk(s') && DownloadsOk(s') && Lawful(s'.events)
  {
    if IsCurrent(s, t.release, t.generation) && !busy {
      LawfulSnoc(s.events, Opened(t.release, t.generation, busy));
    }
  }

  lemma BeginKeeps(s: Service, busy: bool)
    requires Inv(s)
    ensures Inv(Begin(s, busy))
  {
    if s.status.Available? && s.url.Some? && s.pendingDownload.None? && s.status.download.HandoffFailed? {
      var begun := s.(pendingDownload := Some(s.next), next := s.next + 1);
      HandoffKeeps(begun, s.next, Task(s.status.release, s.generation, Fetching), busy);
    }
  }

  lemma FetchKeeps(s: Service, id: nat, busy: bool)
    requires Inv(s) && id in s.tasks && s.tasks[id].phase.Fetching?
    ensures Inv(Fetched(s, id, s.tasks[id], busy))
  {
    var t := s.tasks[id];
    LawfulSnoc(s.events, Completed(t.release, t.generation));
    var done := s.(events := s.events + [Completed(t.release, t.generation)]);
    HandoffKeeps(done, id, t, busy);
  }

  lemma OpenEvents(s: Service, t: Task)
    requires Lawful(s.events) && Opened(t.release, t.generation, false) in s.events
    ensures Lawful(s.events + [Succeeded(t.release, t.generation), Quit])
    ensures Completed(t.release, t.generation) in s.events
  {
    var won := s.events + [Succeeded(t.release, t.generation)];
    LawfulSnoc(s.events, Succeeded(t.release, t.generation));
    LawfulSnoc(won, Quit);
    assert won + [Quit] == s.events + [Succeeded(t.release, t.generation), Quit];
    OpenedWasComplete(s.events, t.release, t.generation);
  }

  lemma OpenKeeps(s: Service, id: nat, ok: bool)
    requires Inv(s) && id in s.tasks && s.tasks[id].phase.Opening?
    ensures Inv(OpenAnswered(s, id, s.tasks[id], ok))
  {
    OpenEvents(s, s.tasks[id]);
    var s' := OpenAnswered(s, id, s.tasks[id], ok);
    assert forall x | x in s.events :: x in s'.events;
    assert UrlOk(s') && OneEach(s');
  }

  lemma OpenedWasComplete(es: seq<Event>, r: Release, g: nat)
    requires Lawful(es) && Opened(r, g, false) in es
    ensures Completed(r, g) in es
  {
  }

  lemma InvStep(w: World, supported: bool, a: Action)
    requires Inv(w.service) && Enabled(w, a)
    ensures Inv(Next(w, supported, a).service)
  {
    var s := w.service;
    match a {
      case DoCheck => CheckKeeps(s, supported);
      case AnswerCheck(id, answer) => AnswerKeeps(s, id, answer);
      case ClearCheck(id) => ClearCheckKeeps(s, id);
      case DoDownload => BeginKeeps(s, w.busy);
      case DoProgress(r, g, bytes) => ProgressKeeps(s, r, g, bytes);
      case FetchEnds(id, complete) => if complete { FetchKeeps(s, id, w.busy); } else { FailKeeps(s, id); }
      case OpenEnds(id, ok) => OpenKeeps(s, id, ok);
      case ClearDownload(id) => ClearDownloadKeeps(s, id);
      case OperationsChange(_) =>
    }
  }

  lemma CheckKeeps(s: Service, supported: bool)
    requires Inv(s)
    ensures Inv(Check(s, supported))
  {
  }

  lemma AnswerKeeps(s: Service, id: nat, answer: Answer)
    requires Inv(s) && id in s.checks && s.checks[id]
    ensures Inv(CheckAnswered(s, id, answer))
  {
  }

  lemma ClearCheckKeeps(s: Service, id: nat)
    requires Inv(s) && id in s.checks && !s.checks[id]
    ensures Inv(CheckCleared(s, id))
  {
  }

  lemma ProgressKeeps(s: Service, r: Release, g: nat, bytes: nat)
    requires Inv(s)
    ensures Inv(Progress(s, r, g, bytes))
  {
  }

  lemma FailKeeps(s: Service, id: nat)
    requires Inv(s) && id in s.tasks && s.tasks[id].phase.Fetching?
    ensures Inv(FetchFailed(s, id, s.tasks[id]))
  {
  }

  lemma ClearDownloadKeeps(s: Service, id: nat)
    requires Inv(s) && id in s.tasks
    ensures Inv(DownloadCleared(s, id))
  {
  }

  lemma {:induction false} RunKeeps(supported: bool, worlds: seq<World>, actions: seq<Action>, i: nat)
    requires Run(supported, worlds, actions) && i < |worlds|
    ensures Inv(worlds[i].service)
  {
    if i > 0 {
      RunKeeps(supported, worlds, actions, i - 1);
      InvStep(worlds[i - 1], supported, actions[i - 1]);
      assert worlds[i] == Next(worlds[i - 1], supported, actions[i - 1]);
    }
  }

  /** In every run: the address is cached exactly while an update is shown, and at most one check and one download are in flight. */
  lemma CachedExactlyWhileAvailable(supported: bool, worlds: seq<World>, actions: seq<Action>, i: nat)
    requires Run(supported, worlds, actions) && i < |worlds|
    ensures var s := worlds[i].service;
            && (s.url.Some? <==> s.status.Available?)
            && (s.url.Some? ==> Identifies(s.url.value, s.status.release))
            && (forall a, b | a in s.checks && b in s.checks :: a == b)
            && (forall a, b | a in s.tasks && b in s.tasks :: a == b)
  {
    RunKeeps(supported, worlds, actions, i);
  }

  /**
   In every run: an installer is opened only when its own download completed before in the same
   generation and no launcher operation is active, and quitting follows an open that succeeded.
   */
  lemma HandoffIsLawful(supported: bool, worlds: seq<World>, actions: seq<Action>, i: nat)
    requires Run(supported, worlds, actions) && i < |worlds|
    ensures Lawful(worlds[i].service.events)
  {
    RunKeeps(supported, worlds, actions, i);
  }

  // What each answer shows, in every run.

  /** An update is shown as downloaded only after its own installer was opened in the same generation. */
  lemma DownloadedWasOpened(supported: bool, worlds: seq<World>, actions: seq<Action>, i: nat)
    requires Run(supported, worlds, actions) && i < |worlds|
    ensures var s := worlds[i].service;
            s.status.Available? && s.status.download.Downloaded? ==> Succeeded(s.status.release, s.generation) in s.events
  {
    RunKeeps(supported, worlds, actions, i);
  }

  /** How the current update is shown after its installer was opened or not. */
  lemma OpenOutcome(supported: bool, worlds: seq<World>, actions: seq<Action>, i: nat)
    requires Run(supported, worlds, actions) && i < |actions| && actions[i].OpenEnds?
    ensures actions[i].id in worlds[i].service.tasks
    ensures var s, s', t, ok := worlds[i].service, worlds[i + 1].service, worlds[i].service.tasks[actions[i].id], actions[i].ok;
            && s'.status == (if IsCurrent(s, t.release, t.generation)
                             then Available(t.release, if ok then Downloaded else HandoffFailed(false)) else s.status)
            && s'.events == s.events + (if ok then [Succeeded(t.release, t.generation), Quit] else [])
  {
    assert Enabled(worlds[i], actions[i]) && worlds[i + 1] == Next(worlds[i], supported, actions[i]);
  }

  /** How the current update is shown after its download ended: failed, held back by an active operation, or on its way to the system. */
  lemma FetchOutcome(supported: bool, worlds: seq<World>, actions: seq<Action>, i: nat)
    requires Run(supported, worlds, actions) && i < |actions| && actions[i].FetchEnds?
    ensures actions[i].id in worlds[i].service.tasks
    ensures var s, s', t := worlds[i].service, worlds[i + 1].service, worlds[i].service.tasks[actions[i].id];
            var completed := if actions[i].complete then [Completed(t.release, t.generation)] else [];
            if !IsCurrent(s, t.release, t.generation) then s'.status == s.status && s'.events == s.events + completed
            else if !actions[i].complete then s'.status == Available(t.release, DownloadFailed) && s'.events == s.events
            else if worlds[i].busy then s'.status == Available(t.release, HandoffFailed(true)) && s'.events == s.events + completed
            else s'.status == s.status && s'.events == s.events + completed + [Opened(t.release, t.generation, false)]
  {
    assert Enabled(worlds[i], actions[i]) && worlds[i + 1] == Next(worlds[i], supported, actions[i]);
  }

  /** What a download request does: nothing, a new download, or another handoff of what was downloaded. */
  lemma RequestOutcome(supported: bool, worlds: seq<World>, actions: seq<Action>, i: nat)
    requires Run(supported, worlds, actions) && i < |actions| && actions[i].DoDownload?
    ensures var s, s', busy := worlds[i].service, worlds[i + 1].service, worlds[i].busy;
            if !s.status.Available? || s.pendingDownload.Some? || s.status.download.Downloaded? then s' == s
            else if s.status.download.HandoffFailed? then
              if busy then s'.status == Available(s.status.release, HandoffFailed(true)) && s'.events == s.events
              else s'.status == s.status && s'.events == s.events + [Opened(s.status.release, s.generation, false)]
            else if busy then s' == s
            else
              && s'.status == Available(s.status.release, Downloading(0)) && s'.events == s.events
              && s'.pendingDownload == Some(s.next) && s'.tasks == s.tasks[s.next := Task(s.status.release, s.generation, Fetching)]
  {
    RunKeeps(supported, worlds, actions, i);
    assert worlds[i + 1] == Next(worlds[i], supported, actions[i]);
  }

  /** A failed open can be retried: once the download has cleared, the next request with no active operation opens the installer again. */
  lemma FailedOpenIsRetried(supported: bool, worlds: seq<World>, actions: seq<Action>, i: nat, t: Task)
    requires Run(supported, worlds, actions) && i + 2 < |actions|
    requires actions[i].OpenEnds? && !actions[i].ok && actions[i].id in worlds[i].service.tasks && worlds[i].service.tasks[actions[i].id] == t
    requires IsCurrent(worlds[i].service, t.release, t.generation)
    requires actions[i + 1] == ClearDownload(actions[i].id) && actions[i + 2] == DoDownload && !worlds[i + 2].busy
    ensures worlds[i + 3].service.events == worlds[i].service.events + [Opened(t.release, t.generation, false)]
  {
    OpenOutcome(supported, worlds, actions, i);
    RunKeeps(supported, worlds, actions, i);
    assert worlds[i + 1] == Next(worlds[i], supported, actions[i]);
    assert worlds[i + 2] == Next(worlds[i + 1], supported, actions[i + 1]);
    RequestOutcome(supported, worlds, actions, i + 2);
  }

  // The fence.

  lemma GenerationStep(w: World, supported: bool, a: Action)
    requires Enabled(w, a)
    ensures w.service.generation <= Act(w, supported, a).generation
    ensures w.service.events <= Act(w, supported, a).events
  {
  }

  lemma {:induction false} GenerationGrows(supported: bool, worlds: seq<World>, actions: seq<Action>, i: nat, j: nat)
    requires Run(supported, worlds, actions) && i <= j < |worlds|
    ensures worlds[i].service.generation <= worlds[j].service.generation
    decreases j
  {
    if i < j {
      GenerationGrows(supported, worlds, actions, i, j - 1);
      GenerationStep(worlds[j - 1], supported, actions[j - 1]);
      assert worlds[j] == Next(worlds[j - 1], supported, actions[j - 1]);
    }
  }

  lemma PrefixTransitive(a: seq<Event>, b: seq<Event>, c: seq<Event>)
    requires a <= b <= c
    ensures a <= c
  {
  }

  /** What the outside has seen is never taken back. */
  lemma {:induction false} EventsGrow(supported: bool, worlds: seq<World>, actions: seq<Action>, i: nat, j: nat)
    requires Run(supported, worlds, actions) && i <= j < |worlds|
    ensures worlds[i].service.events <= worlds[j].service.events
    decreases j
  {
    if i < j {
      var s, t := worlds[j - 1].service, worlds[j].service;
      EventsGrow(supported, worlds, actions, i, j - 1);
      GenerationStep(worlds[j - 1], supported, actions[j - 1]);
      assert t == Act(worlds[j - 1], supported, actions[j - 1]);
      PrefixTransitive(worlds[i].service.events, s.events, t.events);
    }
  }

  /** The generation in which the download that an action belongs to began. */
  function DownloadGeneration(w: World, a: Action): Option<nat> {
    match a
    case DoProgress(_, g, _) => Some(g)
    case FetchEnds(id, _) => if id in w.service.tasks then Some(w.service.tasks[id].generation) else None
    case OpenEnds(id, _) => if id in w.service.tasks then Some(w.service.tasks[id].generation) else None
    case ClearDownload(id) => if id in w.service.tasks then Some(w.service.tasks[id].generation) else None
    case _ => None
  }

  /**
   Once a later check has moved the generation past `g`, nothing a download of generation `g` still does
   changes the shown state or the cached address, or opens an installer: for the rest of the run.
   */
  lemma StaleDownloadIsInert(supported: bool, worlds: seq<World>, actions: seq<Action>, i: nat, j: nat, g: nat)
    requires Run(supported, worlds, actions) && i <= j < |actions|
    requires g < worlds[i].service.generation
    requires DownloadGeneration(worlds[j], actions[j]) == Some(g)
    ensures var s, s' := worlds[j].service, worlds[j + 1].service;
            && s'.status == s.status && s'.url == s.url && s'.generation == s.generation
            && forall k | |s.events| <= k < |s'.events| :: !s'.events[k].Opened?
  {
    GenerationGrows(supported, worlds, actions, i, j);
    assert worlds[j + 1] == Next(worlds[j], supported, actions[j]);
  }
}
