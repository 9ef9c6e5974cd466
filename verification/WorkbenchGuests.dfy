/**
 The workbench request table: at most one navigation request per registered guest, settled once, by
 a matching reply, a timeout, an abort, a withdrawn readiness, a navigation, a removal or disposal.

 Registrations and requests are objects in the launcher and outlive their place in the table through
 the closures of timers and listeners; here each has an identity of its own. Timers and aborts may
 fire at any time, also long after their request was settled.
 */
module WorkbenchGuests {
  import opened Common

  const MAX_FIELD_LENGTH := 4096

  /** A guest web contents: its id can be used again by another object. */
  datatype Guest = Guest(id: nat, object: nat)

  datatype Scope = Scope(computer: string, attempt: string, generation: nat, origin: string)

  datatype Target = Target(workspace: string, session: string, path: string)

  datatype Code = InvalidRequest | Busy | Unavailable | Cancelled | Timeout | Unconfirmed | Told(reason: string)

  datatype Outcome = Resolved(selection: Target, requestId: string, sequence: nat) | Rejected(code: Code)

  datatype Request = Request(registration: nat, requestId: string, sequence: nat, target: Target)

  datatype Registration = Registration(guest: Guest, scope: Scope, sequence: nat, ready: bool, pending: Option<nat>)

  /** A guest's reply once validated: not a reply at all, a refusal, or a confirmed selection. */
  datatype Reply = Malformed | Refusal(requestId: string, sequence: nat, reason: string)
                 | Confirmed(requestId: string, sequence: nat, selection: Target)

  datatype Desk = Desk(
    table: map<nat, nat>, registrations: map<nat, Registration>,
    requests: map<nat, Request>, settled: map<nat, Outcome>, next: nat)

  const NEW_DESK := Desk(map[], map[], map[], map[], 0)

  predicate ValidField(s: string) {
    0 < |s| <= MAX_FIELD_LENGTH && '\0' !in s
  }

  predicate ValidRequest(sequence: nat, target: Target) {
    1 <= sequence <= MAX_SAFE_INTEGER && ValidField(target.workspace) && ValidField(target.session) && ValidField(target.path)
  }

  // What a guest sends, and how it is validated.

  datatype Body = Selected(selection: Target) | Code(text: string)

  /** A message on the reply channel: an object of the five keys with texts and numbers in their places, or anything else. */
  datatype Message = Garbage | Answer(version: int, requestId: string, sequence: int, body: Body)

  const ERROR_CODES := [
    "workbench.invalid_request", "workbench.stale_request", "workbench.busy", "workbench.unavailable", "workbench.cancelled",
    "workbench.timeout", "workbench.session_missing", "workbench.workspace_mismatch", "workbench.selection_unconfirmed"]

  predicate IsRequestId(s: string) {
    |s| == 32 && forall i | 0 <= i < 32 :: 'a' <= s[i] <= 'f' || '0' <= s[i] <= '9'
  }

  predicate ValidAnswer(m: Message) {
    && m.Answer? && m.version == 1 && IsRequestId(m.requestId) && 1 <= m.sequence <= MAX_SAFE_INTEGER
    && match m.body
       case Selected(target) => ValidRequest(m.sequence, target)
       case Code(text) => text in ERROR_CODES
  }

  /** The reply a message is taken for. */
  function Received(m: Message): Reply {
    if !ValidAnswer(m) then Malformed
    else match m.body
      case Selected(target) => Confirmed(m.requestId, m.sequence, target)
      case Code(text) => Refusal(m.requestId, m.sequence, text)
  }

  // The handlers, on values.

  /** Settles a request only while it is the pending one of its registration. */
  function Finish(d: Desk, q: nat, outcome: Outcome): Desk {
    if q in d.requests && d.requests[q].registration in d.registrations &&
       d.registrations[d.requests[q].registration].pending == Some(q)
    then
      var r := d.requests[q].registration;
      d.(registrations := d.registrations[r := d.registrations[r].(pending := None)], settled := d.settled[q := outcome])
    else d
  }

  function FinishPending(d: Desk, r: nat, outcome: Outcome): Desk
    requires r in d.registrations
  {
    if d.registrations[r].pending.Some? then Finish(d, d.registrations[r].pending.value, outcome) else d
  }

  function SetReady(d: Desk, r: nat, ready: bool): Desk
    requires r in d.registrations
  {
    d.(registrations := d.registrations[r := d.registrations[r].(ready := ready)])
  }

  function Register(d: Desk, guest: Guest, scope: Scope, admissible: bool): Desk {
    if !admissible || guest.id in d.table then d
    else d.(table := d.table[guest.id := d.next],
            registrations := d.registrations[d.next := Registration(guest, scope, 0, false, None)],
            next := d.next + 1)
  }

  function Invalidate(d: Desk, r: nat): Desk
    requires r in d.registrations
  {
    FinishPending(SetReady(d, r, false), r, Rejected(Cancelled))
  }

  function Navigate(d: Desk, r: nat, mainFrame: bool): Desk
    requires r in d.registrations
  {
    if mainFrame then Invalidate(d, r) else d
  }

  function Remove(d: Desk, r: nat): Desk
    requires r in d.registrations
  {
    var id := d.registrations[r].guest.id;
    var e := Invalidate(d, r);
    if id in e.table && e.table[id] == r then e.(table := e.table - {id}) else e
  }

  /** A new request becomes the pending one of its registration. */
  function Placed(d: Desk, r: nat, target: Target, requestId: string): Desk
    requires r in d.registrations
  {
    var g := d.registrations[r];
    d.(registrations := d.registrations[r := g.(sequence := g.sequence + 1, pending := Some(d.next))],
       requests := d.requests[d.next := Request(r, requestId, g.sequence + 1, target)],
       next := d.next + 1)
  }

  /** The request as it is once admitted; `sent` is whether handing it to the guest succeeded. */
  function Admitted(d: Desk, r: nat, target: Target, aborted: bool, requestId: string, sent: bool): Desk
    requires r in d.registrations
  {
    if !ValidRequest(d.registrations[r].sequence + 1, target) || aborted then Counted(d, r)
    else
      var placed := Placed(d, r, target, requestId);
      if sent then placed else Finish(placed, d.next, Rejected(Unavailable))
  }

  function Counted(d: Desk, r: nat): Desk
    requires r in d.registrations
  {
    d.(registrations := d.registrations[r := d.registrations[r].(sequence := d.registrations[r].sequence + 1)])
  }

  function Ask(d: Desk, guestId: nat, scope: Scope, target: Target, originOk: bool, aborted: bool, requestId: string, sent: bool): Desk {
    if guestId !in d.table || d.table[guestId] !in d.registrations then d
    else
      var r := d.table[guestId];
      var g := d.registrations[r];
      if !g.ready || g.scope != scope || !originOk || g.pending.Some? then d
      else Admitted(d, r, target, aborted, requestId, sent)
  }

  /** A timeout or an abort; telling the guest may fail and then withdraws its readiness. */
  function Expire(d: Desk, q: nat, code: Code, told: bool): Desk
    requires q in d.requests && d.requests[q].registration in d.registrations
  {
    var e := Finish(d, q, Rejected(code));
    if told then e else SetReady(e, d.requests[q].registration, false)
  }

  /** The registration that may speak for a sender, if any. */
  function Admit(d: Desk, sender: Guest, mainFrame: bool, originOk: bool): Option<nat> {
    if sender.id in d.table && d.table[sender.id] in d.registrations &&
       d.registrations[d.table[sender.id]].guest == sender && mainFrame && originOk
    then Some(d.table[sender.id]) else None
  }

  /** A readiness message; None is one that is not well formed. */
  function TakeReady(d: Desk, sender: Guest, mainFrame: bool, originOk: bool, available: Option<bool>): Desk {
    match Admit(d, sender, mainFrame, originOk)
    case None => d
    case Some(r) =>
      var ready := available == Some(true);
      var e := SetReady(d, r, ready);
      if ready then e else FinishPending(e, r, Rejected(Unavailable))
  }

  function TakeReply(d: Desk, sender: Guest, mainFrame: bool, originOk: bool, reply: Reply): Desk {
    match Admit(d, sender, mainFrame, originOk)
    case None => d
    case Some(r) =>
      if d.registrations[r].pending.None? || d.registrations[r].pending.value !in d.requests then d
      else
        var q := d.registrations[r].pending.value;
        var asked := d.requests[q];
        if reply.Malformed? then Finish(d, q, Rejected(InvalidRequest))
        else if reply.requestId != asked.requestId || reply.sequence != asked.sequence then d
        else if reply.Refusal? then Finish(d, q, Rejected(Told(reply.reason)))
        else if reply.selection != asked.target then Finish(d, q, Rejected(Unconfirmed))
        else Finish(d, q, Resolved(reply.selection, reply.requestId, reply.sequence))
  }

  /** Disposal: every registration in the table is removed, then the table is emptied. */
  function RemoveAll(d: Desk, rs: seq<nat>): (e: Desk)
    requires forall i | 0 <= i < |rs| :: rs[i] in d.registrations
    ensures e.registrations.Keys == d.registrations.Keys
  {
    if rs == [] then d else Remove(RemoveAll(d, rs[..|rs| - 1]), rs[|rs| - 1])
  }

  function Dispose(d: Desk, rs: seq<nat>): Desk
    requires forall i | 0 <= i < |rs| :: rs[i] in d.registrations
  {
    RemoveAll(d, rs).(table := map[])
  }

  /** The same handlers as the object runs them. */
  class Workbench {
    var table: map<nat, nat>
    var registrations: map<nat, Registration>
    var requests: map<nat, Request>
    var settled: map<nat, Outcome>
    var next: nat

    function Value(): Desk
      reads this
    {
      Desk(table, registrations, requests, settled, next)
    }

    constructor ()
      ensures Value() == NEW_DESK && Inv(Value())
    {
      table, registrations, requests, settled, next := map[], map[], map[], map[], 0;
    }

    method FinishRequest(q: nat, outcome: Outcome)
      modifies this
      ensures Value() == Finish(old(Value()), q, outcome)
      ensures SettlesOnly(old(Value()), Value(), q, outcome)
      ensures outcome.Rejected? ==> Follows(old(Value()), Value())
    {
      if Inv(Value()) && outcome.Rejected? { FinishKeeps(Value(), q, outcome); }
      if q !in requests || requests[q].registration !in registrations { return; }
      var r := requests[q].registration;
      if registrations[r].pending != Some(q) { return; }
      registrations := registrations[r := registrations[r].(pending := None)];
      settled := settled[q := outcome];
    }

    method RegisterGuest(guest: Guest, scope: Scope, admissible: bool)
      modifies this
      ensures Value() == Register(old(Value()), guest, scope, admissible)
      ensures admissible && guest.id !in old(table) ==>
                table == old(table)[guest.id := old(next)] && old(next) in registrations
                && registrations[old(next)] == Registration(guest, scope, 0, false, None)
      ensures !admissible || guest.id in old(table) ==> Value() == old(Value())
      ensures Follows(old(Value()), Value())
    {
      if Inv(Value()) { RegisterKeeps(Value(), guest, scope, admissible); }
      if !admissible || guest.id in table { return; }
      registrations := registrations[next := Registration(guest, scope, 0, false, None)];
      table := table[guest.id := next];
      next := next + 1;
    }

    method InvalidateGuest(r: nat)
      requires r in registrations
      modifies this
      ensures Value() == Invalidate(old(Value()), r)
      ensures r in registrations && !registrations[r].ready && table == old(table)
      ensures Inv(old(Value())) ==> registrations[r].pending.None?
      ensures Follows(old(Value()), Value())
    {
      if Inv(Value()) { InvalidateKeeps(Value(), r); }
      registrations := registrations[r := registrations[r].(ready := false)];
      var pending := registrations[r].pending;
      if pending.Some? { FinishRequest(pending.value, Rejected(Cancelled)); }
    }

    method RemoveGuest(r: nat)
      requires r in registrations
      modifies this
      ensures Value() == Remove(old(Value()), r)
      ensures !Tabled(Value(), r)
      ensures Inv(old(Value())) ==> Removes(old(Value()), Value())
    {
      if Inv(Value()) { RemoveKeeps(Value(), r); }
      var id := registrations[r].guest.id;
      InvalidateGuest(r);
      if id in table && table[id] == r { table := table - {id}; }
    }

    method AskGuest(guestId: nat, scope: Scope, target: Target, originOk: bool, aborted: bool, requestId: string, sent: bool)
      modifies this
      ensures Value() == Ask(old(Value()), guestId, scope, target, originOk, aborted, requestId, sent)
      ensures requests != old(requests) ==>
                && guestId in old(table) && old(table)[guestId] in old(registrations)
                && var g := old(registrations)[old(table)[guestId]];
                   g.ready && g.scope == scope && originOk && g.pending.None? && !aborted
      ensures Inv(old(Value())) ==> OnlyRejects(old(Value()), Value())
    {
      if Inv(Value()) { AskKeeps(Value(), guestId, scope, target, originOk, aborted, requestId, sent); }
      if guestId !in table || table[guestId] !in registrations { return; }
      var r := table[guestId];
      if !registrations[r].ready || registrations[r].scope != scope || !originOk { return; }
      if registrations[r].pending.Some? { return; }
      SendRequest(r, target, aborted, requestId, sent);
    }

    /** The admitted request: counted, checked, made pending and handed to the guest. */
    method SendRequest(r: nat, target: Target, aborted: bool, requestId: string, sent: bool)
      requires r in registrations
      modifies this
      ensures Value() == Admitted(old(Value()), r, target, aborted, requestId, sent)
      ensures requests != old(requests) ==> !aborted
    {
      registrations := registrations[r := registrations[r].(sequence := registrations[r].sequence + 1)];
      var sequence := registrations[r].sequence;
      if !ValidRequest(sequence, target) { return; }
      if aborted { return; }
      var q := next;
      next := next + 1;
      requests := requests[q := Request(r, requestId, sequence, target)];
      registrations := registrations[r := registrations[r].(pending := Some(q))];
      assert Value() == Placed(old(Value()), r, target, requestId);
      if !sent { FinishRequest(q, Rejected(Unavailable)); }
    }

    method ExpireRequest(q: nat, code: Code, told: bool)
      requires q in requests && requests[q].registration in registrations
      modifies this
      ensures Value() == Expire(old(Value()), q, code, told)
      ensures SettlesOnly(old(Value()), Value(), q, Rejected(code)) && (!told ==> !registrations[requests[q].registration].ready)
      ensures Inv(old(Value())) ==> q in settled
      ensures Follows(old(Value()), Value())
    {
      if Inv(Value()) { ExpireKeeps(Value(), q, code, told); }
      var r := requests[q].registration;
      FinishRequest(q, Rejected(code));
      if !told { registrations := registrations[r := registrations[r].(ready := false)]; }
    }

    method ReceiveReady(sender: Guest, mainFrame: bool, originOk: bool, available: Option<bool>)
      modifies this
      ensures Value() == TakeReady(old(Value()), sender, mainFrame, originOk, available)
      ensures Admit(old(Value()), sender, mainFrame, originOk).None? ==> Value() == old(Value())
      ensures Inv(old(Value())) ==> OnlyRejects(old(Value()), Value())
    {
      if Inv(Value()) { TakeReadyKeeps(Value(), sender, mainFrame, originOk, available); }
      var admitted := Admit(Value(), sender, mainFrame, originOk);
      if admitted.None? { return; }
      var r := admitted.value;
      registrations := registrations[r := registrations[r].(ready := available == Some(true))];
      var pending := registrations[r].pending;
      if !registrations[r].ready && pending.Some? { FinishRequest(pending.value, Rejected(Unavailable)); }
    }

    method ReceiveReply(sender: Guest, mainFrame: bool, originOk: bool, reply: Reply)
      modifies this
      ensures Value() == TakeReply(old(Value()), sender, mainFrame, originOk, reply)
      ensures Inv(old(Value())) ==>
                forall q | q in settled && q !in old(settled) && settled[q].Resolved? ::
                  q in requests && reply == Confirmed(requests[q].requestId, requests[q].sequence, requests[q].target)
      ensures Follows(old(Value()), Value())
    {
      if Inv(Value()) { TakeReplyKeeps(Value(), sender, mainFrame, originOk, reply); }
      var admitted := Admit(Value(), sender, mainFrame, originOk);
      if admitted.None? { return; }
      var pending := registrations[admitted.value].pending;
      if pending.None? || pending.value !in requests { return; }
      var asked := requests[pending.value];
      if reply.Malformed? {
        FinishRequest(pending.value, Rejected(InvalidRequest));
        return;
      }
      if reply.requestId != asked.requestId || reply.sequence != asked.sequence { return; }
      if reply.Refusal? {
        FinishRequest(pending.value, Rejected(Told(reply.reason)));
        return;
      }
      if reply.selection != asked.target {
        FinishRequest(pending.value, Rejected(Unconfirmed));
        return;
      }
      FinishRequest(pending.value, Resolved(reply.selection, reply.requestId, reply.sequence));
    }

    method DisposeAll(rs: seq<nat>)
      requires forall i | 0 <= i < |rs| :: rs[i] in registrations
      modifies this
      ensures Value() == Dispose(old(Value()), rs)
      ensures table == map[]
      ensures Inv(old(Value())) && Enabled(old(Value()), DoDispose(rs)) ==>
                Removes(old(Value()), Value()) && forall q | q in requests :: q in settled
    {
      if Inv(Value()) && Enabled(Value(), DoDispose(rs)) { DisposeKeeps(Value(), rs); }
      for i := 0 to |rs|
        invariant Value() == RemoveAll(old(Value()), rs[..i])
      {
        assert rs[..i + 1][..i] == rs[..i];
        RemoveGuest(rs[i]);
      }
      assert rs[..|rs|] == rs;
      table := map[];
    }
  }

  // Runs.

  datatype Action =
    | DoRegister(guest: Guest, scope: Scope, admissible: bool)
    | DoNavigate(registration: nat, mainFrame: bool)
    | DoRemove(registration: nat)
    | DoAsk(guestId: nat, scope: Scope, target: Target, originOk: bool, aborted: bool, requestId: string, sent: bool)
    | DoTimeout(request: nat, told: bool)
    | DoAbort(request: nat, told: bool)
    | DoReady(sender: Guest, mainFrame: bool, originOk: bool, available: Option<bool>)
    | DoReply(sender: Guest, mainFrame: bool, originOk: bool, reply: Reply)
    | DoDispose(order: seq<nat>)

  predicate Enabled(d: Desk, a: Action) {
    match a
    case DoNavigate(r, _) => r in d.registrations
    case DoRemove(r) => r in d.registrations
    case DoTimeout(q, _) => q in d.requests && d.requests[q].registration in d.registrations
    case DoAbort(q, _) => q in d.requests && d.requests[q].registration in d.registrations
    case DoDispose(order) =>
      (forall i | 0 <= i < |order| :: order[i] in d.registrations) && (forall id | id in d.table :: d.table[id] in order)
    case _ => true
  }

  function Next(d: Desk, a: Action): Desk
    requires Enabled(d, a)
  {
    match a
    case DoRegister(guest, scope, admissible) => Register(d, guest, scope, admissible)
    case DoNavigate(r, mainFrame) => Navigate(d, r, mainFrame)
    case DoRemove(r) => Remove(d, r)
    case DoAsk(id, scope, target, originOk, aborted, requestId, sent) => Ask(d, id, scope, target, originOk, aborted, requestId, sent)
    case DoTimeout(q, told) => Expire(d, q, Timeout, told)
    case DoAbort(q, told) => Expire(d, q, Cancelled, told)
    case DoReady(sender, mainFrame, originOk, available) => TakeReady(d, sender, mainFrame, originOk, available)
    case DoReply(sender, mainFrame, originOk, reply) => TakeReply(d, sender, mainFrame, originOk, reply)
    case DoDispose(order) => Dispose(d, order)
  }

  ghost predicate Run(desks: seq<Desk>, actions: seq<Action>) {
    && |desks| == |actions| + 1 && desks[0] == NEW_DESK
    && forall i | 0 <= i < |actions| :: Enabled(desks[i], actions[i]) && desks[i + 1] == Next(desks[i], actions[i])
  }

  // What every reachable desk satisfies.

  predicate Tabled(d: Desk, r: nat) {
    r in d.registrations && d.registrations[r].guest.id in d.table && d.table[d.registrations[r].guest.id] == r
  }

  /** The pending request of a registration: unsettled, its own, and only while the registration is in the table. */
  predicate PendingOk(d: Desk, r: nat)
    requires r in d.registrations
  {
    d.registrations[r].pending.Some? ==>
      var q := d.registrations[r].pending.value;
      q in d.requests && d.requests[q].registration == r && q !in d.settled && Tabled(d, r)
  }

  /** An unsettled request is the pending one of its registration; a resolved one was answered exactly. */
  predicate RequestOk(d: Desk, q: nat)
    requires q in d.requests
  {
    var asked := d.requests[q];
    && q < d.next && asked.registration in d.registrations
    && asked.sequence <= d.registrations[asked.registration].sequence
    && (q !in d.settled ==> d.registrations[asked.registration].pending == Some(q))
    && (q in d.settled && d.settled[q].Resolved? ==>
          d.settled[q] == Resolved(asked.target, asked.requestId, asked.sequence))
  }

  /** Later requests of a registration carry higher sequence numbers. */
  ghost predicate Ordered(d: Desk) {
    forall p, q | p in d.requests && q in d.requests && p < q && d.requests[p].registration == d.requests[q].registration ::
      d.requests[p].sequence < d.requests[q].sequence
  }

  /** The table files each registration under the id of its guest. */
  predicate Filed(d: Desk) {
    forall id | id in d.table :: d.table[id] in d.registrations && d.registrations[d.table[id]].guest.id == id
  }

  ghost predicate Inv(d: Desk) {
    && Filed(d)
    && (forall r | r in d.registrations :: r < d.next && PendingOk(d, r))
    && (forall q | q in d.requests :: RequestOk(d, q))
    && (forall q | q in d.settled :: q in d.requests)
    && Ordered(d)
  }

  /** Requests are never forgotten and settled ones never change. */
  ghost predicate Grows(d: Desk, e: Desk) {
    && (forall q | q in d.requests :: q in e.requests && e.requests[q] == d.requests[q])
    && (forall q | q in d.settled :: q in e.settled && e.settled[q] == d.settled[q])
    && (forall r | r in d.registrations :: r in e.registrations && e.registrations[r].guest == d.registrations[r].guest)
  }

  /** One step of the table keeps the invariant, forgets nothing and changes no outcome. */
  ghost predicate Follows(d: Desk, e: Desk) {
    Inv(d) ==> Inv(e) && Grows(d, e)
  }

  /** Only this request may have been settled, and with this outcome. */
  ghost predicate SettlesOnly(d: Desk, e: Desk, q: nat, outcome: Outcome) {
    forall p | p in e.settled && p !in d.settled :: p == q && e.settled[p] == outcome
  }

  lemma FinishFires(d: Desk, q: nat, r: nat, outcome: Outcome)
    requires Inv(d) && q in d.requests && r in d.registrations
    requires d.requests[q].registration == r && d.registrations[r].pending == Some(q)
    requires outcome.Resolved? ==>
               outcome == Resolved(d.requests[q].target, d.requests[q].requestId, d.requests[q].sequence)
    ensures Inv(Finish(d, q, outcome)) && Grows(d, Finish(d, q, outcome))
  {
    var e := Finish(d, q, outcome);
    assert PendingOk(d, r);
    forall x | x in e.registrations ensures x < e.next && PendingOk(e, x) {
      assert PendingOk(d, x);
    }
    forall p | p in e.requests ensures RequestOk(e, p) {
      assert RequestOk(d, p);
    }
  }

  lemma FinishKeeps(d: Desk, q: nat, outcome: Outcome)
    requires Inv(d)
    requires outcome.Resolved? && q in d.requests ==>
               outcome == Resolved(d.requests[q].target, d.requests[q].requestId, d.requests[q].sequence)
    ensures var e := Finish(d, q, outcome);
            Inv(e) && Grows(d, e) && SettlesOnly(d, e, q, outcome) && e.table == d.table && e.requests == d.requests
            && e.registrations.Keys == d.registrations.Keys
    ensures q in d.requests && q !in d.settled ==> q in Finish(d, q, outcome).settled
  {
    if q in d.requests {
      assert RequestOk(d, q);
      var r := d.requests[q].registration;
      if d.registrations[r].pending == Some(q) { FinishFires(d, q, r, outcome); }
    }
  }

  lemma ReadyKeeps(d: Desk, r: nat, ready: bool)
    requires Inv(d) && r in d.registrations
    ensures var e := SetReady(d, r, ready);
            Inv(e) && Grows(d, e) && e.settled == d.settled && e.table == d.table && e.requests == d.requests
  {
  }

  lemma InvalidateKeeps(d: Desk, r: nat)
    requires Inv(d) && r in d.registrations
    ensures var e := Invalidate(d, r);
            Inv(e) && Grows(d, e) && e.table == d.table && e.registrations[r].pending.None?
            && e.requests == d.requests && e.registrations.Keys == d.registrations.Keys
  {
    ReadyKeeps(d, r, false);
    var e := SetReady(d, r, false);
    if e.registrations[r].pending.Some? { FinishKeeps(e, e.registrations[r].pending.value, Rejected(Cancelled)); }
  }

  lemma InvalidateRejects(d: Desk, r: nat)
    requires Inv(d) && r in d.registrations
    ensures forall q | q in Invalidate(d, r).settled && q !in d.settled :: Invalidate(d, r).settled[q].Rejected?
  {
  }

  /** What removing registrations does, one or many. */
  ghost predicate Removes(d: Desk, e: Desk) {
    && Inv(e) && Grows(d, e) && e.requests == d.requests
    && (forall id | id in e.table :: id in d.table && e.table[id] == d.table[id])
    && (forall q | q in e.settled && q !in d.settled :: e.settled[q].Rejected?)
  }

  /** A registration without a pending request may leave the table. */
  lemma UntableKeeps(f: Desk, id: nat)
    requires Inv(f) && id in f.table && f.registrations[f.table[id]].pending.None?
    ensures Inv(f.(table := f.table - {id}))
  {
  }

  lemma RemoveKeeps(d: Desk, r: nat)
    requires Inv(d) && r in d.registrations
    ensures Removes(d, Remove(d, r)) && !Tabled(Remove(d, r), r)
  {
    InvalidateKeeps(d, r);
    InvalidateRejects(d, r);
    var f, id := Invalidate(d, r), d.registrations[r].guest.id;
    if id in f.table && f.table[id] == r { UntableKeeps(f, id); }
  }

  lemma RemovesTransitive(a: Desk, b: Desk, c: Desk)
    requires Removes(a, b) && Removes(b, c)
    ensures Removes(a, c)
  {
  }

  lemma RemovesSelf(d: Desk)
    requires Inv(d)
    ensures Removes(d, d)
  {
  }

  lemma {:induction false} RemoveAllKeeps(d: Desk, rs: seq<nat>)
    requires Inv(d) && forall i | 0 <= i < |rs| :: rs[i] in d.registrations
    ensures Removes(d, RemoveAll(d, rs))
  {
    if rs == [] {
      RemovesSelf(d);
    } else {
      var before := RemoveAll(d, rs[..|rs| - 1]);
      RemoveAllKeeps(d, rs[..|rs| - 1]);
      RemoveKeeps(before, rs[|rs| - 1]);
      RemovesTransitive(d, before, RemoveAll(d, rs));
    }
  }

  lemma RemoveUntables(d: Desk, r: nat)
    requires Filed(d) && r in d.registrations
    ensures var e := Remove(d, r);
            Filed(e) && forall id | id in e.table :: id in d.table && e.table[id] == d.table[id] && e.table[id] != r
  {
  }

  lemma {:induction false} RemoveAllUntables(d: Desk, rs: seq<nat>)
    requires Filed(d) && forall i | 0 <= i < |rs| :: rs[i] in d.registrations
    ensures var e := RemoveAll(d, rs);
            Filed(e) && forall id | id in e.table :: e.table[id] !in rs
  {
    if rs != [] {
      var n := |rs| - 1;
      RemoveAllUntables(d, rs[..n]);
      RemoveUntables(RemoveAll(d, rs[..n]), rs[n]);
      assert rs == rs[..n] + [rs[n]];
    }
  }

  lemma EmptyTableSettles(e: Desk)
    requires Inv(e) && e.table == map[]
    ensures forall q | q in e.requests :: q in e.settled
  {
  }

  lemma DisposeKeeps(d: Desk, order: seq<nat>)
    requires Inv(d) && Enabled(d, DoDispose(order))
    ensures Removes(d, Dispose(d, order)) && forall q | q in Dispose(d, order).requests :: q in Dispose(d, order).settled
  {
    RemoveAllKeeps(d, order);
    RemoveAllUntables(d, order);
    var e := RemoveAll(d, order);
    assert e.table == map[];
    assert Dispose(d, order) == e;
    EmptyTableSettles(e);
  }

  lemma RegisterKeeps(d: Desk, guest: Guest, scope: Scope, admissible: bool)
    requires Inv(d)
    ensures var e := Register(d, guest, scope, admissible);
            Inv(e) && Grows(d, e) && e.settled == d.settled && e.requests == d.requests
  {
    var e := Register(d, guest, scope, admissible);
    if e != d {
      assert d.next !in d.registrations;
      forall r | r in e.registrations ensures r < e.next && PendingOk(e, r) {
        if r != d.next { assert PendingOk(d, r); }
      }
      forall q | q in e.requests ensures RequestOk(e, q) { assert RequestOk(d, q); }
    }
  }

  /** The step keeps the invariant and settles requests, if any, by rejecting them. */
  ghost predicate OnlyRejects(d: Desk, e: Desk) {
    Inv(e) && Grows(d, e) && forall q | q in e.settled && q !in d.settled :: e.settled[q].Rejected?
  }

  lemma CountedKeeps(d: Desk, r: nat)
    requires Inv(d) && r in d.registrations
    ensures OnlyRejects(d, Counted(d, r))
  {
    var e := Counted(d, r);
    forall x | x in e.registrations ensures PendingOk(e, x) { assert PendingOk(d, x); }
    forall q | q in e.requests ensures RequestOk(e, q) { assert RequestOk(d, q); }
  }

  lemma PlacedOrdered(d: Desk, r: nat, target: Target, requestId: string)
    requires Ordered(d) && r in d.registrations && forall q | q in d.requests :: RequestOk(d, q)
    ensures Ordered(Placed(d, r, target, requestId))
  {
  }

  lemma PlacedKeeps(d: Desk, r: nat, target: Target, requestId: string)
    requires Inv(d) && Tabled(d, r) && d.registrations[r].pending.None?
    ensures OnlyRejects(d, Placed(d, r, target, requestId))
  {
    var e := Placed(d, r, target, requestId);
    assert d.next !in d.requests;
    assert d.next !in d.settled;
    forall x | x in e.registrations ensures x < e.next && PendingOk(e, x) { assert PendingOk(d, x); }
    forall q | q in e.requests ensures RequestOk(e, q) {
      if q != d.next { assert RequestOk(d, q); }
    }
    PlacedOrdered(d, r, target, requestId);
  }

  lemma UnsentKeeps(d: Desk, r: nat, target: Target, requestId: string)
    requires Inv(d) && Tabled(d, r) && d.registrations[r].pending.None?
    ensures OnlyRejects(d, Finish(Placed(d, r, target, requestId), d.next, Rejected(Unavailable)))
  {
    var placed := Placed(d, r, target, requestId);
    PlacedKeeps(d, r, target, requestId);
    FinishKeeps(placed, d.next, Rejected(Unavailable));
    GrowsTransitive(d, placed, Finish(placed, d.next, Rejected(Unavailable)));
  }

  lemma AdmittedKeeps(d: Desk, r: nat, target: Target, aborted: bool, requestId: string, sent: bool)
    requires Inv(d) && Tabled(d, r) && d.registrations[r].pending.None?
    ensures OnlyRejects(d, Admitted(d, r, target, aborted, requestId, sent))
  {
    if aborted || !ValidRequest(d.registrations[r].sequence + 1, target) {
      CountedKeeps(d, r);
    } else if sent {
      PlacedKeeps(d, r, target, requestId);
    } else {
      UnsentKeeps(d, r, target, requestId);
    }
  }

  lemma AskKeeps(d: Desk, guestId: nat, scope: Scope, target: Target, originOk: bool, aborted: bool, requestId: string, sent: bool)
    requires Inv(d)
    ensures OnlyRejects(d, Ask(d, guestId, scope, target, originOk, aborted, requestId, sent))
  {
    if guestId in d.table && d.registrations[d.table[guestId]].pending.None? {
      AdmittedKeeps(d, d.table[guestId], target, aborted, requestId, sent);
    }
  }

  lemma ExpireKeeps(d: Desk, q: nat, code: Code, told: bool)
    requires Inv(d) && q in d.requests
    ensures var e := Expire(d, q, code, told);
            Inv(e) && Grows(d, e) && SettlesOnly(d, e, q, Rejected(code)) && q in e.settled
  {
    FinishKeeps(d, q, Rejected(code));
    ReadyKeeps(Finish(d, q, Rejected(code)), d.requests[q].registration, false);
  }

  lemma TakeReadyKeeps(d: Desk, sender: Guest, mainFrame: bool, originOk: bool, available: Option<bool>)
    requires Inv(d)
    ensures OnlyRejects(d, TakeReady(d, sender, mainFrame, originOk, available))
  {
    var admitted := Admit(d, sender, mainFrame, originOk);
    if admitted.Some? {
      var r := admitted.value;
      ReadyKeeps(d, r, available == Some(true));
      var e := SetReady(d, r, available == Some(true));
      if e.registrations[r].pending.Some? { FinishKeeps(e, e.registrations[r].pending.value, Rejected(Unavailable)); }
    }
  }

  /** The request a reply is about: the pending one of the registration its sender speaks for. */
  function Addressed(d: Desk, sender: Guest, mainFrame: bool, originOk: bool): Option<nat> {
    match Admit(d, sender, mainFrame, originOk)
    case None => None
    case Some(r) => d.registrations[r].pending
  }

  /** A reply settles nothing but the pending request of its sender, and resolves it only by an exact match. */
  lemma TakeReplyKeeps(d: Desk, sender: Guest, mainFrame: bool, originOk: bool, reply: Reply)
    requires Inv(d)
    ensures var e := TakeReply(d, sender, mainFrame, originOk, reply);
            && Inv(e) && Grows(d, e)
            && forall q | q in e.settled && q !in d.settled ::
                 && Addressed(d, sender, mainFrame, originOk) == Some(q)
                 && (!reply.Malformed? ==> reply.requestId == d.requests[q].requestId && reply.sequence == d.requests[q].sequence)
                 && (e.settled[q].Resolved? ==> reply == Confirmed(d.requests[q].requestId, d.requests[q].sequence, d.requests[q].target))
  {
    var p := Addressed(d, sender, mainFrame, originOk);
    if p.Some? {
      var q := p.value;
      assert PendingOk(d, Admit(d, sender, mainFrame, originOk).value);
      var asked := d.requests[q];
      if reply.Malformed? {
        FinishKeeps(d, q, Rejected(InvalidRequest));
      } else if reply.requestId == asked.requestId && reply.sequence == asked.sequence {
        if reply.Refusal? {
          FinishKeeps(d, q, Rejected(Told(reply.reason)));
        } else if reply.selection != asked.target {
          FinishKeeps(d, q, Rejected(Unconfirmed));
        } else {
          FinishKeeps(d, q, Resolved(asked.target, asked.requestId, asked.sequence));
        }
      }
    }
  }

  lemma StepKeeps(d: Desk, a: Action)
    requires Inv(d) && Enabled(d, a)
    ensures Inv(Next(d, a)) && Grows(d, Next(d, a))
  {
    match a {
      case DoRegister(guest, scope, admissible) => RegisterKeeps(d, guest, scope, admissible);
      case DoNavigate(r, mainFrame) => InvalidateKeeps(d, r);
      case DoRemove(r) => RemoveKeeps(d, r);
      case DoAsk(id, scope, target, originOk, aborted, requestId, sent) =>
        AskKeeps(d, id, scope, target, originOk, aborted, requestId, sent);
      case DoTimeout(q, told) => ExpireKeeps(d, q, Timeout, told);
      case DoAbort(q, told) => ExpireKeeps(d, q, Cancelled, told);
      case DoReady(sender, mainFrame, originOk, available) => TakeReadyKeeps(d, sender, mainFrame, originOk, available);
      case DoReply(sender, mainFrame, originOk, reply) => TakeReplyKeeps(d, sender, mainFrame, originOk, reply);
      case DoDispose(order) => DisposeKeeps(d, order);
    }
  }

  lemma GrowsTransitive(a: Desk, b: Desk, c: Desk)
    requires Grows(a, b) && Grows(b, c)
    ensures Grows(a, c)
  {
  }

  lemma {:induction false} RunKeeps(desks: seq<Desk>, actions: seq<Action>, i: nat, j: nat)
    requires Run(desks, actions) && i <= j < |desks|
    ensures Inv(desks[j]) && Grows(desks[i], desks[j])
    decreases j
  {
    if j > 0 {
      RunKeeps(desks, actions, if i < j then i else j - 1, j - 1);
      StepKeeps(desks[j - 1], actions[j - 1]);
      assert desks[j] == Next(desks[j - 1], actions[j - 1]);
      if i < j { GrowsTransitive(desks[i], desks[j - 1], desks[j]); }
    }
  }

  // The claims.

  /** In every run, two unsettled requests of one guest id are the same request. */
  lemma AtMostOnePending(desks: seq<Desk>, actions: seq<Action>, i: nat, p: nat, q: nat)
    requires Run(desks, actions) && i < |desks|
    requires p in desks[i].requests && p !in desks[i].settled && q in desks[i].requests && q !in desks[i].settled
    ensures desks[i].requests[p].registration in desks[i].registrations && desks[i].requests[q].registration in desks[i].registrations
    ensures (desks[i].registrations[desks[i].requests[p].registration].guest.id ==
             desks[i].registrations[desks[i].requests[q].registration].guest.id) ==> p == q
  {
    RunKeeps(desks, actions, i, i);
    assert RequestOk(desks[i], p) && RequestOk(desks[i], q);
    assert PendingOk(desks[i], desks[i].requests[p].registration) && PendingOk(desks[i], desks[i].requests[q].registration);
  }

  /** In every run, a settled request keeps its first outcome for good. */
  lemma SettlesAtMostOnce(desks: seq<Desk>, actions: seq<Action>, i: nat, j: nat, q: nat)
    requires Run(desks, actions) && i <= j < |desks| && q in desks[i].settled
    ensures q in desks[j].settled && desks[j].settled[q] == desks[i].settled[q]
  {
    RunKeeps(desks, actions, i, j);
  }

  /** A request becomes resolved only in the step of a reply from its own guest that repeats its id, sequence and target. */
  lemma OnlyExactReplyResolves(desks: seq<Desk>, actions: seq<Action>, i: nat, q: nat)
    requires Run(desks, actions) && i < |actions|
    requires q !in desks[i].settled && q in desks[i + 1].settled && desks[i + 1].settled[q].Resolved?
    ensures actions[i].DoReply? && q in desks[i].requests
    ensures var d, asked := desks[i], desks[i].requests[q];
            && actions[i].reply == Confirmed(asked.requestId, asked.sequence, asked.target)
            && asked.registration in d.registrations && d.registrations[asked.registration].guest == actions[i].sender
  {
    var d, a := desks[i], actions[i];
    RunKeeps(desks, actions, i, i);
    assert desks[i + 1] == Next(d, a);
    match a {
      case DoAsk(id, scope, target, originOk, aborted, requestId, sent) =>
        AskKeeps(d, id, scope, target, originOk, aborted, requestId, sent);
      case DoTimeout(p, told) => ExpireKeeps(d, p, Timeout, told);
      case DoAbort(p, told) => ExpireKeeps(d, p, Cancelled, told);
      case DoReady(sender, mainFrame, originOk, available) => TakeReadyKeeps(d, sender, mainFrame, originOk, available);
      case DoReply(sender, mainFrame, originOk, reply) =>
        TakeReplyKeeps(d, sender, mainFrame, originOk, reply);
        assert PendingOk(d, Admit(d, sender, mainFrame, originOk).value);
      case DoRegister(guest, scope, admissible) => RegisterKeeps(d, guest, scope, admissible);
      case DoNavigate(r, mainFrame) => InvalidateRejects(d, r);
      case DoRemove(r) => RemoveKeeps(d, r);
      case DoDispose(order) => DisposeKeeps(d, order);
    }
  }

  /** The reply fits the request: it repeats its id and sequence, or it is no valid reply at all. */
  predicate Fits(reply: Reply, asked: Request) {
    reply.Malformed? || (reply.requestId == asked.requestId && reply.sequence == asked.sequence)
  }

  /** A reply settles an unsettled request exactly when it is the pending one of the sender and the reply is malformed or repeats its id and sequence. */
  lemma ReplySettlesIff(desks: seq<Desk>, actions: seq<Action>, i: nat, q: nat)
    requires Run(desks, actions) && i < |actions| && actions[i].DoReply?
    requires q in desks[i].requests && q !in desks[i].settled
    ensures q in desks[i + 1].settled <==>
              && Addressed(desks[i], actions[i].sender, actions[i].mainFrame, actions[i].originOk) == Some(q)
              && Fits(actions[i].reply, desks[i].requests[q])
  {
    RunKeeps(desks, actions, i, i);
    ReplyStepIff(desks[i], actions[i], q);
    assert desks[i + 1] == Next(desks[i], actions[i]);
  }

  lemma ReplyStepIff(d: Desk, a: Action, q: nat)
    requires Inv(d) && a.DoReply? && q in d.requests && q !in d.settled
    ensures q in Next(d, a).settled <==>
              Addressed(d, a.sender, a.mainFrame, a.originOk) == Some(q) && Fits(a.reply, d.requests[q])
  {
    TakeReplyKeeps(d, a.sender, a.mainFrame, a.originOk, a.reply);
    if Addressed(d, a.sender, a.mainFrame, a.originOk) == Some(q) && Fits(a.reply, d.requests[q]) {
      ReplyStepOutcome(d, a.sender, a.mainFrame, a.originOk, a.reply, q);
    }
  }

  // With what outcome requests settle.

  /** What a fitting reply means for the request. */
  function OutcomeOf(reply: Reply, asked: Request): Outcome {
    match reply
    case Malformed => Rejected(InvalidRequest)
    case Refusal(_, _, reason) => Rejected(Told(reason))
    case Confirmed(_, _, selection) =>
      if selection == asked.target then Resolved(asked.target, asked.requestId, asked.sequence) else Rejected(Unconfirmed)
  }

  /** Nothing but pending requests and outcomes differs. */
  ghost predicate SameButPending(d: Desk, e: Desk) {
    && e.table == d.table && e.requests == d.requests && e.next == d.next && e.registrations.Keys == d.registrations.Keys
    && forall r | r in d.registrations :: e.registrations[r] == d.registrations[r].(pending := e.registrations[r].pending)
  }

  lemma ReplyStepOutcome(d: Desk, sender: Guest, mainFrame: bool, originOk: bool, reply: Reply, q: nat)
    requires Inv(d) && q in d.requests && Addressed(d, sender, mainFrame, originOk) == Some(q) && Fits(reply, d.requests[q])
    ensures var e := TakeReply(d, sender, mainFrame, originOk, reply);
            q in e.settled && e.settled[q] == OutcomeOf(reply, d.requests[q])
  {
    assert PendingOk(d, Admit(d, sender, mainFrame, originOk).value);
  }

  lemma ReplyStepKeepsRest(d: Desk, sender: Guest, mainFrame: bool, originOk: bool, reply: Reply)
    ensures SameButPending(d, TakeReply(d, sender, mainFrame, originOk, reply))
  {
  }

  /**
   In every run, a fitting reply to the pending request of its sender settles it as it says: resolved exactly
   for a confirmed selection of the requested target, rejected with the reason of a refusal, rejected as
   unconfirmed for another selection. A reply changes nothing else.
   */
  lemma ReplyOutcome(desks: seq<Desk>, actions: seq<Action>, i: nat, q: nat)
    requires Run(desks, actions) && i < |actions| && actions[i].DoReply? && q in desks[i].requests
    requires Addressed(desks[i], actions[i].sender, actions[i].mainFrame, actions[i].originOk) == Some(q)
    requires Fits(actions[i].reply, desks[i].requests[q])
    ensures q in desks[i + 1].settled && desks[i + 1].settled[q] == OutcomeOf(actions[i].reply, desks[i].requests[q])
    ensures SameButPending(desks[i], desks[i + 1])
  {
    var a := actions[i];
    RunKeeps(desks, actions, i, i);
    assert desks[i + 1] == Next(desks[i], a);
    ReplyStepOutcome(desks[i], a.sender, a.mainFrame, a.originOk, a.reply, q);
    ReplyStepKeepsRest(desks[i], a.sender, a.mainFrame, a.originOk, a.reply);
  }

  /** The registration that a request for a guest would go to, if it may be asked now. */
  ghost predicate MayAsk(d: Desk, guestId: nat, scope: Scope, originOk: bool, r: nat) {
    && guestId in d.table && d.table[guestId] == r && r in d.registrations
    && d.registrations[r].ready && d.registrations[r].scope == scope && originOk && d.registrations[r].pending.None?
  }

  /** An admitted request: the sequence number goes up, and a valid request that was not aborted comes into being with it. */
  ghost predicate Asked(d: Desk, e: Desk, a: Action, r: nat)
    requires a.DoAsk? && r in d.registrations
  {
    var sequence := d.registrations[r].sequence + 1;
    && r in e.registrations && e.registrations[r].sequence == sequence && e.table == d.table
    && if ValidRequest(sequence, a.target) && !a.aborted then
         && e.requests == d.requests[d.next := Request(r, a.requestId, sequence, a.target)]
         && e.registrations[r].pending == (if a.sent then Some(d.next) else None)
         && e.settled == (if a.sent then d.settled else d.settled[d.next := Rejected(Unavailable)])
       else e.requests == d.requests && e.settled == d.settled && e.registrations[r].pending.None?
  }

  lemma AskStepOutcome(d: Desk, a: Action, r: nat)
    requires a.DoAsk? && MayAsk(d, a.guestId, a.scope, a.originOk, r)
    ensures Asked(d, Next(d, a), a, r)
  {
  }

  lemma AskStepNothing(d: Desk, a: Action)
    requires a.DoAsk? && forall r :: !MayAsk(d, a.guestId, a.scope, a.originOk, r)
    ensures Next(d, a) == d
  {
    if a.guestId in d.table { assert !MayAsk(d, a.guestId, a.scope, a.originOk, d.table[a.guestId]); }
  }

  /**
   What asking does, in every run: without a ready guest of the scope that has nothing pending, nothing; else
   the request comes into being, pending, or rejected at once when it cannot be sent.
   */
  lemma AskOutcome(desks: seq<Desk>, actions: seq<Action>, i: nat)
    requires Run(desks, actions) && i < |actions| && actions[i].DoAsk?
    ensures var d, e, a := desks[i], desks[i + 1], actions[i];
            && ((forall r :: !MayAsk(d, a.guestId, a.scope, a.originOk, r)) ==> e == d)
            && forall r | MayAsk(d, a.guestId, a.scope, a.originOk, r) :: Asked(d, e, a, r)
  {
    var d, a := desks[i], actions[i];
    assert desks[i + 1] == Next(d, a);
    if forall r :: !MayAsk(d, a.guestId, a.scope, a.originOk, r) { AskStepNothing(d, a); }
    forall r | MayAsk(d, a.guestId, a.scope, a.originOk, r) ensures Asked(d, Next(d, a), a, r) {
      AskStepOutcome(d, a, r);
    }
  }

  /** A readiness message of a registered guest sets its readiness as it says; unless it says ready, the pending request is rejected as unavailable. */
  lemma ReadyOutcome(desks: seq<Desk>, actions: seq<Action>, i: nat)
    requires Run(desks, actions) && i < |actions| && actions[i].DoReady?
    ensures var d, e, a := desks[i], desks[i + 1], actions[i];
            match Admit(d, a.sender, a.mainFrame, a.originOk)
            case None => e == d
            case Some(r) =>
              && r in e.registrations && (e.registrations[r].ready <==> a.available == Some(true))
              && (a.available == Some(true) ==> e.settled == d.settled)
              && (a.available != Some(true) && d.registrations[r].pending.Some? ==>
                    e.settled == d.settled[d.registrations[r].pending.value := Rejected(Unavailable)])
  {
    var d, a := desks[i], actions[i];
    RunKeeps(desks, actions, i, i);
    assert desks[i + 1] == Next(d, a);
    var admitted := Admit(d, a.sender, a.mainFrame, a.originOk);
    if admitted.Some? { assert PendingOk(d, admitted.value); }
  }

  /** Whoever speaks for a registration is its own guest object, in its main frame and at its origin; a message of anyone else changes nothing. */
  lemma OutsidersAreIgnored(desks: seq<Desk>, actions: seq<Action>, i: nat, r: nat)
    requires Run(desks, actions) && i < |actions| && (actions[i].DoReady? || actions[i].DoReply?)
    ensures var d, a := desks[i], actions[i];
            && (Admit(d, a.sender, a.mainFrame, a.originOk) == Some(r) <==>
                  Tabled(d, r) && d.registrations[r].guest == a.sender && a.mainFrame && a.originOk)
            && ((forall x :: !(Tabled(d, x) && d.registrations[x].guest == a.sender && a.mainFrame && a.originOk)) ==> desks[i + 1] == d)
  {
    var d, a := desks[i], actions[i];
    RunKeeps(desks, actions, i, i);
    assert desks[i + 1] == Next(d, a);
    var admitted := Admit(d, a.sender, a.mainFrame, a.originOk);
    if admitted.Some? { assert Tabled(d, admitted.value); }
  }

  /** A timeout or an abort rejects its own request as such if it is still unsettled, and withdraws readiness exactly when the guest cannot be told. */
  lemma ExpiryOutcome(desks: seq<Desk>, actions: seq<Action>, i: nat)
    requires Run(desks, actions) && i < |actions| && (actions[i].DoTimeout? || actions[i].DoAbort?)
    ensures var d, e, a := desks[i], desks[i + 1], actions[i];
            && a.request in d.requests && d.requests[a.request].registration in d.registrations
            && e.settled == (if a.request in d.settled then d.settled
                             else d.settled[a.request := Rejected(if a.DoTimeout? then Timeout else Cancelled)])
            && var r := d.requests[a.request].registration;
               r in e.registrations && e.registrations[r].ready == (d.registrations[r].ready && a.told)
  {
    var d, a := desks[i], actions[i];
    RunKeeps(desks, actions, i, i);
    assert Enabled(d, a) && desks[i + 1] == Next(d, a);
    assert RequestOk(d, a.request) && PendingOk(d, d.requests[a.request].registration);
  }

  /** A main-frame navigation or a removal withdraws readiness and cancels the pending request; any other navigation changes nothing. */
  lemma DepartureOutcome(desks: seq<Desk>, actions: seq<Action>, i: nat)
    requires Run(desks, actions) && i < |actions| && (actions[i].DoNavigate? || actions[i].DoRemove?)
    ensures var d, e, a := desks[i], desks[i + 1], actions[i];
            && a.registration in d.registrations
            && (a.DoNavigate? && !a.mainFrame ==> e == d)
            && (a.DoRemove? || a.mainFrame ==>
                  var pending := d.registrations[a.registration].pending;
                  && a.registration in e.registrations && !e.registrations[a.registration].ready
                  && e.settled == (if pending.Some? then d.settled[pending.value := Rejected(Cancelled)] else d.settled))
  {
    var d, a := desks[i], actions[i];
    RunKeeps(desks, actions, i, i);
    assert Enabled(d, a) && desks[i + 1] == Next(d, a);
    assert PendingOk(d, a.registration);
  }

  /**
   An answer to an earlier request settles a later one exactly when it arrives from the guest that the later
   one waits for and fails validation. For requests of one registration this holds whatever the request
   ids; across registrations it needs the two ids to differ.
   */
  lemma LateReplySettlesIff(desks: seq<Desk>, actions: seq<Action>, i: nat, m: Message, late: nat, q: nat)
    requires Run(desks, actions) && i < |actions| && actions[i].DoReply? && actions[i].reply == Received(m)
    requires late in desks[i].requests && q in desks[i].requests && late != q && q !in desks[i].settled
    requires m.Answer? && m.requestId == desks[i].requests[late].requestId && m.sequence == desks[i].requests[late].sequence
    requires desks[i].requests[late].registration == desks[i].requests[q].registration ||
             desks[i].requests[late].requestId != desks[i].requests[q].requestId
    ensures q in desks[i + 1].settled <==>
              Addressed(desks[i], actions[i].sender, actions[i].mainFrame, actions[i].originOk) == Some(q) && !ValidAnswer(m)
  {
    RunKeeps(desks, actions, i, i);
    ReplySettlesIff(desks, actions, i, q);
  }

  /** So such an answer rejects the later request. */
  lemma LateInvalidAnswerRejects(desks: seq<Desk>, actions: seq<Action>, i: nat, q: nat)
    requires Run(desks, actions) && i < |actions| && actions[i].DoReply? && actions[i].reply.Malformed?
    requires Addressed(desks[i], actions[i].sender, actions[i].mainFrame, actions[i].originOk) == Some(q)
    ensures q in desks[i + 1].settled && desks[i + 1].settled[q] == Rejected(InvalidRequest)
  {
    var d, a := desks[i], actions[i];
    RunKeeps(desks, actions, i, i);
    assert desks[i + 1] == Next(d, a);
    assert PendingOk(d, Admit(d, a.sender, a.mainFrame, a.originOk).value);
    ReplyStepOutcome(d, a.sender, a.mainFrame, a.originOk, a.reply, q);
  }

  /** A timer or an abort settles at most its own request, however late it fires. */
  lemma LateTimerIsHarmless(desks: seq<Desk>, actions: seq<Action>, i: nat, q: nat)
    requires Run(desks, actions) && i < |actions| && (actions[i].DoTimeout? || actions[i].DoAbort?)
    requires q != actions[i].request && q !in desks[i].settled
    ensures q !in desks[i + 1].settled
  {
  }

  /** No request of a registration survives its main-frame navigation or removal, and none at all survives disposal. */
  lemma NoSurvivor(desks: seq<Desk>, actions: seq<Action>, i: nat, q: nat)
    requires Run(desks, actions) && i < |actions| && q in desks[i + 1].requests
    requires || (actions[i].DoNavigate? && actions[i].mainFrame && desks[i + 1].requests[q].registration == actions[i].registration)
             || (actions[i].DoRemove? && desks[i + 1].requests[q].registration == actions[i].registration)
             || actions[i].DoDispose?
    ensures q in desks[i + 1].settled
  {
    RunKeeps(desks, actions, i, i);
    RunKeeps(desks, actions, i, i + 1);
    var d, e, a := desks[i], desks[i + 1], actions[i];
    assert e == Next(d, a);
    assert RequestOk(e, q);
    if a.DoDispose? {
      DisposeKeeps(d, a.order);
    } else {
      InvalidateKeeps(d, a.registration);
    }
  }

  // A run in which that happens.

  const GUEST := Guest(0, 0)

  /** A ready guest with its first request timed out and its second one pending. */
  function SecondPending(scope: Scope, target: Target, first: string, second: string): Desk {
    Desk(map[0 := 0], map[0 := Registration(GUEST, scope, 2, true, Some(2))],
         map[1 := Request(0, first, 1, target), 2 := Request(0, second, 2, target)], map[1 := Rejected(Timeout)], 3)
  }

  function Asking(scope: Scope, target: Target, id: string): Action {
    DoAsk(0, scope, target, true, false, id, true)
  }

  lemma FirstAsked(scope: Scope, target: Target, first: string, d: Desk)
    requires ValidRequest(1, target)
    requires d == Desk(map[0 := 0], map[0 := Registration(GUEST, scope, 0, true, None)], map[], map[], 1)
    ensures Next(d, Asking(scope, target, first)) ==
              Desk(map[0 := 0], map[0 := Registration(GUEST, scope, 1, true, Some(1))], map[1 := Request(0, first, 1, target)], map[], 2)
  {
  }

  lemma FirstTimesOut(scope: Scope, target: Target, first: string, d: Desk)
    requires d == Desk(map[0 := 0], map[0 := Registration(GUEST, scope, 1, true, Some(1))], map[1 := Request(0, first, 1, target)], map[], 2)
    ensures Enabled(d, DoTimeout(1, true))
    ensures Next(d, DoTimeout(1, true)) ==
              d.(registrations := map[0 := Registration(GUEST, scope, 1, true, None)], settled := map[1 := Rejected(Timeout)])
  {
  }

  lemma SecondAsked(scope: Scope, target: Target, first: string, second: string, d: Desk)
    requires ValidRequest(2, target)
    requires d == Desk(map[0 := 0], map[0 := Registration(GUEST, scope, 1, true, None)], map[1 := Request(0, first, 1, target)], map[1 := Rejected(Timeout)], 2)
    ensures Next(d, Asking(scope, target, second)) == SecondPending(scope, target, first, second)
  {
    assert map[1 := Request(0, first, 1, target)][2 := Request(0, second, 2, target)] ==
           map[1 := Request(0, first, 1, target), 2 := Request(0, second, 2, target)];
  }

  lemma GuestReady(scope: Scope, d: Desk)
    requires d == Desk(map[0 := 0], map[0 := Registration(GUEST, scope, 0, false, None)], map[], map[], 1)
    ensures Next(NEW_DESK, DoRegister(GUEST, scope, true)) == d
    ensures Next(d, DoReady(GUEST, true, true, Some(true))) == d.(registrations := map[0 := Registration(GUEST, scope, 0, true, None)])
  {
  }

  lemma MalformedSettlesSecond(scope: Scope, target: Target, first: string, second: string, e: Desk)
    requires e == Next(SecondPending(scope, target, first, second), DoReply(GUEST, true, true, Malformed))
    ensures 2 in e.settled && e.settled[2] == Rejected(InvalidRequest)
  {
  }

  lemma EmptyCodeIsInvalid(first: string)
    ensures Received(Answer(1, first, 1, Code(""))) == Malformed
  {
    assert forall i | 0 <= i < |ERROR_CODES| :: |ERROR_CODES[i]| > 0;
  }

  lemma RunOfSix(d: seq<Desk>, a: seq<Action>)
    requires |d| == 7 && |a| == 6 && d[0] == NEW_DESK
    requires Enabled(d[0], a[0]) && d[1] == Next(d[0], a[0]) && Enabled(d[1], a[1]) && d[2] == Next(d[1], a[1])
    requires Enabled(d[2], a[2]) && d[3] == Next(d[2], a[2]) && Enabled(d[3], a[3]) && d[4] == Next(d[3], a[3])
    requires Enabled(d[4], a[4]) && d[5] == Next(d[4], a[4]) && Enabled(d[5], a[5]) && d[6] == Next(d[5], a[5])
    ensures Run(d, a)
  {
  }

  function StaleDesks(scope: Scope, target: Target, first: string, second: string): seq<Desk> {
    var d1 := Desk(map[0 := 0], map[0 := Registration(GUEST, scope, 0, false, None)], map[], map[], 1);
    var d2 := d1.(registrations := map[0 := Registration(GUEST, scope, 0, true, None)]);
    var d3 := Desk(map[0 := 0], map[0 := Registration(GUEST, scope, 1, true, Some(1))], map[1 := Request(0, first, 1, target)], map[], 2);
    var d4 := d3.(registrations := map[0 := Registration(GUEST, scope, 1, true, None)], settled := map[1 := Rejected(Timeout)]);
    var d5 := SecondPending(scope, target, first, second);
    [NEW_DESK, d1, d2, d3, d4, d5, Next(d5, DoReply(GUEST, true, true, Malformed))]
  }

  function StaleActions(scope: Scope, target: Target, first: string, second: string): seq<Action> {
    [DoRegister(GUEST, scope, true), DoReady(GUEST, true, true, Some(true)), Asking(scope, target, first),
     DoTimeout(1, true), Asking(scope, target, second), DoReply(GUEST, true, true, Malformed)]
  }

  lemma StaleRun(scope: Scope, target: Target, first: string, second: string)
    requires ValidRequest(1, target)
    ensures Run(StaleDesks(scope, target, first, second), StaleActions(scope, target, first, second))
  {
    var d, a := StaleDesks(scope, target, first, second), StaleActions(scope, target, first, second);
    GuestReady(scope, d[1]);
    FirstAsked(scope, target, first, d[2]);
    FirstTimesOut(scope, target, first, d[3]);
    SecondAsked(scope, target, first, second, d[4]);
    RunOfSix(d, a);
  }

  /** The answer to a request that timed out carries an unknown error code: the next request is rejected with it. */
  lemma StaleAnswerRejectsNext(scope: Scope, target: Target, first: string, second: string, m: Message)
    requires ValidRequest(1, target) && IsRequestId(first) && IsRequestId(second) && m == Answer(1, first, 1, Code(""))
    ensures var desks, actions := StaleDesks(scope, target, first, second), StaleActions(scope, target, first, second);
            && Run(desks, actions) && desks[5] == SecondPending(scope, target, first, second)
            && actions[5] == DoReply(GUEST, true, true, Received(m))
            && 2 in desks[6].settled && desks[6].settled[2] == Rejected(InvalidRequest)
  {
    StaleRun(scope, target, first, second);
    EmptyCodeIsInvalid(first);
    MalformedSettlesSecond(scope, target, first, second, StaleDesks(scope, target, first, second)[6]);
  }
}
