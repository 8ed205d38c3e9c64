/** The invariant of the queue, the records of all requests ever scheduled, and the event log. */
module TimelockQueue {
  import opened Base
  import opened Requests
  import opened Timelock
  import opened TimelockWorld

  /** Ids count the records; the stored requests are exactly the pending records. */
  ghost predicate Queue(w: World) {
    && |w.history| == w.storage.nextId
    && w.storage.delay <= MAX_DELAY_NS
    && (forall id | id in w.storage.requests ::
          id < |w.history| && w.history[id].fate.Pending? && w.storage.requests[id] == w.history[id].request)
    && (forall i | 0 <= i < |w.history| && w.history[i].fate.Pending? :: i in w.storage.requests)
  }

  /** How a request was scheduled: by the DAO of the time, with its deposits escrowed and its delay fixed. */
  ghost predicate Scheduled(r: Record, now: U64) {
    var q := r.request;
    && r.scheduler == r.dao == q.funder
    && r.delay <= MAX_DELAY_NS
    && r.at <= now
    && q.executeAfter == SatAdd64(r.at, r.delay)
    && WellShaped(q)
    && r.attached == TotalDeposit(q) == DepositSum(q.actions) < U128_MAX
  }

  ghost predicate LogsScheduling(e: Event, i: nat, q: Request) {
    if q.approve.None?
    then e.ScheduleEvent? && e.id == i && e.executeAfter == q.executeAfter && e.predecessor == q.predecessor
    else e.ProposalEvent? && e.id == i && e.dao == q.receiver && e.executeAfter == q.executeAfter
         && e.predecessor == q.predecessor
  }

  /** An executed request ran no earlier than allowed; leaving the queue is logged after entering it. */
  ghost predicate Departed(r: Record, i: nat, now: U64, events: seq<Event>) {
    match r.fate
    case Pending => true
    case Executed(at, closed, _) =>
      && r.request.executeAfter <= at <= now && r.at <= at
      && r.logged < closed < |events|
      && events[closed].ExecuteEvent? && events[closed].id == i && events[closed].receiver == r.request.receiver
    case Cancelled(at, closed, guardian, _) =>
      && r.at <= at <= now
      && r.logged < closed < |events|
      && events[closed].CancelEvent? && events[closed].id == i && events[closed].receiver == r.request.receiver
      && events[closed].guardian == guardian
  }

  /** A predecessor leaves after its dependent was scheduled, and before its dependent executes. */
  ghost predicate Ordered(r: Record, p: Record) {
    && (!p.fate.Pending? ==> r.logged < p.fate.closed)
    && (r.fate.Executed? ==> !p.fate.Pending? && p.fate.closed < r.fate.closed && p.fate.at <= r.fate.at)
  }

  ghost predicate RecordOk(history: seq<Record>, now: U64, events: seq<Event>, i: nat)
    requires i < |history|
  {
    var r := history[i];
    && Scheduled(r, now)
    && r.logged < |events| && LogsScheduling(events[r.logged], i, r.request)
    && Departed(r, i, now, events)
    && (r.request.predecessor.Some? ==>
          r.request.predecessor.value < i && Ordered(r, history[r.request.predecessor.value]))
  }

  ghost predicate Records(w: World) {
    forall i | 0 <= i < |w.history| :: RecordOk(w.history, w.now, w.events, i)
  }

  // ---- Replaying the log ----

  datatype Summary = Summary(executeAfter: U64, predecessor: Option<U64>)

  function ReplayOne(before: map<U64, Summary>, e: Event): map<U64, Summary> {
    match e
    case ScheduleEvent(id, executeAfter, predecessor) => before[id := Summary(executeAfter, predecessor)]
    case ProposalEvent(id, _, executeAfter, predecessor) => before[id := Summary(executeAfter, predecessor)]
    case ExecuteEvent(id, _) => before - {id}
    case CancelEvent(id, _, _) => before - {id}
    case ApproveEvent(_, _) => before
    case FailedEvent(_, _, _) => before
  }

  /** The pending requests an observer derives from the log alone. */
  function Replay(events: seq<Event>): map<U64, Summary> {
    if events == [] then map[] else ReplayOne(Replay(events[..|events| - 1]), events[|events| - 1])
  }

  function Summaries(requests: map<U64, Request>): map<U64, Summary> {
    map id | id in requests :: Summary(requests[id].executeAfter, requests[id].predecessor)
  }

  ghost predicate Replayed(w: World) {
    Replay(w.events) == Summaries(w.storage.requests)
  }

  ghost predicate QueueInv(w: World) {
    Queue(w) && Records(w) && Replayed(w)
  }

  // ---- Each kind of effect keeps the invariant ----

  lemma RecordLater(history: seq<Record>, now: U64, later: U64, events: seq<Event>, more: seq<Event>, i: nat)
    requires i < |history| && now <= later && RecordOk(history, now, events, i)
    ensures RecordOk(history, later, events + more, i)
  {
  }

  lemma RecordsLater(w: World, v: World)
    requires Records(w) && v.history == w.history && w.now <= v.now && w.events <= v.events
    ensures Records(v)
  {
    forall i | 0 <= i < |v.history| ensures RecordOk(v.history, v.now, v.events, i) {
      RecordLater(w.history, w.now, v.now, w.events, v.events[|w.events|..], i);
      assert v.events == w.events + v.events[|w.events|..];
    }
  }

  lemma ReplayAppend(events: seq<Event>, e: Event)
    ensures Replay(events + [e]) == ReplayOne(Replay(events), e)
  {
    assert (events + [e])[..|events|] == events;
  }

  /** A new request enters: its record is appended, and its scheduling logged. */
  ghost predicate Enters(w: World, v: World, r: Record, e: Event) {
    && w.storage.nextId < U64_MAX
    && v.storage == w.storage.(nextId := w.storage.nextId + 1,
                               requests := w.storage.requests[w.storage.nextId := r.request])
    && v.now == w.now
    && v.history == w.history + [r]
    && v.events == w.events + [e]
    && r.fate.Pending? && r.logged == |w.events|
    && Scheduled(r, w.now)
    && PredecessorFound(w.storage, r.request.predecessor)
    && LogsScheduling(e, w.storage.nextId, r.request)
  }

  lemma EnteringRecords(w: World, v: World, r: Record, e: Event)
    requires Queue(w) && Records(w) && Enters(w, v, r, e)
    ensures Records(v)
  {
    forall i | 0 <= i < |v.history| ensures RecordOk(v.history, v.now, v.events, i) {
      if i < |w.history| {
        RecordLater(w.history, w.now, w.now, w.events, [e], i);
      }
    }
  }

  lemma EnteringReplay(w: World, v: World, r: Record, e: Event)
    requires Replayed(w) && Enters(w, v, r, e)
    ensures Replayed(v)
  {
    ReplayAppend(w.events, e);
    var q := r.request;
    assert Summaries(v.storage.requests)
        == Summaries(w.storage.requests)[w.storage.nextId := Summary(q.executeAfter, q.predecessor)];
  }

  lemma EnqueueKeepsQueue(w: World, caller: AccountId, attached: U128, h: Handled)
    requires QueueInv(w) && h.effect.Enqueued? && attached < U128_MAX
    requires EnqueueRule(Env(w.me, caller, w.now, attached), w.storage, h)
    ensures QueueInv(Absorb(w, caller, attached, h))
  {
    var v := Absorb(w, caller, attached, h);
    TotalDepositExact(h.effect.request);
    var r := v.history[|w.history|];
    var e := EventsOf(h.effect)[0];
    EnteringRecords(w, v, r, e);
    EnteringReplay(w, v, r, e);
  }

  /** A pending request leaves: its record is closed, and its leaving logged. */
  ghost predicate Leaves(w: World, v: World, id: U64, fate: Fate, e: Event) {
    && id in w.storage.requests
    && v.storage == w.storage.(requests := w.storage.requests - {id})
    && v.now == w.now
    && v.history == Close(w.history, id, fate)
    && v.events == w.events + [e]
    && !fate.Pending? && fate.at == w.now && fate.closed == |w.events|
    && (if fate.Executed?
        then e == ExecuteEvent(id, w.storage.requests[id].receiver)
             && w.storage.requests[id].executeAfter <= w.now
             && (w.storage.requests[id].predecessor.Some? ==>
                   w.storage.requests[id].predecessor.value !in w.storage.requests - {id})
        else e == CancelEvent(id, w.storage.requests[id].receiver, fate.guardian))
  }

  /** Leaving keeps the order between a request and its predecessor, whichever of the two leaves. */
  lemma LeavingOrdered(w: World, v: World, id: U64, fate: Fate, e: Event, i: nat, p: nat)
    requires QueueInv(w) && Leaves(w, v, id, fate, e) && i < |w.history|
    requires w.history[i].request.predecessor == Some(p)
    ensures p < i && Ordered(v.history[i], v.history[p])
  {
    assert RecordOk(w.history, w.now, w.events, i);
    assert RecordOk(w.history, w.now, w.events, p);
    if i == id && fate.Executed? {
      assert p !in w.storage.requests;
    }
  }

  lemma LeavingRecord(w: World, v: World, id: U64, fate: Fate, e: Event, i: nat)
    requires QueueInv(w) && Leaves(w, v, id, fate, e) && i < |w.history|
    ensures RecordOk(v.history, v.now, v.events, i)
  {
    RecordLater(w.history, w.now, w.now, w.events, [e], i);
    assert RecordOk(w.history, w.now, w.events, i);
    var q := w.history[i].request;
    if q.predecessor.Some? {
      LeavingOrdered(w, v, id, fate, e, i, q.predecessor.value);
    }
  }

  lemma LeavingReplay(w: World, v: World, id: U64, fate: Fate, e: Event)
    requires Replayed(w) && Leaves(w, v, id, fate, e)
    ensures Replayed(v)
  {
    ReplayAppend(w.events, e);
    assert Summaries(v.storage.requests) == Summaries(w.storage.requests) - {id};
  }

  lemma LeavingKeepsQueue(w: World, v: World, id: U64, fate: Fate, e: Event)
    requires QueueInv(w) && Leaves(w, v, id, fate, e)
    ensures QueueInv(v)
  {
    forall i | 0 <= i < |v.history| ensures RecordOk(v.history, v.now, v.events, i) {
      LeavingRecord(w, v, id, fate, e, i);
    }
    LeavingReplay(w, v, id, fate, e);
  }

  lemma AbsorbKeepsQueue(w: World, caller: AccountId, attached: U128, h: Handled)
    requires QueueInv(w) && attached < U128_MAX
    requires Rules(Env(w.me, caller, w.now, attached), w.storage, h)
    ensures QueueInv(Absorb(w, caller, attached, h))
  {
    var v := Absorb(w, caller, attached, h);
    match h.effect
    case Enqueued(_, _) => EnqueueKeepsQueue(w, caller, attached, h);
    case Dequeued(id, _, _) => LeavingKeepsQueue(w, v, id, v.history[id].fate, EventsOf(h.effect)[0]);
    case Withdrawn(id, _, _, _) => LeavingKeepsQueue(w, v, id, v.history[id].fate, EventsOf(h.effect)[0]);
    case Configured =>
      assert v.events == w.events;
      RecordsLater(w, v);
  }

  lemma SettleKeepsQueue(w: World, j: nat, result: Outcome)
    requires QueueInv(w) && j < |w.outbox|
    ensures QueueInv(Settle(w, j, result))
  {
  }

  /** The events of a callback concern no pending request. */
  lemma FollowUpReplay(events: seq<Event>, cb: Callback, result: Outcome)
    ensures Replay(events + FollowUpEvents(cb, result)) == Replay(events)
  {
    if result == Returned(None) {
      assert events + [] == events;
    } else {
      ReplayAppend(events, FollowUpEvents(cb, result)[0]);
    }
  }

  lemma CallBackKeepsQueue(w: World, j: nat)
    requires QueueInv(w) && j < |w.outbox| && w.outbox[j].promise.Batch? && w.outbox[j].promise.callback.Some?
    requires w.outbox[j].phase.Landed?
    ensures QueueInv(CallBack(w, j))
  {
    var v := CallBack(w, j);
    RecordsLater(w, v);
    FollowUpReplay(w.events, w.outbox[j].promise.callback.value, w.outbox[j].phase.result);
  }
}
