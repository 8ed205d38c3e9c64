/** The timelock as a step system: its storage, clock and balance, everything it ever queued, sent and logged. */
module TimelockWorld {
  import opened Base
  import opened Calls
  import opened Requests
  import opened Timelock

  /** A dispatched promise is on its way, has landed, or has landed and run its callback. */
  datatype Phase = Sent | Landed(result: Outcome) | Closed(result: Outcome, follow: Option<nat>)

  /** A promise together with the request it came from and that request's funder. */
  datatype Dispatch = Dispatch(promise: Promise, origin: U64, funder: AccountId, phase: Phase)

  /** What became of a request; `closed` is a position in the event log, `out` and `refund` positions in the outbox. */
  datatype Fate =
    | Pending
    | Executed(at: U64, closed: nat, out: nat)
    | Cancelled(at: U64, closed: nat, guardian: AccountId, refund: Option<nat>)

  /** A request as scheduled: by whom, under which DAO, when, under which delay, with which deposit, where logged. */
  datatype Record = Record(request: Request, scheduler: AccountId, dao: AccountId, at: U64, delay: U64,
                           attached: U128, logged: nat, fate: Fate)

  datatype World = World(me: AccountId, base: int, storage: Storage, now: U64, balance: int,
                         outbox: seq<Dispatch>, history: seq<Record>, events: seq<Event>)

  /** The deposit a promise carries out of the contract. */
  function Carried(p: Promise): nat {
    match p
    case Batch(_, actions, _) => DepositSum(actions)
    case Refund(_, amount) => amount
  }

  function Close(history: seq<Record>, id: nat, fate: Fate): seq<Record> {
    if id < |history| then history[id := history[id].(fate := fate)] else history
  }

  /** Books the effect of a call: storage, balance, promises, history and log. */
  function Absorb(w: World, caller: AccountId, attached: U128, h: Handled): World {
    var v := w.(storage := h.storage, balance := w.balance + attached, events := w.events + EventsOf(h.effect));
    match h.effect
    case Enqueued(_, q) =>
      var r := Record(q, caller, w.storage.dao, w.now, w.storage.delay, attached, |w.events|, Pending);
      v.(history := w.history + [r])
    case Dequeued(id, q, p) =>
      v.(balance := v.balance - Carried(p),
         outbox := w.outbox + [Dispatch(p, id, q.funder, Sent)],
         history := Close(w.history, id, Executed(w.now, |w.events|, |w.outbox|)))
    case Withdrawn(id, q, guardian, None) =>
      v.(history := Close(w.history, id, Cancelled(w.now, |w.events|, guardian, None)))
    case Withdrawn(id, q, guardian, Some(p)) =>
      v.(balance := v.balance - Carried(p),
         outbox := w.outbox + [Dispatch(p, id, q.funder, Sent)],
         history := Close(w.history, id, Cancelled(w.now, |w.events|, guardian, Some(|w.outbox|))))
    case Configured => v
  }

  function Perform(w: World, caller: AccountId, action: FunctionCall): Option<World> {
    match Handle(Env(w.me, caller, w.now, action.deposit), w.storage, action.call)
    case None => None
    case Some(h) => Some(Absorb(w, caller, action.deposit, h))
  }

  /** A batch receipt: its calls in order, all or nothing. */
  function PerformAll(w: World, caller: AccountId, batch: seq<FunctionCall>): Option<World> {
    if batch == [] then Some(w)
    else
      match PerformAll(w, caller, batch[..|batch| - 1])
      case None => None
      case Some(v) => Perform(v, caller, batch[|batch| - 1])
  }

  /** What comes back to the timelock's balance when a promise lands. */
  function Credit(me: AccountId, p: Promise, result: Outcome): nat {
    match p
    case Batch(_, _, _) => if result.Failed? then Carried(p) else 0
    case Refund(to, amount) => if result.Failed? || to == me then amount else 0
  }

  function Settle(w: World, j: nat, result: Outcome): World
    requires j < |w.outbox|
  {
    w.(outbox := w.outbox[j := w.outbox[j].(phase := Landed(result))],
       balance := w.balance + Credit(w.me, w.outbox[j].promise, result))
  }

  /** The callback of a landed `add_proposal`: closes it and sends the follow-up. */
  function CallBack(w: World, j: nat): World
    requires j < |w.outbox| && w.outbox[j].promise.Batch? && w.outbox[j].promise.callback.Some?
    requires w.outbox[j].phase.Landed?
  {
    var d := w.outbox[j];
    var cb := d.promise.callback.value;
    var result := d.phase.result;
    var v := w.(events := w.events + FollowUpEvents(cb, result));
    match FollowUp(cb, result)
    case None => v.(outbox := w.outbox[j := d.(phase := Closed(result, None))])
    case Some(p) =>
      var sent := Dispatch(p, d.origin, d.funder, Sent);
      v.(outbox := w.outbox[j := d.(phase := Closed(result, Some(|w.outbox|)))] + [sent],
         balance := w.balance - Carried(p))
  }

  /** No account can attach 2^128 - 1 yoctoNEAR: the total supply is far below. */
  predicate Affordable(batch: seq<FunctionCall>) {
    forall c | c in batch :: c.deposit < U128_MAX
  }

  datatype Step =
      /** A batch from another account. */
    | Deliver(caller: AccountId, batch: seq<FunctionCall>)
    | Tick(ns: nat)
      /** A promise lands; on the timelock itself its result is what running it gives. */
    | Land(promise: nat, result: Outcome)
      /** The callback of a landed proposal batch runs. */
    | Resume(promise: nat)

  function Next(w: World, s: Step): World {
    match s
    case Deliver(caller, batch) =>
      if caller == w.me || !Affordable(batch) then w
      else (match PerformAll(w, caller, batch) case None => w case Some(v) => v)
    case Tick(ns) =>
      if w.now + ns <= U64_MAX then w.(now := w.now + ns) else w
    case Land(j, result) =>
      if j >= |w.outbox| || !w.outbox[j].phase.Sent? then w
      else
        var p := w.outbox[j].promise;
        if p.Batch? && p.receiver == w.me then
          match PerformAll(w, w.me, p.actions)
          case None => Settle(w, j, Failed)
          case Some(v) => if j < |v.outbox| then Settle(v, j, Returned(None)) else v
        else Settle(w, j, result)
    case Resume(j) =>
      if j < |w.outbox| && w.outbox[j].promise.Batch? && w.outbox[j].promise.callback.Some? && w.outbox[j].phase.Landed?
      then CallBack(w, j) else w
  }

  function Run(w: World, steps: seq<Step>): World {
    if steps == [] then w else Next(Run(w, steps[..|steps| - 1]), steps[|steps| - 1])
  }

  ghost predicate Init(w: World) {
    && w.storage.nextId == 0 && w.storage.requests == map[] && w.storage.delay <= MAX_DELAY_NS
    && w.balance == w.base
    && w.outbox == [] && w.history == [] && w.events == []
  }

  // ---- What grows and what stays ----

  /** The same contract later: the outbox, history and log only grow. */
  ghost predicate Grown(w: World, v: World) {
    && v.me == w.me && v.base == w.base && w.now <= v.now
    && |w.outbox| <= |v.outbox| && |w.history| <= |v.history| && w.events <= v.events
    && (forall j | 0 <= j < |w.outbox| ::
          v.outbox[j] == w.outbox[j].(phase := v.outbox[j].phase)
          && (w.outbox[j].phase.Closed? ==> v.outbox[j] == w.outbox[j])
          && (v.outbox[j].phase.Sent? ==> w.outbox[j].phase.Sent?))
    && (forall i | 0 <= i < |w.history| ::
          v.history[i] == w.history[i].(fate := v.history[i].fate))
  }

  lemma PerformShape(w: World, caller: AccountId, action: FunctionCall)
    requires Perform(w, caller, action).Some?
    ensures var v := Perform(w, caller, action).value; Grown(w, v) && w.outbox <= v.outbox && v.now == w.now
  {
  }

  lemma {:induction false} PerformAllShape(w: World, caller: AccountId, batch: seq<FunctionCall>)
    requires PerformAll(w, caller, batch).Some?
    ensures var v := PerformAll(w, caller, batch).value; Grown(w, v) && w.outbox <= v.outbox && v.now == w.now
  {
    if batch != [] {
      var n := |batch| - 1;
      PerformAllShape(w, caller, batch[..n]);
      PerformShape(PerformAll(w, caller, batch[..n]).value, caller, batch[n]);
    }
  }

  lemma SettleShape(w: World, j: nat, result: Outcome)
    requires j < |w.outbox| && w.outbox[j].phase.Sent?
    ensures Grown(w, Settle(w, j, result))
  {
  }

  lemma CallBackShape(w: World, j: nat)
    requires j < |w.outbox| && w.outbox[j].promise.Batch? && w.outbox[j].promise.callback.Some?
    requires w.outbox[j].phase.Landed?
    ensures Grown(w, CallBack(w, j))
  {
  }

  lemma NextShape(w: World, s: Step)
    ensures Grown(w, Next(w, s))
  {
    match s
    case Deliver(caller, batch) =>
      if PerformAll(w, caller, batch).Some? {
        PerformAllShape(w, caller, batch);
      }
    case Tick(_) =>
    case Land(j, result) =>
      if j < |w.outbox| && w.outbox[j].phase.Sent? {
        var p := w.outbox[j].promise;
        if p.Batch? && p.receiver == w.me && PerformAll(w, w.me, p.actions).Some? {
          PerformAllShape(w, w.me, p.actions);
          SettleShape(PerformAll(w, w.me, p.actions).value, j, Returned(None));
        } else {
          SettleShape(w, j, result);
          SettleShape(w, j, Failed);
        }
      }
    case Resume(j) =>
      if Next(w, s) != w {
        CallBackShape(w, j);
      }
  }
}
