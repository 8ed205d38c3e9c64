/** Every step of the timelock spelled out on its queue, promises, balance and log, without the step functions. */
module TimelockExact {
  import opened Base
  import opened Calls
  import opened Requests
  import opened Timelock
  import opened TimelockWorld
  import opened TimelockQueue

  // ---- One call ----

  /** A request enters the queue: recorded with its scheduling, escrowed, and logged. */
  ghost predicate Entered(w: World, caller: AccountId, attached: U128, q: Request, e: Event, v: World) {
    var s := w.storage;
    && s.nextId < U64_MAX
    && v.storage == s.(nextId := s.nextId + 1, requests := s.requests[s.nextId := q])
    && v.history == w.history + [Record(q, caller, s.dao, w.now, s.delay, attached, |w.events|, Pending)]
    && v.outbox == w.outbox && v.events == w.events + [e] && v.balance == w.balance + attached
  }

  /** A request leaves the queue: its record is closed, its promise sent with the money it carries, and it is logged. */
  ghost predicate Gone(w: World, id: U64, fate: Fate, sent: seq<Promise>, money: nat, e: Event, v: World) {
    && id in w.storage.requests && id < |w.history|
    && v.storage == w.storage.(requests := w.storage.requests - {id})
    && v.history == w.history[id := w.history[id].(fate := fate)]
    && v.outbox == w.outbox + Dispatches(sent, id, w.storage.requests[id].funder)
    && v.events == w.events + [e] && v.balance == w.balance - money
  }

  function Dispatches(sent: seq<Promise>, origin: U64, funder: AccountId): seq<Dispatch> {
    seq(|sent|, i requires 0 <= i < |sent| => Dispatch(sent[i], origin, funder, Sent))
  }

  /** What a successful call leaves behind. */
  ghost predicate Books(w: World, caller: AccountId, attached: U128, call: Call, v: World) {
    var s := w.storage;
    && v.me == w.me && v.base == w.base && v.now == w.now
    && match call
       case Schedule(receiver, actions, predecessor) =>
         var after := Min(U64_MAX, w.now + s.delay);
         Entered(w, caller, attached, Request(receiver, actions, caller, after, None, predecessor),
                 ScheduleEvent(s.nextId, after, predecessor), v)
       case ScheduleProposal(description, kind, dao, bond, addGas, actGas, predecessor) =>
         var after := Min(U64_MAX, w.now + s.delay);
         Entered(w, caller, attached,
                 Request(dao, [FunctionCall(AddProposal(description, kind), bond, addGas)], caller, after,
                         Some(ProposalApproval(kind, actGas)), predecessor),
                 ProposalEvent(s.nextId, dao, after, predecessor), v)
       case Execute(id) =>
         && id in s.requests
         && var q := s.requests[id];
            Gone(w, id, Executed(w.now, |w.events|, |w.outbox|),
                 [Batch(q.receiver, q.actions, CallbackFor(id, q))], DepositSum(q.actions),
                 ExecuteEvent(id, q.receiver), v)
       case Cancel(id) =>
         && id in s.requests
         && var q := s.requests[id];
            var total := Min(U128_MAX, DepositSum(q.actions));
            Gone(w, id, Cancelled(w.now, |w.events|, caller, if 0 < total then Some(|w.outbox|) else None),
                 if 0 < total then [Refund(q.funder, total)] else [], total,
                 CancelEvent(id, q.receiver, caller), v)
       case SetDao(dao) => v == w.(storage := s.(dao := dao))
       case SetAdmin(admin) => v == w.(storage := s.(admin := admin))
       case SetGuardians(guardians) =>
         && v == w.(storage := s.(guardians := v.storage.guardians))
         && forall g :: g in v.storage.guardians <==> g in guardians
       case SetDelay(delay) => v == w.(storage := s.(delay := delay))
       case _ => false
  }

  lemma ScheduleBooks(w: World, caller: AccountId, action: FunctionCall)
    requires Queue(w) && Perform(w, caller, action).Some? && (action.call.Schedule? || action.call.ScheduleProposal?)
    ensures Books(w, caller, action.deposit, action.call, Perform(w, caller, action).value)
  {
    CallsExactly(Env(w.me, caller, w.now, action.deposit), w.storage, action.call);
  }

  lemma ExecuteBooks(w: World, caller: AccountId, action: FunctionCall)
    requires Queue(w) && Perform(w, caller, action).Some? && action.call.Execute?
    ensures Books(w, caller, action.deposit, action.call, Perform(w, caller, action).value)
  {
    CallsExactly(Env(w.me, caller, w.now, action.deposit), w.storage, action.call);
  }

  lemma CancelBooks(w: World, caller: AccountId, action: FunctionCall)
    requires Queue(w) && Perform(w, caller, action).Some? && action.call.Cancel?
    ensures Books(w, caller, action.deposit, action.call, Perform(w, caller, action).value)
  {
    CallsExactly(Env(w.me, caller, w.now, action.deposit), w.storage, action.call);
    if DepositSum(w.storage.requests[action.call.id].actions) == 0 {
      assert w.outbox + [] == w.outbox;
    }
  }

  /** A call runs exactly when it is allowed, and leaves exactly its own trace in queue, records, promises and log. */
  lemma PerformExactly(w: World, caller: AccountId, action: FunctionCall)
    requires Queue(w)
    ensures Perform(w, caller, action).Some?
            <==> Allowed(Env(w.me, caller, w.now, action.deposit), w.storage, action.call)
    ensures Perform(w, caller, action).Some? ==>
              Books(w, caller, action.deposit, action.call, Perform(w, caller, action).value)
  {
    CallsExactly(Env(w.me, caller, w.now, action.deposit), w.storage, action.call);
    if Perform(w, caller, action).Some? {
      match action.call
      case Schedule(_, _, _) => ScheduleBooks(w, caller, action);
      case ScheduleProposal(_, _, _, _, _, _, _) => ScheduleBooks(w, caller, action);
      case Execute(_) => ExecuteBooks(w, caller, action);
      case Cancel(_) => CancelBooks(w, caller, action);
      case _ => assert w.events + [] == w.events;
    }
  }

  // ---- A batch ----

  /** The states a batch passes through, each call accepted in turn. */
  ghost predicate Chain(w: World, caller: AccountId, batch: seq<FunctionCall>, states: seq<World>) {
    && |states| == |batch| + 1 && states[0] == w
    && forall i | 0 <= i < |batch| :: Perform(states[i], caller, batch[i]) == Some(states[i + 1])
  }

  /** The batch gets as far as its call number |states| - 1, which is refused. */
  ghost predicate StopsAt(w: World, caller: AccountId, batch: seq<FunctionCall>, states: seq<World>) {
    && 0 < |states| <= |batch|
    && Chain(w, caller, batch[..|states| - 1], states)
    && Perform(states[|states| - 1], caller, batch[|states| - 1]).None?
  }

  lemma {:induction false} ChainRuns(w: World, caller: AccountId, batch: seq<FunctionCall>, states: seq<World>)
    requires Chain(w, caller, batch, states)
    ensures PerformAll(w, caller, batch) == Some(states[|batch|])
  {
    if batch != [] {
      var n := |batch| - 1;
      ChainRuns(w, caller, batch[..n], states[..n + 1]);
      assert Perform(states[n], caller, batch[n]) == Some(states[n + 1]);
    }
  }

  lemma {:induction false} RunsChain(w: World, caller: AccountId, batch: seq<FunctionCall>) returns (states: seq<World>)
    requires PerformAll(w, caller, batch).Some?
    ensures Chain(w, caller, batch, states) && PerformAll(w, caller, batch) == Some(states[|batch|])
  {
    if batch == [] {
      states := [w];
    } else {
      var n := |batch| - 1;
      var before := RunsChain(w, caller, batch[..n]);
      states := before + [PerformAll(w, caller, batch).value];
      forall i | 0 <= i < |batch| ensures Perform(states[i], caller, batch[i]) == Some(states[i + 1]) {
        if i < n {
          assert batch[..n][i] == batch[i];
        }
      }
    }
  }

  lemma {:induction false} StopFound(w: World, caller: AccountId, batch: seq<FunctionCall>) returns (states: seq<World>)
    requires PerformAll(w, caller, batch).None?
    ensures StopsAt(w, caller, batch, states)
  {
    var n := |batch| - 1;
    if PerformAll(w, caller, batch[..n]).None? {
      states := StopFound(w, caller, batch[..n]);
      assert batch[..n][..|states| - 1] == batch[..|states| - 1];
    } else {
      states := RunsChain(w, caller, batch[..n]);
    }
  }

  /** Running a batch is running a prefix and then the rest: it may be split anywhere. */
  lemma {:induction false} PerformAllConcat(w: World, caller: AccountId, a: seq<FunctionCall>, b: seq<FunctionCall>)
    ensures PerformAll(w, caller, a + b)
         == match PerformAll(w, caller, a) { case None => None case Some(v) => PerformAll(v, caller, b) }
  {
    if b == [] {
      assert a + b == a;
    } else {
      var n := |b| - 1;
      assert (a + b)[..|a + b| - 1] == a + b[..n];
      PerformAllConcat(w, caller, a, b[..n]);
    }
  }

  lemma PrefixFails(w: World, caller: AccountId, batch: seq<FunctionCall>, n: nat)
    requires n <= |batch| && PerformAll(w, caller, batch[..n]).None?
    ensures PerformAll(w, caller, batch).None?
  {
    assert batch == batch[..n] + batch[n..];
    PerformAllConcat(w, caller, batch[..n], batch[n..]);
  }

  lemma StopRefuses(w: World, caller: AccountId, batch: seq<FunctionCall>, states: seq<World>)
    requires StopsAt(w, caller, batch, states)
    ensures PerformAll(w, caller, batch).None?
  {
    var i := |states| - 1;
    var front := batch[..i + 1];
    assert front[..i] == batch[..i];
    ChainRuns(w, caller, front[..i], states);
    PrefixFails(w, caller, batch, i + 1);
  }

  /**
   * Running a batch is all or nothing: it succeeds with the last state of a chain in which each call is
   * accepted where the one before it left off, and fails exactly when some call of such a chain is refused.
   */
  lemma BatchExactly(w: World, caller: AccountId, batch: seq<FunctionCall>)
    ensures forall states: seq<World> ::
              Chain(w, caller, batch, states) ==> PerformAll(w, caller, batch) == Some(states[|batch|])
    ensures PerformAll(w, caller, batch).Some? <==> exists states :: Chain(w, caller, batch, states)
    ensures PerformAll(w, caller, batch).None? <==> exists states :: StopsAt(w, caller, batch, states)
  {
    forall states | Chain(w, caller, batch, states)
      ensures PerformAll(w, caller, batch) == Some(states[|batch|])
    {
      ChainRuns(w, caller, batch, states);
    }
    forall states | StopsAt(w, caller, batch, states) ensures PerformAll(w, caller, batch).None? {
      StopRefuses(w, caller, batch, states);
    }
    if PerformAll(w, caller, batch).Some? {
      var states := RunsChain(w, caller, batch);
    } else {
      var states := StopFound(w, caller, batch);
    }
  }

  /** A batch from another account, with deposits anyone can own, has the effect of its whole chain or none. */
  lemma DeliveryExactly(w: World, caller: AccountId, batch: seq<FunctionCall>)
    requires caller != w.me && forall c | c in batch :: c.deposit < U128_MAX
    ensures forall states: seq<World> ::
              Chain(w, caller, batch, states) ==> Next(w, Deliver(caller, batch)) == states[|batch|]
    ensures forall states: seq<World> ::
              StopsAt(w, caller, batch, states) ==> Next(w, Deliver(caller, batch)) == w
    ensures (exists states :: Chain(w, caller, batch, states)) || (exists states :: StopsAt(w, caller, batch, states))
  {
    BatchExactly(w, caller, batch);
  }

  /** The timelock calls itself only through its own promises, and nobody owns 2^128 - 1 yoctoNEAR. */
  lemma NothingDelivered(w: World, caller: AccountId, batch: seq<FunctionCall>)
    requires caller == w.me || exists c | c in batch :: c.deposit == U128_MAX
    ensures Next(w, Deliver(caller, batch)) == w
  {
  }

  /** Time passes, up to the last u64 timestamp, and nothing else happens. */
  lemma TickExactly(w: World, ns: nat)
    ensures Next(w, Tick(ns)) == if w.now + ns <= U64_MAX then w.(now := w.now + ns) else w
  {
  }

  // ---- Landing ----

  predicate OnItsWay(w: World, j: nat) {
    j < |w.outbox| && w.outbox[j].phase.Sent?
  }

  predicate ToSelf(w: World, j: nat) {
    j < |w.outbox| && w.outbox[j].promise.Batch? && w.outbox[j].promise.receiver == w.me
  }

  /**
   * A refund, or a batch for another receiver, lands with exactly the result it met there. What it carried
   * comes back exactly when it failed, or was a refund of the timelock to itself.
   */
  lemma LandElsewhere(w: World, j: nat, result: Outcome)
    requires OnItsWay(w, j) && !ToSelf(w, j)
    ensures var d := w.outbox[j]; var v := Next(w, Land(j, result));
      && v == w.(outbox := w.outbox[j := Dispatch(d.promise, d.origin, d.funder, Landed(result))], balance := v.balance)
      && (d.promise.Batch? ==>
            v.balance == w.balance + if result.Failed? then DepositSum(d.promise.actions) else 0)
      && (d.promise.Refund? ==>
            v.balance == w.balance + if result.Failed? || d.promise.to == w.me then d.promise.amount else 0)
  {
  }

  lemma SelfRunKeepsDispatch(w: World, j: nat)
    requires OnItsWay(w, j) && ToSelf(w, j) && PerformAll(w, w.me, w.outbox[j].promise.actions).Some?
    ensures var u := PerformAll(w, w.me, w.outbox[j].promise.actions).value;
      j < |u.outbox| && u.outbox[j] == w.outbox[j]
  {
    PerformAllShape(w, w.me, w.outbox[j].promise.actions);
  }

  /**
   * A batch for the timelock itself runs there: it lands as returned with the effect of all its calls, or,
   * exactly when one of them is refused in its turn, as failed, with its deposits back and nothing else changed.
   */
  lemma LandOnSelf(w: World, j: nat, result: Outcome)
    requires OnItsWay(w, j) && ToSelf(w, j)
    ensures var d := w.outbox[j]; var actions := d.promise.actions; var v := Next(w, Land(j, result));
      && (forall states: seq<World> :: Chain(w, w.me, actions, states) ==>
            var u := states[|actions|];
            j < |u.outbox| && u.outbox[j] == d
            && v == u.(outbox := u.outbox[j := Dispatch(d.promise, d.origin, d.funder, Landed(Returned(None)))]))
      && (forall states: seq<World> :: StopsAt(w, w.me, actions, states) ==>
            v == w.(outbox := w.outbox[j := Dispatch(d.promise, d.origin, d.funder, Landed(Failed))],
                    balance := w.balance + DepositSum(actions)))
      && j < |v.outbox|
      && ((exists states :: StopsAt(w, w.me, actions, states)) <==> v.outbox[j].phase == Landed(Failed))
  {
    var actions := w.outbox[j].promise.actions;
    BatchExactly(w, w.me, actions);
    if PerformAll(w, w.me, actions).Some? {
      SelfRunKeepsDispatch(w, j);
    }
  }

  /** What is not on its way does not land, and only a landed batch with a callback calls back. */
  lemma NothingLands(w: World, j: nat, result: Outcome)
    ensures !OnItsWay(w, j) ==> Next(w, Land(j, result)) == w
    ensures !CalledBack(w, j) ==> Next(w, Resume(j)) == w
  {
  }

  // ---- The callback ----

  predicate CalledBack(w: World, j: nat) {
    j < |w.outbox| && w.outbox[j].promise.Batch? && w.outbox[j].promise.callback.Some? && w.outbox[j].phase.Landed?
  }

  /** The batch is closed, its follow-up sent from the same request, and nothing but promises, log and balance moved. */
  ghost predicate ClosedWith(w: World, j: nat, sent: seq<Promise>, money: nat, log: seq<Event>, v: World)
    requires CalledBack(w, j)
  {
    var d := w.outbox[j];
    var follow := if sent == [] then None else Some(|w.outbox|);
    && v == w.(outbox := v.outbox, events := w.events + log, balance := w.balance - money)
    && v.outbox == w.outbox[j := Dispatch(d.promise, d.origin, d.funder, Closed(d.phase.result, follow))]
                   + Dispatches(sent, d.origin, d.funder)
  }

  /**
   * The callback votes for the returned id, refunds a bond after a failure, and logs which of the two it did;
   * an answer that is no id sends and logs nothing.
   */
  lemma ResumeExactly(w: World, j: nat)
    requires CalledBack(w, j)
    ensures var v := Next(w, Resume(j)); var cb := w.outbox[j].promise.callback.value;
      var result := w.outbox[j].phase.result;
      && (result == Returned(None) ==> ClosedWith(w, j, [], 0, [], v))
      && (result.Returned? && result.value.Some? ==>
            var p := result.value.value;
            ClosedWith(w, j, [Batch(cb.dao, [FunctionCall(ActProposal(p, cb.kind), 0, cb.actGas)], None)], 0,
                       [ApproveEvent(cb.id, p)], v))
      && (result.Failed? ==>
            ClosedWith(w, j, if 0 < cb.bond then [Refund(cb.funder, cb.bond)] else [], cb.bond,
                       [FailedEvent(cb.id, cb.funder, cb.bond)], v))
  {
    var v := Next(w, Resume(j));
    var cb := w.outbox[j].promise.callback.value;
    var result := w.outbox[j].phase.result;
    if result.Returned? && result.value.Some? {
      SumOne(FunctionCall(ActProposal(result.value.value, cb.kind), 0, cb.actGas), DepositOf);
    } else if v.outbox[j].phase.follow.None? {
      assert v.outbox == v.outbox + [];
      assert w.events + [] == w.events;
    }
  }

  /** A run is its steps one after the other, and may be split anywhere. */
  lemma {:induction false} RunExactly(w: World, a: seq<Step>, b: seq<Step>, s: Step)
    ensures Run(w, []) == w && Run(w, [s]) == Next(w, s)
    ensures Run(w, a + b) == Run(Run(w, a), b)
  {
    assert [s][..0] == [];
    if b == [] {
      assert a + b == a;
    } else {
      var n := |b| - 1;
      assert (a + b)[..|a + b| - 1] == a + b[..n];
      RunExactly(w, a, b[..n], s);
    }
  }

  /** A contract as it is deployed is an initial state. */
  lemma DeployedIsInit(me: AccountId, dao: AccountId, admin: AccountId, guardians: set<AccountId>, delay: U64,
                       now: U64, balance: int)
    requires delay <= 2_592_000_000_000_000
    ensures Init(World(me, balance, Storage(dao, admin, guardians, delay, 0, map[]), now, balance, [], [], []))
  {
  }
}
