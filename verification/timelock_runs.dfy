/** What every run of the timelock guarantees. */
module TimelockRuns {
  import opened Base
  import opened Calls
  import opened Requests
  import opened Timelock
  import opened TimelockWorld
  import opened TimelockQueue
  import opened TimelockOutbox
  import opened TimelockEscrow

  ghost predicate Inv(w: World) {
    QueueInv(w) && OutboxInv(w) && EscrowInv(w)
  }

  // ---- The invariant holds in every reachable state ----

  lemma {:induction false} PerformKeeps(w: World, caller: AccountId, action: FunctionCall)
    requires Inv(w) && action.deposit < U128_MAX && Perform(w, caller, action).Some?
    ensures Inv(Perform(w, caller, action).value)
  {
    var e := Env(w.me, caller, w.now, action.deposit);
    var h := Handle(e, w.storage, action.call).value;
    CallsObeyRules(e, w.storage, action.call);
    AbsorbKeepsQueue(w, caller, action.deposit, h);
    AbsorbKeepsOutbox(w, caller, action.deposit, h);
    AbsorbKeepsEscrow(w, caller, action.deposit, h);
  }

  lemma {:induction false} PerformAllKeeps(w: World, caller: AccountId, batch: seq<FunctionCall>)
    requires Inv(w) && Affordable(batch) && PerformAll(w, caller, batch).Some?
    ensures Inv(PerformAll(w, caller, batch).value)
  {
    if batch != [] {
      var n := |batch| - 1;
      PerformAllKeeps(w, caller, batch[..n]);
      PerformKeeps(PerformAll(w, caller, batch[..n]).value, caller, batch[n]);
    }
  }

  lemma OutboxAffordable(w: World, j: nat)
    requires Inv(w) && j < |w.outbox| && w.outbox[j].promise.Batch?
    ensures Affordable(w.outbox[j].promise.actions)
  {
    var d := w.outbox[j];
    assert DispatchOk(w.outbox, w.history, j);
    assert Dispatched(w.history[d.origin], d.origin, w.outbox);
    assert RecordOk(w.history, w.now, w.events, d.origin);
    forall c | c in d.promise.actions ensures c.deposit < U128_MAX {
      var i :| 0 <= i < |d.promise.actions| && d.promise.actions[i] == c;
      SumAtLeast(d.promise.actions, i, DepositOf);
    }
  }

  lemma SettleKeeps(w: World, j: nat, result: Outcome)
    requires Inv(w) && j < |w.outbox| && w.outbox[j].phase.Sent?
    ensures Inv(Settle(w, j, result))
  {
    SettleKeepsQueue(w, j, result);
    SettleKeepsOutbox(w, j, result);
    SettleKeepsEscrow(w, j, result);
  }

  lemma TickKeeps(w: World, ns: nat)
    requires Inv(w)
    ensures Inv(Next(w, Tick(ns)))
  {
    var v := Next(w, Tick(ns));
    RecordsLater(w, v);
    assert forall who: Who :: Conserved(w, who) ==> Conserved(v, who);
  }

  lemma NextKeeps(w: World, s: Step)
    requires Inv(w)
    ensures Inv(Next(w, s))
  {
    match s
    case Deliver(caller, batch) =>
      if Affordable(batch) && PerformAll(w, caller, batch).Some? {
        PerformAllKeeps(w, caller, batch);
      }
    case Tick(ns) => TickKeeps(w, ns);
    case Land(j, result) =>
      if j < |w.outbox| && w.outbox[j].phase.Sent? {
        var p := w.outbox[j].promise;
        if p.Batch? && p.receiver == w.me && PerformAll(w, w.me, p.actions).Some? {
          OutboxAffordable(w, j);
          PerformAllKeeps(w, w.me, p.actions);
          PerformAllShape(w, w.me, p.actions);
          SettleKeeps(PerformAll(w, w.me, p.actions).value, j, Returned(None));
        } else {
          SettleKeeps(w, j, result);
          SettleKeeps(w, j, Failed);
        }
      }
    case Resume(j) =>
      if Next(w, s) != w {
        CallBackKeepsQueue(w, j);
        CallBackKeepsOutbox(w, j);
        CallBackKeepsEscrow(w, j);
      }
  }

  lemma {:induction false} RunKeeps(w: World, steps: seq<Step>)
    requires Inv(w)
    ensures Inv(Run(w, steps))
  {
    if steps != [] {
      RunKeeps(w, steps[..|steps| - 1]);
      NextKeeps(Run(w, steps[..|steps| - 1]), steps[|steps| - 1]);
    }
  }

  lemma Reachable(w: World, steps: seq<Step>)
    requires Init(w)
    ensures Inv(Run(w, steps))
  {
    assert Inv(w);
    RunKeeps(w, steps);
  }

  // ---- Delay and authorship ----

  /** Executed no earlier than the delay in force when its DAO scheduled it; the timestamp saturates at u64. */
  ghost predicate Waited(r: Record) {
    && r.scheduler == r.dao
    && r.fate.Executed?
    && Min(U64_MAX, r.at + r.delay) <= r.fate.at
  }

  lemma ExecutedWaited(w: World, i: nat)
    requires Inv(w) && i < |w.history| && w.history[i].fate.Executed?
    ensures var r := w.history[i];
      && Waited(r) && r.scheduler == r.dao == r.request.funder
      && r.at <= r.fate.at && Min(U64_MAX, r.at + r.delay) <= r.fate.at
  {
    assert RecordOk(w.history, w.now, w.events, i);
  }

  lemma DelayRespected(w0: World, steps: seq<Step>, i: nat)
    requires Init(w0)
    requires var w := Run(w0, steps); i < |w.history| && w.history[i].fate.Executed?
    ensures var r := Run(w0, steps).history[i];
      && Waited(r) && r.scheduler == r.dao == r.request.funder
      && r.at <= r.fate.at && Min(U64_MAX, r.at + r.delay) <= r.fate.at
  {
    Reachable(w0, steps);
    ExecutedWaited(Run(w0, steps), i);
  }

  /**
   * The full delay is waited out exactly when it ends on a u64 timestamp, which it does
   * whenever the clock at scheduling is at least 30 days below its maximum.
   */
  lemma FullDelay(w0: World, steps: seq<Step>, i: nat)
    requires Init(w0)
    requires var w := Run(w0, steps); i < |w.history| && w.history[i].fate.Executed?
    ensures var r := Run(w0, steps).history[i];
      && (r.at + r.delay <= r.fate.at <==> r.at + r.delay <= U64_MAX)
      && (r.at <= U64_MAX - 2_592_000_000_000_000 ==> r.at + r.delay <= r.fate.at)
  {
    Reachable(w0, steps);
    var w := Run(w0, steps);
    assert RecordOk(w.history, w.now, w.events, i);
  }

  /** Whatever the admin does, the configured delay never exceeds 30 days. */
  lemma DelayCapped(w0: World, steps: seq<Step>)
    requires Init(w0)
    ensures Run(w0, steps).storage.delay <= 2_592_000_000_000_000
  {
    Reachable(w0, steps);
  }

  // ---- Life cycle ----

  lemma {:induction false} RunGrows(w: World, steps: seq<Step>)
    ensures Grown(w, Run(w, steps))
  {
    if steps != [] {
      RunGrows(w, steps[..|steps| - 1]);
      NextShape(Run(w, steps[..|steps| - 1]), steps[|steps| - 1]);
    }
  }

  /** Requests that have left stay as they left. */
  ghost predicate Final(w: World, v: World) {
    forall i | 0 <= i < |w.history| && !w.history[i].fate.Pending? :: i < |v.history| && v.history[i] == w.history[i]
  }

  lemma AbsorbFinal(w: World, caller: AccountId, attached: U128, h: Handled)
    requires Queue(w) && Rules(Env(w.me, caller, w.now, attached), w.storage, h)
    ensures Final(w, Absorb(w, caller, attached, h))
  {
  }

  lemma PerformFinal(w: World, caller: AccountId, action: FunctionCall)
    requires Inv(w) && Perform(w, caller, action).Some?
    ensures Final(w, Perform(w, caller, action).value)
  {
    var e := Env(w.me, caller, w.now, action.deposit);
    CallsObeyRules(e, w.storage, action.call);
    AbsorbFinal(w, caller, action.deposit, Handle(e, w.storage, action.call).value);
  }

  lemma {:induction false} PerformAllFinal(w: World, caller: AccountId, batch: seq<FunctionCall>)
    requires Inv(w) && Affordable(batch) && PerformAll(w, caller, batch).Some?
    ensures Final(w, PerformAll(w, caller, batch).value)
  {
    if batch != [] {
      var n := |batch| - 1;
      PerformAllFinal(w, caller, batch[..n]);
      PerformAllKeeps(w, caller, batch[..n]);
      PerformFinal(PerformAll(w, caller, batch[..n]).value, caller, batch[n]);
    }
  }

  lemma {:induction false} NextFinal(w: World, s: Step)
    requires Inv(w)
    ensures Final(w, Next(w, s))
  {
    if s.Deliver? && Affordable(s.batch) && PerformAll(w, s.caller, s.batch).Some? {
      PerformAllFinal(w, s.caller, s.batch);
    } else if s.Land? && s.promise < |w.outbox| && w.outbox[s.promise].promise.Batch? {
      OutboxAffordable(w, s.promise);
      var actions := w.outbox[s.promise].promise.actions;
      if PerformAll(w, w.me, actions).Some? {
        PerformAllFinal(w, w.me, actions);
      }
    }
  }

  lemma {:induction false} RunFinal(w: World, steps: seq<Step>)
    requires Inv(w)
    ensures Final(w, Run(w, steps))
  {
    if steps != [] {
      RunFinal(w, steps[..|steps| - 1]);
      RunKeeps(w, steps[..|steps| - 1]);
      NextFinal(Run(w, steps[..|steps| - 1]), steps[|steps| - 1]);
    }
  }

  /**
   * Ids count up and are never reused: an id is pending exactly while its request is stored, what was
   * scheduled under it never changes, and once executed or cancelled it stays so.
   */
  lemma Lifecycle(w0: World, before: seq<Step>, steps: seq<Step>, id: U64)
    requires Init(w0)
    ensures var w := Run(w0, before); var v := Run(w, steps);
      && |w.history| == w.storage.nextId <= v.storage.nextId == |v.history|
      && (id in w.storage.requests <==> id < w.storage.nextId && w.history[id].fate.Pending?)
      && (id < w.storage.nextId ==> v.history[id].request == w.history[id].request)
      && (id < w.storage.nextId && !w.history[id].fate.Pending? ==> v.history[id].fate == w.history[id].fate)
      && (id in w.storage.requests && id in v.storage.requests ==> v.storage.requests[id] == w.storage.requests[id])
  {
    Reachable(w0, before);
    var w := Run(w0, before);
    RunKeeps(w, steps);
    RunGrows(w, steps);
    RunFinal(w, steps);
  }

  /** A record keeps its request for ever, and once executed has dispatched that request's promise. */
  lemma {:induction false} RecordPersists(v: World, after: seq<Step>, id: U64)
    requires Inv(v) && id < |v.history|
    ensures var w := Run(v, after);
      && id < |w.history|
      && w.history[id] == v.history[id].(fate := w.history[id].fate)
      && (w.history[id].fate.Executed? ==>
            && w.history[id].fate.out < |w.outbox|
            && w.outbox[w.history[id].fate.out].promise == PromiseOf(id, v.history[id].request))
  {
    RunKeeps(v, after);
    RunGrows(v, after);
    var w := Run(v, after);
    assert Dispatched(w.history[id], id, w.outbox);
  }

  /** The record a successful schedule call leaves behind. */
  lemma NewRecord(u: World, caller: AccountId, action: FunctionCall)
    requires Inv(u) && (action.call.Schedule? || action.call.ScheduleProposal?)
    requires Perform(u, caller, action).Some?
    ensures var v := Perform(u, caller, action).value; var e := Env(u.me, caller, u.now, action.deposit);
      var c := action.call;
      && |v.history| == |u.history| + 1
      && var r := v.history[|u.history|];
         && r.scheduler == caller && r.attached == action.deposit && r.at == u.now && r.delay == u.storage.delay
         && r.request == if c.Schedule? then PlainRequest(e, u.storage, c.receiver, c.actions, c.predecessor)
                         else ProposalRequest(e, u.storage, c.description, c.kind, c.dao, c.bond, c.addGas, c.actGas,
                                              c.predecessor)
  {
  }

  /** What runs is what was asked for: the batch of an executed request is the one its schedule call named. */
  lemma ExecutesWhatWasScheduled(w0: World, before: seq<Step>, caller: AccountId, action: FunctionCall,
                                 after: seq<Step>)
    requires Init(w0) && action.deposit < U128_MAX && action.call.Schedule?
    requires Perform(Run(w0, before), caller, action).Some?
    ensures var id := |Run(w0, before).history|;
      var w := Run(Perform(Run(w0, before), caller, action).value, after);
      && id < |w.history| && w.history[id].scheduler == caller && w.history[id].attached == action.deposit
      && (w.history[id].fate.Executed? ==>
            && w.history[id].fate.out < |w.outbox|
            && w.outbox[w.history[id].fate.out].promise == Batch(action.call.receiver, action.call.actions, None))
  {
    Reachable(w0, before);
    var u := Run(w0, before);
    PerformKeeps(u, caller, action);
    NewRecord(u, caller, action);
    RecordPersists(Perform(u, caller, action).value, after, |u.history|);
  }

  /** The promise of a proposal request: one `add_proposal` with the bond, then a callback with its arguments. */
  lemma ProposalPromise(id: U64, q: Request)
    requires WellShaped(q) && q.approve.Some?
    ensures PromiseOf(id, q)
         == Batch(q.receiver, q.actions,
                  Some(Callback(id, q.receiver, q.funder, q.actions[0].deposit, q.approve.value.kind,
                                q.approve.value.actGas, GAS_FOR_ON_PROPOSAL_ADDED + q.approve.value.actGas)))
  {
    ExecutionGas(id, q);
    FoldDepositClamps(0, q.actions);
    SumOne(q.actions[0], DepositOf);
    assert q.actions == [q.actions[0]];
  }

  /** The promise a proposal call leads to, in terms of its arguments. */
  function ProposalBatch(id: U64, funder: AccountId, c: Call): Promise
    requires c.ScheduleProposal? && GAS_FOR_ON_PROPOSAL_ADDED + c.actGas <= U64_MAX
  {
    Batch(c.dao, [FunctionCall(AddProposal(c.description, c.kind), c.bond, c.addGas)],
          Some(Callback(id, c.dao, funder, c.bond, c.kind, c.actGas, GAS_FOR_ON_PROPOSAL_ADDED + c.actGas)))
  }

  lemma ProposalCallPromise(e: Env, s: Storage, c: Call, id: U64)
    requires c.ScheduleProposal? && Handle(e, s, c).Some?
    ensures GAS_FOR_ON_PROPOSAL_ADDED + c.actGas <= U64_MAX
    ensures PromiseOf(id, Handle(e, s, c).value.effect.request) == ProposalBatch(id, e.caller, c)
  {
    CallsObeyRules(e, s, c);
    var q := Handle(e, s, c).value.effect.request;
    assert q == ProposalRequest(e, s, c.description, c.kind, c.dao, c.bond, c.addGas, c.actGas, c.predecessor);
    ProposalPromise(id, q);
    ExecutionGas(id, q);
  }

  lemma ProposalFrom(u: World, caller: AccountId, action: FunctionCall, after: seq<Step>)
    requires Inv(u) && action.deposit < U128_MAX && action.call.ScheduleProposal?
    requires Perform(u, caller, action).Some?
    ensures var w := Run(Perform(u, caller, action).value, after); var c := action.call;
      && GAS_FOR_ON_PROPOSAL_ADDED + c.actGas <= U64_MAX
      && |u.history| < |w.history|
      && var r := w.history[|u.history|];
         && r.scheduler == caller && r.attached == c.bond
         && (r.fate.Executed? ==>
               && r.fate.out < |w.outbox|
               && w.outbox[r.fate.out].promise == ProposalBatch(u.storage.nextId, caller, c))
  {
    PerformKeeps(u, caller, action);
    NewRecord(u, caller, action);
    var v := Perform(u, caller, action).value;
    ProposalCallPromise(Env(u.me, caller, u.now, action.deposit), u.storage, action.call, u.storage.nextId);
    RecordPersists(v, after, u.storage.nextId);
  }

  /** The same for a proposal request: `add_proposal` on the named DAO, carrying the bond, and the vote to follow. */
  lemma ExecutesProposalScheduled(w0: World, before: seq<Step>, caller: AccountId, action: FunctionCall,
                                  after: seq<Step>)
    requires Init(w0) && action.deposit < U128_MAX && action.call.ScheduleProposal?
    requires Perform(Run(w0, before), caller, action).Some?
    ensures var u := Run(w0, before);
      var w := Run(Perform(u, caller, action).value, after);
      var c := action.call;
      && GAS_FOR_ON_PROPOSAL_ADDED + c.actGas <= U64_MAX
      && |u.history| < |w.history|
      && var r := w.history[|u.history|];
         && r.scheduler == caller && r.attached == c.bond
         && (r.fate.Executed? ==>
               && r.fate.out < |w.outbox|
               && w.outbox[r.fate.out].promise == ProposalBatch(u.storage.nextId, caller, c))
  {
    Reachable(w0, before);
    ProposalFrom(Run(w0, before), caller, action, after);
  }

  // ---- Ordering ----

  /** A predecessor was pending when its dependent was scheduled, and left before the dependent executed. */
  lemma PredecessorFirst(w0: World, steps: seq<Step>, i: nat)
    requires Init(w0)
    requires var w := Run(w0, steps);
      i < |w.history| && w.history[i].fate.Executed? && w.history[i].request.predecessor.Some?
    ensures var w := Run(w0, steps); var r := w.history[i]; var p := r.request.predecessor.value;
      && p < i && !w.history[p].fate.Pending?
      && r.logged < w.history[p].fate.closed < r.fate.closed < |w.events|
      && w.history[p].fate.at <= r.fate.at
      && (w.events[w.history[p].fate.closed].ExecuteEvent? || w.events[w.history[p].fate.closed].CancelEvent?)
      && w.events[w.history[p].fate.closed].id == p
      && w.events[r.fate.closed].ExecuteEvent? && w.events[r.fate.closed].id == i
  {
    Reachable(w0, steps);
    var w := Run(w0, steps);
    assert RecordOk(w.history, w.now, w.events, i);
    assert RecordOk(w.history, w.now, w.events, w.history[i].request.predecessor.value);
  }

  /** Each request of the chain names the one before it as its predecessor, and all were executed. */
  ghost predicate ExecutedChain(history: seq<Record>, chain: seq<U64>) {
    && (forall i | 0 <= i < |chain| :: chain[i] < |history| && history[chain[i]].fate.Executed?)
    && (forall i | 0 < i < |chain| :: history[chain[i]].request.predecessor == Some(chain[i - 1]))
  }

  lemma ChainLink(w: World, chain: seq<U64>, i: nat)
    requires Inv(w) && ExecutedChain(w.history, chain) && 0 < i < |chain|
    ensures w.history[chain[i - 1]].fate.closed < w.history[chain[i]].fate.closed
  {
    assert RecordOk(w.history, w.now, w.events, chain[i]);
  }

  lemma {:induction false} ChainSorted(w: World, chain: seq<U64>, i: nat, j: nat)
    requires Inv(w) && ExecutedChain(w.history, chain) && i < j < |chain|
    ensures w.history[chain[i]].fate.closed < w.history[chain[j]].fate.closed
    decreases j
  {
    ChainLink(w, chain, j);
    if i < j - 1 {
      ChainSorted(w, chain, i, j - 1);
    }
  }

  /** A fully executed chain of predecessors executed in chain order. */
  lemma ChainOrder(w0: World, steps: seq<Step>, chain: seq<U64>)
    requires Init(w0) && ExecutedChain(Run(w0, steps).history, chain)
    ensures var h := Run(w0, steps).history;
      forall i, j | 0 <= i < j < |chain| :: h[chain[i]].fate.closed < h[chain[j]].fate.closed
  {
    Reachable(w0, steps);
    var h := Run(w0, steps).history;
    forall i, j | 0 <= i < j < |chain| ensures h[chain[i]].fate.closed < h[chain[j]].fate.closed {
      ChainSorted(Run(w0, steps), chain, i, j);
    }
  }

  /** Removing a request before checking its predecessor is the same as checking first: none is its own predecessor. */
  lemma RemoveThenCheck(w0: World, steps: seq<Step>, id: U64)
    requires Init(w0) && id in Run(w0, steps).storage.requests
    ensures var s := Run(w0, steps).storage; var p := s.requests[id].predecessor;
      p.Some? ==> p.value < id && (p.value in s.requests - {id} <==> p.value in s.requests)
  {
    Reachable(w0, steps);
    var w := Run(w0, steps);
    assert RecordOk(w.history, w.now, w.events, id);
  }

  // ---- The log ----

  /** Folding the events of a run rebuilds exactly the pending ids with their timestamps and predecessors. */
  lemma LogRebuildsQueue(w0: World, steps: seq<Step>)
    requires Init(w0)
    ensures var w := Run(w0, steps); Replay(w.events) == Summaries(w.storage.requests)
  {
    Reachable(w0, steps);
  }

  // ---- Escrow ----

  lemma AccountedParts(w: World, who: Who)
    requires Inv(w)
    ensures Sum(w.outbox, Accounted(who))
         == Sum(w.outbox, OnTheWay(who)) + Sum(w.outbox, Kept(who))
            + Sum(w.outbox, Stranded(who)) + Sum(w.outbox, Refunded(who))
  {
    forall d | d in w.outbox ensures Accounted(who)(d) == Outgoing(who)(d) + Returning(who)(d) {
      var j :| 0 <= j < |w.outbox| && w.outbox[j] == d;
      assert DispatchOk(w.outbox, w.history, j);
    }
    SumSplit(w.outbox, Accounted(who), Outgoing(who), Returning(who));
    SumSplit(w.outbox, Outgoing(who), OnTheWay(who), Kept(who));
    SumSplit(w.outbox, Returning(who), Stranded(who), Refunded(who));
  }

  /**
   * Every deposit ever escrowed, by one funder or by all, is still escrowed, on its way, kept by a
   * receiver, back on the timelock after a failed batch, or refunded to that funder.
   */
  lemma EscrowConserved(w0: World, steps: seq<Step>, who: Who)
    requires Init(w0)
    ensures var w := Run(w0, steps);
      Sum(w.history, Attached(who))
      == Sum(w.history, Escrowed(who)) + Sum(w.outbox, OnTheWay(who)) + Sum(w.outbox, Kept(who))
         + Sum(w.outbox, Stranded(who)) + Sum(w.outbox, Refunded(who))
  {
    Reachable(w0, steps);
    var w := Run(w0, steps);
    assert Conserved(w, who);
    AccountedParts(w, who);
  }

  /** The balance always covers all pending escrow, so every pending request can be funded when it executes. */
  lemma Solvent(w0: World, steps: seq<Step>)
    requires Init(w0)
    ensures var w := Run(w0, steps);
      && w.balance == w0.base + Sum(w.history, Escrowed(None)) + Sum(w.outbox, Held(w.me))
      && forall id | id in w.storage.requests ::
           w0.base + Carried(PromiseOf(id, w.storage.requests[id])) <= w.balance
  {
    Reachable(w0, steps);
    RunGrows(w0, steps);
    var w := Run(w0, steps);
    forall id | id in w.storage.requests
      ensures w0.base + Carried(PromiseOf(id, w.storage.requests[id])) <= w.balance
    {
      assert RecordOk(w.history, w.now, w.events, id);
      SumAtLeast(w.history, id, Escrowed(None));
    }
  }

  /**
   * A refund goes to the account that scheduled the request, in the attached amount. When its transfer
   * succeeds the money has left the timelock for good; only a failed one, or one to itself, comes back.
   */
  lemma RefundsReachFunder(w0: World, steps: seq<Step>, j: nat)
    requires Init(w0)
    requires var w := Run(w0, steps); j < |w.outbox| && w.outbox[j].promise.Refund?
    ensures Run(w0, steps).outbox[j].origin < |Run(w0, steps).history|
    ensures var w := Run(w0, steps); var r := w.history[w.outbox[j].origin];
      && w.outbox[j].promise == Refund(r.scheduler, r.attached)
      && 0 < r.attached
      && (r.fate.Cancelled? || (r.fate.Executed? && r.request.approve.Some?))
    ensures var w := Run(w0, steps); var r := w.history[w.outbox[j].origin];
      w.outbox[j].phase.Sent? ==>
        forall result :: RefundLands(w, Next(w, Land(j, result)), j, r, result)
  {
    Reachable(w0, steps);
    RefundFacts(Run(w0, steps), j);
  }

  /** The refund has landed with this result, and is back on the timelock or gone. */
  ghost predicate RefundLands(w: World, v: World, j: nat, r: Record, result: Outcome)
    requires j < |w.outbox|
  {
    && v.outbox == w.outbox[j := w.outbox[j].(phase := Landed(result))]
    && v.balance == w.balance + (if result.Failed? || r.scheduler == w.me then r.attached else 0)
    && v.storage == w.storage && v.history == w.history && v.events == w.events
  }

  lemma RefundFacts(w: World, j: nat)
    requires Inv(w) && j < |w.outbox| && w.outbox[j].promise.Refund?
    ensures w.outbox[j].origin < |w.history|
    ensures var r := w.history[w.outbox[j].origin];
      && w.outbox[j].promise == Refund(r.scheduler, r.attached)
      && 0 < r.attached
      && (r.fate.Cancelled? ==> r.fate.refund == Some(j))
      && (r.fate.Executed? ==> r.request.approve.Some? && r.fate.out < |w.outbox| && w.outbox[r.fate.out].phase.Closed?
                               && w.outbox[r.fate.out].phase.follow == Some(j))
      && !r.fate.Pending?
  {
    var d := w.outbox[j];
    assert DispatchOk(w.outbox, w.history, j);
    assert Dispatched(w.history[d.origin], d.origin, w.outbox);
    assert RecordOk(w.history, w.now, w.events, d.origin);
    if w.history[d.origin].fate.Executed? {
      assert DispatchOk(w.outbox, w.history, w.history[d.origin].fate.out);
    }
  }

  /** No deposit is refunded twice, across cancels and callbacks. */
  lemma RefundedOnce(w0: World, steps: seq<Step>, j: nat, k: nat)
    requires Init(w0)
    requires var w := Run(w0, steps);
      && j < |w.outbox| && k < |w.outbox|
      && w.outbox[j].promise.Refund? && w.outbox[k].promise.Refund? && w.outbox[j].origin == w.outbox[k].origin
    ensures j == k
  {
    Reachable(w0, steps);
    RefundFacts(Run(w0, steps), j);
    RefundFacts(Run(w0, steps), k);
  }

  lemma MainDispatch(w: World, j: nat)
    requires Inv(w) && j < |w.outbox| && w.outbox[j].origin < |w.history|
    requires w.outbox[j].promise == PromiseOf(w.outbox[j].origin, w.history[w.outbox[j].origin].request)
    ensures var r := w.history[w.outbox[j].origin]; r.fate.Executed? && r.fate.out == j
  {
    var r := w.history[w.outbox[j].origin];
    assert DispatchOk(w.outbox, w.history, j);
    assert Dispatched(r, w.outbox[j].origin, w.outbox);
    if r.fate.Executed? {
      assert DispatchOk(w.outbox, w.history, r.fate.out);
    }
  }

  /** No request runs twice: its promise is dispatched at most once, and only when it was executed. */
  lemma {:induction false} ExecutedOnce(w0: World, steps: seq<Step>, j: nat, k: nat)
    requires Init(w0)
    requires var w := Run(w0, steps);
      && j < |w.outbox| && k < |w.outbox|
      && w.outbox[j].origin == w.outbox[k].origin < |w.history|
      && w.outbox[j].promise == PromiseOf(w.outbox[j].origin, w.history[w.outbox[j].origin].request)
      && w.outbox[k].promise == w.outbox[j].promise
    ensures j == k && Run(w0, steps).history[Run(w0, steps).outbox[j].origin].fate.Executed?
  {
    Reachable(w0, steps);
    MainDispatch(Run(w0, steps), j);
    MainDispatch(Run(w0, steps), k);
  }

  /** The follow-up that the schedule call of record r asked for, in terms of its receiver, funder and deposit. */
  function ProposalAnswer(r: Record, result: Outcome): Option<Promise>
    requires r.request.approve.Some?
  {
    match result
    case Returned(None) => None
    case Returned(Some(proposal)) =>
      Some(Batch(r.request.receiver,
                 [FunctionCall(ActProposal(proposal, r.request.approve.value.kind), 0, r.request.approve.value.actGas)],
                 None))
    case Failed => if r.attached == 0 then None else Some(Refund(r.scheduler, r.attached))
  }

  lemma AnswerIsFollowUp(w: World, j: nat, result: Outcome)
    requires Inv(w) && j < |w.outbox| && w.outbox[j].promise.Batch? && w.outbox[j].promise.callback.Some?
    ensures w.outbox[j].origin < |w.history| && w.history[w.outbox[j].origin].request.approve.Some?
    ensures FollowUp(w.outbox[j].promise.callback.value, result)
         == ProposalAnswer(w.history[w.outbox[j].origin], result)
  {
    var d := w.outbox[j];
    assert DispatchOk(w.outbox, w.history, j);
    assert Dispatched(w.history[d.origin], d.origin, w.outbox);
    assert RecordOk(w.history, w.now, w.events, d.origin);
  }

  /** What can have become of an executed proposal request: its answer, once there, was followed up. */
  ghost predicate ProposalOutcome(w: World, r: Record, d: Dispatch)
    requires r.request.approve.Some?
  {
    d.phase.Closed? ==>
      match ProposalAnswer(r, d.phase.result)
      case None => d.phase.follow.None?
      case Some(p) =>
        && d.phase.follow.Some? && d.phase.follow.value < |w.outbox|
        && w.outbox[d.phase.follow.value].promise == p
  }

  /**
   * An executed proposal request is awaiting its callback, has voted for the returned id, has refunded
   * its bond, or met a receiver whose answer is no proposal id and whose callback aborted.
   */
  lemma ProposalLifecycle(w0: World, steps: seq<Step>, i: nat)
    requires Init(w0)
    requires var w := Run(w0, steps);
      i < |w.history| && w.history[i].fate.Executed? && w.history[i].request.approve.Some?
    ensures var w := Run(w0, steps); var r := w.history[i];
      && r.fate.out < |w.outbox|
      && w.outbox[r.fate.out].promise == PromiseOf(w.outbox[r.fate.out].origin, r.request)
      && w.outbox[r.fate.out].origin == i
      && ProposalOutcome(w, r, w.outbox[r.fate.out])
  {
    Reachable(w0, steps);
    var w := Run(w0, steps);
    var r := w.history[i];
    assert Dispatched(r, i, w.outbox);
    var d := w.outbox[r.fate.out];
    assert DispatchOk(w.outbox, w.history, r.fate.out);
    if d.phase.Closed? {
      AnswerIsFollowUp(w, r.fate.out, d.phase.result);
    }
  }

  /** The storage and books right after a successful schedule call. */
  lemma AfterSchedule(w: World, caller: AccountId, action: FunctionCall)
    requires Inv(w) && action.deposit < U128_MAX && (action.call.Schedule? || action.call.ScheduleProposal?)
    requires Perform(w, caller, action).Some?
    ensures var v := Perform(w, caller, action).value; var id := w.storage.nextId;
      && id !in w.storage.requests && id in v.storage.requests
      && v.storage == w.storage.(nextId := w.storage.nextId + 1, requests := v.storage.requests)
      && v.storage.requests == w.storage.requests[id := v.storage.requests[id]]
      && v.storage.requests[id].funder == caller && TotalDeposit(v.storage.requests[id]) == action.deposit
      && v.balance == w.balance + action.deposit && v.outbox == w.outbox
  {
    CallsObeyRules(Env(w.me, caller, w.now, action.deposit), w.storage, action.call);
  }

  /** Landing a foreign batch and running its callback moves the balance by the credit and the follow-up only. */
  lemma LandThenResume(w: World, j: nat, result: Outcome)
    requires j < |w.outbox| && w.outbox[j].phase.Sent?
    requires w.outbox[j].promise.Batch? && w.outbox[j].promise.callback.Some? && w.outbox[j].promise.receiver != w.me
    ensures var d := w.outbox[j]; var v := Next(Next(w, Land(j, result)), Resume(j));
      var next := FollowUp(d.promise.callback.value, result);
      && v.storage == w.storage && v.history == w.history && v.now == w.now
      && v.balance == w.balance + Credit(w.me, d.promise, result) - (if next.Some? then Carried(next.value) else 0)
      && |v.outbox| == |w.outbox| + (if next.Some? then 1 else 0)
      && (next.Some? ==> v.outbox[|w.outbox|] == Dispatch(next.value, d.origin, d.funder, Sent))
      && (forall i | 0 <= i < |w.outbox| && i != j :: v.outbox[i] == w.outbox[i])
  {
    var mid := Next(w, Land(j, result));
    assert mid == Settle(w, j, result);
    assert Next(mid, Resume(j)) == CallBack(mid, j);
  }

  /**
   * Whatever a foreign DAO answers to `add_proposal`, landing and callback together leave storage and history
   * alone and send exactly the vote or the refund; a failed proposal leaves the balance as it was.
   */
  lemma {:induction false} ProposalSettles(w0: World, steps: seq<Step>, j: nat, result: Outcome)
    requires Init(w0)
    requires var w := Run(w0, steps);
      && j < |w.outbox| && w.outbox[j].phase.Sent?
      && w.outbox[j].promise.Batch? && w.outbox[j].promise.callback.Some? && w.outbox[j].promise.receiver != w.me
    ensures var w := Run(w0, steps); var d := w.outbox[j];
      var v := Next(Next(w, Land(j, result)), Resume(j));
      && d.origin < |w.history| && w.history[d.origin].request.approve.Some?
      && v.storage == w.storage && v.history == w.history && v.now == w.now && v.balance == w.balance
      && var answer := ProposalAnswer(w.history[d.origin], result);
         && |v.outbox| == |w.outbox| + (if answer.Some? then 1 else 0)
         && (answer.Some? ==> v.outbox[|w.outbox|] == Dispatch(answer.value, d.origin, d.funder, Sent))
         && (forall i | 0 <= i < |w.outbox| && i != j :: v.outbox[i] == w.outbox[i])
  {
    Reachable(w0, steps);
    var w := Run(w0, steps);
    AnswerIsFollowUp(w, j, result);
    LandThenResume(w, j, result);
    BondMatches(w, j);
    if result.Returned? && result.value.Some? {
      VoteCarriesNothing(w.outbox[j].promise.callback.value, result.value.value);
    }
  }

  /** Cancelling right after scheduling restores the queue and the balance and refunds the attached deposit. */
  lemma ScheduleThenCancel(w0: World, steps: seq<Step>, caller: AccountId, action: FunctionCall, guardian: AccountId)
    requires Init(w0) && action.deposit < U128_MAX && (action.call.Schedule? || action.call.ScheduleProposal?)
    requires var w := Run(w0, steps);
      guardian in w.storage.guardians && Perform(w, caller, action).Some?
    ensures var w := Run(w0, steps); var v := Perform(w, caller, action).value;
      var cancelled := Perform(v, guardian, FunctionCall(Cancel(w.storage.nextId), 0, 0));
      && cancelled.Some?
      && cancelled.value.storage == w.storage.(nextId := w.storage.nextId + 1)
      && cancelled.value.balance == w.balance
      && cancelled.value.outbox
         == w.outbox + if action.deposit == 0 then []
                       else [Dispatch(Refund(caller, action.deposit), w.storage.nextId, caller, Sent)]
  {
    Reachable(w0, steps);
    var w := Run(w0, steps);
    AfterSchedule(w, caller, action);
    var v := Perform(w, caller, action).value;
    CancelUndoes(w, v, guardian);
  }

  lemma CancelUndoes(w: World, v: World, guardian: AccountId)
    requires guardian in w.storage.guardians && w.storage.nextId < U64_MAX
    requires var id := w.storage.nextId;
      && id !in w.storage.requests && id in v.storage.requests
      && v.storage == w.storage.(nextId := w.storage.nextId + 1, requests := v.storage.requests)
      && v.storage.requests == w.storage.requests[id := v.storage.requests[id]]
    ensures var id := w.storage.nextId; var q := v.storage.requests[id];
      var cancelled := Perform(v, guardian, FunctionCall(Cancel(id), 0, 0));
      && cancelled.Some?
      && cancelled.value.storage == w.storage.(nextId := w.storage.nextId + 1)
      && cancelled.value.balance == v.balance - TotalDeposit(q)
      && cancelled.value.outbox
         == v.outbox + if TotalDeposit(q) == 0 then []
                       else [Dispatch(Refund(q.funder, TotalDeposit(q)), id, q.funder, Sent)]
  {
    assert v.storage.requests - {w.storage.nextId} == w.storage.requests;
    assert v.outbox + [] == v.outbox;
  }

  // ---- Gas ----

  /** Whatever was accepted fits one execution: bounded actions, bounded vote gas, everything within 280 TGas. */
  lemma AcceptedFits(w0: World, steps: seq<Step>, id: U64)
    requires Init(w0) && id in Run(w0, steps).storage.requests
    ensures var q := Run(w0, steps).storage.requests[id];
      && (q.approve.None? ==> |q.actions| <= 280)
      && q.actions != []
      && (q.approve.Some? ==> q.actions[0].gas + q.approve.value.actGas <= 262_606 * GGAS)
      && AttachedGas(PromiseOf(id, q)) + FeeGas(q) <= MAX_EXECUTION_GAS
  {
    Reachable(w0, steps);
    var w := Run(w0, steps);
    assert RecordOk(w.history, w.now, w.events, id);
    var q := w.storage.requests[id];
    ExecutionGas(id, q);
    if q.approve.None? {
      PlainActionBound(q);
    } else {
      ProposalGasBound(q);
    }
  }
}
