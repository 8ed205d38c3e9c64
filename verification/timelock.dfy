/** The timelock's storage, and the effect of each of its methods on it. */
module Timelock {
  import opened Base
  import opened Calls
  import opened Requests

  datatype Storage = Storage(dao: AccountId, admin: AccountId, guardians: set<AccountId>, delay: U64,
                             nextId: U64, requests: map<U64, Request>)

  /** What the runtime tells a method: own account, caller, block timestamp, attached deposit. */
  datatype Env = Env(me: AccountId, caller: AccountId, now: U64, attached: U128)

  /** The arguments bound into the callback of `add_proposal`, and the gas reserved for it. */
  datatype Callback = Callback(id: U64, dao: AccountId, funder: AccountId, bond: U128,
                               kind: string, actGas: U64, gas: U64)

  datatype Promise =
    | Batch(receiver: AccountId, actions: seq<FunctionCall>, callback: Option<Callback>)
    | Refund(to: AccountId, amount: U128)

  datatype Event =
    | ScheduleEvent(id: U64, executeAfter: U64, predecessor: Option<U64>)
    | ProposalEvent(id: U64, dao: AccountId, executeAfter: U64, predecessor: Option<U64>)
    | ExecuteEvent(id: U64, receiver: AccountId)
    | ApproveEvent(id: U64, proposal: U64)
    | FailedEvent(id: U64, funder: AccountId, refund: U128)
    | CancelEvent(id: U64, receiver: AccountId, guardian: AccountId)

  /** What a successful call did, besides returning. */
  datatype Effect =
    | Enqueued(id: U64, request: Request)
    | Dequeued(id: U64, request: Request, promise: Promise)
    | Withdrawn(id: U64, request: Request, guardian: AccountId, refund: Option<Promise>)
    | Configured

  datatype Handled = Handled(storage: Storage, effect: Effect)

  function PlainRequest(e: Env, s: Storage, receiver: AccountId, actions: seq<FunctionCall>,
                        predecessor: Option<U64>): Request {
    Request(receiver, actions, e.caller, SatAdd64(e.now, s.delay), None, predecessor)
  }

  function ProposalRequest(e: Env, s: Storage, description: string, kind: string, dao: AccountId, bond: U128,
                           addGas: U64, actGas: U64, predecessor: Option<U64>): Request {
    Request(dao, [FunctionCall(AddProposal(description, kind), bond, addGas)], e.caller,
            SatAdd64(e.now, s.delay), Some(ProposalApproval(kind, actGas)), predecessor)
  }

  function Members(ids: seq<AccountId>): set<AccountId> {
    set g | g in ids
  }

  predicate PredecessorFound(s: Storage, predecessor: Option<U64>) {
    predecessor.Some? ==> predecessor.value in s.requests
  }

  /** Stores a request under the next id; the id counter is a checked u64. */
  function Enqueue(s: Storage, q: Request): Option<Handled> {
    if s.nextId < U64_MAX
    then Some(Handled(s.(nextId := s.nextId + 1, requests := s.requests[s.nextId := q]), Enqueued(s.nextId, q)))
    else None
  }

  /** The promise `execute` returns. */
  function PromiseOf(id: U64, q: Request): Promise {
    Batch(q.receiver, q.actions,
          match q.approve
          case None => None
          case Some(a) =>
            Some(Callback(id, q.receiver, q.funder, TotalDeposit(q), a.kind, a.actGas,
                          SatAdd64(GAS_FOR_ON_PROPOSAL_ADDED, a.actGas))))
  }

  /** The effect of one call; None is a panic, which leaves the storage as it was. */
  function Handle(e: Env, s: Storage, call: Call): Option<Handled> {
    match call
    case Schedule(receiver, actions, predecessor) =>
      var q := PlainRequest(e, s, receiver, actions, predecessor);
      if e.caller == s.dao && actions != [] && PredecessorFound(s, predecessor)
         && e.attached == TotalDeposit(q) && TotalGas(q) <= MAX_EXECUTION_GAS
      then Enqueue(s, q) else None
    case ScheduleProposal(description, kind, dao, bond, addGas, actGas, predecessor) =>
      var q := ProposalRequest(e, s, description, kind, dao, bond, addGas, actGas, predecessor);
      if e.caller == s.dao && PredecessorFound(s, predecessor)
         && e.attached == bond && TotalGas(q) <= MAX_EXECUTION_GAS
      then Enqueue(s, q) else None
    case Execute(id) =>
      if e.attached == 0 && id in s.requests then
        var q := s.requests[id];
        var left := s.(requests := s.requests - {id});
        if e.now >= q.executeAfter && (q.predecessor.Some? ==> q.predecessor.value !in left.requests)
        then Some(Handled(left, Dequeued(id, q, PromiseOf(id, q)))) else None
      else None
    case Cancel(id) =>
      if e.attached == 0 && e.caller in s.guardians && id in s.requests then
        var q := s.requests[id];
        var refund := if TotalDeposit(q) != 0 then Some(Refund(q.funder, TotalDeposit(q))) else None;
        Some(Handled(s.(requests := s.requests - {id}), Withdrawn(id, q, e.caller, refund)))
      else None
    case SetDao(dao) =>
      if e.attached == 0 && e.caller == s.admin then Some(Handled(s.(dao := dao), Configured)) else None
    case SetAdmin(admin) =>
      if e.attached == 0 && e.caller == s.admin then Some(Handled(s.(admin := admin), Configured)) else None
    case SetGuardians(guardians) =>
      if e.attached == 0 && e.caller == s.admin
      then Some(Handled(s.(guardians := Members(guardians)), Configured)) else None
    case SetDelay(delay) =>
      if e.attached == 0 && e.caller == s.admin && delay <= MAX_DELAY_NS
      then Some(Handled(s.(delay := delay), Configured)) else None
    case _ => None
  }

  /** What `add_proposal` came back with; a value that is not a u64 aborts the callback. */
  datatype Outcome = Returned(value: Option<U64>) | Failed

  /** The approving vote cast on a returned proposal id. */
  function Vote(cb: Callback, proposal: U64): Promise {
    Batch(cb.dao, [FunctionCall(ActProposal(proposal, cb.kind), 0, cb.actGas)], None)
  }

  /** What `on_proposal_added` sends next. */
  function FollowUp(cb: Callback, result: Outcome): Option<Promise> {
    match result
    case Returned(None) => None
    case Returned(Some(proposal)) => Some(Vote(cb, proposal))
    case Failed => if cb.bond == 0 then None else Some(Refund(cb.funder, cb.bond))
  }

  function FollowUpEvents(cb: Callback, result: Outcome): seq<Event> {
    match result
    case Returned(None) => []
    case Returned(Some(proposal)) => [ApproveEvent(cb.id, proposal)]
    case Failed => [FailedEvent(cb.id, cb.funder, cb.bond)]
  }

  function EventsOf(effect: Effect): seq<Event> {
    match effect
    case Enqueued(id, q) =>
      if q.approve.None? then [ScheduleEvent(id, q.executeAfter, q.predecessor)]
      else [ProposalEvent(id, q.receiver, q.executeAfter, q.predecessor)]
    case Dequeued(id, q, _) => [ExecuteEvent(id, q.receiver)]
    case Withdrawn(id, q, guardian, _) => [CancelEvent(id, q.receiver, guardian)]
    case Configured => []
  }

  // ---- What every successful call obeys ----

  /** A request as scheduling leaves it: actions for a plain one, one `add_proposal` for a proposal. */
  predicate WellShaped(q: Request) {
    && q.actions != []
    && TotalGas(q) <= MAX_EXECUTION_GAS
    && (q.approve.Some? ==> |q.actions| == 1 && q.actions[0].call.AddProposal?)
  }

  predicate EnqueueRule(e: Env, s: Storage, h: Handled)
    requires h.effect.Enqueued?
  {
    var q := h.effect.request;
    && e.caller == s.dao == q.funder
    && q.executeAfter == SatAdd64(e.now, s.delay)
    && PredecessorFound(s, q.predecessor)
    && e.attached == TotalDeposit(q)
    && WellShaped(q)
    && h.effect.id == s.nextId < U64_MAX
    && h.storage == s.(nextId := s.nextId + 1, requests := s.requests[s.nextId := q])
  }

  predicate DequeueRule(e: Env, s: Storage, h: Handled)
    requires h.effect.Dequeued?
  {
    var id := h.effect.id;
    && e.attached == 0
    && id in s.requests && s.requests[id] == h.effect.request
    && e.now >= h.effect.request.executeAfter
    && (h.effect.request.predecessor.Some? ==> h.effect.request.predecessor.value !in s.requests - {id})
    && h.storage == s.(requests := s.requests - {id})
    && h.effect.promise == PromiseOf(id, h.effect.request)
  }

  predicate WithdrawRule(e: Env, s: Storage, h: Handled)
    requires h.effect.Withdrawn?
  {
    var id := h.effect.id;
    var total := TotalDeposit(h.effect.request);
    && e.attached == 0
    && e.caller == h.effect.guardian && e.caller in s.guardians
    && id in s.requests && s.requests[id] == h.effect.request
    && h.storage == s.(requests := s.requests - {id})
    && h.effect.refund == if total == 0 then None else Some(Refund(h.effect.request.funder, total))
  }

  predicate ConfigureRule(e: Env, s: Storage, h: Handled)
    requires h.effect.Configured?
  {
    && e.attached == 0
    && e.caller == s.admin
    && h.storage.nextId == s.nextId && h.storage.requests == s.requests
    && (h.storage.delay == s.delay || h.storage.delay <= MAX_DELAY_NS)
  }

  /** The rule a call's effect falls under. */
  predicate Rules(e: Env, s: Storage, h: Handled) {
    match h.effect
    case Enqueued(_, _) => EnqueueRule(e, s, h)
    case Dequeued(_, _, _) => DequeueRule(e, s, h)
    case Withdrawn(_, _, _, _) => WithdrawRule(e, s, h)
    case Configured => ConfigureRule(e, s, h)
  }

  /** Who may do what, when, and to which part of the storage, for every call. */
  lemma CallsObeyRules(e: Env, s: Storage, call: Call)
    requires Handle(e, s, call).Some?
    ensures Rules(e, s, Handle(e, s, call).value)
  {
    if call.ScheduleProposal? {
      var q := ProposalRequest(e, s, call.description, call.kind, call.dao, call.bond, call.addGas, call.actGas,
                               call.predecessor);
      FoldDepositClamps(0, q.actions);
      SumOne(q.actions[0], DepositOf);
    }
  }

  // ---- Every method exactly ----

  /**
   * When a call succeeds: roles, queue and clock, with deposits and gas in unbounded arithmetic.
   * What the fees leave of 280 TGas is 274783 GGas for a plain request and 262606 GGas for a proposal.
   */
  predicate Allowed(e: Env, s: Storage, call: Call) {
    match call
    case Schedule(_, actions, predecessor) =>
      && e.caller == s.dao && s.nextId < U64_MAX && actions != []
      && (predecessor.Some? ==> predecessor.value in s.requests)
      && e.attached == Min(U128_MAX, DepositSum(actions))
      && Sum(actions, GasOf) + 980_000_000_000 * |actions| <= 274_783_000_000_000
    case ScheduleProposal(_, _, _, bond, addGas, actGas, predecessor) =>
      && e.caller == s.dao && s.nextId < U64_MAX
      && (predecessor.Some? ==> predecessor.value in s.requests)
      && e.attached == bond && addGas + actGas <= 262_606_000_000_000
    case Execute(id) =>
      && e.attached == 0 && id in s.requests && s.requests[id].executeAfter <= e.now
      && (s.requests[id].predecessor.Some? ==> s.requests[id].predecessor.value !in s.requests.Keys - {id})
    case Cancel(id) => e.attached == 0 && e.caller in s.guardians && id in s.requests
    case SetDao(_) => e.attached == 0 && e.caller == s.admin
    case SetAdmin(_) => e.attached == 0 && e.caller == s.admin
    case SetGuardians(_) => e.attached == 0 && e.caller == s.admin
    case SetDelay(delay) => e.attached == 0 && e.caller == s.admin && delay <= 2_592_000_000_000_000
    case _ => false
  }

  /** A new request was stored under the next id, as its schedule call described it. */
  predicate Queued(e: Env, s: Storage, h: Handled, receiver: AccountId, actions: seq<FunctionCall>,
                   approve: Option<ProposalApproval>, predecessor: Option<U64>) {
    && h.effect.Enqueued? && h.effect.id == s.nextId < U64_MAX
    && h.storage == s.(nextId := s.nextId + 1, requests := s.requests[s.nextId := h.effect.request])
    && h.effect.request
       == Request(receiver, actions, e.caller, Min(U64_MAX, e.now + s.delay), approve, predecessor)
  }

  /** A proposal request asks for a callback that knows the request; its gas covers the vote on top of 10 TGas. */
  function CallbackFor(id: U64, q: Request): Option<Callback> {
    if q.approve.None? then None
    else
      var a := q.approve.value;
      Some(Callback(id, q.receiver, q.funder, Min(U128_MAX, DepositSum(q.actions)), a.kind, a.actGas,
                    Min(U64_MAX, 10_000_000_000_000 + a.actGas)))
  }

  /** What a successful call does: it touches one request, or one configuration field, and nothing else. */
  ghost predicate Does(e: Env, s: Storage, call: Call, h: Handled) {
    match call
    case Schedule(receiver, actions, predecessor) => Queued(e, s, h, receiver, actions, None, predecessor)
    case ScheduleProposal(description, kind, dao, bond, addGas, actGas, predecessor) =>
      Queued(e, s, h, dao, [FunctionCall(AddProposal(description, kind), bond, addGas)],
             Some(ProposalApproval(kind, actGas)), predecessor)
    case Execute(id) =>
      && h.effect.Dequeued? && h.effect.id == id && id in s.requests && s.requests[id] == h.effect.request
      && h.storage == s.(requests := h.storage.requests) && h.storage.requests == s.requests - {id}
      && var q := s.requests[id];
         h.effect.promise == Batch(q.receiver, q.actions, CallbackFor(id, q))
    case Cancel(id) =>
      && h.effect.Withdrawn? && h.effect.id == id && id in s.requests && s.requests[id] == h.effect.request
      && h.storage == s.(requests := h.storage.requests) && h.storage.requests == s.requests - {id}
      && h.effect.guardian == e.caller
      && h.effect.refund
         == if DepositSum(s.requests[id].actions) == 0 then None
            else Some(Refund(s.requests[id].funder, Min(U128_MAX, DepositSum(s.requests[id].actions))))
    case SetDao(dao) => h.effect.Configured? && h.storage == s.(dao := dao)
    case SetAdmin(admin) => h.effect.Configured? && h.storage == s.(admin := admin)
    case SetGuardians(guardians) =>
      && h.effect.Configured? && h.storage == s.(guardians := h.storage.guardians)
      && forall g :: g in h.storage.guardians <==> g in guardians
    case SetDelay(delay) => h.effect.Configured? && h.storage == s.(delay := delay)
    case _ => false
  }

  lemma ScheduleExactly(e: Env, s: Storage, call: Call)
    requires call.Schedule? || call.ScheduleProposal?
    ensures Handle(e, s, call).Some? <==> Allowed(e, s, call)
    ensures Handle(e, s, call).Some? ==> Does(e, s, call, Handle(e, s, call).value)
  {
    var q := if call.Schedule? then PlainRequest(e, s, call.receiver, call.actions, call.predecessor)
             else ProposalRequest(e, s, call.description, call.kind, call.dao, call.bond, call.addGas, call.actGas,
                                  call.predecessor);
    FoldDepositClamps(0, q.actions);
    GasLimitExact(q);
    if call.ScheduleProposal? {
      ProposalGasBound(q);
    }
  }

  lemma QueueCallsExactly(e: Env, s: Storage, call: Call)
    requires call.Execute? || call.Cancel?
    ensures Handle(e, s, call).Some? <==> Allowed(e, s, call)
    ensures Handle(e, s, call).Some? ==> Does(e, s, call, Handle(e, s, call).value)
  {
    if call.id in s.requests {
      FoldDepositClamps(0, s.requests[call.id].actions);
    }
  }

  /** A call succeeds exactly when it is allowed, and then does exactly what its name says. */
  lemma CallsExactly(e: Env, s: Storage, call: Call)
    ensures Handle(e, s, call).Some? <==> Allowed(e, s, call)
    ensures Handle(e, s, call).Some? ==> Does(e, s, call, Handle(e, s, call).value)
  {
    if call.Schedule? || call.ScheduleProposal? {
      ScheduleExactly(e, s, call);
    } else if call.Execute? || call.Cancel? {
      QueueCallsExactly(e, s, call);
    }
  }

  // ---- Gas attached at execution ----

  function CallbackGas(p: Promise): nat {
    if p.Batch? && p.callback.Some? then p.callback.value.gas else 0
  }

  /** Everything `execute` attaches to the promise it returns. */
  function AttachedGas(p: Promise): nat {
    match p
    case Batch(_, actions, _) => Sum(actions, GasOf) + CallbackGas(p)
    case Refund(_, _) => 0
  }

  /** Receipt, action and body fees charged next to the attached gas. */
  function FeeGas(q: Request): nat {
    GAS_PER_ACTION * |q.actions| + GAS_PER_RECEIPT + GAS_FOR_EXECUTE_BODY
    + if q.approve.None? then 0 else GAS_PER_RECEIPT + GAS_PER_ACTION
  }

  /** For an accepted request the callback gas does not saturate, and attached gas plus fees is the checked total. */
  lemma ExecutionGas(id: U64, q: Request)
    requires TotalGas(q) <= MAX_EXECUTION_GAS
    ensures q.approve.Some? ==> CallbackGas(PromiseOf(id, q)) == GAS_FOR_ON_PROPOSAL_ADDED + q.approve.value.actGas
    ensures AttachedGas(PromiseOf(id, q)) + FeeGas(q) == TotalGas(q) <= MAX_EXECUTION_GAS
  {
    GasLimitExact(q);
  }

  // ---- The escrow check and saturation ----

  /** An accepted schedule escrows exactly what its actions will attach, iff that sum is a u128. */
  lemma EscrowExactness(e: Env, s: Storage, receiver: AccountId, actions: seq<FunctionCall>, predecessor: Option<U64>)
    requires Handle(e, s, Schedule(receiver, actions, predecessor)).Some?
    ensures e.attached == DepositSum(actions) <==> DepositSum(actions) <= U128_MAX
  {
    TotalDepositExact(PlainRequest(e, s, receiver, actions, predecessor));
  }

  /** Beyond u128 the check lets through a request that will attach more than it escrowed. */
  lemma SaturatedEscrow(e: Env, s: Storage, receiver: AccountId, call: Call)
    requires e.caller == s.dao && s.nextId < U64_MAX && e.attached == U128_MAX
    ensures var actions := [FunctionCall(call, U128_MAX, 0), FunctionCall(call, 1, 0)];
      && Handle(e, s, Schedule(receiver, actions, None)).Some?
      && e.attached < DepositSum(actions)
  {
    var a, b := FunctionCall(call, U128_MAX, 0), FunctionCall(call, 1, 0);
    var actions := [a, b];
    var q := PlainRequest(e, s, receiver, actions, None);
    assert actions == [a] + [b];
    SumOne(a, DepositOf);
    SumAppend([a], b, DepositOf);
    SumZero(actions, GasOf);
    FoldDepositClamps(0, actions);
    GasLimitExact(q);
  }
}
