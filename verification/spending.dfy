/** The spending account as a step system over its storage, its transfers and its callbacks. */
module Spending {
  import opened Base
  import opened Calls
  import opened Whitelist
  import opened Ledger

  /** The contract's storage, together with its own account id. */
  datatype Account = Account(me: AccountId, spender: AccountId, manager: AccountId, admin: AccountId,
                             whitelist: Table)

  /** The elementary whitelist operations a method stands for. */
  function CallOps(call: Call): seq<Op> {
    match call
    case Transfer(receiver, amount) => [Charge(WhitelistKey(receiver, None), amount)]
    case TransferFt(receiver, token, amount) => [Charge(WhitelistKey(receiver, Some(token)), amount)]
    case AddToWhitelist(entries) => AddOps(entries)
    case RemoveFromWhitelist(keys) => RemoveOps(keys)
    case SetLimit(entries) => SetOps(entries)
    case IncreaseLimit(changes) => IncreaseOps(changes)
    case DecreaseLimit(changes) => DecreaseOps(changes)
    case _ => []
  }

  predicate IsTransfer(call: Call) {
    call.Transfer? || call.TransferFt?
  }

  predicate IsManagement(call: Call) {
    call.AddToWhitelist? || call.RemoveFromWhitelist? || call.SetLimit? || call.IncreaseLimit? || call.DecreaseLimit?
  }

  predicate IsRoleChange(call: Call) {
    call.SetSpender? || call.SetManager? || call.SetAdmin?
  }

  /** Who may call what; a method the contract does not have is refused to everyone. */
  predicate Permitted(a: Account, caller: AccountId, call: Call) {
    || (IsTransfer(call) && caller == a.spender)
    || (IsManagement(call) && caller == a.manager && CallOps(call) != [])
    || (IsRoleChange(call) && caller == a.admin)
  }

  /** The effect of one call on the storage; None is a panic. */
  function Handle(a: Account, caller: AccountId, call: Call): Option<Account> {
    if !Permitted(a, caller, call) then None
    else
      match call
      case SetSpender(id) => Some(a.(spender := id))
      case SetManager(id) => Some(a.(manager := id))
      case SetAdmin(id) => Some(a.(admin := id))
      case _ =>
        match ApplyAll(a.me, a.whitelist, CallOps(call))
        case None => None
        case Some(v) => Some(a.(whitelist := v))
  }

  /** An increase call may be split into two consecutive calls anywhere. */
  lemma IncreaseSplits(a: Account, caller: AccountId, x: seq<LimitChange>, y: seq<LimitChange>)
    requires x != [] && y != []
    ensures Handle(a, caller, IncreaseLimit(x + y))
         == match Handle(a, caller, IncreaseLimit(x)) {
              case None => None
              case Some(b) => Handle(b, caller, IncreaseLimit(y))
            }
  {
    var xs, ys := IncreaseOps(x), IncreaseOps(y);
    assert IncreaseOps(x + y) == xs + ys && |xs| == |x| && |ys| == |y|;
    ApplyAllConcat(a.me, a.whitelist, xs, ys);
  }

  /** The callback of a transfer: a failed one gives its amount back to the entry, if there still is one. */
  function HandleCallback(a: Account, key: WhitelistKey, amount: U128, ok: bool): Account {
    if ok then a else a.(whitelist := Apply(a.me, a.whitelist, Restore(key, amount)).value)
  }

  // ---- The step system ----

  /** A transfer is on its way, has landed (and its callback is due), or is closed. */
  datatype Status = Sent | Landed(ok: bool) | Closed(ok: bool)

  datatype Receipt = Receipt(key: WhitelistKey, amount: U128, status: Status)

  datatype Event =
    | Transferred(key: WhitelistKey, amount: U128, remaining: U128)
    | TransferFailed(key: WhitelistKey, amount: U128)

  /** The storage with all transfers ever dispatched, every operation applied, and the event log. */
  datatype World = World(account: Account, receipts: seq<Receipt>, trace: seq<Op>, events: seq<Event>)

  function Perform(w: World, caller: AccountId, action: FunctionCall): Option<World> {
    if action.deposit != 0 then None
    else
      match Handle(w.account, caller, action.call)
      case None => None
      case Some(a) =>
        var ops := CallOps(action.call);
        Some(World(a, w.receipts + NewReceipts(ops), w.trace + ops, w.events + NewEvents(a, ops)))
  }

  function NewReceipts(ops: seq<Op>): seq<Receipt> {
    if |ops| == 1 && ops[0].Charge? then [Receipt(ops[0].key, ops[0].amount, Sent)] else []
  }

  function NewEvents(a: Account, ops: seq<Op>): seq<Event> {
    if |ops| == 1 && ops[0].Charge?
    then [Transferred(ops[0].key, ops[0].amount, Allowance(a.whitelist, ops[0].key))] else []
  }

  /** A batch receipt: its calls in order, all or nothing. */
  function PerformAll(w: World, caller: AccountId, batch: seq<FunctionCall>): Option<World> {
    if batch == [] then Some(w)
    else
      match PerformAll(w, caller, batch[..|batch| - 1])
      case None => None
      case Some(v) => Perform(v, caller, batch[|batch| - 1])
  }

  /** All elementary operations of a batch, in order. */
  function BatchOps(batch: seq<FunctionCall>): seq<Op> {
    if batch == [] then []
    else BatchOps(batch[..|batch| - 1]) + CallOps(batch[|batch| - 1].call)
  }

  datatype Step =
    | Deliver(caller: AccountId, batch: seq<FunctionCall>)
    | Land(id: nat, ok: bool)
    | Callback(id: nat)

  function Next(w: World, s: Step): World {
    match s
    case Deliver(caller, batch) =>
      (match PerformAll(w, caller, batch) case None => w case Some(v) => v)
    case Land(id, ok) =>
      if id < |w.receipts| && w.receipts[id].status.Sent?
      then w.(receipts := w.receipts[id := w.receipts[id].(status := Landed(ok))]) else w
    case Callback(id) =>
      if id < |w.receipts| && w.receipts[id].status.Landed?
      then
        var r := w.receipts[id];
        var receipts := w.receipts[id := r.(status := Closed(r.status.ok))];
        var account := HandleCallback(w.account, r.key, r.amount, r.status.ok);
        if r.status.ok then World(account, receipts, w.trace, w.events)
        else World(account, receipts, w.trace + [Restore(r.key, r.amount)],
                   w.events + [TransferFailed(r.key, r.amount)])
      else w
  }

  function Run(w: World, steps: seq<Step>): World {
    if steps == [] then w else Next(Run(w, steps[..|steps| - 1]), steps[|steps| - 1])
  }

  ghost predicate Init(w: World) {
    w.account.whitelist == map[] && w.receipts == [] && w.trace == [] && w.events == []
  }

  // ---- What is where, per key ----

  function Charged(k: WhitelistKey): Receipt -> nat {
    (r: Receipt) => if r.key == k then r.amount else 0
  }

  function InFlight(k: WhitelistKey): Receipt -> nat {
    (r: Receipt) => if r.key == k && (r.status.Sent? || r.status == Landed(false)) then r.amount else 0
  }

  function Paid(k: WhitelistKey): Receipt -> nat {
    (r: Receipt) => if r.key == k && !r.status.Sent? && r.status.ok then r.amount else 0
  }

  function Refused(k: WhitelistKey): Receipt -> nat {
    (r: Receipt) => if r.key == k && r.status == Closed(false) then r.amount else 0
  }

  function Unrefused(k: WhitelistKey): Receipt -> nat {
    (r: Receipt) => if r.key == k && r.status != Closed(false) then r.amount else 0
  }

  function EventSent(k: WhitelistKey): Event -> nat {
    (e: Event) => if e.Transferred? && e.key == k then e.amount else 0
  }

  function EventFailed(k: WhitelistKey): Event -> nat {
    (e: Event) => if e.TransferFailed? && e.key == k then e.amount else 0
  }

  function InFlightOf(w: World, k: WhitelistKey): nat { Sum(w.receipts, InFlight(k)) }

  function PaidOf(w: World, k: WhitelistKey): nat { Sum(w.receipts, Paid(k)) }

  // ---- The invariant ----

  /** The books of a key agree with the whitelist, the transfers and the event log. */
  ghost predicate Agrees(w: World, k: WhitelistKey) {
    var l := LineOf(w.trace, k);
    && l.limit == Lookup(w.account.whitelist, k)
    && Totals(w.receipts, w.events, k, l.charged, l.returned)
  }

  /** Transfers and events both add up to the charged and returned totals of a key. */
  ghost predicate Totals(receipts: seq<Receipt>, events: seq<Event>, k: WhitelistKey, charged: nat, returned: nat) {
    && Sum(receipts, Charged(k)) == Sum(events, EventSent(k)) == charged
    && Sum(receipts, Refused(k)) == Sum(events, EventFailed(k)) == returned
  }

  lemma TotalsSent(receipts: seq<Receipt>, events: seq<Event>, k: WhitelistKey, charged: nat, returned: nat,
                   r: Receipt, e: Event)
    requires Totals(receipts, events, k, charged, returned)
    requires r.status.Sent? && e.Transferred? && e.key == r.key && e.amount == r.amount
    ensures Totals(receipts + [r], events + [e], k, charged + Charged(k)(r), returned)
  {
    SumAppend(receipts, r, Charged(k));
    SumAppend(receipts, r, Refused(k));
    SumAppend(events, e, EventSent(k));
    SumAppend(events, e, EventFailed(k));
  }

  lemma TotalsMoved(receipts: seq<Receipt>, events: seq<Event>, k: WhitelistKey, charged: nat, returned: nat,
                    id: nat, r: Receipt)
    requires Totals(receipts, events, k, charged, returned)
    requires id < |receipts| && r.key == receipts[id].key && r.amount == receipts[id].amount
    requires receipts[id].status != Closed(false) && r.status != Closed(false)
    ensures Totals(receipts[id := r], events, k, charged, returned)
  {
    SumUpdate(receipts, id, r, Charged(k));
    SumUpdate(receipts, id, r, Refused(k));
  }

  lemma TotalsFailed(receipts: seq<Receipt>, events: seq<Event>, k: WhitelistKey, charged: nat, returned: nat,
                     id: nat, r: Receipt, e: Event)
    requires Totals(receipts, events, k, charged, returned)
    requires id < |receipts| && r.key == receipts[id].key && r.amount == receipts[id].amount
    requires receipts[id].status != Closed(false) && r.status == Closed(false)
    requires e == TransferFailed(r.key, r.amount)
    ensures Totals(receipts[id := r], events + [e], k, charged, returned + Charged(k)(r))
  {
    SumUpdate(receipts, id, r, Charged(k));
    SumUpdate(receipts, id, r, Refused(k));
    SumAppend(events, e, EventSent(k));
    SumAppend(events, e, EventFailed(k));
  }

  ghost predicate NeverItself(a: Account) {
    forall k | k in a.whitelist :: k.account != a.me
  }

  ghost predicate Inv(w: World) {
    && NeverItself(w.account)
    && forall k :: Agrees(w, k)
  }

  lemma {:induction false} ApplyAllNeverItself(me: AccountId, w: Table, ops: seq<Op>)
    requires ApplyAll(me, w, ops).Some?
    requires forall k | k in w :: k.account != me
    ensures forall k | k in ApplyAll(me, w, ops).value :: k.account != me
  {
    if ops != [] {
      ApplyAllNeverItself(me, w, ops[..|ops| - 1]);
    }
  }

  /** A method either charges once and sends one transfer, or charges and restores nothing. */
  lemma CallOpsShape(call: Call, k: WhitelistKey)
    ensures Sum(CallOps(call), ReturnedBy(k)) == 0
    ensures IsTransfer(call) ==>
              Sum(CallOps(call), ChargedBy(k)) == ChargedBy(k)(CallOps(call)[0])
    ensures !IsTransfer(call) ==>
              Sum(CallOps(call), ChargedBy(k)) == 0 && (forall op | op in CallOps(call) :: !op.Charge?)
  {
    var ops := CallOps(call);
    forall op | op in ops ensures !op.Restore? && (op.Charge? ==> IsTransfer(call)) {
      var i :| 0 <= i < |ops| && ops[i] == op;
    }
    SumZero(ops, ReturnedBy(k));
    if IsTransfer(call) {
      assert ops[..0] == [];
    } else {
      SumZero(ops, ChargedBy(k));
    }
  }

  /** What a successful management call does. */
  lemma ManagementEffect(w: World, caller: AccountId, action: FunctionCall)
    requires Perform(w, caller, action).Some? && IsManagement(action.call)
    ensures var v := Perform(w, caller, action).value; var ops := CallOps(action.call);
      && ApplyAll(w.account.me, w.account.whitelist, ops) == Some(v.account.whitelist)
      && v.trace == w.trace + ops && v.receipts == w.receipts && v.events == w.events
  {
    var ops := CallOps(action.call);
    CallOpsShape(action.call, WhitelistKey("", None));
    assert |ops| == 1 ==> ops[0] in ops;
    assert w.receipts + [] == w.receipts && w.events + [] == w.events;
  }

  lemma ManagementAgrees(w: World, caller: AccountId, action: FunctionCall, k: WhitelistKey)
    requires Agrees(w, k) && Perform(w, caller, action).Some? && IsManagement(action.call)
    ensures Agrees(Perform(w, caller, action).value, k)
  {
    ManagementEffect(w, caller, action);
    CallOpsShape(action.call, k);
    ReplayAgrees(w.account.me, w.account.whitelist, w.trace, CallOps(action.call), k);
  }

  function ChargeOf(call: Call): Op
    requires IsTransfer(call)
  {
    CallOps(call)[0]
  }

  /** What a successful transfer call appends. */
  lemma TransferEffect(w: World, caller: AccountId, action: FunctionCall)
    requires Perform(w, caller, action).Some? && IsTransfer(action.call)
    ensures var v := Perform(w, caller, action).value; var op := ChargeOf(action.call);
      && op.Charge? && Apply(w.account.me, w.account.whitelist, op) == Some(v.account.whitelist)
      && v.trace == w.trace + [op]
      && v.receipts == w.receipts + [Receipt(op.key, op.amount, Sent)]
      && v.events == w.events + [Transferred(op.key, op.amount, Allowance(v.account.whitelist, op.key))]
  {
    assert CallOps(action.call) == [ChargeOf(action.call)];
    ApplySingle(w.account.me, w.account.whitelist, ChargeOf(action.call));
  }

  lemma ChargeAgrees(w: World, v: World, op: Op, k: WhitelistKey)
    requires Agrees(w, k) && op.Charge? && v.trace == w.trace + [op]
    requires Apply(w.account.me, w.account.whitelist, op) == Some(v.account.whitelist)
    requires v.receipts == w.receipts + [Receipt(op.key, op.amount, Sent)]
    requires v.events == w.events + [Transferred(op.key, op.amount, Allowance(v.account.whitelist, op.key))]
    ensures Agrees(v, k)
  {
    var l := LineOf(w.trace, k);
    LineOfAppend(w.trace, op, k);
    TotalsSent(w.receipts, w.events, k, l.charged, l.returned, Receipt(op.key, op.amount, Sent),
               Transferred(op.key, op.amount, Allowance(v.account.whitelist, op.key)));
    if op.key == k {
      PostAgrees(w.account.me, w.account.whitelist, l, op);
    }
  }

  lemma TransferAgrees(w: World, caller: AccountId, action: FunctionCall, k: WhitelistKey)
    requires Agrees(w, k) && Perform(w, caller, action).Some? && IsTransfer(action.call)
    ensures Agrees(Perform(w, caller, action).value, k)
  {
    TransferEffect(w, caller, action);
    ChargeAgrees(w, Perform(w, caller, action).value, ChargeOf(action.call), k);
  }

  /** Assigning a role moves nothing. */
  lemma RoleChangeEffect(w: World, caller: AccountId, action: FunctionCall)
    requires Perform(w, caller, action).Some? && IsRoleChange(action.call)
    ensures var v := Perform(w, caller, action).value;
      && caller == w.account.admin && v.account.whitelist == w.account.whitelist && v.account.me == w.account.me
      && v.trace == w.trace && v.receipts == w.receipts && v.events == w.events
  {
    assert w.trace + [] == w.trace && w.receipts + [] == w.receipts && w.events + [] == w.events;
  }

  lemma PerformAgrees(w: World, caller: AccountId, action: FunctionCall, k: WhitelistKey)
    requires Agrees(w, k) && Perform(w, caller, action).Some?
    ensures Agrees(Perform(w, caller, action).value, k)
  {
    if IsTransfer(action.call) {
      TransferAgrees(w, caller, action, k);
    } else if IsManagement(action.call) {
      ManagementAgrees(w, caller, action, k);
    } else {
      RoleChangeEffect(w, caller, action);
    }
  }

  lemma HandleNeverItself(a: Account, caller: AccountId, call: Call)
    requires NeverItself(a) && Handle(a, caller, call).Some?
    ensures NeverItself(Handle(a, caller, call).value)
  {
    if !IsRoleChange(call) {
      ApplyAllNeverItself(a.me, a.whitelist, CallOps(call));
    }
  }

  lemma PerformKeeps(w: World, caller: AccountId, action: FunctionCall)
    requires Inv(w) && Perform(w, caller, action).Some?
    ensures Inv(Perform(w, caller, action).value)
  {
    var v := Perform(w, caller, action).value;
    HandleNeverItself(w.account, caller, action.call);
    forall k ensures Agrees(v, k) {
      PerformAgrees(w, caller, action, k);
    }
  }

  lemma {:induction false} PerformAllKeeps(w: World, caller: AccountId, batch: seq<FunctionCall>)
    requires Inv(w) && PerformAll(w, caller, batch).Some?
    ensures Inv(PerformAll(w, caller, batch).value)
  {
    if batch != [] {
      PerformAllKeeps(w, caller, batch[..|batch| - 1]);
      PerformKeeps(PerformAll(w, caller, batch[..|batch| - 1]).value, caller, batch[|batch| - 1]);
    }
  }

  lemma SettleAgrees(w: World, s: Step, k: WhitelistKey)
    requires !s.Deliver? && Inv(w)
    ensures Agrees(Next(w, s), k)
  {
    var v := Next(w, s);
    if v != w {
      var r := w.receipts[s.id];
      var l := LineOf(w.trace, k);
      assert Agrees(w, k);
      if s.Callback? && r.status == Landed(false) {
        LineOfAppend(w.trace, Restore(r.key, r.amount), k);
        assert Agrees(w, r.key);
        PostAgrees(w.account.me, w.account.whitelist, LineOf(w.trace, r.key), Restore(r.key, r.amount));
        TotalsFailed(w.receipts, w.events, k, l.charged, l.returned,
                     s.id, v.receipts[s.id], TransferFailed(r.key, r.amount));
      } else {
        TotalsMoved(w.receipts, w.events, k, l.charged, l.returned, s.id, v.receipts[s.id]);
      }
    }
  }

  lemma NextKeeps(w: World, s: Step)
    requires Inv(w)
    ensures Inv(Next(w, s))
  {
    if s.Deliver? {
      if PerformAll(w, s.caller, s.batch).Some? {
        PerformAllKeeps(w, s.caller, s.batch);
      }
    } else {
      forall k ensures Agrees(Next(w, s), k) {
        SettleAgrees(w, s, k);
      }
    }
  }

  lemma {:induction false} RunKeeps(w: World, steps: seq<Step>)
    requires Inv(w)
    ensures Inv(Run(w, steps))
  {
    if steps != [] {
      RunKeeps(w, steps[..|steps| - 1]);
      NextKeeps(Run(w, steps[..|steps| - 1]), steps[|steps| - 1]);
    }
  }

  lemma InitInv(w: World)
    requires Init(w)
    ensures Inv(w)
  {
  }

  // ---- The trace replays to the whitelist ----

  /** Running the whole trace from the empty table gives the current one. */
  ghost predicate Replays(w: World) {
    ApplyAll(w.account.me, map[], w.trace) == Some(w.account.whitelist)
  }

  lemma HandleApplies(a: Account, caller: AccountId, call: Call)
    requires Handle(a, caller, call).Some?
    ensures Handle(a, caller, call).value.me == a.me
    ensures ApplyAll(a.me, a.whitelist, CallOps(call)) == Some(Handle(a, caller, call).value.whitelist)
  {
  }

  lemma PerformReplays(w: World, caller: AccountId, action: FunctionCall)
    requires Replays(w) && Perform(w, caller, action).Some?
    ensures Replays(Perform(w, caller, action).value)
  {
    HandleApplies(w.account, caller, action.call);
    ApplyAllConcat(w.account.me, map[], w.trace, CallOps(action.call));
  }

  lemma {:induction false} PerformAllReplays(w: World, caller: AccountId, batch: seq<FunctionCall>)
    requires Replays(w) && PerformAll(w, caller, batch).Some?
    ensures Replays(PerformAll(w, caller, batch).value)
  {
    if batch != [] {
      PerformAllReplays(w, caller, batch[..|batch| - 1]);
      PerformReplays(PerformAll(w, caller, batch[..|batch| - 1]).value, caller, batch[|batch| - 1]);
    }
  }

  lemma RestoreReplays(w: World, v: World, op: Op)
    requires Replays(w) && op.Restore? && v.trace == w.trace + [op]
    requires v.account == HandleCallback(w.account, op.key, op.amount, false)
    ensures Replays(v)
  {
    ApplyAllConcat(w.account.me, map[], w.trace, [op]);
    ApplySingle(w.account.me, w.account.whitelist, op);
  }

  lemma NextReplays(w: World, s: Step)
    requires Replays(w)
    ensures Replays(Next(w, s))
  {
    if s.Deliver? && PerformAll(w, s.caller, s.batch).Some? {
      PerformAllReplays(w, s.caller, s.batch);
    } else if s.Callback? && s.id < |w.receipts| && w.receipts[s.id].status == Landed(false) {
      RestoreReplays(w, Next(w, s), Restore(w.receipts[s.id].key, w.receipts[s.id].amount));
    }
  }

  lemma {:induction false} RunReplays(w: World, steps: seq<Step>)
    requires Replays(w)
    ensures Replays(Run(w, steps))
  {
    if steps != [] {
      RunReplays(w, steps[..|steps| - 1]);
      NextReplays(Run(w, steps[..|steps| - 1]), steps[|steps| - 1]);
    }
  }

  // ---- The main results over every run ----

  lemma Partition(w: World, k: WhitelistKey)
    ensures Sum(w.receipts, Charged(k)) == InFlightOf(w, k) + PaidOf(w, k) + Sum(w.receipts, Refused(k))
  {
    SumSplit(w.receipts, Charged(k), Unrefused(k), Refused(k));
    SumSplit(w.receipts, Unrefused(k), InFlight(k), Paid(k));
  }

  /** Every grant is remaining, in flight, paid, revoked or forfeited: nothing else, in any interleaving. */
  lemma LedgerExact(w: World, k: WhitelistKey)
    requires Inv(w)
    ensures var l := LineOf(w.trace, k);
      l.granted == Allowance(w.account.whitelist, k) + InFlightOf(w, k) + PaidOf(w, k) + l.revoked + l.forfeited
  {
    assert Agrees(w, k);
    Balanced(w.trace, k);
    Partition(w, k);
  }

  /**
   * In every run, whatever the whitelist entry of a key was raised by is remaining, in flight, paid, taken
   * away again, or clipped from a rollback; the books of the key show exactly these table movements.
   */
  lemma AllowanceLedger(w0: World, steps: seq<Step>, k: WhitelistKey)
    requires Init(w0)
    ensures Replays(Run(w0, steps))
    ensures var w := Run(w0, steps); var l := LineOf(w.trace, k);
      l.granted == Allowance(w.account.whitelist, k) + InFlightOf(w, k) + PaidOf(w, k) + l.revoked + l.forfeited
    ensures var w := Run(w0, steps); var l := LineOf(w.trace, k); var me := w.account.me;
      && l.granted == Moved(me, w.trace, k, Raised)
      && l.revoked == Moved(me, w.trace, k, Lowered)
      && l.forfeited == Moved(me, w.trace, k, Clipped(k))
  {
    InitInv(w0);
    RunKeeps(w0, steps);
    LedgerExact(Run(w0, steps), k);
    RunReplays(w0, steps);
    BooksFromTable(Run(w0, steps).account.me, Run(w0, steps).trace, k);
  }

  /** The event log alone tells how much is in flight or paid. */
  lemma EventsReplay(w0: World, steps: seq<Step>, k: WhitelistKey)
    requires Init(w0)
    ensures var w := Run(w0, steps);
      Sum(w.events, EventSent(k)) == Sum(w.events, EventFailed(k)) + InFlightOf(w, k) + PaidOf(w, k)
  {
    InitInv(w0);
    RunKeeps(w0, steps);
    var w := Run(w0, steps);
    assert Agrees(w, k);
    Partition(w, k);
  }

  /** No reachable whitelist lets the contract pay itself, although set_limit never checks that. */
  lemma NeverWhitelistsItself(w0: World, steps: seq<Step>)
    requires Init(w0)
    ensures forall k | k in Run(w0, steps).account.whitelist :: k.account != Run(w0, steps).account.me
  {
    InitInv(w0);
    RunKeeps(w0, steps);
  }
}
