/** Where the escrowed deposits are: the conservation laws of the timelock. */
module TimelockEscrow {
  import opened Base
  import opened Timelock
  import opened TimelockWorld
  import opened TimelockQueue
  import opened TimelockOutbox

  /** One funder, or everybody. */
  type Who = Option<AccountId>

  predicate Mine(who: Who, funder: AccountId) {
    who.None? || who.value == funder
  }

  function Attached(who: Who): Record -> nat {
    (r: Record) => if Mine(who, r.request.funder) then r.attached else 0
  }

  /** Escrowed: attached to a request that is still pending. */
  function Escrowed(who: Who): Record -> nat {
    (r: Record) => if Mine(who, r.request.funder) && r.fate.Pending? then r.attached else 0
  }

  predicate BondReturned(d: Dispatch) {
    d.phase.Closed? && d.phase.result.Failed?
  }

  /** What a dispatch accounts for; a failed bond is accounted for by its refund once the callback ran. */
  function Accounted(who: Who): Dispatch -> nat {
    (d: Dispatch) => if Mine(who, d.funder) && !BondReturned(d) then Carried(d.promise) else 0
  }

  /** On its way to a receiver. */
  function OnTheWay(who: Who): Dispatch -> nat {
    (d: Dispatch) => if Mine(who, d.funder) && d.promise.Batch? && d.phase.Sent? then Carried(d.promise) else 0
  }

  /** Kept by a receiver whose batch succeeded. */
  function Kept(who: Who): Dispatch -> nat {
    (d: Dispatch) =>
      if Mine(who, d.funder) && d.promise.Batch? && !d.phase.Sent? && d.phase.result.Returned?
      then Carried(d.promise) else 0
  }

  /** Back on the timelock after a batch failed: for good if the batch was plain, until the callback otherwise. */
  function Stranded(who: Who): Dispatch -> nat {
    (d: Dispatch) =>
      if Mine(who, d.funder) && d.promise.Batch? && d.phase == Landed(Failed) then Carried(d.promise) else 0
  }

  /** Sent back to the funder, by a cancel or after a failed `add_proposal`. */
  function Refunded(who: Who): Dispatch -> nat {
    (d: Dispatch) => if Mine(who, d.funder) && d.promise.Refund? then Carried(d.promise) else 0
  }

  function Outgoing(who: Who): Dispatch -> nat {
    (d: Dispatch) =>
      if Mine(who, d.funder) && d.promise.Batch? && (d.phase.Sent? || d.phase.result.Returned?)
      then Carried(d.promise) else 0
  }

  function Returning(who: Who): Dispatch -> nat {
    (d: Dispatch) =>
      if Mine(who, d.funder) && (d.promise.Refund? || d.phase == Landed(Failed)) then Carried(d.promise) else 0
  }

  /** What is back on the timelock's own balance: failed promises, and refunds it sent to itself. */
  function Held(me: AccountId): Dispatch -> nat {
    (d: Dispatch) =>
      if d.phase == Landed(Failed) || (d.promise.Refund? && d.promise.to == me && d.phase.Landed?)
      then Carried(d.promise) else 0
  }

  ghost predicate Conserved(w: World, who: Who) {
    Sum(w.history, Attached(who)) == Sum(w.history, Escrowed(who)) + Sum(w.outbox, Accounted(who))
  }

  /** The balance is the starting one plus the pending escrow plus what came back. */
  ghost predicate Backed(w: World) {
    w.balance == w.base + Sum(w.history, Escrowed(None)) + Sum(w.outbox, Held(w.me))
  }

  ghost predicate EscrowInv(w: World) {
    Backed(w) && forall who: Who :: Conserved(w, who)
  }

  // ---- Each step keeps the books ----

  lemma EnteringConserves(w: World, v: World, r: Record, who: Who)
    requires Conserved(w, who) && v.outbox == w.outbox && v.history == w.history + [r] && r.fate.Pending?
    ensures Conserved(v, who)
  {
    SumAppend(w.history, r, Attached(who));
    SumAppend(w.history, r, Escrowed(who));
  }

  /** Leaving the queue moves exactly the attached deposit from the escrow into a promise. */
  lemma LeavingConserves(w: World, v: World, id: U64, fate: Fate, sent: seq<Dispatch>, who: Who)
    requires LeavesWith(w, v, id, fate, sent)
    requires w.history[id].attached == if sent == [] then 0 else Carried(sent[0].promise)
    ensures Conserved(w, who) ==> Conserved(v, who)
    ensures Sum(v.history, Escrowed(None)) + w.history[id].attached == Sum(w.history, Escrowed(None))
    ensures Sum(v.outbox, Held(w.me)) == Sum(w.outbox, Held(w.me))
  {
    SumUpdate(w.history, id, v.history[id], Attached(who));
    SumUpdate(w.history, id, v.history[id], Escrowed(who));
    SumUpdate(w.history, id, v.history[id], Escrowed(None));
    if sent == [] {
      assert v.outbox == w.outbox;
    } else {
      assert sent == [sent[0]];
      SumAppend(w.outbox, sent[0], Accounted(who));
      SumAppend(w.outbox, sent[0], Held(w.me));
    }
  }

  lemma EnqueueKeepsEscrow(w: World, caller: AccountId, attached: U128, h: Handled)
    requires EscrowInv(w) && h.effect.Enqueued?
    ensures EscrowInv(Absorb(w, caller, attached, h))
  {
    var v := Absorb(w, caller, attached, h);
    var r := v.history[|w.history|];
    SumAppend(w.history, r, Escrowed(None));
    forall who: Who ensures Conserved(v, who) {
      EnteringConserves(w, v, r, who);
    }
  }

  lemma LeavingKeepsEscrow(w: World, v: World, id: U64, fate: Fate, sent: seq<Dispatch>)
    requires EscrowInv(w) && LeavesWith(w, v, id, fate, sent)
    requires w.history[id].attached == if sent == [] then 0 else Carried(sent[0].promise)
    requires v.me == w.me && v.base == w.base && v.balance == w.balance - w.history[id].attached
    ensures EscrowInv(v)
  {
    LeavingConserves(w, v, id, fate, sent, None);
    forall who: Who ensures Conserved(v, who) {
      assert Conserved(w, who);
      LeavingConserves(w, v, id, fate, sent, who);
    }
  }

  lemma LeaveKeepsEscrow(w: World, caller: AccountId, attached: U128, h: Handled)
    requires QueueInv(w) && OutboxInv(w) && EscrowInv(w)
    requires h.effect.Dequeued? || h.effect.Withdrawn?
    requires Rules(Env(w.me, caller, w.now, attached), w.storage, h)
    ensures EscrowInv(Absorb(w, caller, attached, h))
  {
    var v := Absorb(w, caller, attached, h);
    var id := h.effect.id;
    AbsorbLeaves(w, caller, attached, h);
    assert RecordOk(w.history, w.now, w.events, id);
    LeavingKeepsEscrow(w, v, id, v.history[id].fate, v.outbox[|w.outbox|..]);
  }

  lemma AbsorbKeepsEscrow(w: World, caller: AccountId, attached: U128, h: Handled)
    requires QueueInv(w) && OutboxInv(w) && EscrowInv(w)
    requires Rules(Env(w.me, caller, w.now, attached), w.storage, h)
    ensures EscrowInv(Absorb(w, caller, attached, h))
  {
    var v := Absorb(w, caller, attached, h);
    match h.effect
    case Enqueued(_, _) => EnqueueKeepsEscrow(w, caller, attached, h);
    case Dequeued(id, _, _) => LeaveKeepsEscrow(w, caller, attached, h);
    case Withdrawn(id, _, _, _) => LeaveKeepsEscrow(w, caller, attached, h);
    case Configured =>
      assert forall who: Who :: Conserved(w, who) ==> Conserved(v, who);
  }

  lemma SettleKeepsEscrow(w: World, j: nat, result: Outcome)
    requires EscrowInv(w) && j < |w.outbox| && w.outbox[j].phase.Sent?
    ensures EscrowInv(Settle(w, j, result))
  {
    var v := Settle(w, j, result);
    SumUpdate(w.outbox, j, v.outbox[j], Held(w.me));
    forall who: Who ensures Conserved(v, who) {
      assert Conserved(w, who);
      SumUpdate(w.outbox, j, v.outbox[j], Accounted(who));
    }
  }

  /** The bond a callback would refund is exactly what the batch carried. */
  lemma BondMatches(w: World, j: nat)
    requires QueueInv(w) && OutboxInv(w) && j < |w.outbox|
    requires w.outbox[j].promise.Batch? && w.outbox[j].promise.callback.Some?
    ensures var d := w.outbox[j];
      d.promise.callback.value.bond == Carried(d.promise) && d.promise.callback.value.funder == d.funder
  {
    var d := w.outbox[j];
    assert DispatchOk(w.outbox, w.history, j);
    assert Dispatched(w.history[d.origin], d.origin, w.outbox);
    assert RecordOk(w.history, w.now, w.events, d.origin);
  }

  lemma CallBackSum(w: World, j: nat, weight: Dispatch -> nat)
    requires j < |w.outbox| && w.outbox[j].promise.Batch? && w.outbox[j].promise.callback.Some?
    requires w.outbox[j].phase.Landed?
    ensures var v := CallBack(w, j);
      Sum(v.outbox, weight) + weight(w.outbox[j])
      == Sum(w.outbox, weight) + weight(v.outbox[j])
         + if |v.outbox| > |w.outbox| then weight(v.outbox[|w.outbox|]) else 0
  {
    var v := CallBack(w, j);
    SumUpdate(w.outbox, j, v.outbox[j], weight);
    var mid := w.outbox[j := v.outbox[j]];
    if |v.outbox| > |w.outbox| {
      assert v.outbox == mid + [v.outbox[|w.outbox|]];
      SumAppend(mid, v.outbox[|w.outbox|], weight);
    } else {
      assert v.outbox == mid;
    }
  }

  /** What the batch accounted for, its closing and the follow-up account for together. */
  lemma CallBackAccounts(w: World, j: nat, who: Who)
    requires QueueInv(w) && OutboxInv(w)
    requires j < |w.outbox| && w.outbox[j].promise.Batch? && w.outbox[j].promise.callback.Some?
    requires w.outbox[j].phase.Landed?
    ensures var v := CallBack(w, j);
      Accounted(who)(w.outbox[j])
      == Accounted(who)(v.outbox[j]) + if |v.outbox| > |w.outbox| then Accounted(who)(v.outbox[|w.outbox|]) else 0
  {
    var d := w.outbox[j];
    BondMatches(w, j);
    if d.phase.result.Returned? && d.phase.result.value.Some? {
      VoteCarriesNothing(d.promise.callback.value, d.phase.result.value.value);
    }
  }

  lemma CallBackConserves(w: World, j: nat, who: Who)
    requires QueueInv(w) && OutboxInv(w) && Conserved(w, who)
    requires j < |w.outbox| && w.outbox[j].promise.Batch? && w.outbox[j].promise.callback.Some?
    requires w.outbox[j].phase.Landed?
    ensures Conserved(CallBack(w, j), who)
  {
    CallBackAccounts(w, j, who);
    CallBackSum(w, j, Accounted(who));
  }

  lemma CallBackBacked(w: World, j: nat)
    requires QueueInv(w) && OutboxInv(w) && Backed(w)
    requires j < |w.outbox| && w.outbox[j].promise.Batch? && w.outbox[j].promise.callback.Some?
    requires w.outbox[j].phase.Landed?
    ensures Backed(CallBack(w, j))
  {
    var d := w.outbox[j];
    BondMatches(w, j);
    CallBackSum(w, j, Held(w.me));
    if d.phase.result.Returned? && d.phase.result.value.Some? {
      VoteCarriesNothing(d.promise.callback.value, d.phase.result.value.value);
    }
  }

  /** The callback of a failed proposal turns the returned bond into a refund of the same amount. */
  lemma CallBackKeepsEscrow(w: World, j: nat)
    requires QueueInv(w) && OutboxInv(w) && EscrowInv(w)
    requires j < |w.outbox| && w.outbox[j].promise.Batch? && w.outbox[j].promise.callback.Some?
    requires w.outbox[j].phase.Landed?
    ensures EscrowInv(CallBack(w, j))
  {
    CallBackBacked(w, j);
    forall who: Who ensures Conserved(CallBack(w, j), who) {
      assert Conserved(w, who);
      CallBackConserves(w, j, who);
    }
  }
}
