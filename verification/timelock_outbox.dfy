/** The invariant that ties every dispatched promise to the one request it came from. */
module TimelockOutbox {
  import opened Base
  import opened Requests
  import opened Timelock
  import opened TimelockWorld
  import opened TimelockQueue

  /** A request that left the queue has dispatched its batch, or its refund if it had a deposit. */
  ghost predicate Dispatched(r: Record, i: nat, outbox: seq<Dispatch>) {
    match r.fate
    case Pending => true
    case Executed(_, _, out) =>
      && out < |outbox| && outbox[out].origin == i
      && outbox[out].promise == PromiseOf(outbox[out].origin, r.request)
    case Cancelled(_, _, _, None) => r.attached == 0
    case Cancelled(_, _, _, Some(f)) =>
      && 0 < r.attached && f < |outbox| && outbox[f].origin == i
      && outbox[f].promise == Refund(r.request.funder, r.attached)
  }

  /** The batch an executed request dispatched. */
  ghost predicate IsMain(d: Dispatch, j: nat, r: Record) {
    r.fate.Executed? && r.fate.out == j
  }

  /** The refund a cancelled request dispatched. */
  ghost predicate IsRefund(d: Dispatch, j: nat, r: Record) {
    r.fate.Cancelled? && r.fate.refund == Some(j) && !d.phase.Closed?
  }

  /** What the callback of an executed proposal request dispatched: its vote or its bond refund. */
  ghost predicate IsFollowUp(d: Dispatch, j: nat, r: Record, outbox: seq<Dispatch>) {
    && r.fate.Executed? && r.fate.out < |outbox| && r.fate.out != j
    && outbox[r.fate.out].phase.Closed? && outbox[r.fate.out].phase.follow == Some(j)
    && !d.phase.Closed?
    && (d.promise.Batch? ==> d.promise.callback.None? && DepositSum(d.promise.actions) == 0)
  }

  /** A closed batch has dispatched exactly what its callback calls for. */
  ghost predicate FollowedUp(d: Dispatch, outbox: seq<Dispatch>) {
    d.phase.Closed? ==>
      && d.promise.Batch? && d.promise.callback.Some?
      && (match d.phase.follow
          case None => FollowUp(d.promise.callback.value, d.phase.result) == None
          case Some(f) =>
            && f < |outbox| && outbox[f].origin == d.origin
            && FollowUp(d.promise.callback.value, d.phase.result) == Some(outbox[f].promise))
  }

  ghost predicate DispatchOk(outbox: seq<Dispatch>, history: seq<Record>, j: nat)
    requires j < |outbox|
  {
    var d := outbox[j];
    && d.origin < |history|
    && d.funder == history[d.origin].request.funder
    && FollowedUp(d, outbox)
    && (IsMain(d, j, history[d.origin]) || IsRefund(d, j, history[d.origin])
        || IsFollowUp(d, j, history[d.origin], outbox))
  }

  ghost predicate OutboxInv(w: World) {
    && (forall i | 0 <= i < |w.history| :: Dispatched(w.history[i], i, w.outbox))
    && (forall j | 0 <= j < |w.outbox| :: DispatchOk(w.outbox, w.history, j))
  }

  // ---- Each step keeps it ----

  lemma EnteringKeepsOutbox(w: World, v: World, r: Record)
    requires OutboxInv(w) && v.outbox == w.outbox && v.history == w.history + [r] && r.fate.Pending?
    ensures OutboxInv(v)
  {
    forall i | 0 <= i < |v.history| ensures Dispatched(v.history[i], i, v.outbox) {
      if i < |w.history| {
        assert Dispatched(w.history[i], i, w.outbox);
      }
    }
    forall j | 0 <= j < |v.outbox| ensures DispatchOk(v.outbox, v.history, j) {
      assert DispatchOk(w.outbox, w.history, j);
    }
  }

  /** A pending request leaves without or with one new dispatch. */
  ghost predicate LeavesWith(w: World, v: World, id: U64, fate: Fate, sent: seq<Dispatch>) {
    && id < |w.history| && w.history[id].fate.Pending? && !fate.Pending?
    && v.history == w.history[id := w.history[id].(fate := fate)]
    && v.outbox == w.outbox + sent
    && (fate.Executed? ==> sent != [])
    && (sent == [] || (|sent| == 1 && sent[0].origin == id && sent[0].funder == w.history[id].request.funder
                       && sent[0].phase.Sent?
                       && (fate.Executed? ==> fate.out == |w.outbox|)
                       && (fate.Cancelled? ==> fate.refund == Some(|w.outbox|))))
    && Dispatched(v.history[id], id, v.outbox)
  }

  lemma LeavingKeepsOutbox(w: World, v: World, id: U64, fate: Fate, sent: seq<Dispatch>)
    requires OutboxInv(w) && LeavesWith(w, v, id, fate, sent)
    ensures OutboxInv(v)
  {
    forall i | 0 <= i < |v.history| ensures Dispatched(v.history[i], i, v.outbox) {
      assert Dispatched(w.history[i], i, w.outbox);
    }
    forall j | 0 <= j < |v.outbox| ensures DispatchOk(v.outbox, v.history, j) {
      if j < |w.outbox| {
        assert DispatchOk(w.outbox, w.history, j);
        assert w.outbox[j].origin != id;
      }
    }
  }

  /** Executing or cancelling removes one pending request and sends at most its promise. */
  lemma AbsorbLeaves(w: World, caller: AccountId, attached: U128, h: Handled)
    requires QueueInv(w) && (h.effect.Dequeued? || h.effect.Withdrawn?)
    requires Rules(Env(w.me, caller, w.now, attached), w.storage, h)
    ensures var v := Absorb(w, caller, attached, h); var id := h.effect.id;
      && id < |v.history| && |w.outbox| <= |v.outbox|
      && LeavesWith(w, v, id, v.history[id].fate, v.outbox[|w.outbox|..])
  {
    var v := Absorb(w, caller, attached, h);
    assert RecordOk(w.history, w.now, w.events, h.effect.id);
    if |w.outbox| < |v.outbox| {
      assert v.outbox[|w.outbox|..] == [v.outbox[|w.outbox|]];
    } else {
      assert v.outbox == w.outbox + [];
      assert v.outbox[|w.outbox|..] == [];
    }
  }

  lemma AbsorbKeepsOutbox(w: World, caller: AccountId, attached: U128, h: Handled)
    requires QueueInv(w) && OutboxInv(w)
    requires Rules(Env(w.me, caller, w.now, attached), w.storage, h)
    ensures OutboxInv(Absorb(w, caller, attached, h))
  {
    var v := Absorb(w, caller, attached, h);
    if h.effect.Enqueued? {
      EnteringKeepsOutbox(w, v, v.history[|w.history|]);
    } else if !h.effect.Configured? {
      AbsorbLeaves(w, caller, attached, h);
      LeavingKeepsOutbox(w, v, h.effect.id, v.history[h.effect.id].fate, v.outbox[|w.outbox|..]);
    }
  }

  lemma SettleKeepsOutbox(w: World, j: nat, result: Outcome)
    requires OutboxInv(w) && j < |w.outbox| && w.outbox[j].phase.Sent?
    ensures OutboxInv(Settle(w, j, result))
  {
    var v := Settle(w, j, result);
    forall i | 0 <= i < |v.history| ensures Dispatched(v.history[i], i, v.outbox) {
      assert Dispatched(w.history[i], i, w.outbox);
    }
    forall k | 0 <= k < |v.outbox| ensures DispatchOk(v.outbox, v.history, k) {
      assert DispatchOk(w.outbox, w.history, k);
    }
  }

  lemma VoteCarriesNothing(cb: Callback, proposal: U64)
    ensures Carried(Vote(cb, proposal)) == 0
  {
    SumOne(Vote(cb, proposal).actions[0], DepositOf);
  }

  /** Room for the proof of one dispatch at a time: the callback of j changes j and may append one. */
  /** Only the batch of an executed request has a callback. */
  lemma CalledBackIsMain(w: World, j: nat)
    requires OutboxInv(w) && j < |w.outbox| && w.outbox[j].promise.Batch? && w.outbox[j].promise.callback.Some?
    requires w.outbox[j].phase.Landed?
    ensures w.outbox[j].origin < |w.history| && IsMain(w.outbox[j], j, w.history[w.outbox[j].origin])
  {
    assert DispatchOk(w.outbox, w.history, j);
  }

  lemma CallBackOldDispatch(w: World, j: nat, k: nat)
    requires OutboxInv(w) && j < |w.outbox| && w.outbox[j].promise.Batch? && w.outbox[j].promise.callback.Some?
    requires w.outbox[j].phase.Landed? && k < |w.outbox|
    ensures DispatchOk(CallBack(w, j).outbox, CallBack(w, j).history, k)
  {
    CalledBackIsMain(w, j);
    assert DispatchOk(w.outbox, w.history, j);
    assert DispatchOk(w.outbox, w.history, k);
  }

  lemma CallBackNewDispatch(w: World, j: nat)
    requires OutboxInv(w) && j < |w.outbox| && w.outbox[j].promise.Batch? && w.outbox[j].promise.callback.Some?
    requires w.outbox[j].phase.Landed? && |w.outbox| < |CallBack(w, j).outbox|
    ensures DispatchOk(CallBack(w, j).outbox, CallBack(w, j).history, |w.outbox|)
  {
    var d := w.outbox[j];
    CalledBackIsMain(w, j);
    assert DispatchOk(w.outbox, w.history, j);
    assert Dispatched(w.history[d.origin], d.origin, w.outbox);
    if d.phase.result.Returned? && d.phase.result.value.Some? {
      VoteCarriesNothing(d.promise.callback.value, d.phase.result.value.value);
    }
  }

  lemma CallBackKeepsOutbox(w: World, j: nat)
    requires OutboxInv(w) && j < |w.outbox| && w.outbox[j].promise.Batch? && w.outbox[j].promise.callback.Some?
    requires w.outbox[j].phase.Landed?
    ensures OutboxInv(CallBack(w, j))
  {
    var v := CallBack(w, j);
    forall i | 0 <= i < |v.history| ensures Dispatched(v.history[i], i, v.outbox) {
      assert Dispatched(w.history[i], i, w.outbox);
    }
    forall k | 0 <= k < |v.outbox| ensures DispatchOk(v.outbox, v.history, k) {
      if k < |w.outbox| {
        CallBackOldDispatch(w, j, k);
      } else {
        CallBackNewDispatch(w, j);
      }
    }
  }
}
