/**
 * The timelock as the contract runs it: fields updated in place, in the order of
 * the source. A failed check reverts the call, so a method that has already
 * changed a field puts it back before it reports failure.
 */
module TimelockContract {
  import opened Base
  import opened Calls
  import opened Requests
  import opened Timelock

  /** A method runs as the step system says, with its effect and its log, or fails and changes nothing. */
  ghost predicate Did(e: Env, before: Storage, call: Call, r: Option<Effect>, log: seq<Event>, after: Storage) {
    match Handle(e, before, call)
    case None => r == None && log == [] && after == before
    case Some(h) => r == Some(h.effect) && log == EventsOf(h.effect) && after == h.storage
  }

  class DaoTimelock {
    var dao: AccountId
    var admin: AccountId
    var guardians: set<AccountId>
    var delay: U64
    var nextRequestId: U64
    var requests: map<U64, Request>

    constructor (dao: AccountId, admin: AccountId, guardians: seq<AccountId>, delay: U64)
      requires delay <= MAX_DELAY_NS
      ensures State() == Storage(dao, admin, Members(guardians), delay, 0, map[])
    {
      this.dao := dao;
      this.admin := admin;
      this.guardians := {};
      this.delay := delay;
      this.nextRequestId := 0;
      this.requests := map[];
      new;
      for i := 0 to |guardians|
        invariant State() == Storage(dao, admin, Members(guardians[..i]), delay, 0, map[])
      {
        assert guardians[..i + 1] == guardians[..i] + [guardians[i]];
        this.guardians := this.guardians + {guardians[i]};
      }
      assert guardians[..|guardians|] == guardians;
    }

    function State(): Storage
      reads this
    {
      Storage(dao, admin, guardians, delay, nextRequestId, requests)
    }

    method InsertRequest(q: Request) returns (id: Option<U64>)
      modifies this`nextRequestId, this`requests
      ensures id.Some? <==> old(nextRequestId) < U64_MAX
      ensures id.Some? ==> id.value == old(nextRequestId) && nextRequestId == old(nextRequestId) + 1
                           && requests == old(requests)[id.value := q]
      ensures id.None? ==> State() == old(State())
    {
      if nextRequestId == U64_MAX {
        return None;
      }
      id := Some(nextRequestId);
      nextRequestId := nextRequestId + 1;
      requests := requests[id.value := q];
    }

    method Schedule(e: Env, receiver: AccountId, actions: seq<FunctionCall>, predecessor: Option<U64>)
      returns (r: Option<Effect>, log: seq<Event>)
      modifies this`nextRequestId, this`requests
      ensures Did(e, old(State()), Call.Schedule(receiver, actions, predecessor), r, log, State())
      ensures r.Some? <==>
        && e.caller == dao && old(nextRequestId) < U64_MAX && actions != []
        && (predecessor.Some? ==> predecessor.value in old(requests))
        && e.attached == Min(U128_MAX, DepositSum(actions))
        && Sum(actions, GasOf) + 980_000_000_000 * |actions| <= 274_783_000_000_000
      ensures var id, after := old(nextRequestId), Min(U64_MAX, e.now + delay);
        r.Some? ==>
          && r == Some(Enqueued(id, Request(receiver, actions, e.caller, after, None, predecessor)))
          && requests == old(requests)[id := r.value.request] && nextRequestId == id + 1
          && log == [ScheduleEvent(id, after, predecessor)]
    {
      CallsExactly(e, State(), Call.Schedule(receiver, actions, predecessor));
      r, log := None, [];
      if e.caller != dao || actions == [] || !PredecessorFound(State(), predecessor) {
        return;
      }
      var q := Request(receiver, actions, e.caller, SatAdd64(e.now, delay), None, predecessor);
      if e.attached != TotalDeposit(q) || TotalGas(q) > MAX_EXECUTION_GAS {
        return;
      }
      var id := InsertRequest(q);
      if id.Some? {
        r, log := Some(Enqueued(id.value, q)), [ScheduleEvent(id.value, q.executeAfter, predecessor)];
      }
    }

    method ScheduleProposal(e: Env, description: string, kind: string, target: AccountId, bond: U128,
                            addGas: U64, actGas: U64, predecessor: Option<U64>)
      returns (r: Option<Effect>, log: seq<Event>)
      modifies this`nextRequestId, this`requests
      ensures Did(e, old(State()),
                  Call.ScheduleProposal(description, kind, target, bond, addGas, actGas, predecessor), r, log, State())
      ensures r.Some? <==>
        && e.caller == dao && old(nextRequestId) < U64_MAX
        && (predecessor.Some? ==> predecessor.value in old(requests))
        && e.attached == bond && addGas + actGas <= 262_606_000_000_000
      ensures var id, after := old(nextRequestId), Min(U64_MAX, e.now + delay);
        r.Some? ==>
          && r == Some(Enqueued(id, Request(target, [FunctionCall(AddProposal(description, kind), bond, addGas)],
                                            e.caller, after, Some(ProposalApproval(kind, actGas)), predecessor)))
          && requests == old(requests)[id := r.value.request] && nextRequestId == id + 1
          && log == [ProposalEvent(id, target, after, predecessor)]
    {
      CallsExactly(e, State(), Call.ScheduleProposal(description, kind, target, bond, addGas, actGas, predecessor));
      r, log := None, [];
      if e.caller != dao || !PredecessorFound(State(), predecessor) || e.attached != bond {
        return;
      }
      var approval := ProposalApproval(kind, actGas);
      var q := Request(target, [FunctionCall(AddProposal(description, kind), bond, addGas)], e.caller,
                       SatAdd64(e.now, delay), Some(approval), predecessor);
      if TotalGas(q) > MAX_EXECUTION_GAS {
        return;
      }
      var id := InsertRequest(q);
      if id.Some? {
        r, log := Some(Enqueued(id.value, q)), [ProposalEvent(id.value, target, q.executeAfter, predecessor)];
      }
    }

    /** Removes the request before it checks the delay and the predecessor. */
    method Execute(e: Env, id: U64) returns (r: Option<Effect>, log: seq<Event>)
      modifies this`requests
      ensures Did(e, old(State()), Call.Execute(id), r, log, State())
      ensures r.Some? <==>
        && e.attached == 0 && id in old(requests) && old(requests)[id].executeAfter <= e.now
        && (old(requests)[id].predecessor.Some? ==>
              old(requests)[id].predecessor.value !in old(requests).Keys - {id})
      ensures r.Some? ==>
        && requests == old(requests) - {id}
        && var q := old(requests)[id];
           && r == Some(Dequeued(id, q, Batch(q.receiver, q.actions, CallbackFor(id, q))))
           && log == [ExecuteEvent(id, q.receiver)]
    {
      CallsExactly(e, State(), Call.Execute(id));
      r, log := None, [];
      if e.attached != 0 || id !in requests {
        return;
      }
      var before := requests;
      var q := requests[id];
      requests := requests - {id};
      if e.now < q.executeAfter || (q.predecessor.Some? && q.predecessor.value in requests) {
        requests := before;
        return;
      }
      log := [ExecuteEvent(id, q.receiver)];
      var batch: seq<FunctionCall> := [];
      for i := 0 to |q.actions|
        invariant batch == q.actions[..i]
      {
        batch := batch + [FunctionCall(q.actions[i].call, q.actions[i].deposit, q.actions[i].gas)];
      }
      assert q.actions[..|q.actions|] == q.actions;
      var callback := None;
      if q.approve.Some? {
        var a := q.approve.value;
        callback := Some(Callback(id, q.receiver, q.funder, TotalDeposit(q), a.kind, a.actGas,
                                  SatAdd64(GAS_FOR_ON_PROPOSAL_ADDED, a.actGas)));
      }
      r := Some(Dequeued(id, q, Batch(q.receiver, batch, callback)));
    }

    /** Callable only by the contract itself, as a callback; never touches the storage. */
    method OnProposalAdded(e: Env, cb: Callback, result: Outcome)
      returns (ok: bool, next: Option<Promise>, log: seq<Event>)
      ensures ok <==> e.caller == e.me && e.attached == 0 && result != Returned(None)
      ensures ok ==> next == FollowUp(cb, result) && log == FollowUpEvents(cb, result)
      ensures ok && result.Returned? ==>
        && log == [ApproveEvent(cb.id, result.value.value)]
        && next == Some(Batch(cb.dao, [FunctionCall(ActProposal(result.value.value, cb.kind), 0, cb.actGas)], None))
      ensures ok && result.Failed? ==>
        && log == [FailedEvent(cb.id, cb.funder, cb.bond)]
        && next == if 0 < cb.bond then Some(Refund(cb.funder, cb.bond)) else None
      ensures !ok ==> next == None && log == []
    {
      ok, next, log := false, None, [];
      if e.caller != e.me || e.attached != 0 || result == Returned(None) {
        return;
      }
      ok := true;
      if result.Returned? {
        var proposal := result.value.value;
        log := [ApproveEvent(cb.id, proposal)];
        next := Some(Batch(cb.dao, [FunctionCall(ActProposal(proposal, cb.kind), 0, cb.actGas)], None));
      } else {
        log := [FailedEvent(cb.id, cb.funder, cb.bond)];
        if cb.bond != 0 {
          next := Some(Refund(cb.funder, cb.bond));
        }
      }
    }

    method Cancel(e: Env, id: U64) returns (r: Option<Effect>, log: seq<Event>)
      modifies this`requests
      ensures Did(e, old(State()), Call.Cancel(id), r, log, State())
      ensures r.Some? <==> e.attached == 0 && e.caller in guardians && id in old(requests)
      ensures r.Some? ==>
        && requests == old(requests) - {id}
        && var q := old(requests)[id]; var total := Min(U128_MAX, DepositSum(q.actions));
           && r == Some(Withdrawn(id, q, e.caller, if 0 < total then Some(Refund(q.funder, total)) else None))
           && log == [CancelEvent(id, q.receiver, e.caller)]
    {
      CallsExactly(e, State(), Call.Cancel(id));
      r, log := None, [];
      if e.attached != 0 || e.caller !in guardians || id !in requests {
        return;
      }
      var q := requests[id];
      requests := requests - {id};
      log := [CancelEvent(id, q.receiver, e.caller)];
      var total := TotalDeposit(q);
      var refund := None;
      if total != 0 {
        refund := Some(Refund(q.funder, total));
      }
      r := Some(Withdrawn(id, q, e.caller, refund));
    }

    method SetDao(e: Env, id: AccountId) returns (r: Option<Effect>)
      modifies this`dao
      ensures Did(e, old(State()), Call.SetDao(id), r, [], State())
      ensures r.Some? <==> e.attached == 0 && e.caller == old(admin)
      ensures dao == if r.Some? then id else old(dao)
    {
      r := None;
      if e.attached == 0 && e.caller == admin {
        dao := id;
        r := Some(Configured);
      }
    }

    method SetAdmin(e: Env, id: AccountId) returns (r: Option<Effect>)
      modifies this`admin
      ensures Did(e, old(State()), Call.SetAdmin(id), r, [], State())
      ensures r.Some? <==> e.attached == 0 && e.caller == old(admin)
      ensures admin == if r.Some? then id else old(admin)
    {
      r := None;
      if e.attached == 0 && e.caller == admin {
        admin := id;
        r := Some(Configured);
      }
    }

    /** Clears the set, then inserts the new guardians one by one. */
    method SetGuardians(e: Env, ids: seq<AccountId>) returns (r: Option<Effect>)
      modifies this`guardians
      ensures Did(e, old(State()), Call.SetGuardians(ids), r, [], State())
      ensures r.Some? <==> e.attached == 0 && e.caller == admin
      ensures forall g :: g in guardians <==> if r.Some? then g in ids else g in old(guardians)
    {
      r := None;
      if e.attached != 0 || e.caller != admin {
        return;
      }
      guardians := {};
      for i := 0 to |ids|
        invariant guardians == Members(ids[..i])
      {
        assert ids[..i + 1] == ids[..i] + [ids[i]];
        guardians := guardians + {ids[i]};
      }
      assert ids[..|ids|] == ids;
      r := Some(Configured);
    }

    method SetDelay(e: Env, ns: U64) returns (r: Option<Effect>)
      modifies this`delay
      ensures Did(e, old(State()), Call.SetDelay(ns), r, [], State())
      ensures r.Some? <==> e.attached == 0 && e.caller == admin && ns <= 2_592_000_000_000_000
      ensures delay == if r.Some? then ns else old(delay)
    {
      r := None;
      if e.attached == 0 && e.caller == admin && ns <= MAX_DELAY_NS {
        delay := ns;
        r := Some(Configured);
      }
    }
  }
}
