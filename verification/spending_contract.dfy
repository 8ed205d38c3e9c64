/**
 * The spending account as the contract runs it: fields updated in place, one
 * element of a batch at a time. A failed check reverts the whole call, so every
 * method restores the table it has already changed before it reports failure.
 */
module SpendingContract {
  import opened Base
  import opened Calls
  import opened Whitelist
  import opened Spending

  /** A method runs as the step system says, or fails and changes nothing. */
  ghost predicate Did(caller: AccountId, attached: U128, before: Account, call: Call, ok: bool, after: Account) {
    var r := if attached == 0 then Handle(before, caller, call) else None;
    && ok == r.Some?
    && after == if ok then r.value else before
  }

  /** A management method does what its list of operations does to the table. */
  lemma ManagementDid(caller: AccountId, attached: U128, before: Account, call: Call, table: Option<Table>)
    requires IsManagement(call)
    requires table == if attached == 0 && caller == before.manager && CallOps(call) != []
                      then ApplyAll(before.me, before.whitelist, CallOps(call)) else None
    ensures Did(caller, attached, before, call, table.Some?,
                if table.Some? then before.(whitelist := table.value) else before)
  {
  }

  class SpendingAccount {
    const me: AccountId
    var spender: AccountId
    var manager: AccountId
    var admin: AccountId
    var whitelist: Table

    constructor (me: AccountId, admin: AccountId, manager: AccountId, spender: AccountId)
      ensures State() == Account(me, spender, manager, admin, map[])
    {
      this.me := me;
      this.spender := spender;
      this.manager := manager;
      this.admin := admin;
      this.whitelist := map[];
    }

    ghost function State(): Account
      reads this
    {
      Account(me, spender, manager, admin, whitelist)
    }

    method Transfer(caller: AccountId, attached: U128, receiver: AccountId, amount: U128)
      returns (ok: bool, sent: seq<Receipt>, log: seq<Event>)
      modifies this`whitelist
      ensures Did(caller, attached, old(State()), Call.Transfer(receiver, amount), ok, State())
      ensures var key := WhitelistKey(receiver, None);
        ok <==> attached == 0 && caller == spender && key in old(whitelist) && 0 < amount <= old(whitelist)[key]
      ensures var key := WhitelistKey(receiver, None);
        ok ==>
          && whitelist == old(whitelist)[key := old(whitelist)[key] - amount]
          && sent == [Receipt(key, amount, Sent)]
          && log == [Transferred(key, amount, old(whitelist)[key] - amount)]
      ensures !ok ==> sent == [] && log == []
      ensures sent == if ok then NewReceipts(CallOps(Call.Transfer(receiver, amount))) else []
      ensures log == if ok then NewEvents(State(), CallOps(Call.Transfer(receiver, amount))) else []
    {
      sent, log := [], [];
      var key := WhitelistKey(receiver, None);
      ApplySingle(me, whitelist, Charge(key, amount));
      ok := attached == 0 && caller == spender && amount != 0 && key in whitelist && amount <= whitelist[key];
      if ok {
        var remaining := SatSub128(whitelist[key], amount);
        whitelist := whitelist[key := remaining];
        log := [Transferred(key, amount, remaining)];
        sent := [Receipt(key, amount, Sent)];
      }
    }

    method OnTransfer(caller: AccountId, receiver: AccountId, amount: U128, result: bool)
      returns (ok: bool, log: seq<Event>)
      modifies this`whitelist
      ensures ok <==> caller == me
      ensures State() == if ok then HandleCallback(old(State()), WhitelistKey(receiver, None), amount, result)
                         else old(State())
      ensures var key := WhitelistKey(receiver, None);
        whitelist == if ok && !result && key in old(whitelist)
                     then old(whitelist)[key := Min(U128_MAX, old(whitelist)[key] + amount)] else old(whitelist)
      ensures log == if ok && !result then [TransferFailed(WhitelistKey(receiver, None), amount)] else []
    {
      log := [];
      ok := caller == me;
      if !ok || result {
        return;
      }
      var key := WhitelistKey(receiver, None);
      if key in whitelist {
        whitelist := whitelist[key := SatAdd128(whitelist[key], amount)];
      }
      log := [TransferFailed(key, amount)];
    }

    method TransferFt(caller: AccountId, attached: U128, receiver: AccountId, token: AccountId, amount: U128)
      returns (ok: bool, sent: seq<Receipt>, log: seq<Event>)
      modifies this`whitelist
      ensures Did(caller, attached, old(State()), Call.TransferFt(receiver, token, amount), ok, State())
      ensures var key := WhitelistKey(receiver, Some(token));
        ok <==> attached == 0 && caller == spender && key in old(whitelist) && 0 < amount <= old(whitelist)[key]
      ensures var key := WhitelistKey(receiver, Some(token));
        ok ==>
          && whitelist == old(whitelist)[key := old(whitelist)[key] - amount]
          && sent == [Receipt(key, amount, Sent)]
          && log == [Transferred(key, amount, old(whitelist)[key] - amount)]
      ensures !ok ==> sent == [] && log == []
      ensures sent == if ok then NewReceipts(CallOps(Call.TransferFt(receiver, token, amount))) else []
      ensures log == if ok then NewEvents(State(), CallOps(Call.TransferFt(receiver, token, amount))) else []
    {
      sent, log := [], [];
      var key := WhitelistKey(receiver, Some(token));
      ApplySingle(me, whitelist, Charge(key, amount));
      ok := attached == 0 && caller == spender && amount > 0 && key in whitelist && amount <= whitelist[key];
      if ok {
        var remaining := SatSub128(whitelist[key], amount);
        whitelist := whitelist[key := remaining];
        log := [Transferred(key, amount, remaining)];
        sent := [Receipt(key, amount, Sent)];
      }
    }

    method OnTransferFt(caller: AccountId, receiver: AccountId, token: AccountId, amount: U128, result: bool)
      returns (ok: bool, log: seq<Event>)
      modifies this`whitelist
      ensures ok <==> caller == me
      ensures State() == if ok then HandleCallback(old(State()), WhitelistKey(receiver, Some(token)), amount, result)
                         else old(State())
      ensures var key := WhitelistKey(receiver, Some(token));
        whitelist == if ok && !result && key in old(whitelist)
                     then old(whitelist)[key := Min(U128_MAX, old(whitelist)[key] + amount)] else old(whitelist)
      ensures log == if ok && !result then [TransferFailed(WhitelistKey(receiver, Some(token)), amount)] else []
    {
      log := [];
      ok := caller == me;
      if !ok || result {
        return;
      }
      var key := WhitelistKey(receiver, Some(token));
      if key in whitelist {
        whitelist := whitelist[key := SatAdd128(whitelist[key], amount)];
      }
      log := [TransferFailed(key, amount)];
    }

    method AddToWhitelist(caller: AccountId, attached: U128, entries: seq<WhitelistEntry>) returns (ok: bool)
      modifies this`whitelist
      ensures Did(caller, attached, old(State()), Call.AddToWhitelist(entries), ok, State())
      ensures ok <==> attached == 0 && caller == manager && entries != [] && Addable(me, old(whitelist), entries)
      ensures ok ==> AddedTo(old(whitelist), entries, whitelist)
    {
      var before := whitelist;
      ghost var ops := AddOps(entries);
      AddClosedForm(me, before, entries);
      if attached != 0 || caller != manager || entries == [] {
        return false;
      }
      for i := 0 to |entries|
        invariant ApplyAll(me, before, ops[..i]) == Some(whitelist)
      {
        NextOp(me, before, ops, i);
        var key := entries[i].key;
        if key.account == me || key in whitelist {
          PrefixFails(me, before, ops, i + 1);
          whitelist := before;
          return false;
        }
        whitelist := whitelist[key := entries[i].limit];
      }
      assert ops[..|entries|] == ops;
      ok := true;
    }

    method RemoveFromWhitelist(caller: AccountId, attached: U128, keys: seq<WhitelistKey>) returns (ok: bool)
      modifies this`whitelist
      ensures Did(caller, attached, old(State()), Call.RemoveFromWhitelist(keys), ok, State())
      ensures ok <==> attached == 0 && caller == manager && keys != [] && Removable(old(whitelist), keys)
      ensures ok ==> whitelist == old(whitelist) - KeySet(keys)
    {
      var before := whitelist;
      ghost var ops := RemoveOps(keys);
      if attached != 0 || caller != manager || keys == [] {
        return false;
      }
      for i := 0 to |keys|
        invariant ApplyAll(me, before, ops[..i]) == Some(whitelist)
      {
        NextOp(me, before, ops, i);
        assert ops[i] == Remove(keys[i]);
        var present := keys[i] in whitelist;
        whitelist := whitelist - {keys[i]};
        if !present {
          PrefixFails(me, before, ops, i + 1);
          RemoveClosedForm(me, before, keys);
          whitelist := before;
          return false;
        }
      }
      assert ops[..|keys|] == ops;
      RemoveClosedForm(me, before, keys);
      ok := true;
    }

    method SetLimit(caller: AccountId, attached: U128, entries: seq<WhitelistEntry>) returns (ok: bool)
      modifies this`whitelist
      ensures Did(caller, attached, old(State()), Call.SetLimit(entries), ok, State())
      ensures ok <==> attached == 0 && caller == manager && entries != []
                      && forall i | 0 <= i < |entries| :: entries[i].key in old(whitelist)
      ensures ok ==> whitelist == Overwritten(old(whitelist), entries)
    {
      var before := whitelist;
      ghost var ops := SetOps(entries);
      SetClosedForm(me, before, entries);
      if attached != 0 || caller != manager || entries == [] {
        return false;
      }
      for i := 0 to |entries|
        invariant ApplyAll(me, before, ops[..i]) == Some(whitelist)
      {
        NextOp(me, before, ops, i);
        var key := entries[i].key;
        if key !in whitelist {
          PrefixFails(me, before, ops, i + 1);
          whitelist := before;
          return false;
        }
        whitelist := whitelist[key := entries[i].limit];
      }
      assert ops[..|entries|] == ops;
      ok := true;
    }

    method IncreaseLimit(caller: AccountId, attached: U128, changes: seq<LimitChange>) returns (ok: bool)
      modifies this`whitelist
      ensures Did(caller, attached, old(State()), Call.IncreaseLimit(changes), ok, State())
      ensures ok <==> attached == 0 && caller == manager && changes != [] && Increasable(me, old(whitelist), changes)
      ensures ok ==> IncreasedTo(old(whitelist), changes, whitelist)
    {
      var before := whitelist;
      ghost var ops, a := IncreaseOps(changes), State();
      assert CallOps(Call.IncreaseLimit(changes)) == ops && |ops| == |changes|;
      if attached != 0 || caller != manager || changes == [] {
        ManagementDid(caller, attached, a, Call.IncreaseLimit(changes), None);
        return false;
      }
      for i := 0 to |changes|
        invariant ApplyAll(me, before, ops[..i]) == Some(whitelist)
      {
        NextOp(me, before, ops, i);
        var key := changes[i].key;
        var limit: U128 := if key in whitelist then whitelist[key] else 0;
        assert ops[i] == Increase(key, changes[i].amount) && limit == Allowance(whitelist, key);
        if key.account == me || limit + changes[i].amount > U128_MAX {
          assert ApplyAll(me, before, ops[..i + 1]).None?;
          PrefixFails(me, before, ops, i + 1);
          IncreaseClosedForm(me, before, changes);
          ManagementDid(caller, attached, a, Call.IncreaseLimit(changes), None);
          whitelist := before;
          return false;
        }
        whitelist := whitelist[key := limit + changes[i].amount];
      }
      assert ops[..|changes|] == ops;
      IncreaseClosedForm(me, before, changes);
      ManagementDid(caller, attached, a, Call.IncreaseLimit(changes), Some(whitelist));
      ok := true;
    }

    method DecreaseLimit(caller: AccountId, attached: U128, changes: seq<LimitChange>) returns (ok: bool)
      modifies this`whitelist
      ensures Did(caller, attached, old(State()), Call.DecreaseLimit(changes), ok, State())
      ensures ok <==> attached == 0 && caller == manager && changes != [] && AllPresent(old(whitelist), changes)
      ensures ok ==> whitelist == Decreased(old(whitelist), changes)
    {
      var before := whitelist;
      ghost var ops := DecreaseOps(changes);
      DecreaseClosedForm(me, before, changes);
      if attached != 0 || caller != manager || changes == [] {
        return false;
      }
      for i := 0 to |changes|
        invariant ApplyAll(me, before, ops[..i]) == Some(whitelist)
      {
        NextOp(me, before, ops, i);
        var key := changes[i].key;
        if key !in whitelist {
          PrefixFails(me, before, ops, i + 1);
          whitelist := before;
          return false;
        }
        whitelist := whitelist[key := SatSub128(whitelist[key], changes[i].amount)];
      }
      assert ops[..|changes|] == ops;
      ok := true;
    }

    method SetSpender(caller: AccountId, attached: U128, id: AccountId) returns (ok: bool)
      modifies this`spender
      ensures Did(caller, attached, old(State()), Call.SetSpender(id), ok, State())
      ensures ok <==> attached == 0 && caller == old(admin)
      ensures spender == if ok then id else old(spender)
    {
      ok := attached == 0 && caller == admin;
      if ok {
        spender := id;
      }
    }

    method SetManager(caller: AccountId, attached: U128, id: AccountId) returns (ok: bool)
      modifies this`manager
      ensures Did(caller, attached, old(State()), Call.SetManager(id), ok, State())
      ensures ok <==> attached == 0 && caller == old(admin)
      ensures manager == if ok then id else old(manager)
    {
      ok := attached == 0 && caller == admin;
      if ok {
        manager := id;
      }
    }

    method SetAdmin(caller: AccountId, attached: U128, id: AccountId) returns (ok: bool)
      modifies this`admin
      ensures Did(caller, attached, old(State()), Call.SetAdmin(id), ok, State())
      ensures ok <==> attached == 0 && caller == old(admin)
      ensures admin == if ok then id else old(admin)
    {
      ok := attached == 0 && caller == admin;
      if ok {
        admin := id;
      }
    }
  }
}
