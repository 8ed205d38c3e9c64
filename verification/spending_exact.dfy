/** Every step of the spending account spelled out on its storage, transfers and log, without the step functions. */
module SpendingExact {
  import opened Base
  import opened Calls
  import opened Whitelist
  import opened Spending
  import SR = SpendingRuns

  // ---- One call ----

  /** When a call succeeds. */
  ghost predicate Accepts(a: Account, caller: AccountId, call: Call) {
    match call
    case Transfer(receiver, amount) => caller == a.spender && Covers(a.whitelist, WhitelistKey(receiver, None), amount)
    case TransferFt(receiver, token, amount) =>
      caller == a.spender && Covers(a.whitelist, WhitelistKey(receiver, Some(token)), amount)
    case AddToWhitelist(entries) => caller == a.manager && entries != [] && Addable(a.me, a.whitelist, entries)
    case RemoveFromWhitelist(keys) => caller == a.manager && keys != [] && Removable(a.whitelist, keys)
    case SetLimit(entries) =>
      caller == a.manager && entries != [] && forall i | 0 <= i < |entries| :: entries[i].key in a.whitelist
    case IncreaseLimit(changes) => caller == a.manager && changes != [] && Increasable(a.me, a.whitelist, changes)
    case DecreaseLimit(changes) => caller == a.manager && changes != [] && AllPresent(a.whitelist, changes)
    case SetSpender(_) => caller == a.admin
    case SetManager(_) => caller == a.admin
    case SetAdmin(_) => caller == a.admin
    case _ => false
  }

  /** A positive amount within the remaining allowance. */
  predicate Covers(w: Table, key: WhitelistKey, amount: U128) {
    key in w && 0 < amount <= w[key]
  }

  /** What a successful call leaves: one role assigned, or the whitelist changed, and nothing else. */
  ghost predicate Becomes(a: Account, call: Call, b: Account) {
    match call
    case Transfer(receiver, amount) =>
      var key := WhitelistKey(receiver, None);
      key in a.whitelist && amount <= a.whitelist[key]
      && b == a.(whitelist := a.whitelist[key := a.whitelist[key] - amount])
    case TransferFt(receiver, token, amount) =>
      var key := WhitelistKey(receiver, Some(token));
      key in a.whitelist && amount <= a.whitelist[key]
      && b == a.(whitelist := a.whitelist[key := a.whitelist[key] - amount])
    case AddToWhitelist(entries) =>
      b == a.(whitelist := b.whitelist) && AddedTo(a.whitelist, entries, b.whitelist)
    case RemoveFromWhitelist(keys) => b == a.(whitelist := a.whitelist - KeySet(keys))
    case SetLimit(entries) => b == a.(whitelist := Overwritten(a.whitelist, entries))
    case IncreaseLimit(changes) =>
      b == a.(whitelist := b.whitelist) && IncreasedTo(a.whitelist, changes, b.whitelist)
    case DecreaseLimit(changes) => b == a.(whitelist := Decreased(a.whitelist, changes))
    case SetSpender(id) => b == a.(spender := id)
    case SetManager(id) => b == a.(manager := id)
    case SetAdmin(id) => b == a.(admin := id)
    case _ => false
  }

  lemma TransferExactly(a: Account, caller: AccountId, call: Call)
    requires IsTransfer(call)
    ensures Handle(a, caller, call).Some? <==> Accepts(a, caller, call)
    ensures Handle(a, caller, call).Some? ==> Becomes(a, call, Handle(a, caller, call).value)
  {
    ApplySingle(a.me, a.whitelist, ChargeOf(call));
    assert CallOps(call) == [ChargeOf(call)];
  }

  lemma EntriesExactly(a: Account, caller: AccountId, call: Call)
    requires call.AddToWhitelist? || call.RemoveFromWhitelist? || call.SetLimit?
    ensures Handle(a, caller, call).Some? <==> Accepts(a, caller, call)
    ensures Handle(a, caller, call).Some? ==> Becomes(a, call, Handle(a, caller, call).value)
  {
    match call
    case AddToWhitelist(entries) => AddClosedForm(a.me, a.whitelist, entries);
    case RemoveFromWhitelist(keys) => RemoveClosedForm(a.me, a.whitelist, keys);
    case SetLimit(entries) => SetClosedForm(a.me, a.whitelist, entries);
  }

  lemma ChangesExactly(a: Account, caller: AccountId, call: Call)
    requires call.IncreaseLimit? || call.DecreaseLimit?
    ensures Handle(a, caller, call).Some? <==> Accepts(a, caller, call)
    ensures Handle(a, caller, call).Some? ==> Becomes(a, call, Handle(a, caller, call).value)
  {
    match call
    case IncreaseLimit(changes) => IncreaseClosedForm(a.me, a.whitelist, changes);
    case DecreaseLimit(changes) => DecreaseClosedForm(a.me, a.whitelist, changes);
  }

  /** A call succeeds exactly for the holder of its role and its own condition, and then does what its name says. */
  lemma CallsExactly(a: Account, caller: AccountId, call: Call)
    ensures Handle(a, caller, call).Some? <==> Accepts(a, caller, call)
    ensures Handle(a, caller, call).Some? ==> Becomes(a, call, Handle(a, caller, call).value)
  {
    if IsTransfer(call) {
      TransferExactly(a, caller, call);
    } else if call.IncreaseLimit? || call.DecreaseLimit? {
      ChangesExactly(a, caller, call);
    } else if IsManagement(call) {
      EntriesExactly(a, caller, call);
    }
  }

  /**
   * What a call sends, logs and adds to the trace: a transfer one receipt, one event with the new remainder and
   * one charge, a management call one operation of its kind per element, a role assignment nothing.
   */
  ghost predicate Dispatches(w: World, call: Call, v: World) {
    match call
    case Transfer(receiver, amount) => Pays(w, WhitelistKey(receiver, None), amount, v)
    case TransferFt(receiver, token, amount) => Pays(w, WhitelistKey(receiver, Some(token)), amount, v)
    case AddToWhitelist(entries) =>
      Manages(w, seq(|entries|, i requires 0 <= i < |entries| => Add(entries[i].key, entries[i].limit)), v)
    case RemoveFromWhitelist(keys) => Manages(w, seq(|keys|, i requires 0 <= i < |keys| => Remove(keys[i])), v)
    case SetLimit(entries) =>
      Manages(w, seq(|entries|, i requires 0 <= i < |entries| => Set(entries[i].key, entries[i].limit)), v)
    case IncreaseLimit(changes) =>
      Manages(w, seq(|changes|, i requires 0 <= i < |changes| => Increase(changes[i].key, changes[i].amount)), v)
    case DecreaseLimit(changes) =>
      Manages(w, seq(|changes|, i requires 0 <= i < |changes| => Decrease(changes[i].key, changes[i].amount)), v)
    case _ => Manages(w, [], v)
  }

  ghost predicate Manages(w: World, ops: seq<Op>, v: World) {
    v.receipts == w.receipts && v.events == w.events && v.trace == w.trace + ops
  }

  ghost predicate Pays(w: World, key: WhitelistKey, amount: U128, v: World) {
    && key in v.account.whitelist
    && v.receipts == w.receipts + [Receipt(key, amount, Sent)]
    && v.events == w.events + [Transferred(key, amount, v.account.whitelist[key])]
    && v.trace == w.trace + [Charge(key, amount)]
  }

  /** A call in a batch succeeds exactly without a deposit and when the contract accepts it. */
  lemma PerformExactly(w: World, caller: AccountId, action: FunctionCall)
    ensures Perform(w, caller, action).Some? <==> action.deposit == 0 && Accepts(w.account, caller, action.call)
    ensures Perform(w, caller, action).Some? ==>
              var v := Perform(w, caller, action).value;
              Becomes(w.account, action.call, v.account) && Dispatches(w, action.call, v)
  {
    CallsExactly(w.account, caller, action.call);
    if Perform(w, caller, action).Some? {
      if IsTransfer(action.call) {
        TransferEffect(w, caller, action);
      } else if IsManagement(action.call) {
        ManagementEffect(w, caller, action);
      } else {
        RoleChangeEffect(w, caller, action);
      }
    }
  }

  // ---- A batch ----

  /** The states a batch passes through, each call accepted in turn. */
  ghost predicate Chain(w: World, caller: AccountId, batch: seq<FunctionCall>, states: seq<World>) {
    && |states| == |batch| + 1 && states[0] == w
    && forall i | 0 <= i < |batch| :: Perform(states[i], caller, batch[i]) == Some(states[i + 1])
  }

  lemma {:induction false} ChainRuns(w: World, caller: AccountId, batch: seq<FunctionCall>, states: seq<World>)
    requires Chain(w, caller, batch, states)
    ensures PerformAll(w, caller, batch) == Some(states[|batch|])
  {
    if batch != [] {
      var n := |batch| - 1;
      ChainRuns(w, caller, batch[..n], states[..n + 1]);
      assert Perform(states[n], caller, batch[n]) == Some(states[n + 1]);
    }
  }

  lemma {:induction false} RunsChain(w: World, caller: AccountId, batch: seq<FunctionCall>) returns (states: seq<World>)
    requires PerformAll(w, caller, batch).Some?
    ensures Chain(w, caller, batch, states) && PerformAll(w, caller, batch) == Some(states[|batch|])
  {
    if batch == [] {
      states := [w];
    } else {
      var n := |batch| - 1;
      var before := RunsChain(w, caller, batch[..n]);
      states := before + [PerformAll(w, caller, batch).value];
      forall i | 0 <= i < |batch| ensures Perform(states[i], caller, batch[i]) == Some(states[i + 1]) {
        if i < n {
          assert batch[..n][i] == batch[i];
        }
      }
    }
  }

  /** The batch gets as far as call i, which is refused. */
  ghost predicate StopsAt(w: World, caller: AccountId, batch: seq<FunctionCall>, states: seq<World>) {
    && 0 < |states| <= |batch|
    && Chain(w, caller, batch[..|states| - 1], states)
    && Perform(states[|states| - 1], caller, batch[|states| - 1]).None?
  }

  lemma {:induction false} StopFound(w: World, caller: AccountId, batch: seq<FunctionCall>) returns (states: seq<World>)
    requires PerformAll(w, caller, batch).None?
    ensures StopsAt(w, caller, batch, states)
  {
    var n := |batch| - 1;
    if PerformAll(w, caller, batch[..n]).None? {
      states := StopFound(w, caller, batch[..n]);
      assert batch[..n][..|states| - 1] == batch[..|states| - 1];
    } else {
      states := RunsChain(w, caller, batch[..n]);
    }
  }

  /**
   * Delivering a batch is all or nothing: each call is accepted in the state the one before it left, and
   * the last state counts, or some call is refused and nothing has happened.
   */
  lemma DeliveryExactly(w: World, caller: AccountId, batch: seq<FunctionCall>)
    ensures var v := Next(w, Deliver(caller, batch));
      && (PerformAll(w, caller, batch).Some? ==>
            exists states :: Chain(w, caller, batch, states) && v == states[|batch|])
      && (PerformAll(w, caller, batch).None? ==> v == w && exists states :: StopsAt(w, caller, batch, states))
    ensures forall states :: Chain(w, caller, batch, states) ==> Next(w, Deliver(caller, batch)) == states[|batch|]
    ensures forall states :: StopsAt(w, caller, batch, states) ==> Next(w, Deliver(caller, batch)) == w
  {
    if PerformAll(w, caller, batch).Some? {
      var states := RunsChain(w, caller, batch);
    } else {
      var states := StopFound(w, caller, batch);
    }
    forall states | Chain(w, caller, batch, states)
      ensures Next(w, Deliver(caller, batch)) == states[|batch|]
    {
      ChainRuns(w, caller, batch, states);
    }
    forall states | StopsAt(w, caller, batch, states) ensures Next(w, Deliver(caller, batch)) == w {
      StopRefuses(w, caller, batch, states);
    }
  }

  lemma StopRefuses(w: World, caller: AccountId, batch: seq<FunctionCall>, states: seq<World>)
    requires StopsAt(w, caller, batch, states)
    ensures PerformAll(w, caller, batch).None?
  {
    var i := |states| - 1;
    ChainRuns(w, caller, batch[..i], states);
    if PerformAll(w, caller, batch).Some? {
      SR.CallAccepted(w, caller, batch, i);
    }
  }

  // ---- Settlement ----

  /**
   * A transfer on its way lands with the given outcome. Its callback closes it; after a failure an entry
   * that is still there gets the amount back up to the u128 maximum, and the failure is logged.
   */
  lemma SettlementExactly(w: World, id: nat, ok: bool)
    requires id < |w.receipts|
    ensures var r := w.receipts[id];
      && Next(w, Land(id, ok))
         == (if r.status == Sent then w.(receipts := w.receipts[id := Receipt(r.key, r.amount, Landed(ok))]) else w)
      && Next(w, Callback(id)).receipts
         == (if r.status.Landed? then w.receipts[id := Receipt(r.key, r.amount, Closed(r.status.ok))] else w.receipts)
      && (r.status != Landed(false) ==> Next(w, Callback(id)) == w.(receipts := Next(w, Callback(id)).receipts))
      && (r.status == Landed(false) ==>
            var v := Next(w, Callback(id));
            && v.account == w.account.(whitelist := v.account.whitelist)
            && v.account.whitelist
               == (if r.key in w.account.whitelist
                   then w.account.whitelist[r.key := Min(U128_MAX, w.account.whitelist[r.key] + r.amount)]
                   else w.account.whitelist)
            && v.trace == w.trace + [Restore(r.key, r.amount)]
            && v.events == w.events + [TransferFailed(r.key, r.amount)])
  {
  }

  /** Nothing lands or calls back that was never sent. */
  lemma NothingToSettle(w: World, id: nat, ok: bool)
    requires |w.receipts| <= id
    ensures Next(w, Land(id, ok)) == w && Next(w, Callback(id)) == w
  {
  }

  /** A run is its steps one after the other, and may be split anywhere. */
  lemma {:induction false} RunExactly(w: World, a: seq<Step>, b: seq<Step>, s: Step)
    ensures Run(w, []) == w && Run(w, [s]) == Next(w, s)
    ensures Run(w, a + b) == Run(Run(w, a), b)
  {
    assert [s][..0] == [];
    if b == [] {
      assert a + b == a;
    } else {
      var n := |b| - 1;
      assert (a + b)[..|a + b| - 1] == a + b[..n];
      RunExactly(w, a, b[..n], s);
    }
  }

  /** A contract as it is deployed is an initial state. */
  lemma DeployedIsInit(me: AccountId, spender: AccountId, manager: AccountId, admin: AccountId)
    ensures Init(World(Account(me, spender, manager, admin, map[]), [], [], []))
  {
  }
}
