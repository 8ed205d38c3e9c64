/** What whole runs of the spending account keep: rollback, settlement order, separation of roles. */
module SpendingRuns {
  import opened Base
  import opened Calls
  import opened Whitelist
  import opened Ledger
  import opened Spending

  // ---- Shape of a delivered batch ----

  /** From w to v the operations `ops` were appended, and only transfers that are still on their way dispatched. */
  ghost predicate Extends(w: World, v: World, ops: seq<Op>) {
    && v.account.me == w.account.me
    && v.trace == w.trace + ops
    && |w.receipts| <= |v.receipts| && v.receipts[..|w.receipts|] == w.receipts
    && forall i | |w.receipts| <= i < |v.receipts| :: v.receipts[i].status.Sent?
  }

  lemma PerformShape(w: World, caller: AccountId, action: FunctionCall)
    requires Perform(w, caller, action).Some?
    ensures Extends(w, Perform(w, caller, action).value, CallOps(action.call))
  {
    var v := Perform(w, caller, action).value;
    assert v.receipts == w.receipts + NewReceipts(CallOps(action.call));
  }

  lemma ExtendsTransitive(w: World, u: World, v: World, a: seq<Op>, b: seq<Op>)
    requires Extends(w, u, a) && Extends(u, v, b)
    ensures Extends(w, v, a + b)
  {
    assert v.receipts[..|w.receipts|] == v.receipts[..|u.receipts|][..|w.receipts|];
    forall i | |w.receipts| <= i < |v.receipts| ensures v.receipts[i].status.Sent? {
      if i < |u.receipts| {
        assert v.receipts[..|u.receipts|][i] == u.receipts[i];
      }
    }
  }

  lemma {:induction false} PerformAllShape(w: World, caller: AccountId, batch: seq<FunctionCall>)
    requires PerformAll(w, caller, batch).Some?
    ensures Extends(w, PerformAll(w, caller, batch).value, BatchOps(batch))
  {
    if batch != [] {
      var n := |batch| - 1;
      PerformAllShape(w, caller, batch[..n]);
      var u := PerformAll(w, caller, batch[..n]).value;
      PerformShape(u, caller, batch[n]);
      ExtendsTransitive(w, u, PerformAll(w, caller, batch).value, BatchOps(batch[..n]), CallOps(batch[n].call));
    }
  }

  lemma {:induction false} BatchOpsRestoreNothing(batch: seq<FunctionCall>)
    ensures forall op | op in BatchOps(batch) :: !op.Restore?
  {
    if batch != [] {
      BatchOpsRestoreNothing(batch[..|batch| - 1]);
    }
  }

  lemma {:induction false} SumExtend<T>(s: seq<T>, t: seq<T>, weight: T -> nat)
    requires |s| <= |t| && t[..|s|] == s
    requires forall i | |s| <= i < |t| :: weight(t[i]) == 0
    ensures Sum(t, weight) == Sum(s, weight)
  {
    if |s| < |t| {
      assert t[..|t| - 1][..|s|] == s;
      SumExtend(s, t[..|t| - 1], weight);
    } else {
      assert t[..|s|] == t;
    }
  }

  // ---- Failed transfers never burn allowance ----

  /** Between two states of a run, a key saw only charges and rollbacks. */
  ghost predicate OnlyTransfers(before: seq<Op>, after: seq<Op>, k: WhitelistKey) {
    forall j | |before| <= j < |after| && after[j].key == k :: after[j].Charge? || after[j].Restore?
  }

  lemma NextTraceGrows(w: World, s: Step)
    ensures w.trace <= Next(w, s).trace
  {
    if s.Deliver? && PerformAll(w, s.caller, s.batch).Some? {
      PerformAllShape(w, s.caller, s.batch);
    }
  }

  lemma {:induction false} RunTraceGrows(w: World, steps: seq<Step>)
    ensures w.trace <= Run(w, steps).trace
  {
    if steps != [] {
      RunTraceGrows(w, steps[..|steps| - 1]);
      NextTraceGrows(Run(w, steps[..|steps| - 1]), steps[|steps| - 1]);
    }
  }

  lemma NextPaidGrows(w: World, s: Step, k: WhitelistKey)
    ensures PaidOf(w, k) <= PaidOf(Next(w, s), k)
  {
    var v := Next(w, s);
    if v != w {
      if s.Deliver? {
        PerformAllShape(w, s.caller, s.batch);
        SumExtend(w.receipts, v.receipts, Paid(k));
      } else {
        SumUpdate(w.receipts, s.id, v.receipts[s.id], Paid(k));
      }
    }
  }

  /** Charges move neither grants, nor revocations, nor forfeits, and keep the entry. */
  lemma {:induction false} LineUnderCharges(trace: seq<Op>, more: seq<Op>, k: WhitelistKey)
    requires forall op | op in more && op.key == k :: op.Charge?
    ensures var l := LineOf(trace, k); var m := LineOf(trace + more, k);
      && m.granted == l.granted && m.revoked == l.revoked && m.forfeited == l.forfeited
      && (l.limit.Some? ==> m.limit.Some?)
  {
    if more == [] {
      assert trace + more == trace;
    } else {
      var n := |more| - 1;
      LineUnderCharges(trace, more[..n], k);
      assert trace + more == (trace + more[..n]) + [more[n]];
      LineOfAppend(trace + more[..n], more[n], k);
      assert more[n] in more;
    }
  }

  /** Nothing of key k is granted, revoked or forfeited between the two states, and its entry is still there. */
  ghost predicate Undisturbed(w: World, v: World, k: WhitelistKey) {
    var l := LineOf(w.trace, k);
    var m := LineOf(v.trace, k);
    && m.granted == l.granted && m.revoked == l.revoked && m.forfeited == l.forfeited
    && k in w.account.whitelist && k in v.account.whitelist
  }

  /** A restored amount was in flight, so it fits: the saturating add never clips. */
  lemma RestoreFits(w: World, id: nat, k: WhitelistKey)
    requires Inv(w) && k in w.account.whitelist
    requires w.account.whitelist[k] + InFlightOf(w, k) <= U128_MAX
    requires id < |w.receipts| && w.receipts[id].status == Landed(false)
    ensures Undisturbed(w, Next(w, Callback(id)), k)
  {
    var r := w.receipts[id];
    assert Agrees(w, k);
    NextKeeps(w, Callback(id));
    assert Agrees(Next(w, Callback(id)), k);
    LineOfAppend(w.trace, Restore(r.key, r.amount), k);
    SumAtLeast(w.receipts, id, InFlight(k));
  }

  lemma UndisturbedBatch(w: World, caller: AccountId, batch: seq<FunctionCall>, k: WhitelistKey)
    requires Inv(w) && k in w.account.whitelist && PerformAll(w, caller, batch).Some?
    requires OnlyTransfers(w.trace, PerformAll(w, caller, batch).value.trace, k)
    ensures Undisturbed(w, PerformAll(w, caller, batch).value, k)
  {
    var v := PerformAll(w, caller, batch).value;
    var more := BatchOps(batch);
    PerformAllShape(w, caller, batch);
    PerformAllKeeps(w, caller, batch);
    BatchOpsRestoreNothing(batch);
    forall op | op in more && op.key == k ensures op.Charge? {
      var j :| 0 <= j < |more| && more[j] == op;
      assert v.trace[|w.trace| + j] == op;
    }
    LineUnderCharges(w.trace, more, k);
    assert Agrees(w, k) && Agrees(v, k);
  }

  lemma UndisturbedStep(w: World, s: Step, k: WhitelistKey)
    requires Inv(w) && k in w.account.whitelist
    requires w.account.whitelist[k] + InFlightOf(w, k) <= U128_MAX
    requires OnlyTransfers(w.trace, Next(w, s).trace, k)
    ensures Undisturbed(w, Next(w, s), k)
  {
    if s.Deliver? && PerformAll(w, s.caller, s.batch).Some? {
      UndisturbedBatch(w, s.caller, s.batch, k);
    } else if s.Callback? && s.id < |w.receipts| && w.receipts[s.id].status == Landed(false) {
      RestoreFits(w, s.id, k);
    }
  }

  lemma {:induction false} UndisturbedRun(w0: World, steps: seq<Step>, k: WhitelistKey)
    requires Inv(w0) && k in w0.account.whitelist
    requires w0.account.whitelist[k] + InFlightOf(w0, k) <= U128_MAX
    requires OnlyTransfers(w0.trace, Run(w0, steps).trace, k)
    ensures Undisturbed(w0, Run(w0, steps), k)
    ensures PaidOf(w0, k) <= PaidOf(Run(w0, steps), k)
  {
    if steps != [] {
      var n := |steps| - 1;
      var w := Run(w0, steps[..n]);
      RunTraceGrows(w0, steps[..n]);
      NextTraceGrows(w, steps[n]);
      var after := Run(w0, steps).trace;
      forall j | |w0.trace| <= j < |w.trace| && w.trace[j].key == k ensures w.trace[j].Charge? || w.trace[j].Restore? {
        assert after[j] == w.trace[j];
      }
      UndisturbedRun(w0, steps[..n], k);
      RunKeeps(w0, steps[..n]);
      LedgerExact(w0, k);
      LedgerExact(w, k);
      UndisturbedStep(w, steps[n], k);
      NextPaidGrows(w, steps[n], k);
    }
  }

  /**
   * From any reachable state, while nobody manages key k, its allowance is only
   * moved: remaining + in flight + paid stays constant and no rollback is clipped.
   */
  lemma {:induction false} FailedTransfersBurnNothing(init: World, before: seq<Step>, steps: seq<Step>, k: WhitelistKey)
    requires Init(init)
    requires var w0 := Run(init, before);
      && k in w0.account.whitelist
      && w0.account.whitelist[k] + InFlightOf(w0, k) <= U128_MAX
      && OnlyTransfers(w0.trace, Run(w0, steps).trace, k)
    ensures var w0 := Run(init, before); var w := Run(w0, steps);
      && k in w.account.whitelist
      && w.account.whitelist[k] + InFlightOf(w, k) + PaidOf(w, k)
         == w0.account.whitelist[k] + InFlightOf(w0, k) + PaidOf(w0, k)
      && LineOf(w.trace, k).forfeited == LineOf(w0.trace, k).forfeited
  {
    InitInv(init);
    RunKeeps(init, before);
    var w0 := Run(init, before);
    UndisturbedRun(w0, steps, k);
    RunKeeps(w0, steps);
    LedgerExact(w0, k);
    LedgerExact(Run(w0, steps), k);
  }

  /** One failed transfer gives its full amount back exactly when the entry is still there and the sum is a u128. */
  lemma RestoresFullyIff(a: Account, key: WhitelistKey, amount: U128)
    requires 0 < amount
    ensures var b := HandleCallback(a, key, amount, false);
      Allowance(b.whitelist, key) == Allowance(a.whitelist, key) + amount
      <==> key in a.whitelist && a.whitelist[key] + amount <= U128_MAX
  {
  }

  /** A transfer whose callback is due for a failure fits back into its entry. */
  ghost predicate FitsBack(w: World, s: Step, k: WhitelistKey) {
    s.Callback? && s.id < |w.receipts| && w.receipts[s.id].status == Landed(false) && w.receipts[s.id].key == k
    ==> var amount := w.receipts[s.id].amount;
        amount == 0 || (k in w.account.whitelist && w.account.whitelist[k] + amount <= U128_MAX)
  }

  /** Only a rollback can forfeit anything. */
  lemma {:induction false} LineWithoutRestores(trace: seq<Op>, more: seq<Op>, k: WhitelistKey)
    requires forall op | op in more :: !op.Restore?
    ensures LineOf(trace + more, k).forfeited == LineOf(trace, k).forfeited
  {
    if more == [] {
      assert trace + more == trace;
    } else {
      var n := |more| - 1;
      LineWithoutRestores(trace, more[..n], k);
      assert trace + more == (trace + more[..n]) + [more[n]];
      LineOfAppend(trace + more[..n], more[n], k);
      assert more[n] in more;
    }
  }

  lemma NextForfeits(w: World, s: Step, k: WhitelistKey)
    requires Inv(w)
    ensures LineOf(w.trace, k).forfeited <= LineOf(Next(w, s).trace, k).forfeited
    ensures LineOf(w.trace, k).forfeited == LineOf(Next(w, s).trace, k).forfeited <==> FitsBack(w, s, k)
  {
    if s.Deliver? {
      if PerformAll(w, s.caller, s.batch).Some? {
        PerformAllShape(w, s.caller, s.batch);
        BatchOpsRestoreNothing(s.batch);
        LineWithoutRestores(w.trace, BatchOps(s.batch), k);
      }
    } else if s.Callback? && s.id < |w.receipts| && w.receipts[s.id].status == Landed(false) {
      assert Agrees(w, k);
      LineOfAppend(w.trace, Restore(w.receipts[s.id].key, w.receipts[s.id].amount), k);
    }
  }

  /** Every failed transfer to the key that the run calls back fits. */
  ghost predicate AlwaysFits(w0: World, steps: seq<Step>, k: WhitelistKey) {
    steps == [] || (var n := |steps| - 1;
      AlwaysFits(w0, steps[..n], k) && FitsBack(Run(w0, steps[..n]), steps[n], k))
  }

  lemma {:induction false} RunForfeits(w0: World, steps: seq<Step>, k: WhitelistKey)
    requires Inv(w0)
    ensures LineOf(w0.trace, k).forfeited <= LineOf(Run(w0, steps).trace, k).forfeited
    ensures LineOf(w0.trace, k).forfeited == LineOf(Run(w0, steps).trace, k).forfeited <==> AlwaysFits(w0, steps, k)
  {
    if steps != [] {
      var last := |steps| - 1;
      RunForfeits(w0, steps[..last], k);
      RunKeeps(w0, steps[..last]);
      NextForfeits(Run(w0, steps[..last]), steps[last], k);
    }
  }

  /** Over any part of any run, a key forfeits nothing exactly when every failed transfer to it fits back. */
  lemma ForfeitsNothingIff(init: World, before: seq<Step>, steps: seq<Step>, k: WhitelistKey)
    requires Init(init)
    ensures var w0 := Run(init, before);
      LineOf(Run(w0, steps).trace, k).forfeited == LineOf(w0.trace, k).forfeited <==> AlwaysFits(w0, steps, k)
  {
    InitInv(init);
    RunKeeps(init, before);
    RunForfeits(Run(init, before), steps, k);
  }

  /** The call that transfers an amount to a key. */
  function TransferTo(k: WhitelistKey, amount: U128): Call {
    if k.token.None? then Transfer(k.account, amount) else TransferFt(k.account, k.token.value, amount)
  }

  function One(call: Call): seq<FunctionCall> {
    [FunctionCall(call, 0, 0)]
  }

  /** Grant, transfer, raise the limit to the maximum while the transfer is on its way, and let it fail. */
  function ClippingRun(a: Account, k: WhitelistKey, amount: U128): seq<Step> {
    [Deliver(a.manager, One(AddToWhitelist([WhitelistEntry(k, amount)]))),
     Deliver(a.spender, One(TransferTo(k, amount))),
     Deliver(a.manager, One(SetLimit([WhitelistEntry(k, U128_MAX)]))),
     Land(0, false),
     Callback(0)]
  }

  /** A batch of one call that stands for one operation the table accepts. */
  lemma DeliverOne(w: World, caller: AccountId, call: Call, op: Op)
    requires Permitted(w.account, caller, call) && !IsRoleChange(call) && CallOps(call) == [op]
    requires Apply(w.account.me, w.account.whitelist, op).Some?
    ensures var v := Next(w, Deliver(caller, One(call)));
      && v.account == w.account.(whitelist := Apply(w.account.me, w.account.whitelist, op).value)
      && v.trace == w.trace + [op] && v.receipts == w.receipts + NewReceipts([op])
  {
    var batch := One(call);
    ApplySingle(w.account.me, w.account.whitelist, op);
    assert Perform(w, caller, batch[0]).Some?;
    assert batch[..0] == [];
    assert PerformAll(w, caller, batch) == Perform(w, caller, batch[0]);
  }

  lemma RunFive(w: World, s: seq<Step>)
    requires |s| == 5
    ensures Run(w, s) == Next(Next(Next(Next(Next(w, s[0]), s[1]), s[2]), s[3]), s[4])
  {
    assert s[..4][..3] == s[..3] && s[..3][..2] == s[..2] && s[..2][..1] == s[..1] && s[..1][..0] == [];
    assert Run(w, s[..1]) == Next(w, s[0]);
    assert Run(w, s[..2]) == Next(Run(w, s[..1]), s[1]);
    assert Run(w, s[..3]) == Next(Run(w, s[..2]), s[2]);
    assert Run(w, s[..4]) == Next(Run(w, s[..3]), s[3]);
  }

  lemma ClippedLine(k: WhitelistKey, amount: U128)
    ensures LineOf([Add(k, amount), Charge(k, amount), Set(k, U128_MAX), Restore(k, amount)], k).forfeited == amount
  {
    var trace := [Add(k, amount), Charge(k, amount), Set(k, U128_MAX), Restore(k, amount)];
    LineOfAppend([], trace[0], k);
    LineOfAppend(trace[..1], trace[1], k);
    LineOfAppend(trace[..2], trace[2], k);
    LineOfAppend(trace[..3], trace[3], k);
    assert [] + [trace[0]] == trace[..1] && trace[..1] + [trace[1]] == trace[..2];
    assert trace[..2] + [trace[2]] == trace[..3] && trace[..3] + [trace[3]] == trace;
  }

  /** A transfer that fails while its entry is at the maximum. */
  lemma FailAtMaximum(w: World, k: WhitelistKey, amount: U128)
    requires w.receipts == [Receipt(k, amount, Sent)] && k in w.account.whitelist && w.account.whitelist[k] == U128_MAX
    ensures var v := Next(Next(w, Land(0, false)), Callback(0));
      && v.account == w.account && v.receipts == [Receipt(k, amount, Closed(false))]
      && v.trace == w.trace + [Restore(k, amount)]
  {
    var mid := Next(w, Land(0, false));
    assert mid.receipts == [Receipt(k, amount, Landed(false))];
    assert w.account.whitelist[k := U128_MAX] == w.account.whitelist;
  }

  lemma DeliverGrant(w: World, k: WhitelistKey, limit: U128)
    requires w.account.whitelist == map[] && k.account != w.account.me
    ensures var v := Next(w, Deliver(w.account.manager, One(AddToWhitelist([WhitelistEntry(k, limit)]))));
      && v.account == w.account.(whitelist := map[k := limit])
      && v.receipts == w.receipts && v.trace == w.trace + [Add(k, limit)]
  {
    DeliverOne(w, w.account.manager, AddToWhitelist([WhitelistEntry(k, limit)]), Add(k, limit));
    assert w.receipts + [] == w.receipts;
  }

  lemma DeliverTransfer(w: World, k: WhitelistKey, amount: U128)
    requires w.account.whitelist == map[k := amount] && 0 < amount
    ensures var v := Next(w, Deliver(w.account.spender, One(TransferTo(k, amount))));
      && v.account == w.account.(whitelist := map[k := 0])
      && v.receipts == w.receipts + [Receipt(k, amount, Sent)] && v.trace == w.trace + [Charge(k, amount)]
  {
    DeliverOne(w, w.account.spender, TransferTo(k, amount), Charge(k, amount));
    assert w.account.whitelist[k := 0] == map[k := 0];
  }

  lemma DeliverRaise(w: World, k: WhitelistKey, limit: U128)
    requires w.account.whitelist == map[k := 0]
    ensures var v := Next(w, Deliver(w.account.manager, One(SetLimit([WhitelistEntry(k, limit)]))));
      && v.account == w.account.(whitelist := map[k := limit])
      && v.receipts == w.receipts && v.trace == w.trace + [Set(k, limit)]
  {
    DeliverOne(w, w.account.manager, SetLimit([WhitelistEntry(k, limit)]), Set(k, limit));
    assert w.receipts + [] == w.receipts;
    assert w.account.whitelist[k := limit] == map[k := limit];
  }

  lemma GrantedInFlight(w0: World, k: WhitelistKey, amount: U128)
    requires Init(w0) && k.account != w0.account.me && 0 < amount
    ensures var steps := ClippingRun(w0.account, k, amount);
      var v := Next(Next(w0, steps[0]), steps[1]);
      && v.account == w0.account.(whitelist := map[k := 0])
      && v.receipts == [Receipt(k, amount, Sent)] && v.trace == [Add(k, amount), Charge(k, amount)]
  {
    DeliverGrant(w0, k, amount);
    DeliverTransfer(Next(w0, ClippingRun(w0.account, k, amount)[0]), k, amount);
  }

  /** Granted, transferred, raised: the transfer is on its way and its entry at the maximum. */
  lemma RaisedInFlight(w0: World, k: WhitelistKey, amount: U128)
    requires Init(w0) && k.account != w0.account.me && 0 < amount
    ensures var steps := ClippingRun(w0.account, k, amount);
      var v := Next(Next(Next(w0, steps[0]), steps[1]), steps[2]);
      && v.account == w0.account.(whitelist := map[k := U128_MAX])
      && v.receipts == [Receipt(k, amount, Sent)]
      && v.trace == [Add(k, amount), Charge(k, amount), Set(k, U128_MAX)]
  {
    var steps := ClippingRun(w0.account, k, amount);
    GrantedInFlight(w0, k, amount);
    DeliverRaise(Next(Next(w0, steps[0]), steps[1]), k, U128_MAX);
  }

  /** It need not fit: whatever the amount, this run forfeits all of it. */
  lemma RestoreCanClip(w0: World, k: WhitelistKey, amount: U128)
    requires Init(w0) && k.account != w0.account.me && 0 < amount
    ensures var w := Run(w0, ClippingRun(w0.account, k, amount));
      && w.trace == [Add(k, amount), Charge(k, amount), Set(k, U128_MAX), Restore(k, amount)]
      && w.receipts == [Receipt(k, amount, Closed(false))]
      && w.account == w0.account.(whitelist := map[k := U128_MAX])
      && LineOf(w.trace, k).forfeited == amount
  {
    var steps := ClippingRun(w0.account, k, amount);
    RaisedInFlight(w0, k, amount);
    RunFive(w0, steps);
    FailAtMaximum(Next(Next(Next(w0, steps[0]), steps[1]), steps[2]), k, amount);
    ClippedLine(k, amount);
  }

  // ---- Keys never mix ----

  /** Over any run, an entry is what the operations on its key alone produce; other keys, and tokens, play no part. */
  lemma KeysNeverMix(w0: World, steps: seq<Step>, k: WhitelistKey)
    requires Init(w0)
    ensures var w := Run(w0, steps);
      ApplyAll(w.account.me, map[], OpsOn(w.trace, k)) == Some(Restrict(w.account.whitelist, k))
  {
    RunReplays(w0, steps);
    var w := Run(w0, steps);
    KeyIsolation(w.account.me, map[], w.trace, k);
    assert Restrict(map[], k) == map[];
  }

  // ---- The order of settlement is irrelevant ----

  ghost predicate SettlementOnly(steps: seq<Step>) {
    forall s | s in steps :: !s.Deliver?
  }

  function RefusedOf(w: World, k: WhitelistKey): nat { Sum(w.receipts, Refused(k)) }

  /** The whitelist follows from the starting one and the statuses of the receipts. */
  ghost predicate SettledFrom(w: World, v: World) {
    && v.account == w.account.(whitelist := v.account.whitelist)
    && v.account.whitelist.Keys == w.account.whitelist.Keys
    && forall k | k in w.account.whitelist ::
      && RefusedOf(w, k) <= RefusedOf(v, k)
      && v.account.whitelist[k] == Min(U128_MAX, w.account.whitelist[k] + RefusedOf(v, k) - RefusedOf(w, k))
  }

  lemma SettlementKeepsKeys(w: World, s: Step)
    requires !s.Deliver?
    ensures var v := Next(w, s);
      v.account == w.account.(whitelist := v.account.whitelist)
      && v.account.whitelist.Keys == w.account.whitelist.Keys
  {
  }

  lemma SettlementKey(w: World, s: Step, k: WhitelistKey)
    requires !s.Deliver? && k in w.account.whitelist
    ensures var v := Next(w, s);
      && RefusedOf(w, k) <= RefusedOf(v, k) && k in v.account.whitelist
      && v.account.whitelist[k] == Min(U128_MAX, w.account.whitelist[k] + RefusedOf(v, k) - RefusedOf(w, k))
  {
    var v := Next(w, s);
    if v != w {
      SumUpdate(w.receipts, s.id, v.receipts[s.id], Refused(k));
    }
  }

  lemma SettlementStep(w: World, s: Step)
    requires !s.Deliver?
    ensures SettledFrom(w, Next(w, s))
  {
    SettlementKeepsKeys(w, s);
    var v := Next(w, s);
    forall k | k in w.account.whitelist ensures
      && RefusedOf(w, k) <= RefusedOf(v, k)
      && v.account.whitelist[k] == Min(U128_MAX, w.account.whitelist[k] + RefusedOf(v, k) - RefusedOf(w, k))
    {
      SettlementKey(w, s, k);
    }
  }

  /** Settling leaves each present key at its old limit plus its failed amounts, capped; absent keys stay absent. */
  lemma {:induction false} SettlementClosedForm(w: World, steps: seq<Step>)
    requires SettlementOnly(steps)
    ensures SettledFrom(w, Run(w, steps))
  {
    if steps != [] {
      var n := |steps| - 1;
      SettlementClosedForm(w, steps[..n]);
      SettlementStep(Run(w, steps[..n]), steps[n]);
    }
  }

  lemma SettledUnique(w: World, u: World, v: World)
    requires SettledFrom(w, u) && SettledFrom(w, v) && u.receipts == v.receipts
    ensures u.account == v.account
  {
    forall k | k in u.account.whitelist ensures u.account.whitelist[k] == v.account.whitelist[k] {
      assert RefusedOf(u, k) == RefusedOf(v, k);
    }
    assert u.account.whitelist == v.account.whitelist;
  }

  /** Two settlement runs in any order and interleaving that end with the same outcomes end with the same account. */
  lemma SettlementOrderIrrelevant(w: World, a: seq<Step>, b: seq<Step>)
    requires SettlementOnly(a) && SettlementOnly(b)
    requires Run(w, a).receipts == Run(w, b).receipts
    ensures Run(w, a).account == Run(w, b).account
  {
    SettlementClosedForm(w, a);
    SettlementClosedForm(w, b);
    SettledUnique(w, Run(w, a), Run(w, b));
  }

  datatype Settlement = Settlement(id: nat, ok: bool)

  /** Settles the planned transfers one after the other. */
  function SettleSteps(plan: seq<Settlement>): seq<Step> {
    if plan == [] then []
    else
      var last := plan[|plan| - 1];
      SettleSteps(plan[..|plan| - 1]) + [Land(last.id, last.ok), Callback(last.id)]
  }

  function Names(id: nat): Settlement -> nat {
    (s: Settlement) => if s.id == id then 1 else 0
  }

  /** The plan names transfers that are on their way, each at most once. */
  ghost predicate Settleable(w: World, plan: seq<Settlement>) {
    && (forall s | s in plan :: s.id < |w.receipts| && w.receipts[s.id].status.Sent?)
    && (forall id :: Sum(plan, Names(id)) <= 1)
  }

  ghost predicate SettledAs(before: seq<Receipt>, after: seq<Receipt>, plan: seq<Settlement>) {
    && |after| == |before|
    && (forall s | s in plan :: s.id < |after| && after[s.id] == before[s.id].(status := Closed(s.ok)))
    && (forall i | 0 <= i < |after| && (forall s | s in plan :: s.id != i) :: after[i] == before[i])
  }

  lemma RunTwo(w: World, steps: seq<Step>, a: Step, b: Step)
    ensures Run(w, steps + [a, b]) == Next(Next(Run(w, steps), a), b)
  {
    var all := steps + [a, b];
    assert all[..|all| - 1] == steps + [a];
    assert (steps + [a])[..|steps|] == steps;
  }

  lemma SettledAsStep(before: seq<Receipt>, mid: seq<Receipt>, plan: seq<Settlement>, last: Settlement)
    requires SettledAs(before, mid, plan)
    requires last.id < |before| && forall s | s in plan :: s.id != last.id
    ensures SettledAs(before, mid[last.id := before[last.id].(status := Closed(last.ok))], plan + [last])
  {
    var after := mid[last.id := before[last.id].(status := Closed(last.ok))];
    forall i | 0 <= i < |after| && (forall s | s in plan + [last] :: s.id != i) ensures after[i] == before[i] {
      assert last in plan + [last];
      assert forall s | s in plan :: s in plan + [last];
    }
  }

  lemma SettleOne(w: World, id: nat, ok: bool)
    requires id < |w.receipts| && w.receipts[id].status.Sent?
    ensures Next(Next(w, Land(id, ok)), Callback(id)).receipts
         == w.receipts[id := w.receipts[id].(status := Closed(ok))]
  {
    var r := w.receipts[id];
    assert w.receipts[id := r.(status := Landed(ok))][id := r.(status := Closed(ok))]
        == w.receipts[id := r.(status := Closed(ok))];
  }

  lemma SettleableFront(w: World, plan: seq<Settlement>)
    requires plan != [] && Settleable(w, plan)
    ensures var n := |plan| - 1; Settleable(w, plan[..n]) && forall s | s in plan[..n] :: s.id != plan[n].id
  {
    var n := |plan| - 1;
    assert plan == plan[..n] + [plan[n]];
    forall id ensures Sum(plan[..n], Names(id)) + Names(id)(plan[n]) <= 1 {
      assert Sum(plan, Names(id)) <= 1;
      SumAppend(plan[..n], plan[n], Names(id));
    }
    forall s | s in plan[..n] ensures s.id != plan[n].id {
      var i :| 0 <= i < n && plan[..n][i] == s;
      SumAtLeast(plan[..n], i, Names(plan[n].id));
    }
  }

  lemma SettleablePermuted(w: World, a: seq<Settlement>, b: seq<Settlement>)
    requires Settleable(w, a) && multiset(a) == multiset(b)
    ensures Settleable(w, b)
  {
    forall s | s in b ensures s.id < |w.receipts| && w.receipts[s.id].status.Sent? {
      assert s in multiset(b);
    }
    forall id ensures Sum(b, Names(id)) <= 1 {
      SumPermuted(a, b, Names(id));
    }
  }

  lemma {:induction false} PlanSettles(w: World, plan: seq<Settlement>)
    requires Settleable(w, plan)
    ensures SettledAs(w.receipts, Run(w, SettleSteps(plan)).receipts, plan)
  {
    if plan != [] {
      var n := |plan| - 1;
      var last := plan[n];
      var front := plan[..n];
      assert plan == front + [last];
      SettleableFront(w, plan);
      PlanSettles(w, front);
      var v := Run(w, SettleSteps(front));
      assert v.receipts[last.id] == w.receipts[last.id];
      RunTwo(w, SettleSteps(front), Land(last.id, last.ok), Callback(last.id));
      SettleOne(v, last.id, last.ok);
      SettledAsStep(w.receipts, v.receipts, front, last);
    }
  }

  lemma {:induction false} PlanOnlySettles(plan: seq<Settlement>)
    ensures SettlementOnly(SettleSteps(plan))
  {
    if plan != [] {
      PlanOnlySettles(plan[..|plan| - 1]);
    }
  }

  lemma SettledAsUnique(before: seq<Receipt>, u: seq<Receipt>, v: seq<Receipt>,
                        a: seq<Settlement>, b: seq<Settlement>)
    requires SettledAs(before, u, a) && SettledAs(before, v, b)
    requires forall s :: s in a <==> s in b
    ensures u == v
  {
    forall i | 0 <= i < |u| ensures u[i] == v[i] {
      if s :| s in a && s.id == i {
        assert s in b;
      }
    }
  }

  /** Settling the same transfers with the same outcomes in any permutation gives the same account. */
  lemma SettlementPermuted(w: World, a: seq<Settlement>, b: seq<Settlement>)
    requires Settleable(w, a) && multiset(a) == multiset(b)
    ensures Run(w, SettleSteps(a)).account == Run(w, SettleSteps(b)).account
    ensures Run(w, SettleSteps(a)).receipts == Run(w, SettleSteps(b)).receipts
  {
    SettleablePermuted(w, a, b);
    PlanSettles(w, a);
    PlanSettles(w, b);
    forall s ensures s in a <==> s in b {
      assert s in a <==> s in multiset(a);
      assert s in b <==> s in multiset(b);
    }
    SettledAsUnique(w.receipts, Run(w, SettleSteps(a)).receipts, Run(w, SettleSteps(b)).receipts, a, b);
    PlanOnlySettles(a);
    PlanOnlySettles(b);
    SettlementOrderIrrelevant(w, SettleSteps(a), SettleSteps(b));
  }

  // ---- Separation of roles ----

  function Exposure(w: World, k: WhitelistKey): nat {
    Allowance(w.account.whitelist, k) + InFlightOf(w, k)
  }

  /** Same roles and keys, and no key gained anything spendable. */
  ghost predicate NotRaised(w: World, v: World) {
    && v.account == w.account.(whitelist := v.account.whitelist)
    && v.account.whitelist.Keys == w.account.whitelist.Keys
    && forall k :: Exposure(v, k) <= Exposure(w, k)
  }

  lemma SpenderCall(w: World, caller: AccountId, action: FunctionCall)
    requires caller != w.account.manager && caller != w.account.admin
    requires Perform(w, caller, action).Some?
    ensures NotRaised(w, Perform(w, caller, action).value)
  {
    var v := Perform(w, caller, action).value;
    var ops := CallOps(action.call);
    assert IsTransfer(action.call) && ops == [ops[0]];
    ApplySingle(w.account.me, w.account.whitelist, ops[0]);
    assert v.account.whitelist.Keys == w.account.whitelist.Keys;
    forall k ensures Exposure(v, k) <= Exposure(w, k) {
      SumAppend(w.receipts, NewReceipts(ops)[0], InFlight(k));
    }
  }

  lemma {:induction false} SpenderBatch(w: World, caller: AccountId, batch: seq<FunctionCall>)
    requires caller != w.account.manager && caller != w.account.admin
    requires PerformAll(w, caller, batch).Some?
    ensures NotRaised(w, PerformAll(w, caller, batch).value)
  {
    if batch != [] {
      var n := |batch| - 1;
      SpenderBatch(w, caller, batch[..n]);
      SpenderCall(PerformAll(w, caller, batch[..n]).value, caller, batch[n]);
    }
  }

  lemma SettlementExposure(w: World, s: Step, k: WhitelistKey)
    requires !s.Deliver?
    ensures Exposure(Next(w, s), k) <= Exposure(w, k)
  {
    var v := Next(w, s);
    if v != w {
      SumUpdate(w.receipts, s.id, v.receipts[s.id], InFlight(k));
    }
  }

  lemma SettlementNotRaised(w: World, s: Step)
    requires !s.Deliver?
    ensures NotRaised(w, Next(w, s))
  {
    SettlementKeepsKeys(w, s);
    forall k ensures Exposure(Next(w, s), k) <= Exposure(w, k) {
      SettlementExposure(w, s, k);
    }
  }

  /** Without the manager and the admin, no run adds or drops a key or raises what a key can spend. */
  lemma {:induction false} SpenderOnlySpends(w: World, steps: seq<Step>)
    requires forall s | s in steps && s.Deliver? :: s.caller != w.account.manager && s.caller != w.account.admin
    ensures NotRaised(w, Run(w, steps))
  {
    if steps != [] {
      var n := |steps| - 1;
      SpenderOnlySpends(w, steps[..n]);
      var v := Run(w, steps[..n]);
      assert steps[n] in steps;
      if steps[n].Deliver? {
        if PerformAll(v, steps[n].caller, steps[n].batch).Some? {
          SpenderBatch(v, steps[n].caller, steps[n].batch);
        }
      } else {
        SettlementNotRaised(v, steps[n]);
      }
    }
  }

  /**
   * A batch by a caller who is neither spender nor manager, and who does not make
   * itself one on the way, moves no money and leaves the whitelist alone.
   */
  lemma {:induction false} AdminOnlyAssigns(w: World, caller: AccountId, batch: seq<FunctionCall>)
    requires caller != w.account.spender && caller != w.account.manager
    requires forall c | c in batch :: c.call != SetSpender(caller) && c.call != SetManager(caller)
    requires PerformAll(w, caller, batch).Some?
    ensures var v := PerformAll(w, caller, batch).value;
      && v.account.whitelist == w.account.whitelist && v.receipts == w.receipts && v.trace == w.trace
      && caller != v.account.spender && caller != v.account.manager
  {
    if batch != [] {
      var n := |batch| - 1;
      AdminOnlyAssigns(w, caller, batch[..n]);
      assert batch[n] in batch;
      assert w.receipts + [] == w.receipts && w.trace + [] == w.trace;
    }
  }

  // ---- When exactly a batch only assigns roles ----

  ghost predicate OnlyAssigns(batch: seq<FunctionCall>) {
    forall c | c in batch :: IsRoleChange(c.call)
  }

  lemma CallActsIff(w: World, caller: AccountId, action: FunctionCall)
    requires Perform(w, caller, action).Some?
    ensures CallOps(action.call) == [] <==> IsRoleChange(action.call)
  {
  }

  lemma {:induction false} BatchActsIff(w: World, caller: AccountId, batch: seq<FunctionCall>)
    requires PerformAll(w, caller, batch).Some?
    ensures BatchOps(batch) == [] <==> OnlyAssigns(batch)
  {
    if batch != [] {
      var n := |batch| - 1;
      BatchActsIff(w, caller, batch[..n]);
      CallActsIff(PerformAll(w, caller, batch[..n]).value, caller, batch[n]);
      assert forall c :: c in batch <==> c in batch[..n] || c == batch[n];
    }
  }

  /** Same transfers, whitelist and log: at most the roles differ. */
  ghost predicate MovedNothing(w: World, v: World) {
    && v.trace == w.trace && v.receipts == w.receipts && v.events == w.events
    && v.account.whitelist == w.account.whitelist && v.account.me == w.account.me
  }

  lemma {:induction false} AssigningMovesNothing(w: World, caller: AccountId, batch: seq<FunctionCall>)
    requires PerformAll(w, caller, batch).Some? && OnlyAssigns(batch)
    ensures MovedNothing(w, PerformAll(w, caller, batch).value)
  {
    if batch != [] {
      var n := |batch| - 1;
      AssigningMovesNothing(w, caller, batch[..n]);
      assert batch[n] in batch;
      RoleChangeEffect(PerformAll(w, caller, batch[..n]).value, caller, batch[n]);
    }
  }

  /** Whoever sent it, an accepted batch moves something exactly when one of its calls is no role assignment. */
  lemma MovesNothingIff(w: World, caller: AccountId, batch: seq<FunctionCall>)
    requires PerformAll(w, caller, batch).Some?
    ensures var v := PerformAll(w, caller, batch).value;
      && (v.trace == w.trace <==> OnlyAssigns(batch))
      && (MovedNothing(w, v) <==> OnlyAssigns(batch))
  {
    PerformAllShape(w, caller, batch);
    BatchActsIff(w, caller, batch);
    if OnlyAssigns(batch) {
      AssigningMovesNothing(w, caller, batch);
    } else {
      assert |PerformAll(w, caller, batch).value.trace| > |w.trace|;
    }
  }

  lemma {:induction false} PrefixAccepted(w: World, caller: AccountId, batch: seq<FunctionCall>, n: nat)
    requires n <= |batch| && PerformAll(w, caller, batch).Some?
    ensures PerformAll(w, caller, batch[..n]).Some?
  {
    var last := |batch| - 1;
    if n <= last {
      PrefixAccepted(w, caller, batch[..last], n);
      assert batch[..last][..n] == batch[..n];
    } else {
      assert batch[..n] == batch;
    }
  }

  lemma CallAccepted(w: World, caller: AccountId, batch: seq<FunctionCall>, n: nat)
    requires n < |batch| && PerformAll(w, caller, batch).Some?
    ensures PerformAll(w, caller, batch[..n]).Some?
    ensures Perform(PerformAll(w, caller, batch[..n]).value, caller, batch[n]).Some?
    ensures Perform(PerformAll(w, caller, batch[..n]).value, caller, batch[n])
         == PerformAll(w, caller, batch[..n + 1])
  {
    PrefixAccepted(w, caller, batch, n + 1);
    assert batch[..n + 1][..n] == batch[..n];
  }

  lemma RoleTakenByCall(w: World, caller: AccountId, action: FunctionCall)
    requires Perform(w, caller, action).Some?
    ensures var a := Perform(w, caller, action).value.account;
      && (a.spender == w.account.spender || action.call == SetSpender(a.spender))
      && (a.manager == w.account.manager || action.call == SetManager(a.manager))
  {
  }

  /** A role that changed hands over a batch was assigned by one of its calls. */
  lemma {:induction false} RoleTaken(w: World, caller: AccountId, batch: seq<FunctionCall>)
    requires PerformAll(w, caller, batch).Some?
    ensures var a := PerformAll(w, caller, batch).value.account;
      && (a.spender == w.account.spender || exists c | c in batch :: c.call == SetSpender(a.spender))
      && (a.manager == w.account.manager || exists c | c in batch :: c.call == SetManager(a.manager))
  {
    if batch != [] {
      var n := |batch| - 1;
      RoleTaken(w, caller, batch[..n]);
      RoleTakenByCall(PerformAll(w, caller, batch[..n]).value, caller, batch[n]);
      assert batch[n] in batch && forall c | c in batch[..n] :: c in batch;
    }
  }

  /** The call that gives the caller the role another call of its batch needs. */
  function TakeoverFor(caller: AccountId, call: Call): Call {
    if IsTransfer(call) then SetSpender(caller) else SetManager(caller)
  }

  /**
   * A caller without the roles gets a transfer accepted only after a call of the same batch made it
   * the spender, and any other call that is no role assignment only after one made it the manager.
   */
  lemma TakeoverComesFirst(w: World, caller: AccountId, batch: seq<FunctionCall>, i: nat)
    requires caller != w.account.spender && caller != w.account.manager
    requires PerformAll(w, caller, batch).Some? && i < |batch| && !IsRoleChange(batch[i].call)
    ensures exists j | 0 <= j < i :: batch[j].call == TakeoverFor(caller, batch[i].call)
  {
    CallAccepted(w, caller, batch, i);
    RoleTaken(w, caller, batch[..i]);
    var c :| c in batch[..i] && c.call == TakeoverFor(caller, batch[i].call);
    var j :| 0 <= j < i && batch[..i][j] == c;
    assert batch[j].call == TakeoverFor(caller, batch[i].call);
  }

  // ---- The same over whole runs ----

  ghost predicate OnlyRestores(before: seq<Op>, after: seq<Op>) {
    forall j | |before| <= j < |after| :: after[j].Restore?
  }

  /** If the step delivers a batch that is accepted, the batch only assigns roles. */
  ghost predicate StepAssigns(w: World, s: Step) {
    s.Deliver? && PerformAll(w, s.caller, s.batch).Some? ==> OnlyAssigns(s.batch)
  }

  ghost predicate AlwaysAssigns(w: World, steps: seq<Step>) {
    steps == [] || (var n := |steps| - 1;
      AlwaysAssigns(w, steps[..n]) && StepAssigns(Run(w, steps[..n]), steps[n]))
  }

  lemma StepRestoresIff(w: World, s: Step)
    ensures w.trace <= Next(w, s).trace
    ensures OnlyRestores(w.trace, Next(w, s).trace) <==> StepAssigns(w, s)
  {
    if s.Deliver? && PerformAll(w, s.caller, s.batch).Some? {
      PerformAllShape(w, s.caller, s.batch);
      MovesNothingIff(w, s.caller, s.batch);
      BatchOpsRestoreNothing(s.batch);
      if BatchOps(s.batch) != [] {
        assert Next(w, s).trace[|w.trace|] == BatchOps(s.batch)[0];
        assert BatchOps(s.batch)[0] in BatchOps(s.batch);
      }
    }
  }

  /** Over any run, nothing but rollbacks happens exactly when every accepted batch only assigns roles. */
  lemma {:induction false} OnlyRestoresIff(w: World, steps: seq<Step>)
    ensures w.trace <= Run(w, steps).trace
    ensures OnlyRestores(w.trace, Run(w, steps).trace) <==> AlwaysAssigns(w, steps)
  {
    if steps != [] {
      var n := |steps| - 1;
      OnlyRestoresIff(w, steps[..n]);
      StepRestoresIff(Run(w, steps[..n]), steps[n]);
      OnlyRestoresSplit(w.trace, Run(w, steps[..n]).trace, Run(w, steps).trace);
    }
  }

  lemma OnlyRestoresSplit(a: seq<Op>, b: seq<Op>, c: seq<Op>)
    requires a <= b <= c
    ensures OnlyRestores(a, c) <==> OnlyRestores(a, b) && OnlyRestores(b, c)
  {
    assert forall j | |a| <= j < |b| :: c[j] == b[j];
  }

  /** At no call of an accepted batch is the caller the spender or the manager of that moment. */
  ghost predicate Unprivileged(w: World, s: Step) {
    s.Deliver? && PerformAll(w, s.caller, s.batch).Some? ==>
      forall i | 0 <= i < |s.batch| ::
        match PerformAll(w, s.caller, s.batch[..i])
        case None => true
        case Some(v) => s.caller != v.account.spender && s.caller != v.account.manager
  }

  ghost predicate AlwaysUnprivileged(w: World, steps: seq<Step>) {
    steps == [] || (var n := |steps| - 1;
      AlwaysUnprivileged(w, steps[..n]) && Unprivileged(Run(w, steps[..n]), steps[n]))
  }

  lemma UnprivilegedAssigns(w: World, s: Step)
    requires Unprivileged(w, s)
    ensures StepAssigns(w, s)
  {
    if s.Deliver? && PerformAll(w, s.caller, s.batch).Some? {
      forall c | c in s.batch ensures IsRoleChange(c.call) {
        var i :| 0 <= i < |s.batch| && s.batch[i] == c;
        CallAccepted(w, s.caller, s.batch, i);
      }
    }
  }

  /** Same keys and transfers, and no key gained anything spendable; the roles may differ. */
  ghost predicate OnlySettled(w: World, v: World) {
    && v.account.me == w.account.me && v.account.whitelist.Keys == w.account.whitelist.Keys
    && |v.receipts| == |w.receipts|
    && forall k :: Exposure(v, k) <= Exposure(w, k)
  }

  lemma StepOnlySettles(w: World, s: Step)
    requires StepAssigns(w, s)
    ensures OnlySettled(w, Next(w, s))
  {
    if s.Deliver? {
      if PerformAll(w, s.caller, s.batch).Some? {
        MovesNothingIff(w, s.caller, s.batch);
      }
    } else {
      SettlementNotRaised(w, s);
    }
  }

  lemma {:induction false} RunOnlySettles(w: World, steps: seq<Step>)
    requires AlwaysAssigns(w, steps)
    ensures OnlySettled(w, Run(w, steps))
  {
    if steps != [] {
      var n := |steps| - 1;
      RunOnlySettles(w, steps[..n]);
      StepOnlySettles(Run(w, steps[..n]), steps[n]);
      assert forall k :: Exposure(Run(w, steps), k) <= Exposure(Run(w, steps[..n]), k) <= Exposure(w, k);
    }
  }

  lemma {:induction false} AlwaysUnprivilegedAssigns(w: World, steps: seq<Step>)
    requires AlwaysUnprivileged(w, steps)
    ensures AlwaysAssigns(w, steps)
  {
    if steps != [] {
      var n := |steps| - 1;
      AlwaysUnprivilegedAssigns(w, steps[..n]);
      UnprivilegedAssigns(Run(w, steps[..n]), steps[n]);
    }
  }

  /**
   * While every accepted call comes from an account that is neither the spender nor the manager of that
   * moment, the admin included, only rollbacks happen: no transfer, no new key, no key with more to spend.
   */
  lemma BystandersOnlyAssign(w: World, steps: seq<Step>)
    requires AlwaysUnprivileged(w, steps)
    ensures OnlyRestores(w.trace, Run(w, steps).trace)
    ensures OnlySettled(w, Run(w, steps))
  {
    AlwaysUnprivilegedAssigns(w, steps);
    OnlyRestoresIff(w, steps);
    RunOnlySettles(w, steps);
  }

  /** The condition is needed: in one batch an admin can take the manager role and whitelist anyone. */
  lemma AdminCanTakeOver(w: World, k: WhitelistKey, limit: U128)
    requires k !in w.account.whitelist && k.account != w.account.me
    ensures var admin := w.account.admin;
      var batch := [FunctionCall(SetManager(admin), 0, 0),
                    FunctionCall(AddToWhitelist([WhitelistEntry(k, limit)]), 0, 0)];
      && PerformAll(w, admin, batch).Some?
      && PerformAll(w, admin, batch).value.account.whitelist == w.account.whitelist[k := limit]
  {
    var admin := w.account.admin;
    var first := FunctionCall(SetManager(admin), 0, 0);
    var second := FunctionCall(AddToWhitelist([WhitelistEntry(k, limit)]), 0, 0);
    var batch := [first, second];
    assert batch[..1] == [first] && [first][..0] == [];
    var v := Perform(w, admin, first).value;
    assert PerformAll(w, admin, [first]) == Some(v);
    var ops := CallOps(second.call);
    assert ops == [Add(k, limit)] && ops[..0] == [];
    assert ApplyAll(w.account.me, v.account.whitelist, ops) == Some(w.account.whitelist[k := limit]);
  }
}
