/**
 * One timelock in front of one spending account, which it serves as spender and
 * manager: requests queued at the timelock are batches run on the account.
 */
module Treasury {
  import opened Base
  import opened Calls
  import opened Whitelist
  import opened Ledger
  import Requests
  import TL = Timelock
  import T = TimelockWorld
  import Q = TimelockQueue
  import O = TimelockOutbox
  import E = TimelockEscrow
  import TR = TimelockRuns
  import S = Spending
  import SR = SpendingRuns

  /** Both contracts; `sources` names, per operation in the account's trace, the request that carried it. */
  datatype World = World(t: T.World, s: S.World, sources: seq<Option<U64>>)

  datatype Step =
      /** Anything that concerns the timelock alone. */
    | OnTimelock(t: T.Step)
      /** Anything that concerns the spending account alone. */
    | OnAccount(s: S.Step)
      /** A batch of the timelock lands on the spending account. */
    | Cross(promise: nat)

  predicate ForAccount(w: World, j: nat) {
    j < |w.t.outbox| && w.t.outbox[j].promise.Batch? && w.t.outbox[j].promise.receiver == w.s.account.me
  }

  /** Neither contract is impersonated, and a batch for the account lands only by running there. */
  predicate Possible(w: World, x: Step) {
    match x
    case OnTimelock(Deliver(caller, _)) => caller != w.s.account.me
    case OnTimelock(Land(j, _)) => !ForAccount(w, j)
    case OnTimelock(_) => true
    case OnAccount(Deliver(caller, _)) => caller != w.t.me && caller != w.s.account.me
    case OnAccount(_) => true
    case Cross(j) => ForAccount(w, j) && w.t.outbox[j].phase.Sent?
  }

  /** Extends the sources to the length of the trace. */
  function Attribute(sources: seq<Option<U64>>, n: nat, source: Option<U64>): seq<Option<U64>> {
    if n <= |sources| then sources else sources + seq(n - |sources|, _ => source)
  }

  function Next(w: World, x: Step): World {
    if !Possible(w, x) then w
    else
      match x
      case OnTimelock(t) => w.(t := T.Next(w.t, t))
      case OnAccount(s) =>
        var v := S.Next(w.s, s);
        w.(s := v, sources := Attribute(w.sources, |v.trace|, None))
      case Cross(j) =>
        var d := w.t.outbox[j];
        match S.PerformAll(w.s, w.t.me, d.promise.actions)
        case None => w.(t := T.Settle(w.t, j, TL.Failed))
        case Some(v) =>
          World(T.Settle(w.t, j, TL.Returned(None)), v, Attribute(w.sources, |v.trace|, Some(d.origin)))
  }

  function Run(w: World, steps: seq<Step>): World {
    if steps == [] then w else Next(Run(w, steps[..|steps| - 1]), steps[|steps| - 1])
  }

  ghost predicate Init(w: World) {
    && T.Init(w.t) && S.Init(w.s) && w.t.me != w.s.account.me
    && w.s.account.spender == w.t.me && w.s.account.manager == w.t.me
    && w.sources == []
  }

  // ---- What each step does ----

  /** Anything but impersonation, and landing a batch meant for the account, happens to one contract alone. */
  lemma AloneExactly(w: World, t: T.Step, s: S.Step)
    ensures Next(w, OnTimelock(t))
         == if (t.Deliver? && t.caller == w.s.account.me)
               || (t.Land? && t.promise < |w.t.outbox| && w.t.outbox[t.promise].promise.Batch?
                   && w.t.outbox[t.promise].promise.receiver == w.s.account.me)
            then w else w.(t := T.Next(w.t, t))
    ensures var v := Next(w, OnAccount(s));
      if s.Deliver? && (s.caller == w.t.me || s.caller == w.s.account.me) then v == w
      else v.t == w.t && v.s == S.Next(w.s, s)
  {
  }

  /**
   * A batch the timelock has sent to the account runs there as a batch by the timelock: all of it, landing as
   * returned, or, if the account refuses, nothing, landing as failed with its deposits back.
   */
  lemma CrossExactly(w: World, j: nat)
    requires j < |w.t.outbox| && w.t.outbox[j].promise.Batch?
    requires w.t.outbox[j].promise.receiver == w.s.account.me
    ensures var d := w.t.outbox[j]; var v := Next(w, Cross(j));
      if !d.phase.Sent? then v == w
      else
        match S.PerformAll(w.s, w.t.me, d.promise.actions)
        case Some(u) => v.s == u && v.t == w.t.(outbox := Landing(w, j, TL.Returned(None)))
        case None =>
          && v.s == w.s && v.sources == w.sources
          && v.t == w.t.(outbox := Landing(w, j, TL.Failed),
                         balance := w.t.balance + Requests.DepositSum(d.promise.actions))
  {
  }

  function Landing(w: World, j: nat, result: TL.Outcome): seq<T.Dispatch>
    requires j < |w.t.outbox|
  {
    var d := w.t.outbox[j];
    w.t.outbox[j := T.Dispatch(d.promise, d.origin, d.funder, T.Landed(result))]
  }

  /** A run is its steps one after the other, and may be split anywhere. */
  lemma {:induction false} RunExactly(w: World, a: seq<Step>, b: seq<Step>, s: Step)
    ensures Run(w, []) == w && Run(w, [s]) == Next(w, s)
    ensures Run(w, a + b) == Run(Run(w, a), b)
  {
    assert [s][..0] == [];
    if b == [] {
      assert a + b == a;
    } else {
      var n := |b| - 1;
      assert (a + b)[..|a + b| - 1] == a + b[..n];
      RunExactly(w, a, b[..n], s);
    }
  }

  /** The two contracts as they are deployed, with the timelock in both roles, are an initial state. */
  lemma DeployedIsInit(t: T.World, account: AccountId, admin: AccountId)
    requires T.Init(t) && t.me != account
    ensures Init(World(t, S.World(S.Account(account, t.me, t.me, admin, map[]), [], [], []), []))
  {
  }

  // ---- The timelock keeps both roles ----

  /** The batch hands the spender or manager role to nobody but `holder`. */
  predicate KeepsRoles(batch: seq<FunctionCall>, holder: AccountId) {
    forall c | c in batch ::
      (c.call.SetSpender? ==> c.call.spender == holder) && (c.call.SetManager? ==> c.call.manager == holder)
  }

  /** The batch the step brings to the account, if it brings one: its caller and its calls. */
  function Brought(w: World, x: Step): Option<(AccountId, seq<FunctionCall>)> {
    if !Possible(w, x) then None
    else
      match x
      case OnAccount(Deliver(caller, batch)) => Some((caller, batch))
      case Cross(j) => Some((w.t.me, w.t.outbox[j].promise.actions))
      case _ => None
  }

  /** If the step brings the account a batch it accepts, the batch takes no role from the timelock. */
  predicate RoleSafe(w: World, x: Step) {
    match Brought(w, x)
    case None => true
    case Some((caller, batch)) => S.PerformAll(w.s, caller, batch).Some? ==> KeepsRoles(batch, w.t.me)
  }

  predicate AlwaysRoleSafe(w: World, steps: seq<Step>) {
    steps == [] || (var n := |steps| - 1;
      AlwaysRoleSafe(w, steps[..n]) && RoleSafe(Run(w, steps[..n]), steps[n]))
  }

  ghost predicate Holds(a: S.Account, holder: AccountId) {
    a.spender == holder && a.manager == holder
  }

  lemma {:induction false} BatchKeepsRoles(w: S.World, caller: AccountId, batch: seq<FunctionCall>, holder: AccountId)
    requires Holds(w.account, holder) && KeepsRoles(batch, holder) && S.PerformAll(w, caller, batch).Some?
    ensures Holds(S.PerformAll(w, caller, batch).value.account, holder)
  {
    if batch != [] {
      var n := |batch| - 1;
      BatchKeepsRoles(w, caller, batch[..n], holder);
      assert batch[n] in batch;
    }
  }

  /** The holder has both roles before, between and after the calls of a batch. */
  ghost predicate HeldThroughout(w: S.World, caller: AccountId, batch: seq<FunctionCall>, holder: AccountId) {
    forall n | 0 <= n <= |batch| ::
      match S.PerformAll(w, caller, batch[..n])
      case None => true
      case Some(v) => Holds(v.account, holder)
  }

  lemma NamedInBatch(w: S.World, caller: AccountId, batch: seq<FunctionCall>, holder: AccountId, i: nat)
    requires S.PerformAll(w, caller, batch).Some? && HeldThroughout(w, caller, batch, holder) && i < |batch|
    ensures batch[i].call.SetSpender? ==> batch[i].call.spender == holder
    ensures batch[i].call.SetManager? ==> batch[i].call.manager == holder
  {
    SR.CallAccepted(w, caller, batch, i);
    var u := S.PerformAll(w, caller, batch[..i + 1]).value;
    assert Holds(u.account, holder);
  }

  lemma HeldInPrefix(w: S.World, caller: AccountId, batch: seq<FunctionCall>, holder: AccountId, n: nat)
    requires Holds(w.account, holder) && S.PerformAll(w, caller, batch).Some? && n <= |batch|
    requires KeepsRoles(batch, holder)
    ensures S.PerformAll(w, caller, batch[..n]).Some?
    ensures Holds(S.PerformAll(w, caller, batch[..n]).value.account, holder)
  {
    SR.PrefixAccepted(w, caller, batch, n);
    BatchKeepsRoles(w, caller, batch[..n], holder);
  }

  /** The condition on the calls of an accepted batch says that the roles are held at every moment of it. */
  lemma KeepsRolesIff(w: S.World, caller: AccountId, batch: seq<FunctionCall>, holder: AccountId)
    requires Holds(w.account, holder) && S.PerformAll(w, caller, batch).Some?
    ensures KeepsRoles(batch, holder) <==> HeldThroughout(w, caller, batch, holder)
  {
    if KeepsRoles(batch, holder) {
      forall n | 0 <= n <= |batch|
        ensures match S.PerformAll(w, caller, batch[..n]) case None => true case Some(v) => Holds(v.account, holder)
      {
        HeldInPrefix(w, caller, batch, holder, n);
      }
    }
    if HeldThroughout(w, caller, batch, holder) {
      forall i | 0 <= i < |batch|
        ensures batch[i].call.SetSpender? ==> batch[i].call.spender == holder
        ensures batch[i].call.SetManager? ==> batch[i].call.manager == holder
      {
        NamedInBatch(w, caller, batch, holder, i);
      }
    }
  }

  /** A batch the account refuses meets the condition, whatever it names, and changes nothing. */
  lemma RefusedIsRoleSafe(w: World, caller: AccountId, batch: seq<FunctionCall>)
    requires |w.sources| == |w.s.trace| && S.PerformAll(w.s, caller, batch).None?
    ensures var x := OnAccount(S.Deliver(caller, batch)); RoleSafe(w, x) && Next(w, x) == w
  {
  }

  /** So a stranger who tries to make itself the spender does not void the condition. */
  lemma RefusedTakeover(w: World, stranger: AccountId)
    requires |w.sources| == |w.s.trace| && stranger != w.s.account.admin && stranger != w.t.me
    ensures var batch := SR.One(SetSpender(stranger));
      var x := OnAccount(S.Deliver(stranger, batch));
      !KeepsRoles(batch, w.t.me) && RoleSafe(w, x) && Next(w, x) == w
  {
    var batch := SR.One(SetSpender(stranger));
    assert batch[0] in batch && batch[..0] == [];
    assert S.PerformAll(w.s, stranger, batch) == S.Perform(w.s, stranger, batch[0]);
    RefusedIsRoleSafe(w, stranger, batch);
  }

  // ---- What a request carries ----

  /** The most an operation can grant its key. */
  function GrantBy(k: WhitelistKey): Op -> nat {
    (op: Op) => if op.key == k && (op.Add? || op.Set? || op.Increase?) then op.amount else 0
  }

  function Within(actions: seq<FunctionCall>, f: Op -> nat): nat {
    Sum(S.BatchOps(actions), f)
  }

  predicate BatchFor(d: T.Dispatch, account: AccountId) {
    d.promise.Batch? && d.promise.receiver == account
  }

  /** What is on its way to the account. */
  function Undelivered(account: AccountId, f: Op -> nat): T.Dispatch -> nat {
    (d: T.Dispatch) => if BatchFor(d, account) && d.phase.Sent? then Within(d.promise.actions, f) else 0
  }

  /** What the account has refused. */
  function Rejected(account: AccountId, f: Op -> nat): T.Dispatch -> nat {
    (d: T.Dispatch) =>
      if BatchFor(d, account) && !d.phase.Sent? && d.phase.result.Failed? then Within(d.promise.actions, f) else 0
  }

  /** What was dispatched to the account and did not run there, or not yet. */
  function Outstanding(account: AccountId, f: Op -> nat): T.Dispatch -> nat {
    (d: T.Dispatch) =>
      if BatchFor(d, account) && (d.phase.Sent? || d.phase.result.Failed?) then Within(d.promise.actions, f) else 0
  }

  /** What the requests that were executed carried for the account. */
  function CarriedBy(account: AccountId, f: Op -> nat): T.Record -> nat {
    (r: T.Record) =>
      if r.fate.Executed? && r.request.receiver == account then Within(r.request.actions, f) else 0
  }

  /** The books never show more granted or charged than the operations named. */
  lemma {:induction false} BooksWithinTrace(trace: seq<Op>, k: WhitelistKey)
    ensures LineOf(trace, k).granted <= Sum(trace, GrantBy(k))
    ensures LineOf(trace, k).charged <= Sum(trace, ChargedBy(k))
  {
    if trace != [] {
      BooksWithinTrace(trace[..|trace| - 1], k);
    }
  }

  // ---- On the timelock, exactly what is executed is dispatched ----

  /** What is outstanding grew by exactly what was executed. */
  ghost predicate Matches(w: T.World, v: T.World, a: AccountId, f: Op -> nat) {
    Sum(v.outbox, Outstanding(a, f)) + Sum(w.history, CarriedBy(a, f))
    == Sum(w.outbox, Outstanding(a, f)) + Sum(v.history, CarriedBy(a, f))
  }

  /** A request that leaves the queue is executed with its batch on the way, or carries nothing. */
  lemma LeavingMatches(w: T.World, v: T.World, id: U64, fate: T.Fate, sent: seq<T.Dispatch>, a: AccountId, f: Op -> nat)
    requires O.LeavesWith(w, v, id, fate, sent)
    ensures Matches(w, v, a, f)
  {
    SumUpdate(w.history, id, v.history[id], CarriedBy(a, f));
    if sent == [] {
      assert v.outbox == w.outbox;
    } else {
      assert sent == [sent[0]] && v.outbox[|w.outbox|] == sent[0];
      SumAppend(w.outbox, sent[0], Outstanding(a, f));
    }
  }

  lemma PerformMatches(w: T.World, caller: AccountId, action: FunctionCall, a: AccountId, f: Op -> nat)
    requires TR.Inv(w) && T.Perform(w, caller, action).Some?
    ensures Matches(w, T.Perform(w, caller, action).value, a, f)
  {
    var e := TL.Env(w.me, caller, w.now, action.deposit);
    var h := TL.Handle(e, w.storage, action.call).value;
    var v := T.Perform(w, caller, action).value;
    TL.CallsObeyRules(e, w.storage, action.call);
    if h.effect.Enqueued? {
      SumAppend(w.history, v.history[|w.history|], CarriedBy(a, f));
    } else if !h.effect.Configured? {
      O.AbsorbLeaves(w, caller, action.deposit, h);
      LeavingMatches(w, v, h.effect.id, v.history[h.effect.id].fate, v.outbox[|w.outbox|..], a, f);
    }
  }

  lemma {:induction false} PerformAllMatches(w: T.World, caller: AccountId, batch: seq<FunctionCall>,
                                             a: AccountId, f: Op -> nat)
    requires TR.Inv(w) && T.Affordable(batch) && T.PerformAll(w, caller, batch).Some?
    ensures Matches(w, T.PerformAll(w, caller, batch).value, a, f)
  {
    if batch != [] {
      var n := |batch| - 1;
      PerformAllMatches(w, caller, batch[..n], a, f);
      TR.PerformAllKeeps(w, caller, batch[..n]);
      PerformMatches(T.PerformAll(w, caller, batch[..n]).value, caller, batch[n], a, f);
    }
  }

  /** Landing takes a batch off what is outstanding, unless it is refused. */
  lemma SettleDelivers(w: T.World, j: nat, result: TL.Outcome, a: AccountId, f: Op -> nat)
    requires j < |w.outbox| && w.outbox[j].phase.Sent?
    ensures Sum(T.Settle(w, j, result).outbox, Outstanding(a, f))
            + (if result.Failed? then 0 else Outstanding(a, f)(w.outbox[j]))
         == Sum(w.outbox, Outstanding(a, f))
  {
    SumUpdate(w.outbox, j, T.Settle(w, j, result).outbox[j], Outstanding(a, f));
  }

  /** Neither a vote nor a refund is an operation of the account. */
  lemma FollowUpCarriesNothing(cb: TL.Callback, result: TL.Outcome)
    ensures var next := TL.FollowUp(cb, result);
      next.Some? && next.value.Batch? ==> S.BatchOps(next.value.actions) == []
  {
    match result
    case Returned(Some(proposal)) =>
      var actions := TL.Vote(cb, proposal).actions;
      assert actions[..0] == [];
    case Returned(None) =>
    case Failed =>
  }

  lemma CallBackMatches(w: T.World, j: nat, a: AccountId, f: Op -> nat)
    requires j < |w.outbox| && w.outbox[j].promise.Batch? && w.outbox[j].promise.callback.Some?
    requires w.outbox[j].phase.Landed?
    ensures Matches(w, T.CallBack(w, j), a, f)
  {
    var d := w.outbox[j];
    E.CallBackSum(w, j, Outstanding(a, f));
    FollowUpCarriesNothing(d.promise.callback.value, d.phase.result);
  }

  lemma SettleMatches(w: T.World, j: nat, result: TL.Outcome, a: AccountId, f: Op -> nat)
    requires j < |w.outbox| && w.outbox[j].phase.Sent? && !BatchFor(w.outbox[j], a)
    ensures Matches(w, T.Settle(w, j, result), a, f)
  {
    SettleDelivers(w, j, result, a, f);
  }

  lemma SelfRunMatches(w: T.World, j: nat, a: AccountId, f: Op -> nat)
    requires TR.Inv(w) && j < |w.outbox| && w.outbox[j].phase.Sent? && !BatchFor(w.outbox[j], a)
    requires w.outbox[j].promise.Batch? && T.PerformAll(w, w.me, w.outbox[j].promise.actions).Some?
    ensures var u := T.PerformAll(w, w.me, w.outbox[j].promise.actions).value;
      j < |u.outbox| && u.outbox[j] == w.outbox[j] && Matches(w, T.Settle(u, j, TL.Returned(None)), a, f)
  {
    var actions := w.outbox[j].promise.actions;
    var u := T.PerformAll(w, w.me, actions).value;
    TR.OutboxAffordable(w, j);
    PerformAllMatches(w, w.me, actions, a, f);
    T.PerformAllShape(w, w.me, actions);
    assert u.outbox[j] == w.outbox[j];
    SettleMatches(u, j, TL.Returned(None), a, f);
  }

  lemma LandMatches(w: T.World, j: nat, result: TL.Outcome, a: AccountId, f: Op -> nat)
    requires TR.Inv(w) && j < |w.outbox| && w.outbox[j].phase.Sent? && !BatchFor(w.outbox[j], a)
    ensures Matches(w, T.Next(w, T.Land(j, result)), a, f)
  {
    var p := w.outbox[j].promise;
    if p.Batch? && p.receiver == w.me && T.PerformAll(w, w.me, p.actions).Some? {
      SelfRunMatches(w, j, a, f);
    } else {
      SettleMatches(w, j, if p.Batch? && p.receiver == w.me then TL.Failed else result, a, f);
    }
  }

  lemma {:induction false} NextMatches(w: T.World, x: T.Step, a: AccountId, f: Op -> nat)
    requires TR.Inv(w)
    requires x.Land? && x.promise < |w.outbox| ==> !BatchFor(w.outbox[x.promise], a)
    ensures Matches(w, T.Next(w, x), a, f)
  {
    match x
    case Deliver(caller, batch) =>
      if T.Affordable(batch) && T.PerformAll(w, caller, batch).Some? {
        PerformAllMatches(w, caller, batch, a, f);
      }
    case Tick(_) =>
    case Land(j, result) =>
      if j < |w.outbox| && w.outbox[j].phase.Sent? {
        LandMatches(w, j, result, a, f);
      }
    case Resume(j) =>
      if T.Next(w, x) != w {
        CallBackMatches(w, j, a, f);
      }
  }

  // ---- The joint invariant ----

  /** The operation is one that an executed request, authorised and delayed, named for the account. */
  ghost predicate Authorised(op: Op, source: Option<U64>, history: seq<T.Record>, account: AccountId) {
    && source.Some? && source.value < |history|
    && var r := history[source.value];
       && TR.Waited(r) && r.request.receiver == account && op in S.BatchOps(r.request.actions)
  }

  ghost predicate Sourced(w: World) {
    && |w.sources| == |w.s.trace|
    && forall i | 0 <= i < |w.s.trace| && !w.s.trace[i].Restore? ::
         Authorised(w.s.trace[i], w.sources[i], w.t.history, w.s.account.me)
  }

  ghost predicate Inv(w: World) {
    && TR.Inv(w.t) && S.Inv(w.s) && w.t.me != w.s.account.me
    && Holds(w.s.account, w.t.me)
    && Sourced(w)
  }

  lemma TimelockStepKeeps(w: World, x: T.Step)
    requires Inv(w)
    ensures Inv(w.(t := T.Next(w.t, x)))
  {
    TR.NextKeeps(w.t, x);
    T.NextShape(w.t, x);
    TR.NextFinal(w.t, x);
  }

  /** Nobody else can make the account do more than settle transfers and reassign the admin. */
  lemma OutsidersChangeNothing(w: S.World, caller: AccountId, batch: seq<FunctionCall>, holder: AccountId)
    requires Holds(w.account, holder) && KeepsRoles(batch, holder) && caller != holder
    requires S.PerformAll(w, caller, batch).Some?
    ensures var v := S.PerformAll(w, caller, batch).value;
      Holds(v.account, holder) && v.trace == w.trace && v.account.me == w.account.me
  {
    BatchKeepsRoles(w, caller, batch, holder);
    SR.AdminOnlyAssigns(w, caller, batch);
    SR.PerformAllShape(w, caller, batch);
  }

  /** A step on the account alone appends at most one rollback to its trace, and leaves the roles. */
  lemma AccountStepShape(w: World, x: S.Step)
    requires Inv(w) && Possible(w, OnAccount(x)) && RoleSafe(w, OnAccount(x))
    ensures var v := S.Next(w.s, x);
      && v.account.me == w.s.account.me && Holds(v.account, w.t.me)
      && (v.trace == w.s.trace
          || (|v.trace| == |w.s.trace| + 1 && v.trace == w.s.trace + [v.trace[|w.s.trace|]]
              && v.trace[|w.s.trace|].Restore?))
  {
    if x.Deliver? && S.PerformAll(w.s, x.caller, x.batch).Some? {
      OutsidersChangeNothing(w.s, x.caller, x.batch, w.t.me);
    }
  }

  lemma AccountStepKeeps(w: World, x: S.Step)
    requires Inv(w) && Possible(w, OnAccount(x)) && RoleSafe(w, OnAccount(x))
    ensures Inv(Next(w, OnAccount(x)))
  {
    S.NextKeeps(w.s, x);
    AccountStepShape(w, x);
  }

  /** A batch that reaches the account is the one of an executed request, or carries no operation at all. */
  lemma CrossOrigin(w: T.World, j: nat, account: AccountId)
    requires TR.Inv(w) && j < |w.outbox| && w.outbox[j].promise.Batch? && w.outbox[j].promise.receiver == account
    ensures var d := w.outbox[j];
      forall op | op in S.BatchOps(d.promise.actions) :: Authorised(op, Some(d.origin), w.history, account)
  {
    var d := w.outbox[j];
    assert O.DispatchOk(w.outbox, w.history, j);
    var r := w.history[d.origin];
    assert O.Dispatched(r, d.origin, w.outbox);
    assert Q.RecordOk(w.history, w.now, w.events, d.origin);
    if O.IsFollowUp(d, j, r, w.outbox) {
      var main := w.outbox[r.fate.out];
      assert O.DispatchOk(w.outbox, w.history, r.fate.out);
      FollowUpCarriesNothing(main.promise.callback.value, main.phase.result);
    }
  }

  lemma {:induction false} CrossSourced(w: World, j: nat)
    requires Inv(w) && Possible(w, Cross(j)) && S.PerformAll(w.s, w.t.me, w.t.outbox[j].promise.actions).Some?
    ensures Sourced(Next(w, Cross(j)))
  {
    var d := w.t.outbox[j];
    var v := Next(w, Cross(j));
    SR.PerformAllShape(w.s, w.t.me, d.promise.actions);
    CrossOrigin(w.t, j, w.s.account.me);
    var more := S.BatchOps(d.promise.actions);
    forall i | 0 <= i < |v.s.trace| && !v.s.trace[i].Restore?
      ensures Authorised(v.s.trace[i], v.sources[i], v.t.history, v.s.account.me)
    {
      if i < |w.s.trace| {
        assert w.s.trace[i] == v.s.trace[i];
      } else {
        assert v.s.trace[i] == more[i - |w.s.trace|];
        assert v.s.trace[i] in more;
      }
    }
  }

  lemma CrossKeeps(w: World, j: nat)
    requires Inv(w) && Possible(w, Cross(j)) && RoleSafe(w, Cross(j))
    ensures Inv(Next(w, Cross(j)))
  {
    var d := w.t.outbox[j];
    var v := Next(w, Cross(j));
    var ran := S.PerformAll(w.s, w.t.me, d.promise.actions);
    TR.SettleKeeps(w.t, j, if ran.Some? then TL.Returned(None) else TL.Failed);
    if ran.Some? {
      S.PerformAllKeeps(w.s, w.t.me, d.promise.actions);
      SR.PerformAllShape(w.s, w.t.me, d.promise.actions);
      BatchKeepsRoles(w.s, w.t.me, d.promise.actions, w.t.me);
      CrossSourced(w, j);
    }
  }

  lemma {:induction false} NextKeeps(w: World, x: Step)
    requires Inv(w) && RoleSafe(w, x)
    ensures Inv(Next(w, x))
  {
    if Possible(w, x) {
      match x
      case OnTimelock(t) => TimelockStepKeeps(w, t);
      case OnAccount(s) => AccountStepKeeps(w, s);
      case Cross(j) => CrossKeeps(w, j);
    }
  }

  lemma {:induction false} RunKeeps(w: World, steps: seq<Step>)
    requires Inv(w) && AlwaysRoleSafe(w, steps)
    ensures Inv(Run(w, steps))
  {
    if steps != [] {
      var n := |steps| - 1;
      RunKeeps(w, steps[..n]);
      NextKeeps(Run(w, steps[..n]), steps[n]);
    }
  }

  lemma {:induction false} Reachable(w: World, steps: seq<Step>)
    requires Init(w) && AlwaysRoleSafe(w, steps)
    ensures Inv(Run(w, steps))
  {
    S.InitInv(w.s);
    TR.Reachable(w.t, []);
    RunKeeps(w, steps);
  }

  // ---- The condition on the roles, read in time ----

  /** Between any two calls the account runs in this step, the timelock holds both roles. */
  ghost predicate HeldDuring(w: World, x: Step) {
    && Holds(w.s.account, w.t.me)
    && match Brought(w, x)
       case None => true
       case Some((caller, batch)) =>
         S.PerformAll(w.s, caller, batch).Some? ==> HeldThroughout(w.s, caller, batch, w.t.me)
  }

  ghost predicate AlwaysHeld(w: World, steps: seq<Step>) {
    steps == [] || (var n := |steps| - 1;
      AlwaysHeld(w, steps[..n]) && HeldDuring(Run(w, steps[..n]), steps[n]))
  }

  lemma RoleSafeStepIff(w: World, x: Step)
    requires Holds(w.s.account, w.t.me)
    ensures RoleSafe(w, x) <==> HeldDuring(w, x)
  {
    match Brought(w, x)
    case None =>
    case Some((caller, batch)) =>
      if S.PerformAll(w.s, caller, batch).Some? {
        KeepsRolesIff(w.s, caller, batch, w.t.me);
      }
  }

  lemma {:induction false} RoleSafeRunIff(w: World, steps: seq<Step>)
    requires Inv(w)
    ensures AlwaysRoleSafe(w, steps) <==> AlwaysHeld(w, steps)
  {
    if steps != [] {
      var n := |steps| - 1;
      RoleSafeRunIff(w, steps[..n]);
      if AlwaysRoleSafe(w, steps[..n]) {
        RunKeeps(w, steps[..n]);
        RoleSafeStepIff(Run(w, steps[..n]), steps[n]);
      }
    }
  }

  /** The condition of the results below says exactly that the timelock holds both roles at every moment. */
  lemma RoleSafeIff(w0: World, steps: seq<Step>)
    requires Init(w0)
    ensures AlwaysRoleSafe(w0, steps) <==> AlwaysHeld(w0, steps)
  {
    Reachable(w0, []);
    RoleSafeRunIff(w0, steps);
  }

  // ---- Exact accounting between the two contracts ----

  /** A measure that does not count rollbacks. */
  ghost predicate CountsNoRestore(f: Op -> nat) {
    forall op: Op | op.Restore? :: f(op) == 0
  }

  /** All that executed requests carried was performed by the account, is on its way, or was refused. */
  ghost predicate Accounted(w: World, f: Op -> nat) {
    Sum(w.s.trace, f) + Sum(w.t.outbox, Outstanding(w.s.account.me, f))
    == Sum(w.t.history, CarriedBy(w.s.account.me, f))
  }

  lemma AccountStepAccounts(w: World, x: S.Step, f: Op -> nat)
    requires Inv(w) && Possible(w, OnAccount(x)) && RoleSafe(w, OnAccount(x))
    requires Accounted(w, f) && CountsNoRestore(f)
    ensures Accounted(Next(w, OnAccount(x)), f)
  {
    AccountStepShape(w, x);
    var v := S.Next(w.s, x);
    if v.trace != w.s.trace {
      SumAppend(w.s.trace, v.trace[|w.s.trace|], f);
    }
  }

  lemma {:induction false} CrossAccounts(w: World, j: nat, f: Op -> nat)
    requires Possible(w, Cross(j)) && Accounted(w, f)
    ensures Accounted(Next(w, Cross(j)), f)
  {
    var actions := w.t.outbox[j].promise.actions;
    var ran := S.PerformAll(w.s, w.t.me, actions);
    SettleDelivers(w.t, j, if ran.Some? then TL.Returned(None) else TL.Failed, w.s.account.me, f);
    if ran.Some? {
      SR.PerformAllShape(w.s, w.t.me, actions);
      SumConcat(w.s.trace, S.BatchOps(actions), f);
    }
  }

  lemma {:induction false} NextAccounts(w: World, x: Step, f: Op -> nat)
    requires Inv(w) && RoleSafe(w, x) && Accounted(w, f) && CountsNoRestore(f)
    ensures Accounted(Next(w, x), f)
  {
    if Possible(w, x) {
      match x
      case OnTimelock(t) => NextMatches(w.t, t, w.s.account.me, f);
      case OnAccount(s) => AccountStepAccounts(w, s, f);
      case Cross(j) => CrossAccounts(w, j, f);
    }
  }

  lemma {:induction false} RunAccounts(w: World, steps: seq<Step>, f: Op -> nat)
    requires Inv(w) && AlwaysRoleSafe(w, steps) && Accounted(w, f) && CountsNoRestore(f)
    ensures Accounted(Run(w, steps), f)
  {
    if steps != [] {
      var n := |steps| - 1;
      RunAccounts(w, steps[..n], f);
      RunKeeps(w, steps[..n]);
      NextAccounts(Run(w, steps[..n]), steps[n], f);
    }
  }

  lemma {:induction false} ReachableAccounts(w: World, steps: seq<Step>, f: Op -> nat)
    requires Init(w) && AlwaysRoleSafe(w, steps) && CountsNoRestore(f)
    ensures Accounted(Run(w, steps), f)
  {
    Reachable(w, []);
    RunAccounts(w, steps, f);
  }

  // ---- The main results ----

  /**
   * By any measure, what executed requests carried for the account is exactly what the account has performed,
   * plus what is on its way to it, plus what it refused: nothing is lost, doubled, or done on other authority.
   */
  lemma {:induction false} ExecutedWorkAccounted(w0: World, steps: seq<Step>, f: Op -> nat)
    requires Init(w0) && AlwaysRoleSafe(w0, steps) && CountsNoRestore(f)
    ensures var w := Run(w0, steps); var account := w.s.account.me;
      Sum(w.t.history, CarriedBy(account, f))
      == Sum(w.s.trace, f) + Sum(w.t.outbox, Undelivered(account, f)) + Sum(w.t.outbox, Rejected(account, f))
  {
    ReachableAccounts(w0, steps, f);
    var w := Run(w0, steps);
    var account := w.s.account.me;
    SumSplit(w.t.outbox, Outstanding(account, f), Undelivered(account, f), Rejected(account, f));
  }

  /**
   * Whatever the interleaving, all that was or is being paid to a key, and all it could still be paid,
   * was granted by requests the timelock executed.
   */
  lemma {:induction false} PaymentsWithinExecutedGrants(w0: World, steps: seq<Step>, k: WhitelistKey)
    requires Init(w0) && AlwaysRoleSafe(w0, steps)
    ensures var w := Run(w0, steps);
      S.PaidOf(w.s, k) + S.InFlightOf(w.s, k) + Allowance(w.s.account.whitelist, k)
      <= Sum(w.t.history, CarriedBy(w.s.account.me, GrantBy(k)))
  {
    Reachable(w0, steps);
    var w := Run(w0, steps);
    ReachableAccounts(w0, steps, GrantBy(k));
    BooksWithinTrace(w.s.trace, k);
    S.LedgerExact(w.s, k);
  }

  /** Nothing is sent to a key, even in vain, beyond the transfers to it in executed requests: none runs twice. */
  lemma {:induction false} TransfersWithinExecutedTransfers(w0: World, steps: seq<Step>, k: WhitelistKey)
    requires Init(w0) && AlwaysRoleSafe(w0, steps)
    ensures var w := Run(w0, steps);
      Sum(w.s.receipts, S.Charged(k)) <= Sum(w.t.history, CarriedBy(w.s.account.me, ChargedBy(k)))
  {
    Reachable(w0, steps);
    var w := Run(w0, steps);
    ReachableAccounts(w0, steps, ChargedBy(k));
    assert S.Agrees(w.s, k);
    BooksWithinTrace(w.s.trace, k);
  }

  /**
   * Every grant, revocation and transfer the account ever performed was named by a request that the
   * timelock's DAO of the time scheduled and that waited out the delay in force at that moment.
   */
  lemma {:induction false} EveryOperationAuthorised(w0: World, steps: seq<Step>, i: nat)
    requires Init(w0) && AlwaysRoleSafe(w0, steps)
    requires var w := Run(w0, steps); i < |w.s.trace| && !w.s.trace[i].Restore?
    ensures var w := Run(w0, steps);
      i < |w.sources| && Authorised(w.s.trace[i], w.sources[i], w.t.history, w.s.account.me)
  {
    Reachable(w0, steps);
  }

  lemma NextGrows(w: World, x: Step)
    ensures T.Grown(w.t, Next(w, x).t)
  {
    if Possible(w, x) {
      match x
      case OnTimelock(t) => T.NextShape(w.t, t);
      case OnAccount(_) =>
      case Cross(j) =>
        T.SettleShape(w.t, j, TL.Returned(None));
        T.SettleShape(w.t, j, TL.Failed);
    }
  }

  lemma {:induction false} RunGrows(w: World, steps: seq<Step>)
    ensures T.Grown(w.t, Run(w, steps).t)
  {
    if steps != [] {
      RunGrows(w, steps[..|steps| - 1]);
      NextGrows(Run(w, steps[..|steps| - 1]), steps[|steps| - 1]);
    }
  }

  /**
   * A batch runs on the account at most once, whatever happens later; a refused one leaves the account
   * untouched and its deposits back on the timelock.
   */
  lemma {:induction false} DeliveredOnce(w: World, j: nat, steps: seq<Step>)
    requires Possible(w, Cross(j))
    ensures var v := Next(w, Cross(j)); var d := w.t.outbox[j];
      && !Possible(Run(v, steps), Cross(j))
      && (if S.PerformAll(w.s, w.t.me, d.promise.actions).Some?
          then v.t.outbox[j].phase == T.Landed(TL.Returned(None)) && v.t.balance == w.t.balance
          else v.t.outbox[j].phase == T.Landed(TL.Failed) && v.s == w.s
               && v.t.balance == w.t.balance + Requests.DepositSum(d.promise.actions))
  {
    var v := Next(w, Cross(j));
    RunGrows(v, steps);
    assert !v.t.outbox[j].phase.Sent?;
  }
}
