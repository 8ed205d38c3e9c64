/** Who can change the configuration of a timelock. */
module TimelockAdmin {
  import opened Base
  import opened Calls
  import opened TimelockWorld
  import opened TimelockQueue
  import opened TimelockOutbox
  import opened TimelockRuns

  /** The configured part of the storage. */
  datatype Config = Config(dao: AccountId, admin: AccountId, guardians: set<AccountId>, delay: U64)

  function ConfigOf(w: World): Config {
    Config(w.storage.dao, w.storage.admin, w.storage.guardians, w.storage.delay)
  }

  predicate IsSetter(call: Call) {
    call.SetDao? || call.SetAdmin? || call.SetGuardians? || call.SetDelay?
  }

  /** A call changes the configuration only if it is a setter called by the admin. */
  lemma OnlyAdminSets(w: World, caller: AccountId, action: FunctionCall)
    requires Perform(w, caller, action).Some?
    requires caller != w.storage.admin || !IsSetter(action.call)
    ensures ConfigOf(Perform(w, caller, action).value) == ConfigOf(w)
  {
  }

  lemma {:induction false} OnlyAdminSetsAll(w: World, caller: AccountId, batch: seq<FunctionCall>)
    requires PerformAll(w, caller, batch).Some?
    requires caller != w.storage.admin || forall c | c in batch :: !IsSetter(c.call)
    ensures ConfigOf(PerformAll(w, caller, batch).value) == ConfigOf(w)
  {
    if batch != [] {
      var n := |batch| - 1;
      OnlyAdminSetsAll(w, caller, batch[..n]);
      OnlyAdminSets(PerformAll(w, caller, batch[..n]).value, caller, batch[n]);
    }
  }

  /** The configuration after one setter; other calls leave it alone. */
  function Configure(c: Config, call: Call): Config {
    match call
    case SetDao(dao) => c.(dao := dao)
    case SetAdmin(admin) => c.(admin := admin)
    case SetGuardians(guardians) => c.(guardians := set g | g in guardians)
    case SetDelay(delay) => c.(delay := delay)
    case _ => c
  }

  function ConfigureAll(c: Config, batch: seq<FunctionCall>): Config {
    if batch == [] then c else Configure(ConfigureAll(c, batch[..|batch| - 1]), batch[|batch| - 1].call)
  }

  lemma SetsCall(w: World, caller: AccountId, action: FunctionCall)
    requires Perform(w, caller, action).Some?
    ensures ConfigOf(Perform(w, caller, action).value) == Configure(ConfigOf(w), action.call)
    ensures IsSetter(action.call) ==> caller == w.storage.admin
    ensures action.call.SetDelay? ==> action.call.delay <= 2_592_000_000_000_000
  {
  }

  /**
   * An accepted batch leaves the configuration its setters name, in order; it holds a setter only if the
   * admin sent it, and none of them sets a delay beyond 30 days.
   */
  lemma {:induction false} SetsExactly(w: World, caller: AccountId, batch: seq<FunctionCall>)
    requires PerformAll(w, caller, batch).Some?
    ensures ConfigOf(PerformAll(w, caller, batch).value) == ConfigureAll(ConfigOf(w), batch)
    ensures forall c | c in batch && IsSetter(c.call) :: caller == w.storage.admin
    ensures forall c | c in batch && c.call.SetDelay? :: c.call.delay <= 2_592_000_000_000_000
  {
    if batch != [] {
      var n := |batch| - 1;
      SetsExactly(w, caller, batch[..n]);
      SetsCall(PerformAll(w, caller, batch[..n]).value, caller, batch[n]);
      assert batch == batch[..n] + [batch[n]];
      if caller != w.storage.admin {
        OnlyAdminSetsAll(w, caller, batch[..n]);
      }
    }
  }

  /** The step lands a batch that the timelock sent to itself for an executed request naming a setter. */
  ghost predicate ByOwnRequest(w: World, s: Step) {
    && s.Land? && s.promise < |w.outbox|
    && var d := w.outbox[s.promise];
       && d.promise.Batch? && d.promise.receiver == w.me
       && d.origin < |w.history|
       && var r := w.history[d.origin];
          && Waited(r) && r.fate.at <= w.now
          && r.request.receiver == w.me && d.promise.actions == r.request.actions
          && exists c | c in r.request.actions :: IsSetter(c.call)
  }

  /** The promises a callback sends name no setter. */
  lemma FollowUpSetsNothing(w: World, j: nat)
    requires Inv(w) && j < |w.outbox| && w.outbox[j].promise.Batch? && w.outbox[j].origin < |w.history|
    requires IsFollowUp(w.outbox[j], j, w.history[w.outbox[j].origin], w.outbox)
    ensures forall c | c in w.outbox[j].promise.actions :: !IsSetter(c.call)
  {
    assert DispatchOk(w.outbox, w.history, w.history[w.outbox[j].origin].fate.out);
  }

  /** A batch in the outbox that names a setter is the one of an executed request, never a vote. */
  lemma SetterBatchOrigin(w: World, j: nat)
    requires Inv(w) && j < |w.outbox| && w.outbox[j].promise.Batch?
    requires exists c | c in w.outbox[j].promise.actions :: IsSetter(c.call)
    ensures w.outbox[j].origin < |w.history|
    ensures var d := w.outbox[j]; var r := w.history[d.origin];
      && Waited(r) && r.fate.at <= w.now
      && d.promise.receiver == r.request.receiver && d.promise.actions == r.request.actions
  {
    var d := w.outbox[j];
    assert DispatchOk(w.outbox, w.history, j);
    var r := w.history[d.origin];
    assert Dispatched(r, d.origin, w.outbox);
    assert RecordOk(w.history, w.now, w.events, d.origin);
    if IsFollowUp(d, j, r, w.outbox) {
      FollowUpSetsNothing(w, j);
      assert false;
    }
  }

  lemma ConfigChange(w: World, s: Step)
    requires Inv(w) && w.storage.admin == w.me
    requires ConfigOf(Next(w, s)) != ConfigOf(w)
    ensures ByOwnRequest(w, s)
  {
    if s.Deliver? {
      if s.caller != w.me && PerformAll(w, s.caller, s.batch).Some? {
        OnlyAdminSetsAll(w, s.caller, s.batch);
      }
    } else if s.Land? {
      var actions := w.outbox[s.promise].promise.actions;
      if forall c | c in actions :: !IsSetter(c.call) {
        OnlyAdminSetsAll(w, w.me, actions);
      } else {
        SetterBatchOrigin(w, s.promise);
      }
    }
  }

  /**
   * A self-administered timelock: as long as it is its own admin, every change of its DAO, admin,
   * guardians or delay comes from a request its DAO of the time scheduled and that waited out its delay.
   */
  lemma SelfAdministered(w0: World, steps: seq<Step>, n: nat)
    requires Init(w0) && n < |steps|
    requires forall k | 0 <= k <= n :: Run(w0, steps[..k]).storage.admin == w0.me
    requires ConfigOf(Run(w0, steps[..n + 1])) != ConfigOf(Run(w0, steps[..n]))
    ensures ByOwnRequest(Run(w0, steps[..n]), steps[n])
  {
    Reachable(w0, steps[..n]);
    RunGrows(w0, steps[..n]);
    assert steps[..n + 1][..n] == steps[..n];
    assert Run(w0, steps[..n]).storage.admin == w0.me;
    ConfigChange(Run(w0, steps[..n]), steps[n]);
  }
}
