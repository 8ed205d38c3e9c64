/** The log of answers: every closed proposal callback is logged exactly once, as what it was. */
module TimelockAnswers {
  import opened Base
  import opened Calls
  import opened Timelock
  import opened TimelockWorld
  import opened TimelockQueue
  import opened TimelockOutbox
  import opened TimelockEscrow
  import opened TimelockRuns

  // ---- By any measure, the log of answers is what the closed callbacks met ----

  /** A measure of the two answer events alone. */
  ghost predicate CountsAnswers(weight: Event -> nat) {
    forall e: Event | !e.ApproveEvent? && !e.FailedEvent? :: weight(e) == 0
  }

  /** What a callback with this result has to log. */
  function AnswerWeight(cb: Callback, result: Outcome, weight: Event -> nat): nat {
    match result
    case Returned(None) => 0
    case Returned(Some(proposal)) => weight(ApproveEvent(cb.id, proposal))
    case Failed => weight(FailedEvent(cb.id, cb.funder, cb.bond))
  }

  function Given(weight: Event -> nat): Dispatch -> nat {
    (d: Dispatch) =>
      if d.promise.Batch? && d.promise.callback.Some? && d.phase.Closed?
      then AnswerWeight(d.promise.callback.value, d.phase.result, weight) else 0
  }

  ghost predicate Answered(w: World, weight: Event -> nat) {
    Sum(w.events, weight) == Sum(w.outbox, Given(weight))
  }

  /** A call logs no answer, and what it sends is not closed. */
  lemma AbsorbAnswers(w: World, caller: AccountId, attached: U128, h: Handled, weight: Event -> nat)
    requires Answered(w, weight) && CountsAnswers(weight)
    ensures Answered(Absorb(w, caller, attached, h), weight)
  {
    var v := Absorb(w, caller, attached, h);
    AbsorbSends(w, caller, attached, h);
    var log, sent := EventsOf(h.effect), v.outbox[|w.outbox|..];
    SumZero(log, weight);
    SumConcat(w.events, log, weight);
    SumZero(sent, Given(weight));
    SumConcat(w.outbox, sent, Given(weight));
  }

  lemma AbsorbSends(w: World, caller: AccountId, attached: U128, h: Handled)
    ensures var v := Absorb(w, caller, attached, h);
      && |w.outbox| <= |v.outbox| && v.outbox == w.outbox + v.outbox[|w.outbox|..]
      && forall d | d in v.outbox[|w.outbox|..] :: d.phase.Sent?
  {
  }

  lemma {:induction false} PerformAllAnswers(w: World, caller: AccountId, batch: seq<FunctionCall>,
                                             weight: Event -> nat)
    requires Answered(w, weight) && CountsAnswers(weight) && PerformAll(w, caller, batch).Some?
    ensures Answered(PerformAll(w, caller, batch).value, weight)
  {
    if batch != [] {
      var n := |batch| - 1;
      PerformAllAnswers(w, caller, batch[..n], weight);
      var u := PerformAll(w, caller, batch[..n]).value;
      var h := Handle(Env(u.me, caller, u.now, batch[n].deposit), u.storage, batch[n].call).value;
      AbsorbAnswers(u, caller, batch[n].deposit, h, weight);
    }
  }

  lemma SettleAnswers(w: World, j: nat, result: Outcome, weight: Event -> nat)
    requires Answered(w, weight) && j < |w.outbox| && w.outbox[j].phase.Sent?
    ensures Answered(Settle(w, j, result), weight)
  {
    SumUpdate(w.outbox, j, Settle(w, j, result).outbox[j], Given(weight));
  }

  lemma CallBackAnswers(w: World, j: nat, weight: Event -> nat)
    requires Answered(w, weight)
    requires j < |w.outbox| && w.outbox[j].promise.Batch? && w.outbox[j].promise.callback.Some?
    requires w.outbox[j].phase.Landed?
    ensures Answered(CallBack(w, j), weight)
  {
    var d := w.outbox[j];
    CallBackSum(w, j, Given(weight));
    var log := FollowUpEvents(d.promise.callback.value, d.phase.result);
    SumConcat(w.events, log, weight);
    if log != [] {
      SumOne(log[0], weight);
    }
  }

  lemma LandAnswers(w: World, j: nat, result: Outcome, weight: Event -> nat)
    requires Answered(w, weight) && CountsAnswers(weight) && j < |w.outbox| && w.outbox[j].phase.Sent?
    ensures Answered(Next(w, Land(j, result)), weight)
  {
    var p := w.outbox[j].promise;
    if p.Batch? && p.receiver == w.me && PerformAll(w, w.me, p.actions).Some? {
      PerformAllAnswers(w, w.me, p.actions, weight);
      PerformAllShape(w, w.me, p.actions);
      SettleAnswers(PerformAll(w, w.me, p.actions).value, j, Returned(None), weight);
    } else {
      SettleAnswers(w, j, if p.Batch? && p.receiver == w.me then Failed else result, weight);
    }
  }

  lemma NextAnswers(w: World, s: Step, weight: Event -> nat)
    requires Answered(w, weight) && CountsAnswers(weight)
    ensures Answered(Next(w, s), weight)
  {
    match s
    case Deliver(caller, batch) =>
      if PerformAll(w, caller, batch).Some? {
        PerformAllAnswers(w, caller, batch, weight);
      }
    case Tick(_) =>
    case Land(j, result) =>
      if j < |w.outbox| && w.outbox[j].phase.Sent? {
        LandAnswers(w, j, result, weight);
      }
    case Resume(j) =>
      if Next(w, s) != w {
        CallBackAnswers(w, j, weight);
      }
  }

  lemma {:induction false} RunAnswers(w: World, steps: seq<Step>, weight: Event -> nat)
    requires Answered(w, weight) && CountsAnswers(weight)
    ensures Answered(Run(w, steps), weight)
  {
    if steps != [] {
      RunAnswers(w, steps[..|steps| - 1], weight);
      NextAnswers(Run(w, steps[..|steps| - 1]), steps[|steps| - 1], weight);
    }
  }

  // ---- Each answer, read off the schedule record ----

  /** A batch with a callback is the one of an executed proposal request, and knows its id, funder and bond. */
  lemma CallbackOrigin(w: World, j: nat)
    requires Inv(w) && j < |w.outbox| && w.outbox[j].promise.Batch? && w.outbox[j].promise.callback.Some?
    ensures var d := w.outbox[j]; var cb := d.promise.callback.value;
      && d.origin < |w.history|
      && var r := w.history[d.origin];
         && r.fate.Executed? && r.fate.out == j && r.request.approve.Some?
         && cb.id == d.origin && cb.funder == r.scheduler && cb.bond == r.attached
  {
    var d := w.outbox[j];
    assert DispatchOk(w.outbox, w.history, j);
    assert Dispatched(w.history[d.origin], d.origin, w.outbox);
    assert RecordOk(w.history, w.now, w.events, d.origin);
  }

  /** The answer of request i is in: its proposal batch was executed, landed with this result, and was called back. */
  ghost predicate ClosedAs(w: World, i: nat, result: Outcome) {
    && i < |w.history| && w.history[i].fate.Executed? && w.history[i].request.approve.Some?
    && w.history[i].fate.out < |w.outbox|
    && var phase := w.outbox[w.history[i].fate.out].phase;
       phase.Closed? && phase.result == result
  }

  function Is(e: Event): Event -> nat {
    (x: Event) => if x == e then 1 else 0
  }

  /** Only the callback of request i logs an answer for i. */
  lemma OtherCallbacks(w: World, e: Event, k: nat)
    requires Inv(w) && (e.ApproveEvent? || e.FailedEvent?) && k < |w.outbox|
    requires !(e.id < |w.history| && w.history[e.id].fate.Executed? && w.history[e.id].fate.out == k)
    ensures Given(Is(e))(w.outbox[k]) == 0
  {
    if w.outbox[k].promise.Batch? && w.outbox[k].promise.callback.Some? {
      CallbackOrigin(w, k);
    }
  }

  /** What the main batch of request i gives for event e. */
  function GivenBy(w: World, i: nat, e: Event): nat {
    if i < |w.history| && w.history[i].fate.Executed? && w.history[i].fate.out < |w.outbox|
    then Given(Is(e))(w.outbox[w.history[i].fate.out]) else 0
  }

  lemma AnswersOf(w: World, e: Event)
    requires Inv(w) && (e.ApproveEvent? || e.FailedEvent?)
    ensures Sum(w.outbox, Given(Is(e))) == GivenBy(w, e.id, e)
  {
    forall k | 0 <= k < |w.outbox|
               && !(e.id < |w.history| && w.history[e.id].fate.Executed? && w.history[e.id].fate.out == k)
      ensures Given(Is(e))(w.outbox[k]) == 0
    {
      OtherCallbacks(w, e, k);
    }
    if e.id < |w.history| && w.history[e.id].fate.Executed? && w.history[e.id].fate.out < |w.outbox| {
      SumSingle(w.outbox, w.history[e.id].fate.out, Given(Is(e)));
    } else {
      forall d | d in w.outbox ensures Given(Is(e))(d) == 0 {
        var k :| 0 <= k < |w.outbox| && w.outbox[k] == d;
      }
      SumZero(w.outbox, Given(Is(e)));
    }
  }

  /** The main batch of an executed request has a callback exactly when the request is a proposal. */
  lemma MainCallback(w: World, i: nat)
    requires Inv(w) && i < |w.history| && w.history[i].fate.Executed?
    ensures var r := w.history[i];
      && r.fate.out < |w.outbox|
      && var d := w.outbox[r.fate.out];
         && d.origin == i && d.promise.Batch?
         && (d.promise.callback.Some? <==> r.request.approve.Some?)
  {
    assert Dispatched(w.history[i], i, w.outbox);
  }

  lemma LoggedCount(w0: World, steps: seq<Step>, e: Event)
    requires Init(w0) && (e.ApproveEvent? || e.FailedEvent?)
    ensures var w := Run(w0, steps); Sum(w.events, Is(e)) == GivenBy(w, e.id, e)
  {
    Reachable(w0, steps);
    RunAnswers(w0, steps, Is(e));
    AnswersOf(Run(w0, steps), e);
  }

  lemma ApprovalGiven(w: World, i: U64, proposal: U64)
    requires Inv(w)
    ensures GivenBy(w, i, ApproveEvent(i, proposal)) == if ClosedAs(w, i, Returned(Some(proposal))) then 1 else 0
  {
    if i < |w.history| && w.history[i].fate.Executed? {
      MainCallback(w, i);
      if w.history[i].request.approve.Some? {
        CallbackOrigin(w, w.history[i].fate.out);
      }
    }
  }

  lemma FailureGiven(w: World, i: U64, funder: AccountId, bond: U128)
    requires Inv(w)
    ensures GivenBy(w, i, FailedEvent(i, funder, bond))
         == if ClosedAs(w, i, Failed) && funder == w.history[i].scheduler && bond == w.history[i].attached then 1 else 0
  {
    if i < |w.history| && w.history[i].fate.Executed? {
      MainCallback(w, i);
      if w.history[i].request.approve.Some? {
        CallbackOrigin(w, w.history[i].fate.out);
      }
    }
  }

  /**
   * The log holds one approval of proposal p for request i when i is an executed proposal request whose
   * DAO answered p and whose callback has run, and none otherwise.
   */
  lemma ApprovalsLogged(w0: World, steps: seq<Step>, i: U64, proposal: U64)
    requires Init(w0)
    ensures var w := Run(w0, steps);
      Sum(w.events, Is(ApproveEvent(i, proposal))) == if ClosedAs(w, i, Returned(Some(proposal))) then 1 else 0
  {
    LoggedCount(w0, steps, ApproveEvent(i, proposal));
    Reachable(w0, steps);
    ApprovalGiven(Run(w0, steps), i, proposal);
  }

  /**
   * The log holds one failure for request i, naming its scheduler and the bond it attached, when i is an
   * executed proposal request whose batch failed and whose callback has run; no other failure is ever logged.
   */
  lemma FailuresLogged(w0: World, steps: seq<Step>, i: U64, funder: AccountId, bond: U128)
    requires Init(w0)
    ensures var w := Run(w0, steps);
      Sum(w.events, Is(FailedEvent(i, funder, bond)))
      == if ClosedAs(w, i, Failed) && funder == w.history[i].scheduler && bond == w.history[i].attached then 1 else 0
  {
    LoggedCount(w0, steps, FailedEvent(i, funder, bond));
    Reachable(w0, steps);
    FailureGiven(Run(w0, steps), i, funder, bond);
  }
}
