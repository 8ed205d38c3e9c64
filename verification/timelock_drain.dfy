/** The queue cannot deadlock: once the delays have passed it can always be emptied, in id order. */
module TimelockDrain {
  import opened Base
  import opened Calls
  import opened Requests
  import opened TimelockWorld
  import opened TimelockQueue
  import opened TimelockRuns

  ghost predicate Matured(w: World) {
    forall id | id in w.storage.requests :: w.storage.requests[id].executeAfter <= w.now
  }

  function ExecuteCall(id: U64): FunctionCall {
    FunctionCall(Execute(id), 0, 0)
  }

  lemma MinId(ids: set<U64>) returns (m: U64)
    requires ids != {}
    ensures m in ids && forall x | x in ids :: m <= x
  {
    var y :| y in ids;
    if ids == {y} {
      m := y;
    } else {
      var r := MinId(ids - {y});
      m := if r < y then r else y;
      forall x | x in ids ensures m <= x {
        assert x == y || x in ids - {y};
      }
    }
  }

  /** A matured request whose predecessor has left can be executed by anyone. */
  lemma CanExecute(w: World, caller: AccountId, id: U64)
    requires id in w.storage.requests && w.storage.requests[id].executeAfter <= w.now
    requires var p := w.storage.requests[id].predecessor; p.Some? ==> p.value !in w.storage.requests
    ensures Perform(w, caller, ExecuteCall(id)).Some?
    ensures var v := Perform(w, caller, ExecuteCall(id)).value;
      v.storage == w.storage.(requests := w.storage.requests - {id}) && v.now == w.now
  {
  }

  /** No deadlock: in every reachable state with a non-empty matured queue, anyone can execute something. */
  lemma {:induction false} SomeExecutable(w0: World, steps: seq<Step>, caller: AccountId)
    requires Init(w0)
    requires var w := Run(w0, steps); Matured(w) && w.storage.requests != map[]
    ensures exists id | id in Run(w0, steps).storage.requests ::
              Perform(Run(w0, steps), caller, ExecuteCall(id)).Some?
  {
    Reachable(w0, steps);
    var w := Run(w0, steps);
    var id := MinId(w.storage.requests.Keys);
    assert RecordOk(w.history, w.now, w.events, id);
    CanExecute(w, caller, id);
  }

  ghost predicate Ascending(ids: seq<U64>) {
    forall i, j | 0 <= i < j < |ids| :: ids[i] < ids[j]
  }

  /** `ids` lists the pending requests in id order. */
  ghost predicate Lists(ids: seq<U64>, requests: map<U64, Request>) {
    && Ascending(ids)
    && (forall i | 0 <= i < |ids| :: ids[i] in requests)
    && (forall id | id in requests :: exists i | 0 <= i < |ids| :: ids[i] == id)
  }

  function ExecuteSteps(caller: AccountId, ids: seq<U64>): seq<Step> {
    seq(|ids|, i requires 0 <= i < |ids| => Deliver(caller, [ExecuteCall(ids[i])]))
  }

  lemma DeliverOne(w: World, caller: AccountId, action: FunctionCall)
    requires caller != w.me && action.deposit < U128_MAX && Perform(w, caller, action).Some?
    ensures Next(w, Deliver(caller, [action])) == Perform(w, caller, action).value
  {
    var batch := [action];
    assert batch[..|batch| - 1] == [];
    assert PerformAll(w, caller, batch) == Perform(w, caller, action);
  }

  /** After the first n of them exactly the others are left. */
  ghost predicate LeftAfter(w: World, v: World, ids: seq<U64>, n: nat)
    requires n <= |ids|
  {
    && v.me == w.me && v.now == w.now
    && (forall id :: id in v.storage.requests <==> id in w.storage.requests && id !in ids[..n])
    && (forall id | id in v.storage.requests :: v.storage.requests[id] == w.storage.requests[id])
  }

  /** In id order every predecessor has gone before its dependent's turn. */
  lemma PredecessorGone(w: World, ids: seq<U64>, n: nat)
    requires Inv(w) && Lists(ids, w.storage.requests) && n < |ids|
    ensures ids[n] !in ids[..n]
    ensures var p := w.storage.requests[ids[n]].predecessor;
      p.Some? ==> p.value !in w.storage.requests || p.value in ids[..n]
  {
    var id := ids[n];
    assert RecordOk(w.history, w.now, w.events, id);
    var predecessor := w.storage.requests[id].predecessor;
    if predecessor.Some? && predecessor.value in w.storage.requests {
      var m :| 0 <= m < |ids| && ids[m] == predecessor.value;
      assert m < n;
      assert ids[..n][m] == predecessor.value;
    }
  }

  lemma LeftNext(w: World, v: World, u: World, ids: seq<U64>, n: nat)
    requires n < |ids| && LeftAfter(w, v, ids, n)
    requires u.me == v.me && u.now == v.now && u.storage.requests == v.storage.requests - {ids[n]}
    ensures LeftAfter(w, u, ids, n + 1)
  {
    assert ids[..n + 1] == ids[..n] + [ids[n]];
  }

  lemma {:induction false} ExecuteNth(w: World, v: World, caller: AccountId, ids: seq<U64>, n: nat)
    requires Inv(w) && Matured(w) && caller != w.me
    requires Lists(ids, w.storage.requests) && n < |ids| && LeftAfter(w, v, ids, n)
    ensures Perform(v, caller, ExecuteCall(ids[n])).Some?
    ensures LeftAfter(w, Next(v, Deliver(caller, [ExecuteCall(ids[n])])), ids, n + 1)
  {
    PredecessorGone(w, ids, n);
    CanExecute(v, caller, ids[n]);
    DeliverOne(v, caller, ExecuteCall(ids[n]));
    PerformShape(v, caller, ExecuteCall(ids[n]));
    LeftNext(w, v, Perform(v, caller, ExecuteCall(ids[n])).value, ids, n);
  }

  lemma RunPrefix(w: World, steps: seq<Step>, n: nat)
    requires 0 < n <= |steps|
    ensures Run(w, steps[..n]) == Next(Run(w, steps[..n - 1]), steps[n - 1])
  {
    assert steps[..n][..n - 1] == steps[..n - 1];
  }

  lemma {:induction false} DrainPrefix(w: World, caller: AccountId, ids: seq<U64>, n: nat)
    requires Inv(w) && Matured(w) && caller != w.me
    requires Lists(ids, w.storage.requests) && n <= |ids|
    ensures LeftAfter(w, Run(w, ExecuteSteps(caller, ids)[..n]), ids, n)
  {
    var steps := ExecuteSteps(caller, ids);
    if n == 0 {
      assert steps[..0] == [];
    } else {
      DrainPrefix(w, caller, ids, n - 1);
      RunPrefix(w, steps, n);
      ExecuteNth(w, Run(w, steps[..n - 1]), caller, ids, n - 1);
    }
  }

  lemma NothingLeft(w: World, v: World, ids: seq<U64>)
    requires Lists(ids, w.storage.requests) && LeftAfter(w, v, ids, |ids|)
    ensures v.storage.requests == map[]
  {
    assert ids[..|ids|] == ids;
    forall id ensures id !in v.storage.requests {
      if id in w.storage.requests {
        var i :| 0 <= i < |ids| && ids[i] == id;
      }
    }
  }

  lemma {:induction false} EachExecutes(w: World, caller: AccountId, ids: seq<U64>, n: nat)
    requires Inv(w) && Matured(w) && caller != w.me
    requires Lists(ids, w.storage.requests) && n < |ids|
    ensures Perform(Run(w, ExecuteSteps(caller, ids)[..n]), caller, ExecuteCall(ids[n])).Some?
  {
    DrainPrefix(w, caller, ids, n);
    ExecuteNth(w, Run(w, ExecuteSteps(caller, ids)[..n]), caller, ids, n);
  }

  lemma {:induction false} AllExecuted(w: World, caller: AccountId, ids: seq<U64>)
    requires Inv(w) && Matured(w) && caller != w.me
    requires Lists(ids, w.storage.requests)
    ensures Run(w, ExecuteSteps(caller, ids)).storage.requests == map[]
  {
    var steps := ExecuteSteps(caller, ids);
    DrainPrefix(w, caller, ids, |ids|);
    assert steps[..|ids|] == steps;
    NothingLeft(w, Run(w, steps), ids);
  }

  /** Executing the matured queue in id order succeeds on every request and empties it in as many steps. */
  lemma {:induction false} DrainsInOrder(w0: World, before: seq<Step>, caller: AccountId, ids: seq<U64>)
    requires Init(w0)
    requires var w := Run(w0, before);
      Matured(w) && caller != w.me && Lists(ids, w.storage.requests)
    ensures var w := Run(w0, before); var steps := ExecuteSteps(caller, ids);
      && (forall n | 0 <= n < |ids| :: Perform(Run(w, steps[..n]), caller, ExecuteCall(ids[n])).Some?)
      && Run(w, steps).storage.requests == map[]
  {
    Reachable(w0, before);
    var w := Run(w0, before);
    forall n | 0 <= n < |ids|
      ensures Perform(Run(w, ExecuteSteps(caller, ids)[..n]), caller, ExecuteCall(ids[n])).Some?
    {
      EachExecutes(w, caller, ids, n);
    }
    AllExecuted(w, caller, ids);
  }

  /** The pending ids can always be listed in order, each once. */
  lemma {:induction false} ListIds(ids: set<U64>) returns (sorted: seq<U64>)
    ensures Ascending(sorted) && |sorted| == |ids|
    ensures forall x :: x in sorted <==> x in ids
  {
    if ids == {} {
      sorted := [];
    } else {
      var m := MinId(ids);
      var rest := ListIds(ids - {m});
      sorted := [m] + rest;
      forall i, j | 0 <= i < j < |sorted| ensures sorted[i] < sorted[j] {
        assert sorted[j] in rest;
      }
    }
  }

  /** From every reachable state with a matured queue, |requests| executions empty it. */
  lemma Drainable(w0: World, before: seq<Step>, caller: AccountId)
    requires Init(w0)
    requires var w := Run(w0, before); Matured(w) && caller != w.me
    ensures exists steps: seq<Step> ::
      && |steps| == |Run(w0, before).storage.requests|
      && Run(Run(w0, before), steps).storage.requests == map[]
  {
    var w := Run(w0, before);
    var ids := ListIds(w.storage.requests.Keys);
    forall id | id in w.storage.requests ensures exists i | 0 <= i < |ids| :: ids[i] == id {
      assert id in ids;
    }
    DrainsInOrder(w0, before, caller, ids);
    assert |ExecuteSteps(caller, ids)| == |w.storage.requests.Keys| == |w.storage.requests|;
  }
}
