/**
 * The books of one key, kept from the elementary operations alone and without
 * looking at the whitelist: what was granted, revoked, charged, returned by
 * failed transfers, and forfeited because a returned amount could not be restored.
 */
module Ledger {
  import opened Base
  import opened Calls
  import opened Whitelist

  datatype Line = Line(limit: Option<U128>, granted: nat, revoked: nat,
                       charged: nat, returned: nat, forfeited: nat)

  const EMPTY_LINE: Line := Line(None, 0, 0, 0, 0, 0)

  function Remaining(l: Line): U128 {
    if l.limit.Some? then l.limit.value else 0
  }

  /** Posts one operation on the key; an operation that would be refused posts nothing. */
  function Post(l: Line, op: Op): Line {
    match op
    case Add(_, limit) =>
      if l.limit.None? then l.(limit := Some(limit), granted := l.granted + limit) else l
    case Remove(_) =>
      l.(limit := None, revoked := l.revoked + Remaining(l))
    case Set(_, limit) =>
      if l.limit.None? then l
      else if Remaining(l) <= limit
      then l.(limit := Some(limit), granted := l.granted + (limit - Remaining(l)))
      else l.(limit := Some(limit), revoked := l.revoked + (Remaining(l) - limit))
    case Increase(_, amount) =>
      if Remaining(l) + amount <= U128_MAX
      then l.(limit := Some(Remaining(l) + amount), granted := l.granted + amount) else l
    case Decrease(_, amount) =>
      if l.limit.None? then l
      else l.(limit := Some(SatSub128(Remaining(l), amount)), revoked := l.revoked + Min(amount, Remaining(l)))
    case Charge(_, amount) =>
      if l.limit.Some? && amount <= Remaining(l)
      then l.(limit := Some(Remaining(l) - amount), charged := l.charged + amount) else l
    case Restore(_, amount) =>
      if l.limit.None? then l.(returned := l.returned + amount, forfeited := l.forfeited + amount)
      else
        var restored := SatAdd128(Remaining(l), amount);
        l.(limit := Some(restored), returned := l.returned + amount,
           forfeited := l.forfeited + (Remaining(l) + amount - restored))
  }

  function LineOf(trace: seq<Op>, k: WhitelistKey): Line {
    if trace == [] then EMPTY_LINE
    else
      var last := trace[|trace| - 1];
      var before := LineOf(trace[..|trace| - 1], k);
      if last.key == k then Post(before, last) else before
  }

  lemma LineOfAppend(trace: seq<Op>, op: Op, k: WhitelistKey)
    ensures LineOf(trace + [op], k) == if op.key == k then Post(LineOf(trace, k), op) else LineOf(trace, k)
  {
    assert (trace + [op])[..|trace|] == trace;
  }

  /** The books always balance, whatever the operations. */
  lemma {:induction false} Balanced(trace: seq<Op>, k: WhitelistKey)
    ensures var l := LineOf(trace, k);
      l.granted + l.returned == Remaining(l) + l.charged + l.revoked + l.forfeited
  {
    if trace != [] {
      Balanced(trace[..|trace| - 1], k);
    }
  }

  function ChargedBy(k: WhitelistKey): Op -> nat {
    (op: Op) => if op.Charge? && op.key == k then op.amount else 0
  }

  function ReturnedBy(k: WhitelistKey): Op -> nat {
    (op: Op) => if op.Restore? && op.key == k then op.amount else 0
  }

  /** One operation the whitelist accepts moves the books of its key and the table in step. */
  lemma PostAgrees(me: AccountId, w: Table, l: Line, op: Op)
    requires Lookup(w, op.key) == l.limit
    requires Apply(me, w, op).Some?
    ensures Lookup(Apply(me, w, op).value, op.key) == Post(l, op).limit
    ensures Post(l, op).charged == l.charged + ChargedBy(op.key)(op)
    ensures Post(l, op).returned == l.returned + ReturnedBy(op.key)(op)
    ensures forall k | k != op.key :: Lookup(Apply(me, w, op).value, k) == Lookup(w, k)
  {
  }

  /** The same for any key, named by the operation or not. */
  lemma AppendAgrees(me: AccountId, w: Table, trace: seq<Op>, op: Op, k: WhitelistKey)
    requires Lookup(w, k) == LineOf(trace, k).limit
    requires Apply(me, w, op).Some?
    ensures Lookup(Apply(me, w, op).value, k) == LineOf(trace + [op], k).limit
    ensures LineOf(trace + [op], k).charged == LineOf(trace, k).charged + ChargedBy(k)(op)
    ensures LineOf(trace + [op], k).returned == LineOf(trace, k).returned + ReturnedBy(k)(op)
  {
    LineOfAppend(trace, op, k);
    if op.key == k {
      PostAgrees(me, w, LineOf(trace, k), op);
    } else {
      assert Lookup(Apply(me, w, op).value, k) == Lookup(w, k);
    }
  }

  /** A batch the whitelist accepts moves the books and the table in step. */
  lemma {:induction false} ReplayAgrees(me: AccountId, w: Table, trace: seq<Op>, ops: seq<Op>, k: WhitelistKey)
    requires Lookup(w, k) == LineOf(trace, k).limit
    requires ApplyAll(me, w, ops).Some?
    ensures Lookup(ApplyAll(me, w, ops).value, k) == LineOf(trace + ops, k).limit
    ensures LineOf(trace + ops, k).charged == LineOf(trace, k).charged + Sum(ops, ChargedBy(k))
    ensures LineOf(trace + ops, k).returned == LineOf(trace, k).returned + Sum(ops, ReturnedBy(k))
  {
    if ops == [] {
      assert trace + ops == trace;
    } else {
      var n := |ops| - 1;
      ReplayAgrees(me, w, trace, ops[..n], k);
      assert trace + ops == (trace + ops[..n]) + [ops[n]];
      AppendAgrees(me, ApplyAll(me, w, ops[..n]).value, trace + ops[..n], ops[n], k);
    }
  }

  // ---- The books, read off the table ----

  /** By how much an operation of the manager raises an entry. */
  function Raised(op: Op, before: U128, after: U128): nat {
    if op.Charge? || op.Restore? then 0 else Max(0, after - before)
  }

  /** By how much an operation of the manager lowers an entry. */
  function Lowered(op: Op, before: U128, after: U128): nat {
    if op.Charge? || op.Restore? then 0 else Max(0, before - after)
  }

  /** What a transfer takes from an entry. */
  function Spent(op: Op, before: U128, after: U128): nat {
    if op.Charge? then Max(0, before - after) else 0
  }

  /** What a rollback to the key fails to give back to its entry. */
  function Clip(k: WhitelistKey, op: Op, before: U128, after: U128): nat {
    if op.Restore? && op.key == k then Max(0, op.amount - (after - before)) else 0
  }

  function Clipped(k: WhitelistKey): (Op, U128, U128) -> nat {
    (op: Op, before: U128, after: U128) => Clip(k, op, before, after)
  }

  /** The total of a measure over the movements of the entry of k, while the operations run from the empty table. */
  function Moved(me: AccountId, ops: seq<Op>, k: WhitelistKey, measure: (Op, U128, U128) -> nat): nat
    requires ApplyAll(me, map[], ops).Some?
  {
    if ops == [] then 0
    else
      var n := |ops| - 1;
      Moved(me, ops[..n], k, measure)
      + measure(ops[n], Allowance(ApplyAll(me, map[], ops[..n]).value, k),
                Allowance(ApplyAll(me, map[], ops).value, k))
  }

  lemma PostMoves(me: AccountId, w: Table, l: Line, op: Op)
    requires Lookup(w, op.key) == l.limit && Apply(me, w, op).Some?
    ensures var v := Apply(me, w, op).value; var m := Post(l, op);
      var before, after := Allowance(w, op.key), Allowance(v, op.key);
      && m.granted == l.granted + Raised(op, before, after)
      && m.revoked == l.revoked + Lowered(op, before, after)
      && m.charged == l.charged + Spent(op, before, after)
      && m.forfeited == l.forfeited + Clip(op.key, op, before, after)
  {
    match op
    case Add(_, _) =>
    case Remove(_) =>
    case Set(_, _) =>
    case Increase(_, _) =>
    case Decrease(_, _) =>
    case Charge(_, _) =>
    case Restore(_, _) =>
  }

  /** One accepted operation: the books move by what the table moves, split by who moved it. */
  lemma PostFromTable(me: AccountId, w: Table, l: Line, op: Op, k: WhitelistKey)
    requires Lookup(w, k) == l.limit && Apply(me, w, op).Some?
    ensures var v := Apply(me, w, op).value; var m := if op.key == k then Post(l, op) else l;
      var before, after := Allowance(w, k), Allowance(v, k);
      && m.limit == Lookup(v, k)
      && m.granted == l.granted + Raised(op, before, after)
      && m.revoked == l.revoked + Lowered(op, before, after)
      && m.charged == l.charged + Spent(op, before, after)
      && m.forfeited == l.forfeited + Clip(k, op, before, after)
  {
    if op.key == k {
      PostAgrees(me, w, l, op);
      PostMoves(me, w, l, op);
    } else {
      assert Lookup(Apply(me, w, op).value, k) == Lookup(w, k);
      assert Allowance(Apply(me, w, op).value, k) == Allowance(w, k);
    }
  }

  /** For any accepted operations, the books of a key are the movements of its entry. */
  lemma {:induction false} BooksFromTable(me: AccountId, ops: seq<Op>, k: WhitelistKey)
    requires ApplyAll(me, map[], ops).Some?
    ensures var l := LineOf(ops, k);
      && l.limit == Lookup(ApplyAll(me, map[], ops).value, k)
      && l.granted == Moved(me, ops, k, Raised)
      && l.revoked == Moved(me, ops, k, Lowered)
      && l.charged == Moved(me, ops, k, Spent)
      && l.forfeited == Moved(me, ops, k, Clipped(k))
  {
    if ops != [] {
      var n := |ops| - 1;
      BooksFromTable(me, ops[..n], k);
      PostFromTable(me, ApplyAll(me, map[], ops[..n]).value, LineOf(ops[..n], k), ops[n], k);
    }
  }
}
