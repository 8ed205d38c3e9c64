/**
 * The allowance table of the spending account and the elementary operations on
 * it. Every public batch method is a list of elementary operations of one kind.
 */
module Whitelist {
  import opened Base
  import opened Calls

  type Table = map<WhitelistKey, U128>

  datatype Op =
    | Add(key: WhitelistKey, amount: U128)
    | Remove(key: WhitelistKey)
    | Set(key: WhitelistKey, amount: U128)
    | Increase(key: WhitelistKey, amount: U128)
    | Decrease(key: WhitelistKey, amount: U128)
    | Charge(key: WhitelistKey, amount: U128)
    | Restore(key: WhitelistKey, amount: U128)

  function Lookup(w: Table, k: WhitelistKey): Option<U128> {
    if k in w then Some(w[k]) else None
  }

  /** The allowance of a key, an absent key having none. */
  function Allowance(w: Table, k: WhitelistKey): U128 {
    if k in w then w[k] else 0
  }

  /** One elementary operation by the account `me`; None is a panic. */
  function Apply(me: AccountId, w: Table, op: Op): Option<Table> {
    match op
    case Add(k, limit) =>
      if k.account != me && k !in w then Some(w[k := limit]) else None
    case Remove(k) =>
      if k in w then Some(w - {k}) else None
    case Set(k, limit) =>
      if k in w then Some(w[k := limit]) else None
    case Increase(k, amount) =>
      if k.account != me && Allowance(w, k) + amount <= U128_MAX
      then Some(w[k := Allowance(w, k) + amount]) else None
    case Decrease(k, amount) =>
      if k in w then Some(w[k := SatSub128(w[k], amount)]) else None
    case Charge(k, amount) =>
      if 0 < amount && k in w && amount <= w[k] then Some(w[k := w[k] - amount]) else None
    case Restore(k, amount) =>
      if k in w then Some(w[k := SatAdd128(w[k], amount)]) else Some(w)
  }

  /** A batch: the operations in order, all or nothing. */
  function ApplyAll(me: AccountId, w: Table, ops: seq<Op>): Option<Table> {
    if ops == [] then Some(w)
    else
      match ApplyAll(me, w, ops[..|ops| - 1])
      case None => None
      case Some(v) => Apply(me, v, ops[|ops| - 1])
  }

  lemma ApplySingle(me: AccountId, w: Table, op: Op)
    ensures ApplyAll(me, w, [op]) == Apply(me, w, op)
  {
    assert [op][..0] == [];
  }

  function AddOps(entries: seq<WhitelistEntry>): seq<Op> {
    seq(|entries|, i requires 0 <= i < |entries| => Add(entries[i].key, entries[i].limit))
  }

  function RemoveOps(keys: seq<WhitelistKey>): seq<Op> {
    seq(|keys|, i requires 0 <= i < |keys| => Remove(keys[i]))
  }

  function SetOps(entries: seq<WhitelistEntry>): seq<Op> {
    seq(|entries|, i requires 0 <= i < |entries| => Set(entries[i].key, entries[i].limit))
  }

  function IncreaseOps(changes: seq<LimitChange>): seq<Op> {
    seq(|changes|, i requires 0 <= i < |changes| => Increase(changes[i].key, changes[i].amount))
  }

  function DecreaseOps(changes: seq<LimitChange>): seq<Op> {
    seq(|changes|, i requires 0 <= i < |changes| => Decrease(changes[i].key, changes[i].amount))
  }

  // ---- Splitting a batch ----

  /** Running a batch is running a prefix and then the rest: a batch may be split anywhere. */
  lemma {:induction false} ApplyAllConcat(me: AccountId, w: Table, a: seq<Op>, b: seq<Op>)
    ensures ApplyAll(me, w, a + b)
         == match ApplyAll(me, w, a) { case None => None case Some(v) => ApplyAll(me, v, b) }
  {
    if b == [] {
      assert a + b == a;
    } else {
      var n := |b| - 1;
      assert (a + b)[..|a + b| - 1] == a + b[..n];
      ApplyAllConcat(me, w, a, b[..n]);
    }
  }

  /** A batch whose prefix fails fails as a whole. */
  lemma PrefixFails(me: AccountId, w: Table, ops: seq<Op>, n: nat)
    requires n <= |ops|
    requires ApplyAll(me, w, ops[..n]).None?
    ensures ApplyAll(me, w, ops).None?
  {
    assert ops == ops[..n] + ops[n..];
    ApplyAllConcat(me, w, ops[..n], ops[n..]);
  }

  /** One more operation of a batch. */
  lemma NextOp(me: AccountId, w: Table, ops: seq<Op>, n: nat)
    requires n < |ops|
    ensures ApplyAll(me, w, ops[..n + 1])
         == match ApplyAll(me, w, ops[..n]) { case None => None case Some(v) => Apply(me, v, ops[n]) }
  {
    assert ops[..n + 1][..n] == ops[..n];
  }

  // ---- add_to_whitelist and remove_from_whitelist ----

  ghost predicate DistinctKeys(entries: seq<WhitelistEntry>) {
    forall i, j | 0 <= i < j < |entries| :: entries[i].key != entries[j].key
  }

  ghost predicate Addable(me: AccountId, w: Table, entries: seq<WhitelistEntry>) {
    && DistinctKeys(entries)
    && forall i | 0 <= i < |entries| :: entries[i].key !in w && entries[i].key.account != me
  }

  function KeySet(keys: seq<WhitelistKey>): set<WhitelistKey> {
    set k | k in keys
  }

  function KeysOf(entries: seq<WhitelistEntry>): seq<WhitelistKey> {
    seq(|entries|, i requires 0 <= i < |entries| => entries[i].key)
  }

  ghost predicate AddedTo(w: Table, entries: seq<WhitelistEntry>, v: Table) {
    && v.Keys == w.Keys + KeySet(KeysOf(entries))
    && (forall k | k in w :: v[k] == w[k])
    && (forall i | 0 <= i < |entries| :: entries[i].key in v && v[entries[i].key] == entries[i].limit)
  }

  lemma KeySetStep(keys: seq<WhitelistKey>)
    requires keys != []
    ensures KeySet(keys) == KeySet(keys[..|keys| - 1]) + {keys[|keys| - 1]}
  {
    var n := |keys| - 1;
    assert keys == keys[..n] + [keys[n]];
  }

  lemma AddableStep(me: AccountId, w: Table, entries: seq<WhitelistEntry>)
    requires entries != []
    ensures var n := |entries| - 1; var k := entries[n].key;
      Addable(me, w, entries) <==>
      Addable(me, w, entries[..n]) && k !in w && k.account != me && k !in KeySet(KeysOf(entries[..n]))
  {
    var n := |entries| - 1;
    var k := entries[n].key;
    if Addable(me, w, entries[..n]) && k !in w && k.account != me && k !in KeySet(KeysOf(entries[..n])) {
      forall i, j | 0 <= i < j < |entries| ensures entries[i].key != entries[j].key {
        if j == n {
          assert KeysOf(entries[..n])[i] == entries[i].key;
        } else {
          assert entries[..n][i].key != entries[..n][j].key;
        }
      }
      forall i | 0 <= i < |entries| ensures entries[i].key !in w && entries[i].key.account != me {
        if i < n {
          assert entries[..n][i] == entries[i];
        }
      }
    }
  }

  lemma AddedStep(w: Table, entries: seq<WhitelistEntry>, v: Table)
    requires entries != []
    requires var n := |entries| - 1; AddedTo(w, entries[..n], v) && entries[n].key !in v
    ensures var n := |entries| - 1; AddedTo(w, entries, v[entries[n].key := entries[n].limit])
  {
    var n := |entries| - 1;
    assert KeysOf(entries)[..n] == KeysOf(entries[..n]);
    KeySetStep(KeysOf(entries));
    assert forall i | 0 <= i < n :: entries[..n][i] == entries[i];
  }

  lemma NextAdd(me: AccountId, w: Table, entries: seq<WhitelistEntry>)
    requires entries != []
    ensures var n := |entries| - 1;
      ApplyAll(me, w, AddOps(entries))
      == match ApplyAll(me, w, AddOps(entries[..n])) {
           case None => None
           case Some(v) => Apply(me, v, Add(entries[n].key, entries[n].limit))
         }
  {
    assert AddOps(entries)[..|entries| - 1] == AddOps(entries[..|entries| - 1]);
  }

  /** An add batch succeeds exactly on fresh, pairwise distinct, foreign keys, and adds those entries. */
  lemma {:induction false} AddClosedForm(me: AccountId, w: Table, entries: seq<WhitelistEntry>)
    ensures ApplyAll(me, w, AddOps(entries)).Some? <==> Addable(me, w, entries)
    ensures Addable(me, w, entries) ==> AddedTo(w, entries, ApplyAll(me, w, AddOps(entries)).value)
  {
    if entries != [] {
      var n := |entries| - 1;
      AddClosedForm(me, w, entries[..n]);
      NextAdd(me, w, entries);
      AddableStep(me, w, entries);
      if Addable(me, w, entries) {
        AddedStep(w, entries, ApplyAll(me, w, AddOps(entries[..n])).value);
      }
    }
  }

  ghost predicate Removable(w: Table, keys: seq<WhitelistKey>) {
    && (forall i, j | 0 <= i < j < |keys| :: keys[i] != keys[j])
    && (forall i | 0 <= i < |keys| :: keys[i] in w)
  }

  lemma RemovableStep(w: Table, keys: seq<WhitelistKey>)
    requires keys != []
    ensures var n := |keys| - 1;
      Removable(w, keys) <==> Removable(w, keys[..n]) && keys[n] in w && keys[n] !in KeySet(keys[..n])
  {
    var n := |keys| - 1;
    assert keys == keys[..n] + [keys[n]];
    if Removable(w, keys) {
      assert forall i | 0 <= i < n :: keys[..n][i] == keys[i] != keys[n];
    }
  }

  /** A remove batch succeeds exactly on pairwise distinct present keys, and drops them. */
  lemma {:induction false} RemoveClosedForm(me: AccountId, w: Table, keys: seq<WhitelistKey>)
    ensures ApplyAll(me, w, RemoveOps(keys))
         == if Removable(w, keys) then Some(w - KeySet(keys)) else None
  {
    if keys == [] {
      assert w - KeySet(keys) == w;
    } else {
      var n := |keys| - 1;
      assert RemoveOps(keys)[..n] == RemoveOps(keys[..n]);
      KeySetStep(keys);
      RemovableStep(w, keys);
      RemoveClosedForm(me, w, keys[..n]);
      assert w - KeySet(keys[..n]) - {keys[n]} == w - KeySet(keys);
    }
  }

  /** Removing the keys a successful add batch introduced restores the original table. */
  lemma AddThenRemove(me: AccountId, w: Table, entries: seq<WhitelistEntry>)
    requires ApplyAll(me, w, AddOps(entries)).Some?
    ensures ApplyAll(me, ApplyAll(me, w, AddOps(entries)).value, RemoveOps(KeysOf(entries))) == Some(w)
  {
    AddClosedForm(me, w, entries);
    var v := ApplyAll(me, w, AddOps(entries)).value;
    var keys := KeysOf(entries);
    RemoveClosedForm(me, v, keys);
    assert forall k | k in KeySet(keys) :: k !in w;
    assert v - KeySet(keys) == w;
  }

  // ---- set_limit ----

  /** The last limit an overwrite batch names for a key, if any. */
  function LastLimit(entries: seq<WhitelistEntry>, k: WhitelistKey): Option<U128> {
    if entries == [] then None
    else if entries[|entries| - 1].key == k then Some(entries[|entries| - 1].limit)
    else LastLimit(entries[..|entries| - 1], k)
  }

  function Overwritten(w: Table, entries: seq<WhitelistEntry>): Table {
    map k | k in w :: var last := LastLimit(entries, k); if last.Some? then last.value else w[k]
  }

  /** An overwrite batch succeeds exactly when every key is present; the last value named wins. */
  lemma {:induction false} SetClosedForm(me: AccountId, w: Table, entries: seq<WhitelistEntry>)
    ensures ApplyAll(me, w, SetOps(entries))
         == if forall i | 0 <= i < |entries| :: entries[i].key in w
            then Some(Overwritten(w, entries)) else None
  {
    if entries == [] {
      assert w == Overwritten(w, entries);
    } else {
      var n := |entries| - 1;
      assert SetOps(entries)[..n] == SetOps(entries[..n]);
      SetClosedForm(me, w, entries[..n]);
      assert forall i | 0 <= i < n :: entries[..n][i] == entries[i];
      if forall i | 0 <= i < |entries| :: entries[i].key in w {
        assert Overwritten(w, entries[..n])[entries[n].key := entries[n].limit] == Overwritten(w, entries);
      }
    }
  }

  // ---- increase_limit ----

  function AmountFor(k: WhitelistKey): LimitChange -> nat {
    (c: LimitChange) => if c.key == k then c.amount else 0
  }

  /** The total a batch of changes names for a key, repeats included. */
  function TotalFor(changes: seq<LimitChange>, k: WhitelistKey): nat {
    Sum(changes, AmountFor(k))
  }

  function ChangedKeys(changes: seq<LimitChange>): seq<WhitelistKey> {
    seq(|changes|, i requires 0 <= i < |changes| => changes[i].key)
  }

  ghost predicate Increasable(me: AccountId, w: Table, changes: seq<LimitChange>) {
    && (forall c | c in changes :: c.key.account != me)
    && (forall k :: Allowance(w, k) + TotalFor(changes, k) <= U128_MAX)
  }

  ghost predicate IncreasedTo(w: Table, changes: seq<LimitChange>, v: Table) {
    && v.Keys == w.Keys + KeySet(ChangedKeys(changes))
    && (forall k | k in v :: v[k] == Allowance(w, k) + TotalFor(changes, k))
  }

  lemma {:induction false} TotalForAbsent(changes: seq<LimitChange>, k: WhitelistKey)
    requires k !in KeySet(ChangedKeys(changes))
    ensures TotalFor(changes, k) == 0
  {
    if changes != [] {
      var n := |changes| - 1;
      assert ChangedKeys(changes)[..n] == ChangedKeys(changes[..n]);
      assert ChangedKeys(changes)[n] == changes[n].key;
      KeySetStep(ChangedKeys(changes));
      TotalForAbsent(changes[..n], k);
    }
  }

  lemma TotalForStep(changes: seq<LimitChange>, k: WhitelistKey)
    requires changes != []
    ensures var n := |changes| - 1;
      TotalFor(changes, k) == TotalFor(changes[..n], k) + if changes[n].key == k then changes[n].amount else 0
  {
  }

  lemma IncreasableStep(me: AccountId, w: Table, changes: seq<LimitChange>)
    requires changes != []
    ensures var n := |changes| - 1; var c := changes[n];
      Increasable(me, w, changes) <==>
      && Increasable(me, w, changes[..n])
      && c.key.account != me && Allowance(w, c.key) + TotalFor(changes[..n], c.key) + c.amount <= U128_MAX
  {
    var n := |changes| - 1;
    var c := changes[n];
    assert changes == changes[..n] + [c];
    forall k ensures TotalFor(changes, k) == TotalFor(changes[..n], k) + if c.key == k then c.amount else 0 {
      TotalForStep(changes, k);
    }
    if Increasable(me, w, changes) {
      assert Allowance(w, c.key) + TotalFor(changes, c.key) <= U128_MAX;
      assert forall k :: TotalFor(changes[..n], k) <= TotalFor(changes, k);
    }
  }

  lemma AllowanceAfter(w: Table, changes: seq<LimitChange>, v: Table, k: WhitelistKey)
    requires IncreasedTo(w, changes, v)
    ensures Allowance(v, k) == Allowance(w, k) + TotalFor(changes, k)
  {
    if k !in v {
      TotalForAbsent(changes, k);
    }
  }

  lemma IncreasedStep(w: Table, changes: seq<LimitChange>, v: Table, u: Table)
    requires changes != [] && IncreasedTo(w, changes[..|changes| - 1], v)
    requires var c := changes[|changes| - 1];
      Allowance(v, c.key) + c.amount <= U128_MAX && u == v[c.key := Allowance(v, c.key) + c.amount]
    ensures IncreasedTo(w, changes, u)
  {
    var n := |changes| - 1;
    assert ChangedKeys(changes)[..n] == ChangedKeys(changes[..n]);
    KeySetStep(ChangedKeys(changes));
    forall k | k in u ensures u[k] == Allowance(w, k) + TotalFor(changes, k) {
      TotalForStep(changes, k);
      AllowanceAfter(w, changes[..n], v, k);
    }
  }

  /** An increase batch succeeds exactly when it never names the account itself and no key's total overflows. */
  lemma {:induction false} IncreaseClosedForm(me: AccountId, w: Table, changes: seq<LimitChange>)
    ensures ApplyAll(me, w, IncreaseOps(changes)).Some? <==> Increasable(me, w, changes)
    ensures Increasable(me, w, changes) ==>
              IncreasedTo(w, changes, ApplyAll(me, w, IncreaseOps(changes)).value)
  {
    if changes == [] {
      assert forall k :: TotalFor(changes, k) == 0;
    } else {
      var n := |changes| - 1;
      var c := changes[n];
      assert IncreaseOps(changes)[..n] == IncreaseOps(changes[..n]);
      IncreaseClosedForm(me, w, changes[..n]);
      IncreasableStep(me, w, changes);
      if Increasable(me, w, changes[..n]) {
        var v := ApplyAll(me, w, IncreaseOps(changes[..n])).value;
        AllowanceAfter(w, changes[..n], v, c.key);
        if Increasable(me, w, changes) {
          IncreasedStep(w, changes, v, ApplyAll(me, w, IncreaseOps(changes)).value);
        }
      }
    }
  }

  lemma PermutedKeys(a: seq<LimitChange>, b: seq<LimitChange>)
    requires multiset(a) == multiset(b)
    ensures KeySet(ChangedKeys(a)) <= KeySet(ChangedKeys(b))
  {
    forall k | k in KeySet(ChangedKeys(a)) ensures k in KeySet(ChangedKeys(b)) {
      var i :| 0 <= i < |a| && ChangedKeys(a)[i] == k;
      assert a[i] in multiset(b);
      var j :| 0 <= j < |b| && b[j] == a[i];
      assert ChangedKeys(b)[j] == k;
    }
  }

  lemma IncreasablePermuted(me: AccountId, w: Table, a: seq<LimitChange>, b: seq<LimitChange>)
    requires multiset(a) == multiset(b) && Increasable(me, w, a)
    ensures Increasable(me, w, b)
  {
    forall c | c in b ensures c.key.account != me {
      assert c in multiset(b);
      assert c in multiset(a);
    }
    forall k ensures Allowance(w, k) + TotalFor(b, k) <= U128_MAX {
      SumPermuted(a, b, AmountFor(k));
    }
  }

  lemma IncreasedUnique(w: Table, a: seq<LimitChange>, b: seq<LimitChange>, u: Table, v: Table)
    requires multiset(a) == multiset(b) && IncreasedTo(w, a, u) && IncreasedTo(w, b, v)
    ensures u == v
  {
    PermutedKeys(a, b);
    PermutedKeys(b, a);
    forall k | k in u ensures u[k] == v[k] {
      SumPermuted(a, b, AmountFor(k));
    }
  }

  /** The order of an increase batch is irrelevant, for success and for the result. */
  lemma IncreasePermuted(me: AccountId, w: Table, a: seq<LimitChange>, b: seq<LimitChange>)
    requires multiset(a) == multiset(b)
    ensures ApplyAll(me, w, IncreaseOps(a)) == ApplyAll(me, w, IncreaseOps(b))
  {
    IncreaseClosedForm(me, w, a);
    IncreaseClosedForm(me, w, b);
    if Increasable(me, w, a) {
      IncreasablePermuted(me, w, a, b);
      IncreasedUnique(w, a, b, ApplyAll(me, w, IncreaseOps(a)).value, ApplyAll(me, w, IncreaseOps(b)).value);
    } else if Increasable(me, w, b) {
      IncreasablePermuted(me, w, b, a);
    }
  }

  // ---- decrease_limit ----

  function Decreased(w: Table, changes: seq<LimitChange>): Table {
    map k | k in w :: Max(0, w[k] - TotalFor(changes, k))
  }

  lemma FloorTwice(limit: U128, total: nat, amount: U128)
    ensures var mid: U128 := Max(0, limit - total);
      SatSub128(mid, amount) == Max(0, limit - (total + amount))
  {
  }

  lemma DecreasedStep(w: Table, changes: seq<LimitChange>)
    requires changes != [] && changes[|changes| - 1].key in w
    ensures var n := |changes| - 1; var v := Decreased(w, changes[..n]); var c := changes[n];
      v[c.key := SatSub128(v[c.key], c.amount)] == Decreased(w, changes)
  {
    var n := |changes| - 1;
    var c := changes[n];
    FloorTwice(w[c.key], TotalFor(changes[..n], c.key), c.amount);
    TotalForStep(changes, c.key);
    forall k | k in w && k != c.key ensures TotalFor(changes, k) == TotalFor(changes[..n], k) {
      TotalForStep(changes, k);
    }
  }

  ghost predicate AllPresent(w: Table, changes: seq<LimitChange>) {
    forall i | 0 <= i < |changes| :: changes[i].key in w
  }

  lemma AllPresentStep(w: Table, changes: seq<LimitChange>)
    requires changes != []
    ensures var n := |changes| - 1;
      AllPresent(w, changes) <==> AllPresent(w, changes[..n]) && changes[n].key in w
  {
    var n := |changes| - 1;
    assert forall i | 0 <= i < n :: changes[..n][i] == changes[i];
  }

  lemma NextDecrease(me: AccountId, w: Table, changes: seq<LimitChange>)
    requires changes != []
    ensures var n := |changes| - 1;
      ApplyAll(me, w, DecreaseOps(changes))
      == match ApplyAll(me, w, DecreaseOps(changes[..n])) {
           case None => None
           case Some(v) => Apply(me, v, Decrease(changes[n].key, changes[n].amount))
         }
  {
    assert DecreaseOps(changes)[..|changes| - 1] == DecreaseOps(changes[..|changes| - 1]);
  }

  /** A decrease batch succeeds exactly when every key is present; each limit drops by its total, floored at zero. */
  lemma {:induction false} DecreaseClosedForm(me: AccountId, w: Table, changes: seq<LimitChange>)
    ensures ApplyAll(me, w, DecreaseOps(changes))
         == if AllPresent(w, changes) then Some(Decreased(w, changes)) else None
  {
    if changes == [] {
      assert w == Decreased(w, changes);
    } else {
      var n := |changes| - 1;
      DecreaseClosedForm(me, w, changes[..n]);
      AllPresentStep(w, changes);
      NextDecrease(me, w, changes);
      if changes[n].key in w {
        DecreasedStep(w, changes);
      }
    }
  }

  /** The table `w` with an entry of zero for every key of `keys` it lacks. */
  function WithZeros(w: Table, keys: set<WhitelistKey>): Table {
    map k | k in w.Keys + keys :: Allowance(w, k)
  }

  lemma DecreaseIncreased(w: Table, changes: seq<LimitChange>, v: Table)
    requires IncreasedTo(w, changes, v)
    ensures AllPresent(v, changes)
    ensures Decreased(v, changes) == WithZeros(w, KeySet(ChangedKeys(changes)))
  {
    forall i | 0 <= i < |changes| ensures changes[i].key in v {
      assert ChangedKeys(changes)[i] == changes[i].key;
    }
    forall k | k in v ensures Decreased(v, changes)[k] == Allowance(w, k) {
      assert v[k] == Allowance(w, k) + TotalFor(changes, k);
    }
  }

  /** A decrease undoes the same increase, except that entries it created stay behind at zero. */
  lemma IncreaseThenDecrease(me: AccountId, w: Table, changes: seq<LimitChange>)
    requires ApplyAll(me, w, IncreaseOps(changes)).Some?
    ensures ApplyAll(me, ApplyAll(me, w, IncreaseOps(changes)).value, DecreaseOps(changes))
         == Some(WithZeros(w, KeySet(ChangedKeys(changes))))
  {
    IncreaseClosedForm(me, w, changes);
    var v := ApplyAll(me, w, IncreaseOps(changes)).value;
    DecreaseIncreased(w, changes, v);
    DecreaseClosedForm(me, v, changes);
  }

  // ---- Isolation of keys ----

  function Restrict(w: Table, k: WhitelistKey): Table {
    map j | j in w && j == k :: w[j]
  }

  function OpsOn(ops: seq<Op>, k: WhitelistKey): seq<Op> {
    if ops == [] then []
    else
      var last := ops[|ops| - 1];
      OpsOn(ops[..|ops| - 1], k) + if last.key == k then [last] else []
  }

  lemma ApplyRestricted(me: AccountId, w: Table, op: Op)
    ensures Apply(me, Restrict(w, op.key), op)
         == match Apply(me, w, op) { case None => None case Some(v) => Some(Restrict(v, op.key)) }
    ensures Apply(me, w, op).Some? ==>
              forall k | k != op.key :: Restrict(Apply(me, w, op).value, k) == Restrict(w, k)
  {
    if Apply(me, w, op).Some? {
      var v := Apply(me, w, op).value;
      assert Apply(me, Restrict(w, op.key), op).value == Restrict(v, op.key);
      forall k | k != op.key ensures Restrict(v, k) == Restrict(w, k) {
        assert k in v <==> k in w;
      }
    }
  }

  /** The final entry of a key is what its own operations alone, run on its own entry, produce. */
  lemma {:induction false} KeyIsolation(me: AccountId, w: Table, ops: seq<Op>, k: WhitelistKey)
    requires ApplyAll(me, w, ops).Some?
    ensures ApplyAll(me, Restrict(w, k), OpsOn(ops, k)) == Some(Restrict(ApplyAll(me, w, ops).value, k))
  {
    if ops != [] {
      var n := |ops| - 1;
      var v := ApplyAll(me, w, ops[..n]).value;
      KeyIsolation(me, w, ops[..n], k);
      ApplyRestricted(me, v, ops[n]);
      if ops[n].key == k {
        assert OpsOn(ops, k)[..|OpsOn(ops, k)| - 1] == OpsOn(ops[..n], k);
      } else {
        assert OpsOn(ops, k) == OpsOn(ops[..n], k);
      }
    }
  }

  /** A batch fails only because of one key's own operations. */
  lemma {:induction false} KeyFailure(me: AccountId, w: Table, ops: seq<Op>)
    requires ApplyAll(me, w, ops).None?
    ensures exists k :: ApplyAll(me, Restrict(w, k), OpsOn(ops, k)).None?
  {
    var n := |ops| - 1;
    if ApplyAll(me, w, ops[..n]).None? {
      KeyFailure(me, w, ops[..n]);
      var k :| ApplyAll(me, Restrict(w, k), OpsOn(ops[..n], k)).None?;
      if ops[n].key == k {
        assert OpsOn(ops, k)[..|OpsOn(ops, k)| - 1] == OpsOn(ops[..n], k);
      } else {
        assert OpsOn(ops, k) == OpsOn(ops[..n], k);
      }
      assert ApplyAll(me, Restrict(w, k), OpsOn(ops, k)).None?;
    } else {
      var k := ops[n].key;
      KeyIsolation(me, w, ops[..n], k);
      ApplyRestricted(me, ApplyAll(me, w, ops[..n]).value, ops[n]);
      assert OpsOn(ops, k)[..|OpsOn(ops, k)| - 1] == OpsOn(ops[..n], k);
      assert ApplyAll(me, Restrict(w, k), OpsOn(ops, k)).None?;
    }
  }

  /** Keys never influence each other: a batch succeeds exactly when each key's operations succeed alone. */
  lemma KeysIndependent(me: AccountId, w: Table, ops: seq<Op>)
    ensures ApplyAll(me, w, ops).Some? <==>
            forall k :: ApplyAll(me, Restrict(w, k), OpsOn(ops, k)).Some?
  {
    if ApplyAll(me, w, ops).Some? {
      forall k ensures ApplyAll(me, Restrict(w, k), OpsOn(ops, k)).Some? {
        KeyIsolation(me, w, ops, k);
      }
    } else {
      KeyFailure(me, w, ops);
    }
  }
}
