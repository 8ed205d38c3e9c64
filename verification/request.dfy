/** Requests of the timelock, and the saturating totals checked when one is scheduled. */
module Requests {
  import opened Base
  import opened Calls

  const GGAS: int := 1_000_000_000
  const TGAS: int := 1_000_000_000_000

  /** 30 days in nanoseconds. */
  const MAX_DELAY_NS: U64 := 30 * 24 * 60 * 60 * 1_000_000_000
  const GAS_FOR_ON_PROPOSAL_ADDED: U64 := 10 * TGAS
  const GAS_PER_ACTION: U64 := 980 * GGAS
  const GAS_PER_RECEIPT: U64 := 217 * GGAS
  const GAS_FOR_EXECUTE_BODY: U64 := 5 * TGAS
  const MAX_EXECUTION_GAS: U64 := 280 * TGAS

  datatype ProposalApproval = ProposalApproval(kind: string, actGas: U64)

  datatype Request = Request(receiver: AccountId, actions: seq<FunctionCall>, funder: AccountId,
                             executeAfter: U64, approve: Option<ProposalApproval>, predecessor: Option<U64>)

  // ---- The folds of the source ----

  function FoldDeposit(acc: U128, actions: seq<FunctionCall>): U128
    decreases actions
  {
    if actions == [] then acc else FoldDeposit(SatAdd128(acc, actions[0].deposit), actions[1..])
  }

  function TotalDeposit(r: Request): U128 {
    FoldDeposit(0, r.actions)
  }

  function FoldGas(acc: U64, actions: seq<FunctionCall>): U64
    decreases actions
  {
    if actions == [] then acc else FoldGas(SatAdd64(acc, actions[0].gas), actions[1..])
  }

  function TotalGas(r: Request): U64 {
    var fees := SatMul64(GAS_PER_ACTION, |r.actions|);
    var plain := SatAdd64(SatAdd64(SatAdd64(FoldGas(0, r.actions), fees), GAS_PER_RECEIPT), GAS_FOR_EXECUTE_BODY);
    if r.approve.None? then plain
    else
      SatAdd64(SatAdd64(SatAdd64(SatAdd64(plain, GAS_PER_RECEIPT), GAS_PER_ACTION), GAS_FOR_ON_PROPOSAL_ADDED),
               r.approve.value.actGas)
  }

  // ---- The exact totals ----

  function DepositOf(c: FunctionCall): nat { c.deposit }

  function GasOf(c: FunctionCall): nat { c.gas }

  function DepositSum(actions: seq<FunctionCall>): nat { Sum(actions, DepositOf) }

  function ExactGas(r: Request): nat {
    Sum(r.actions, GasOf) + GAS_PER_ACTION * |r.actions| + GAS_PER_RECEIPT + GAS_FOR_EXECUTE_BODY
    + if r.approve.None? then 0
      else GAS_PER_RECEIPT + GAS_PER_ACTION + GAS_FOR_ON_PROPOSAL_ADDED + r.approve.value.actGas
  }

  lemma {:induction false} FoldDepositClamps(acc: U128, actions: seq<FunctionCall>)
    ensures FoldDeposit(acc, actions) == Min(U128_MAX, acc + DepositSum(actions))
    decreases actions
  {
    if actions != [] {
      SumFront(actions, DepositOf);
      FoldDepositClamps(SatAdd128(acc, actions[0].deposit), actions[1..]);
    }
  }

  lemma {:induction false} FoldGasClamps(acc: U64, actions: seq<FunctionCall>)
    ensures FoldGas(acc, actions) == Min(U64_MAX, acc + Sum(actions, GasOf))
    decreases actions
  {
    if actions != [] {
      SumFront(actions, GasOf);
      FoldGasClamps(SatAdd64(acc, actions[0].gas), actions[1..]);
    }
  }

  /** The escrow check compares with the exact sum of the deposits unless that sum exceeds u128. */
  lemma TotalDepositExact(r: Request)
    ensures TotalDeposit(r) == DepositSum(r.actions) <==> DepositSum(r.actions) <= U128_MAX
    ensures TotalDeposit(r) < U128_MAX ==> TotalDeposit(r) == DepositSum(r.actions)
  {
    FoldDepositClamps(0, r.actions);
  }

  /** The saturating gas total is the exact total capped at u64: no request slips under the limit by saturation. */
  lemma TotalGasClamps(r: Request)
    ensures TotalGas(r) == Min(U64_MAX, ExactGas(r))
  {
    FoldGasClamps(0, r.actions);
  }

  lemma GasLimitExact(r: Request)
    ensures TotalGas(r) <= MAX_EXECUTION_GAS <==> ExactGas(r) <= MAX_EXECUTION_GAS
    ensures TotalGas(r) <= MAX_EXECUTION_GAS ==> TotalGas(r) == ExactGas(r)
  {
    TotalGasClamps(r);
  }

  /** A plain request within the gas limit has at most 280 actions. */
  lemma PlainActionBound(r: Request)
    requires r.approve.None? && TotalGas(r) <= MAX_EXECUTION_GAS
    ensures |r.actions| <= 280
  {
    GasLimitExact(r);
  }

  /** The bound is sharp: 280 actions that attach no gas are within the limit. */
  lemma PlainActionBoundSharp(r: Request)
    requires r.approve.None? && |r.actions| == 280 && forall c | c in r.actions :: c.gas == 0
    ensures TotalGas(r) <= MAX_EXECUTION_GAS
  {
    SumZero(r.actions, GasOf);
    GasLimitExact(r);
  }

  /** A proposal request fits exactly when its two calls attach at most 262606 GGas together. */
  lemma ProposalGasBound(r: Request)
    requires r.approve.Some? && |r.actions| == 1
    ensures TotalGas(r) <= MAX_EXECUTION_GAS <==> r.actions[0].gas + r.approve.value.actGas <= 262_606 * GGAS
  {
    SumOne(r.actions[0], GasOf);
    assert r.actions == [r.actions[0]];
    GasLimitExact(r);
  }
}
