/** The native-context search over an opaque memory planner, and the auto/fixed policy that uses it. */
module WarpContext {
  import opened Wrappers

  const BLOCK: int := 4096
  const MAX_CTX: int := 0x7FFF_FFFF

  datatype FitError = BadArguments | DoesNotFit

  /** A larger context never needs less memory. */
  ghost predicate Monotone(required: int -> int) {
    forall a, b :: a <= b ==> required(a) <= required(b)
  }

  /** The binary search over whole blocks. */
  function Search(budget: int, required: int -> int, low: nat, high: nat): (blocks: nat)
    requires low <= high
    ensures low <= blocks <= high
    decreases high - low
  {
    if low == high then low
    else
      var middle := (low + high + 1) / 2;
      if required(middle * BLOCK) <= budget then Search(budget, required, middle, high)
      else Search(budget, required, low, middle - 1)
  }

  function FitNative(native: int, budget: int, required: int -> int): Result<int, FitError> {
    if !(0 < native <= MAX_CTX) || budget <= 0 then Failure(BadArguments)
    else if required(native) <= budget then Success(native)
    else if required(if native < BLOCK then native else BLOCK) > budget then Failure(DoesNotFit)
    else Success(Search(budget, required, 1, native / BLOCK) * BLOCK)
  }

  method FitNativeContext(native: int, budget: int, required: int -> int) returns (r: Result<int, FitError>)
    ensures r == FitNative(native, budget, required)
  {
    if !(0 < native <= MAX_CTX) || budget <= 0 {
      return Failure(BadArguments);
    }
    if required(native) <= budget {
      return Success(native);
    }
    var minimum := if native < BLOCK then native else BLOCK;
    if required(minimum) > budget {
      return Failure(DoesNotFit);
    }
    var low, high := 1, native / BLOCK;
    while low < high
      invariant 1 <= low <= high
      invariant Search(budget, required, low, high) == Search(budget, required, 1, native / BLOCK)
      decreases high - low
    {
      var middle := (low + high + 1) / 2;
      if required(middle * BLOCK) <= budget {
        low := middle;
      } else {
        high := middle - 1;
      }
    }
    return Success(low * BLOCK);
  }

  /** The search ends on a block count that fits whenever its lower end does. */
  lemma {:induction false} SearchFits(budget: int, required: int -> int, low: nat, high: nat)
    requires low <= high && required(low * BLOCK) <= budget
    ensures required(Search(budget, required, low, high) * BLOCK) <= budget
    decreases high - low
  {
    if low < high {
      var middle := (low + high + 1) / 2;
      if required(middle * BLOCK) <= budget {
        SearchFits(budget, required, middle, high);
      } else {
        SearchFits(budget, required, low, middle - 1);
      }
    }
  }

  /** With a monotone planner no larger block count in range fits. */
  lemma {:induction false} SearchIsMaximal(budget: int, required: int -> int, low: nat, high: nat, n: nat)
    requires Monotone(required) && low <= high && Search(budget, required, low, high) < n <= high
    ensures required(n * BLOCK) > budget
    decreases high - low
  {
    if low < high {
      var middle := (low + high + 1) / 2;
      if required(middle * BLOCK) <= budget {
        SearchIsMaximal(budget, required, middle, high, n);
      } else if n < middle {
        SearchIsMaximal(budget, required, low, middle - 1, n);
      } else {
        assert required(middle * BLOCK) <= required(n * BLOCK);
      }
    }
  }

  /** Whatever the planner says, an answer fits the budget and the native window, and is the native
      window or a whole number of blocks. */
  lemma AnswerFits(native: int, budget: int, required: int -> int)
    ensures var r := FitNative(native, budget, required);
            r.Success? ==> 0 < r.value <= native && required(r.value) <= budget
                           && (r.value == native || r.value % BLOCK == 0)
  {
    if FitNative(native, budget, required).Success? && required(native) > budget {
      SearchFits(budget, required, 1, native / BLOCK);
    }
  }

  /** With a monotone planner the native window is used when it fits, otherwise the largest whole
      number of blocks that does. */
  lemma AnswerIsLargest(native: int, budget: int, required: int -> int, other: int)
    requires Monotone(required) && FitNative(native, budget, required).Success?
    requires 0 < other <= native && (other == native || other % BLOCK == 0) && required(other) <= budget
    ensures other <= FitNative(native, budget, required).value
  {
    if required(native) > budget {
      var n := other / BLOCK;
      assert other == n * BLOCK;
      if Search(budget, required, 1, native / BLOCK) < n {
        SearchIsMaximal(budget, required, 1, native / BLOCK, n);
      }
    }
  }

  /** An instance: 55000 units of budget at one unit a token are thirteen blocks of 4096. */
  lemma ThirteenBlocks()
    ensures FitNative(100000, 55000, x => x) == Success(53248)
  {
    RaisesExactlyWhen(100000, 55000, x => x);
    AnswerFits(100000, 55000, x => x);
    AnswerIsLargest(100000, 55000, x => x, 53248);
  }

  /** It raises exactly for bad arguments or when the minimum does not fit. */
  lemma RaisesExactlyWhen(native: int, budget: int, required: int -> int)
    requires Monotone(required)
    ensures FitNative(native, budget, required).Failure? <==>
              !(0 < native <= MAX_CTX) || budget <= 0 || required(if native < BLOCK then native else BLOCK) > budget
  {
    assert required(if native < BLOCK then native else BLOCK) <= required(native) || native < BLOCK;
  }

  // ----- the auto/fixed policy

  datatype PrepareError = ConflictingArguments | BadFixedContext | UnknownNative | PlanningFailed

  /** The persisted part of a WARP model entry. */
  datatype Policy = Policy(nCtx: int, auto: Option<bool>)

  /** What the machine offers: a `--ctx` flag among the extra arguments, the native window, the
      memory budget and the planner. */
  datatype Host = Host(hasCtxFlag: bool, native: Option<int>, budget: int, required: int -> int)

  /** Unmarked entries with a legacy default are sized automatically. */
  function IsAuto(p: Policy): bool {
    if p.auto.Some? then p.auto.value else p.nCtx == 0 || p.nCtx == 65536
  }

  function Prepared(p: Policy, host: Host): Result<Policy, PrepareError> {
    if host.hasCtxFlag then Failure(ConflictingArguments)
    else if !IsAuto(p) then
      if 0 < p.nCtx <= MAX_CTX then Success(Policy(p.nCtx, Some(false))) else Failure(BadFixedContext)
    else if host.native.None? || !(0 < host.native.value <= MAX_CTX) then Failure(UnknownNative)
    else
      match FitNative(host.native.value, host.budget, host.required)
      case Failure(_) => Failure(PlanningFailed)
      case Success(resolved) => Success(Policy(resolved, Some(true)))
  }

  class WarpEngine {
    var policy: Policy
    var contextPrepared: bool

    constructor (policy: Policy)
      ensures this.policy == policy && !contextPrepared
    {
      this.policy, contextPrepared := policy, false;
    }

    /** `_prepare_context`: resolves once per engine; an error leaves the entry as it was. */
    method PrepareContext(host: Host) returns (error: Option<PrepareError>)
      modifies this
      ensures old(contextPrepared) ==> policy == old(policy) && contextPrepared && error == None
      ensures !old(contextPrepared) ==>
                match Prepared(old(policy), host)
                case Failure(e) => error == Some(e) && policy == old(policy) && !contextPrepared
                case Success(p) => error == None && policy == p && contextPrepared
    {
      if contextPrepared {
        return None;
      }
      if host.hasCtxFlag {
        return Some(ConflictingArguments);
      }
      var auto := if policy.auto.Some? then policy.auto.value else policy.nCtx in {0, 65536};
      if !auto {
        if !(0 < policy.nCtx <= MAX_CTX) {
          return Some(BadFixedContext);
        }
        policy := policy.(auto := Some(false));
        contextPrepared := true;
        return None;
      }
      if host.native.None? || !(0 < host.native.value <= MAX_CTX) {
        return Some(UnknownNative);
      }
      var plan := FitNativeContext(host.native.value, host.budget, host.required);
      if plan.Failure? {
        return Some(PlanningFailed);
      }
      AnswerFits(host.native.value, host.budget, host.required);
      policy := Policy(plan.value, Some(true));
      contextPrepared := true;
      return None;
    }
  }

  /** A fixed entry is taken as it is when it is a context at all, and an automatic one as the host's
      planner says.  Entries without a mark are fixed, except for the two legacy defaults. */
  lemma ModesOf(nCtx: int, host: Host)
    ensures Prepared(Policy(nCtx, Some(false)), host)
            == if host.hasCtxFlag then Failure(ConflictingArguments)
               else if 1 <= nCtx <= 2147483647 then Success(Policy(nCtx, Some(false))) else Failure(BadFixedContext)
    ensures var r := Prepared(Policy(nCtx, Some(true)), host);
            && (r.Success? <==> && !host.hasCtxFlag && host.native.Some? && 1 <= host.native.value <= 2147483647
                                && FitNative(host.native.value, host.budget, host.required).Success?)
            && (r.Success? ==> r.value.auto == Some(true)
                               && FitNative(host.native.value, host.budget, host.required) == Success(r.value.nCtx))
    ensures Prepared(Policy(nCtx, None), host) == Prepared(Policy(nCtx, Some(nCtx in {0, 65536})), host)
  {}

  /** Starting again from the persisted entry on the same host gives the same context and mode. */
  lemma PreparingAgainIsStable(p: Policy, host: Host)
    requires Prepared(p, host).Success?
    ensures Prepared(Prepared(p, host).value, host) == Prepared(p, host)
  {}

  /** An intentional fixed limit survives every start, and automatic sizing follows the host. */
  lemma PolicyIsKept(p: Policy, before: Host, after: Host)
    requires Prepared(p, before).Success? && Prepared(Prepared(p, before).value, after).Success?
    ensures var once := Prepared(p, before).value;
            var twice := Prepared(once, after).value;
            && twice.auto == once.auto == Some(IsAuto(p))
            && (!IsAuto(p) ==> twice.nCtx == p.nCtx)
            && (IsAuto(p) ==> Prepared(p, after) == Success(twice))
  {}
}
