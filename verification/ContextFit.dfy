/** Memory-aware context sizing: the closed-form fit, the policy around it, and the write-back of
    the resolved context.  Sizes are exact reals in gigabytes; contexts are token counts. */
module ContextFit {
  import opened Wrappers

  const MIN_SANE_CTX: nat := 16384
  const MIN_CTX: nat := 8192
  const CAPPED_CTX: nat := 32768
  const BLOCK: nat := 4096
  const OVERHEAD: real := 1.10
  const GIGA: real := 1000000000.0

  function Min(a: int, b: int): int { if a <= b then a else b }

  function Max(a: int, b: int): int { if a <= b then b else a }

  /** (GPU budget, RAM limit) of a machine. */
  function MemoryBudgets(totalRam: real, macos: bool): (real, real) {
    var ramLimit := totalRam * 0.9 - 3.0;
    (if macos then totalRam * 0.75 else ramLimit, ramLimit)
  }

  /** A share of 75% instead of 90% less 3 GB: macOS offers less from 20 GB on, and more below. */
  lemma MacBudget(totalRam: real)
    ensures MemoryBudgets(totalRam, true).0 <= MemoryBudgets(totalRam, false).0 <==> totalRam >= 20.0
    ensures MemoryBudgets(totalRam, true).1 == MemoryBudgets(totalRam, false).0 == MemoryBudgets(totalRam, false).1
    ensures MemoryBudgets(64.0, true) == (48.0, 54.6)
  {}

  /** What the KV cache of `ctx` tokens takes. */
  function KvSize(kvRate: int, ctx: int): real { kvRate as real * ctx as real / GIGA }

  /** What is left for the KV cache next to the loaded weights, keeping 1 GB spare. */
  function Spare(weights: real, totalRam: real, macos: bool): real {
    MemoryBudgets(totalRam, macos).0 - weights * OVERHEAD - 1.0
  }

  /** Weights and the KV cache of `ctx` stay within the budget, with `margin` to spare. */
  predicate Fits(kvRate: int, weights: real, totalRam: real, macos: bool, ctx: int, margin: real) {
    weights * OVERHEAD + KvSize(kvRate, ctx) + margin <= MemoryBudgets(totalRam, macos).0
  }

  /** What a machine is given whose weights alone exceed the budget. */
  function Cap(target: int, minCtx: int): int { Max(Min(target, CAPPED_CTX), minCtx) }

  /** The three outcomes of a fit: the target as asked, the cap when the weights alone are too
      large, and a context reduced to what fits. */
  datatype Fit = Unchanged(ctx: int) | Capped(ctx: int) | Reduced(ctx: int)

  function FitContext(kvRate: int, weights: real, totalRam: real, target: int, minCtx: int, macos: bool): Fit
    requires kvRate > 0
  {
    var spare := Spare(weights, totalRam, macos);
    if Fits(kvRate, weights, totalRam, macos, target, 0.0) then Unchanged(target)
    else if spare <= 0.0 then Capped(Cap(target, minCtx))
    else
      var tokens := (spare * GIGA / kvRate as real).Floor;
      Reduced(Max((tokens / BLOCK) * BLOCK, minCtx))
  }

  lemma KvMonotone(kvRate: int, a: int, b: int)
    requires kvRate > 0 && a <= b
    ensures KvSize(kvRate, a) <= KvSize(kvRate, b)
  {
    assert kvRate as real * (b - a) as real >= 0.0;
  }

  /** The token count of a KV budget: it fits, and one more token would not. */
  lemma TokensFit(kvRate: int, budget: real, n: int)
    requires kvRate > 0
    ensures var tokens := (budget * GIGA / kvRate as real).Floor;
            n <= tokens <==> KvSize(kvRate, n) <= budget
  {
    var rate, exact := kvRate as real, budget * GIGA / kvRate as real;
    assert rate * exact == budget * GIGA;
    assert KvSize(kvRate, n) * GIGA == rate * n as real;
    if n as real <= exact {
      MulOrder(rate, n as real, exact);
    } else {
      MulOrder(rate, exact, n as real);
    }
  }

  lemma MulOrder(r: real, x: real, y: real)
    requires r > 0.0
    ensures x <= y ==> r * x <= r * y
    ensures x < y ==> r * x < r * y
  {
    assert r * y - r * x == r * (y - x);
    if x < y {
      assert r * (y - x) > 0.0;
    }
  }

  /** A target that is not below the minimum is never exceeded. */
  lemma NeverAboveTarget(kvRate: int, weights: real, totalRam: real, target: int, minCtx: int, macos: bool)
    requires kvRate > 0 && target >= minCtx
    ensures minCtx <= FitContext(kvRate, weights, totalRam, target, minCtx, macos).ctx <= target
  {
    var spare := Spare(weights, totalRam, macos);
    if !Fits(kvRate, weights, totalRam, macos, target, 0.0) && spare > 0.0 {
      TokensFit(kvRate, spare, target);
    }
  }

  /** A reduced context above the minimum fits with 1 GB to spare, and 4096 tokens more would not. */
  lemma ReducedIsMaximal(kvRate: int, weights: real, totalRam: real, target: int, minCtx: int, macos: bool)
    requires kvRate > 0
    ensures var fit := FitContext(kvRate, weights, totalRam, target, minCtx, macos);
            fit.Reduced? && fit.ctx > minCtx ==>
              && fit.ctx % BLOCK == 0
              && Fits(kvRate, weights, totalRam, macos, fit.ctx, 1.0)
              && !Fits(kvRate, weights, totalRam, macos, fit.ctx + BLOCK, 1.0)
  {
    var spare := Spare(weights, totalRam, macos);
    var tokens := (spare * GIGA / kvRate as real).Floor;
    var rounded := (tokens / BLOCK) * BLOCK;
    TokensFit(kvRate, spare, rounded);
    TokensFit(kvRate, spare, rounded + BLOCK);
  }

  /** The next multiple of `BLOCK`. */
  function RoundUp(ctx: int): int { (ctx + BLOCK - 1) / BLOCK * BLOCK }

  /** The weights leave no room on the smaller machine and some on the larger one, the target fits
      on neither, and the larger one has no room for the cap in whole blocks. */
  predicate DropsAtTheCap(kvRate: int, weights: real, small: real, large: real, target: int, minCtx: int, macos: bool) {
    && Spare(weights, small, macos) <= 0.0 < Spare(weights, large, macos)
    && !Fits(kvRate, weights, small, macos, target, 0.0) && !Fits(kvRate, weights, large, macos, target, 0.0)
    && Cap(target, minCtx) > minCtx && !Fits(kvRate, weights, large, macos, RoundUp(Cap(target, minCtx)), 1.0)
  }

  /** The target is below the minimum, and only the larger machine can take it as asked. */
  predicate DropsToTheTarget(kvRate: int, weights: real, small: real, large: real, target: int, minCtx: int, macos: bool) {
    && target < minCtx
    && !Fits(kvRate, weights, small, macos, target, 0.0) && Fits(kvRate, weights, large, macos, target, 0.0)
  }

  predicate Drops(kvRate: int, weights: real, small: real, large: real, target: int, minCtx: int, macos: bool) {
    || DropsAtTheCap(kvRate, weights, small, large, target, minCtx, macos)
    || DropsToTheTarget(kvRate, weights, small, large, target, minCtx, macos)
  }

  /** More RAM never gives less context, except exactly when it drops. */
  lemma MonotoneInRam(kvRate: int, weights: real, small: real, large: real, target: int, minCtx: int, macos: bool)
    requires kvRate > 0 && small <= large
    ensures FitContext(kvRate, weights, small, target, minCtx, macos).ctx
            <= FitContext(kvRate, weights, large, target, minCtx, macos).ctx
            <==> !Drops(kvRate, weights, small, large, target, minCtx, macos)
  {
    if target < minCtx {
      ClampedToMinimum(kvRate, weights, small, target, minCtx, macos);
      ClampedToMinimum(kvRate, weights, large, target, minCtx, macos);
    } else {
      MonotoneAboveMinimum(kvRate, weights, small, large, target, minCtx, macos);
    }
  }

  /** A target below the minimum is taken as it is, or raised to the minimum. */
  lemma ClampedToMinimum(kvRate: int, weights: real, totalRam: real, target: int, minCtx: int, macos: bool)
    requires kvRate > 0 && target < minCtx
    ensures FitContext(kvRate, weights, totalRam, target, minCtx, macos).ctx
            == if Fits(kvRate, weights, totalRam, macos, target, 0.0) then target else minCtx
  {
    TokensFit(kvRate, Spare(weights, totalRam, macos), target);
  }

  lemma MonotoneAboveMinimum(kvRate: int, weights: real, small: real, large: real, target: int, minCtx: int, macos: bool)
    requires kvRate > 0 && target >= minCtx && small <= large
    ensures FitContext(kvRate, weights, small, target, minCtx, macos).ctx
            <= FitContext(kvRate, weights, large, target, minCtx, macos).ctx
            <==> !DropsAtTheCap(kvRate, weights, small, large, target, minCtx, macos)
  {
    var less := FitContext(kvRate, weights, small, target, minCtx, macos);
    var more := FitContext(kvRate, weights, large, target, minCtx, macos);
    NeverAboveTarget(kvRate, weights, small, target, minCtx, macos);
    if less.Capped? && more.Reduced? {
      ReducedReaches(kvRate, weights, large, target, minCtx, macos, Cap(target, minCtx));
    } else {
      MonotoneOtherwise(kvRate, weights, small, large, target, minCtx, macos);
    }
  }

  /** When a reduced context reaches a given one above the minimum. */
  lemma ReducedReaches(kvRate: int, weights: real, totalRam: real, target: int, minCtx: int, macos: bool, ctx: int)
    requires kvRate > 0 && FitContext(kvRate, weights, totalRam, target, minCtx, macos).Reduced?
    ensures ctx <= FitContext(kvRate, weights, totalRam, target, minCtx, macos).ctx
            <==> ctx <= minCtx || Fits(kvRate, weights, totalRam, macos, RoundUp(ctx), 1.0)
  {
    var spare := Spare(weights, totalRam, macos);
    var tokens := (spare * GIGA / kvRate as real).Floor;
    TokensFit(kvRate, spare, RoundUp(ctx));
    assert ctx <= (tokens / BLOCK) * BLOCK <==> RoundUp(ctx) <= tokens;
  }

  lemma MonotoneOtherwise(kvRate: int, weights: real, small: real, large: real, target: int, minCtx: int, macos: bool)
    requires kvRate > 0 && target >= minCtx && small <= large
    ensures var less := FitContext(kvRate, weights, small, target, minCtx, macos);
            var more := FitContext(kvRate, weights, large, target, minCtx, macos);
            !(less.Capped? && more.Reduced?) ==> less.ctx <= more.ctx
  {
    NeverAboveTarget(kvRate, weights, small, target, minCtx, macos);
    var s, l := Spare(weights, small, macos), Spare(weights, large, macos);
    assert s <= l;
    if s > 0.0 {
      var t := (s * GIGA / kvRate as real).Floor;
      TokensFit(kvRate, s, t);
      TokensFit(kvRate, l, t);
      var u := (l * GIGA / kvRate as real).Floor;
      assert t / BLOCK <= u / BLOCK;
    }
  }

  /** An instance: 27 GB more, and 32768 tokens become 8192. */
  lemma CapIsNotMonotone()
    ensures FitContext(1000000, 100.0, 127.0, 32768, 8192, false).ctx
            < FitContext(1000000, 100.0, 100.0, 32768, 8192, false).ctx
    ensures FitContext(1000000, 100.0, 100.0, 32768, 8192, false) == Capped(32768)
    ensures FitContext(1000000, 100.0, 127.0, 32768, 8192, false) == Reduced(8192)
  {
    assert Spare(100.0, 100.0, false) == -24.0 && Spare(100.0, 127.0, false) == 0.3;
    assert KvSize(1000000, 32768) == 32.768;
    assert Cap(32768, 8192) == RoundUp(Cap(32768, 8192)) == 32768;
    MonotoneInRam(1000000, 100.0, 100.0, 127.0, 32768, 8192, false);
    TokensFit(1000000, 0.3, 301);
  }

  /** On macOS the same memory holds less: 40 GB of weights leave 13.2 GB elsewhere and 6 GB there. */
  lemma MacHoldsLess()
    ensures FitContext(100000, 40.0, 68.0, 262144, 8192, false) == Reduced(131072)
    ensures FitContext(100000, 40.0, 68.0, 262144, 8192, true) == Reduced(57344)
  {
    assert Spare(40.0, 68.0, false) == 13.2 && Spare(40.0, 68.0, true) == 6.0;
    assert KvSize(100000, 262144) == 26.2144;
    TokensFit(100000, 13.2, 132000);
    TokensFit(100000, 13.2, 132001);
    TokensFit(100000, 6.0, 60000);
    TokensFit(100000, 6.0, 60001);
  }

  /** The other way to lose: 10 GB more, and a target of 4096 is no longer raised to 8192. */
  lemma ClampIsNotMonotone()
    ensures FitContext(1000000, 0.0, 6.0, 4096, 8192, false).ctx == 8192
    ensures FitContext(1000000, 0.0, 16.0, 4096, 8192, false).ctx == 4096
  {
    assert KvSize(1000000, 4096) == 4.096;
    ClampedToMinimum(1000000, 0.0, 6.0, 4096, 8192, false);
    ClampedToMinimum(1000000, 0.0, 16.0, 4096, 8192, false);
  }

  // ----- the policy

  /** What the catalog and the disk know about a model on a machine. */
  datatype Machine = Machine(native: nat, kvRate: int, size: Option<real>, totalRam: Option<real>, macos: bool)
  {
    /** An unknown size counts as nothing when a context is fitted. */
    const weights: real := if size.Some? then size.value else 0.0
  }

  function Target(m: Machine, nCtx: int): int {
    if nCtx >= MIN_SANE_CTX then nCtx else m.native
  }

  /** `compute_memory_aware_ctx`. */
  function ComputeCtx(m: Machine, nCtx: int): int
    requires m.kvRate > 0
  {
    match m.totalRam
    case None => Target(m, nCtx)
    case Some(ram) => FitContext(m.kvRate, m.weights, ram, Target(m, nCtx), MIN_CTX, m.macos).ctx
  }

  /** Without a known RAM size a sane request is taken as it is and any other becomes the native window;
      a model of unknown size is fitted like an empty one. */
  lemma UnknownSizes(m: Machine, nCtx: int)
    requires m.kvRate > 0
    ensures ComputeCtx(m.(totalRam := None), nCtx) == if nCtx >= 16384 then nCtx else m.native
    ensures ComputeCtx(m.(size := None), nCtx) == ComputeCtx(m.(size := Some(0.0)), nCtx)
  {}

  /** What the model needs with its resolved context is within the GPU budget exactly when the target
      is, or the smallest context it may get: the minimum, or the cap where the weights leave no room. */
  lemma NeedIsWithinBudget(m: Machine, nCtx: int)
    requires m.kvRate > 0 && m.totalRam.Some? && Target(m, nCtx) >= MIN_CTX
    ensures var ram, target := m.totalRam.value, Target(m, nCtx);
            var least := if Spare(m.weights, ram, m.macos) > 0.0 then MIN_CTX else Cap(target, MIN_CTX);
            m.weights * OVERHEAD + KvSize(m.kvRate, ComputeCtx(m, nCtx)) <= MemoryBudgets(ram, m.macos).0
            <==> Fits(m.kvRate, m.weights, ram, m.macos, target, 0.0) || Fits(m.kvRate, m.weights, ram, m.macos, least, 0.0)
  {
    var fit := FitContext(m.kvRate, m.weights, m.totalRam.value, Target(m, nCtx), MIN_CTX, m.macos);
    ReducedIsMaximal(m.kvRate, m.weights, m.totalRam.value, Target(m, nCtx), MIN_CTX, m.macos);
    if fit.Reduced? {
      KvMonotone(m.kvRate, MIN_CTX, fit.ctx);
    }
  }

  /** A context above the sane minimum does not fit, reducing it leaves less than the sane minimum,
      and yet the native window fits as it is and is not what was left. */
  predicate Rebounds(m: Machine, nCtx: int)
    requires m.kvRate > 0
  {
    && m.totalRam.Some? && nCtx >= MIN_SANE_CTX
    && var ram := m.totalRam.value;
    && !Fits(m.kvRate, m.weights, ram, m.macos, nCtx, 0.0)
    && Spare(m.weights, ram, m.macos) > 0.0 && !Fits(m.kvRate, m.weights, ram, m.macos, MIN_SANE_CTX, 1.0)
    && Fits(m.kvRate, m.weights, ram, m.macos, m.native, 0.0)
    && m.native != (if Fits(m.kvRate, m.weights, ram, m.macos, MIN_CTX + BLOCK, 1.0) then MIN_CTX + BLOCK else MIN_CTX)
  }

  /** Applying the policy to its own result changes nothing, except exactly when it rebounds. */
  lemma IdempotentUnlessRebound(m: Machine, nCtx: int)
    requires m.kvRate > 0
    ensures ComputeCtx(m, ComputeCtx(m, nCtx)) == ComputeCtx(m, nCtx) <==> !Rebounds(m, nCtx)
  {
    if m.totalRam.Some? {
      TokensFit(m.kvRate, Spare(m.weights, m.totalRam.value, m.macos), MIN_SANE_CTX);
      TokensFit(m.kvRate, Spare(m.weights, m.totalRam.value, m.macos), MIN_CTX + BLOCK);
      ReducedIsMaximal(m.kvRate, m.weights, m.totalRam.value, nCtx, MIN_CTX, m.macos);
    }
  }

  /** A context within the native window never rebounds. */
  lemma StableWithinNative(m: Machine, nCtx: int)
    requires m.kvRate > 0 && nCtx <= m.native
    ensures ComputeCtx(m, ComputeCtx(m, nCtx)) == ComputeCtx(m, nCtx)
  {
    IdempotentUnlessRebound(m, nCtx);
    KvMonotone(m.kvRate, nCtx, m.native);
  }

  /** Beyond it, it can: 300000 tokens are cut to 12288, and the next start asks for 16384. */
  lemma ReboundExists()
    ensures var m := Machine(16384, 1000000, Some(0.0), Some(21.6), false);
            ComputeCtx(m, 300000) == 12288 && ComputeCtx(m, 12288) == 16384
  {
    assert Spare(0.0, 21.6, false) == 15.44;
    assert KvSize(1000000, 16384) == 16.384;
    assert KvSize(1000000, 300000) == 300.0;
    TokensFit(1000000, 15.44, 15440);
    TokensFit(1000000, 15.44, 15441);
  }

  // ----- write-back

  class Model {
    var nCtx: int
    const isLlamaCpp: bool
    const machine: Machine
    // how often the configuration file was rewritten
    ghost var writes: nat

    constructor (nCtx: int, isLlamaCpp: bool, machine: Machine)
      ensures this.nCtx == nCtx && this.isLlamaCpp == isLlamaCpp && this.machine == machine && writes == 0
    {
      this.nCtx, this.isLlamaCpp, this.machine, writes := nCtx, isLlamaCpp, machine, 0;
    }

    /** `estimate_ram_gb`: what the gate compares with the RAM limit. */
    function EstimateRam(): (r: Option<real>)
      requires machine.kvRate > 0
      reads this`nCtx
    {
      if !isLlamaCpp || machine.size.None? then None
      else Some(machine.size.value * OVERHEAD + KvSize(machine.kvRate, ComputeCtx(machine, nCtx)))
    }

    /** `_fix_context`: resolve the context and persist a correction.  The estimate the gate made
        before is the one for the context that is then started; unless the context rebounds, the
        next start resolves to the same context and so rewrites nothing. */
    method FixContext()
      requires machine.kvRate > 0
      modifies this`nCtx, this`writes
      ensures nCtx == if isLlamaCpp then ComputeCtx(machine, old(nCtx)) else old(nCtx)
      ensures writes == old(writes) + (if nCtx != old(nCtx) then 1 else 0)
      ensures old(EstimateRam()).Some? ==>
                old(EstimateRam()).value == machine.size.value * OVERHEAD + KvSize(machine.kvRate, nCtx)
      ensures isLlamaCpp && !Rebounds(machine, old(nCtx)) ==>
                ComputeCtx(machine, nCtx) == nCtx && EstimateRam() == old(EstimateRam())
    {
      IdempotentUnlessRebound(machine, nCtx);
      if !isLlamaCpp {
        return;
      }
      var resolved := ComputeCtx(machine, nCtx);
      if resolved == nCtx {
        return;
      }
      nCtx := resolved;
      writes := writes + 1;
    }
  }
}
