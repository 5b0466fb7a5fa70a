/** The search depth of pkg/utils/args/depth.go: a natural number or "all". */
module Depths {

  datatype Depth = Depth(n: nat, infinity: bool) {
    predicate IsZero() {
      n == 0 && !infinity
    }

    predicate IsInfinity() {
      infinity
    }

    function Add(k: int): Depth {
      if infinity then NewInfinityDepth()
      else if k < 0 then (if n < -k then NewDepth(0) else NewDepth(n - (-k)))
      else NewDepth(n + k)
    }
  }

  function NewDepth(value: nat): Depth {
    Depth(value, false)
  }

  function NewInfinityDepth(): Depth {
    Depth(0, true)
  }

  /** Only zero is zero, "all" never ends, and counting down a number stops at zero. */
  lemma DepthsMean(n: nat, k: nat)
    ensures NewDepth(n).IsZero() <==> n == 0
    ensures !NewInfinityDepth().IsZero() && NewInfinityDepth().Add(0 - k) == NewInfinityDepth()
    ensures NewDepth(n).Add(0 - k) == NewDepth(if k <= n then n - k else 0)
  {
  }
}
