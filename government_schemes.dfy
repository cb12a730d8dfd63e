/**
 * The scheme carousel (`components/GovernmentSchemes.tsx`): the
 * `currentIndex` state moved by the next and previous buttons, the dots and
 * the five-second auto-advance, all modulo the number of schemes.
 */
module GovernmentSchemes {
  import opened Types

  /** JavaScript's `%` for a positive divisor: the remainder takes the sign of the dividend. */
  function JsRem(a: int, n: int): (r: int)
    requires n > 0
    ensures a >= 0 ==> 0 <= r < n && r == a % n
    ensures -n < r < n
  {
    if a >= 0 then a % n else -((-a) % n)
  }

  /** `goToNext`: `(i + 1) % n`, and no change on an empty list. */
  function Next(i: int, n: int): int
  {
    if n > 0 then JsRem(i + 1, n) else i
  }

  /** `goToPrevious`: `(i - 1 + n) % n`, and no change on an empty list. */
  function Previous(i: int, n: int): int
  {
    if n > 0 then JsRem(i - 1 + n, n) else i
  }

  lemma MulAtLeast(d: int, n: int)
    ensures d >= 1 && n > 0 ==> d * n >= n
  {
    if d >= 1 && n > 0 {
      assert d * n == n + (d - 1) * n;
      assert (d - 1) * n >= 0;
    }
  }

  /** Euclidean division is unique: a quotient and remainder in range are THE ones. */
  lemma ModUnique(a: int, n: int, q: int, r: int)
    requires n > 0 && 0 <= r < n && a == q * n + r
    ensures a % n == r
  {
    var q0 := a / n;
    var r0 := a % n;
    assert a == q0 * n + r0;
    assert (q - q0) * n == q * n - q0 * n;
    assert (q0 - q) * n == q0 * n - q * n;
    MulAtLeast(q - q0, n);
    MulAtLeast(q0 - q, n);
    assert q == q0;
  }

  /** Both moves keep a valid index valid, step by one inside the list, and wrap at the ends. */
  lemma MovesStayInRange(i: int, n: int)
    requires 0 <= i < n
    ensures Next(i, n) == if i == n - 1 then 0 else i + 1
    ensures Previous(i, n) == if i == 0 then n - 1 else i - 1
    ensures 0 <= Next(i, n) < n && 0 <= Previous(i, n) < n
  {
    if i == n - 1 {
      ModUnique(i + 1, n, 1, 0);
    } else {
      ModUnique(i + 1, n, 0, i + 1);
    }
    if i == 0 {
      ModUnique(i - 1 + n, n, 0, n - 1);
    } else {
      ModUnique(i - 1 + n, n, 1, i - 1);
    }
  }

  /** Previous undoes next and next undoes previous. */
  lemma NextPreviousInverse(i: int, n: int)
    requires 0 <= i < n
    ensures Previous(Next(i, n), n) == i
    ensures Next(Previous(i, n), n) == i
  {
    MovesStayInRange(i, n);
    MovesStayInRange(Next(i, n), n);
    MovesStayInRange(Previous(i, n), n);
  }

  /** An empty list leaves the index alone. */
  lemma EmptyListKeepsIndex(i: int)
    ensures Next(i, 0) == i && Previous(i, 0) == i
  {
  }

  /** `k` auto-advance steps from `i`. */
  function Advance(i: int, n: int, k: nat): int
  {
    if k == 0 then i else Next(Advance(i, n, k - 1), n)
  }

  /** Starting at 0 <= i < n, `k` steps reach `i + k` wrapped into one cycle (for k <= n). */
  lemma {:induction false} AdvanceWraps(i: int, n: int, k: nat)
    requires 0 <= i < n && k <= n
    ensures Advance(i, n, k) == if i + k < n then i + k else i + k - n
    decreases k
  {
    if k > 0 {
      AdvanceWraps(i, n, k - 1);
      MovesStayInRange(Advance(i, n, k - 1), n);
    }
  }

  /** `n` auto-advance steps come back to the start. */
  lemma FullCycleReturns(i: int, n: int)
    requires 0 <= i < n
    ensures Advance(i, n, n) == i
  {
    AdvanceWraps(i, n, n);
  }

  /** The carousel over the loaded schemes. */
  class SchemeCarousel {
    const schemes: seq<Scheme>
    var currentIndex: int

    /** The index points at a scheme, or is 0 when there is none. */
    predicate Valid()
      reads this
    {
      if |schemes| > 0 then 0 <= currentIndex < |schemes| else currentIndex == 0
    }

    constructor (schemes: seq<Scheme>)
      ensures this.schemes == schemes && currentIndex == 0
      ensures Valid()
    {
      this.schemes := schemes;
      currentIndex := 0;
    }

    method GoToNext()
      requires Valid()
      modifies this
      ensures currentIndex == Next(old(currentIndex), |schemes|)
      ensures Valid()
    {
      if |schemes| > 0 {
        MovesStayInRange(currentIndex, |schemes|);
        currentIndex := JsRem(currentIndex + 1, |schemes|);
      }
    }

    method GoToPrevious()
      requires Valid()
      modifies this
      ensures currentIndex == Previous(old(currentIndex), |schemes|)
      ensures Valid()
    {
      if |schemes| > 0 {
        MovesStayInRange(currentIndex, |schemes|);
        currentIndex := JsRem(currentIndex - 1 + |schemes|, |schemes|);
      }
    }

    /** A click on the dot of scheme `idx`. */
    method GoToDot(idx: int)
      requires 0 <= idx < |schemes|
      modifies this
      ensures currentIndex == idx
      ensures Valid()
    {
      currentIndex := idx;
    }

    /** One auto-advance tick; the timer runs only when there are schemes. */
    method Tick()
      requires Valid() && |schemes| > 0
      modifies this
      ensures currentIndex == Next(old(currentIndex), |schemes|)
      ensures Valid()
    {
      MovesStayInRange(currentIndex, |schemes|);
      currentIndex := JsRem(currentIndex + 1, |schemes|);
    }
  }
}
