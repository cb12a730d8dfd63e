/**
 * The coin stack (`components/CoinStack.tsx`): one visual coin per ten
 * coins, at most ten, and a placeholder when there are none to draw.
 */
module CoinStack {
  const MaxVisualCoins := 10

  function Min(a: int, b: int): int
  {
    if a <= b then a else b
  }

  /** `Math.floor(coins / 10)`: Dafny's `/` with a positive divisor rounds down. */
  function FloorDiv10(coins: int): int
  {
    coins / 10
  }

  /** `visualCoinCount = Math.min(10, Math.floor(coins / 10))`. */
  function VisualCoinCount(coins: int): int
  {
    Min(MaxVisualCoins, FloorDiv10(coins))
  }

  /** `Array.from({ length })`: a negative length gives an empty array. */
  function ElementCount(length: int): nat
  {
    if length > 0 then length else 0
  }

  /** The placeholder is shown when no coin element is drawn. */
  predicate ShowsPlaceholder(coins: int)
  {
    ElementCount(VisualCoinCount(coins)) == 0
  }

  /** At most ten coins are drawn; below 110 coins the count is exactly coins / 10, and it is exact from below. */
  lemma VisualCoinCountBounds(coins: int)
    ensures VisualCoinCount(coins) <= MaxVisualCoins
    ensures 0 <= coins < 110 ==> VisualCoinCount(coins) * 10 <= coins < (VisualCoinCount(coins) + 1) * 10
    ensures coins >= 100 ==> VisualCoinCount(coins) == MaxVisualCoins
  {
  }

  /** The count never drops when coins grow. */
  lemma VisualCoinCountMonotone(coins: int, coins': int)
    requires coins <= coins'
    ensures VisualCoinCount(coins) <= VisualCoinCount(coins')
  {
    assert FloorDiv10(coins) <= FloorDiv10(coins') by {
      var q, q' := coins / 10, coins' / 10;
      assert coins == q * 10 + coins % 10;
      assert coins' == q' * 10 + coins' % 10;
    }
  }

  /** The placeholder shows exactly below ten coins; otherwise as many elements as the count are drawn. */
  lemma PlaceholderIffFewerThanTen(coins: int)
    ensures ShowsPlaceholder(coins) <==> coins < 10
    ensures coins >= 0 ==> ElementCount(VisualCoinCount(coins)) == VisualCoinCount(coins)
  {
  }
}
