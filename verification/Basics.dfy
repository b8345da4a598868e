/** What several models share: optional values, 32-bit numbers that wrap around, and reversal. */
module Basics {

  datatype Option<+T> = None | Some(value: T)

  const UINT32_VALUES: int := 0x1_0000_0000

  type uint32 = k: int | 0 <= k < 0x1_0000_0000

  /** The number `d` steps after `k`, wrapping around at 2^32. */
  function After(k: uint32, d: int): uint32 { (k + d) % UINT32_VALUES }

  lemma AfterNext(k: uint32, d: int)
    ensures After(k, d + 1) == (After(k, d) + 1) % UINT32_VALUES
  {
  }

  /** A search that has come round to where it began has seen every number. */
  lemma AllReached(start: uint32, seen: set<uint32>, d: int)
    requires 1 <= d <= UINT32_VALUES && After(start, d) == start
    requires forall e :: 1 <= e < d ==> After(start, e) in seen
    requires start in seen
    ensures forall k: uint32 :: k in seen
  {
    assert d == UINT32_VALUES;
    forall k: uint32
      ensures k in seen
    {
      if k != start {
        var e := if k > start then k - start else k - start + UINT32_VALUES;
        assert After(start, e) == k;
      }
    }
  }

  function Reversed<T>(s: seq<T>): seq<T> { seq(|s|, i requires 0 <= i < |s| => s[|s| - 1 - i]) }
}
