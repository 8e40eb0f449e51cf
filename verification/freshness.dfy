/** The freshness test on request timestamps, with the machine arithmetic written out. */
module Freshness {
  import opened Text

  /** `std::uint64_t` to `std::int64_t`. */
  function ToInt64(d: uint64): int { if d < TWO_63 then d else d - TWO_64 }

  function Distance(now: uint64, timestamp: uint64): (d: uint64) {
    if now > timestamp then now - timestamp else timestamp - now
  }

  /** `std::abs` on `std::int64_t`; its value at -2^63 is undefined, and `absMin` stands for it. */
  function Abs64(d: int, absMin: int): int {
    if d == -TWO_63 then absMin else if d < 0 then -d else d
  }

  /** The test all three handlers make before they accept a timestamp. */
  predicate Fresh(now: uint64, timestamp: uint64, interval: uint32, absMin: int) {
    Abs64(ToInt64(Distance(now, timestamp)), absMin) <= interval
  }

  /** What the test means for any two readings: it looks at how far apart they are, and beyond half of the
      64-bit range at how much is missing to the whole of it. */
  lemma {:induction false} FreshMeans(now: uint64, t: uint64, interval: uint32, absMin: int)
    ensures var gap := if t <= now then now - t else t - now;
            Fresh(now, t, interval, absMin) <==>
              if gap < 9223372036854775808 then gap <= interval
              else if gap == 9223372036854775808 then absMin <= interval
              else 18446744073709551616 - gap <= interval
  {}

  /** For which clock readings is the test exactly `|now - timestamp| <= interval`?
      For all but the `interval` lowest and the `interval` highest ones, the one
      undefined distance 2^63 aside. */
  lemma FreshIsExact(now: uint64, interval: uint32, absMin: int)
    ensures (forall t: uint64 :: Distance(now, t) != TWO_63 ==>
                 (Fresh(now, t, interval, absMin) <==> Distance(now, t) <= interval))
       <==> interval <= now < TWO_64 - interval
  {
    if now < interval {
      var t: uint64 := TWO_64 - 1;
      assert Distance(now, t) != TWO_63 && Distance(now, t) > interval && Fresh(now, t, interval, absMin);
    } else if now >= TWO_64 - interval {
      var t: uint64 := 0;
      assert Distance(now, t) != TWO_63 && Distance(now, t) > interval && Fresh(now, t, interval, absMin);
    }
  }

  /** A clock that reads a sane time: past its first `interval` milliseconds and
      further than that from 2^63. */
  predicate SaneClock(now: int, interval: uint32) { interval <= now < TWO_63 - interval }

  /** Two sane readings at which one timestamp is fresh are at most two intervals apart. */
  lemma {:induction false} FreshTwice(now: uint64, later: uint64, timestamp: uint64, interval: uint32, absMin: int)
    requires SaneClock(now, interval) && SaneClock(later, interval)
    requires Fresh(now, timestamp, interval, absMin) && Fresh(later, timestamp, interval, absMin)
    ensures later - now <= 2 * interval
  {}
}
