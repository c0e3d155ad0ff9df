// Time as the firmware sees it: millis() is a 32-bit unsigned counter, so
// "now - since" and "now - INTERVAL" wrap modulo 2^32. Also the small pieces
// of integer arithmetic the pages share: constrain(), integer division
// against a bound, and stepping around a ring of selections.

module Clock {

  /** One more than the largest value of a 32-bit unsigned long. */
  const Wrap: int := 0x1_0000_0000

  /** A reading of millis(). */
  type Millis = x: int | 0 <= x < 0x1_0000_0000

  /** Unsigned `now - since`: the time elapsed since `since`, modulo 2^32. */
  function Elapsed(now: Millis, since: Millis): (d: Millis)
    ensures (since + d) % Wrap == now
    ensures since <= now ==> d == now - since
  {
    (now - since) % Wrap
  }

  /** Unsigned `t - d` for a constant `d`, as in `millis() - INTERVAL`. */
  function Before(t: Millis, d: nat): (r: Millis)
    ensures (r + d) % Wrap == t
    ensures d <= t ==> r == t - d
  {
    (t - d) % Wrap
  }

  /** Unsigned `t + d`. */
  function After(t: Millis, d: nat): (r: Millis)
    ensures (t + d) % Wrap == r
    ensures t + d < Wrap ==> r == t + d
  {
    (t + d) % Wrap
  }

  /** An elapsed time measured from `Before(t, back)` is the time measured
    * from `t` shifted by `back`, as long as neither wraps. */
  lemma {:induction false} ElapsedFromBefore(t: Millis, now: Millis, back: nat)
    requires back < Wrap
    requires Elapsed(now, t) + back < Wrap
    ensures Elapsed(now, Before(t, back)) == Elapsed(now, t) + back
  {
    var e := Elapsed(now, t);
    var b := Before(t, back);
    assert (t + e) % Wrap == now;
    assert (b + back) % Wrap == t;
    var k1 := (t + e) / Wrap;
    var k2 := (b + back) / Wrap;
    assert t + e == k1 * Wrap + now;
    assert b + back == k2 * Wrap + t;
    assert b + e + back == now + (k1 + k2) * Wrap;
    ModUnique(b, e + back, now, k1 + k2);
  }

  lemma {:induction false} ModUnique(b: Millis, x: int, now: Millis, k: int)
    requires 0 <= x < Wrap
    requires b + x == now + k * Wrap
    ensures Elapsed(now, b) == x
  {
    assert now - b == x + (-k) * Wrap;
    ModShift(x, -k);
  }

  lemma ModShift(x: int, m: int)
    requires 0 <= x < Wrap
    ensures (x + m * Wrap) % Wrap == x
  {
  }

  /** Arduino `constrain(x, lo, hi)`. */
  function Constrain(x: int, lo: int, hi: int): (r: int)
    requires lo <= hi
    ensures lo <= r <= hi
    ensures lo <= x <= hi ==> r == x
    ensures x < lo ==> r == lo
    ensures x > hi ==> r == hi
  {
    if x < lo then lo else if x > hi then hi else x
  }

  /** Integer division against a multiple of the divisor: `x / t` reaches
    * `k` exactly when `x` reaches `k * t`. */
  lemma {:induction false} DivAtLeast(x: int, t: int, k: int)
    requires x >= 0 && t > 0
    ensures x / t >= k <==> x >= k * t
  {
    var q := x / t;
    assert x == q * t + x % t && 0 <= x % t < t;
    if q >= k {
      MulMonotone(k, q, t);
    } else {
      MulMonotone(q + 1, k, t);
    }
  }

  lemma {:induction false} MulMonotone(a: int, b: int, t: int)
    requires a <= b && t >= 0
    ensures a * t <= b * t
  {
    assert b * t - a * t == (b - a) * t;
  }

  /** The selection after `i` in a ring of `n`: the last wraps to the first. */
  function Succ(i: int, n: int): (r: int)
    requires 0 <= i < n
    ensures 0 <= r < n && r == (i + 1) % n
  {
    if i + 1 >= n then 0 else i + 1
  }

  /** The selection before `i` in a ring of `n`: the first wraps to the last. */
  function Pred(i: int, n: int): (r: int)
    requires 0 <= i < n
    ensures 0 <= r < n && r == (i - 1) % n
  {
    if i - 1 < 0 then n - 1 else i - 1
  }

  /** Stepping forward then back, or back then forward, returns to `i`. */
  lemma {:induction false} SuccPredInverse(i: int, n: int)
    requires 0 <= i < n
    ensures Pred(Succ(i, n), n) == i && Succ(Pred(i, n), n) == i
  {
  }
}
