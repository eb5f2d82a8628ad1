/** The courier's share of an accepted offer (credit-service/internal/reservation/lateness.go). */
module Lateness {

  // Division that drops the fraction, rounding toward zero.
  function Quotient(n: int, d: int): (q: int)
    requires d > 0
    ensures n >= 0 ==> q * d <= n < (q + 1) * d
    ensures n < 0 ==> (q - 1) * d < n <= q * d
  {
    if n >= 0 then n / d else -((-n) / d)
  }

  // elapsed = delivered - picked up. The third branch divides only by a positive allowance.
  function Payable(reward: int, elapsed: int, allowed: int): int {
    if elapsed <= allowed then reward
    else if elapsed >= 2 * allowed then 0
    else Quotient(reward * (2 * allowed - elapsed), allowed)
  }

  lemma MulOrder(a: int, b: int, c: int)
    requires a <= b && 0 <= c
    ensures a * c <= b * c
  {}

  // Any two floors are ordered like their numerators.
  lemma FloorOrder(n: int, m: int, p: int, q: int, d: int)
    requires d > 0 && n <= m && p * d <= n && m < (q + 1) * d
    ensures p <= q
  {
    if q < p {
      MulOrder(q + 1, p, d);
    }
  }

  lemma QuotientOrder(n: int, m: int, d: int)
    requires 0 <= n <= m && d > 0
    ensures 0 <= Quotient(n, d) <= Quotient(m, d)
  {
    var p, q := Quotient(n, d), Quotient(m, d);
    FloorOrder(n, m, p, q, d);
    FloorOrder(0, n, 0, p, d);
  }

  lemma QuotientCancels(a: int, d: int)
    requires d > 0 && a >= 0
    ensures Quotient(a * d, d) == a
  {
    MulOrder(0, a, d);
    var q := Quotient(a * d, d);
    FloorOrder(a * d, a * d, a, q, d);
    FloorOrder(a * d, a * d, q, a, d);
  }

  /** Never negative, never above the reward: settlement cannot pay more than the hold. */
  lemma PayableBounds(reward: int, elapsed: int, allowed: int)
    requires reward >= 0 && allowed > 0
    ensures 0 <= Payable(reward, elapsed, allowed) <= reward
  {
    if allowed < elapsed < 2 * allowed {
      MulOrder(0, 2 * allowed - elapsed, reward);
      MulOrder(2 * allowed - elapsed, allowed, reward);
      QuotientOrder(reward * (2 * allowed - elapsed), reward * allowed, allowed);
      QuotientCancels(reward, allowed);
    }
  }

  /** A later delivery never pays more. */
  lemma PayableAntitone(reward: int, early: int, late: int, allowed: int)
    requires reward >= 0 && allowed > 0 && early <= late
    ensures Payable(reward, late, allowed) <= Payable(reward, early, allowed)
  {
    if early <= allowed || 2 * allowed <= late {
      PayableBounds(reward, early, allowed);
      PayableBounds(reward, late, allowed);
    } else {
      MulOrder(2 * allowed - late, 2 * allowed - early, reward);
      MulOrder(0, 2 * allowed - late, reward);
      QuotientOrder(reward * (2 * allowed - late), reward * (2 * allowed - early), allowed);
    }
  }

  /** A larger offer never pays less for the same delivery. */
  lemma PayableMonotone(low: int, high: int, elapsed: int, allowed: int)
    requires 0 <= low <= high && allowed > 0
    ensures Payable(low, elapsed, allowed) <= Payable(high, elapsed, allowed)
  {
    if allowed < elapsed < 2 * allowed {
      MulOrder(low, high, 2 * allowed - elapsed);
      MulOrder(0, low, 2 * allowed - elapsed);
      QuotientOrder(low * (2 * allowed - elapsed), high * (2 * allowed - elapsed), allowed);
    }
  }

  /** Between T and 2T the payout is the exact floor of R * (2T - elapsed) / T, and that formula
      already gives the two flat branches at their borders. */
  lemma PayableIsExactFloor(reward: int, elapsed: int, allowed: int)
    requires reward >= 0 && allowed > 0 && allowed <= elapsed <= 2 * allowed
    ensures Payable(reward, elapsed, allowed) * allowed <= reward * (2 * allowed - elapsed)
    ensures reward * (2 * allowed - elapsed) < (Payable(reward, elapsed, allowed) + 1) * allowed
  {
    MulOrder(0, 2 * allowed - elapsed, reward);
  }
}
