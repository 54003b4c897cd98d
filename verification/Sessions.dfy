/** Session arithmetic (lib.rs). The source computes it in `u32`. */
module Sessions {
  type SessionId = nat

  /** A session has at least one block: the source divides by its length. */
  type Period = p: nat | 0 < p witness 1

  const U32_MAX: nat := 0xFFFF_FFFF

  /** The products the source forms for this session stay within `u32`. */
  predicate Fits(session: SessionId, period: Period)
  {
    (session + 1) * period <= U32_MAX
  }

  function LastBlockOfSession(session: SessionId, period: Period): nat
    requires Fits(session, period)
  {
    (session + 1) * period - 1
  }

  /** The block number saturates at the largest `u32`. */
  function SessionIdFromBlockNum(number: nat, period: Period): SessionId
  {
    (if number <= U32_MAX then number else U32_MAX) / period
  }

  lemma DivisionBounds(n: nat, s: nat, p: Period)
    ensures n / p == s <==> s * p <= n < (s + 1) * p
  {
    var q, r := n / p, n % p;
    assert n == q * p + r;
    assert (q + 1) * p == q * p + p && (s + 1) * p == s * p + p;
    if s < q {
      Monotone(s + 1, q, p);
    } else if q < s {
      Monotone(q + 1, s, p);
    }
  }

  lemma Monotone(a: nat, b: nat, p: nat)
    requires a <= b
    ensures a * p <= b * p
  {
    assert (b - a) * p >= 0;
    assert b * p == a * p + (b - a) * p;
  }

  /** Sessions cut the block numbers into ranges that end at their last blocks, saturation and all. */
  lemma SessionRange(number: nat, session: SessionId, period: Period)
    requires Fits(session, period)
    ensures SessionIdFromBlockNum(number, period) == session
            <==> session * period <= number <= LastBlockOfSession(session, period)
  {
    DivisionBounds(if number <= U32_MAX then number else U32_MAX, session, period);
  }

  lemma EarlierFits(a: SessionId, b: SessionId, period: Period)
    requires a <= b && Fits(b, period)
    ensures Fits(a, period)
    ensures LastBlockOfSession(a, period) <= LastBlockOfSession(b, period)
    ensures a < b ==> LastBlockOfSession(a, period) + period <= LastBlockOfSession(b, period)
    ensures a < b ==> LastBlockOfSession(a, period) < b * period
  {
    Monotone(a + 1, b + 1, period);
    if a < b {
      Monotone(a + 1, b, period);
      assert (b + 1) * period == b * period + period;
    }
  }

  /** Session lookup and last block are inverse: a number is a session's last exactly when the next starts another. */
  lemma LastBlockRoundTrip(session: SessionId, period: Period)
    requires Fits(session, period)
    ensures SessionIdFromBlockNum(LastBlockOfSession(session, period), period) == session
    ensures SessionIdFromBlockNum(LastBlockOfSession(session, period) + 1, period) == session + 1
  {
    assert (session + 1) * period == session * period + period;
    SessionRange(LastBlockOfSession(session, period), session, period);
    assert (session + 2) * period == (session + 1) * period + period;
    DivisionBounds((session + 1) * period, session + 1, period);
  }
}
