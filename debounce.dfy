/** The sampling loop at the top of RotEncoder::intr: read A and B, then read
    them again, until the second reading of both agrees with the first. */
module Debounce {
  import opened Options
  import opened Quadrature

  /** A confirmed sample and the number of pin reads it took to get it. */
  datatype Settled = Settled(sample: Sample, used: nat)

  /** The loop started at read k. r[n] is what the n-th pin read reports
      ("closed" or not), in the order the loop issues them: A, B, A again and,
      only when A agreed (the `||` stops early otherwise), B again. When r
      runs out before a pass is confirmed, the loop has not returned yet and
      the result is None. */
  function Settle(r: seq<bool>, k: nat): Option<Settled>
    decreases |r| - k
  {
    if k + 3 > |r| then None
    else if r[k + 2] != r[k] then Settle(r, k + 3)
    else if k + 4 > |r| then None
    else if r[k + 3] != r[k + 1] then Settle(r, k + 4)
    else Some(Settled(Sample(r[k], r[k + 1]), k + 4))
  }

  /** The loop never returns an unconfirmed read: the pair it yields is the
      last A, B read and equals the re-read of both that immediately follows. */
  lemma {:induction false} SettleConfirmed(r: seq<bool>, k: nat)
    requires Settle(r, k).Some?
    ensures var st := Settle(r, k).value;
      k + 4 <= st.used <= |r| &&
      r[st.used - 4] == st.sample.a == r[st.used - 2] &&
      r[st.used - 3] == st.sample.b == r[st.used - 1]
    decreases |r| - k
  {
    if r[k + 2] != r[k] {
      SettleConfirmed(r, k + 3);
    } else if r[k + 3] != r[k + 1] {
      SettleConfirmed(r, k + 4);
    }
  }

  /** Contacts that do not bounce during a pass are accepted at once. */
  lemma SettleSteady(r: seq<bool>, k: nat)
    requires k + 4 <= |r| && r[k + 2] == r[k] && r[k + 3] == r[k + 1]
    ensures Settle(r, k) == Some(Settled(Sample(r[k], r[k + 1]), k + 4))
  {
  }
}
