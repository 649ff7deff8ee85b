/// Reconnect backoff: exponential from one second, capped at sixty.
module Backoff {
  import opened Protocol

  const BASE: Duration := SECOND
  const CAP: Duration := 60 * SECOND

  function Pow2(n: nat): nat {
    if n == 0 then 1 else 2 * Pow2(n - 1)
  }

  /** `1u32.checked_shl(n)`: defined only below the width of the type. */
  function CheckedShl(n: nat): Option<nat> {
    if n < 32 then Some(Pow2(n) % (U32_MAX + 1)) else None
  }

  function Min(a: nat, b: nat): nat { if a <= b then a else b }

  /** Delay before retry number `attempt`. */
  function Delay(attempt: nat): Duration {
    var shifted := CheckedShl(attempt);
    Min(BASE * (if shifted.Some? then shifted.value else U32_MAX), CAP)
  }

  lemma {:induction false} Pow2Grows(m: nat, n: nat)
    requires m <= n
    ensures Pow2(m) <= Pow2(n)
    decreases n
  {
    if m < n {
      Pow2Grows(m, n - 1);
    }
  }

  lemma Pow2Values()
    ensures Pow2(5) == 32 && Pow2(6) == 64 && Pow2(31) == 0x8000_0000
  {
    assert Pow2(5) == 32;
    assert Pow2(10) == 1024;
    assert Pow2(15) == 0x8000;
    assert Pow2(20) == 0x10_0000;
    assert Pow2(25) == 0x200_0000;
    assert Pow2(31) == 0x8000_0000;
  }

  lemma ShiftFits(n: nat)
    requires n < 32
    ensures CheckedShl(n) == Some(Pow2(n))
  {
    Pow2Values();
    Pow2Grows(n, 31);
  }

  lemma SixtyFour(n: nat)
    requires n >= 6
    ensures Pow2(n) >= 64
  {
    Pow2Values();
    Pow2Grows(6, n);
  }

  /** The 32-bit shift never distorts the schedule: it is doubling with a cap. */
  lemma DelayDoublesUpToCap(attempt: nat)
    ensures Delay(attempt) == Min(Pow2(attempt) * SECOND, 60 * SECOND)
  {
    if attempt < 32 {
      ShiftFits(attempt);
    }
    if attempt >= 6 {
      SixtyFour(attempt);
    }
  }

  /** Total wait over the first `n` consecutive retries. */
  function TotalDelay(n: nat): Duration {
    if n == 0 then 0 else TotalDelay(n - 1) + Delay(n - 1)
  }

  lemma {:induction false} TotalDelayClosedForm(n: nat)
    ensures TotalDelay(n) == if n <= 6 then (Pow2(n) - 1) * SECOND else (63 + 60 * (n - 6)) * SECOND
  {
    if n > 0 {
      TotalDelayClosedForm(n - 1);
      DelayDoublesUpToCap(n - 1);
      Pow2Values();
      if n <= 6 {
        Pow2Grows(n - 1, 5);
      } else {
        Pow2Grows(6, n - 1);
      }
    }
  }
}
