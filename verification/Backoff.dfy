/** How long a node waits between its attempts to register. */
module Backoff {
  const MAX_BACKOFF: nat := 60

  function Pow2(k: nat): nat { if k == 0 then 1 else 2 * Pow2(k - 1) }

  function Sum(s: seq<nat>): nat { if s == [] then 0 else Sum(s[..|s| - 1]) + s[|s| - 1] }

  /** Waits in seconds before the second, third, ... try. */
  predicate AreWaits(waits: seq<nat>) {
    forall k :: 0 <= k < |waits| ==> waits[k] == if Pow2(k) < MAX_BACKOFF then Pow2(k) else MAX_BACKOFF
  }

  /** `accepted[i]` is the outcome of try `i`; the caller cancels after the last one listed. */
  method StartWithBackoff(accepted: seq<bool>) returns (registered: bool, waits: seq<nat>)
    ensures AreWaits(waits)
    ensures registered <==> true in accepted
    ensures |waits| <= |accepted| && forall i :: 0 <= i < |waits| ==> !accepted[i]
    ensures registered ==> |waits| < |accepted| && accepted[|waits|]
  {
    var backoff: nat := 1;
    waits := [];
    for i := 0 to |accepted|
      invariant |waits| == i && AreWaits(waits)
      invariant forall j :: 0 <= j < i ==> !accepted[j]
      invariant backoff == if Pow2(i) < MAX_BACKOFF then Pow2(i) else MAX_BACKOFF
    {
      if accepted[i] {
        return true, waits;
      }
      waits := waits + [backoff];
      backoff := backoff * 2;
      if backoff > MAX_BACKOFF {
        backoff := MAX_BACKOFF;
      }
    }
    registered := false;
  }

  /** The first try waits for nothing; n failures cost 2^n - 1 seconds at first and a minute each later. */
  lemma {:induction false} TotalWait(waits: seq<nat>)
    requires AreWaits(waits)
    ensures var n := |waits|;
            Sum(waits) == if n <= 6 then Pow2(n) - 1 else 63 + 60 * (n - 6)
  {
    if waits != [] {
      var n := |waits| - 1;
      TotalWait(waits[..n]);
      Sixth(n);
    }
  }

  lemma {:induction false} Sixth(k: nat)
    ensures Pow2(6) == 64
    ensures k < 6 <==> Pow2(k) < MAX_BACKOFF
  {
    assert Pow2(3) == 8 && Pow2(6) == 64;
    if k > 6 {
      Sixth(k - 1);
    }
  }
}
