/** How often an unreachable server is checked: intervals over scheduler cycles. */
module Backoff {

  /** getBackoffCycleInterval. */
  function Interval(unreachableCount: nat): nat {
    if unreachableCount <= 2 then 1
    else if unreachableCount <= 5 then 3
    else if unreachableCount <= 11 then 6
    else 12
  }

  /** shouldSkipDueToBackoff at a minute of the hour, with cycles of period minutes. */
  predicate Skips(unreachableCount: nat, minute: nat, period: nat, serverHash: nat)
    requires period == 1 || period == 5
  {
    var interval := Interval(unreachableCount);
    if interval <= 1 then false
    else
      var cycleIndex := minute / period;
      (cycleIndex + serverHash) % interval != 0
  }

  /** The same decision with cycles counted without end instead of restarting every hour. */
  predicate SkipsCycle(unreachableCount: nat, cycle: nat, serverHash: nat) {
    (cycle + serverHash) % Interval(unreachableCount) != 0
  }

  lemma Shift3(q: nat, x: nat)
    ensures (3 * q + x) % 3 == x % 3
  {
  }

  lemma Shift6(q: nat, x: nat)
    ensures (6 * q + x) % 6 == x % 6
  {
  }

  lemma Shift12(q: nat, x: nat)
    ensures (12 * q + x) % 12 == x % 12
  {
  }

  /** An hour is a whole number of intervals, with 12 cycles to the hour and with 60. */
  lemma HourIsWholeIntervals(h: nat, x: nat, unreachableCount: nat)
    ensures (12 * h + x) % Interval(unreachableCount) == x % Interval(unreachableCount)
    ensures (60 * h + x) % Interval(unreachableCount) == x % Interval(unreachableCount)
  {
    var interval := Interval(unreachableCount);
    if interval == 3 {
      Shift3(4 * h, x);
      Shift3(20 * h, x);
    } else if interval == 6 {
      Shift6(2 * h, x);
      Shift6(10 * h, x);
    } else if interval == 12 {
      Shift12(h, x);
      Shift12(5 * h, x);
    }
  }

  lemma SkipsByInterval(unreachableCount: nat, minute: nat, period: nat, serverHash: nat)
    requires period == 1 || period == 5
    ensures Skips(unreachableCount, minute, period, serverHash)
       <==> SkipsCycle(unreachableCount, minute / period, serverHash)
  {
  }

  /** Restarting the cycle index every hour makes no difference: time is minutes since any full hour. */
  lemma HourWrapIsSeamless(unreachableCount: nat, time: nat, period: nat, serverHash: nat)
    requires period == 1 || period == 5
    ensures Skips(unreachableCount, time % 60, period, serverHash)
       <==> SkipsCycle(unreachableCount, time / period, serverHash)
  {
    var h, m := time / 60, time % 60;
    SkipsByInterval(unreachableCount, m, period, serverHash);
    HourIsWholeIntervals(h, m / period + serverHash, unreachableCount);
    if period == 5 {
      assert time / 5 == 12 * h + m / 5;
    } else {
      assert time / 1 == 60 * h + m / 1;
    }
  }

  /** Every window of interval consecutive cycles contains exactly one that is not skipped. */
  lemma OneCheckPerWindow(unreachableCount: nat, start: nat, serverHash: nat) returns (cycle: nat)
    ensures start <= cycle < start + Interval(unreachableCount)
    ensures !SkipsCycle(unreachableCount, cycle, serverHash)
    ensures forall n :: start <= n < start + Interval(unreachableCount) && n != cycle ==>
              SkipsCycle(unreachableCount, n, serverHash)
  {
    var interval := Interval(unreachableCount);
    var r := (start + serverHash) % interval;
    cycle := if r == 0 then start else start + (interval - r);
  }

  /** A server that failed more often is checked only in cycles in which it would be checked anyway. */
  lemma LongerIntervalsNest(fewer: nat, more: nat, cycle: nat, serverHash: nat)
    requires fewer <= more
    ensures !SkipsCycle(more, cycle, serverHash) ==> !SkipsCycle(fewer, cycle, serverHash)
  {
    var x, big := cycle + serverHash, Interval(more);
    if x % big == 0 {
      var q := x / big;
      assert x == big * q;
      if big == 12 {
        Shift6(2 * q, 0);
        Shift3(4 * q, 0);
      } else if big == 6 {
        Shift3(2 * q, 0);
      }
    }
  }

  /** How many of n cycles from first on check a server that is never reached, when it starts with the given count. */
  function ChecksWhileDown(first: nat, n: nat, unreachableCount: nat, serverHash: nat): nat
    decreases n
  {
    if n == 0 then 0
    else if SkipsCycle(unreachableCount, first, serverHash)
    then ChecksWhileDown(first + 1, n - 1, unreachableCount, serverHash)
    else 1 + ChecksWhileDown(first + 1, n - 1, unreachableCount + 1, serverHash)
  }

  /** The multiples of 12 among n consecutive numbers from first on. */
  function TwelfthsFrom(first: nat, n: nat): nat {
    (first + n + 11) / 12 - (first + 11) / 12
  }

  lemma TwelfthsStep(first: nat, n: nat)
    requires n > 0
    ensures TwelfthsFrom(first, n) == (if first % 12 == 0 then 1 else 0) + TwelfthsFrom(first + 1, n - 1)
  {
  }

  /** At the longest interval the number of checks is known exactly. */
  lemma {:induction false} ChecksWhenSettled(first: nat, n: nat, unreachableCount: nat, serverHash: nat)
    requires unreachableCount >= 12
    ensures ChecksWhileDown(first, n, unreachableCount, serverHash) == TwelfthsFrom(first + serverHash, n)
    decreases n
  {
    if n > 0 {
      TwelfthsStep(first + serverHash, n);
      ChecksWhenSettled(first + 1, n - 1, unreachableCount, serverHash);
      ChecksWhenSettled(first + 1, n - 1, unreachableCount + 1, serverHash);
    }
  }

  lemma TwelfthIsNeverSkipped(unreachableCount: nat, cycle: nat, serverHash: nat)
    requires (cycle + serverHash) % 12 == 0
    ensures !SkipsCycle(unreachableCount, cycle, serverHash)
  {
    LongerIntervalsNest(unreachableCount, unreachableCount + 12, cycle, serverHash);
  }

  lemma {:induction false} ChecksAtLeast(first: nat, n: nat, unreachableCount: nat, serverHash: nat)
    ensures ChecksWhileDown(first, n, unreachableCount, serverHash) >= TwelfthsFrom(first + serverHash, n)
    decreases n
  {
    if n > 0 {
      TwelfthsStep(first + serverHash, n);
      if SkipsCycle(unreachableCount, first, serverHash) {
        if (first + serverHash) % 12 == 0 {
          TwelfthIsNeverSkipped(unreachableCount, first, serverHash);
        }
        ChecksAtLeast(first + 1, n - 1, unreachableCount, serverHash);
      } else {
        ChecksAtLeast(first + 1, n - 1, unreachableCount + 1, serverHash);
      }
    }
  }

  /** With u failures so far, at most 12 - u more checks before the longest interval, then one in twelve. */
  lemma {:induction false} ChecksAtMost(first: nat, n: nat, unreachableCount: nat, serverHash: nat)
    ensures unreachableCount < 12 && n <= 12 - unreachableCount ==>
              ChecksWhileDown(first, n, unreachableCount, serverHash) <= n
    ensures unreachableCount < 12 && n > 12 - unreachableCount ==>
              ChecksWhileDown(first, n, unreachableCount, serverHash)
              <= 12 - unreachableCount + (n - (12 - unreachableCount) + 11) / 12
    ensures unreachableCount >= 12 ==> ChecksWhileDown(first, n, unreachableCount, serverHash) <= (n + 11) / 12
    decreases n
  {
    if unreachableCount >= 12 {
      ChecksWhenSettled(first, n, unreachableCount, serverHash);
    } else if n > 0 {
      ChecksAtMost(first + 1, n - 1, unreachableCount, serverHash);
      ChecksAtMost(first + 1, n - 1, unreachableCount + 1, serverHash);
    }
  }

  /** A server that goes down for good is checked between N / 12 and 12 + N / 12 times in N cycles. */
  lemma ChecksOfADeadServer(first: nat, n: nat, serverHash: nat)
    ensures n / 12 <= ChecksWhileDown(first, n, 0, serverHash) <= 12 + n / 12
  {
    ChecksAtLeast(first, n, 0, serverHash);
    ChecksAtMost(first, n, 0, serverHash);
  }

  /* The tiers. */

  /** After a check the next one comes one cycle later for up to two failures, three later for three to five, six later
      for six to eleven, and twelve later from twelve failures on. */
  lemma NextCheck(unreachableCount: nat, cycle: nat, serverHash: nat, d: nat)
    requires !SkipsCycle(unreachableCount, cycle, serverHash) && 1 <= d <= 12
    ensures unreachableCount <= 2 ==> !SkipsCycle(unreachableCount, cycle + d, serverHash)
    ensures 3 <= unreachableCount <= 5 ==> (SkipsCycle(unreachableCount, cycle + d, serverHash) <==> d % 3 != 0)
    ensures 6 <= unreachableCount <= 11 ==> (SkipsCycle(unreachableCount, cycle + d, serverHash) <==> d % 6 != 0)
    ensures 12 <= unreachableCount ==> (SkipsCycle(unreachableCount, cycle + d, serverHash) <==> d < 12)
  {
    var x := cycle + serverHash;
    assert cycle + d + serverHash == x + d;
    if 3 <= unreachableCount <= 5 {
      Shift3(x / 3, d);
    } else if 6 <= unreachableCount <= 11 {
      Shift6(x / 6, d);
    } else if unreachableCount >= 12 {
      Shift12(x / 12, d);
    }
  }

  /** Up to two failures no minute is skipped. */
  lemma NeverSkippedEarly(unreachableCount: nat, minute: nat, period: nat, serverHash: nat)
    requires unreachableCount <= 2 && (period == 1 || period == 5)
    ensures !Skips(unreachableCount, minute, period, serverHash)
  {
  }

  /** The hash shifts the checks: a server is checked in the cycles in which a server with a smaller hash is checked
      later by the difference, and hash 0 is checked in cycle 0. */
  lemma HashShifts(unreachableCount: nat, cycle: nat, serverHash: nat, d: nat)
    ensures SkipsCycle(unreachableCount, cycle, serverHash + d) <==> SkipsCycle(unreachableCount, cycle + d, serverHash)
    ensures !SkipsCycle(unreachableCount, 0, 0)
  {
    assert cycle + (serverHash + d) == cycle + d + serverHash;
  }
}
