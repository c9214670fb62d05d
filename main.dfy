/** The scheduling step of main.py:9-18: move the start time forward by the
    repeating period until it is no longer in the past, then wait for it. */
module Main {

  /** The trigger `k` periods after `start`. */
  function Candidate(start: int, period: int, k: nat): int
  {
    start + k * period
  }

  /** The start time after the loop of main.py:11-12, the waiting period of
      main.py:13 and whether main.py:16 sleeps. The loop ends because the
      period is positive, or because it never runs. `k` counts the periods
      added: the result is the first trigger `start + k * period` that is not
      before `now`. */
  method NextTrigger(startTime: int, currentTime: int, repeatingPeriod: int)
    returns (next: int, waitingPeriod: int, sleeps: bool, ghost k: nat)
    requires repeatingPeriod > 0 || startTime >= currentTime
    ensures next >= currentTime
    ensures next == Candidate(startTime, repeatingPeriod, k)
    ensures forall j: nat :: j < k ==> Candidate(startTime, repeatingPeriod, j) < currentTime
    ensures startTime >= currentTime ==> next == startTime
    ensures next >= startTime
    ensures waitingPeriod == next - currentTime && waitingPeriod >= 0
    ensures sleeps <==> waitingPeriod > 0
  {
    next, k := startTime, 0;
    while next - currentTime < 0
      invariant next == Candidate(startTime, repeatingPeriod, k)
      invariant forall j: nat :: j < k ==> Candidate(startTime, repeatingPeriod, j) < currentTime
      invariant next >= startTime
      invariant k > 0 ==> repeatingPeriod > 0
      decreases currentTime - next
    {
      next := next + repeatingPeriod;
      k := k + 1;
    }
    waitingPeriod := next - currentTime;
    sleeps := waitingPeriod > 0;
  }
}
