/** The trend synthesiser: six past and six future hourly AQI values made up
    by random walks from the current reading, each value floored at 10.

    The random steps are inputs. numpy's `randint(lo, hi)` excludes `hi`,
    so the past walk's steps lie in [-8, 7] and the future walk's in [-5, 11].
    The timestamps paired with the values are left out. */
module Trend {

  /** The smallest value either walk can produce. */
  const Floor := 10

  /** Number of past values, the current reading included. */
  const PastHours := 6

  /** Number of future values. */
  const FutureHours := 6

  function Max(a: int, b: int): int
  {
    if a >= b then a else b
  }

  /** One step of either walk: move by `step`, but not below the floor. */
  function WalkStep(from: int, step: int): (next: int)
    ensures next >= Floor
    ensures next >= from + step
    ensures next == from + step || next == Floor
  {
    Max(Floor, from + step)
  }

  /** Steps drawn for the past walk: `randint(-8, 8)` per earlier hour. */
  predicate PastSteps(steps: seq<int>)
  {
    |steps| == PastHours - 1 && forall k :: 0 <= k < |steps| ==> -8 <= steps[k] < 8
  }

  /** Steps drawn for the future walk: `randint(-5, 12)` per hour. */
  predicate FutureSteps(steps: seq<int>)
  {
    |steps| == FutureHours && forall k :: 0 <= k < |steps| ==> -5 <= steps[k] < 12
  }

  /** The past series, oldest first. It ends with the current reading as
      given; each earlier value is one step back from its successor, where
      the k-th step drawn produces the value k + 1 hours before now. */
  method PastWalk(current: int, steps: seq<int>) returns (past: seq<int>)
    requires PastSteps(steps)
    ensures |past| == PastHours
    ensures past[PastHours - 1] == current
    ensures forall i :: 0 <= i < PastHours - 1 ==> past[i] == WalkStep(past[i + 1], steps[PastHours - 2 - i])
    ensures forall i :: 0 <= i < PastHours - 1 ==> Floor <= past[i]
    ensures forall i :: 0 <= i < PastHours - 1 ==>
      current - 8 * (PastHours - 1 - i) <= past[i] <= Max(Floor, current) + 7 * (PastHours - 1 - i)
  {
    past := [current];
    var k := 0;
    while k < PastHours - 1
      invariant 0 <= k <= PastHours - 1
      invariant |past| == k + 1
      invariant past[k] == current
      invariant forall i :: 0 <= i < k ==> past[i] == WalkStep(past[i + 1], steps[k - 1 - i])
      invariant forall i :: 0 <= i < k ==> Floor <= past[i]
      invariant forall i :: 0 <= i < k ==>
        current - 8 * (k - i) <= past[i] <= Max(Floor, current) + 7 * (k - i)
    {
      past := [WalkStep(past[0], steps[k])] + past;
      k := k + 1;
    }
  }

  /** The future series, one value per coming hour. The current reading
      itself is not part of it; each value is one step on from the one
      before, the first from the current reading. */
  method FutureWalk(current: int, steps: seq<int>) returns (future: seq<int>)
    requires FutureSteps(steps)
    ensures |future| == FutureHours
    ensures future[0] == WalkStep(current, steps[0])
    ensures forall i :: 1 <= i < FutureHours ==> future[i] == WalkStep(future[i - 1], steps[i])
    ensures forall i :: 0 <= i < FutureHours ==> Floor <= future[i]
    ensures forall i :: 0 <= i < FutureHours ==>
      current - 5 * (i + 1) <= future[i] <= Max(Floor, current) + 11 * (i + 1)
  {
    future := [];
    var temp := current;
    var i := 0;
    while i < FutureHours
      invariant 0 <= i <= FutureHours
      invariant |future| == i
      invariant i > 0 ==> future[0] == WalkStep(current, steps[0])
      invariant forall j :: 1 <= j < i ==> future[j] == WalkStep(future[j - 1], steps[j])
      invariant temp == if i == 0 then current else future[i - 1]
      invariant forall j :: 0 <= j < i ==> Floor <= future[j]
      invariant forall j :: 0 <= j < i ==>
        current - 5 * (j + 1) <= future[j] <= Max(Floor, current) + 11 * (j + 1)
    {
      temp := WalkStep(temp, steps[i]);
      future := future + [temp];
      i := i + 1;
    }
  }

  /** Both series, as the dashboard generates them for the trend chart. */
  method GenerateFullTrend(current: int, pastSteps: seq<int>, futureSteps: seq<int>)
    returns (past: seq<int>, future: seq<int>)
    requires PastSteps(pastSteps) && FutureSteps(futureSteps)
    ensures |past| == PastHours && |future| == FutureHours
    ensures past[PastHours - 1] == current
    ensures forall i :: 0 <= i < PastHours - 1 ==> past[i] == WalkStep(past[i + 1], pastSteps[PastHours - 2 - i])
    ensures forall i :: 0 <= i < PastHours - 1 ==> Floor <= past[i]
    ensures forall i :: 0 <= i < PastHours - 1 ==>
      current - 8 * (PastHours - 1 - i) <= past[i] <= Max(Floor, current) + 7 * (PastHours - 1 - i)
    ensures forall i :: 0 <= i < FutureHours ==> Floor <= future[i]
    ensures forall i :: 0 <= i < FutureHours ==>
      current - 5 * (i + 1) <= future[i] <= Max(Floor, current) + 11 * (i + 1)
    ensures PredictionLine(current, future)[0] == current
    ensures forall i :: 0 <= i < FutureHours ==>
      PredictionLine(current, future)[i + 1] == WalkStep(PredictionLine(current, future)[i], futureSteps[i])
  {
    past := PastWalk(current, pastSteps);
    future := FutureWalk(current, futureSteps);
  }

  /** The dashed prediction line of the chart: the current reading followed
      by the future series. */
  function PredictionLine(current: int, future: seq<int>): (line: seq<int>)
    ensures |line| == |future| + 1
    ensures line[0] == current
    ensures forall i :: 0 <= i < |future| ==> line[i + 1] == future[i]
  {
    [current] + future
  }
}
