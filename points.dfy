/** The level bar shown on both "my page" screens: every 100 points is
    one level, and everyone starts at level 1. Python's `//` and `%` by
    the positive constant 100 agree with Dafny's `/` and `%` on every
    integer, negative totals included. */
module Points {

  const PointsPerLevel: int := 100

  /** `total // 100 + 1`: the level whose 100-point band holds `total`. */
  function Level(total: int): (r: int)
    ensures (r - 1) * PointsPerLevel <= total < r * PointsPerLevel
    ensures 0 <= total ==> 1 <= r
  {
    total / PointsPerLevel + 1
  }

  /** `total % 100`: the points earned inside the current level. */
  function Progress(total: int): (r: int)
    ensures 0 <= r < PointsPerLevel
    ensures (Level(total) - 1) * PointsPerLevel + r == total
  {
    total % PointsPerLevel
  }

  /** `100 - total % 100`: the points still needed for the next level. */
  function Remaining(total: int): (r: int)
    ensures 0 < r <= PointsPerLevel
    ensures r + Progress(total) == PointsPerLevel
  {
    PointsPerLevel - Progress(total)
  }

  /** `Remaining` is the least gain that raises the level: any smaller gain
      leaves the level as it is, and exactly that gain reaches the next
      level with no progress inside it. */
  lemma RemainingIsLeastGain(total: int, gain: int)
    requires 0 <= gain
    ensures gain < Remaining(total) ==> Level(total + gain) == Level(total)
    ensures gain == Remaining(total) ==> Level(total + gain) == Level(total) + 1 && Progress(total + gain) == 0
  {
  }

  /** The level is determined by the 100-point band a total falls in. */
  lemma LevelOfBand(total: int, l: int)
    requires (l - 1) * PointsPerLevel <= total < l * PointsPerLevel
    ensures Level(total) == l
  {
  }

  /** A larger total never shows a lower level. */
  lemma LevelMonotone(p: int, q: int)
    requires p <= q
    ensures Level(p) <= Level(q)
  {
  }

  /** The values the level bar shows for a few totals. */
  lemma LevelExamples()
    ensures Level(0) == 1 && Progress(0) == 0 && Remaining(0) == 100
    ensures Level(99) == 1 && Level(100) == 2 && Level(250) == 3
    ensures Progress(130) == 30 && Remaining(130) == 70
  {
  }
}
