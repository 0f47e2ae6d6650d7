/** Goal progress and the two-slice donut drawn from it, shared by
    `TransactionHistory.tsx` and `AccountMetrics.tsx`. */
module Progress {
  import opened Wrappers
  import opened Numeric

  const Green := "#10b981"
  const Blue := "#2563eb"
  const Grey := "#e5e7eb"

  /** One slice of the donut; `value` is `None` where JavaScript would hold NaN. */
  datatype Slice = Slice(name: string, value: Option<int>, fill: string)

  /** `Math.min(100, Math.round((current / goal) * 100))`: clamped above at
      100 and not clamped below. */
  function CalculateProgress(current: real, goal: real): (p: int)
    requires goal != 0.0
    ensures p <= 100
    ensures p < 100 ==> p as real - 0.5 <= current / goal * 100.0 < p as real + 0.5
    ensures p == 100 <==> current / goal * 100.0 >= 99.5
    ensures goal > 0.0 && current >= goal ==> p == 100
    ensures goal > 0.0 && current < 0.0 ==> p <= 0
    ensures goal > 0.0 && current / goal * 100.0 < -0.5 ==> p < 0
  {
    assert goal > 0.0 && current >= goal ==> current / goal >= 1.0;
    assert goal > 0.0 && current < 0.0 ==> current / goal < 0.0;
    MinInt(100, Round(current / goal * 100.0))
  }

  /** Green once the goal is reached, blue before. */
  function ProgressColor(p: int): (c: string)
    ensures c == Green <==> p >= 100
    ensures c == Green || c == Blue
  {
    if p >= 100 then Green else Blue
  }

  /** The "Progreso" and "Restante" slices; `None` is a NaN progress, for
      which `p >= 100` is false and `Math.max(0, 100 - p)` is NaN. */
  function Donut(progress: Option<int>): (d: seq<Slice>)
    ensures |d| == 2
    ensures d[0].name == "Progreso" && d[0].value == progress
    ensures d[1].name == "Restante" && d[1].fill == Grey
    ensures progress.Some? ==> d[1].value == Some(MaxInt(0, 100 - progress.value))
    ensures progress.Some? && 0 <= progress.value <= 100 ==> d[0].value.value + d[1].value.value == 100
    ensures progress.Some? && progress.value > 100 ==> d[1].value == Some(0)
    ensures progress.None? ==> d[1].value.None? && d[0].fill == Blue
    ensures d[0].fill == Green <==> progress.Some? && progress.value >= 100
  {
    match progress
    case Some(p) => [Slice("Progreso", progress, ProgressColor(p)), Slice("Restante", Some(MaxInt(0, 100 - p)), Grey)]
    case None => [Slice("Progreso", None, Blue), Slice("Restante", None, Grey)]
  }
}
