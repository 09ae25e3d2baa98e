/** The chart palette shared by the dashboard's front-end modules. */
module UiModule {
  import opened Wrappers

  /** Green, blue, yellow, purple, deep orange, cyan, brown, grey. */
  const Palette: seq<string> :=
    ["#4CAF50", "#2196F3", "#FFC107", "#9C27B0", "#FF5722", "#00BCD4", "#795548", "#9E9E9E"]

  /** `colors[index % colors.length]`. JavaScript's `%` gives the remainder the sign of the dividend,
      so a negative index reads `undefined` (`None`), except that a zero remainder (`-0`) reads
      index 0. */
  function GetChartColor(index: int): (c: Option<string>)
    ensures index >= 0 ==> c == Some(Palette[index % |Palette|])
    ensures c.None? <==> index < 0 && index % |Palette| != 0
    ensures index < 0 && index % |Palette| == 0 ==> c == Some(Palette[0])
  {
    NegativeRemainder(index);
    var rem := if index >= 0 then index % 8 else -((-index) % 8);
    if rem >= 0 then Some(Palette[rem]) else None
  }

  /** A negative number leaves a zero remainder in JavaScript exactly when it is a multiple of 8. */
  lemma NegativeRemainder(a: int)
    ensures a < 0 ==> ((-a) % 8 == 0 <==> a % 8 == 0)
  {
    var k := (-a) / 8;
    var q := (-a) % 8;
    assert -a == 8 * k + q;
    if a >= 0 {
    } else if q == 0 {
      assert a == 8 * (-k);
    } else {
      assert a == 8 * (-k - 1) + (8 - q);
    }
  }

  /** Colours repeat every eight indices. */
  lemma ChartColorPeriod(i: int)
    requires i >= 0
    ensures GetChartColor(i + |Palette|) == GetChartColor(i)
  {
    assert (i + 8) % 8 == i % 8;
  }

  /** The first eight indices give eight different colours. */
  lemma ChartColorsDistinct(i: int, j: int)
    requires 0 <= i < j < |Palette|
    ensures GetChartColor(i).Some? && GetChartColor(j).Some? && GetChartColor(i) != GetChartColor(j)
  {
  }
}
