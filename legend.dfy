/** The legend of the map: its placement rule, the gradient strip built from the
    palette, and the seven tick values of its axis. */
module Legend {
  import opened Basics
  import opened Binner

  const AxisHeight := 75
  const AxisInnerHeight := 15
  /** `axisHeight - axisInnerHeight + 100`. */
  const AxisMarginBottom := AxisHeight - AxisInnerHeight + 100

  /** Viewport heights up to this one hide the legend. */
  const LegendMinHeight := 450
  /** The left margin that moves the legend off-screen. */
  const OffScreen := -10000.0

  /** `mapHeight > 450 ? mapWidth * 0.115 : -10000`. */
  function LegendMarginLeft(width: nat, height: int): (left: real)
    ensures left < 0.0 <==> height <= LegendMinHeight
    ensures height <= LegendMinHeight ==> left == OffScreen
    ensures height > LegendMinHeight ==> 0.0 <= left <= width as real
  {
    if height > LegendMinHeight then width as real * 0.115 else OffScreen
  }

  /** One `stop` of the axis gradient: its offset in percent and its colour. */
  datatype GradientStop = GradientStop(offset: real, colour: string)

  /** Stop i sits at `i * (100 / n)` percent with the i-th palette colour; the
      palette has n = 10 entries. */
  function GradientStops(palette: Palette): (stops: seq<GradientStop>)
    ensures |stops| == |palette|
    ensures forall i :: 0 <= i < |stops| ==> stops[i].colour == palette[i]
    ensures forall i :: 0 <= i < |stops| ==>
              0.0 <= stops[i].offset < 100.0 && stops[i].offset * |palette| as real == 100.0 * i as real
    ensures stops[0].offset == 0.0
    ensures forall i, j :: 0 <= i < j < |stops| ==> stops[i].offset < stops[j].offset
  {
    var n := |palette|;
    seq(n, i requires 0 <= i < n => GradientStop(i as real * (100.0 / n as real), palette[i]))
  }

  /** The seven axis ticks: the lowest rate, five evenly spaced values, and the
      highest rate. None when there are no rates (`d3.min` of an empty array is
      undefined). */
  function TickValues(rates: seq<real>): (ticks: Option<seq<real>>)
    ensures ticks.Some? <==> |rates| > 0
    ensures ticks.Some? ==> |ticks.value| == 7
    ensures ticks.Some? ==> ticks.value[0] == MinReal(rates) && ticks.value[6] == MaxReal(rates)
    ensures ticks.Some? ==> forall i :: 0 <= i < 6 ==>
              ticks.value[i + 1] - ticks.value[i] == (MaxReal(rates) - MinReal(rates)) / 6.0
    ensures ticks.Some? ==> forall i :: 0 <= i < 7 ==> MinReal(rates) <= ticks.value[i] <= MaxReal(rates)
  {
    if |rates| == 0 then None
    else
      var lo, hi := MinReal(rates), MaxReal(rates);
      var step := (hi - lo) / 6.0;
      Some([lo, lo + step, lo + step * 2.0, lo + step * 3.0, lo + step * 4.0, lo + step * 5.0, hi])
  }
}
