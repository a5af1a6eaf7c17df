/**
 * Small helpers of the window renderer (ResourceMonitorGUI): the ten-cell
 * usage bar, the uptime split into hours and minutes, the shortened plugin
 * description and the enabled/disabled plugin count.
 */
module Widgets {
  import opened Wrappers

  // ---------------------------------------------------------------------
  // Java numeric conversions used by the helpers
  // ---------------------------------------------------------------------

  const IntMin: int := -0x8000_0000
  const IntMax: int := 0x7fff_ffff

  /** Rounding of a double toward zero, as a Java cast does. */
  function TruncateTowardZero(x: real): (n: int)
    ensures 0.0 <= x ==> n as real <= x < n as real + 1.0
    ensures x < 0.0 ==> n as real - 1.0 < x <= n as real
  {
    if x >= 0.0 then x.Floor else -((-x).Floor)
  }

  /** The Java cast `(int) x` of a double: truncation, saturated at the int range. */
  function DoubleToInt(x: real): (n: int)
    ensures IntMin <= n <= IntMax
    ensures IntMin <= TruncateTowardZero(x) <= IntMax ==> n == TruncateTowardZero(x)
  {
    var t := TruncateTowardZero(x);
    if t < IntMin then IntMin else if t > IntMax then IntMax else t
  }

  /** Java's `/` on integers for a positive divisor: the quotient rounds toward zero. */
  function JavaDiv(a: int, b: int): int
    requires b > 0
  {
    if a >= 0 then a / b else -((-a) / b)
  }

  /** Java's `%` on integers for a positive divisor: the remainder takes the sign of `a`. */
  function JavaRem(a: int, b: int): int
    requires b > 0
  {
    a - JavaDiv(a, b) * b
  }

  // ---------------------------------------------------------------------
  // createProgressBar
  // ---------------------------------------------------------------------

  const BarCells: nat := 10
  const FilledCell: char := '■'
  const EmptyCell: char := '□'

  /** How many cells of the bar are filled for a percentage: `(int)(p / 10)` kept within 0..10. */
  function FilledCount(percentage: real): (k: nat)
    ensures k <= BarCells
  {
    var f := DoubleToInt(percentage / 10.0);
    if f < 0 then 0 else if f > BarCells then BarCells else f
  }

  /** `n` copies of the character `c`. */
  function Cells(c: char, n: nat): (s: string)
    ensures |s| == n
    ensures forall i :: 0 <= i < n ==> s[i] == c
  {
    seq(n, _ => c)
  }

  /**
   * createProgressBar: ten cells, the cells before the truncated tenth of the
   * percentage filled and the others empty.
   */
  method CreateProgressBar(percentage: real) returns (bar: string)
    ensures |bar| == BarCells
    ensures forall i :: 0 <= i < BarCells ==> (bar[i] == FilledCell <==> i < FilledCount(percentage))
    ensures bar == Cells(FilledCell, FilledCount(percentage)) + Cells(EmptyCell, BarCells - FilledCount(percentage))
  {
    var filledBars := DoubleToInt(percentage / 10.0);
    bar := "";
    var i := 0;
    while i < BarCells
      invariant 0 <= i <= BarCells
      invariant |bar| == i
      invariant forall j :: 0 <= j < i ==> bar[j] == (if j < filledBars then FilledCell else EmptyCell)
    {
      if i < filledBars {
        bar := bar + [FilledCell];
      } else {
        bar := bar + [EmptyCell];
      }
      i := i + 1;
    }
    ghost var k := FilledCount(percentage);
    assert bar == Cells(FilledCell, k) + Cells(EmptyCell, BarCells - k);
  }

  /**
   * What the filled cells mean: for a percentage from 0 to 100 each filled
   * cell stands for a full ten percent, and the first empty cell for the
   * ten percent that is not full yet.
   */
  lemma FilledCountMeaning(percentage: real)
    requires 0.0 <= percentage <= 100.0
    ensures FilledCount(percentage) as real * 10.0 <= percentage
    ensures FilledCount(percentage) < BarCells ==> percentage < (FilledCount(percentage) + 1) as real * 10.0
  {
    var t := TruncateTowardZero(percentage / 10.0);
    assert 0 <= t <= 10;
  }

  /** A negative reading shows an empty bar; one of 100 or more a full bar. */
  lemma FilledCountExtremes(percentage: real)
    ensures percentage < 10.0 ==> FilledCount(percentage) == 0
    ensures 100.0 <= percentage ==> FilledCount(percentage) == BarCells
  {
  }

  // ---------------------------------------------------------------------
  // getUptime
  // ---------------------------------------------------------------------

  const MillisPerMinute: int := 1000 * 60
  const MillisPerHour: int := 1000 * 60 * 60

  /** The two numbers getUptime renders as "<hours>h <minutes>m". */
  datatype Uptime = Uptime(hours: int, minutes: int)

  /** getUptime: whole hours, and whole minutes of the hour that is not full yet. */
  function GetUptime(millis: int): (u: Uptime)
    ensures millis >= 0 ==> 0 <= u.hours && 0 <= u.minutes < 60
    ensures millis < 0 ==> u.hours <= 0 && -60 < u.minutes <= 0
  {
    Uptime(JavaDiv(millis, MillisPerHour), JavaDiv(JavaRem(millis, MillisPerHour), MillisPerMinute))
  }

  /** For a non-negative uptime the split is exact up to the dropped seconds. */
  lemma UptimeBounds(millis: int)
    requires millis >= 0
    ensures var u := GetUptime(millis);
      && 0 <= u.hours && 0 <= u.minutes < 60
      && u.hours * MillisPerHour + u.minutes * MillisPerMinute <= millis
      && millis < u.hours * MillisPerHour + (u.minutes + 1) * MillisPerMinute
  {
    var h := millis / MillisPerHour;
    var rest := millis % MillisPerHour;
    assert millis == h * MillisPerHour + rest;
    assert JavaRem(millis, MillisPerHour) == rest;
    var m := rest / MillisPerMinute;
    assert rest == m * MillisPerMinute + rest % MillisPerMinute;
  }

  /** Splitting is the inverse of composing hours, minutes and a sub-minute remainder. */
  lemma UptimeOfComposed(h: nat, m: nat, r: nat)
    requires m < 60 && r < MillisPerMinute
    ensures GetUptime(h * MillisPerHour + m * MillisPerMinute + r) == Uptime(h, m)
  {
    var millis := h * MillisPerHour + m * MillisPerMinute + r;
    var rest := m * MillisPerMinute + r;
    assert rest < MillisPerHour;
    assert millis / MillisPerHour == h;
    assert JavaRem(millis, MillisPerHour) == rest;
    assert rest / MillisPerMinute == m;
  }

  // ---------------------------------------------------------------------
  // Plugin descriptions and counts (showPluginList, createPluginsItem)
  // ---------------------------------------------------------------------

  /** What the plugin manager reports about one plugin. */
  datatype PluginInfo = PluginInfo(
    name: string,
    enabled: bool,
    version: string,
    authors: seq<string>,
    description: Option<string>)

  const MaxDescription: nat := 40
  const KeptPrefix: nat := 37
  const Ellipsis: string := "..."

  /** A description longer than 40 characters keeps its first 37 and ends in "...". */
  function ShortDescription(d: string): (r: string)
    ensures |r| <= MaxDescription
    ensures |d| <= MaxDescription ==> r == d
    ensures |d| > MaxDescription ==> |r| == MaxDescription && r[..KeptPrefix] == d[..KeptPrefix] && r[KeptPrefix..] == Ellipsis
  {
    if |d| > MaxDescription then d[..KeptPrefix] + Ellipsis else d
  }

  /** Shortening twice is shortening once. */
  lemma ShortDescriptionIdempotent(d: string)
    ensures ShortDescription(ShortDescription(d)) == ShortDescription(d)
  {
  }

  /** The number of enabled plugins in a list. */
  function EnabledCount(ps: seq<PluginInfo>): nat
  {
    if ps == [] then 0 else EnabledCount(ps[..|ps| - 1]) + (if ps[|ps| - 1].enabled then 1 else 0)
  }

  /** The set of positions of enabled plugins. */
  function EnabledPositions(ps: seq<PluginInfo>): set<nat>
  {
    set i: nat | i < |ps| && ps[i].enabled
  }

  /** The recursive count is the size of the set of enabled positions. */
  lemma {:induction false} EnabledCountIsCardinality(ps: seq<PluginInfo>)
    ensures EnabledCount(ps) == |EnabledPositions(ps)|
    ensures EnabledCount(ps) <= |ps|
  {
    if ps != [] {
      var n := |ps| - 1;
      var init := ps[..n];
      EnabledCountIsCardinality(init);
      var last := if ps[n].enabled then {n} else {};
      assert EnabledPositions(ps) == EnabledPositions(init) + last;
      assert n !in EnabledPositions(init);
    }
  }

  /** The loop in createPluginsItem: enabled plugins counted on one side, the others on the other. */
  method CountPlugins(plugins: seq<PluginInfo>) returns (enabled: nat, disabled: nat)
    ensures enabled == EnabledCount(plugins) == |EnabledPositions(plugins)|
    ensures enabled + disabled == |plugins|
  {
    enabled, disabled := 0, 0;
    for i := 0 to |plugins|
      invariant enabled == EnabledCount(plugins[..i])
      invariant enabled + disabled == i
    {
      assert plugins[..i + 1][..i] == plugins[..i];
      if plugins[i].enabled {
        enabled := enabled + 1;
      } else {
        disabled := disabled + 1;
      }
    }
    assert plugins[..|plugins|] == plugins;
    EnabledCountIsCardinality(plugins);
  }
}
