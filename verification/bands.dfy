/**
 * Colour bands for processor and memory readings.
 *
 * The in-window renderer (ResourceMonitorGUI) and the plugin class (Main)
 * each carry their own pair of thresholds; both pick one of three colours
 * by comparing a percentage against a lower and an upper bound.
 */
module Bands {

  /** The three chat colours a reading can be shown in. */
  datatype Band = Green | Yellow | Red

  /** Severity order of the bands: green < yellow < red. */
  function Severity(b: Band): (n: nat)
    ensures n <= 2
    ensures (n == 0) == (b == Green) && (n == 2) == (b == Red)
  {
    match b
    case Green => 0
    case Yellow => 1
    case Red => 2
  }

  /** Green below `low`, yellow from `low` up to (not including) `high`, red from `high`. */
  function Banded(v: real, low: real, high: real): Band
  {
    if v < low then Green else if v < high then Yellow else Red
  }

  /** ResourceMonitorGUI.getCpuColor: thresholds 50 and 80. */
  function GuiCpuBand(cpu: real): (b: Band)
    ensures b == Green <==> cpu < 50.0
    ensures b == Yellow <==> 50.0 <= cpu < 80.0
    ensures b == Red <==> 80.0 <= cpu
  {
    Banded(cpu, 50.0, 80.0)
  }

  /** ResourceMonitorGUI.getMemoryColor: thresholds 60 and 85. */
  function GuiMemoryBand(mem: real): (b: Band)
    ensures b == Green <==> mem < 60.0
    ensures b == Yellow <==> 60.0 <= mem < 85.0
    ensures b == Red <==> 85.0 <= mem
  {
    Banded(mem, 60.0, 85.0)
  }

  /** Main.getCpuColor: thresholds 30 and 70. */
  function MainCpuBand(cpu: real): (b: Band)
    ensures b == Green <==> cpu < 30.0
    ensures b == Yellow <==> 30.0 <= cpu < 70.0
    ensures b == Red <==> 70.0 <= cpu
  {
    Banded(cpu, 30.0, 70.0)
  }

  /** Main.getMemoryColor: thresholds 50 and 80. */
  function MainMemoryBand(mem: real): (b: Band)
    ensures b == Green <==> mem < 50.0
    ensures b == Yellow <==> 50.0 <= mem < 80.0
    ensures b == Red <==> 80.0 <= mem
  {
    Banded(mem, 50.0, 80.0)
  }

  /** A higher reading never gets a less severe colour. */
  lemma BandedMonotone(v: real, w: real, low: real, high: real)
    requires low <= high && v <= w
    ensures Severity(Banded(v, low, high)) <= Severity(Banded(w, low, high))
  {
  }

  /**
   * The two classes disagree: for the same reading the console summary
   * (Main) never shows a milder colour than the window (ResourceMonitorGUI),
   * and the reading 40 is yellow in one and green in the other.
   */
  lemma MainBandsAtLeastAsSevere(cpu: real, mem: real)
    ensures Severity(MainCpuBand(cpu)) >= Severity(GuiCpuBand(cpu))
    ensures Severity(MainMemoryBand(mem)) >= Severity(GuiMemoryBand(mem))
    ensures MainCpuBand(40.0) == Yellow && GuiCpuBand(40.0) == Green
  {
  }
}
