/**
 * The icon choice of `volume_update` in script.js: the volume slider's value
 * selects one of four speaker icons by threshold. The slider's value is taken
 * as an integer (the source compares the slider's string loosely with numbers).
 */
module VolumeIcon {

  /** The thresholds at which the icon steps up a level: 1, 33 and 66. */
  const Thresholds: seq<int> := [1, 33, 66]

  /**
   * The icon level for a volume: 0 for silence, then one level per threshold band.
   * A negative value (the slider cannot produce one) falls into the `< 33` band.
   */
  function IconLevel(volume: int): (level: nat)
    ensures level <= 3
    ensures level == 0 <==> volume == 0
    ensures level == 3 <==> volume >= 66
  {
    if volume == 0 then 0
    else if volume < 33 then 1
    else if volume < 66 then 2
    else 3
  }

  /** The number of thresholds in `ts` that `volume` reaches. */
  function CountReached(ts: seq<int>, volume: int): (n: nat)
    ensures n <= |ts|
  {
    if ts == [] then 0
    else (if ts[0] <= volume then 1 else 0) + CountReached(ts[1..], volume)
  }

  /** For slider values, the level is the number of thresholds the volume has reached. */
  lemma {:induction false} IconLevelCountsThresholds(volume: int)
    requires 0 <= volume
    ensures IconLevel(volume) == CountReached(Thresholds, volume)
  {
    assert Thresholds[1..] == [33, 66] && [33, 66][1..] == [66] && [66][1..] == [];
    assert CountReached([66], volume) == if 66 <= volume then 1 else 0;
    assert CountReached([33, 66], volume) == (if 33 <= volume then 1 else 0) + CountReached([66], volume);
  }

  /** The four bands of the slider's range. */
  lemma IconLevelBands(volume: int)
    requires 0 <= volume
    ensures volume == 0 ==> IconLevel(volume) == 0
    ensures 1 <= volume <= 32 ==> IconLevel(volume) == 1
    ensures 33 <= volume <= 65 ==> IconLevel(volume) == 2
    ensures 66 <= volume ==> IconLevel(volume) == 3
  {
  }

  /** Turning the slider up never lowers the icon level. */
  lemma IconLevelMonotone(lower: int, higher: int)
    requires 0 <= lower <= higher
    ensures IconLevel(lower) <= IconLevel(higher)
  {
  }

  /** The path of the icon shown for a level. */
  function IconSource(level: nat): (src: string)
    requires level <= 3
    ensures |src| == 26
    ensures src[..21] == "./icons/volume-level-" && src[22..] == ".svg"
    ensures src[21] as int == '0' as int + level
  {
    match level
    case 0 => "./icons/volume-level-0.svg"
    case 1 => "./icons/volume-level-1.svg"
    case 2 => "./icons/volume-level-2.svg"
    case 3 => "./icons/volume-level-3.svg"
  }

  /** Distinct levels show distinct icons. */
  lemma IconSourceInjective(a: nat, b: nat)
    requires a <= 3 && b <= 3 && a != b
    ensures IconSource(a) != IconSource(b)
  {
  }

  /** The icon `volume_update` shows for a slider value; the muted icon appears only at 0. */
  function IconFor(volume: int): (src: string)
    ensures |src| == 26 && src[..21] == "./icons/volume-level-" && src[22..] == ".svg"
    ensures src[21] as int == '0' as int + IconLevel(volume)
    ensures src == "./icons/volume-level-0.svg" <==> volume == 0
  {
    IconSource(IconLevel(volume))
  }

  /** Silence shows the muted icon, 50 the level-2 icon and 99 the level-3 icon. */
  lemma IconForExamples()
    ensures IconFor(0) == "./icons/volume-level-0.svg"
    ensures IconFor(50) == "./icons/volume-level-2.svg"
    ensures IconFor(99) == "./icons/volume-level-3.svg"
  {
  }
}
