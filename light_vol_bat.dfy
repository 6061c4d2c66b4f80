/** The brightness and volume parts of the status line that
    `light-vol-bat` prints: an icon chosen by the value's range, a space,
    the value and a percent sign.  The brightness percentage and the sink
    state are inputs. */
module LightVolBat {
  import opened Wrappers
  import opened Text
  import opened PulseAudio

  /** Why `show_brightness` panics. */
  datatype BrightnessError = InvalidBrightness

  const NEW_MOON := "\U{1F311}"
  const WANING_CRESCENT := "\U{1F318}"
  const LAST_QUARTER := "\U{1F317}"
  const WANING_GIBBOUS := "\U{1F316}"
  const FULL_MOON := "\U{1F315}"

  const MUTED := "\U{1F507}"
  const SPEAKER_LOW := "\U{1F508}"
  const SPEAKER_MEDIUM := "\U{1F509}"
  const SPEAKER_HIGH := "\U{1F50A}"

  /** The moon phases from dark to full, one per fifth of the range. */
  const MOON_PHASES := [NEW_MOON, WANING_CRESCENT, LAST_QUARTER, WANING_GIBBOUS, FULL_MOON]

  /** The brightness icon: five bands of twenty percent, the last one
      closed at 100; anything above 100 panics. */
  function BrightnessIcon(brightness: U8): (r: Result<string, BrightnessError>)
    ensures r.Err? <==> brightness > 100
    ensures r.Ok? ==> r.value in MOON_PHASES
  {
    if brightness <= 19 then Ok(NEW_MOON)
    else if brightness <= 39 then Ok(WANING_CRESCENT)
    else if brightness <= 59 then Ok(LAST_QUARTER)
    else if brightness <= 79 then Ok(WANING_GIBBOUS)
    else if brightness <= 100 then Ok(FULL_MOON)
    else Err(InvalidBrightness)
  }

  /** Which fifth of 0..=100 a brightness falls in. */
  function Fifth(brightness: nat): (k: nat)
    requires brightness <= 100
    ensures k < |MOON_PHASES|
  {
    if brightness == 100 then 4 else brightness / 20
  }

  /** The five bands cover 0..=100, each band ends just before the next
      starts, and the phases differ, so the bands do not overlap. */
  lemma BrightnessBands(brightness: U8)
    requires brightness <= 100
    ensures BrightnessIcon(brightness) == Ok(MOON_PHASES[Fifth(brightness)])
    ensures forall i, j :: 0 <= i < j < |MOON_PHASES| ==> MOON_PHASES[i] != MOON_PHASES[j]
  {
  }

  /** More light never shows a darker moon. */
  lemma BrightnessMonotone(a: U8, b: U8)
    requires a <= b <= 100
    ensures Fifth(a) <= Fifth(b)
  {
  }

  /** Every icon is one character, so the text after the icon and the space
      reads back as the value. */
  lemma ShownValueReadsBack(icon: string, value: U8)
    requires |icon| == 1
    ensures var text := icon + " " + NatToDecimal(value) + "%";
            text[..2] == icon + " " && text[|text| - 1] == '%'
            && ParseU8(text[2..|text| - 1]) == Some(value)
  {
    var text := icon + " " + NatToDecimal(value) + "%";
    assert text[2..|text| - 1] == NatToDecimal(value);
    ParseDecimalU8(value);
  }

  /** `show_brightness`: the icon, a space, the value and `%`. */
  function ShowBrightness(brightness: U8): (r: Result<string, BrightnessError>)
    ensures r.Err? <==> brightness > 100
    ensures r.Ok? ==> |r.value| >= 4 && r.value[..2] == BrightnessIcon(brightness).value + " "
                      && r.value[|r.value| - 1] == '%'
                      && ParseU8(r.value[2..|r.value| - 1]) == Some(brightness)
  {
    var icon :- BrightnessIcon(brightness);
    ShownValueReadsBack(icon, brightness);
    Ok(icon + " " + NatToDecimal(brightness) + "%")
  }

  /** The volume icon: muted wins over any volume; otherwise three bands. */
  function VolumeIcon(state: SinkState): (icon: string)
    ensures |icon| == 1
    ensures icon == MUTED <==> state.muted
  {
    if state.muted then MUTED
    else if state.volume <= 35 then SPEAKER_LOW
    else if state.volume <= 70 then SPEAKER_MEDIUM
    else SPEAKER_HIGH
  }

  /** The unmuted bands cover every `u8`: 0..=35, 36..=70 and 71..=255. */
  lemma VolumeBands(state: SinkState)
    requires !state.muted
    ensures state.volume <= 35 <==> VolumeIcon(state) == SPEAKER_LOW
    ensures 36 <= state.volume <= 70 <==> VolumeIcon(state) == SPEAKER_MEDIUM
    ensures 71 <= state.volume <==> VolumeIcon(state) == SPEAKER_HIGH
  {
  }

  /** `show_volume`: the icon, a space, the volume and `%`; a muted sink
      still shows its volume. */
  function ShowVolume(state: SinkState): (r: string)
    ensures |r| >= 4 && r[..2] == VolumeIcon(state) + " " && r[|r| - 1] == '%'
    ensures ParseU8(r[2..|r| - 1]) == Some(state.volume)
  {
    ShownValueReadsBack(VolumeIcon(state), state.volume);
    VolumeIcon(state) + " " + NatToDecimal(state.volume) + "%"
  }

  /** How loud an unmuted icon looks: 0, 1 or 2 waves. */
  function Loudness(icon: string): nat
  {
    if icon == SPEAKER_HIGH then 2 else if icon == SPEAKER_MEDIUM then 1 else 0
  }

  /** A louder unmuted sink never shows fewer waves. */
  lemma VolumeMonotone(a: SinkState, b: SinkState)
    requires !a.muted && !b.muted && a.volume <= b.volume
    ensures Loudness(VolumeIcon(a)) <= Loudness(VolumeIcon(b))
  {
  }

  /** Muting hides the volume from the icon, not from the text. */
  lemma MutedIgnoresVolume(a: SinkState, b: SinkState)
    requires a.muted && b.muted
    ensures VolumeIcon(a) == VolumeIcon(b) == MUTED
  {
  }
}
