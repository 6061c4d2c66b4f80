/** Mute state and volume of the default sink, cut out of the text that
    `pactl list sinks` prints, e.g.
    `Mute: no` then `Volume: front-left: 65536 / 100% / 0.00 dB, ...`.
    The command's output is an input. */
module PulseAudio {
  import opened Wrappers
  import opened Text

  datatype SinkState = SinkState(muted: bool, volume: U8)

  /** Why `get_sink_state` panics. */
  datatype PactlError =
    | NoMuteField       // no "Mute: " in the output
    | UnknownMuteValue  // the text after it starts with neither "yes" nor "no"
    | NoPercent         // no '%' after it
    | NoSpace           // no ' ' between it and that '%'
    | BadVolume         // the text between that ' ' and '%' is not a u8

  const MUTE_KEY := "Mute: "

  /** The text after the first `Mute: `. */
  function AfterMute(raw: string): (rest: string)
    requires Find(raw, MUTE_KEY).Some?
    ensures raw == raw[..Find(raw, MUTE_KEY).value] + MUTE_KEY + rest
  {
    var i := Find(raw, MUTE_KEY).value;
    assert raw == raw[..i] + raw[i..i + |MUTE_KEY|] + raw[i + |MUTE_KEY|..];
    raw[i + |MUTE_KEY|..]
  }

  /** The mute flag the text after `Mute: ` spells. */
  function MuteWord(rest: string): (r: Result<bool, PactlError>)
    ensures r == Ok(true) <==> StartsWith(rest, "yes")
    ensures r == Ok(false) <==> !StartsWith(rest, "yes") && StartsWith(rest, "no")
    ensures r.Err? ==> r.error == UnknownMuteValue
  {
    if StartsWith(rest, "yes") then Ok(true)
    else if StartsWith(rest, "no") then Ok(false)
    else Err(UnknownMuteValue)
  }

  /** The volume: the text between the last ' ' and the first '%' of `rest`. */
  function VolumeOf(rest: string): (r: Result<U8, PactlError>)
    ensures Find(rest, "%").None? ==> r == Err(NoPercent)
    ensures Find(rest, "%").Some? && RFind(rest[..Find(rest, "%").value], " ").None? ==> r == Err(NoSpace)
    ensures r.Ok? ==> Find(rest, "%").Some? && RFind(rest[..Find(rest, "%").value], " ").Some?
    ensures r.Ok? ==>
              var p := Find(rest, "%").value;
              var sp := RFind(rest[..p], " ").value;
              sp < p && Some(r.value) == ParseU8(rest[sp + 1..p])
  {
    match Find(rest, "%")
    case None => Err(NoPercent)
    case Some(p) =>
      var upto := rest[..p];
      match RFind(upto, " ")
      case None => Err(NoSpace)
      case Some(sp) =>
        match ParseU8(upto[sp + 1..])
        case None => Err(BadVolume)
        case Some(v) => Ok(v)
  }

  /** What `get_sink_state` returns for the output of `pactl list sinks`:
      only the text after the first `Mute: ` is examined, and the mute flag
      is checked before the volume. */
  function SinkStateOf(raw: string): (r: Result<SinkState, PactlError>)
    ensures Find(raw, MUTE_KEY).None? <==> r == Err(NoMuteField)
    ensures r.Ok? ==> (r.value.muted <==> StartsWith(AfterMute(raw), "yes"))
    ensures r.Ok? ==> Ok(r.value.volume) == VolumeOf(AfterMute(raw))
    ensures Find(raw, MUTE_KEY).Some? && MuteWord(AfterMute(raw)).Err? ==> r == Err(UnknownMuteValue)
    ensures Find(raw, MUTE_KEY).Some? && MuteWord(AfterMute(raw)).Ok? ==>
              r.Err? == VolumeOf(AfterMute(raw)).Err?
  {
    match Find(raw, MUTE_KEY)
    case None => Err(NoMuteField)
    case Some(_) =>
      var rest := AfterMute(raw);
      match MuteWord(rest)
      case Err(e) => Err(e)
      case Ok(muted) =>
        match VolumeOf(rest)
        case Err(e) => Err(e)
        case Ok(v) => Ok(SinkState(muted, v))
  }

  /** `get_sink_state`: a default state whose fields are set in turn while the
      slice is narrowed step by step. */
  method GetSinkState(raw: string) returns (r: Result<SinkState, PactlError>)
    ensures r == SinkStateOf(raw)
  {
    var index := Find(raw, MUTE_KEY);
    if index.None? {
      return Err(NoMuteField);
    }
    var slice := raw[index.value + |MUTE_KEY|..];
    var state := SinkState(false, 0);
    if StartsWith(slice, "yes") {
      state := state.(muted := true);
    } else if StartsWith(slice, "no") {
      state := state.(muted := false);
    } else {
      return Err(UnknownMuteValue);
    }
    ghost var rest := slice;
    var percent := Find(slice, "%");
    if percent.None? {
      return Err(NoPercent);
    }
    slice := slice[..percent.value];
    var space := RFind(slice, " ");
    if space.None? {
      return Err(NoSpace);
    }
    slice := slice[space.value + 1..];
    var volume := ParseU8(slice);
    if volume.None? {
      return Err(BadVolume);
    }
    state := state.(volume := volume.value);
    assert VolumeOf(rest) == Ok(volume.value);
    return Ok(state);
  }

  /** `yes` or `no`, whatever follows it, gives the mute flag. */
  lemma MuteWordOf(word: string, tail: string)
    requires word == "yes" || word == "no"
    ensures MuteWord(word + tail) == Ok(word == "yes")
  {
    var rest := word + tail;
    assert rest[..|word|] == word;
    assert rest[0] == word[0];
  }

  /** After `Mute: `: text without '%', a space, the volume digits, '%'. */
  lemma VolumeField(head: string, digits: string, post: string)
    requires '%' !in head
    requires digits != [] && AllDigits(digits)
    ensures VolumeOf(head + " " + digits + "%" + post) == (
              match ParseU8(digits)
              case None => Err(BadVolume)
              case Some(v) => Ok(v))
  {
    var rest := head + " " + digits + "%" + post;
    var upto := head + " " + digits;
    assert '%' !in upto by {
      assert forall k :: 0 <= k < |digits| ==> IsDigit(digits[k]);
    }
    assert rest == upto + ['%'] + post;
    FindCharAfter(upto, '%', post);
    assert rest[..|upto|] == upto;
    assert ' ' !in digits by {
      assert forall k :: 0 <= k < |digits| ==> IsDigit(digits[k]);
    }
    assert upto == head + [' '] + digits;
    RFindCharBefore(head, ' ', digits);
    assert upto[|head| + 1..] == digits;
  }

  /** The output up to the mute word, which the first `Mute: ` ends. */
  lemma AfterFirstMute(pre: string, rest: string)
    requires Find(pre + MUTE_KEY, MUTE_KEY) == Some(|pre|)
    ensures Find(pre + MUTE_KEY + rest, MUTE_KEY) == Some(|pre|)
    ensures AfterMute(pre + MUTE_KEY + rest) == rest
  {
    FindExtend(pre + MUTE_KEY, rest, MUTE_KEY);
    var raw := pre + MUTE_KEY + rest;
    assert raw[|pre| + |MUTE_KEY|..] == rest;
  }

  /** The state spelled by the text after the first `Mute: `. */
  lemma SinkAfterFirstMute(pre: string, rest: string)
    requires Find(pre + MUTE_KEY, MUTE_KEY) == Some(|pre|)
    ensures SinkStateOf(pre + MUTE_KEY + rest) == (
              match MuteWord(rest)
              case Err(e) => Err(e)
              case Ok(muted) =>
                match VolumeOf(rest)
                case Err(e) => Err(e)
                case Ok(v) => Ok(SinkState(muted, v)))
  {
    AfterFirstMute(pre, rest);
  }

  /** The output of a sink whose first `Mute: ` is followed by `yes` or `no`,
      then text without '%', a space, digits and '%'. */
  lemma SinkOfLine(pre: string, word: string, mid: string, digits: string, post: string)
    requires Find(pre + MUTE_KEY, MUTE_KEY) == Some(|pre|)
    requires word == "yes" || word == "no"
    requires '%' !in mid
    requires digits != [] && AllDigits(digits)
    ensures SinkStateOf(pre + MUTE_KEY + (word + mid + " " + digits + "%" + post)) == (
              match ParseU8(digits)
              case None => Err(BadVolume)
              case Some(v) => Ok(SinkState(word == "yes", v)))
  {
    var tail := mid + " " + digits + "%" + post;
    var rest := word + mid + " " + digits + "%" + post;
    assert rest == word + tail;
    MuteWordOf(word, tail);
    assert '%' !in word + mid;
    VolumeField(word + mid, digits, post);
    SinkAfterFirstMute(pre, rest);
  }

  /** The output of a sink whose mute word is `yes` or `no` and whose first
      volume figure after it is `v`%: the word becomes the flag and `v` the
      volume, whatever the rest of the output holds. */
  lemma SinkRoundTrip(pre: string, word: string, mid: string, v: U8, post: string)
    requires Find(pre + MUTE_KEY, MUTE_KEY) == Some(|pre|)
    requires word == "yes" || word == "no"
    requires '%' !in mid
    ensures SinkStateOf(pre + MUTE_KEY + (word + mid + " " + NatToDecimal(v) + "%" + post))
            == Ok(SinkState(word == "yes", v))
  {
    SinkOfLine(pre, word, mid, NatToDecimal(v), post);
    ParseDecimalU8(v);
  }

  /** Without `Mute: ` the output is rejected. */
  lemma NoMuteKey(raw: string)
    requires forall j :: 0 <= j <= |raw| ==> !OccursAt(raw, MUTE_KEY, j)
    ensures SinkStateOf(raw) == Err(NoMuteField)
  {
  }

  /** A mute word other than `yes` or `no` is rejected before the volume is
      looked at. */
  lemma UnknownMuteWord(pre: string, rest: string)
    requires Find(pre + MUTE_KEY, MUTE_KEY) == Some(|pre|)
    requires !StartsWith(rest, "yes") && !StartsWith(rest, "no")
    ensures SinkStateOf(pre + MUTE_KEY + rest) == Err(UnknownMuteValue)
  {
    AfterFirstMute(pre, rest);
  }

  /** A volume above 255 does not fit a `u8` and is rejected. */
  lemma VolumeTooLarge(pre: string, word: string, mid: string, v: nat, post: string)
    requires Find(pre + MUTE_KEY, MUTE_KEY) == Some(|pre|)
    requires word == "yes" || word == "no"
    requires '%' !in mid
    requires v > U8_MAX
    ensures SinkStateOf(pre + MUTE_KEY + (word + mid + " " + NatToDecimal(v) + "%" + post))
            == Err(BadVolume)
  {
    SinkOfLine(pre, word, mid, NatToDecimal(v), post);
    ParseDecimalTooLarge(v, U8_MAX);
  }
}
