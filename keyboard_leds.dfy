/** Discovering the keyboard's LED device among the entries of
    `/sys/class/leds` and reading its Caps Lock / Num Lock state.  The
    directory listing and the `brightness` file contents are inputs; a file
    that cannot be read is `None`. */
module KeyboardLeds {
  import opened Wrappers
  import opened Text

  datatype LedState = LedState(capsLock: bool, numLock: bool)

  const ENTRY_HEAD := "input"
  const ENTRY_TAIL := "::capslock"

  /** An entry named `input<N>::capslock`. */
  predicate IsCapslockEntry(name: string)
  {
    StartsWith(name, ENTRY_HEAD) && EndsWith(name, ENTRY_TAIL)
  }

  /** Head and tail cannot overlap, so a matching name always has room for both. */
  lemma CapslockEntryLength(name: string)
    requires IsCapslockEntry(name)
    ensures |name| >= |ENTRY_HEAD| + |ENTRY_TAIL|
  {
    assert forall k :: 0 <= k < |ENTRY_HEAD| ==> name[k] == ENTRY_HEAD[k] != ':';
    assert name[|name| - |ENTRY_TAIL|] == ENTRY_TAIL[0] == ':';
  }

  /** The text between `input` and `::capslock`. */
  function EntryMiddle(name: string): (mid: string)
    requires IsCapslockEntry(name)
    ensures ENTRY_HEAD + mid + ENTRY_TAIL == name
  {
    CapslockEntryLength(name);
    var mid := name[|ENTRY_HEAD|..|name| - |ENTRY_TAIL|];
    assert name == name[..|ENTRY_HEAD|] + mid + name[|name| - |ENTRY_TAIL|..];
    mid
  }

  /** The device id a matching entry names, if its middle parses as a `u8`. */
  function EntryId(name: string): Option<U8>
    requires IsCapslockEntry(name)
  {
    ParseU8(EntryMiddle(name))
  }

  /** Position of the first matching entry. */
  function FirstCapslockEntry(entries: seq<string>): (r: Option<nat>)
    ensures r.Some? ==> r.value < |entries| && IsCapslockEntry(entries[r.value])
    ensures r.Some? ==> forall j :: 0 <= j < r.value ==> !IsCapslockEntry(entries[j])
    ensures r.None? ==> forall j :: 0 <= j < |entries| ==> !IsCapslockEntry(entries[j])
  {
    if entries == [] then None
    else if IsCapslockEntry(entries[0]) then Some(0)
    else match FirstCapslockEntry(entries[1..])
      case None => None
      case Some(k) => Some(k + 1)
  }

  /** What `get_input_id` returns for a directory listing. */
  function InputIdOf(entries: seq<string>): Option<U8>
  {
    match FirstCapslockEntry(entries)
    case None => None
    case Some(k) => EntryId(entries[k])
  }

  /** `get_input_id`: scans the entries in order and returns at the first match. */
  method GetInputId(entries: seq<string>) returns (id: Option<U8>)
    ensures id == InputIdOf(entries)
  {
    for i := 0 to |entries|
      invariant forall j :: 0 <= j < i ==> !IsCapslockEntry(entries[j])
    {
      var path := entries[i];
      if StartsWith(path, ENTRY_HEAD) && EndsWith(path, ENTRY_TAIL) {
        CapslockEntryLength(path);
        var slice := path[|ENTRY_HEAD|..|path| - |ENTRY_TAIL|];
        return ParseU8(slice);
      }
    }
    return None;
  }

  /** The first match decides, whatever follows it, even when its middle
      does not parse. */
  lemma InputIdFirstMatch(before: seq<string>, e: string, after: seq<string>)
    requires forall j :: 0 <= j < |before| ==> !IsCapslockEntry(before[j])
    requires IsCapslockEntry(e)
    ensures InputIdOf(before + [e] + after) == EntryId(e)
  {
    var s := before + [e] + after;
    assert s[|before|] == e;
    assert forall j :: 0 <= j < |before| ==> s[j] == before[j];
  }

  lemma InputIdNoMatch(entries: seq<string>)
    requires forall j :: 0 <= j < |entries| ==> !IsCapslockEntry(entries[j])
    ensures InputIdOf(entries) == None
  {
  }

  /** `input<N>::capslock` with `N` written in decimal names device `N`. */
  lemma EntryIdOfDecimal(n: U8)
    ensures IsCapslockEntry(ENTRY_HEAD + NatToDecimal(n) + ENTRY_TAIL)
    ensures EntryId(ENTRY_HEAD + NatToDecimal(n) + ENTRY_TAIL) == Some(n)
  {
    var name := ENTRY_HEAD + NatToDecimal(n) + ENTRY_TAIL;
    assert name[..|ENTRY_HEAD|] == ENTRY_HEAD;
    assert name[|name| - |ENTRY_TAIL|..] == ENTRY_TAIL;
    var mid := EntryMiddle(name);
    assert mid == NatToDecimal(n) by {
      assert mid == name[|ENTRY_HEAD|..|name| - |ENTRY_TAIL|];
    }
    ParseDecimalU8(n);
  }

  /** An id above 255 makes the entry unusable. */
  lemma EntryIdTooLarge(n: nat)
    requires n > U8_MAX
    ensures IsCapslockEntry(ENTRY_HEAD + NatToDecimal(n) + ENTRY_TAIL)
    ensures EntryId(ENTRY_HEAD + NatToDecimal(n) + ENTRY_TAIL) == None
  {
    var name := ENTRY_HEAD + NatToDecimal(n) + ENTRY_TAIL;
    assert name[..|ENTRY_HEAD|] == ENTRY_HEAD;
    assert name[|name| - |ENTRY_TAIL|..] == ENTRY_TAIL;
    var mid := EntryMiddle(name);
    assert mid == NatToDecimal(n) by {
      assert mid == name[|ENTRY_HEAD|..|name| - |ENTRY_TAIL|];
    }
    ParseDecimalTooLarge(n, U8_MAX);
  }

  /** `read_state`: `None` when the file cannot be read, otherwise whether its
      trimmed content is exactly `"1"`. */
  function ReadState(content: Option<string>): (on: Option<bool>)
    ensures on.Some? <==> content.Some?
    ensures on == Some(true) <==> content.Some? && Trim(content.value) == "1"
  {
    match content
    case None => None
    case Some(c) => Some(Trim(c) == "1")
  }

  /** A word followed by trailing whitespace (the newline sysfs writes) means
      on exactly when the word is `1`: `0`, `2` and `11` are all off. */
  lemma ReadStateOfWord(word: string, pad: string)
    requires word != [] && !IsWhitespace(word[0]) && !IsWhitespace(word[|word| - 1])
    requires AllWhitespace(pad)
    ensures ReadState(Some(word + pad)) == Some(word == "1")
  {
    TrimPadded([], word, pad);
    assert [] + word + pad == word + pad;
  }

  /** `get_leds_state`: both reads must succeed; Caps Lock comes from the
      `capslock` file and Num Lock from the `numlock` file. */
  function GetLedsState(capslock: Option<string>, numlock: Option<string>): (st: Option<LedState>)
    ensures st.Some? <==> capslock.Some? && numlock.Some?
    ensures st.Some? ==> Some(st.value.capsLock) == ReadState(capslock)
    ensures st.Some? ==> Some(st.value.numLock) == ReadState(numlock)
  {
    match ReadState(capslock)
    case None => None
    case Some(caps) =>
      match ReadState(numlock)
      case None => None
      case Some(num) => Some(LedState(caps, num))
  }
}
