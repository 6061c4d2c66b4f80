/** The keyboard indicator: it builds a catalog of switchable input methods
    from whichever Fcitx dialect answers, then on every tick looks up the
    current input method, appends the Num/Caps Lock markers and prints the
    line when it changed.  Every D-Bus reply and every sysfs read is an
    input: `Peers` holds the replies the start-up phase receives, a `Tick`
    those of one loop iteration. */
module Keyboard {
  import opened Wrappers
  import opened Text
  import opened Fcitx
  import opened KeyboardLeds

  /** A failed D-Bus call (peer absent, malformed reply, ...). */
  datatype BusError = BusError(message: string)

  /** Why the indicator stops. */
  datatype KeyboardError =
    | NoKeyboardId                       // no usable `input<N>::capslock` entry
    | Bus(cause: BusError)               // a D-Bus call propagated with `?`
    | FcitxNotFound                      // neither dialect produced a list
    | UnknownInputMethod(name: string)   // current id missing from the catalog
    | LedReadFailed                      // a `brightness` file could not be read

  // ---------------------------------------------------------------------
  // Markup

  const HIGHLIGHT_OPEN := "<span foreground='#ff9944'>"
  const HIGHLIGHT_CLOSE := "</span>"
  const NUM_MARKER := "[Num]"
  const CAPS_MARKER := "[Caps]"

  /** `highlight`: wraps a value in the indicator's colour span; the value
      can be read back from between the two tags. */
  function Highlight(value: string): (r: string)
    ensures StartsWith(r, HIGHLIGHT_OPEN) && EndsWith(r, HIGHLIGHT_CLOSE)
    ensures |r| == |HIGHLIGHT_OPEN| + |value| + |HIGHLIGHT_CLOSE|
    ensures r[|HIGHLIGHT_OPEN|..|r| - |HIGHLIGHT_CLOSE|] == value
  {
    var r := HIGHLIGHT_OPEN + value + HIGHLIGHT_CLOSE;
    assert r[..|HIGHLIGHT_OPEN|] == HIGHLIGHT_OPEN;
    assert r[|r| - |HIGHLIGHT_CLOSE|..] == HIGHLIGHT_CLOSE;
    assert r[|HIGHLIGHT_OPEN|..|r| - |HIGHLIGHT_CLOSE|] == value;
    r
  }

  /** The lock markers `leds_state` produces for a state. */
  function LedMarkup(st: LedState): string
  {
    (if st.numLock then Highlight(NUM_MARKER) else "")
    + (if st.capsLock then Highlight(CAPS_MARKER) else "")
  }

  /** `leds_state`: reads the LEDs (failing when a file cannot be read) and
      appends the Num marker, then the Caps marker. */
  method LedsState(leds: Option<LedState>) returns (r: Result<string, KeyboardError>)
    ensures leds.None? ==> r == Err(LedReadFailed)
    ensures leds.Some? ==> r == Ok(LedMarkup(leds.value))
  {
    if leds.None? {
      return Err(LedReadFailed);
    }
    var state := leds.value;
    var result := "";
    if state.numLock {
      result := result + Highlight(NUM_MARKER);
    }
    assert result == (if state.numLock then Highlight(NUM_MARKER) else "");
    if state.capsLock {
      result := result + Highlight(CAPS_MARKER);
    }
    assert result == LedMarkup(state);
    return Ok(result);
  }

  lemma LedMarkupEmpty(st: LedState)
    ensures LedMarkup(st) == "" <==> !st.numLock && !st.capsLock
  {
  }

  /** With both locks on, `[Num]` comes first and `[Caps]` last. */
  lemma LedMarkupOrder(st: LedState)
    requires st.numLock && st.capsLock
    ensures StartsWith(LedMarkup(st), Highlight(NUM_MARKER))
    ensures EndsWith(LedMarkup(st), Highlight(CAPS_MARKER))
  {
    var m := LedMarkup(st);
    assert m == Highlight(NUM_MARKER) + Highlight(CAPS_MARKER);
    assert m[..|Highlight(NUM_MARKER)|] == Highlight(NUM_MARKER);
    assert m[|m| - |Highlight(CAPS_MARKER)|..] == Highlight(CAPS_MARKER);
  }

  /** The four lock states give four different markups, so the markup tells
      exactly which locks are on. */
  lemma LedMarkupInjective(a: LedState, b: LedState)
    requires LedMarkup(a) == LedMarkup(b)
    ensures a == b
  {
    var n := |Highlight(NUM_MARKER)|;
    var c := |Highlight(CAPS_MARKER)|;
    assert n == 39 && c == 40;
    assert |LedMarkup(a)| == (if a.numLock then n else 0) + (if a.capsLock then c else 0);
    assert |LedMarkup(b)| == (if b.numLock then n else 0) + (if b.capsLock then c else 0);
  }

  // ---------------------------------------------------------------------
  // Catalog

  const KEYBOARD_PREFIX := "Keyboard - "

  /** Drops one leading `"Keyboard - "`; any other name is kept as it is. */
  function StripKeyboardPrefix(name: string): (r: string)
    ensures StartsWith(name, KEYBOARD_PREFIX) ==> KEYBOARD_PREFIX + r == name
    ensures !StartsWith(name, KEYBOARD_PREFIX) ==> r == name
  {
    if StartsWith(name, KEYBOARD_PREFIX) then
      assert name == name[..|KEYBOARD_PREFIX|] + name[|KEYBOARD_PREFIX|..];
      name[|KEYBOARD_PREFIX|..]
    else name
  }

  /** The prefix is removed once only: a doubled prefix leaves one behind. */
  lemma StripKeyboardPrefixOnce(x: string)
    ensures StripKeyboardPrefix(KEYBOARD_PREFIX + x) == x
  {
    var s := KEYBOARD_PREFIX + x;
    assert s[..|KEYBOARD_PREFIX|] == KEYBOARD_PREFIX;
  }

  function Cleaned(im: InputMethod): InputMethod
  {
    im.(displayName := StripKeyboardPrefix(im.displayName))
  }

  /** Which raw entries a catalog keeps: the loaded ones (Fcitx4), or those
      whose internal name is a member of the active group (Fcitx5). */
  datatype Criterion = Loaded | InGroup(members: seq<string>)

  predicate Keeps(c: Criterion, im: InputMethod)
  {
    match c
    case Loaded => im.loaded
    case InGroup(members) => im.name in members
  }

  /** The catalog the `filter_map` closures in `main` collect. */
  function CatalogOf(raw: seq<InputMethod>, c: Criterion): seq<InputMethod>
  {
    if raw == [] then []
    else
      var last := raw[|raw| - 1];
      CatalogOf(raw[..|raw| - 1], c) + (if Keeps(c, last) then [Cleaned(last)] else [])
  }

  /** One `filter_map(...).collect()` pass: each entry that passes the test has
      the prefix drained from its display name and is appended. */
  method BuildCatalog(raw: seq<InputMethod>, c: Criterion) returns (catalog: seq<InputMethod>)
    ensures catalog == CatalogOf(raw, c)
  {
    catalog := [];
    for i := 0 to |raw|
      invariant catalog == CatalogOf(raw[..i], c)
    {
      var im := raw[i];
      if Keeps(c, im) {
        if StartsWith(im.displayName, KEYBOARD_PREFIX) {
          im := im.(displayName := im.displayName[|KEYBOARD_PREFIX|..]);
        }
        catalog := catalog + [im];
      }
      assert raw[..i + 1][..i] == raw[..i];
    }
    assert raw[..|raw|] == raw;
  }

  /** Catalog construction works entry by entry: splitting the raw list splits
      the catalog, so source order is preserved. */
  lemma {:induction false} CatalogAppend(a: seq<InputMethod>, b: seq<InputMethod>, c: Criterion)
    ensures CatalogOf(a + b, c) == CatalogOf(a, c) + CatalogOf(b, c)
    decreases |b|
  {
    if b == [] {
      assert a + b == a;
    } else {
      var b' := b[..|b| - 1];
      assert (a + b)[..|a + b| - 1] == a + b';
      assert (a + b)[|a + b| - 1] == b[|b| - 1];
      CatalogAppend(a, b', c);
    }
  }

  /** An entry is in the catalog exactly when it is the cleaned form of a raw
      entry that passes the test. */
  lemma {:induction false} CatalogMembership(raw: seq<InputMethod>, c: Criterion, im: InputMethod)
    ensures im in CatalogOf(raw, c) <==>
            exists k :: 0 <= k < |raw| && Keeps(c, raw[k]) && im == Cleaned(raw[k])
    decreases |raw|
  {
    if raw != [] {
      var init := raw[..|raw| - 1];
      CatalogMembership(init, c, im);
      assert forall k :: 0 <= k < |init| ==> init[k] == raw[k];
      if exists k :: 0 <= k < |raw| && Keeps(c, raw[k]) && im == Cleaned(raw[k]) {
        var k :| 0 <= k < |raw| && Keeps(c, raw[k]) && im == Cleaned(raw[k]);
        if k < |init| {
          assert init[k] == raw[k];
        }
      }
    }
  }

  /** Every catalog entry passes the test and differs from its raw entry only
      in the display name; the catalog has one entry per passing raw entry. */
  lemma {:induction false} CatalogEntries(raw: seq<InputMethod>, c: Criterion)
    ensures |CatalogOf(raw, c)| <= |raw|
    ensures forall im :: im in CatalogOf(raw, c) ==> Keeps(c, im)
    ensures (forall k :: 0 <= k < |raw| ==> Keeps(c, raw[k])) ==> |CatalogOf(raw, c)| == |raw|
    ensures (forall k :: 0 <= k < |raw| ==> !Keeps(c, raw[k])) ==> CatalogOf(raw, c) == []
    ensures (forall k :: 0 <= k < |raw| ==> Keeps(c, raw[k])) ==>
              CatalogOf(raw, c) == seq(|raw|, k requires 0 <= k < |raw| => Cleaned(raw[k]))
    decreases |raw|
  {
    if raw != [] {
      var init := raw[..|raw| - 1];
      CatalogEntries(init, c);
      assert forall k :: 0 <= k < |init| ==> init[k] == raw[k];
    }
    if forall k :: 0 <= k < |raw| ==> Keeps(c, raw[k]) {
      CatalogAllKept(raw, c);
    }
  }

  lemma {:induction false} CatalogAllKept(raw: seq<InputMethod>, c: Criterion)
    requires forall k :: 0 <= k < |raw| ==> Keeps(c, raw[k])
    ensures CatalogOf(raw, c) == seq(|raw|, k requires 0 <= k < |raw| => Cleaned(raw[k]))
    decreases |raw|
  {
    if raw != [] {
      var init := raw[..|raw| - 1];
      assert forall k :: 0 <= k < |init| ==> init[k] == raw[k];
      CatalogAllKept(init, c);
      assert CatalogOf(raw, c) == CatalogOf(init, c) + [Cleaned(raw[|raw| - 1])];
    }
  }

  /** The Fcitx4 catalog: the loaded entries of `IMList`, in order. */
  function Fcitx4Catalog(list: seq<Fcitx4Entry>): seq<InputMethod>
  {
    CatalogOf(Fcitx4Records(list), Loaded)
  }

  /** The Fcitx5 catalog: the entries of `AvailableInputMethods` whose
      internal name is listed in the group info, in order. */
  function Fcitx5Catalog(list: seq<Fcitx5Entry>, info: GroupInfo): seq<InputMethod>
  {
    CatalogOf(Fcitx5Records(list), InGroup(GroupMembers(info)))
  }

  lemma Fcitx4CatalogExactly(list: seq<Fcitx4Entry>, im: InputMethod)
    ensures im in Fcitx4Catalog(list) <==>
            exists k :: 0 <= k < |list| && list[k].3 && im == Cleaned(FromFcitx4(list[k]))
  {
    CatalogMembership(Fcitx4Records(list), Loaded, im);
  }

  lemma Fcitx5CatalogExactly(list: seq<Fcitx5Entry>, info: GroupInfo, im: InputMethod)
    ensures im in Fcitx5Catalog(list, info) <==>
            exists k :: 0 <= k < |list| && list[k].0 in GroupMembers(info)
                        && im == Cleaned(FromFcitx5(list[k]))
  {
    CatalogMembership(Fcitx5Records(list), InGroup(GroupMembers(info)), im);
  }

  // ---------------------------------------------------------------------
  // Rendering

  /** `Iterator::find` on the catalog by internal name: the first match. */
  function FindByName(catalog: seq<InputMethod>, name: string): (r: Option<nat>)
    ensures r.Some? ==> r.value < |catalog| && catalog[r.value].name == name
    ensures r.Some? ==> forall j :: 0 <= j < r.value ==> catalog[j].name != name
    ensures r.None? ==> forall j :: 0 <= j < |catalog| ==> catalog[j].name != name
  {
    if catalog == [] then None
    else if catalog[0].name == name then Some(0)
    else match FindByName(catalog[1..], name)
      case None => None
      case Some(k) => Some(k + 1)
  }

  /** `render`: the empty string for an empty id (the LEDs are then not read
      at all); otherwise the display name of the first entry with that
      internal name, a space and the lock markers. */
  function Render(currentIm: string, catalog: seq<InputMethod>, leds: Option<LedState>)
    : (r: Result<string, KeyboardError>)
    ensures currentIm == "" ==> r == Ok("")
    ensures currentIm != "" && r.Ok? ==>
              exists k :: 0 <= k < |catalog| && catalog[k].name == currentIm
                          && StartsWith(r.value, catalog[k].displayName + " ")
  {
    if currentIm == "" then Ok("")
    else match FindByName(catalog, currentIm)
      case None => Err(UnknownInputMethod(currentIm))
      case Some(k) =>
        match leds
        case None => Err(LedReadFailed)
        case Some(st) =>
          var line := catalog[k].displayName + " " + LedMarkup(st);
          assert line[..|catalog[k].displayName + " "|] == catalog[k].displayName + " ";
          Ok(line)
  }

  /** A present id renders as its first entry's display name, one space and
      the markers; with no lock on the trailing space remains. */
  lemma RenderFound(currentIm: string, catalog: seq<InputMethod>, k: nat, st: LedState)
    requires currentIm != ""
    requires k < |catalog| && catalog[k].name == currentIm
    requires forall j :: 0 <= j < k ==> catalog[j].name != currentIm
    ensures Render(currentIm, catalog, Some(st)) == Ok(catalog[k].displayName + " " + LedMarkup(st))
    ensures !st.numLock && !st.capsLock ==>
              Render(currentIm, catalog, Some(st)) == Ok(catalog[k].displayName + " ")
  {
    assert FindByName(catalog, currentIm) == Some(k);
    assert catalog[k].displayName + " " + "" == catalog[k].displayName + " ";
  }

  /** A non-empty id that is not in the catalog is fatal, whatever the LEDs. */
  lemma RenderUnknown(currentIm: string, catalog: seq<InputMethod>, leds: Option<LedState>)
    requires currentIm != ""
    requires forall j :: 0 <= j < |catalog| ==> catalog[j].name != currentIm
    ensures Render(currentIm, catalog, leds) == Err(UnknownInputMethod(currentIm))
  {
  }

  /** The highlighted Num marker, spelled out. */
  lemma NumMarkupText()
    ensures Highlight(NUM_MARKER) == "<span foreground='#ff9944'>[Num]</span>"
  {
  }

  /** The documented example: `pinyin` with Num Lock on. */
  lemma RenderPinyin()
    ensures Render("pinyin", [InputMethod("Pinyin", "pinyin", "zh", true)],
                   Some(LedState(false, true)))
            == Ok("Pinyin " + "<span foreground='#ff9944'>[Num]</span>")
  {
    var catalog := [InputMethod("Pinyin", "pinyin", "zh", true)];
    assert FindByName(catalog, "pinyin") == Some(0);
    assert LedMarkup(LedState(false, true)) == Highlight(NUM_MARKER);
    assert Render("pinyin", catalog, Some(LedState(false, true)))
           == Ok("Pinyin" + " " + Highlight(NUM_MARKER));
    assert "Pinyin" + " " == "Pinyin ";
    NumMarkupText();
  }

  // ---------------------------------------------------------------------
  // Start-up: catalog and backend

  datatype Backend = Fcitx4 | Fcitx5

  /** What the loop runs with. */
  datatype Session = Session(keyboardId: U8, catalog: seq<InputMethod>, backend: Backend)

  /** The replies start-up receives.  `groupInfo` answers
      `InputMethodGroupInfo` for the group it is asked about. */
  datatype Peers = Peers(
    ledEntries: seq<string>,                               // names in /sys/class/leds
    imList: Result<seq<Fcitx4Entry>, BusError>,            // Fcitx4 `IMList`
    currentGroup: Result<string, BusError>,                // Fcitx5 `CurrentInputMethodGroup`
    groupInfo: string -> Result<GroupInfo, BusError>,      // Fcitx5 `InputMethodGroupInfo`
    inputMethods: Result<seq<Fcitx5Entry>, BusError>)      // Fcitx5 `AvailableInputMethods`

  /** The Fcitx4 list wins when there is one, then the Fcitx5 list. */
  function SelectBackend(fcitx4: Option<seq<InputMethod>>, fcitx5: Option<seq<InputMethod>>)
    : (r: Result<(seq<InputMethod>, Backend), KeyboardError>)
    ensures r.Ok? <==> fcitx4.Some? || fcitx5.Some?
    ensures r.Ok? ==> (r.value.1 == Fcitx4 <==> fcitx4.Some?)
    ensures r.Ok? && r.value.1 == Fcitx4 ==> r.value.0 == fcitx4.value
    ensures r.Ok? && r.value.1 == Fcitx5 ==> r.value.0 == fcitx5.value
    ensures r.Err? ==> r.error == FcitxNotFound
  {
    if fcitx4.Some? then Ok((fcitx4.value, Fcitx4))
    else if fcitx5.Some? then Ok((fcitx5.value, Fcitx5))
    else Err(FcitxNotFound)
  }

  /** Everything `main` does before its loop.  A failed `IMList` read only
      means "no Fcitx4 list"; a failed group query returns from `main`. */
  function Startup(p: Peers): Result<Session, KeyboardError>
  {
    match InputIdOf(p.ledEntries)
    case None => Err(NoKeyboardId)
    case Some(id) =>
      var fcitx4 := if p.imList.Ok? then Some(Fcitx4Catalog(p.imList.value)) else None;
      match p.currentGroup
      case Err(e) => Err(Bus(e))
      case Ok(group) =>
        match p.groupInfo(group)
        case Err(e) => Err(Bus(e))
        case Ok(info) =>
          var fcitx5 := if p.inputMethods.Ok? then Some(Fcitx5Catalog(p.inputMethods.value, info)) else None;
          match SelectBackend(fcitx4, fcitx5)
          case Err(e) => Err(e)
          case Ok(chosen) => Ok(Session(id, chosen.0, chosen.1))
  }

  /** A failing Fcitx5 group query ends the program even when the Fcitx4 list
      was obtained. */
  lemma GroupQueryFailureIsFatal(p: Peers)
    requires InputIdOf(p.ledEntries).Some?
    requires p.currentGroup.Err? || p.groupInfo(p.currentGroup.value).Err?
    ensures Startup(p) == Err(Bus(if p.currentGroup.Err? then p.currentGroup.error
                                  else p.groupInfo(p.currentGroup.value).error))
  {
  }

  /** Start-up stops with `NoKeyboardId` exactly when `get_input_id` finds no
      usable LED entry, before any bus query and whatever the peers answer. */
  lemma NoKeyboardIdIsFatal(p: Peers)
    ensures Startup(p) == Err(NoKeyboardId) <==> InputIdOf(p.ledEntries).None?
  {
  }

  /** With the group known, the Fcitx4 list is used whenever it was read. */
  lemma Fcitx4Preferred(p: Peers)
    requires InputIdOf(p.ledEntries).Some? && p.imList.Ok?
    requires p.currentGroup.Ok? && p.groupInfo(p.currentGroup.value).Ok?
    ensures Startup(p) == Ok(Session(InputIdOf(p.ledEntries).value, Fcitx4Catalog(p.imList.value), Fcitx4))
  {
  }

  lemma Fcitx5Fallback(p: Peers)
    requires InputIdOf(p.ledEntries).Some? && p.imList.Err? && p.inputMethods.Ok?
    requires p.currentGroup.Ok? && p.groupInfo(p.currentGroup.value).Ok?
    ensures Startup(p) == Ok(Session(InputIdOf(p.ledEntries).value,
                                     Fcitx5Catalog(p.inputMethods.value, p.groupInfo(p.currentGroup.value).value),
                                     Fcitx5))
  {
  }

  lemma NoBackendFound(p: Peers)
    requires InputIdOf(p.ledEntries).Some? && p.imList.Err? && p.inputMethods.Err?
    requires p.currentGroup.Ok? && p.groupInfo(p.currentGroup.value).Ok?
    ensures Startup(p) == Err(FcitxNotFound)
  {
  }

  // ---------------------------------------------------------------------
  // The polling loop

  /** The replies one iteration receives: the current id from each dialect
      (only the chosen one is asked) and the two LED `brightness` files. */
  datatype Tick = Tick(
    currentIm: Result<string, BusError>,            // Fcitx4 `CurrentIM`
    currentInputMethod: Result<string, BusError>,   // Fcitx5 `CurrentInputMethod`
    capslock: Option<string>,
    numlock: Option<string>)

  /** `do_render` for one tick. */
  function RenderTick(s: Session, t: Tick): Result<string, KeyboardError>
  {
    var reply := if s.backend == Fcitx5 then t.currentInputMethod else t.currentIm;
    match reply
    case Err(e) => Err(Bus(e))
    case Ok(currentIm) => Render(currentIm, s.catalog, GetLedsState(t.capslock, t.numlock))
  }

  /** `do_render` as the program runs it: the LED files are read (inside
      `leds_state`) only once the id was found. */
  method DoRender(s: Session, t: Tick) returns (r: Result<string, KeyboardError>)
    ensures r == RenderTick(s, t)
  {
    var reply := if s.backend == Fcitx5 then t.currentInputMethod else t.currentIm;
    if reply.Err? {
      return Err(Bus(reply.error));
    }
    var currentIm := reply.value;
    if currentIm == "" {
      return Ok("");
    }
    var k := FindByName(s.catalog, currentIm);
    if k.None? {
      return Err(UnknownInputMethod(currentIm));
    }
    var displayName := s.catalog[k.value].displayName;
    var leds := LedsState(GetLedsState(t.capslock, t.numlock));
    if leds.Err? {
      return Err(leds.error);
    }
    return Ok(displayName + " " + leds.value);
  }

  /** One iteration of the diff loop, from the last printed line and the new
      render to the new last line and what is printed. */
  function DiffStep(last: string, now: string): (r: (string, Option<string>))
    ensures r.1.Some? <==> now != "" && now != last
    ensures r.1.Some? ==> r.1.value == now && r.0 == now
    ensures r.1.None? ==> r.0 == last
  {
    if now != "" && now != last then (now, Some(now)) else (last, None)
  }

  function OptionToSeq(o: Option<string>): seq<string>
  {
    match o
    case None => []
    case Some(x) => [x]
  }

  /** The lines the loop prints for a sequence of successful renders. */
  function Emitted(last: string, nows: seq<string>): seq<string>
    decreases |nows|
  {
    if nows == [] then []
    else
      var step := DiffStep(last, nows[0]);
      OptionToSeq(step.1) + Emitted(step.0, nows[1..])
  }

  /** Reference definition: drop the empty renders, then collapse runs of
      equal lines (a line equal to `prev` is not repeated). */
  function NonEmpty(s: seq<string>): (r: seq<string>)
    ensures forall x :: x in r ==> x in s && x != ""
  {
    if s == [] then []
    else if s[0] == "" then NonEmpty(s[1..])
    else [s[0]] + NonEmpty(s[1..])
  }

  function Collapse(prev: string, s: seq<string>): (r: seq<string>)
    ensures forall x :: x in r ==> x in s
    decreases |s|
  {
    if s == [] then []
    else if s[0] == prev then Collapse(prev, s[1..])
    else [s[0]] + Collapse(s[0], s[1..])
  }

  /** The diff loop prints exactly the non-empty renders with repeats removed;
      an empty render in between does not count as a change. */
  lemma {:induction false} EmittedIsCollapse(last: string, nows: seq<string>)
    ensures Emitted(last, nows) == Collapse(last, NonEmpty(nows))
    decreases |nows|
  {
    if nows != [] {
      EmittedIsCollapse(DiffStep(last, nows[0]).0, nows[1..]);
    }
  }

  /** Collapsed output never repeats a line back to back, and does not start
      with `prev`. */
  lemma {:induction false} CollapseNoRepeats(prev: string, s: seq<string>)
    ensures var r := Collapse(prev, s);
            (r != [] ==> r[0] != prev)
            && forall i :: 0 <= i < |r| - 1 ==> r[i] != r[i + 1]
    decreases |s|
  {
    if s != [] {
      CollapseNoRepeats(if s[0] == prev then prev else s[0], s[1..]);
    }
  }

  /** Coming back to the last printed line after an empty render prints
      nothing; a repeated render prints once. */
  lemma ReturnAfterEmptyIsSilent(last: string, x: string)
    requires x != "" && x != last
    ensures Emitted(last, [x, "", x]) == [x]
    ensures Emitted(last, [x, x]) == [x]
    ensures Emitted(x, ["", x]) == []
  {
    assert [x, "", x][1..] == ["", x];
    assert ["", x][1..] == [x];
    assert [x, x][1..] == [x];
    assert [x][1..] == [];
    assert Emitted(x, [x]) == [];
    assert Emitted(x, ["", x]) == [];
    assert Emitted(last, [x, x]) == [x] + Emitted(x, [x]);
    assert Emitted(last, [x, "", x]) == [x] + Emitted(x, ["", x]);
  }

  /** What a run over finitely many ticks shows: the printed lines and
      whether the loop was still going after the last tick. */
  datatype Exit = Running | Failed(error: KeyboardError)
  datatype Run = Run(printed: seq<string>, exit: Exit)

  /** The loop from a given last line: it stops at the first failing render. */
  function Loop(s: Session, last: string, ticks: seq<Tick>): Run
    decreases |ticks|
  {
    if ticks == [] then Run([], Running)
    else match RenderTick(s, ticks[0])
      case Err(e) => Run([], Failed(e))
      case Ok(now) =>
        var step := DiffStep(last, now);
        var rest := Loop(s, step.0, ticks[1..]);
        Run(OptionToSeq(step.1) + rest.printed, rest.exit)
  }

  /** The whole program over a finite prefix of its ticks. */
  function Indicator(p: Peers, ticks: seq<Tick>): Run
  {
    match Startup(p)
    case Err(e) => Run([], Failed(e))
    case Ok(s) => Loop(s, "", ticks)
  }

  /** When every render succeeds, the loop prints `Emitted` and keeps going. */
  lemma {:induction false} LoopAllRendered(s: Session, last: string, ticks: seq<Tick>, nows: seq<string>)
    requires |nows| == |ticks|
    requires forall i :: 0 <= i < |ticks| ==> RenderTick(s, ticks[i]) == Ok(nows[i])
    ensures Loop(s, last, ticks) == Run(Emitted(last, nows), Running)
    decreases |ticks|
  {
    if ticks != [] {
      LoopAllRendered(s, DiffStep(last, nows[0]).0, ticks[1..], nows[1..]);
    }
  }

  /** Printed lines `r` after the line `last`: none is empty, none repeats
      the line before it, and the first differs from `last`. */
  predicate PrintedShape(last: string, r: seq<string>)
  {
    (forall i :: 0 <= i < |r| ==> r[i] != "")
    && (r != [] ==> r[0] != last)
    && (forall i :: 0 <= i < |r| - 1 ==> r[i] != r[i + 1])
  }

  /** One step of the diff keeps the shape. */
  lemma DiffStepShape(last: string, now: string, rest: seq<string>)
    requires PrintedShape(DiffStep(last, now).0, rest)
    ensures PrintedShape(last, OptionToSeq(DiffStep(last, now).1) + rest)
  {
    var step := DiffStep(last, now);
    if step.1.Some? {
      var r := OptionToSeq(step.1) + rest;
      assert r == [now] + rest;
      assert forall i :: 1 <= i < |r| ==> r[i] == rest[i - 1];
      if rest != [] {
        assert rest[0] != now;
      }
    } else {
      assert OptionToSeq(step.1) + rest == rest;
    }
  }

  /** Every printed line is non-empty, none repeats the line before it, and
      the first differs from the starting `last`. */
  lemma {:induction false} LoopPrintedShape(s: Session, last: string, ticks: seq<Tick>)
    ensures PrintedShape(last, Loop(s, last, ticks).printed)
    decreases |ticks|
  {
    if ticks != [] && RenderTick(s, ticks[0]).Ok? {
      var now := RenderTick(s, ticks[0]).value;
      LoopPrintedShape(s, DiffStep(last, now).0, ticks[1..]);
      DiffStepShape(last, now, Loop(s, DiffStep(last, now).0, ticks[1..]).printed);
    }
  }

  /** Nothing is printed when start-up fails, in particular when neither
      dialect answers. */
  lemma StartupFailurePrintsNothing(p: Peers, ticks: seq<Tick>)
    requires Startup(p).Err?
    ensures Indicator(p, ticks) == Run([], Failed(Startup(p).error))
  {
  }

  /** One unfolding of `Loop`. */
  lemma LoopStep(s: Session, last: string, ticks: seq<Tick>)
    requires ticks != []
    ensures RenderTick(s, ticks[0]).Err? ==>
              Loop(s, last, ticks) == Run([], Failed(RenderTick(s, ticks[0]).error))
    ensures RenderTick(s, ticks[0]).Ok? ==>
              var step := DiffStep(last, RenderTick(s, ticks[0]).value);
              Loop(s, last, ticks)
              == Run(OptionToSeq(step.1) + Loop(s, step.0, ticks[1..]).printed,
                     Loop(s, step.0, ticks[1..]).exit)
  {
  }

  /** The start-up half of `main`. */
  method Start(p: Peers) returns (r: Result<Session, KeyboardError>)
    ensures r == Startup(p)
  {
    var keyboardId := GetInputId(p.ledEntries);
    if keyboardId.None? {
      return Err(NoKeyboardId);
    }
    var fcitxImList: Option<seq<InputMethod>> := None;
    if p.imList.Ok? {
      var list := BuildCatalog(Fcitx4Records(p.imList.value), Loaded);
      fcitxImList := Some(list);
    }
    if p.currentGroup.Err? {
      return Err(Bus(p.currentGroup.error));
    }
    var info := p.groupInfo(p.currentGroup.value);
    if info.Err? {
      return Err(Bus(info.error));
    }
    var activeInputMethods := GroupMembers(info.value);
    var fcitx5ImList: Option<seq<InputMethod>> := None;
    if p.inputMethods.Ok? {
      var list := BuildCatalog(Fcitx5Records(p.inputMethods.value), InGroup(activeInputMethods));
      fcitx5ImList := Some(list);
    }
    if fcitxImList.Some? {
      return Ok(Session(keyboardId.value, fcitxImList.value, Fcitx4));
    } else if fcitx5ImList.Some? {
      return Ok(Session(keyboardId.value, fcitx5ImList.value, Fcitx5));
    } else {
      return Err(FcitxNotFound);
    }
  }

  /** The `loop` of `main`, over finitely many ticks. */
  method RunLoop(session: Session, ticks: seq<Tick>) returns (run: Run)
    ensures run == Loop(session, "", ticks)
  {
    var last := "";
    var printed: seq<string> := [];
    var i := 0;
    while i < |ticks|
      invariant 0 <= i <= |ticks|
      invariant Loop(session, "", ticks)
                == Run(printed + Loop(session, last, ticks[i..]).printed,
                       Loop(session, last, ticks[i..]).exit)
    {
      var now := DoRender(session, ticks[i]);
      LoopStep(session, last, ticks[i..]);
      assert ticks[i..][0] == ticks[i] && ticks[i..][1..] == ticks[i + 1..];
      if now.Err? {
        return Run(printed, Failed(now.error));
      }
      ghost var later := Loop(session, DiffStep(last, now.value).0, ticks[i + 1..]);
      if now.value != "" && now.value != last {
        assert printed + ([now.value] + later.printed) == (printed + [now.value]) + later.printed;
        printed := printed + [now.value];
        last := now.value;
      } else {
        assert [] + later.printed == later.printed;
      }
      i := i + 1;
    }
    assert printed + [] == printed;
    return Run(printed, Running);
  }

  /** `main`: start-up, then the diff loop over the given ticks. */
  method RunIndicator(p: Peers, ticks: seq<Tick>) returns (run: Run)
    ensures run == Indicator(p, ticks)
  {
    var session := Start(p);
    if session.Err? {
      return Run([], Failed(session.error));
    }
    run := RunLoop(session.value, ticks);
  }
}
