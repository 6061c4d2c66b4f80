/** The input-method record shared by both Fcitx D-Bus dialects and the
    decoding of each dialect's reply tuples into it. */
module Fcitx {

  /** One input method as the indicator sees it. */
  datatype InputMethod = InputMethod(
    displayName: string,  // the name shown in the UI
    name: string,         // the internal name, used as lookup key
    lang: string,         // language code
    loaded: bool)         // whether the method can be switched to

  /** Fcitx4 `IMList` entry: (display name, internal name, language, loaded). */
  type Fcitx4Entry = (string, string, string, bool)

  /** Fcitx5 `AvailableInputMethods` entry: (internal name, display name,
      three fields the indicator ignores, language, a flag). */
  type Fcitx5Entry = (string, string, string, string, string, string, bool)

  /** Fcitx5 `InputMethodGroupInfo` reply: (layout, members), each member a
      pair whose first component is an internal name. */
  type GroupInfo = (string, seq<(string, string)>)

  /** Decoding of a Fcitx4 entry; every 4-tuple decodes. */
  function FromFcitx4(t: Fcitx4Entry): (im: InputMethod)
    ensures ToFcitx4(im) == t
  {
    InputMethod(t.0, t.1, t.2, t.3)
  }

  /** The 4-tuple a record came from; the inverse of `FromFcitx4`. */
  function ToFcitx4(im: InputMethod): (t: Fcitx4Entry)
  {
    (im.displayName, im.name, im.lang, im.loaded)
  }

  /** Decoding of a Fcitx5 entry; every 7-tuple decodes. */
  function FromFcitx5(t: Fcitx5Entry): (im: InputMethod)
    ensures im.name == t.0 && im.displayName == t.1
    ensures im.lang == t.5 && im.loaded == t.6
  {
    InputMethod(t.1, t.0, t.5, t.6)
  }

  lemma Fcitx4RoundTrip(im: InputMethod)
    ensures FromFcitx4(ToFcitx4(im)) == im
  {
  }

  /** Two Fcitx5 tuples decode alike exactly when they agree outside
      positions 2, 3 and 4. */
  lemma Fcitx5Discards(t: Fcitx5Entry, u: Fcitx5Entry)
    ensures FromFcitx5(t) == FromFcitx5(u) <==>
            (t.0 == u.0 && t.1 == u.1 && t.5 == u.5 && t.6 == u.6)
  {
  }

  /** The dialects put the internal name and the display name in swapped
      positions: the same record comes from `(d, n, l, b)` in Fcitx4 and
      from `(n, d, _, _, _, l, b)` in Fcitx5. */
  lemma DialectsSwapNames(t: Fcitx5Entry)
    ensures FromFcitx5(t) == FromFcitx4((t.1, t.0, t.5, t.6))
  {
  }

  /** The first components of a group's member pairs: the internal names of
      the methods in the group. */
  function GroupMembers(info: GroupInfo): (names: seq<string>)
    ensures |names| == |info.1|
    ensures forall i :: 0 <= i < |names| ==> names[i] == info.1[i].0
  {
    seq(|info.1|, i requires 0 <= i < |info.1| => info.1[i].0)
  }

  lemma GroupMemberNames(info: GroupInfo, n: string)
    ensures n in GroupMembers(info) <==> exists d :: (n, d) in info.1
  {
    if n in GroupMembers(info) {
      var i :| 0 <= i < |info.1| && GroupMembers(info)[i] == n;
      assert (n, info.1[i].1) == info.1[i];
    }
  }

  function Fcitx4Records(list: seq<Fcitx4Entry>): (ims: seq<InputMethod>)
    ensures |ims| == |list|
    ensures forall i :: 0 <= i < |list| ==> ims[i] == FromFcitx4(list[i])
  {
    seq(|list|, i requires 0 <= i < |list| => FromFcitx4(list[i]))
  }

  function Fcitx5Records(list: seq<Fcitx5Entry>): (ims: seq<InputMethod>)
    ensures |ims| == |list|
    ensures forall i :: 0 <= i < |list| ==> ims[i] == FromFcitx5(list[i])
  {
    seq(|list|, i requires 0 <= i < |list| => FromFcitx5(list[i]))
  }
}
