/**
 * The pinned-preferences box of the dashboard (pinCurrentPreferences and setupUnpinIcon,
 * js/dom-manipulation.js): at most one box, tagged with a provider id, and the name of the
 * provider it shows (window.currentlyPinnedProviderName).
 */
module PinBoard {
  import opened Common
  import opened Js
  import opened PrefRender

  /** The `display` style of the box: never set, 'block' or 'none'. */
  datatype Display = Unset | Shown | Hidden

  /** The box: its data-provider-id attribute, the header title, the details and its display. */
  datatype PinnedBox = PinnedBox(providerId: string, title: string, details: seq<Token>, display: Display)

  datatype PinState = PinState(box: Option<PinnedBox>, pinnedName: Option<string>)

  /** A box is pinned exactly when a pinned name is recorded, and its title names that provider. */
  predicate Consistent(s: PinState) {
    (s.box.Some? <==> s.pinnedName.Some?) &&
    (s.box.Some? ==>
      s.box.value.display == Shown &&
      (s.box.value.title == s.pinnedName.value || s.box.value.title == s.pinnedName.value + " Preferences"))
  }

  /**
   * pinCurrentPreferences(providerName, preferences), with `currentId` the value the function
   * reads as window.currentProviderId: create the box when there is none, replace its title,
   * details and id when its stored id is `!==` the current id, and otherwise change nothing.
   */
  function PinStep(s: PinState, currentId: JsValue, name: string, prefs: PreferenceSet): (r: PinState)
    ensures r.box.Some?
    ensures s.box.Some? && !StrictDiffers(s.box.value.providerId, currentId) ==> r == s
    ensures r != s ==>
      r.box.value.providerId == DatasetString(currentId) && r.pinnedName == Some(name) &&
      r.box.value.details == Rendered(prefs, HtmlVariant) && r.box.value.display == Shown
    ensures s.box.None? ==> r.box.value.title == name
    ensures s.box.Some? && r != s ==> r.box.value.title == name + " Preferences"
  {
    match s.box
    case None =>
      PinState(Some(PinnedBox(DatasetString(currentId), name, Rendered(prefs, HtmlVariant), Shown)), Some(name))
    case Some(b) =>
      if StrictDiffers(b.providerId, currentId) then
        PinState(Some(PinnedBox(DatasetString(currentId), name + " Preferences", Rendered(prefs, HtmlVariant), Shown)), Some(name))
      else s
  }

  /** The click handler that setupUnpinIcon installs: remove the box and forget the name. */
  function UnpinStep(s: PinState): (r: PinState)
    ensures r.box.None?
    ensures s.box.Some? ==> r.pinnedName.None?
    ensures s.box.None? ==> r == s
    ensures Consistent(s) ==> r == PinState(None, None)
  {
    if s.box.Some? then PinState(None, None) else s
  }

  lemma PinKeepsConsistent(s: PinState, currentId: JsValue, name: string, prefs: PreferenceSet)
    requires Consistent(s)
    ensures Consistent(PinStep(s, currentId, name, prefs))
    ensures PinStep(s, currentId, name, prefs).box.Some?
  {
  }

  /** When a string id is current, pinning again changes nothing, whatever is pinned the second time. */
  lemma PinAgainIsNoOp(s: PinState, id: string, name: string, prefs: PreferenceSet, name2: string, prefs2: PreferenceSet)
    ensures var t := PinStep(s, Text(id), name, prefs);
      PinStep(t, Text(id), name2, prefs2) == t
  {
  }

  /** With no string id current (window.currentProviderId unset), every pin replaces the box. */
  lemma PinWithoutIdAlwaysReplaces(s: PinState, v: JsValue, name: string, prefs: PreferenceSet)
    requires !v.Text? && s.box.Some?
    ensures PinStep(s, v, name, prefs) ==
      PinState(Some(PinnedBox(DatasetString(v), name + " Preferences", Rendered(prefs, HtmlVariant), Shown)), Some(name))
  {
  }

  /** A box with a different id is replaced: it shows the new provider and carries the new id. */
  lemma PinOtherProviderReplaces(s: PinState, id: string, name: string, prefs: PreferenceSet)
    requires s.box.Some? && s.box.value.providerId != id
    ensures var t := PinStep(s, Text(id), name, prefs);
      t.box.Some? && t.box.value.providerId == id && t.box.value.title == name + " Preferences" &&
      t.box.value.details == Rendered(prefs, HtmlVariant) && t.pinnedName == Some(name)
  {
  }

  /** Unpinning leaves no box and no name, so the next pin creates a fresh box titled with the bare name. */
  lemma UnpinThenPin(s: PinState, currentId: JsValue, name: string, prefs: PreferenceSet)
    requires Consistent(s)
    ensures UnpinStep(s) == PinState(None, None)
    ensures PinStep(UnpinStep(s), currentId, name, prefs) ==
      PinState(Some(PinnedBox(DatasetString(currentId), name, Rendered(prefs, HtmlVariant), Shown)), Some(name))
  {
  }

  class Board {
    var box: Option<PinnedBox>
    var pinnedName: Option<string>

    function State(): PinState
      reads this
    {
      PinState(box, pinnedName)
    }

    ghost predicate Valid()
      reads this
    {
      Consistent(State())
    }

    constructor ()
      ensures State() == PinState(None, None) && Valid()
    {
      box := None;
      pinnedName := None;
    }

    method Pin(currentId: JsValue, name: string, prefs: PreferenceSet)
      requires Valid()
      modifies this
      ensures Valid()
      ensures State() == PinStep(old(State()), currentId, name, prefs)
    {
      if box.None? {
        var details := Render(prefs, HtmlVariant);
        box := Some(PinnedBox(DatasetString(currentId), name, details, Shown));
        pinnedName := Some(name);
      } else if StrictDiffers(box.value.providerId, currentId) {
        var details := Render(prefs, HtmlVariant);
        box := Some(box.value.(title := name + " Preferences", details := details,
                               providerId := DatasetString(currentId), display := Shown));
        pinnedName := Some(name);
      }
    }

    method Unpin()
      requires Valid()
      modifies this
      ensures Valid()
      ensures State() == UnpinStep(old(State()))
    {
      if box.Some? {
        box := None;
        pinnedName := None;
      }
    }
  }
}
