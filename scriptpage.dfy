/**
 * The page logic of script.js: the sidebar toggle and the visibility of the pinned box, the
 * pinned box of this file, and the medication search box with its highlighted suggestions.
 */
module ScriptPage {
  import opened Common
  import opened Text
  import opened Js
  import opened PrefRender
  import opened PinBoard

  // ----- Suggestion display text -----

  const HighlightOpen := "<span class=\"highlight\">"
  const HighlightClose := "</span>"

  /**
   * The text of one suggestion `[name, matchedName]` for the trimmed query: the bare name when the
   * two agree ignoring case; otherwise the name followed by the part of matchedName where the
   * query first occurs ignoring case, highlighted; the bare name when it does not occur.
   */
  function DisplayText(name: string, matchedName: string, query: string): (r: string)
    ensures Lower(name) == Lower(matchedName) ==> r == name
    ensures !Contains(Lower(matchedName), Lower(query)) ==> r == name
  {
    if Lower(name) == Lower(matchedName) then name
    else
      var i := IndexOf(Lower(matchedName), Lower(query));
      if i > -1 then
        assert OccursAt(Lower(matchedName), Lower(query), i);
        name + " (" + HighlightOpen + matchedName[i..i + |query|] + HighlightClose + ")"
      else name
  }

  /** When the names differ and the query occurs in matchedName, the highlight is the first
      occurrence, and it is the query up to case. */
  lemma HighlightIsFirstOccurrence(name: string, matchedName: string, query: string)
    requires Lower(name) != Lower(matchedName) && Contains(Lower(matchedName), Lower(query))
    ensures var i := IndexOf(Lower(matchedName), Lower(query));
      0 <= i <= |matchedName| - |query| &&
      DisplayText(name, matchedName, query) ==
        name + " (" + HighlightOpen + matchedName[i..i + |query|] + HighlightClose + ")" &&
      Lower(matchedName[i..i + |query|]) == Lower(query) &&
      forall k :: 0 <= k < i ==> !OccursAt(Lower(matchedName), Lower(query), k)
  {
    var i := IndexOf(Lower(matchedName), Lower(query));
    LowerSlice(matchedName, i, i + |query|);
    assert Lower(matchedName[i..i + |query|]) == Lower(query);
  }

  /** The display texts of the suggestions, in order. */
  function Texts(suggestions: seq<(string, string)>, query: string): (r: seq<string>)
    ensures |r| == |suggestions|
    ensures forall i :: 0 <= i < |r| ==> r[i] == DisplayText(suggestions[i].0, suggestions[i].1, query)
  {
    seq(|suggestions|, i requires 0 <= i < |suggestions| => DisplayText(suggestions[i].0, suggestions[i].1, query))
  }

  /** The suggestion items, one per suggestion, in order (the forEach of the input handler). */
  method SuggestionItems(suggestions: seq<(string, string)>, query: string) returns (items: seq<string>)
    ensures items == Texts(suggestions, query)
  {
    ghost var texts := Texts(suggestions, query);
    items := [];
    var i := 0;
    while i < |suggestions|
      invariant 0 <= i <= |suggestions|
      invariant items == texts[..i]
    {
      var (name, matchedName) := suggestions[i];
      items := items + [DisplayText(name, matchedName, query)];
      assert texts[..i + 1] == texts[..i] + [texts[i]];
      i := i + 1;
    }
    assert texts[..i] == texts;
  }

  // ----- The pinned box of script.js -----

  /**
   * pinCurrentPreferences(providerName) of script.js, with `details` the current content of
   * #preferenceDetailsContent: create the box, titled "<name> Preferences", when there is none;
   * replace its title, details and id when its stored id is `!==` the current id; otherwise
   * nothing. The display style is left as it is.
   */
  function ScriptPinStep(box: Option<PinnedBox>, currentId: JsValue, name: string, details: seq<Token>): (r: Option<PinnedBox>)
    ensures r.Some?
    ensures box.Some? && !StrictDiffers(box.value.providerId, currentId) ==> r == box
    ensures box.Some? && StrictDiffers(box.value.providerId, currentId) ==>
      r.value.title == name + " Preferences" && r.value.details == details &&
      r.value.providerId == DatasetString(currentId)
    ensures r != box ==>
      r.value.title == name + " Preferences" && r.value.details == details &&
      r.value.providerId == DatasetString(currentId)
    ensures box.Some? ==> r.value.display == box.value.display
    ensures box.None? ==> r.value.display == Unset
  {
    match box
    case None => Some(PinnedBox(DatasetString(currentId), name + " Preferences", details, Unset))
    case Some(b) =>
      if StrictDiffers(b.providerId, currentId) then
        Some(b.(title := name + " Preferences", details := details, providerId := DatasetString(currentId)))
      else box
  }

  /** After a row click (a string id), pinning again is a no-op; before any click the id is null,
      stored as "null", and every pin replaces the box. */
  lemma ScriptPinIdentity(box: Option<PinnedBox>, id: string, name: string, details: seq<Token>, name2: string, details2: seq<Token>)
    ensures var b := ScriptPinStep(box, Text(id), name, details);
      ScriptPinStep(b, Text(id), name2, details2) == b
    ensures var b := ScriptPinStep(box, Null, name, details);
      ScriptPinStep(b, Null, name2, details2).value.title == name2 + " Preferences" &&
      ScriptPinStep(b, Null, name2, details2).value.details == details2
  {
  }

  /** The display style the sidebar toggle gives the pinned box. */
  function DisplayFor(sidebarOpen: bool): (d: Display)
    ensures d != Unset
    ensures d == Hidden <==> sidebarOpen
  {
    if sidebarOpen then Hidden else Shown
  }

  /** What the results area shows. */
  datatype Results = NoResults | MedicationDetails(name: string) | ErrorText(message: string)

  /** How a /medication request ended: the medication's name, an error status with the body's
      `error` field, or a failure to fetch or decode. */
  datatype MedicationOutcome = Found(name: string) | NotFound(error: Option<string>) | FetchFailed

  /** The results area after a request: the details exactly when the medication was found, and
      otherwise a non-empty error message, the server's own when it sent one. */
  function ResultsFor(outcome: MedicationOutcome): (r: Results)
    ensures r.MedicationDetails? <==> outcome.Found?
    ensures r.MedicationDetails? ==> r.name == outcome.name
    ensures r.ErrorText? ==> r.message != []
    ensures outcome.NotFound? && outcome.error.Some? && outcome.error.value != [] ==> r == ErrorText(outcome.error.value)
    ensures !r.NoResults?
  {
    match outcome
    case Found(name) => MedicationDetails(name)
    case NotFound(error) =>
      // errorData.error || 'Medication not found'
      ErrorText(if error.Some? && error.value != [] then error.value else "Medication not found")
    case FetchFailed => ErrorText("Failed to fetch medication details.")
  }

  class Page {
    var sidebarOpen: bool
    var pinned: Option<PinnedBox>
    var currentProviderId: JsValue
    var detailsContent: seq<Token>
    var searchValue: string
    var suggestions: seq<string>
    var suggestionsShown: bool
    var results: Results
    var resultsShown: bool

    /** A pinned box that the toggle has styled is hidden exactly when the sidebar is open. */
    ghost predicate Valid()
      reads this
    {
      pinned.Some? && pinned.value.display != Unset ==> pinned.value.display == DisplayFor(sidebarOpen)
    }

    /** The module-level `let pinnedPreferences = null; let currentProviderId = null;` */
    constructor ()
      ensures Valid()
      ensures !sidebarOpen && pinned.None? && currentProviderId == Null && detailsContent == []
      ensures searchValue == [] && suggestions == [] && !suggestionsShown && results == NoResults && !resultsShown
    {
      sidebarOpen := false;
      pinned := None;
      currentProviderId := Null;
      detailsContent := [];
      searchValue := [];
      suggestions := [];
      suggestionsShown := false;
      results := NoResults;
      resultsShown := false;
    }

    /** The toggle button: flip the sidebar; a pinned box is hidden when it opens and shown when it closes. */
    method ToggleSidebar()
      requires Valid()
      modifies this
      ensures Valid()
      ensures sidebarOpen == !old(sidebarOpen)
      ensures pinned == if old(pinned).Some? then Some(old(pinned).value.(display := DisplayFor(sidebarOpen))) else None
      ensures currentProviderId == old(currentProviderId) && detailsContent == old(detailsContent)
      ensures searchValue == old(searchValue) && suggestions == old(suggestions) && suggestionsShown == old(suggestionsShown)
      ensures results == old(results) && resultsShown == old(resultsShown)
    {
      sidebarOpen := !sidebarOpen;
      if pinned.Some? {
        pinned := Some(pinned.value.(display := if sidebarOpen then Hidden else Shown));
      }
    }

    /** The click handler of a provider row. */
    method RowClick(rowId: string)
      requires Valid()
      modifies this`currentProviderId
      ensures Valid() && currentProviderId == Text(rowId)
    {
      currentProviderId := Text(rowId);
    }

    /** displayProviderPreferences(preferences): fill #preferenceDetailsContent. */
    method ShowPreferences(prefs: PreferenceSet)
      requires Valid()
      modifies this`detailsContent
      ensures Valid() && detailsContent == Rendered(prefs, ScriptVariant)
    {
      detailsContent := Render(prefs, ScriptVariant);
    }

    method Pin(name: string)
      requires Valid()
      modifies this`pinned
      ensures Valid()
      ensures pinned == ScriptPinStep(old(pinned), currentProviderId, name, detailsContent)
    {
      if pinned.None? {
        pinned := Some(PinnedBox(DatasetString(currentProviderId), name + " Preferences", detailsContent, Unset));
      } else if StrictDiffers(pinned.value.providerId, currentProviderId) {
        pinned := Some(pinned.value.(title := name + " Preferences", details := detailsContent,
                                     providerId := DatasetString(currentProviderId)));
      }
    }

    /** The click handler that setupUnpinButton installs: `pinnedPreferences = null`. */
    method Unpin()
      requires Valid()
      modifies this`pinned
      ensures Valid() && pinned.None?
    {
      if pinned.Some? {
        pinned := None;
      }
    }

    /**
     * The `input` handler up to its request: clear the suggestions; with a non-empty trimmed query
     * return it (the request to issue), otherwise hide the suggestions and the results.
     */
    method Input(value: string) returns (request: Option<string>)
      requires Valid()
      modifies this`searchValue, this`suggestions, this`suggestionsShown, this`resultsShown
      ensures Valid() && searchValue == value && suggestions == []
      ensures request.Some? <==> Trim(value, JavaScript) != []
      ensures request.Some? ==> request.value == Trim(value, JavaScript)
      ensures request.Some? ==> suggestionsShown == old(suggestionsShown) && resultsShown == old(resultsShown)
      ensures request.None? ==> !suggestionsShown && !resultsShown
    {
      searchValue := value;
      var query := Trim(value, JavaScript);
      suggestions := [];
      if query != [] {
        request := Some(query);
      } else {
        suggestionsShown := false;
        resultsShown := false;
        request := None;
      }
    }

    /** The /suggestions response for `query` arrived (None: the request or its decoding failed). */
    method SuggestionsArrived(query: string, response: Option<seq<(string, string)>>)
      requires Valid()
      modifies this`suggestions, this`suggestionsShown
      ensures Valid()
      ensures response.None? ==> suggestions == old(suggestions) && suggestionsShown == old(suggestionsShown)
      ensures response.Some? ==> suggestionsShown == (|response.value| > 0)
      ensures response.Some? && |response.value| > 0 ==>
        suggestions == old(suggestions) + Texts(response.value, query)
      ensures response.Some? && |response.value| == 0 ==> suggestions == old(suggestions)
    {
      if response.Some? {
        if |response.value| > 0 {
          var items := SuggestionItems(response.value, query);
          suggestions := suggestions + items;
          suggestionsShown := true;
        } else {
          suggestionsShown := false;
        }
      }
    }

    /** A suggestion was clicked: put its name in the search box and clear the suggestions; the
        name is then requested from /medication. */
    method SuggestionClicked(name: string) returns (request: string)
      requires Valid()
      modifies this`searchValue, this`suggestions
      ensures Valid() && searchValue == name && suggestions == [] && request == name
    {
      searchValue := name;
      suggestions := [];
      request := name;
    }

    /** fetchMedicationDetails: whatever the outcome, the results area is shown. */
    method MedicationArrived(outcome: MedicationOutcome)
      requires Valid()
      modifies this`results, this`resultsShown
      ensures Valid() && results == ResultsFor(outcome) && resultsShown
    {
      results := ResultsFor(outcome);
      resultsShown := true;
    }
  }
}
