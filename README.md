# Scribe dashboard core, modelled in Dafny

This project models the rules inside an emergency-medicine scribe dashboard: a Flask back end
(`app.py`), an older Express back end (`server.js`), and a browser front end (`script.js` and the
`js/` files). The model covers:

- **Preference sets.** How a provider's set is laid out: the six known categories first, in a
  fixed order, then every other key. Each category gets a label and is shown as a heading
  followed by its items.
- **Medication suggestions.** Scoring, ranking and truncation, with the fuzzy ratio left
  abstract. Also the medication and provider lookups, the past-medical-history opening of the
  HPI generator, and the 400, 404 and 500 replies.
- **Front-end search.** The provider sort by first name, the provider search filter, and the
  highlighting of a suggestion's matching part.
- **Front-end state.** The pinned-preferences box, the hover preview panel and the sidebar, as
  classes whose methods are proved against step functions on their state.
- **Dragging.** The drag handler of `makeDraggable`: its handle, its form-control guard and its
  pixel arithmetic.

Files, one module each:

| file | module | models |
|---|---|---|
| common.dfy | Common | `Option`, handler replies, array/list filtering, JSON values and their truthiness |
| text.dfy | Text | case mapping, Python and JavaScript whitespace and trimming, `split()`, `split(' ')[0]`, `indexOf`, `includes`/`in`, `startswith`, string `<` |
| sorting.dfy | Sorting | stable sort by key (Python `list.sort`, `Array.prototype.sort`) |
| pydict.dfy | PyDict | dicts and parsed objects as association lists; dict comprehensions |
| prefrender.dfy | PrefRender | `generatePreferenceDetailsHTML`, both `displayProviderPreferences` |
| js.dfy | Js | ids read from and written to `data-*` attributes |
| pinboard.dfy | PinBoard | `pinCurrentPreferences` / `setupUnpinIcon` in js/dom-manipulation.js |
| providerpanel.dfy | ProviderPanel | js/api-service.js: provider list, search, preview panel, pin after fetch |
| scriptpage.dfy | ScriptPage | script.js: sidebar toggle, pinned box, search input and suggestions |
| suggest.dfy | Suggest | app.py |
| medserver.dfy | MedServer | server.js |
| drag.dfy | Drag | `makeDraggable` in js/utils.js |

What comes from outside is a parameter of the model:

- **HTTP responses** are passed in as an `Option` (None when the request or its decoding failed)
  or as a `MedicationOutcome`.
- **`fuzz.partial_ratio`** is any function into 0..100.
- **Event targets** are described by the facts the handlers test: whether the target is inside
  the handle, its tag name, and whether the related target lies in `#sidebar`.
- **The DOM** is abstracted to tokens (heading, item, no-preferences marker) and records
  (pinned box, panel).

## Model

| member | source | states |
|---|---|---|
| Text.Words | app.py:31 | every word is non-empty, holds no whitespace, and occurs in the text |
| Text.WordsCoverText | app.py:31 | the words, joined, are exactly the text's non-whitespace characters in order |
| Text.WordsSplitAtSpace | app.py:31 | the words of a text split at any whitespace character are the words of each side: no word spans whitespace |
| Text.WordsOfWord | app.py:31 | a non-empty run without whitespace is one word |
| Text.IndexOf | script.js:215 | -1 exactly when the substring does not occur; otherwise an occurrence with none before it |
| Text.FirstSpaceWord | js/api-service.js:8 | a prefix of the name without a space, followed by a space or the end |
| PyDict.ComprehensionGet | app.py:22 | looking up a key of a dict comprehension finds the last element with that key; keys are distinct |
| Sorting.SortByStable | app.py:84 | for every key, the elements with that key keep their input order after the sort |
| PrefRender.Find | js/dom-manipulation.js:16 | the own property's value when present; None exactly when no entry has the key |
| PrefRender.TitleCase | js/dom-manipulation.js:7 | same length; `_` becomes a space; other characters are kept, a word-initial letter upper-cased |
| PrefRender.Label | js/dom-manipulation.js:7-13 | a key outside the six overridden ones is labelled with its title-cased form |
| PrefRender.DisplayCategory | js/dom-manipulation.js:6-27 | one category: its heading, then one item per element of a non-empty list, one item for a string, otherwise the "No specific preferences." marker |
| PrefRender.DisplayKnown | js/dom-manipulation.js:29-34 | the tokens of the present known keys in the fixed order; the displayed set holds exactly the known keys that are present |
| PrefRender.RenderIn | js/dom-manipulation.js:36-40 | the known pass, then the `for...in` pass over keys not yet displayed, yields the tokens of the arranged entries |
| PrefRender.Render | js/dom-manipulation.js:1-42 | the rendering is the tokens of the display order, with the renderer's labels |
| PrefRender.PresentKeysMembers | js/dom-manipulation.js:32 | a key is in displayedCategories exactly when it is known and present |
| PrefRender.RenderOrderCoversKeys | js/dom-manipulation.js:29-40 | every own key is displayed exactly once, and nothing else is displayed |
| PrefRender.RenderOrderLayout | js/dom-manipulation.js:3 | present known keys first in the fixed order (absent ones yield nothing), then exactly the other entries in enumeration order |
| PrefRender.HeadingsFollowOrder | js/dom-manipulation.js:15 | the headings are the labels of the displayed entries, one per entry, in display order |
| PrefRender.EveryHeadingHasContent | js/dom-manipulation.js:18-26 | in a renderer that appends strings, every heading is followed by an item or the marker |
| PrefRender.DomVariantDropsStrings | js/dom-manipulation.js:163-167 | a string category renders as a bare heading in the DOM renderer, which breaks the previous property; the HTML renderer adds the item |
| Js.DatasetString | js/dom-manipulation.js:58 | a string id is stored as itself |
| Js.StoredComparesEqual | js/dom-manipulation.js:90 | a stored id is `===` the current id exactly when the current id is a string |
| PinBoard.PinStep | js/dom-manipulation.js:51-106 | a box exists afterwards; a box whose stored id is `===` the current one is kept; a changed state carries the current id, the name, the rendered details and is shown, titled with the bare name when new and "<name> Preferences" when replaced |
| PinBoard.UnpinStep | js/dom-manipulation.js:108-120 | no box remains; a removed box takes the pinned name with it; with no box nothing changes |
| PinBoard.PinKeepsConsistent | js/dom-manipulation.js:51-106 | after a pin there is a box: shown, titled for the recorded pinned name, which is set |
| PinBoard.PinAgainIsNoOp | js/dom-manipulation.js:90 | pinning again under the same string id changes nothing, whatever name and preferences |
| PinBoard.PinOtherProviderReplaces | js/dom-manipulation.js:90-105 | under a different id: title "<name> Preferences", re-rendered details, new id, new pinned name |
| PinBoard.PinWithoutIdAlwaysReplaces | js/dom-manipulation.js:52 | with the current id undefined or null, every pin replaces the box |
| PinBoard.UnpinThenPin | js/dom-manipulation.js:108-120 | unpinning removes the box and clears the name; the next pin creates a new box titled with the bare name |
| PinBoard.Board.Pin | js/dom-manipulation.js:51-106 | the new state is the pin step of the old one; consistency is kept |
| PinBoard.Board.Unpin | js/dom-manipulation.js:111-117 | the box and the pinned name are gone |
| ProviderPanel.LexLessIsStrictOrder | js/api-service.js:10-12 | the comparator's `<` on strings is irreflexive and transitive |
| ProviderPanel.SortProvidersCorrect | js/api-service.js:7-13 | the sort is a permutation, ordered by lower-cased first name, and stable among equal first names |
| ProviderPanel.SortedKeysNonDecreasing | script.js:32-42 | in the sorted list an earlier provider's first-name key is equal to or `<` a later one's |
| ProviderPanel.Search | js/api-service.js:72-74 | an empty trimmed query shows every provider |
| ProviderPanel.SearchShowsMatches | js/api-service.js:66-74 | the rows shown are exactly the providers whose lower-cased name contains the query, as a subsequence of the sorted list |
| ProviderPanel.ProviderList.Load | js/api-service.js:1-86 | an OK response shows all providers sorted; a failure shows the error and keeps the list |
| ProviderPanel.ProviderList.Input | js/api-service.js:64-75 | the input handler shows the search result over the loaded list, and changes nothing before the list is loaded |
| ProviderPanel.EnterStep | js/api-service.js:27-35 | the row's id becomes current; an existing panel is opened with its content and listener unchanged; nothing else changes |
| ProviderPanel.ClickStep | js/api-service.js:38-55 | the row's id becomes current and the sidebar closes; an open panel is closed, its content and listener unchanged |
| ProviderPanel.LeaveStep | js/api-service.js:103-112 | the state changes exactly when a listening panel is open and the cursor leaves for outside the sidebar, and then only by closing it |
| ProviderPanel.LoadedStep | js/api-service.js:94-121 | the panel exists and shows "<name> Preferences" and the rendered preferences; a new panel is closed and listens; the open flag, the id and the sidebar are unchanged |
| ProviderPanel.FailedStep | js/api-service.js:123-152 | the panel exists, is closed and shows the error; it listens only if it did before; the id and the sidebar are unchanged |
| ProviderPanel.StepsKeepConsistent | js/api-service.js:27-152 | every handler keeps `panelOpen` equal to the panel's `open` class, and false without a panel |
| ProviderPanel.EnterOpensExistingPanel | js/api-service.js:27-35 | hovering a row makes its id current and opens the panel exactly when it exists |
| ProviderPanel.ClickClosesPanel | js/api-service.js:38-55 | after a row click the id is current, the sidebar and the panel are closed |
| ProviderPanel.LeaveClosesOnlyWhenOpen | js/api-service.js:103-112 | leaving closes the panel only when it is open, has its listener, and the cursor is not going into the sidebar |
| ProviderPanel.FailureLeavesClosed | js/api-service.js:123-151 | a failed preview leaves the panel existing, closed, showing "Failed to load preferences for <name>." |
| ProviderPanel.FailedPanelIgnoresLeave | js/api-service.js:99-113 | a panel first created by a failed preview never closes on mouseleave, even after a later successful preview |
| ProviderPanel.PanelController.MouseEnter | js/api-service.js:27-36 | state after mouseenter on a row |
| ProviderPanel.PanelController.Click | js/api-service.js:38-56 | state after a row click |
| ProviderPanel.PanelController.PanelMouseLeave | js/api-service.js:103-112 | state after mouseleave on the panel |
| ProviderPanel.PanelController.PreviewLoaded | js/api-service.js:94-121 | the panel is created if needed (with its listener) and shows "<name> Preferences" and the rendered preferences |
| ProviderPanel.PanelController.PreviewFailed | js/api-service.js:123-152 | the panel is created if needed (no listener), shows the error, and is closed |
| ProviderPanel.PinAfterFetch | js/api-service.js:155-170 | an OK response pins; a failed one changes no pin state |
| ScriptPage.DisplayText | script.js:213-219 | the bare name when the names agree ignoring case, or when the query does not occur in the matched name |
| ScriptPage.HighlightIsFirstOccurrence | script.js:215-218 | otherwise the name plus the highlighted slice at the first occurrence, which equals the query ignoring case |
| ScriptPage.SuggestionItems | script.js:210-228 | one display text per suggestion, in order |
| ScriptPage.ScriptPinStep | script.js:129-152 | a box exists afterwards; one with an id `===` the current one is kept; one whose id is `!==` the current one is replaced by title "<name> Preferences", the given details and the current id; the display is kept, unset on a new box |
| ScriptPage.DisplayFor | script.js:17-19 | the pinned box is hidden exactly when the sidebar is open, and shown otherwise |
| ScriptPage.ResultsFor | script.js:242-259 | the details exactly when the medication was found; otherwise a non-empty error text, the server's own when it sent one |
| ScriptPage.ScriptPinIdentity | script.js:139 | after a click (string id) pinning again is a no-op; with the initial null id every pin replaces title and details |
| ScriptPage.Page.constructor | script.js:10-12 | nothing pinned, current id null, sidebar closed |
| ScriptPage.Page.ToggleSidebar | script.js:15-23 | the sidebar flips; the pinned box is hidden when it opens and shown when it closes; nothing else changes |
| ScriptPage.Page.RowClick | script.js:50-55 | the clicked row's id becomes current |
| ScriptPage.Page.ShowPreferences | script.js:70-127 | the details content is the rendering with this file's labels, strings appended |
| ScriptPage.Page.Pin | script.js:129-152 | create the box titled "<name> Preferences" when absent; replace title, details and id when the id differs; else nothing |
| ScriptPage.Page.Unpin | script.js:189-199 | no pinned box remains |
| ScriptPage.Page.Input | script.js:201-205 | suggestions cleared; a non-empty trimmed query is requested; an empty one hides the suggestions and the results |
| ScriptPage.Page.SuggestionsArrived | script.js:206-235 | a non-empty reply appends one item per suggestion and shows them; an empty one hides them; a failure changes nothing |
| ScriptPage.Page.SuggestionClicked | script.js:222-226 | the name goes to the search box, the suggestions are cleared, the name is requested |
| ScriptPage.Page.MedicationArrived | script.js:242-259 | the results show the medication, the reply's `error` (or "Medication not found"), or the fetch failure text |
| Suggest.BestBounds | app.py:31-35 | the running best never loses score, stays the start value when nothing beats it, and gains score when something does |
| Suggest.BestIsFirstMaximum | app.py:31-35 | the running best is the start value when nothing beats it, else the first element with the largest score |
| Suggest.BestOfPercents | app.py:31-35 | over scores from 0 to 100 the running best stays in range, and is the start value or an element scoring more |
| Suggest.BestMatch | app.py:27-36 | a score from 0 to 100; ("", 0), or a word of the text with a positive score |
| Suggest.BestMatchSpec | app.py:27-36 | ("", 0) exactly when no word scores above 0; else the first word with maximal score, which occurs in the text |
| Suggest.StartsWithQuerySpec | app.py:39-41 | the query followed by anything starts with the query; a text starting with it contains it and is no shorter; case does not matter |
| Suggest.MedicationIndex | app.py:22 | distinct keys; each key leads to the last record whose lower-cased name it is; every record's lower-cased name is a key |
| Suggest.BestAlt | app.py:60-67 | a score from 0 to 100; ("", 0), or the best match of one of the alternate names |
| Suggest.NameScore | app.py:58-71 | from 0 to 120; at least 20 when the name starts with the query; above 100 only then |
| Suggest.AltScore | app.py:60-73 | from 0 to 120; positive exactly when some alternate word scores; above 100 only when the best alternate word starts with the query |
| Suggest.Score | app.py:75-82 | a candidate is for this key, scores from 51 to 120, and is shown under the key or one of its alternate names, with the alternate score in the latter case |
| Suggest.FindBestMatch | app.py:27-36 | the loop computes the best match |
| Suggest.FirstContaining | app.py:77-80 | the first alternate name containing the word ignoring case: no earlier one contains it; None only when none does |
| Suggest.AltIsFound | app.py:76-80 | a positive best alternate match is always found in some alternate name |
| Suggest.ScoreRules | app.py:70-82 | emitted only with score above 50; an alternate name wins only when strictly above the name score; ties go to the name |
| Suggest.Candidates | app.py:55-82 | every collected candidate scores above 50 |
| Suggest.RankedSpec | app.py:84 | the ranking is a permutation, non-increasing in score, stable among equal scores |
| Suggest.TopOfRanked | app.py:84-85 | the first five of the ranking are at most five, all above 50, non-increasing in score |
| Suggest.TopFiveAreHighest | app.py:84-85 | the top five are min(5, n) of the candidates; no candidate cut off scores higher than one returned; together they are all the candidates |
| Suggest.SuggestionsSpec | app.py:50-86 | an empty query gives []; otherwise at most five pairs, scores above 50 and non-increasing |
| Suggest.CollectCandidates | app.py:56-82 | the loop over medication_names collects the candidates |
| Suggest.SuggestionsLoop | app.py:49-86 | the handler's reply is the suggestion list |
| Suggest.FindBestAlt | app.py:60-67 | the alternate-name loop keeps the best alternate match |
| Suggest.FindContaining | app.py:77-80 | the search loop finds the first alternate name containing the match |
| Suggest.ScoreMedication | app.py:57-82 | the per-medication score and candidate |
| Suggest.MedicationDetails | app.py:89-102 | 404 exactly when the lower-cased name is absent; a crash exactly when the record lacks a mechanism; otherwise the record's name, description (or ""), alternate names (or []) and mechanism |
| Suggest.MedicationLookupIgnoresCase | app.py:91-93 | names equal up to case get the same reply, from the last record with that name |
| Suggest.Providers | app.py:104-107 | one (id, name) per provider record, in order |
| Suggest.ProviderDetails | app.py:109-114 | 404 exactly when no record has that string id; a crash exactly when the record found has no preferences; otherwise its preferences |
| Suggest.ProviderLookupExact | app.py:24 | the lookup finds the last record with that very id; records with numeric ids are never found |
| Suggest.PmhIntro | app.py:227-229 | "no significant" exactly when the history is empty or one of the dismissive words ignoring case, else "with a past medical history of <pmh>" |
| Suggest.GenerateHpi | app.py:116-121 | 400 exactly when there is no body or it is falsy; a reply needs a JSON object |
| Suggest.HpiWithoutHistory | app.py:125 | a body without pastMedicalHistory gives the "no significant" opening |
| Suggest.HpiWithHistory | app.py:125 | a string history is stripped, then classified as in pmh_intro |
| Suggest.HpiHistoryNotString | app.py:251-253 | a non-string history gives a 500 |
| MedServer.Load | server.js:17-25 | {} when the file cannot be read; otherwise distinct keys, each holding the value of its last member |
| MedServer.SuggestionsList | server.js:29-31 | one pair per key, in key order, both components the key |
| MedServer.SuggestionsRoute | server.js:35-41 | a crash exactly when `q` is absent |
| MedServer.SuggestionsRouteSpec | server.js:36-40 | exactly the pairs whose lower-cased name contains the lower-cased query, in key order; the empty query matches all |
| MedServer.SuggestionsArePairsOfKeys | server.js:30 | every suggestion is a medication key paired with itself |
| MedServer.MedicationRoute | server.js:44-52 | the value under exactly that key when present and truthy, otherwise 404 "Medication not found" |
| MedServer.MedicationLookupIsExact | server.js:45-50 | for any medications object, a name equal to a truthy key up to case, but not itself a key, gets 404 while the key gets its value |
| MedServer.MedicationLookupExample | server.js:45-50 | "aspirin" is not found where only "Aspirin" is a key |
| Drag.BlocksDrag | js/utils.js:14-15 | a tag blocks a drag exactly when its lower-cased form is input, textarea, button or select |
| Drag.BlocksDragIgnoresCase | js/utils.js:14 | any two tag names equal letter by letter up to case block a drag alike |
| Drag.BlocksDragExamples | js/utils.js:14-15 | instances: the four tags in mixed case block, DIV and h3 do not |
| Drag.Step | js/utils.js:11-43 | only a mousemove while listening moves the element, by the cursor's movement since the recorded position, which it records; a mousedown starts listening exactly on the handle outside form controls; mouseup stops |
| Drag.HandleFor | js/utils.js:4-7 | the handle is the panel header exactly when the element has one |
| Drag.DownStartsDrag | js/utils.js:11-26 | a mousedown on the handle outside form controls records the cursor and installs the handlers; any other changes nothing |
| Drag.OffsetFromCursorKept | js/utils.js:28-38 | between mousedowns, the element's offset from the recorded cursor position never changes |
| Drag.DragDisplacement | js/utils.js:21-37 | a drag from (x0, y0) ending at (x, y) moves the element by (x - x0, y - y0) |
| Drag.LastMoveRecorded | js/utils.js:34-35 | during a drag the recorded cursor position is the last move's |
| Drag.MovesAfterUpDoNothing | js/utils.js:40-43 | after mouseup, moves do not reposition the element |
| Drag.Draggable.constructor | js/utils.js:1-9 | handle chosen, nothing recorded, no handlers |
| Drag.Draggable.MouseDown | js/utils.js:11-26 | state after dragMouseDown |
| Drag.Draggable.MouseMove | js/utils.js:28-38 | state after elementDrag |
| Drag.Draggable.MouseUp | js/utils.js:40-43 | state after closeDragElement |

## Left out

- ProviderPanel.SortProviders: Text.LexLess orders strings by code point, while JavaScript's `<` compares UTF-16 code units. The two differ between characters from U+E000 to U+FFFF and characters above U+FFFF.
- Text.Lower: maps only ASCII letters. Python's `str.lower` and JavaScript's `toLowerCase`/`toUpperCase` cover all of Unicode, including length-changing mappings.
- Property order: a preference set and the medications object list their properties in the order given. JavaScript enumerates integer-like keys first, in numeric order; this is not modelled.
- Fetch and async: requests, `await` and the network are not modelled. A handler's response is a parameter. Overlapping preview requests, where the last response wins, are concurrency and are not modelled.
- URL building: `fetch` URLs are built without encoding the query or the name. Encoding is not modelled.
- fetchProviderPreferences (js/api-service.js:172-232), called by the row click handler of script.js at script.js:54, is not part of this model. ScriptPage.Page.RowClick models only script.js:53, the id made current. Left out with it: the details it renders, the panel content and pin button it builds, and its own `currentProviderId = providerId` (js/api-service.js:208).
- The older `makeDraggable` in script.js:154-187 is not modelled on its own. It is Drag.Step without the handle choice and the form-control guard.
- Slide-in removal (script.js:20-22): with the scripts sharing the global scope, the panel variable is assigned by js/api-service.js (lines 100, 126, 141, 180, 213, 224). The code only removes the `slide-in` CSS class, which is presentation.
- Presentation: CSS classes and styles are not modelled. This covers `iridescent-effect`, the `pinned` row class, `show`, the font sizes and `preventDefault`.
- Duplicate listeners: `setupUnpinIcon` and `setupUnpinButton` add another click listener on every replace. Each listener does the same idempotent removal.
- Globals: `window.currentlyPinnedProviderName` is a window property, separate from the `let` of the same name in js/main.js. The model keeps the window property only.
- Medication details rendering: `displayMedicationDetails` (both files) is reduced to the name shown.
- Preview panel details: `displayProviderPreferencesInPanel` writes into the panel's details before the panel's HTML is replaced. Only the final content is modelled.
- Prototype keys: `medications[name]` in server.js also finds inherited properties such as `constructor`. Only own properties are modelled.
- GenerateHpi: takes the result of `request.get_json()` as given. What Flask does with a missing or non-JSON body depends on the Flask version.
- The HPI text: the prompt strings and the mock text beyond the `pmh_intro` opening are fixed text.
- JSON numbers: modelled as integers.
- Malformed data files: JSON files without `name` or `id` fields, or a top-level value that is not a list (app.py) or an object (server.js), are not modelled. Start-up reading of the files is modelled only as "file missing gives empty data".
- In-place sorting: `Array.prototype.sort` and `list.sort` are modelled as functions returning the sorted sequence; the arrays are not mutated in place.
- `fuzz.partial_ratio`: a parameter. Its internals are a foreign library.
- Drag position: `offsetTop`/`offsetLeft` are taken as the last written `top`/`left`. Margins and the offset parent are not modelled.
- Canvas and particles (js/utils.js), js/event-listeners.js and js/main.js: drawing, floating point and bootstrapping.

## Findings

| source | as written | input that shows it | evidently intended | confidence | as-written member | corrected member |
|---|---|---|---|---|---|---|
| js/dom-manipulation.js:163-167 | the paragraph for a string value is created but never appended to the container | `{note_pref: "Concise notes"}` renders as the heading "General Preferences" alone | append the paragraph, as the array and "no preferences" branches and generatePreferenceDetailsHTML do, so every heading has content | high (not executed) | PrefRender.DomVariantDropsStrings | PrefRender.EveryHeadingHasContent |
| js/dom-manipulation.js:52 | the current id is read as `window.currentProviderId`, but the id is a `let` global (js/main.js:3), not a window property, so it is undefined | pin provider 3, then pin provider 3 again: the stored id "undefined" is `!==` undefined, so the box is replaced every time | compare with the clicked provider's id, so that re-pinning the same provider is a no-op | high (not executed) | PinBoard.PinWithoutIdAlwaysReplaces | PinBoard.PinAgainIsNoOp |
