/**
 * Layout of a provider's preference set, as built by generatePreferenceDetailsHTML and
 * displayProviderPreferences (js/dom-manipulation.js) and by displayProviderPreferences (script.js).
 * The keys note_pref, hpi_elements, physical_exam, mdm, other_pref and speed come first, in that
 * order, when present; every other key follows in enumeration order. Each category is a heading
 * followed by its items. The markup itself is abstracted to a sequence of tokens.
 */
module PrefRender {
  import opened Common
  import opened Text

  /** A category's value as decoded from JSON. */
  datatype PrefValue =
    | List(items: seq<string>)  // an array; each element is shown as its text
    | Str(value: string)        // a string
    | Other                     // null, a number, a boolean or an object

  /** One own property of the preference object. */
  datatype Entry = Entry(key: string, value: PrefValue)

  /**
   * The own enumerable properties of the preference object, in the order `for...in` visits them.
   * Property names of a JavaScript object are distinct.
   */
  type PreferenceSet = seq<Entry>

  ghost predicate DistinctKeys(p: PreferenceSet) {
    forall i, j :: 0 <= i < j < |p| ==> p[i].key != p[j].key
  }

  /** What the rendering emits: an h4 heading, a paragraph with an item, or the "none" paragraph. */
  datatype Token = Heading(caption: string) | Item(text: string) | NoPreferences

  /** The label overrides of js/dom-manipulation.js (Dashboard) and of script.js (Legacy). */
  datatype LabelSet = Dashboard | Legacy

  /**
   * The three renderers differ in their labels and in whether a string value is appended:
   * the DOM-building renderer of js/dom-manipulation.js creates the paragraph but never appends it.
   */
  datatype Variant = Variant(labels: LabelSet, appendsString: bool)

  /** generatePreferenceDetailsHTML, js/dom-manipulation.js */
  const HtmlVariant := Variant(Dashboard, true)
  /** displayProviderPreferences, js/dom-manipulation.js, as written */
  const DomVariant := Variant(Dashboard, false)
  /** displayProviderPreferences, script.js */
  const ScriptVariant := Variant(Legacy, true)

  const DisplayOrder: seq<string> := ["note_pref", "hpi_elements", "physical_exam", "mdm", "other_pref", "speed"]

  function Keys(p: PreferenceSet): seq<string> {
    seq(|p|, i requires 0 <= i < |p| => p[i].key)
  }

  /** `hasOwnProperty(key) ? preferences[key] : absent` */
  function Find(p: PreferenceSet, key: string): (r: Option<PrefValue>)
    ensures r.Some? ==> Entry(key, r.value) in p
    ensures r.None? <==> key !in Keys(p)
  {
    if p == [] then None
    else if p[0].key == key then
      assert Keys(p)[0] == key;
      Some(p[0].value)
    else
      assert Keys(p) == [p[0].key] + Keys(p[1..]);
      Find(p[1..], key)
  }

  /** `\w` of a JavaScript regular expression. */
  predicate IsWordChar(c: char) {
    'a' <= c <= 'z' || 'A' <= c <= 'Z' || '0' <= c <= '9' || c == '_'
  }

  function ReplaceUnderscores(s: string): string {
    seq(|s|, i requires 0 <= i < |s| => if s[i] == '_' then ' ' else s[i])
  }

  /** `.replace(/\b\w/g, l => l.toUpperCase())` */
  function CapitalizeWords(s: string): string {
    seq(|s|, i requires 0 <= i < |s| =>
      if IsWordChar(s[i]) && (i == 0 || !IsWordChar(s[i - 1])) then UpperChar(s[i]) else s[i])
  }

  /**
   * The default label of a key: underscores become spaces, and a letter that starts a word
   * (at the start, or after a character that is neither a letter nor a digit) is upper-cased.
   */
  function TitleCase(key: string): (r: string)
    ensures |r| == |key|
    ensures forall i :: 0 <= i < |key| && key[i] == '_' ==> r[i] == ' '
    ensures forall i :: 0 <= i < |key| && key[i] != '_' ==>
      r[i] == if i == 0 || key[i - 1] == '_' || !IsWordChar(key[i - 1]) then UpperChar(key[i]) else key[i]
  {
    CapitalizeWords(ReplaceUnderscores(key))
  }

  /** The heading text of a category. */
  function Label(labels: LabelSet, key: string): (r: string)
    ensures key !in DisplayOrder ==> r == TitleCase(key)
  {
    if key == "hpi_elements" then "HPI Elements"
    else if key == "mdm" then (if labels == Dashboard then "MDM/ED Course" else "Medical Decision Making")
    else if key == "note_pref" then (if labels == Dashboard then "General Preferences" else "Note Preferences")
    else if key == "other_pref" then "Other Preferences"
    else if key == "physical_exam" then "Physical Exam"
    else if key == "speed" then (if labels == Dashboard then "Speed/Difficulty" else "Speed")
    else TitleCase(key)
  }

  /** The tokens a value contributes after its heading. */
  function ValueTokens(value: PrefValue, appendsString: bool): seq<Token> {
    match value
    case List(items) =>
      if |items| > 0 then seq(|items|, i requires 0 <= i < |items| => Item(items[i])) else [NoPreferences]
    case Str(s) => if appendsString then [Item(s)] else []
    case Other => [NoPreferences]
  }

  /** displayCategory: a heading, then the value's tokens. */
  function CategoryTokens(key: string, value: PrefValue, v: Variant): seq<Token> {
    [Heading(Label(v.labels, key))] + ValueTokens(value, v.appendsString)
  }

  /** The entries of the keys of `order` that p has, in the order of `order`. */
  function KnownEntries(p: PreferenceSet, order: seq<string>): seq<Entry> {
    if order == [] then []
    else
      var key := order[|order| - 1];
      KnownEntries(p, order[..|order| - 1]) +
        match Find(p, key) { case Some(value) => [Entry(key, value)] case None => [] }
  }

  /** The entries whose key is not in `order`, in their order. */
  function UnknownEntries(es: seq<Entry>, order: seq<string>): seq<Entry> {
    if es == [] then []
    else
      var e := es[|es| - 1];
      UnknownEntries(es[..|es| - 1], order) + if e.key in order then [] else [e]
  }

  /** The entries of p arranged by `order`: the listed keys first, then the others. */
  function Arranged(p: PreferenceSet, order: seq<string>): seq<Entry> {
    KnownEntries(p, order) + UnknownEntries(p, order)
  }

  /** The order in which categories are displayed. */
  function RenderOrder(p: PreferenceSet): seq<Entry> {
    Arranged(p, DisplayOrder)
  }

  function TokensOf(es: seq<Entry>, v: Variant): seq<Token> {
    if es == [] then []
    else
      var e := es[|es| - 1];
      TokensOf(es[..|es| - 1], v) + CategoryTokens(e.key, e.value, v)
  }

  /** What the page shows for the preference set p. */
  function Rendered(p: PreferenceSet, v: Variant): seq<Token> {
    TokensOf(RenderOrder(p), v)
  }

  /** The labels of the headings, in order. */
  function Headings(ts: seq<Token>): seq<string> {
    if ts == [] then []
    else (if ts[0].Heading? then [ts[0].caption] else []) + Headings(ts[1..])
  }

  /** The number of entries with the given key. */
  function CountKey(es: seq<Entry>, key: string): nat {
    |Filter(es, (e: Entry) => e.key == key)|
  }

  /** displayCategory: a heading, then one item per element of a non-empty array, one item for a
      string (when the variant appends it), and the "No specific preferences." item otherwise. */
  method DisplayCategory(key: string, value: PrefValue, v: Variant) returns (out: seq<Token>)
    ensures out == CategoryTokens(key, value, v)
  {
    out := [Heading(Label(v.labels, key))];
    if value.List? && |value.items| > 0 {
      var i := 0;
      while i < |value.items|
        invariant 0 <= i <= |value.items|
        invariant out == [Heading(Label(v.labels, key))] + seq(i, k requires 0 <= k < i => Item(value.items[k]))
      {
        out := out + [Item(value.items[i])];
        i := i + 1;
      }
    } else if value.Str? {
      if v.appendsString {
        out := out + [Item(value.value)];
      }
    } else {
      out := out + [NoPreferences];
    }
  }

  /** The first loop of the rendering: the keys of `order` that p has, in that order. */
  method DisplayKnown(p: PreferenceSet, order: seq<string>, v: Variant) returns (tokens: seq<Token>, displayed: set<string>)
    ensures tokens == TokensOf(KnownEntries(p, order), v)
    ensures forall k :: k in displayed <==> k in order && k in Keys(p)
  {
    tokens := [];
    displayed := {};
    var i := 0;
    while i < |order|
      invariant 0 <= i <= |order|
      invariant displayed == PresentKeys(p, order[..i])
      invariant tokens == TokensOf(KnownEntries(p, order[..i]), v)
    {
      var key := order[i];
      KnownEntriesStep(p, order, i);
      assert PresentKeys(p, order[..i + 1]) ==
        PresentKeys(p, order[..i]) + if key in Keys(p) then {key} else {} by {
        assert order[..i + 1][..i] == order[..i];
      }
      var found := Find(p, key);
      if found.Some? {
        var more := DisplayCategory(key, found.value, v);
        assert KnownEntries(p, order[..i + 1]) == KnownEntries(p, order[..i]) + [Entry(key, found.value)];
        TokensOfSnoc(KnownEntries(p, order[..i]), Entry(key, found.value), v);
        tokens := tokens + more;
        displayed := displayed + {key};
      } else {
        assert KnownEntries(p, order[..i + 1]) == KnownEntries(p, order[..i]);
      }
      i := i + 1;
    }
    assert order[..i] == order;
    PresentKeysMembers(p, order);
  }

  /** Both loops of the rendering: the keys of `order` first, then every key not yet displayed. */
  method RenderIn(p: PreferenceSet, order: seq<string>, v: Variant) returns (tokens: seq<Token>)
    ensures tokens == TokensOf(Arranged(p, order), v)
  {
    var displayed;
    tokens, displayed := DisplayKnown(p, order, v);
    ghost var known := KnownEntries(p, order);
    assert p[..0] == [] && known + UnknownEntries(p[..0], order) == known;
    var j := 0;
    while j < |p|
      invariant 0 <= j <= |p|
      invariant tokens == TokensOf(known + UnknownEntries(p[..j], order), v)
    {
      var e := p[j];
      RenderStep(p, order, j, known, v);
      assert e.key in Keys(p) by { assert Keys(p)[j] == e.key; }
      if e.key !in displayed {
        var more := DisplayCategory(e.key, e.value, v);
        tokens := tokens + more;
      }
      j := j + 1;
    }
    assert p[..j] == p;
  }

  /** generatePreferenceDetailsHTML and both displayProviderPreferences, with the fixed display order. */
  method Render(p: PreferenceSet, v: Variant) returns (tokens: seq<Token>)
    ensures tokens == Rendered(p, v)
  {
    tokens := RenderIn(p, DisplayOrder, v);
  }

  /** The keys of `order` that p has. */
  function PresentKeys(p: PreferenceSet, order: seq<string>): set<string> {
    if order == [] then {}
    else
      var key := order[|order| - 1];
      PresentKeys(p, order[..|order| - 1]) + if key in Keys(p) then {key} else {}
  }

  lemma {:induction false} PresentKeysMembers(p: PreferenceSet, order: seq<string>)
    ensures forall k :: k in PresentKeys(p, order) <==> k in order && k in Keys(p)
  {
    if order != [] {
      PresentKeysMembers(p, order[..|order| - 1]);
      assert order == order[..|order| - 1] + [order[|order| - 1]];
    }
  }

  lemma KnownEntriesStep(p: PreferenceSet, order: seq<string>, i: nat)
    requires i < |order|
    ensures KnownEntries(p, order[..i + 1]) == KnownEntries(p, order[..i]) +
      match Find(p, order[i]) { case Some(value) => [Entry(order[i], value)] case None => [] }
  {
    assert order[..i + 1][..i] == order[..i];
  }

  lemma UnknownEntriesStep(es: seq<Entry>, order: seq<string>, j: nat)
    requires j < |es|
    ensures UnknownEntries(es[..j + 1], order) == UnknownEntries(es[..j], order) + if es[j].key in order then [] else [es[j]]
  {
    assert es[..j + 1][..j] == es[..j];
  }

  lemma RenderStep(p: PreferenceSet, order: seq<string>, j: nat, known: seq<Entry>, v: Variant)
    requires j < |p|
    ensures TokensOf(known + UnknownEntries(p[..j + 1], order), v) ==
      TokensOf(known + UnknownEntries(p[..j], order), v) +
      if p[j].key in order then [] else CategoryTokens(p[j].key, p[j].value, v)
  {
    UnknownEntriesStep(p, order, j);
    var before := known + UnknownEntries(p[..j], order);
    if p[j].key !in order {
      assert known + UnknownEntries(p[..j + 1], order) == before + [p[j]];
      TokensOfSnoc(before, p[j], v);
    } else {
      assert known + UnknownEntries(p[..j + 1], order) == before;
    }
  }

  lemma TokensOfSnoc(es: seq<Entry>, e: Entry, v: Variant)
    ensures TokensOf(es + [e], v) == TokensOf(es, v) + CategoryTokens(e.key, e.value, v)
  {
    assert (es + [e])[..|es|] == es;
  }

  // ----- Coverage: every own key is displayed exactly once, and nothing else -----

  lemma {:induction false} CountKeyOfDistinct(p: PreferenceSet, key: string)
    requires DistinctKeys(p)
    ensures CountKey(p, key) == if key in Keys(p) then 1 else 0
  {
    if p != [] {
      assert Keys(p) == [p[0].key] + Keys(p[1..]);
      assert DistinctKeys(p[1..]) by {
        forall i, j | 0 <= i < j < |p[1..]| ensures p[1..][i].key != p[1..][j].key {
          assert p[1..][i] == p[i + 1] && p[1..][j] == p[j + 1];
        }
      }
      CountKeyOfDistinct(p[1..], key);
      if p[0].key == key {
        assert key !in Keys(p[1..]) by {
          forall i | 0 <= i < |p[1..]| ensures Keys(p[1..])[i] != key {
            assert p[1..][i] == p[i + 1];
          }
        }
      }
    }
  }

  lemma {:induction false} CountKeyAppend(a: seq<Entry>, b: seq<Entry>, key: string)
    ensures CountKey(a + b, key) == CountKey(a, key) + CountKey(b, key)
  {
    FilterAppend(a, b, (e: Entry) => e.key == key);
  }

  lemma {:induction false} KnownEntriesCount(p: PreferenceSet, order: seq<string>, key: string)
    requires forall i, j :: 0 <= i < j < |order| ==> order[i] != order[j]
    ensures CountKey(KnownEntries(p, order), key) == if key in order && key in Keys(p) then 1 else 0
    ensures forall e :: e in KnownEntries(p, order) ==> e in p
  {
    if order != [] {
      var init, last := order[..|order| - 1], order[|order| - 1];
      KnownEntriesCount(p, init, key);
      var tail := match Find(p, last) { case Some(value) => [Entry(last, value)] case None => [] };
      CountKeyAppend(KnownEntries(p, init), tail, key);
      assert order == init + [last];
      assert last == key ==> key !in init;
    }
  }

  lemma {:induction false} UnknownEntriesCount(es: seq<Entry>, order: seq<string>, key: string)
    ensures CountKey(UnknownEntries(es, order), key) == if key in order then 0 else CountKey(es, key)
    decreases |es|, 1
  {
    if es != [] {
      var init, e := es[..|es| - 1], es[|es| - 1];
      UnknownEntriesCountStep(init, e, order, key);
      assert es == init + [e];
    }
  }

  lemma {:induction false} UnknownEntriesCountStep(init: seq<Entry>, e: Entry, order: seq<string>, key: string)
    ensures CountKey(UnknownEntries(init + [e], order), key) ==
      if key in order then 0 else CountKey(init + [e], key)
    decreases |init| + 1, 0
  {
    var es := init + [e];
    var tail := if e.key in order then [] else [e];
    UnknownEntriesCount(init, order, key);
    assert es[..|es| - 1] == init && es[|es| - 1] == e;
    assert UnknownEntries(es, order) == UnknownEntries(init, order) + tail;
    CountKeyAppend(UnknownEntries(init, order), tail, key);
    CountKeyAppend(init, [e], key);
    assert CountKey(tail, key) == if key in order then 0 else CountKey([e], key);
  }

  /** Each own key of p is displayed exactly once, with its own value, and no other entry is displayed. */
  lemma RenderOrderCoversKeys(p: PreferenceSet)
    requires DistinctKeys(p)
    ensures forall key :: CountKey(RenderOrder(p), key) == if key in Keys(p) then 1 else 0
    ensures forall e :: e in RenderOrder(p) ==> e in p
  {
    forall key ensures CountKey(RenderOrder(p), key) == if key in Keys(p) then 1 else 0 {
      KnownEntriesCount(p, DisplayOrder, key);
      UnknownEntriesCount(p, DisplayOrder, key);
      CountKeyAppend(KnownEntries(p, DisplayOrder), UnknownEntries(p, DisplayOrder), key);
      CountKeyOfDistinct(p, key);
    }
    KnownEntriesCount(p, DisplayOrder, "");
    UnknownEntriesFilter(p, DisplayOrder);
  }

  // ----- Order: known keys first in display order, then the others in enumeration order -----

  lemma {:induction false} KnownEntriesKeys(p: PreferenceSet, order: seq<string>)
    ensures Keys(KnownEntries(p, order)) == Filter(order, (k: string) => k in Keys(p))
  {
    if order != [] {
      var init, last := order[..|order| - 1], order[|order| - 1];
      KnownEntriesKeys(p, init);
      assert order == init + [last];
      FilterAppend(init, [last], (k: string) => k in Keys(p));
      var tail := match Find(p, last) { case Some(value) => [Entry(last, value)] case None => [] };
      assert Keys(KnownEntries(p, init) + tail) == Keys(KnownEntries(p, init)) + Keys(tail);
      assert Keys(tail) == Filter([last], (k: string) => k in Keys(p));
    }
  }

  lemma {:induction false} UnknownEntriesFilter(es: seq<Entry>, order: seq<string>)
    ensures UnknownEntries(es, order) == Filter(es, (e: Entry) => e.key !in order)
  {
    if es != [] {
      var init, e := es[..|es| - 1], es[|es| - 1];
      UnknownEntriesFilter(init, order);
      assert es == init + [e];
      FilterAppend(init, [e], (e: Entry) => e.key !in order);
    }
  }

  /**
   * The display order is the present known keys in the fixed order (absent ones yield nothing),
   * followed by exactly the entries with other keys, as a subsequence of the enumeration order.
   */
  lemma RenderOrderLayout(p: PreferenceSet)
    ensures
      var known := KnownEntries(p, DisplayOrder);
      RenderOrder(p) == known + Filter(p, (e: Entry) => e.key !in DisplayOrder) &&
      Keys(known) == Filter(DisplayOrder, (k: string) => k in Keys(p)) &&
      IsSubsequence(Filter(p, (e: Entry) => e.key !in DisplayOrder), p)
  {
    KnownEntriesKeys(p, DisplayOrder);
    UnknownEntriesFilter(p, DisplayOrder);
    FilterIsSubsequence(p, (e: Entry) => e.key !in DisplayOrder);
  }

  // ----- Headings -----

  lemma {:induction false} HeadingsAppend(a: seq<Token>, b: seq<Token>)
    ensures Headings(a + b) == Headings(a) + Headings(b)
  {
    if a == [] {
      assert a + b == b;
    } else {
      assert (a + b)[1..] == a[1..] + b;
      HeadingsAppend(a[1..], b);
    }
  }

  lemma {:induction false} NoHeadings(ts: seq<Token>)
    requires forall i :: 0 <= i < |ts| ==> !ts[i].Heading?
    ensures Headings(ts) == []
  {
    if ts != [] { NoHeadings(ts[1..]); }
  }

  /** The labels of the keys of es, in order. */
  function LabelsOf(labels: LabelSet, es: seq<Entry>): (r: seq<string>)
    ensures |r| == |es|
    ensures forall i :: 0 <= i < |es| ==> r[i] == Label(labels, es[i].key)
  {
    seq(|es|, i requires 0 <= i < |es| => Label(labels, es[i].key))
  }

  /** The headings are the labels of the displayed keys, one per key, in display order. */
  lemma {:induction false} HeadingsFollowOrder(es: seq<Entry>, v: Variant)
    ensures Headings(TokensOf(es, v)) == LabelsOf(v.labels, es)
  {
    if es != [] {
      var init, e := es[..|es| - 1], es[|es| - 1];
      HeadingsFollowOrder(init, v);
      HeadingsAppend(TokensOf(init, v), CategoryTokens(e.key, e.value, v));
      CategoryHeading(e, v);
      assert LabelsOf(v.labels, es) == LabelsOf(v.labels, init) + [Label(v.labels, e.key)];
    }
  }

  lemma CategoryHeading(e: Entry, v: Variant)
    ensures Headings(CategoryTokens(e.key, e.value, v)) == [Label(v.labels, e.key)]
  {
    var rest := ValueTokens(e.value, v.appendsString);
    HeadingsAppend([Heading(Label(v.labels, e.key))], rest);
    NoHeadings(rest);
  }

  /** Every heading is followed by a token that is not a heading. */
  predicate HeadingsFollowed(ts: seq<Token>) {
    forall i :: 0 <= i < |ts| && ts[i].Heading? ==> i + 1 < |ts| && !ts[i + 1].Heading?
  }

  /** In a renderer that appends strings, every heading is followed by at least one item. */
  lemma {:induction false} EveryHeadingHasContent(es: seq<Entry>, v: Variant)
    requires v.appendsString
    ensures HeadingsFollowed(TokensOf(es, v))
  {
    if es != [] {
      var init, e := es[..|es| - 1], es[|es| - 1];
      EveryHeadingHasContent(init, v);
      var a, c := TokensOf(init, v), CategoryTokens(e.key, e.value, v);
      var ts := a + c;
      assert TokensOf(es, v) == ts;
      assert |c| >= 2 && !c[1].Heading? && forall k :: 1 <= k < |c| ==> !c[k].Heading?;
      forall i | 0 <= i < |ts| && ts[i].Heading? ensures i + 1 < |ts| && !ts[i + 1].Heading? {
        if i < |a| {
          assert ts[i] == a[i];
          assert ts[i + 1] == a[i + 1];
        } else {
          assert ts[i] == c[i - |a|];
          assert i == |a|;
          assert ts[i + 1] == c[1];
        }
      }
    }
  }

  /** A single entry is arranged by itself, and its key is displayed once whether or not it is listed. */
  lemma {:induction false} KnownEntriesSingle(e: Entry, order: seq<string>)
    requires forall i, j :: 0 <= i < j < |order| ==> order[i] != order[j]
    ensures KnownEntries([e], order) == if e.key in order then [e] else []
  {
    if order != [] {
      var init, last := order[..|order| - 1], order[|order| - 1];
      KnownEntriesSingle(e, init);
      assert order == init + [last];
      assert Keys([e]) == [e.key];
      if last == e.key {
        assert e.key !in init;
      }
    }
  }

  lemma DisplayOrderDistinct()
    ensures forall i, j :: 0 <= i < j < |DisplayOrder| ==> DisplayOrder[i] != DisplayOrder[j]
  {
  }

  lemma SingleRenderOrder(e: Entry)
    ensures RenderOrder([e]) == [e]
  {
    DisplayOrderDistinct();
    KnownEntriesSingle(e, DisplayOrder);
    assert [e][..0] == [];
    assert UnknownEntries([e], DisplayOrder) == if e.key in DisplayOrder then [] else [e];
  }

  lemma SingleRendered(e: Entry, v: Variant)
    ensures Rendered([e], v) == CategoryTokens(e.key, e.value, v)
  {
    SingleRenderOrder(e);
    assert [e][..0] == [];
    assert TokensOf([e], v) == TokensOf([], v) + CategoryTokens(e.key, e.value, v);
  }

  /** As written, the DOM-building renderer shows a string-valued category as a bare heading, so a
      heading without content is possible there; appending the paragraph, as the HTML renderer
      does, gives the heading its item. */
  lemma DomVariantDropsStrings()
    ensures Rendered([Entry("note_pref", Str("Concise notes"))], DomVariant) == [Heading("General Preferences")]
    ensures !HeadingsFollowed(Rendered([Entry("note_pref", Str("Concise notes"))], DomVariant))
    ensures Rendered([Entry("note_pref", Str("Concise notes"))], HtmlVariant) ==
      [Heading("General Preferences"), Item("Concise notes")]
  {
    SingleRendered(Entry("note_pref", Str("Concise notes")), DomVariant);
    SingleRendered(Entry("note_pref", Str("Concise notes")), HtmlVariant);
    var ts := Rendered([Entry("note_pref", Str("Concise notes"))], DomVariant);
    assert ts[0].Heading? && |ts| == 1;
  }
}
