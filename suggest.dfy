/**
 * The Flask back end (app.py): fuzzy suggestion ranking, the medication and provider lookups,
 * and the past-medical-history decision of the HPI generator.
 */
module Suggest {
  import opened Common
  import opened Text
  import opened Sorting
  import opened PyDict
  import PrefRender

  /** What fuzz.partial_ratio returns: a similarity from 0 to 100. */
  type Percent = r: int | 0 <= r <= 100

  /** fuzz.partial_ratio, whose internals are not modelled: any function into 0..100. */
  type Ratio = (string, string) -> Percent

  /** A best match: the word and its score (`best_match, best_ratio`). */
  datatype Match = Match(word: string, ratio: int)

  const NoMatch := Match("", 0)

  /** `for m in ms: if m.ratio > best.ratio: best = m`: the running best, kept on ties. */
  function Best(ms: seq<Match>, best: Match): Match {
    if ms == [] then best
    else Best(ms[1..], if ms[0].ratio > best.ratio then ms[0] else best)
  }

  /** ms[i] is a maximum of ms, above `floor`, and strictly above everything before it. */
  ghost predicate FirstMaximum(ms: seq<Match>, i: int, floor: int) {
    0 <= i < |ms| && ms[i].ratio > floor &&
    (forall j :: 0 <= j < |ms| ==> ms[j].ratio <= ms[i].ratio) &&
    (forall j :: 0 <= j < i ==> ms[j].ratio < ms[i].ratio)
  }

  /** The running best never loses score; it stays the starting value when nothing beats it and
      gains score when something does. */
  lemma {:induction false} BestBounds(ms: seq<Match>, best: Match)
    ensures Best(ms, best).ratio >= best.ratio
    ensures (forall j :: 0 <= j < |ms| ==> ms[j].ratio <= best.ratio) ==> Best(ms, best) == best
    ensures (exists j :: 0 <= j < |ms| && ms[j].ratio > best.ratio) ==> Best(ms, best).ratio > best.ratio
  {
    if ms != [] {
      var next := if ms[0].ratio > best.ratio then ms[0] else best;
      BestBounds(ms[1..], next);
      assert forall j :: 1 <= j < |ms| ==> ms[j] == ms[1..][j - 1];
    }
  }

  /** The running best is the starting value when nothing beats it, and otherwise the first
      element with the largest score. */
  lemma {:induction false} BestIsFirstMaximum(ms: seq<Match>, best: Match)
    ensures Best(ms, best) == best || exists i :: FirstMaximum(ms, i, best.ratio) && Best(ms, best) == ms[i]
    ensures Best(ms, best) == best <==> forall j :: 0 <= j < |ms| ==> ms[j].ratio <= best.ratio
  {
    BestBounds(ms, best);
    if ms != [] {
      var next := if ms[0].ratio > best.ratio then ms[0] else best;
      BestIsFirstMaximum(ms[1..], next);
      var r := Best(ms[1..], next);
      assert r == Best(ms, best);
      assert forall j :: 1 <= j < |ms| ==> ms[j] == ms[1..][j - 1];
      if r == next {
        if ms[0].ratio > best.ratio {
          assert FirstMaximum(ms, 0, best.ratio);
        }
      } else {
        var i :| FirstMaximum(ms[1..], i, next.ratio) && r == ms[1..][i];
        assert FirstMaximum(ms, i + 1, best.ratio);
      }
    }
  }

  /** The scores of the words of `text` against the query, both lower-cased. */
  function WordMatches(ratio: Ratio, query: string, text: string): (ms: seq<Match>)
    ensures |ms| == |Words(text)|
    ensures forall i :: 0 <= i < |ms| ==> ms[i] == Match(Words(text)[i], ratio(Lower(query), Lower(Words(text)[i])))
  {
    var ws := Words(text);
    seq(|ws|, i requires 0 <= i < |ws| => Match(ws[i], ratio(Lower(query), Lower(ws[i]))))
  }

  /** The running best over scores from 0 to 100 is the starting value or an element scoring more. */
  lemma {:induction false} BestOfPercents(ms: seq<Match>, best: Match)
    requires 0 <= best.ratio <= 100 && forall j :: 0 <= j < |ms| ==> 0 <= ms[j].ratio <= 100
    ensures 0 <= Best(ms, best).ratio <= 100
    ensures Best(ms, best) == best || (Best(ms, best) in ms && Best(ms, best).ratio > best.ratio)
  {
    if ms != [] {
      var next := if ms[0].ratio > best.ratio then ms[0] else best;
      assert forall j :: 0 <= j < |ms[1..]| ==> ms[1..][j] == ms[j + 1];
      BestOfPercents(ms[1..], next);
    }
  }

  /** find_best_match(query, text): ("", 0), or a word of the text with a positive score. */
  function BestMatch(ratio: Ratio, query: string, text: string): (m: Match)
    ensures 0 <= m.ratio <= 100
    ensures m == NoMatch || (m.ratio > 0 && m.word in Words(text))
  {
    var ms := WordMatches(ratio, query, text);
    BestOfPercents(ms, NoMatch);
    Best(ms, NoMatch)
  }

  /** find_best_match returns ("", 0) when no word scores above 0, and otherwise the first word with
      the largest score; a match with a positive score is a word of the text. */
  lemma BestMatchSpec(ratio: Ratio, query: string, text: string)
    ensures var m := BestMatch(ratio, query, text);
      var ms := WordMatches(ratio, query, text);
      (m == NoMatch <==> forall j :: 0 <= j < |ms| ==> ms[j].ratio == 0) &&
      (m != NoMatch ==> exists i :: FirstMaximum(ms, i, 0) && m == ms[i]) &&
      (m.ratio > 0 ==> m.word in Words(text) && Contains(text, m.word))
  {
    var ms := WordMatches(ratio, query, text);
    BestIsFirstMaximum(ms, NoMatch);
    var m := BestMatch(ratio, query, text);
    if m.ratio > 0 {
      var i :| FirstMaximum(ms, i, 0) && m == ms[i];
      assert m.word == Words(text)[i];
    }
  }

  /** The loop of find_best_match. */
  method FindBestMatch(ratio: Ratio, query: string, text: string) returns (m: Match)
    ensures m == BestMatch(ratio, query, text)
  {
    var words := Words(text);
    ghost var ms := WordMatches(ratio, query, text);
    m := NoMatch;
    var i := 0;
    while i < |words|
      invariant 0 <= i <= |words|
      invariant Best(ms, NoMatch) == Best(ms[i..], m)
    {
      var r := ratio(Lower(query), Lower(words[i]));
      assert ms[i..][0] == Match(words[i], r) && ms[i..][1..] == ms[i + 1..];
      if r > m.ratio {
        m := Match(words[i], r);
      }
      i := i + 1;
    }
  }

  /** starts_with_query(text, query): a prefix test ignoring case. */
  predicate StartsWithQuery(text: string, query: string) {
    StartsWith(Lower(text), Lower(query))
  }

  /** The query followed by anything starts with the query, whatever the case of either; a text
      that starts with the query contains it and is no shorter. */
  lemma StartsWithQuerySpec(query: string, rest: string, text: string, text2: string)
    requires Lower(text2) == Lower(text)
    ensures StartsWithQuery(query + rest, query)
    ensures StartsWithQuery(text, query) ==> |query| <= |text| && Contains(Lower(text), Lower(query))
    ensures StartsWithQuery(text, query) <==> StartsWithQuery(text2, query)
  {
    assert Lower(query + rest)[..|query|] == Lower(query);
    if StartsWithQuery(text, query) {
      assert OccursAt(Lower(text), Lower(query), 0);
    }
  }

  /** A medication record of medications.json; absent keys are None. */
  datatype Medication = Medication(
    name: string,
    description: Option<string>,
    alternateNames: Option<seq<string>>,
    mechanism: Option<string>)

  function LowerName(m: Medication): string { Lower(m.name) }

  /** medication_data: the records keyed by their lower-cased name, the last record winning; every
      record's lower-cased name is a key, and each key leads to a record with that name. */
  function MedicationIndex(meds: seq<Medication>): (d: Dict<string, Medication>)
    ensures DistinctKeys(d)
    ensures forall k :: Get(d, k) == LastWithKey(meds, LowerName, k)
    ensures forall k :: Get(d, k).Some? ==> Get(d, k).value in meds && Lower(Get(d, k).value.name) == k
    ensures forall i :: 0 <= i < |meds| ==> Get(d, Lower(meds[i].name)).Some?
  {
    ComprehensionGet(meds, LowerName, "");
    forall k ensures Get(Comprehension(meds, LowerName), k) == LastWithKey(meds, LowerName, k)
      && (LastWithKey(meds, LowerName, k).Some? ==>
        LastWithKey(meds, LowerName, k).value in meds && LowerName(LastWithKey(meds, LowerName, k).value) == k)
      && (LastWithKey(meds, LowerName, k).None? <==> forall i :: 0 <= i < |meds| ==> LowerName(meds[i]) != k)
    {
      ComprehensionGet(meds, LowerName, k);
      LastWithKeyFound(meds, LowerName, k);
    }
    Comprehension(meds, LowerName)
  }

  /** A suggestion before ranking: the key, the name shown with it, and the score. */
  datatype Candidate = Candidate(name: string, shown: string, score: int)

  /** The best match over the alternate names (the inner loop over alt_names). */
  function AltMatches(ratio: Ratio, query: string, alts: seq<string>): (ms: seq<Match>)
    ensures |ms| == |alts|
    ensures forall i :: 0 <= i < |ms| ==> ms[i] == BestMatch(ratio, query, alts[i])
  {
    seq(|alts|, i requires 0 <= i < |alts| => BestMatch(ratio, query, alts[i]))
  }

  /** The best alternate match: ("", 0), or one of the alternate names' best matches. */
  function BestAlt(ratio: Ratio, query: string, alts: seq<string>): (b: Match)
    ensures 0 <= b.ratio <= 100
    ensures b == NoMatch || (b.ratio > 0 && b in AltMatches(ratio, query, alts))
  {
    var ms := AltMatches(ratio, query, alts);
    BestOfPercents(ms, NoMatch);
    Best(ms, NoMatch)
  }

  /** No alternate name before index j contains the word, ignoring case. */
  predicate NoneContainBefore(alts: seq<string>, j: int, word: string)
    requires 0 <= j <= |alts|
  {
    forall k :: 0 <= k < j ==> !Contains(Lower(alts[k]), Lower(word))
  }

  /** `for alt in alt_names: if best_alt_match.lower() in alt.lower(): ...; break`: the first
      alternate name containing the word. */
  function FirstContaining(alts: seq<string>, word: string): (r: Option<string>)
    ensures r.Some? ==> r.value in alts && Contains(Lower(r.value), Lower(word))
    ensures r.None? ==> forall a :: a in alts ==> !Contains(Lower(a), Lower(word))
    ensures r.Some? ==>
      exists j :: 0 <= j < |alts| && alts[j] == r.value && NoneContainBefore(alts, j, word)
  {
    if alts == [] then None
    else if Contains(Lower(alts[0]), Lower(word)) then Some(alts[0])
    else FirstContaining(alts[1..], word)
  }

  /** The name's score: its best match's, plus 20 when the name starts with the query; above 100
      only with that bonus. */
  function NameScore(ratio: Ratio, query: string, key: string): (r: int)
    ensures 0 <= r <= 120
    ensures StartsWithQuery(key, query) ==> r >= 20
    ensures r > 100 ==> StartsWithQuery(key, query)
  {
    BestMatch(ratio, query, key).ratio + if StartsWithQuery(key, query) then 20 else 0
  }

  /** The alternate names' score: positive exactly when some alternate word scores, and above 100
      only when the best alternate word starts with the query. */
  function AltScore(ratio: Ratio, query: string, alts: seq<string>): (r: int)
    ensures 0 <= r <= 120
    ensures r > 0 <==> BestAlt(ratio, query, alts).ratio > 0
    ensures r > 100 ==> StartsWithQuery(BestAlt(ratio, query, alts).word, query)
  {
    var b := BestAlt(ratio, query, alts);
    b.ratio + if b.ratio > 0 && StartsWithQuery(b.word, query) then 20 else 0
  }

  /** The body of the loop of suggestions() for one medication. */
  function Score(ratio: Ratio, query: string, key: string, med: Medication): (c: Option<Candidate>)
    ensures c.Some? ==> c.value.name == key && 50 < c.value.score <= 120
    ensures c.Some? ==> c.value.shown == key || c.value.shown in med.alternateNames.GetOr([])
    ensures c.Some? && c.value.shown != key ==> c.value.score == AltScore(ratio, query, med.alternateNames.GetOr([]))
  {
    var alts := med.alternateNames.GetOr([]);
    var nameScore := NameScore(ratio, query, key);
    var altScore := AltScore(ratio, query, alts);
    if altScore > nameScore then
      if altScore > 50 then
        match FirstContaining(alts, BestAlt(ratio, query, alts).word)
        case Some(alt) => Some(Candidate(key, alt, altScore))
        case None => None
      else None
    else if nameScore > 50 then Some(Candidate(key, key, nameScore))
    else None
  }

  /** A positive best alternate match is a word of some alternate name, so the search for an
      alternate name containing it always succeeds. */
  lemma AltIsFound(ratio: Ratio, query: string, alts: seq<string>)
    requires BestAlt(ratio, query, alts).ratio > 0
    ensures FirstContaining(alts, BestAlt(ratio, query, alts).word).Some?
  {
    var ms := AltMatches(ratio, query, alts);
    var b := BestAlt(ratio, query, alts);
    BestIsFirstMaximum(ms, NoMatch);
    var i :| FirstMaximum(ms, i, 0) && b == ms[i];
    BestMatchSpec(ratio, query, alts[i]);
    var k :| 0 <= k <= |alts[i]| - |b.word| && OccursAt(alts[i], b.word, k);
    LowerKeepsOccurrence(alts[i], b.word, k);
    assert alts[i] in alts;
  }

  /** The emission rules: a medication is suggested only with a score above 50; it is shown
      under an alternate name only when that name strictly beats the name itself, and then it is
      always suggested; a tie goes to the name. */
  lemma ScoreRules(ratio: Ratio, query: string, key: string, med: Medication)
    ensures var alts := med.alternateNames.GetOr([]);
      var c := Score(ratio, query, key, med);
      var n := NameScore(ratio, query, key);
      var a := AltScore(ratio, query, alts);
      (c.Some? ==> c.value.name == key && c.value.score > 50) &&
      (c.Some? <==> (a > n && a > 50) || (a <= n && n > 50)) &&
      (c.Some? && a > n ==> c.value.score == a && c.value.shown in alts) &&
      (c.Some? && a <= n ==> c.value == Candidate(key, key, n))
  {
    var alts := med.alternateNames.GetOr([]);
    var a := AltScore(ratio, query, alts);
    var n := NameScore(ratio, query, key);
    if a > n && a > 50 {
      assert BestMatch(ratio, query, key).ratio >= 0 by {
        BestIsFirstMaximum(WordMatches(ratio, query, key), NoMatch);
      }
      AltIsFound(ratio, query, alts);
    }
  }

  /** The loop of suggestions(): the candidates in the order of medication_names. */
  function Candidates(ratio: Ratio, query: string, index: Dict<string, Medication>): (cs: seq<Candidate>)
    ensures forall c :: c in cs ==> c.score > 50
  {
    if index == [] then []
    else
      var (key, med) := index[|index| - 1];
      ScoreRules(ratio, query, key, med);
      Candidates(ratio, query, index[..|index| - 1]) + Emitted(Score(ratio, query, key, med))
  }

  /** `suggestions_with_matches.append(...)` when there is a candidate. */
  function Emitted(c: Option<Candidate>): seq<Candidate> {
    if c.Some? then [c.value] else []
  }

  function CandidateScore(c: Candidate): int { c.score }

  predicate Higher(a: int, b: int) { a > b }

  /** `suggestions_with_matches.sort(key=lambda item: item[2], reverse=True)`: stable, by score
      from high to low. */
  function Ranked(cs: seq<Candidate>): seq<Candidate> {
    SortBy(cs, CandidateScore, Higher)
  }

  /** The first five of a sequence (`[:5]`). */
  function Take5<T>(s: seq<T>): seq<T> {
    if |s| <= 5 then s else s[..5]
  }

  /** The reply of /suggestions for the request's `q` argument (None when absent). */
  function Suggestions(ratio: Ratio, index: Dict<string, Medication>, q: Option<string>): seq<(string, string)> {
    var query := Lower(q.GetOr(""));
    if query == [] then [] else Pairs(Take5(Ranked(Candidates(ratio, query, index))))
  }

  /** `[(name, display_name) for name, display_name, score in ...]` */
  function Pairs(cs: seq<Candidate>): (ps: seq<(string, string)>)
    ensures |ps| == |cs|
    ensures forall i :: 0 <= i < |cs| ==> ps[i] == (cs[i].name, cs[i].shown)
  {
    seq(|cs|, i requires 0 <= i < |cs| => (cs[i].name, cs[i].shown))
  }

  lemma HigherIsStrictOrder()
    ensures StrictOrder(Higher)
  {
  }

  /** The ranking is a stable sort by score, highest first. */
  lemma RankedSpec(cs: seq<Candidate>, v: int)
    ensures multiset(Ranked(cs)) == multiset(cs)
    ensures forall i, j :: 0 <= i < j < |Ranked(cs)| ==> Ranked(cs)[i].score >= Ranked(cs)[j].score
    ensures WithKey(Ranked(cs), CandidateScore, v) == WithKey(cs, CandidateScore, v)
  {
    HigherIsStrictOrder();
    SortByPermutes(cs, CandidateScore, Higher);
    SortBySorted(cs, CandidateScore, Higher);
    SortByStable(cs, CandidateScore, Higher, v);
  }

  /** The five returned are the highest-scoring: every candidate cut off scores no more than any
      of them, and together with the cut-off ones they are all the candidates. */
  lemma TopFiveAreHighest(cs: seq<Candidate>)
    ensures var r := Ranked(cs); var top := Take5(r);
      |top| == (if |cs| <= 5 then |cs| else 5) &&
      multiset(cs) == multiset(top) + multiset(r[|top|..]) &&
      forall i, j :: 0 <= i < |top| && |top| <= j < |r| ==> r[j].score <= top[i].score
  {
    RankedSpec(cs, 0);
    var r := Ranked(cs);
    var top := Take5(r);
    assert |r| == |cs| by {
      assert |multiset(r)| == |multiset(cs)|;
    }
    assert r == top + r[|top|..];
  }

  /** An empty query returns []; otherwise at most five suggestions, each the key of a medication
      with a candidate score above 50, in non-increasing score order. */
  lemma SuggestionsSpec(ratio: Ratio, index: Dict<string, Medication>, q: Option<string>)
    ensures Lower(q.GetOr("")) == [] ==> Suggestions(ratio, index, q) == []
    ensures |Suggestions(ratio, index, q)| <= 5
    ensures var query := Lower(q.GetOr(""));
      query != [] ==>
        var top := Take5(Ranked(Candidates(ratio, query, index)));
        Suggestions(ratio, index, q) == Pairs(top) &&
        (forall i :: 0 <= i < |top| ==> top[i].score > 50) &&
        (forall i, j :: 0 <= i < j < |top| ==> top[i].score >= top[j].score)
  {
    var query := Lower(q.GetOr(""));
    if query != [] {
      var cs := Candidates(ratio, query, index);
      TopOfRanked(cs);
      assert Suggestions(ratio, index, q) == Pairs(Take5(Ranked(cs)));
    }
  }

  /** The first five of the ranking are scored above 50, like every candidate, and in order. */
  lemma TopOfRanked(cs: seq<Candidate>)
    requires forall c :: c in cs ==> c.score > 50
    ensures var top := Take5(Ranked(cs));
      |top| <= 5 &&
      (forall i :: 0 <= i < |top| ==> top[i].score > 50) &&
      (forall i, j :: 0 <= i < j < |top| ==> top[i].score >= top[j].score)
  {
    RankedSpec(cs, 0);
    var r := Ranked(cs);
    var top := Take5(r);
    assert forall i :: 0 <= i < |top| ==> top[i] == r[i];
    forall i | 0 <= i < |top| ensures top[i].score > 50 {
      assert r[i] in multiset(cs);
    }
  }

  /** One more medication of medication_names. */
  lemma CandidatesStep(ratio: Ratio, query: string, index: Dict<string, Medication>, i: int)
    requires 0 <= i < |index|
    ensures Candidates(ratio, query, index[..i + 1]) ==
      Candidates(ratio, query, index[..i]) + Emitted(Score(ratio, query, index[i].0, index[i].1))
  {
    assert index[..i + 1][..i] == index[..i];
    assert index[..i + 1][i] == index[i];
  }

  /** The loop of suggestions() over medication_names. */
  method CollectCandidates(ratio: Ratio, query: string, index: Dict<string, Medication>) returns (found: seq<Candidate>)
    ensures found == Candidates(ratio, query, index)
  {
    found := [];
    var i := 0;
    while i < |index|
      invariant 0 <= i <= |index|
      invariant found == Candidates(ratio, query, index[..i])
    {
      var c := ScoreMedication(ratio, query, index[i].0, index[i].1);
      CandidatesStep(ratio, query, index, i);
      found := found + Emitted(c);
      i := i + 1;
    }
    assert index[..i] == index;
  }

  /** suggestions(): the loop, then the sort and the first five as (name, shown) pairs. */
  method SuggestionsLoop(ratio: Ratio, index: Dict<string, Medication>, q: Option<string>) returns (out: seq<(string, string)>)
    ensures out == Suggestions(ratio, index, q)
  {
    var query := Lower(q.GetOr(""));
    if query == [] {
      return [];
    }
    var found := CollectCandidates(ratio, query, index);
    out := Pairs(Take5(Ranked(found)));
  }

  /** The loop over alt_names that keeps the best alternate match. */
  method FindBestAlt(ratio: Ratio, query: string, alts: seq<string>) returns (bestAlt: Match)
    ensures bestAlt == BestAlt(ratio, query, alts)
  {
    ghost var ms := AltMatches(ratio, query, alts);
    bestAlt := NoMatch;
    var i := 0;
    while i < |alts|
      invariant 0 <= i <= |alts|
      invariant Best(ms, NoMatch) == Best(ms[i..], bestAlt)
    {
      var m := FindBestMatch(ratio, query, alts[i]);
      assert ms[i..][0] == m && ms[i..][1..] == ms[i + 1..];
      if m.ratio > bestAlt.ratio {
        bestAlt := m;
      }
      i := i + 1;
    }
  }

  /** The loop that looks for the alternate name containing the best alternate match. */
  method FindContaining(alts: seq<string>, word: string) returns (r: Option<string>)
    ensures r == FirstContaining(alts, word)
  {
    var j := 0;
    while j < |alts|
      invariant 0 <= j <= |alts|
      invariant FirstContaining(alts, word) == FirstContaining(alts[j..], word)
    {
      assert alts[j..][1..] == alts[j + 1..];
      if Contains(Lower(alts[j]), Lower(word)) {
        return Some(alts[j]);
      }
      j := j + 1;
    }
    return None;
  }

  /** One medication: the name match, the best alternate match, the bonuses and the choice of
      the name to show. */
  method ScoreMedication(ratio: Ratio, query: string, key: string, med: Medication) returns (c: Option<Candidate>)
    ensures c == Score(ratio, query, key, med)
  {
    var nameMatch := FindBestMatch(ratio, query, key);
    var nameRatio := nameMatch.ratio;
    var alts := med.alternateNames.GetOr([]);
    var bestAlt := FindBestAlt(ratio, query, alts);
    var altRatio := bestAlt.ratio;
    if StartsWithQuery(key, query) {
      nameRatio := nameRatio + 20;
    }
    if altRatio > 0 && StartsWithQuery(bestAlt.word, query) {
      altRatio := altRatio + 20;
    }
    assert nameRatio == NameScore(ratio, query, key);
    assert altRatio == AltScore(ratio, query, alts);
    c := None;
    if altRatio > nameRatio {
      if altRatio > 50 {
        var alt := FindContaining(alts, bestAlt.word);
        if alt.Some? {
          c := Some(Candidate(key, alt.value, altRatio));
        }
      }
    } else if nameRatio > 50 {
      c := Some(Candidate(key, key, nameRatio));
    }
  }

  // ----- Lookups -----

  /** The reply of /medication/<name>. */
  datatype Details = Details(name: string, description: string, alternateNames: seq<string>, mechanism: string)

  /** get_medication_details(name): looked up by the lower-cased name; a record without a
      mechanism_of_action raises, which Flask answers with a 500. */
  function MedicationDetails(index: Dict<string, Medication>, name: string): (r: Reply<Details>)
    ensures Get(index, Lower(name)).None? <==> r == Fail(404, "Medication not found")
    ensures r.Crash? <==> Get(index, Lower(name)).Some? && Get(index, Lower(name)).value.mechanism.None?
    ensures r.Ok? ==> Get(index, Lower(name)).Some? && Get(index, Lower(name)).value.mechanism.Some?
    ensures r.Ok? ==> var m := Get(index, Lower(name)).value;
      r.value == Details(m.name, m.description.GetOr(""), m.alternateNames.GetOr([]), m.mechanism.value)
  {
    match Get(index, Lower(name))
    case None => Fail(404, "Medication not found")
    case Some(m) =>
      match m.mechanism
      case None => Crash
      case Some(mech) => Ok(Details(m.name, m.description.GetOr(""), m.alternateNames.GetOr([]), mech))
  }

  /** The lookup ignores case: names that agree up to case get the same reply, found for the
      last record of medications.json with that name. */
  lemma MedicationLookupIgnoresCase(meds: seq<Medication>, a: string, b: string)
    requires Lower(a) == Lower(b)
    ensures MedicationDetails(MedicationIndex(meds), a) == MedicationDetails(MedicationIndex(meds), b)
    ensures Get(MedicationIndex(meds), Lower(a)) == LastWithKey(meds, LowerName, Lower(a))
  {
  }

  /** The id of a provider record as decoded from JSON. */
  datatype ProviderId = StrId(s: string) | NumId(n: int)

  datatype ProviderRecord = ProviderRecord(id: ProviderId, name: string, preferences: Option<PrefRender.PreferenceSet>)

  /** provider_data: the records keyed by their id, the last record winning. */
  function ProviderIndex(ps: seq<ProviderRecord>): Dict<ProviderId, ProviderRecord> {
    Comprehension(ps, (p: ProviderRecord) => p.id)
  }

  /** get_providers(): every record's id and name, in file order. */
  function Providers(ps: seq<ProviderRecord>): (r: seq<(ProviderId, string)>)
    ensures |r| == |ps|
    ensures forall i :: 0 <= i < |ps| ==> r[i] == (ps[i].id, ps[i].name)
  {
    seq(|ps|, i requires 0 <= i < |ps| => (ps[i].id, ps[i].name))
  }

  /** get_provider_details(provider_id): the URL segment is a string and is compared with the keys
      as it is; a record without preferences raises. */
  function ProviderDetails(index: Dict<ProviderId, ProviderRecord>, providerId: string): (r: Reply<PrefRender.PreferenceSet>)
    ensures Get(index, StrId(providerId)).None? <==> r == Fail(404, "Provider not found")
    ensures r.Crash? <==> Get(index, StrId(providerId)).Some? && Get(index, StrId(providerId)).value.preferences.None?
    ensures r.Ok? ==> Get(index, StrId(providerId)).Some? && r.value == Get(index, StrId(providerId)).value.preferences.value
  {
    match Get(index, StrId(providerId))
    case None => Fail(404, "Provider not found")
    case Some(p) =>
      match p.preferences
      case None => Crash
      case Some(prefs) => Ok(prefs)
  }

  /** The lookup is exact: it finds the last record whose id is that very string, and a provider
      whose id is a JSON number is never found. */
  lemma ProviderLookupExact(ps: seq<ProviderRecord>, providerId: string)
    ensures Get(ProviderIndex(ps), StrId(providerId)) == LastWithKey(ps, (p: ProviderRecord) => p.id, StrId(providerId))
    ensures (forall i :: 0 <= i < |ps| ==> ps[i].id.NumId?) ==>
      ProviderDetails(ProviderIndex(ps), providerId) == Fail(404, "Provider not found")
  {
    ComprehensionGet(ps, (p: ProviderRecord) => p.id, StrId(providerId));
    if forall i :: 0 <= i < |ps| ==> ps[i].id.NumId? {
      NoStrId(ps, StrId(providerId));
    }
  }

  lemma {:induction false} NoStrId(ps: seq<ProviderRecord>, k: ProviderId)
    requires k.StrId? && forall i :: 0 <= i < |ps| ==> ps[i].id.NumId?
    ensures LastWithKey(ps, (p: ProviderRecord) => p.id, k) == None
  {
    if ps != [] {
      NoStrId(ps[..|ps| - 1], k);
    }
  }

  // ----- The HPI generator -----

  const NoHistory := "with no significant past medical history"
  const HistoryOf := "with a past medical history of "
  const Dismissive: seq<string> := ["none", "no significant pmh", "n/a", ""]

  function FieldName(f: (string, Json)): string { f.0 }

  /** A JSON object as the dict Python builds from it: a repeated key keeps its last value. */
  function Fields(fields: seq<(string, Json)>): Dict<string, (string, Json)> {
    Comprehension(fields, FieldName)
  }

  /** The pmh_intro decision, for the stripped past medical history. */
  function PmhIntro(pmh: string): (r: string)
    ensures r == NoHistory <==> pmh == [] || Lower(pmh) in Dismissive
    ensures r != NoHistory ==> r == HistoryOf + pmh
  {
    if pmh != [] && Lower(pmh) !in Dismissive then
      assert (HistoryOf + pmh)[5] != NoHistory[5];
      HistoryOf + pmh
    else NoHistory
  }

  /**
   * generate_hpi_route for the body that request.get_json() returned (None when it returned
   * None): a falsy body is a 400; a body that is not an object, or a pastMedicalHistory that is not
   * a string, raises inside the handler's try and is answered with a 500. The reply is the
   * opening of the generated HPI.
   */
  function GenerateHpi(body: Option<Json>): (r: Reply<string>)
    ensures body.None? || !PyTruthy(body.value) <==> r == Fail(400, "No input data provided")
    ensures r.Ok? ==> body.Some? && body.value.JObject?
  {
    if body.None? || !PyTruthy(body.value) then Fail(400, "No input data provided")
    else if !body.value.JObject? then Fail(500, "An internal server error occurred")
    else match Get(Fields(body.value.fields), "pastMedicalHistory")
      case None => Ok(PmhIntro(""))
      case Some(f) =>
        if f.1.JStr? then Ok(PmhIntro(Trim(f.1.s, Python)))
        else Fail(500, "An internal server error occurred")
  }

  /** Without a pastMedicalHistory field the HPI opens "with no significant past medical history". */
  lemma HpiWithoutHistory(fields: seq<(string, Json)>)
    requires fields != [] && forall i :: 0 <= i < |fields| ==> fields[i].0 != "pastMedicalHistory"
    ensures GenerateHpi(Some(JObject(fields))) == Ok(NoHistory)
  {
    AbsentField(fields, "pastMedicalHistory");
  }

  /** With a string history (the last one given), an empty or blank history, or one of the
      dismissive words in any case, gives the "no significant" opening; anything else is quoted,
      stripped, after "with a past medical history of". */
  lemma HpiWithHistory(fields: seq<(string, Json)>, pmh: string)
    ensures var g := GenerateHpi(Some(JObject(fields + [("pastMedicalHistory", JStr(pmh))])));
      var p := Trim(pmh, Python);
      g == Ok(if p == [] || Lower(p) in Dismissive then NoHistory else HistoryOf + p)
  {
    var more := fields + [("pastMedicalHistory", JStr(pmh))];
    assert PyTruthy(JObject(more)) by { assert more != []; }
    LastField(fields, "pastMedicalHistory", JStr(pmh));
    var p := Trim(pmh, Python);
    assert GenerateHpi(Some(JObject(more))) == Ok(PmhIntro(p));
  }

  /** A history that is not a string makes .strip() raise: a 500. */
  lemma HpiHistoryNotString(fields: seq<(string, Json)>, pmh: Json)
    requires !pmh.JStr?
    ensures GenerateHpi(Some(JObject(fields + [("pastMedicalHistory", pmh)]))) == Fail(500, "An internal server error occurred")
  {
    LastField(fields, "pastMedicalHistory", pmh);
  }

  /** A key the object does not have is not found. */
  lemma AbsentField(fields: seq<(string, Json)>, k: string)
    requires forall i :: 0 <= i < |fields| ==> fields[i].0 != k
    ensures Get(Fields(fields), k) == None
  {
    ComprehensionGet(fields, FieldName, k);
    NoKey(fields, k);
  }

  /** The last field with a key is the one found. */
  lemma LastField(fields: seq<(string, Json)>, k: string, v: Json)
    ensures Get(Fields(fields + [(k, v)]), k) == Some((k, v))
  {
    var more := fields + [(k, v)];
    ComprehensionGet(more, FieldName, k);
    assert more[|more| - 1] == (k, v);
  }

  lemma {:induction false} NoKey(fields: seq<(string, Json)>, k: string)
    requires forall i :: 0 <= i < |fields| ==> fields[i].0 != k
    ensures LastWithKey(fields, FieldName, k) == None
  {
    if fields != [] {
      NoKey(fields[..|fields| - 1], k);
    }
  }
}
