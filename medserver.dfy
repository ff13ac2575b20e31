/**
 * The Express server (server.js): the medications object read at start-up, the suggestion
 * pairs derived from its keys, and the two routes over them.
 */
module MedServer {
  import opened Common
  import opened Text
  import opened PyDict

  /** The medications object: its properties in key order, each key once. */
  type Medications = Dict<string, Json>

  function MemberName(f: (string, Json)): string { f.0 }

  /** The object JSON.parse builds from the members of medications.json, or {} when the file cannot
      be read or parsed (None). */
  function Load(file: Option<seq<(string, Json)>>): (m: Medications)
    ensures file.None? ==> m == []
    ensures DistinctKeys(m)
    ensures file.Some? ==> forall k :: Get(m, k) == LastWithKey(file.value, MemberName, k).Map(MemberValue)
  {
    match file
    case None => []
    case Some(fs) => ComprehensionValues(fs)
  }

  function MemberValue(f: (string, Json)): Json { f.1 }

  /** The comprehension of the members, keeping only the value under each key. */
  function ComprehensionValues(fs: seq<(string, Json)>): (m: Medications)
    ensures DistinctKeys(m)
    ensures forall k :: Get(m, k) == LastWithKey(fs, MemberName, k).Map(MemberValue)
    decreases |fs|
  {
    if fs == [] then []
    else
      var init := ComprehensionValues(fs[..|fs| - 1]);
      var f := fs[|fs| - 1];
      PutKeepsDistinct(init, f.0, f.1);
      forall k ensures Get(Put(init, f.0, f.1), k) == LastWithKey(fs, MemberName, k).Map(MemberValue) {
        PutGet(init, f.0, f.1, k);
      }
      Put(init, f.0, f.1)
  }

  /** updateSuggestionsList: `[name, name]` for every key, in key order. */
  function SuggestionsList(m: Medications): (r: seq<(string, string)>)
    ensures |r| == |m|
    ensures forall i :: 0 <= i < |r| ==> r[i].0 == m[i].0 && r[i].1 == r[i].0
  {
    seq(|m|, i requires 0 <= i < |m| => (m[i].0, m[i].0))
  }

  predicate NameIncludes(pair: (string, string), query: string) {
    Contains(Lower(pair.0), query)
  }

  function Matching(list: seq<(string, string)>, query: string): seq<(string, string)> {
    Filter(list, (pair: (string, string)) => NameIncludes(pair, query))
  }

  /** GET /suggestions for the `q` parameter (None when absent, where `toLowerCase` of undefined
      throws and Express answers 500). */
  function SuggestionsRoute(list: seq<(string, string)>, q: Option<string>): (r: Reply<seq<(string, string)>>)
    ensures r.Crash? <==> q.None?
    ensures r.Ok? <==> q.Some?
  {
    match q
    case None => Crash
    case Some(text) => Ok(Matching(list, Lower(text)))
  }

  /** The route returns exactly the suggestion pairs whose lower-cased name contains the lower-cased
      query, in key order; the empty query matches every pair. */
  lemma SuggestionsRouteSpec(list: seq<(string, string)>, q: string)
    ensures var r := SuggestionsRoute(list, Some(q));
      r.Ok? &&
      (forall p :: p in r.value <==> p in list && Contains(Lower(p.0), Lower(q))) &&
      IsSubsequence(r.value, list) &&
      (q == [] ==> r.value == list)
  {
    var keep := (pair: (string, string)) => NameIncludes(pair, Lower(q));
    FilterKeepsAllPassing(list, keep);
    FilterIsSubsequence(list, keep);
    if q == [] {
      forall p | p in list ensures keep(p) {
        assert OccursAt(Lower(p.0), Lower(q), 0);
      }
      FilterAllPass(list, keep);
    }
  }

  /** Every suggestion is a medication key paired with itself. */
  lemma SuggestionsArePairsOfKeys(m: Medications, q: string)
    ensures forall p :: p in SuggestionsRoute(SuggestionsList(m), Some(q)).value ==>
      p.0 == p.1 && Get(m, p.0).Some?
  {
    var list := SuggestionsList(m);
    forall p | p in SuggestionsRoute(list, Some(q)).value ensures p.0 == p.1 && Get(m, p.0).Some? {
      var i :| 0 <= i < |list| && list[i] == p;
      assert m[i].0 == p.0;
    }
  }

  /** GET /medication/:name: the property under exactly that key, when it is truthy. */
  function MedicationRoute(m: Medications, name: string): (r: Reply<Json>)
    ensures r.Ok? <==> Get(m, name).Some? && JsTruthy(Get(m, name).value)
    ensures r.Ok? ==> r.value == Get(m, name).value
    ensures !r.Ok? ==> r == Fail(404, "Medication not found")
  {
    match Get(m, name)
    case Some(med) =>
      if JsTruthy(med) then Ok(med) else Fail(404, "Medication not found")
    case None => Fail(404, "Medication not found")
  }

  /** The lookup is case-sensitive: a name equal to a key only up to case, which is not itself a
      key, is not found, while the key itself is. */
  lemma MedicationLookupIsExact(m: Medications, key: string, name: string, v: Json)
    requires Get(m, key) == Some(v) && JsTruthy(v)
    requires name != key && Lower(name) == Lower(key) && Get(m, name).None?
    ensures MedicationRoute(m, key) == Ok(v)
    ensures MedicationRoute(m, name) == Fail(404, "Medication not found")
  {
  }

  /** An instance: "aspirin" is not found in a file that only has "Aspirin". */
  lemma MedicationLookupExample()
    ensures var m: Medications := [("Aspirin", JObject([]))];
      MedicationRoute(m, "Aspirin") == Ok(JObject([])) &&
      MedicationRoute(m, "aspirin") == Fail(404, "Medication not found")
  {
    var m: Medications := [("Aspirin", JObject([]))];
    assert m[0].0 != "aspirin";
    assert Lower("aspirin") == Lower("Aspirin");
    MedicationLookupIsExact(m, "Aspirin", "aspirin", JObject([]));
  }
}
