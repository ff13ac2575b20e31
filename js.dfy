/** JavaScript values as they reach this code: what a dataset attribute stores and how `!==` compares. */
module Js {

  /** The only kinds of value an id variable holds here: never assigned, cleared, or a string. */
  datatype JsValue = Undefined | Null | Text(s: string)

  /** `String(v)`: what `element.dataset.x = v` stores. */
  function DatasetString(v: JsValue): (r: string)
    ensures v.Text? ==> r == v.s
  {
    match v
    case Undefined => "undefined"
    case Null => "null"
    case Text(s) => s
  }

  /** `stored !== v` for a stored attribute string: only a string with the same characters is identical. */
  predicate StrictDiffers(stored: string, v: JsValue) {
    !(v.Text? && v.s == stored)
  }

  /** Storing a value in a dataset attribute and comparing it back with `!==` finds it unchanged
      exactly when it was a string: `undefined` and `null` are stored as the words. */
  lemma StoredComparesEqual(v: JsValue)
    ensures !StrictDiffers(DatasetString(v), v) <==> v.Text?
  {
  }
}
