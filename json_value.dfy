/**
 * The values `JSON.stringify` writes and `JSON.parse` reads, and the text
 * kept under a key of `localStorage`.  The model does not spell out JSON
 * syntax: stored text is either the text of some JSON value (which
 * `JSON.parse` turns back into exactly that value) or text that
 * `JSON.parse` rejects.
 */
module JsonValue {
  import opened Wrappers

  datatype Json =
    | JNull
    | JBool(b: bool)
    | JNum(n: real)
    | JStr(s: string)
    | JArr(items: seq<Json>)
    | JObj(fields: map<string, Json>)

  datatype StoredText =
    | Text(json: Json)       // the text JSON.stringify(json) writes
    | Unparsable(raw: string) // text on which JSON.parse throws

  /**
   * Truthiness of the stored text (`if (localStorage.getItem(k))`): only
   * the empty string is falsy, and no JSON text is empty.
   */
  predicate IsFalsyText(t: StoredText) {
    t == Unparsable("")
  }

  /** JavaScript truthiness of a parsed value. */
  predicate Truthy(j: Json) {
    match j
    case JNull => false
    case JBool(b) => b
    case JNum(n) => n != 0.0
    case JStr(s) => s != ""
    case _ => true
  }

  /** The string under key `k` of an object's fields, if there is one. */
  function StrField(f: map<string, Json>, k: string): Option<string> {
    if k in f && f[k].JStr? then Some(f[k].s) else None
  }
}
