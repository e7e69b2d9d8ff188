/** The optional value used wherever the scraper may get "nothing" back:
    a DOM query that matches no element, an extractor that yields no record. */
module Wrappers {

  datatype Option<+T> = None | Some(value: T)
}

/** The JavaScript values a scraped record holds, and the record itself. */
module Values {
  import opened Wrappers

  /** A field value as the script sees it: `undefined` (a key the object
      does not have), `null` (a locator that matched nothing) or text. */
  datatype JsValue = Undefined | Null | Str(text: string)

  /** A flat record: field name to value. Key order is not modelled. */
  type Record = map<string, JsValue>

  /** `obj[key]`: the stored value, or `undefined` for a missing key. */
  function Get(r: Record, key: string): (v: JsValue)
  {
    if key in r then r[key] else Undefined
  }

  /** `element ? element.innerText : null`: the text a locator found,
      or `null` when it found no element. */
  function Cell(found: Option<string>): (v: JsValue)
  {
    match found
    case None => Null
    case Some(text) => Str(text)
  }

  /** `data && !Object.values(data).includes(null)`: the extractor returned
      a record and none of its values is `null` (`includes` compares
      strictly, so `undefined` values do not make a record incomplete). */
  predicate Complete(data: Option<Record>)
  {
    data.Some? && Null !in data.value.Values
  }

  /** The decimal text of a natural number, as a template literal
      `${n}` renders an integer. */
  function DecimalString(n: nat): (s: string)
    ensures |s| >= 1
    ensures forall i :: 0 <= i < |s| ==> '0' <= s[i] <= '9'
    decreases n
  {
    if n < 10 then [DigitChar(n)] else DecimalString(n / 10) + [DigitChar(n % 10)]
  }

  function DigitChar(d: nat): (c: char)
    requires d < 10
    ensures '0' <= c <= '9'
  {
    "0123456789"[d]
  }
}
