/**
 * A parsed JSON value and the few JavaScript runtime rules the generators rely on:
 * `typeof`, `Array.isArray`, `Number.isInteger`, `Object.entries` and object spread.
 */
module JsonValues {

  /** The value `JSON.parse` returns. Object members are listed in `Object.entries` order. */
  datatype Json =
    | JNull
    | JBool(b: bool)
    | JNum(n: real)
    | JStr(s: string)
    | JArr(elems: seq<Json>)
    | JObj(members: seq<(string, Json)>)

  /** A TypeError or a thrown Error; each generator words these messages itself. */
  datatype Failure =
    | EntriesOfNull   // Object.entries(null) throws a TypeError
    | RootIsArray
    | RootNotObject

  /** `typeof v === 'object'`, which holds for null and for arrays too. */
  predicate IsObjectType(v: Json)
  {
    v.JNull? || v.JArr? || v.JObj?
  }

  /** `Number.isInteger(x)` on a finite number. */
  predicate IsInteger(x: real)
  {
    x.Floor as real == x
  }

  /** `Array.isArray(v) && v.length > 0 && typeof v[0] === 'object'`. */
  predicate IsArrayOfObjects(v: Json)
  {
    v.JArr? && |v.elems| > 0 && IsObjectType(v.elems[0])
  }

  /** `v !== null && typeof v === 'object' && !Array.isArray(v)`. */
  predicate IsNestedObject(v: Json)
  {
    v.JObj?
  }

  predicate EntryIsArrayOfObjects(e: (string, Json))
  {
    IsArrayOfObjects(e.1)
  }

  predicate EntryIsNestedObject(e: (string, Json))
  {
    IsNestedObject(e.1)
  }

  function DigitChar(d: nat): char
    requires d < 10
  {
    (48 + d) as char
  }

  /** `String(n)` for a natural number: its decimal digits. */
  function DecimalString(n: nat): (r: string)
    ensures |r| > 0
    ensures forall i :: 0 <= i < |r| ==> '0' <= r[i] <= '9'
  {
    if n < 10 then [DigitChar(n)] else DecimalString(n / 10) + [DigitChar(n % 10)]
  }

  /** Index keys `from`, `from + 1`, ... paired with the elements. */
  function IndexEntries(xs: seq<Json>, from: nat): (es: seq<(string, Json)>)
    ensures |es| == |xs|
  {
    if xs == [] then [] else [(DecimalString(from), xs[0])] + IndexEntries(xs[1..], from + 1)
  }

  /**
   * The own enumerable properties of a value, as `Object.entries` and `{...v}` see them:
   * the members of an object, the index keys of an array, none for null.
   * (`Object.entries(null)` throws instead; callers check `JNull` first.) Both generators
   * only ever pass values whose `typeof` is 'object', so strings, numbers and booleans
   * never reach it; they are given no entries.
   */
  function Entries(v: Json): (es: seq<(string, Json)>)
    ensures v.JArr? ==> |es| == |v.elems|
  {
    match v
    case JObj(members) => members
    case JArr(xs) => IndexEntries(xs, 0)
    case _ => []
  }

  predicate HasKey(es: seq<(string, Json)>, k: string)
  {
    exists i :: 0 <= i < |es| && es[i].0 == k
  }

  /**
   * `{...obj, [k]: v}` on entries: an existing member `k` keeps its place and takes
   * the value `v`; otherwise `k` comes last.
   */
  function WithEntry(es: seq<(string, Json)>, k: string, v: Json): (r: seq<(string, Json)>)
    ensures (k, v) in r
    ensures HasKey(es, k) ==> |r| == |es|
    ensures !HasKey(es, k) ==> r == es + [(k, v)]
    ensures forall i :: 0 <= i < |es| && es[i].0 != k ==> r[i] == es[i]
  {
    if HasKey(es, k) then
      var r := seq(|es|, i requires 0 <= i < |es| => if es[i].0 == k then (k, v) else es[i]);
      assert forall j :: 0 <= j < |es| && es[j].0 == k ==> r[j] == (k, v);
      r
    else
      es + [(k, v)]
  }
}
