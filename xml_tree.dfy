/**
 * The value the XML parser hands to the feed extractors (api/rss.js runs
 * it with attributes kept under an "@_" prefix), and the JavaScript
 * operations the extractors apply to it: truthiness, `||`, property
 * access, the "wrap a lone value into an array" step and `String(v)`.
 */
module XmlTree {

  /**
   * A parsed value. `Absent` is `undefined`; an element with children or
   * attributes is an `Obj` (its text under "#text"); a repeated element is
   * an `Arr`; a text-only element is a `Str`.
   */
  datatype Node = Absent | Str(s: string) | Obj(fields: map<string, Node>) | Arr(elems: seq<Node>)

  /** JavaScript truthiness: `undefined` and `''` are falsy, objects and arrays are truthy. */
  predicate Truthy(v: Node) {
    match v
    case Absent => false
    case Str(s) => s != ""
    case _ => true
  }

  /** `a || b`. */
  function Or(a: Node, b: Node): (r: Node)
    ensures Truthy(a) ==> r == a
    ensures !Truthy(a) ==> r == b
  {
    if Truthy(a) then a else b
  }

  /**
   * `v[key]` (and `v?.[key]`): a field of an object; `undefined` for a
   * missing field and for anything that is not an object. The parser never
   * puts `undefined` inside an object or array, so the plain and the
   * optional access agree on every parsed value.
   */
  function Get(v: Node, key: string): (r: Node)
    ensures !v.Obj? ==> r == Absent
  {
    if v.Obj? && key in v.fields then v.fields[key] else Absent
  }

  /** `let xs = v || []; if (!Array.isArray(xs)) xs = [xs];` */
  function ListOf(v: Node): (xs: seq<Node>)
    ensures !Truthy(v) ==> xs == []
    ensures v.Arr? ==> xs == v.elems
    ensures Truthy(v) && !v.Arr? ==> xs == [v]
  {
    var w := Or(v, Arr([]));
    if w.Arr? then w.elems else [w]
  }

  /** `String(v)`, as the `Date` constructor and `sanitize-html` see a value. */
  function ToJsString(v: Node): string
    decreases v, 1
  {
    match v
    case Absent => "undefined"
    case Str(s) => s
    case Obj(_) => "[object Object]"
    case Arr(xs) => JoinElements(v, 0)
  }

  /** `Array.prototype.join(',')` over the elements of `v` from `from` on. */
  function JoinElements(v: Node, from: nat): string
    requires v.Arr? && from <= |v.elems|
    decreases v, 0, |v.elems| - from
  {
    if from == |v.elems| then ""
    else
      var x := v.elems[from];
      var piece := if x.Absent? then "" else ToJsString(x);
      if from + 1 == |v.elems| then piece else piece + "," + JoinElements(v, from + 1)
  }
}
