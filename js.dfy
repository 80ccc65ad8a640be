/** The few JavaScript runtime notions the handlers and the form depend on. */
module Js {

  /** A JavaScript value that may be `undefined`: a missing JSON field, an unset
      environment variable, an absent property of a provider reply. */
  datatype Maybe<+T> = Undefined | Defined(value: T)

  /** What a template literal `${v}` inserts for a string-or-undefined value. */
  function Text(v: Maybe<string>): (r: string)
    ensures v.Defined? ==> r == v.value
    ensures v.Undefined? ==> r == "undefined"
  {
    match v
    case Defined(s) => s
    case Undefined => "undefined"
  }

  /** The loose equality `a == b` between two values that are each a string or
      `undefined`: `undefined` equals only `undefined`, strings compare by content. */
  function LooseEquals(a: Maybe<string>, b: Maybe<string>): (r: bool)
    ensures r ==> a.Defined? == b.Defined?
    ensures a.Defined? && b.Defined? ==> (r <==> a.value == b.value)
    ensures a.Undefined? && b.Undefined? ==> r
  {
    a == b
  }

  /** Truthiness of a string-or-undefined value: defined and not empty. */
  predicate Truthy(v: Maybe<string>) {
    v.Defined? && v.value != ""
  }
}
