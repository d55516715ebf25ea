/** JavaScript truthiness of the optional fields the contexts test with `if (x)`,
    `!x` and `x || 0`. Numbers are exact reals: NaN is not modelled. */
module Js {
  import opened Wrappers

  /** A string field is truthy when it is defined and not empty. */
  predicate TruthyText(o: Option<string>) {
    o.Some? && o.value != ""
  }

  /** A number field is truthy when it is defined and not zero. */
  predicate TruthyNumber(o: Option<real>) {
    o.Some? && o.value != 0.0
  }

  /** `x || 0` for an optional number. */
  function NumberOrZero(o: Option<real>): (r: real)
    ensures TruthyNumber(o) ==> r == o.value
    ensures !TruthyNumber(o) ==> r == 0.0
  {
    if o.Some? then o.value else 0.0
  }

  /** A thrown `Error`: its `name` (`Error`, `TypeError`, `SyntaxError`, ...)
      and its `message`. */
  datatype Error = Error(name: string, message: string)

  /** `String(error)`, by `Error.prototype.toString`: the name and the message
      joined by `": "`, or whichever of the two is not empty. */
  function ErrorToString(e: Error): (r: string)
    ensures e.message == "" ==> r == e.name
    ensures e.message != "" ==> |r| >= |e.message| && r[|r| - |e.message|..] == e.message
    ensures e.name <= r
    ensures e.name != "" && e.message != "" ==> r == e.name + ": " + e.message
  {
    if e.message == "" then e.name
    else if e.name == "" then e.message
    else e.name + ": " + e.message
  }
}
