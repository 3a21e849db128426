/** The few JavaScript runtime notions the source relies on. */
module Js {
  import opened Wrappers

  /** A value thrown by `throw`: an `Error` object carrying a message, or anything else. */
  datatype Thrown = Error(message: string) | NonError

  /** JavaScript truthiness of a `string | null | undefined` value: present and non-empty. */
  predicate Truthy(v: Option<string>) {
    v.Some? && v.value != ""
  }

  /** JavaScript truthiness of a `number | null` timestamp: present and different from 0. */
  predicate TruthyNumber(v: Option<int>) {
    v.Some? && v.value != 0
  }

  /** The expression `v || fallback` on a possibly absent string. */
  function Or(v: Option<string>, fallback: string): (r: string)
    ensures r == fallback || Truthy(v)
    ensures fallback != "" ==> r != ""
  {
    if Truthy(v) then v.value else fallback
  }

  /** The expression `error instanceof Error ? error.message : fallback`. */
  function MessageOf(e: Thrown, fallback: string): (message: string) {
    match e
    case Error(m) => m
    case NonError => fallback
  }
}
