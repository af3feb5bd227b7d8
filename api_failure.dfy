/**
 * What a failed request looks like to the core: the fields of an HTTP
 * client error that the catch blocks inspect. A field the thrown value does
 * not have is the empty string, `None` or `false`.
 */
module ApiFailure {
  import opened Wrappers

  /** The server's answer carried by the error: its status and body fields. */
  datatype ServerReply = ServerReply(status: int, message: Option<string>, error: Option<string>)

  datatype Failure = Failure(
    name: string,                 // `err.name`, e.g. "AbortError"
    code: string,                 // `err.code`, e.g. "ERR_NETWORK"
    message: Option<string>,      // `err.message`
    response: Option<ServerReply>, // `err.response`: the server answered
    request: bool                 // `err.request`: the request went out
  )

  /** `error.response?.data?.message || fallback`. */
  function ServerMessageOr(e: Failure, fallback: string): (r: string)
    ensures e.response.Some? && Truthy(e.response.value.message) ==> r == e.response.value.message.value
    ensures !(e.response.Some? && Truthy(e.response.value.message)) ==> r == fallback
    ensures fallback != "" ==> r != ""
  {
    if e.response.Some? && Truthy(e.response.value.message) then e.response.value.message.value else fallback
  }
}

/** Error handlers that test conditions in a fixed order and take the first that holds. */
module Precedence {

  /** One branch of an if / else-if chain: its condition and what it yields. */
  datatype Rule<M> = Rule(applies: bool, outcome: M)

  /** The index of the first rule that applies, or `|rules|` when none does. */
  function FirstMatch<M>(rules: seq<Rule<M>>): (k: nat)
    ensures k <= |rules|
    ensures k < |rules| ==> rules[k].applies
    ensures forall j :: 0 <= j < k ==> !rules[j].applies
  {
    if rules == [] then 0
    else if rules[0].applies then 0
    else 1 + FirstMatch(rules[1..])
  }

  /** A rule that applies with none applying before it is the first match. */
  lemma FirstMatchIs<M>(rules: seq<Rule<M>>, k: nat)
    requires k <= |rules|
    requires k < |rules| ==> rules[k].applies
    requires forall j :: 0 <= j < k ==> !rules[j].applies
    ensures FirstMatch(rules) == k
  {
  }

  /** What the first rule that applies yields, else `fallback`. */
  function Pick<M>(rules: seq<Rule<M>>, fallback: M): M
  {
    var k := FirstMatch(rules);
    if k < |rules| then rules[k].outcome else fallback
  }
}
