/**
 * The user-facing message the chat store shows when loading or sending
 * messages fails (the catch blocks of `loadMessages` and `sendMessage` in
 * lib/store.ts). Both test the same conditions in the same order; only some
 * of the wording differs.
 */
module StoreErrors {
  import opened Wrappers
  import opened Text
  import opened ApiFailure
  import opened Precedence

  datatype Operation = LoadingMessages | SendingMessage

  /** Which branch of the catch block was taken. */
  datatype Notice =
    | Offline | NetworkDown | RateLimited | ServerFault | Forbidden | NotFound
    | Generic | Unreachable | Unclassified

  /** `error.code === 'ERR_NETWORK'` or a message mentioning "Network Error" or "network" (case-sensitive). */
  predicate IsNetworkFailure(e: Failure)
  {
    || e.code == "ERR_NETWORK"
    || (e.message.Some? && (Contains(e.message.value, "Network Error") || Contains(e.message.value, "network")))
  }

  /** The branch the catch block takes; `online` is `navigator.onLine` at the time of the failure. */
  function Classify(online: bool, e: Failure): Notice
  {
    if !online then Offline
    else if IsNetworkFailure(e) then NetworkDown
    else if e.response.Some? then
      var status := e.response.value.status;
      if status == 429 then RateLimited
      else if status >= 500 then ServerFault
      else if status == 403 then Forbidden
      else if status == 404 then NotFound
      else Generic
    else if e.request then Unreachable
    else Unclassified
  }

  /** The sentence that ends the offline, network and unreachable messages. */
  const CheckAndRetry := "Please check your " + "internet connection " + "and try again."

  /**
   * The message each branch assigns, for loading and for sending. The longer
   * messages are written as concatenations of their phrases, which keeps the
   * proofs that unfold them cheap.
   */
  function Wording(op: Operation, n: Notice): string
  {
    match n
    case Offline => "No network connection. " + CheckAndRetry
    case NetworkDown => "Network error. " + CheckAndRetry
    case RateLimited =>
      "You're " + (if op == LoadingMessages then "loading" else "sending")
      + " messages too quickly. " + "Please wait a moment " + "and try again."
    case ServerFault => "Our servers are " + "experiencing issues. " + "Please try again " + "in a moment."
    case Forbidden =>
      "You don't have " + "permission to "
      + (if op == LoadingMessages then "view this conversation." else "perform this action.")
    case NotFound => "The conversation " + "could not be found."
    case Generic => "Something went wrong. " + "Please try again."
    case Unreachable => "Unable to reach server. " + CheckAndRetry
    case Unclassified => if op == LoadingMessages then "Failed to load messages" else "Failed to send message"
  }

  /** Every branch has a message. */
  lemma WordingNonEmpty(op: Operation, n: Notice)
    ensures |Wording(op, n)| > 0
  {
  }

  /** The string the catch block passes to the auto-dismissing error setter: never empty. */
  function DescribeFailure(op: Operation, online: bool, e: Failure): (msg: string)
    ensures msg != ""
  {
    WordingNonEmpty(op, Classify(online, e));
    Wording(op, Classify(online, e))
  }

  /**
   * The precedence as a table: offline; network failure; 429; 5xx; 403; 404;
   * any other answered status; request sent without an answer.
   */
  function FailureRules(online: bool, e: Failure): (rules: seq<Rule<Notice>>)
    ensures |rules| == 8
  {
    var answered := e.response.Some?;
    var status := if answered then e.response.value.status else 0;
    [ Rule(!online, Offline),
      Rule(IsNetworkFailure(e), NetworkDown),
      Rule(answered && status == 429, RateLimited),
      Rule(answered && status >= 500, ServerFault),
      Rule(answered && status == 403, Forbidden),
      Rule(answered && status == 404, NotFound),
      Rule(answered, Generic),
      Rule(e.request, Unreachable) ]
  }

  /** The catch block takes the first branch of the table whose condition holds. */
  lemma ClassifyIsFirstMatch(online: bool, e: Failure)
    ensures Classify(online, e) == Pick(FailureRules(online, e), Unclassified)
  {
    var rules := FailureRules(online, e);
    if !online { FirstMatchIs(rules, 0); }
    else if IsNetworkFailure(e) { FirstMatchIs(rules, 1); }
    else if e.response.Some? {
      var status := e.response.value.status;
      if status == 429 { FirstMatchIs(rules, 2); }
      else if status >= 500 { FirstMatchIs(rules, 3); }
      else if status == 403 { FirstMatchIs(rules, 4); }
      else if status == 404 { FirstMatchIs(rules, 5); }
      else { FirstMatchIs(rules, 6); }
    }
    else if e.request { FirstMatchIs(rules, 7); }
    else { FirstMatchIs(rules, 8); }
  }

  /**
   * For the same failure, loading and sending take the same branch, and
   * their messages differ exactly in the 429 branch, the 403 branch and the
   * default one.
   */
  lemma LoadAndSendDifferOnlyInWording(online: bool, e: Failure)
    ensures var n := Classify(online, e);
      DescribeFailure(LoadingMessages, online, e) != DescribeFailure(SendingMessage, online, e)
      <==> n == RateLimited || n == Forbidden || n == Unclassified
  {
    var n := Classify(online, e);
    if n == RateLimited {
      assert Wording(LoadingMessages, n)[7] != Wording(SendingMessage, n)[7];
    } else if n == Forbidden {
      assert |Wording(LoadingMessages, n)| != |Wording(SendingMessage, n)|;
    } else if n == Unclassified {
      assert |Wording(LoadingMessages, n)| != |Wording(SendingMessage, n)|;
    }
  }
}
