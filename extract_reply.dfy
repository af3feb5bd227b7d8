/**
 * `extractAiResponse` of test-extract.js: when a reply from the webhook is
 * a JSON text, its `ai_response` (or else its `response`) field is shown
 * instead of the raw text.
 *
 * `JSON.parse` is a parameter: for a text it gives the two fields read as
 * strings, or says the text is malformed. Logging is left out.
 */
module ExtractReply {
  import opened Wrappers
  import opened Text

  /** What `JSON.parse` followed by the two field reads yields. */
  datatype Parse = Malformed | Parsed(aiResponse: Option<string>, response: Option<string>)

  /** The trimmed text looks like an object or an array. */
  predicate LooksLikeJson(trimmed: string)
  {
    StartsWith(trimmed, "{") || StartsWith(trimmed, "[")
  }

  /**
   * `extractAiResponse(content)`: the parse sees the trimmed text, but every
   * fallback returns `content` as it came, surrounding spaces included.
   */
  function ExtractAiResponse(content: string, parse: string -> Parse): (r: string)
    ensures !LooksLikeJson(Trim(content)) ==> r == content
    ensures LooksLikeJson(Trim(content)) && parse(Trim(content)).Malformed? ==> r == content
    ensures LooksLikeJson(Trim(content)) && parse(Trim(content)).Parsed? ==>
      var p := parse(Trim(content));
      r == if Truthy(p.aiResponse) then p.aiResponse.value
           else if Truthy(p.response) then p.response.value
           else content
  {
    var trimmed := Trim(content);
    if LooksLikeJson(trimmed) then
      match parse(trimmed)
      case Malformed => content
      case Parsed(ai, resp) =>
        if Truthy(ai) then ai.value
        else if Truthy(resp) then resp.value
        else content
    else content
  }

  /**
   * The result is the raw content or a non-empty field of a JSON reply;
   * it differs from the content only when the content is JSON-like text
   * the parser accepts.
   */
  lemma ResultIsContentOrField(content: string, parse: string -> Parse)
    ensures var r := ExtractAiResponse(content, parse);
      r == content
      || (LooksLikeJson(Trim(content)) && parse(Trim(content)).Parsed?
          && (Some(r) == parse(Trim(content)).aiResponse || Some(r) == parse(Trim(content)).response) && r != "")
  {
  }

  /** `ai_response` takes precedence over `response` whenever both are set. */
  lemma AiResponseWins(content: string, parse: string -> Parse, ai: string, resp: string)
    requires LooksLikeJson(Trim(content))
    requires parse(Trim(content)) == Parsed(Some(ai), Some(resp))
    requires ai != ""
    ensures ExtractAiResponse(content, parse) == ai
  {
  }

  /** An empty `ai_response` counts as missing. */
  lemma EmptyAiResponseFallsThrough(content: string, parse: string -> Parse, resp: string)
    requires LooksLikeJson(Trim(content))
    requires parse(Trim(content)) == Parsed(Some(""), Some(resp))
    ensures ExtractAiResponse(content, parse) == if resp != "" then resp else content
  {
  }

  /** Leading spaces do not stop a JSON reply from being read, but do survive a fallback. */
  lemma LeadingSpaceStillParsed(body: string, parse: string -> Parse)
    requires StartsWith(body, "{") && !IsWhitespace(body[|body| - 1])
    requires parse(body).Malformed?
    ensures ExtractAiResponse(" " + body, parse) == " " + body
  {
    var s := " " + body;
    assert body[0] == '{' && !IsWhitespace(body[0]);
    assert s[0] == ' ' && s[1..] == body;
    assert TrimStart(s) == body;
    assert TrimEnd(body) == body;
    assert Trim(s) == body;
  }

  // Longer literals are written as concatenations of short phrases: a proof that
  // unfolds one long literal costs the solver far more than one over its pieces.
  /** The first sample: a one-line JSON text from the webhook. */
  const Sample1Reply := "I'm your Nigerian " + "tax consultant " + "for 2026."
  const Sample1 := "{\"status\":\"reply\", " + "\"ai_response\":\"" + Sample1Reply + "\"}"

  /** The second sample: the same shape spread over several lines. */
  const Sample2Reply := "Hello there!"
  const Sample2 := "{\n  \"status\": " + "\"reply\",\n  " + "\"ai_response\": \"" + Sample2Reply + "\"\n}"

  /** The third sample: plain text. */
  const Sample3 := "Just plain text " + "response"

  lemma Sample1YieldsItsReply(parse: string -> Parse)
    requires parse(Sample1) == Parsed(Some(Sample1Reply), None)
    ensures ExtractAiResponse(Sample1, parse) == Sample1Reply
  {
    assert Sample1[0] == '{' && Sample1[|Sample1| - 1] == '}';
    assert Trim(Sample1) == Sample1;
    assert Sample1[..1] == "{";
  }

  lemma Sample2YieldsItsReply(parse: string -> Parse)
    requires parse(Sample2) == Parsed(Some(Sample2Reply), None)
    ensures ExtractAiResponse(Sample2, parse) == Sample2Reply
  {
    assert Sample2[0] == '{' && Sample2[|Sample2| - 1] == '}';
    assert Trim(Sample2) == Sample2;
    assert Sample2[..1] == "{";
  }

  /** Whatever the parser would say, plain text is returned as it is. */
  lemma Sample3IsReturnedAsIs(parse: string -> Parse)
    ensures ExtractAiResponse(Sample3, parse) == Sample3
  {
    assert Sample3[0] == 'J' && Sample3[|Sample3| - 1] == 'e';
    assert Trim(Sample3) == Sample3;
    assert Sample3[..1] != "{" && Sample3[..1] != "[";
  }
}
