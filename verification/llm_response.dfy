/**
 * The part of `call_llm_api` (Support/bin/llm_common.py) that runs after the
 * network call: picking the answer out of an OpenAI-compatible response and
 * turning HTTP-status and transport failures into the two exceptions it raises.
 */
module LlmResponse {
  import opened Wrappers
  import opened DecimalText

  /** The `content` field of a response message: absent, JSON `null`, or text. */
  datatype Content = MissingContent | NullContent | TextContent(text: string)

  /** A response message; only its `content` field is read. */
  datatype ResponseMessage = ResponseMessage(content: Content)

  /** One element of `choices`; `message` is `None` when the key is absent. */
  datatype Choice = Choice(message: Option<ResponseMessage>)

  /** The decoded JSON response; `choices` is `None` when the key is absent. */
  datatype ParsedResponse = ParsedResponse(choices: Option<seq<Choice>>)

  /**
   * What the network call ends in: a decoded response, an HTTP error status
   * (with the error body, `None` when the error has no body stream), or a
   * failure to send the request (urllib's `URLError`) with its reason.
   */
  datatype Exchange =
    | Delivered(response: ParsedResponse)
    | HttpStatus(code: nat, errorBody: Option<string>)
    | TransportFailure(reason: string)

  /**
   * The exceptions `call_llm_api` lets escape: the "API error" and
   * "Connection error" exceptions it raises itself, and the key lookup error
   * from a first choice that lacks `message` or `content`.
   */
  datatype ApiFailure =
    | ApiError(code: nat, body: string)
    | ConnectionError(reason: string)
    | MissingKey(key: string)

  const ApiErrorPrefix: string := "API error "
  const ConnectionErrorPrefix: string := "Connection error: "

  /** The message text of the raised exception. */
  function ErrorText(f: ApiFailure): (text: string)
    ensures f.ApiError? ==> ParseApiErrorText(text) == Some((f.code, f.body))
    ensures f.ConnectionError? ==>
      && |ConnectionErrorPrefix| <= |text|
      && text[..|ConnectionErrorPrefix|] == ConnectionErrorPrefix
      && text[|ConnectionErrorPrefix|..] == f.reason
    ensures f.MissingKey? ==>
      && |text| == |f.key| + 2 && text[1..|text| - 1] == f.key
      && text[0] == '\'' && text[|text| - 1] == '\''
  {
    match f
    case ApiError(code, body) =>
      ApiErrorTextRoundTrip(code, body);
      ApiErrorPrefix + NatToString(code) + ": " + body
    case ConnectionError(reason) => ConnectionErrorPrefix + reason
    case MissingKey(key) => "'" + key + "'"
  }

  /** The answer in a decoded response: the first choice's content, or `None` when there is no choice. */
  function FirstChoiceContent(resp: ParsedResponse): (r: Result<Option<string>, ApiFailure>)
    ensures (resp.choices.None? || resp.choices.value == []) ==> r == Success(None)
    ensures r.Success? && r.value.Some? <==>
      && resp.choices.Some? && |resp.choices.value| > 0
      && resp.choices.value[0].message.Some?
      && resp.choices.value[0].message.value.content.TextContent?
    ensures r.Success? && r.value.Some? ==> r.value.value == resp.choices.value[0].message.value.content.text
    ensures r.Failure? ==> r.error.MissingKey?
    ensures resp.choices.Some? && |resp.choices.value| > 0 ==>
      var first := resp.choices.value[0];
      && (first.message.None? ==> r == Failure(MissingKey("message")))
      && (first.message.Some? && first.message.value.content.MissingContent? ==> r == Failure(MissingKey("content")))
      && (first.message.Some? && first.message.value.content.NullContent? ==> r == Success(None))
  {
    match resp.choices
    case None => Success(None)
    case Some(choices) =>
      if |choices| == 0 then Success(None)
      else
        match choices[0].message
        case None => Failure(MissingKey("message"))
        case Some(m) =>
          match m.content
          case MissingContent => Failure(MissingKey("content"))
          case NullContent => Success(None)
          case TextContent(t) => Success(Some(t))
  }

  /** The result of the call for each way the network exchange can end. */
  function Outcome(x: Exchange): (r: Result<Option<string>, ApiFailure>)
    ensures (r.Failure? && r.error.ApiError?) <==> x.HttpStatus?
    ensures (r.Failure? && r.error.ConnectionError?) <==> x.TransportFailure?
    ensures x.HttpStatus? ==> r.error.code == x.code
    ensures x.HttpStatus? ==> r.error.body == if x.errorBody.Some? then x.errorBody.value else ""
    ensures x.TransportFailure? ==> r.error.reason == x.reason
    ensures x.Delivered? ==> r == FirstChoiceContent(x.response)
  {
    match x
    case Delivered(resp) => FirstChoiceContent(resp)
    case HttpStatus(code, errorBody) => Failure(ApiError(code, if errorBody.Some? then errorBody.value else ""))
    case TransportFailure(reason) => Failure(ConnectionError(reason))
  }

  /** Choices after the first one never influence the answer. */
  lemma OnlyFirstChoiceMatters(first: Choice, more: seq<Choice>)
    ensures FirstChoiceContent(ParsedResponse(Some([first] + more)))
         == FirstChoiceContent(ParsedResponse(Some([first])))
  {
  }

  /** Splits `s` into its longest prefix of decimal digits and the remainder. */
  function SplitDigits(s: string): (parts: (string, string))
    ensures parts.0 + parts.1 == s && AllDigits(parts.0)
    ensures parts.1 == [] || !IsDigit(parts.1[0])
  {
    if s != [] && IsDigit(s[0]) then
      var (d, t) := SplitDigits(s[1..]);
      ([s[0]] + d, t)
    else
      ([], s)
  }

  lemma {:induction false} SplitDigitsAfterDigits(d: string, t: string)
    requires AllDigits(d)
    requires t == [] || !IsDigit(t[0])
    ensures SplitDigits(d + t) == (d, t)
  {
    if d == [] {
      assert d + t == t;
    } else {
      assert (d + t)[0] == d[0];
      assert (d + t)[1..] == d[1..] + t;
      SplitDigitsAfterDigits(d[1..], t);
      assert [d[0]] + d[1..] == d;
    }
  }

  /**
   * Reads the status code and body back from the text of an "API error"
   * exception; the code must be in canonical decimal form (no leading zero).
   */
  function ParseApiErrorText(m: string): Option<(nat, string)>
  {
    if |m| < |ApiErrorPrefix| || m[..|ApiErrorPrefix|] != ApiErrorPrefix then None
    else
      var (d, t) := SplitDigits(m[|ApiErrorPrefix|..]);
      if d == [] || (d[0] == '0' && |d| > 1) || |t| < 2 || t[..2] != ": " then None
      else Some((ParseNat(d), t[2..]))
  }

  /** The text of an "API error" exception determines its status code and body. */
  lemma ApiErrorTextRoundTrip(code: nat, body: string)
    ensures ParseApiErrorText(ApiErrorPrefix + NatToString(code) + ": " + body) == Some((code, body))
  {
    var digits := NatToString(code);
    var m := ApiErrorPrefix + NatToString(code) + ": " + body;
    assert m == ApiErrorPrefix + (digits + (": " + body));
    assert m[..|ApiErrorPrefix|] == ApiErrorPrefix;
    assert m[|ApiErrorPrefix|..] == digits + (": " + body);
    SplitDigitsAfterDigits(digits, ": " + body);
    ParseNatToString(code);
    assert (": " + body)[2..] == body;
  }

  /** The two raised failures never share a message: a connection error never reads as an API error. */
  lemma ErrorTextsDistinct(code: nat, body: string, reason: string)
    ensures ErrorText(ApiError(code, body)) != ErrorText(ConnectionError(reason))
    ensures ParseApiErrorText(ErrorText(ConnectionError(reason))) == None
  {
    assert ErrorText(ApiError(code, body))[0] == 'A';
    assert ErrorText(ConnectionError(reason))[0] == 'C';
  }

  /** A response whose one choice says "SAFE" yields "SAFE". */
  lemma SafeResponseExample()
    ensures Outcome(Delivered(ParsedResponse(Some([Choice(Some(ResponseMessage(TextContent("SAFE"))))]))))
         == Success(Some("SAFE"))
  {
  }

  /** An empty `choices` list yields no answer, not an error. */
  lemma EmptyChoicesExample()
    ensures Outcome(Delivered(ParsedResponse(Some([])))) == Success(None)
  {
  }

  /** A 429 status with body "rate limited" raises "API error 429: rate limited". */
  lemma RateLimitedExample()
    ensures var r := Outcome(HttpStatus(429, Some("rate limited")));
            r.Failure? && ErrorText(r.error) == "API error 429: rate limited"
  {
    assert NatToString(4) == "4";
    assert NatToString(42) == "42";
    assert NatToString(429) == "429";
  }
}
