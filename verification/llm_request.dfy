/**
 * The part of `call_llm_api` (Support/bin/llm_common.py) that runs before the
 * network call: the request headers, the truncation of the email text and
 * the chat-completion payload.
 */
module LlmRequest {
  import opened Wrappers

  const ContentTypeHeader: string := "Content-Type"
  const AuthorizationHeader: string := "Authorization"
  const JsonMediaType: string := "application/json"
  const BearerPrefix: string := "Bearer "

  /** Python's truth value of the `api_key` argument: neither `None` nor the empty string. */
  predicate Truthy(apiKey: Option<string>)
    ensures Truthy(apiKey) <==> apiKey.Some? && |apiKey.value| > 0
  {
    apiKey.Some? && apiKey.value != ""
  }

  /** The HTTP headers of the request: always a JSON content type, a bearer token only for a truthy key. */
  function Headers(apiKey: Option<string>): (h: map<string, string>)
    ensures ContentTypeHeader in h && h[ContentTypeHeader] == JsonMediaType
    ensures AuthorizationHeader in h <==> Truthy(apiKey)
    ensures h.Keys <= {ContentTypeHeader, AuthorizationHeader}
  {
    var base := map[ContentTypeHeader := JsonMediaType];
    if Truthy(apiKey) then base[AuthorizationHeader := BearerPrefix + apiKey.value] else base
  }

  /** The key a server reads from the headers: what follows `Bearer ` in the Authorization entry. */
  function BearerToken(h: map<string, string>): Option<string>
  {
    if AuthorizationHeader in h
       && |BearerPrefix| <= |h[AuthorizationHeader]|
       && h[AuthorizationHeader][..|BearerPrefix|] == BearerPrefix
    then Some(h[AuthorizationHeader][|BearerPrefix|..])
    else None
  }

  /** The server recovers exactly the key that was given, and no key when it was `None` or empty. */
  lemma BearerTokenRoundTrip(apiKey: Option<string>)
    ensures BearerToken(Headers(apiKey)) == if Truthy(apiKey) then apiKey else None
  {
  }

  /** The character budget for the email text. */
  const MaxChars: nat := 30000

  /** The visible marker appended to a truncated email. */
  const TruncationMarker: string := "\n\n[... truncated due to length ...]"

  /** Email text over the budget is cut to its first `MaxChars` characters and marked. */
  function Truncate(email: string): (r: string)
    ensures |email| <= MaxChars ==> r == email
    ensures |email| > MaxChars ==> |r| == MaxChars + |TruncationMarker| && r[MaxChars..] == TruncationMarker
  {
    if |email| > MaxChars then email[..MaxChars] + TruncationMarker else email
  }

  function Min(a: nat, b: nat): nat
  {
    if a <= b then a else b
  }

  /** Short text passes through; long text becomes exactly the budget's worth of it followed by the marker. */
  lemma TruncateShape(email: string)
    ensures |email| <= MaxChars ==> Truncate(email) == email
    ensures |email| > MaxChars ==>
      && |Truncate(email)| == MaxChars + |TruncationMarker|
      && Truncate(email)[..MaxChars] == email[..MaxChars]
      && Truncate(email)[MaxChars..] == TruncationMarker
  {
  }

  /** The marker is 35 characters long, so no request carries more than 30035 characters of email. */
  lemma TruncateBounded(email: string)
    ensures |TruncationMarker| == 35
    ensures |Truncate(email)| <= MaxChars + 35
  {
  }

  /** The first `min(len, MaxChars)` characters of the email always lead the result. */
  lemma TruncateKeepsPrefix(email: string)
    ensures var k := Min(|email|, MaxChars);
            k <= |Truncate(email)| && Truncate(email)[..k] == email[..k]
  {
  }

  /** Truncating an already truncated text changes nothing. */
  lemma TruncateIdempotent(email: string)
    ensures Truncate(Truncate(email)) == Truncate(email)
  {
  }

  /** The truncated text depends on a long email only through its first `MaxChars` characters. */
  lemma TruncateLooksAtPrefixOnly(e1: string, e2: string)
    requires |e1| > MaxChars && |e2| > MaxChars
    requires e1[..MaxChars] == e2[..MaxChars]
    ensures Truncate(e1) == Truncate(e2)
  {
  }

  datatype Role = System | User

  /** The role name as it appears in the JSON payload. */
  function RoleName(role: Role): string
  {
    match role
    case System => "system"
    case User => "user"
  }

  datatype ChatMessage = ChatMessage(role: Role, content: string)

  /** A decimal constant `mantissa` times ten to the power minus `exponent`; it stands for a float literal. */
  datatype DecimalTag = DecimalTag(mantissa: nat, exponent: nat)

  const MaxCompletionTokens: nat := 256

  /** The sampling temperature 0.1, carried as a tag: the model does no floating-point arithmetic. */
  const Temperature: DecimalTag := DecimalTag(1, 1)

  /** The JSON body of a chat-completion request, as a record. */
  datatype Payload = Payload(model: string, messages: seq<ChatMessage>, maxCompletionTokens: nat, temperature: DecimalTag)

  /** The request body: the system prompt first, the (possibly truncated) email second. */
  function BuildPayload(model: string, systemPrompt: string, emailContent: string): (p: Payload)
    ensures p.model == model
    ensures |p.messages| == 2
    ensures p.messages[0].role == System && p.messages[0].content == systemPrompt
    ensures p.messages[1].role == User && p.messages[1].content == Truncate(emailContent)
    ensures p.maxCompletionTokens == 256 && p.temperature == DecimalTag(1, 1)
    ensures RoleName(p.messages[0].role) == "system" && RoleName(p.messages[1].role) == "user"
  {
    Payload(model,
            [ChatMessage(System, systemPrompt), ChatMessage(User, Truncate(emailContent))],
            MaxCompletionTokens,
            Temperature)
  }

  /** The user message of every payload fits the budget and starts with the email's own text. */
  lemma PayloadCarriesEmail(model: string, systemPrompt: string, emailContent: string)
    ensures var user := BuildPayload(model, systemPrompt, emailContent).messages[1].content;
            var k := Min(|emailContent|, MaxChars);
            && |user| <= MaxChars + |TruncationMarker|
            && k <= |user| && user[..k] == emailContent[..k]
            && (|emailContent| <= MaxChars ==> user == emailContent)
  {
  }

  /** The HTTP request handed to the network: a POST of the payload with the headers above. */
  datatype Request = Request(endpoint: string, httpMethod: string, headers: map<string, string>, payload: Payload)

  function BuildRequest(endpoint: string, model: string, apiKey: Option<string>,
                        systemPrompt: string, emailContent: string): (req: Request)
    ensures req.endpoint == endpoint && req.httpMethod == "POST"
    // The next three clauses follow from the last two and the contracts of
    // Headers, BuildPayload and BearerTokenRoundTrip; they are spelled out for callers.
    ensures BearerToken(req.headers) == if Truthy(apiKey) then apiKey else None
    ensures ContentTypeHeader in req.headers && req.headers[ContentTypeHeader] == JsonMediaType
    ensures |req.payload.messages| == 2 && req.payload.messages[1].content == Truncate(emailContent)
    ensures req.headers == Headers(apiKey)
    ensures req.payload == BuildPayload(model, systemPrompt, emailContent)
  {
    BearerTokenRoundTrip(apiKey);
    Request(endpoint, "POST", Headers(apiKey), BuildPayload(model, systemPrompt, emailContent))
  }
}
