# LLM MailGuard helpers — a Dafny model

This project models the decision logic of `Support/bin/llm_common.py`, the
helper module of a MailMate bundle that sends an email to an OpenAI-compatible
chat-completion API to classify threats, asks the user through an AppleScript
dialog whether to move a flagged message to Junk, and hands the mail client a
list of action directives. The module is mostly glue around `osascript`, the
macOS `security` tool, a JSON file and `urllib`. The model keeps the pure
parts and turns every effect into an input:

- `AppleScriptText` (`applescript.dfy`): `escape_for_applescript`, written as the
  source writes it (two chained one-character replacements). It comes with a
  single-pass reference definition and a reader for AppleScript string
  literals, which plays the part of the AppleScript compiler.
- `ThreatDialog` (`threat_dialog.dfy`): the message and title literals of
  `show_threat_dialog`, and its yes/no decision. The script's result is an
  `Option<string>`, with `None` for a failed or cancelled dialog. As in the
  source, the reason and title are escaped and the threat type is not.
- `LlmRequest` (`llm_request.dfy`): the request prefix of `call_llm_api`:
  - the headers, a `map<string, string>`;
  - the 30000-character truncation with its fixed marker;
  - the payload record with two messages, a token cap of 256 and temperature 0.1;
  - the POST request value.
- `LlmResponse` (`llm_response.dfy`): what `call_llm_api` does with the result of
  the network call. The decoded JSON response is a datatype. The outcome is a
  `Result` of an optional answer or one of three failures:
  - the "API error" exception;
  - the "Connection error" exception;
  - the key lookup error of a malformed first choice.
  It also gives the text of each exception.
- `DecimalText` (`decimal_text.dfy`): decimal rendering of the status code in
  the "API error" message.
- `LlmCall` (`llm_call.dfy`): `call_llm_api` as a whole, with the network as a
  function parameter from request to exchange outcome.
- `MailActions` (`mail_actions.dfy`): `move_to_junk_action` and the envelope
  value built by `output_actions`.
- `Wrappers` (`wrappers.dfy`): `Option` and `Result`.

The AppleScript literal reader accepts the escape sequences `\\`, `\"`, `\n`,
`\t` and `\r`. Any other escape, a trailing backslash or a missing closing
quote counts as a syntax error. Raw line breaks inside a literal are ordinary
characters, as in the dialog text of `show_threat_dialog`.

## Model

| member | source | states |
|---|---|---|
| `AppleScriptText.ReplaceChar` | Support/bin/llm_common.py:43-44 | `str.replace` with a one-character pattern leaves a string without that character unchanged |
| `AppleScriptText.Escape` | Support/bin/llm_common.py:41-45 | the two chained replacements, backslashes doubled first and quotes escaped second; a string with neither a backslash nor a double quote comes back unchanged (its other properties are the lemmas below) |
| `AppleScriptText.ReplaceCharAppend` | Support/bin/llm_common.py:43-44 | replacing a one-character pattern distributes over concatenation |
| `AppleScriptText.EscapeIsPerCharacter` | Support/bin/llm_common.py:41-45 | the two chained replacements (backslashes first, then quotes) equal escaping each character on its own: `\` becomes `\\`, `"` becomes `\"`, every other character stays |
| `AppleScriptText.EscapeAppend` | Support/bin/llm_common.py:41-45 | escaping distributes over concatenation |
| `AppleScriptText.EscapeLength` | Support/bin/llm_common.py:43-44 | escaped length = input length + number of backslashes + number of double quotes |
| `AppleScriptText.ReadEscaped` | Support/bin/llm_common.py:41-45 | reading escaped text followed by any literal text yields the original text in front of what the rest reads as |
| `AppleScriptText.LiteralRoundTrip` | Support/bin/llm_common.py:41-45 | an escaped string between quotes reads back as the original string, and the literal ends at the closing quote whatever follows: no character of the input can end it early |
| `AppleScriptText.EscapeInjective` | Support/bin/llm_common.py:41-45 | distinct inputs escape to distinct outputs |
| `AppleScriptText.QuotesFirstBreaksLiteral` | Support/bin/llm_common.py:43-44 | with the two replacements swapped, `"` would become `\\"`, which reads as a backslash followed by the end of the literal; the source's order is what makes the round trip hold |
| `DecimalText.NatToString` | Support/bin/llm_common.py:200 | the rendered status code is a non-empty string of digits with a leading zero only for zero |
| `DecimalText.ParseNatToString` | Support/bin/llm_common.py:200 | reading the rendered status code back gives the code |
| `DecimalText.NatToStringInjective` | Support/bin/llm_common.py:200 | distinct status codes render differently |
| `ThreatDialog.MoveChosen` | Support/bin/llm_common.py:92-93 | the dialog answers "move" exactly when its result is the string "Move to Junk" |
| `ThreatDialog.KeepOrFailureNeverMoves` | Support/bin/llm_common.py:92-93 | a failed or cancelled dialog (`None`) and the "Keep" button both give false |
| `ThreatDialog.PromptLiteral` | Support/bin/llm_common.py:79-88 | the message literal starts with the threat type exactly as given (unescaped), and everything after it is the escape of blank line, "Reason: " + reason, blank line, "Move to Junk folder?"; it ends with that question |
| `ThreatDialog.TitleReadsBack` | Support/bin/llm_common.py:80-88 | `TitleLiteral` (the escaped title) reads back as the title for every title, and ends at its closing quote whatever follows |
| `ThreatDialog.PromptReadsBack` | Support/bin/llm_common.py:79-88 | for a threat type without backslash or quote, the message literal reads back as threat type, blank line, "Reason: " + reason, blank line, "Move to Junk folder?", for every reason |
| `ThreatDialog.QuoteInThreatTypeEndsLiteral` | Support/bin/llm_common.py:79-86 | a threat type of one double quote closes the message literal at once; the rest of the prompt is read as script text |
| `LlmRequest.Truthy` | Support/bin/llm_common.py:169 | the `if api_key:` test: a key is truthy exactly when it is present and non-empty |
| `LlmRequest.Headers` | Support/bin/llm_common.py:165-170 | the headers always map Content-Type to application/json, hold Authorization exactly when the key is truthy (neither `None` nor empty), and hold no other entry |
| `LlmRequest.BearerTokenRoundTrip` | Support/bin/llm_common.py:169-170 | the text after "Bearer " in Authorization is exactly the key when it is truthy; otherwise there is no token |
| `LlmRequest.Truncate` | Support/bin/llm_common.py:173-175 | content of at most 30000 characters is unchanged; longer content gives exactly 30000 + marker-length characters ending in the marker |
| `LlmRequest.TruncateShape` | Support/bin/llm_common.py:173-175 | content of at most 30000 characters passes unchanged; longer content becomes exactly 30000 + marker-length characters, its first 30000 characters followed by the marker |
| `LlmRequest.TruncateBounded` | Support/bin/llm_common.py:173-175 | the marker has 35 characters, so the truncated text never exceeds 30035 characters |
| `LlmRequest.TruncateKeepsPrefix` | Support/bin/llm_common.py:173-175 | the first min(len, 30000) characters of the content lead the result in both cases |
| `LlmRequest.TruncateIdempotent` | Support/bin/llm_common.py:173-175 | truncating twice is truncating once |
| `LlmRequest.TruncateLooksAtPrefixOnly` | Support/bin/llm_common.py:173-175 | two over-long contents that share their first 30000 characters truncate to the same text |
| `LlmRequest.BuildPayload` | Support/bin/llm_common.py:177-185 | the payload names the model, has exactly two messages (system prompt first, then the possibly truncated email with role user), a token cap of 256 and temperature 0.1; the roles are named "system" and "user" in the JSON |
| `LlmRequest.PayloadCarriesEmail` | Support/bin/llm_common.py:173-185 | the user message never exceeds 30035 characters, starts with the email's first min(len, 30000) characters and is the email itself when it fits |
| `LlmRequest.BuildRequest` | Support/bin/llm_common.py:163-189 | the request is a POST to the endpoint whose headers are exactly those of `Headers` (JSON content type, and a bearer token that yields back exactly the truthy key) and whose payload is exactly that of `BuildPayload`, with the truncated email as the user message |
| `LlmResponse.FirstChoiceContent` | Support/bin/llm_common.py:195-197 | a missing or empty `choices` gives `None`; otherwise, for the first choice: a missing `message` fails with the key error for "message", a missing `content` with the key error for "content", a JSON null content gives `None`, and text content gives that text (and only then is there text); the only failure is a missing key |
| `LlmResponse.Outcome` | Support/bin/llm_common.py:191-202 | an HTTP status failure, and only it, yields the API error with that code and the body (empty without one); a transport failure (urllib's `URLError`), and only it, yields the connection error with its reason; a delivered response yields the first choice's content |
| `LlmResponse.OnlyFirstChoiceMatters` | Support/bin/llm_common.py:195-196 | choices after the first never change the answer |
| `LlmResponse.ErrorText` | Support/bin/llm_common.py:198-202 | the exception texts: an API error's text reads back as its code, in canonical decimal form, and its body; a connection error's text is "Connection error: " followed by the reason; a key error's text is the key between single quotes |
| `LlmResponse.ApiErrorTextRoundTrip` | Support/bin/llm_common.py:198-200 | the text "API error {code}: {body}" determines code and body: a reader that accepts only canonical decimal codes gives both back |
| `LlmResponse.ErrorTextsDistinct` | Support/bin/llm_common.py:198-202 | an API error and a connection error never have the same message, and a connection error's message never reads as an API error |
| `LlmResponse.SafeResponseExample` | Support/bin/llm_common.py:195-196 | a response whose single choice has content "SAFE" yields "SAFE" |
| `LlmResponse.EmptyChoicesExample` | Support/bin/llm_common.py:195-197 | an empty `choices` list yields `None`, not an error |
| `LlmResponse.RateLimitedExample` | Support/bin/llm_common.py:198-200 | status 429 with body "rate limited" raises "API error 429: rate limited" |
| `LlmCall.CallLlmApi` | Support/bin/llm_common.py:163-202 | with the network's answer to the built request: an HTTP status, and only it, fails with an API error carrying that code and the body (empty without one); a transport failure (urllib's `URLError`), and only it, fails with a connection error carrying its reason; a delivered response gives the first choice's content as `FirstChoiceContent` defines it |
| `LlmCall.CallLooksAtPrefixOnly` | Support/bin/llm_common.py:173-175 | two over-long emails that share their first 30000 characters get the same result from the same network |
| `LlmCall.ShortEmailsReachNetworkIntact` | Support/bin/llm_common.py:173-185 | distinct emails of at most 30000 characters always produce distinct requests |
| `MailActions.MoveToJunkAction` | Support/bin/llm_common.py:212-214 | the action has exactly the keys `type` and `mailboxType`, mapped to "moveMessage" and "junk" |
| `MailActions.OutputActions` | Support/bin/llm_common.py:205-209 | the envelope holds the given actions in order, and an empty list when the argument is missing |
| `MailActions.DefaultIsEmptyList` | Support/bin/llm_common.py:207-208 | calling without an argument equals passing an empty list |
| `MailActions.MoveToJunkEnvelope` | Support/bin/llm_common.py:205-214 | one junk move gives an envelope holding exactly that directive |

## Left out

- `run_applescript`, `show_alert`, `show_dialog` and the rest of the AppleScript script text (Support/bin/llm_common.py:26-74): these are `osascript` subprocess calls. Only the escaping, the threat dialog's two literals and its final comparison are modelled. The dialog's result is an input.
- `get_api_key_from_keychain` and `save_api_key_to_keychain`: these call the macOS `security` tool, and the OS keychain decides their outcome.
- `load_config` and `save_config`: filesystem I/O and the `json` library; a round trip would only restate that library.
- The HTTP request itself, its 60-second timeout, `json.dumps` of the payload and `json.loads` of the response. The network is a function parameter, and the decoded response is a datatype. A body that is not valid JSON, or not UTF-8, raises a decoding error that the model does not represent.
- The temperature 0.1 is a float. It is carried as the tag `DecimalTag(1, 1)`, with no arithmetic on it.
- `LlmResponse.FirstChoiceContent`: the decoded response is modelled as a JSON object whose `choices`, when present, is a list of objects. JSON shapes outside that are not modelled. In the source they behave as follows:
  - a top-level list without the element "choices" returns `None`, and one with it raises a type error;
  - a top-level string is tested for the substring "choices": without it the call returns `None`, with it a type error is raised;
  - a top-level `null`, number or boolean raises a type error at the membership test on line 195;
  - a `choices` that is `null`, a number or a boolean raises a type error at the length test;
  - a `choices` that is an empty dict or an empty string returns `None`;
  - a `choices` that is a non-empty dict raises a key error for `0`;
  - a `choices` that is a non-empty string raises a type error;
  - a first element that is not an object (a string, list, number, boolean or `null`) raises a type error;
  - a `message` that is not an object raises a type error;
  - a `content` of a JSON type other than string or null is returned as it is, and the model has no such value.
- `LlmResponse.Outcome`: the `TransportFailure` exchange stands for urllib's `URLError` only. Transport exceptions raised after the request has been sent are not represented; these escape `call_llm_api` unwrapped and never become "Connection error":
  - a timeout or `RemoteDisconnected` while waiting for the response;
  - a `TimeoutError` or `IncompleteRead` while reading the body.
- `LlmCall.CallLlmApi`: three more exceptions of the source are not represented. Each escapes `call_llm_api` as it is, and never becomes "API error" or "Connection error":
  - an endpoint without a URL scheme (for example the empty string, or a URL typed without `https://`) makes building the request raise a `ValueError` for an unknown URL type at line 189, outside the `try`;
  - a header value that the HTTP client rejects while sending raises a `ValueError` for an invalid header value (an API key with a line break) or a `UnicodeEncodeError` (a character outside Latin-1). urllib wraps only `OSError`s into `URLError`, so these pass through;
  - an HTTP error body that is not valid UTF-8 makes the decoding at line 199 raise a `UnicodeDecodeError` inside the handler, so no "API error" is raised.
- `LlmResponse.Outcome`: the "Connection error" reason is the `str()` of an exception object in the source. Here it is taken as an already rendered string. The HTTP error body is taken as already decoded text.
- Printing the envelope with `json.dumps`: only the envelope value is modelled.
- `MailActions.Action`: the source's actions are arbitrary JSON dictionaries. The model restricts them to string-to-string dictionaries, which covers the one action the module builds.
- Characters are Unicode scalar values, so Python strings holding lone surrogates are outside the model. Lengths count code points, as Python's `len` does.
