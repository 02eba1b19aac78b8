/**
 * `call_llm_api` (Support/bin/llm_common.py) as a whole: build the request,
 * hand it to the network, interpret what comes back. The network is a
 * parameter: a function from the request to the way the exchange ends.
 */
module LlmCall {
  import opened Wrappers
  import opened LlmRequest
  import opened LlmResponse

  function CallLlmApi(endpoint: string, model: string, apiKey: Option<string>,
                      systemPrompt: string, emailContent: string,
                      exchange: Request -> Exchange): (r: Result<Option<string>, ApiFailure>)
    ensures var req := BuildRequest(endpoint, model, apiKey, systemPrompt, emailContent);
            && ((r.Failure? && r.error.ApiError?) <==> exchange(req).HttpStatus?)
            && ((r.Failure? && r.error.ConnectionError?) <==> exchange(req).TransportFailure?)
            && (r.Success? ==> exchange(req).Delivered?)
            && (exchange(req).HttpStatus? ==>
                  && r.error.code == exchange(req).code
                  && r.error.body == if exchange(req).errorBody.Some? then exchange(req).errorBody.value else "")
            && (exchange(req).TransportFailure? ==> r.error.reason == exchange(req).reason)
            && (exchange(req).Delivered? ==> r == FirstChoiceContent(exchange(req).response))
  {
    Outcome(exchange(BuildRequest(endpoint, model, apiKey, systemPrompt, emailContent)))
  }

  /** Two long emails that agree on their first 30000 characters get the same result. */
  lemma CallLooksAtPrefixOnly(endpoint: string, model: string, apiKey: Option<string>,
                              systemPrompt: string, e1: string, e2: string,
                              exchange: Request -> Exchange)
    requires |e1| > MaxChars && |e2| > MaxChars
    requires e1[..MaxChars] == e2[..MaxChars]
    ensures CallLlmApi(endpoint, model, apiKey, systemPrompt, e1, exchange)
         == CallLlmApi(endpoint, model, apiKey, systemPrompt, e2, exchange)
  {
  }

  /** Emails within the budget reach the network unchanged: distinct short emails make distinct requests. */
  lemma ShortEmailsReachNetworkIntact(endpoint: string, model: string, apiKey: Option<string>,
                                      systemPrompt: string, e1: string, e2: string)
    requires |e1| <= MaxChars && |e2| <= MaxChars
    requires BuildRequest(endpoint, model, apiKey, systemPrompt, e1)
          == BuildRequest(endpoint, model, apiKey, systemPrompt, e2)
    ensures e1 == e2
  {
  }
}
