/** The `POST /api/query` route (server.js lines 55-68) and the two helper calls it awaits,
    `extractSearchParams` (lines 71-81) and `generateAIResponse` (lines 97-111). The language
    model, `JSON.parse` and the store are supplied as oracles. */
module Endpoint {
  import opened Outcomes
  import opened Json
  import opened Catalog
  import opened QueryBuilder
  import opened Synthesis

  const MissingQuery := "Query non specificata"
  const RequestFailed := "Errore nella richiesta"

  /** The system message of the extraction request (line 75). */
  const ExtractionInstruction :=
    "Estrai parametri (categoria, colore, materiale, prezzo, dimensioni) in formato JSON dalla richiesta dell'utente."
  /** The system message of the synthesis request (line 106). */
  const AssistantRole := "Sei un assistente professionale per architetti."

  /** A chat completion for a system message and a user message: a failed request, or the
      content of the first choice, which may be `null`. */
  type Llm = (string, string) -> Outcome<Option<string>>
  /** `JSON.parse` on a text: the parsed value, or a thrown `SyntaxError`. */
  type Parser = string -> Outcome<Value>

  datatype Body =
    | ErrorBody(error: string)
    | Answer(response: Option<string>, products: seq<Product>)

  datatype HttpReply = HttpReply(status: nat, body: Body)

  /** The external calls a request issues, in order. `FindProducts` is the call to
      `Product.find` itself: it is made, with the filter as built, whether or not the
      filter then fails its cast against the schema. */
  datatype Call =
    | Extraction(content: Value)
    | FindProducts(filter: Query)
    | SynthesisRequest(prompt: string)

  /** `extractSearchParams(userQuery)`: ask the model, then parse its content. A `null`
      content reaches `JSON.parse` as the text "null". */
  function ExtractSearchParams(userQuery: string, llm: Llm, parse: Parser): (r: Outcome<Value>)
    ensures llm(ExtractionInstruction, userQuery).Failed? ==> r.Failed?
    ensures llm(ExtractionInstruction, userQuery) == Ok(None) ==> r == parse("null")
    ensures llm(ExtractionInstruction, userQuery).Ok? && llm(ExtractionInstruction, userQuery).value.Some? ==>
              r == parse(llm(ExtractionInstruction, userQuery).value.value)
  {
    match llm(ExtractionInstruction, userQuery)
    case Failed => Failed
    case Ok(content) => parse(if content.Some? then content.value else "null")
  }

  /** `generateAIResponse(userQuery, products)`: the model's answer to the prompt that
      reports how many products were found. */
  function GenerateAIResponse(userQuery: string, products: seq<Product>, llm: Llm): Outcome<Option<string>> {
    llm(AssistantRole, Prompt(userQuery, |products|))
  }

  /** Every awaited step of the `try` block succeeds for the question `userQuery`. */
  ghost predicate Completes(userQuery: string, llm: Llm, parse: Parser, store: Outcome<seq<Product>>) {
    var params := ExtractSearchParams(userQuery, llm, parse);
    && params.Ok?
    && Search(params.value, store).Success?
    && GenerateAIResponse(userQuery, Search(params.value, store).value, llm).Ok?
  }

  /** The route handler. `query` is `req.body.query`. A query that is not a string is
      modelled as a completion request the model provider refuses. */
  method HandleQuery(query: Prop, llm: Llm, parse: Parser, store: Outcome<seq<Product>>)
    returns (reply: HttpReply, calls: seq<Call>)
    // a missing or falsy query: 400, and nothing external is called
    ensures !Present(query) <==> reply == HttpReply(400, ErrorBody(MissingQuery))
    ensures !Present(query) ==> calls == []
    // otherwise the extraction request is the first call
    ensures Present(query) ==> |calls| >= 1 && calls[0] == Extraction(query.value)
    // 200 exactly when every step succeeds; any failure is the same 500 with no products
    ensures reply.status == 200 <==>
              Present(query) && query.value.JStr? && Completes(query.value.s, llm, parse, store)
    ensures Present(query) && reply.status != 200 ==> reply == HttpReply(500, ErrorBody(RequestFailed))
    ensures reply.status == 200 || reply.status == 400 || reply.status == 500
    ensures reply.status != 200 ==> reply.body.ErrorBody?
    ensures |calls| <= 3
    // a query that is not a string, a failed extraction or parameters that parse to `null`:
    // 500 before any search or synthesis request goes out
    ensures Present(query) && (!query.value.JStr? || !ExtractSearchParams(query.value.s, llm, parse).Ok? ||
                               ExtractSearchParams(query.value.s, llm, parse) == Ok(JNull)) ==>
              reply == HttpReply(500, ErrorBody(RequestFailed)) && calls == [Extraction(query.value)]
    // a failed search after the filter is built: the find request goes out, the synthesis request does not
    ensures Present(query) && query.value.JStr? && ExtractSearchParams(query.value.s, llm, parse).Ok? ==>
              var params := ExtractSearchParams(query.value.s, llm, parse).value;
              !params.JNull? && Search(params, store).Failure? ==>
                reply == HttpReply(500, ErrorBody(RequestFailed)) &&
                calls == [Extraction(query.value), FindProducts(BuildQuery(params).value)]
    // a failed synthesis request: 500, after all three calls
    ensures Present(query) && query.value.JStr? && ExtractSearchParams(query.value.s, llm, parse).Ok? ==>
              var text := query.value.s;
              var params := ExtractSearchParams(text, llm, parse).value;
              Search(params, store).Success? && GenerateAIResponse(text, Search(params, store).value, llm).Failed? ==>
                reply == HttpReply(500, ErrorBody(RequestFailed)) &&
                calls == [Extraction(query.value), FindProducts(BuildQuery(params).value),
                          SynthesisRequest(Prompt(text, |Search(params, store).value|))]
    // on success: the model's answer and the search result, after exactly three calls
    ensures Present(query) && query.value.JStr? && Completes(query.value.s, llm, parse, store) ==>
              var text := query.value.s;
              var params := ExtractSearchParams(text, llm, parse).value;
              var found := Search(params, store).value;
              && reply.body == Answer(GenerateAIResponse(text, found, llm).value, found)
              && calls == [Extraction(query.value), FindProducts(BuildQuery(params).value),
                           SynthesisRequest(Prompt(text, |found|))]
              && |found| <= Limit
              && forall i :: 0 <= i < |found| ==> Matches(found[i], BuildQuery(params).value)
  {
    if !Present(query) {
      return HttpReply(400, ErrorBody(MissingQuery)), [];
    }
    // the catch block's reply, returned by every step that fails
    reply := HttpReply(500, ErrorBody(RequestFailed));
    calls := [Extraction(query.value)];
    if !query.value.JStr? {
      return;
    }
    var text := query.value.s;
    var params := ExtractSearchParams(text, llm, parse);
    if params.Failed? {
      return;
    }
    var filter, found := SearchProducts(params.value, store);
    if filter.Some? {
      calls := calls + [FindProducts(filter.value)];
    }
    if found.Failure? {
      return;
    }
    SearchResult(params.value, store);
    var prompt := Prompt(text, |found.value|);
    calls := calls + [SynthesisRequest(prompt)];
    var aiResponse := llm(AssistantRole, prompt);
    if aiResponse.Failed? {
      return;
    }
    reply := HttpReply(200, Answer(aiResponse.value, found.value));
  }

  /** No fallback: when the model's answer is not valid JSON the request fails, even though
      an unfiltered search would have succeeded. */
  lemma NoExtractionFallback(userQuery: string, llm: Llm, parse: Parser, store: Outcome<seq<Product>>)
    requires ExtractSearchParams(userQuery, llm, parse).Failed?
    ensures !Completes(userQuery, llm, parse, store)
  {
  }

  /** A model answer of JSON `null` also fails the request: reading `params.categoria` throws. */
  lemma NullParamsFail(userQuery: string, llm: Llm, parse: Parser, store: Outcome<seq<Product>>)
    requires ExtractSearchParams(userQuery, llm, parse) == Ok(JNull)
    ensures !Completes(userQuery, llm, parse, store)
  {
  }

  /** The synthesis request sees the number of products found, not the products: two
      result lists of the same length give the same request, and so the same answer from
      an oracle that is a function of its messages. */
  lemma SynthesisSeesOnlyCount(userQuery: string, a: seq<Product>, b: seq<Product>, llm: Llm)
    requires |a| == |b|
    ensures SynthesisRequest(Prompt(userQuery, |a|)) == SynthesisRequest(Prompt(userQuery, |b|))
    ensures GenerateAIResponse(userQuery, a, llm) == GenerateAIResponse(userQuery, b, llm)
  {
  }

  /** A store that cannot be reached fails every request that gets as far as the search. */
  lemma StorageFailureFails(userQuery: string, llm: Llm, parse: Parser)
    ensures !Completes(userQuery, llm, parse, Failed)
  {
  }
}
