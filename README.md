# archiai query pipeline, modelled in Dafny

archiai is a product-search assistant for architects. Its server exposes one route,
`POST /api/query`. The handler reads `query` from the body and answers 400 when it is missing
or falsy. Otherwise it asks a language model to extract search parameters as JSON and parses
them (`extractSearchParams`). It turns them into a MongoDB filter and fetches at most ten
products (`searchProducts`). Then it asks the model for a short reply to a prompt that reports
how many products were found (`generateAIResponse`). Any failure in these steps gives 500.

The model follows `archiai/server.js`:

- `outcomes.dfy` (module `Outcomes`): `Option`, `Result` (with the faults `TypeError`,
  `CastError`, `StorageUnavailable`) and `Outcome`, the result of an external call.
- `json.dfy` (module `Json`): parsed JSON values, `undefined`, JavaScript truthiness and
  property reads.
- `catalog.dfy` (module `Catalog`): products, the filter document, what a product must satisfy
  for each key, and `find(...).limit(10)` as "the first ten matches in catalog order".
- `query_builder.dfy` (module `QueryBuilder`): `searchProducts`. `BuildQuery` is the filter as
  a function. `SearchProducts` is the method that assigns the keys of an initially empty filter
  in place, as lines 84-93 do, and is proved equal to it.
- `synthesis.dfy` (module `Synthesis`): the prompt template, with the decimal rendering of the
  product count.
- `endpoint.dfy` (module `Endpoint`): the route handler, as a method over three oracles. The
  oracles are the language model (a system message and a user message give a failed request
  or the possibly-`null` content), `JSON.parse`, and the store (the catalog, or unreachable).
  It also returns the list of external calls it made.
- `fixture.dfy` (module `Fixture`): the sample catalog of `archiai/populate-db.js`, the lamp
  search over it, and an end-to-end scenario of the handler, checked by the verifier.

The model follows the code. The intended design differs from it in these places:

- When the model's output is not JSON, the design falls back to an unfiltered search. The
  code has no fallback: `JSON.parse` throws and the request gets 500 (`NoExtractionFallback`).
- The design drops the colour or material constraint when the list is empty. In the code,
  `[]` is truthy, so the filter gets `$in: []` and matches nothing (`EmptyArrayMatchesNothing`).
- In the code, a price, `min` or `max` of `0` is falsy and counts as absent. So `{min: 0, max: 200}`
  is an upper bound only, and a price of `0` is no constraint (`PriceUpperOnly`, `PriceIgnored`).
- The design fails the request when the synthesis reply is empty. The code returns whatever
  content the model gave, `null` included (`Answer.response` is an `Option`).
- A parsed value of JSON `null` makes `params.categoria` throw, so the request gets 500
  (`NullParamsFail`). A parsed string, number or array reads every key as `undefined`, which
  gives the empty filter (`NoKeysNoConstraints`).
- `dimensioni` is requested in the extraction instruction but never used by `searchProducts`.
  The model ignores it too.

## Model

| member | source | states |
|---|---|---|
| `Json.FalsyValues` | archiai/server.js:57 | a parsed value is falsy exactly when it is `null`, `false`, `0` or `""`; arrays and objects are always truthy |
| `Catalog.ContainsFoldedIff` | archiai/server.js:85 | the case-insensitive `$regex` search succeeds iff some window of the category equals the pattern up to ASCII case |
| `Catalog.CategoriaMatches` | archiai/server.js:85 | with no `categoria` key, every category is admitted; a string pattern admits exactly the categories with a window equal to it up to ASCII case (proved from `ContainsFoldedIff`) |
| `Catalog.InMatches` | archiai/server.js:86-87 | `$in: []` admits no product; a one-string list admits exactly the array fields that hold that string |
| `Catalog.PrezzoMatches` | archiai/server.js:89-92 | `{$gte: lo, $lte: hi}` admits exactly the prices that both `{$gte: lo}` and `{$lte: hi}` admit |
| `Catalog.Matches` | archiai/server.js:94 | the empty filter admits every product, and an empty `$in` list under `colore` or `materiale` admits none; a product satisfies a filter iff it satisfies every key present |
| `Catalog.MatchingIn` | archiai/server.js:94 | the filtered catalog holds only catalog products that satisfy every key, and every such product |
| `Catalog.MatchingInAppend` | archiai/server.js:94 | filtering keeps catalog order: filtering `a + b` is filtering `a` followed by filtering `b` |
| `Catalog.NothingMatches` | archiai/server.js:94 | a filter that no product satisfies selects nothing from any catalog |
| `Catalog.Find` | archiai/server.js:94 | an ill-typed operand gives `CastError` (the filter is cast before the store is contacted); otherwise an unreachable store gives `StorageUnavailable`, and a reachable one the first `min(10, n)` of the `n` matching products |
| `Catalog.FindSound` | archiai/server.js:94 | every product `find` returns is in the catalog and satisfies every key of the filter |
| `Catalog.FindComplete` | archiai/server.js:94 | when at most ten products match, every matching product is returned |
| `QueryBuilder.PriceBound` | archiai/server.js:88-93 | every installed lower bound is the truthy `min`; an upper bound is the truthy `max`, or else the price itself; no key iff neither bound is truthy and the price is not a number (branch by branch in the `Price*` lemmas) |
| `QueryBuilder.BuildQuery` | archiai/server.js:83-93 | the filter fails with `TypeError` iff the parameters are `null`; it has a `categoria`, `colore` or `materiale` key iff that parameter is truthy, and a `prezzo` key only if the price is truthy |
| `QueryBuilder.SearchProducts` | archiai/server.js:83-95 | assigning the keys in place one conditional at a time builds exactly `BuildQuery`'s filter; the store receives that filter, and the result is `Search` |
| `QueryBuilder.Search` | archiai/server.js:83-95 | `searchProducts` as a value: build the filter, then run `find`; its properties are `SearchResult` and `SearchFailure` |
| `QueryBuilder.NoKeysNoConstraints` | archiai/server.js:84-93 | parameters with no truthy key give the empty filter, which every product satisfies |
| `QueryBuilder.ArrayUsedAsIs` | archiai/server.js:86-87 | an array colour or material, empty or not, is installed as the `$in` list element for element, without wrapping |
| `QueryBuilder.ScalarIsMembership` | archiai/server.js:86-87 | a truthy string colour or material admits exactly the products whose colour or material list holds that string |
| `QueryBuilder.ScalarAsSingleton` | archiai/server.js:86-87 | a truthy non-array colour or material gives the same filter as the one-element array holding it |
| `QueryBuilder.EmptyArrayMatchesNothing` | archiai/server.js:86-87 | an empty array is used as the `$in` list as it is; no product then matches and a successful search returns nothing |
| `QueryBuilder.CategoriaIsFoldedSubstring` | archiai/server.js:85 | a truthy string category admits exactly the products whose category contains it, as literal text, up to case |
| `QueryBuilder.PriceBothBounds` | archiai/server.js:89 | a price object with truthy `min` and `max`, whatever other keys it has, gives the closed range `[min, max]` |
| `QueryBuilder.PriceLowerOnly` | archiai/server.js:90 | a truthy `min` with a missing or falsy `max` gives a lower bound only |
| `QueryBuilder.PriceUpperOnly` | archiai/server.js:91 | a truthy `max` with a missing or falsy `min` (such as 0) gives an upper bound only |
| `QueryBuilder.PriceNumberIsUpperBound` | archiai/server.js:92 | a non-zero number price is an upper bound equal to it |
| `QueryBuilder.PriceIgnored` | archiai/server.js:88-93 | no price key for a missing or falsy price, for a string, array or boolean price, or for an object whose `min` and `max` are both falsy |
| `QueryBuilder.SearchResult` | archiai/server.js:94 | a successful search returns at most ten catalog products, each satisfying the built filter, as a prefix of the filtered catalog in catalog order |
| `QueryBuilder.SearchFailure` | archiai/server.js:83-94 | a search fails iff the parameters are `null`, the store is unreachable or the filter has an ill-typed operand |
| `Synthesis.Decimal` | archiai/server.js:100 | the rendered count is a non-empty string of digits with no leading zero |
| `Synthesis.DecimalRoundTrip` | archiai/server.js:100 | reading back the rendered digits of `n` gives `n` |
| `Synthesis.DecimalInjective` | archiai/server.js:100 | different counts render differently |
| `Synthesis.Prompt` | archiai/server.js:98-102 | the template literal character for character; its properties are `PromptReportsCount`, `PromptQuotesQuery` and `PromptDeterminesCount` |
| `Synthesis.PromptReportsCount` | archiai/server.js:98-102 | with `N > 0` products the prompt contains "Trovati N prodotti."; with none it contains "Nessun prodotto trovato." |
| `Synthesis.PromptQuotesQuery` | archiai/server.js:99 | the prompt contains the user's question between double quotes |
| `Synthesis.PromptDeterminesCount` | archiai/server.js:98-102 | two different counts never give the same prompt for a question |
| `Endpoint.GenerateAIResponse` | archiai/server.js:97-111 | the model's answer to the prompt for the question and the number of products found; `SynthesisSeesOnlyCount` shows the request depends on the count only |
| `Endpoint.SynthesisSeesOnlyCount` | archiai/server.js:98-102 | two result lists of the same length give the same synthesis request, so the model is told the count, not the products (and, the oracle being a function of its messages, the same answer) |
| `Endpoint.HandleQuery` | archiai/server.js:55-68 | a missing or falsy query gives 400 "Query non specificata" and makes no external call. Otherwise it answers 200 exactly when extraction, search and synthesis all succeed, with body `{response, products}` after exactly three calls. Every other outcome is 500 "Errore nella richiesta" with no products. A failed extraction or `null` parameters stop after the extraction request; a failed search stops after the find request, before any synthesis request; a failed synthesis comes after all three calls |
| `Endpoint.NoExtractionFallback` | archiai/server.js:59-67 | when extraction or `JSON.parse` fails the request cannot complete: there is no fallback to an unfiltered search |
| `Endpoint.NullParamsFail` | archiai/server.js:80-85 | parameters that parse to JSON `null` make the request fail |
| `Endpoint.StorageFailureFails` | archiai/server.js:61 | an unreachable store fails every request that reaches the search |
| `Fixture.YellowLampFilterBuilt` | archiai/server.js:83-93 | `{categoria: "lampada", colore: "giallo", prezzo: {max: 200}}` becomes the regex "lampada", `$in: ["giallo"]` and `$lte: 200` |
| `Fixture.SeedLampSearch` | archiai/populate-db.js:36-143 | over the sample catalog the lamp search returns exactly Lampada Solair and Lampada Helios, in that order |
| `Fixture.LampOrTableSearch` | archiai/server.js:83-94 | over a catalog of Lampada Solair and Tavolo Minimal the lamp search returns exactly Lampada Solair |

## Left out

- The OpenAI completion calls (server.js lines 72-79 and 103-110) are an oracle: a failed request or the first choice's content. The reply text is opaque, and the model and request options are not modelled. The oracle is a fixed function of its two messages, so it does not capture that a sampled completion can answer the same request differently each time: equal requests give equal answers only in the model.
- `JSON.parse` (server.js line 80) is an oracle that gives a value or a failure.
- The Mongoose connection and schema declaration (server.js lines 27-52) and the real query engine are left out. Only the match semantics of the four filter keys is modelled.
- Catalog.Find: a pattern that is not a string, a `$in` element that is not a string, or a price bound that is not a number is reported as `CastError`. Mongoose would coerce some of these, such as a numeric string bound or a number colour; that casting is not modelled.
- Catalog.CategoriaMatches: the `$regex` pattern is read as literal text with ASCII case folding. Regular-expression metacharacters and Unicode case folding are not modelled.
- Catalog.Find: the store's result order is unspecified; the model uses catalog order.
- Catalog.Product: only the fields a filter reads (`categoria`, `colore`, `materiale`, `prezzo`) are kept, plus `nome` to identify products. The other schema fields pass through the store untouched.
- Json.Value: JavaScript numbers are modelled as exact reals. Comparisons agree for finite doubles, but a JSON literal that overflows, such as `1e999`, parses to `Infinity` in JavaScript (so `{prezzo: 1e999}` gives `$lte: Infinity`, which admits every product); the model cannot represent it, nor rounding of long decimal literals.
- Endpoint.HandleQuery: a truthy `query` that is not a string is modelled as a completion request the provider refuses (500). The provider's array-of-content-parts message form, which it would accept, is not modelled.
- `console.error` logging in the catch block, Express middleware, static serving, the `/` route and `listen` (server.js lines 13-21 and 114-116) are HTTP plumbing and are left out.
- archiai/populate-db.js is a seeding script; only its sample products are used, as a fixture. archiai/public/js/main.js is browser UI glue and is not part of this model.
- Requests do not share state, so concurrency is not modelled.
