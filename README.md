# Lookup Lambda: a Dafny model

This project models the lookup Lambda of the `mcp-practice` backend
(`backend/MCPLambda/src/index.ts`). An invocation event carries a `dataType`
tag (`customerPlanInfo`, `productInfo` or `knowledgeBase`) and the id property
that belongs to that tag (`customerId`, `productId` or `articleId`). The
handler checks the tag. It checks that the matching id is present and
non-empty. It indexes that category's map in a preloaded, read-only store. It
answers 200 with the stored record; 400 with the category's fixed missing-id
message, or `Invalid dataType: <dataType>` for an unknown tag; or 404 with a
message built from the tag and the id. Every answer carries the header
`Content-Type: application/json`.

The handler has no loops and no state it mutates, so the model is pure:

- `wrappers.dfy`: `Option`, for properties that may be `undefined`.
- `mcp_data.dfy` (module `McpData`): the three record types, the `Store` of
  three id-to-record maps, the `Category` enumeration with its tag and id-field
  names, and `Lookup`, which indexes one category's map.
- `mcp_lambda.dfy` (module `McpLambda`): the `Event`; the decision `Handle`
  (an `Outcome`: a found record or a `Failure`); `Render`, which shapes the
  decision into `{statusCode, headers, body}`; and `Invoke`, which composes the
  two. The module also holds `ParseErrorBody`, which reads an error body back
  into the failure it reports. Lemmas state each rule of the
  handler. The `Conforms` predicate states the whole contract declaratively.
  `Invoke`'s contract says that the handler's answer meets it, and the lemma
  `ConformingResponseIsHandlers` says that no other response does.

The store is a value parameter of `Handle`, so the model cannot write to it.
The lemmas `OnlyOwnMapConsulted` and `OnlyOwnIdFieldRead` show that only the
requested category's map and the requested category's id property are read.

The `catch` at line 158 turns exceptions into a 500 answer. But the event is
destructured at line 85, before the `try`, so a null event throws out of the
handler instead of producing 500. Nothing inside the `try` can throw for an
event and a store of the declared shapes. `Internal` is therefore a `Failure`
variant that `Render` shapes into the 500 body, and `Handle`'s contract proves
that the handler never returns it.

## Model

| member | source | states |
|---|---|---|
| `McpData.Lookup` | backend/MCPLambda/src/index.ts:102-128 | the lookup finds a record exactly when the id is a key of the requested category's map, and then returns that map's entry for the id |
| `McpData.TagAndFieldInjective` | backend/MCPLambda/src/index.ts:90-129 | distinct categories have distinct `dataType` tags (differing already in their first character) and distinct id-property names, so the switch arms cannot overlap |
| `McpData.LookupReadsOnlyItsSection` | backend/MCPLambda/src/index.ts:102-128 | a lookup gives the same answer on any two stores that hold the same map for the requested category |
| `McpLambda.Invoke` | backend/MCPLambda/src/index.ts:80-169 | on every event and store, the handler's response meets the rule-by-rule contract `Conforms`: JSON header; 400 `Invalid dataType: <dataType>` for an unknown tag; for a known tag, 400 with the category's missing-id message when the id is absent or empty, 200 with the stored record when the id is a key of that category's map, 404 `Data not found for <tag> with ID <id>` otherwise |
| `McpLambda.IdOf` | backend/MCPLambda/src/index.ts:92-118 | the id read for a category is the event property named by that category's id field: `customerId`, `productId` or `articleId` |
| `McpLambda.Truthy` | backend/MCPLambda/src/index.ts:93-119 | the `!id` test: an id is falsy exactly when it is `undefined` or the empty string |
| `McpLambda.ErrorMessage` | backend/MCPLambda/src/index.ts:98-164 | the `error` strings: `Invalid dataType: <dataType>`, the category's fixed missing-id literal, `Data not found for <tag> with ID <id>`, and `Internal Server Error` |
| `McpLambda.ParseCategory` | backend/MCPLambda/src/index.ts:90-135 | a tag is accepted exactly when it equals one category's tag, and it then selects that category; any other string matches no category |
| `McpLambda.StatusCode` | backend/MCPLambda/src/index.ts:93-167 | the status depends only on the failure kind: 400 for a bad tag or a missing id, 404 for an absent id, 500 for an internal error, and never 200 |
| `McpLambda.Handle` | backend/MCPLambda/src/index.ts:85-157 | the handler never yields the internal-error outcome; a found record implies a known tag with a truthy id; a not-found answer names the requested category and a non-empty id that is not a key of that category's map |
| `McpLambda.Render` | backend/MCPLambda/src/index.ts:94-167 | every response has the JSON content-type header; the body is the record exactly when the status is 200 and the outcome is a found record; otherwise it is an error body, which carries `details` exactly when the status is 500 |
| `McpLambda.NotFoundRoundTrip` | backend/MCPLambda/src/index.ts:153-155 | the text after the 404 prefix splits back into the category tag and the id it was built from, whatever the id |
| `McpLambda.ErrorBodyRoundTrip` | backend/MCPLambda/src/index.ts:94-167 | every error body the handler can produce reads back as the failure that produced it: the rejected tag, the category missing its id, the category and id not found, or the internal-error details |
| `McpLambda.ErrorBodyParsedExactly` | backend/MCPLambda/src/index.ts:94-167 | conversely, a body that reads back as some failure is exactly the body rendered for that failure |
| `McpLambda.ErrorBodiesDistinct` | backend/MCPLambda/src/index.ts:94-167 | two different failures never produce the same error body |
| `McpLambda.UnknownDataTypeRejected` | backend/MCPLambda/src/index.ts:130-135 | a tag other than the three known ones gives 400 with error exactly `Invalid dataType: <dataType>` |
| `McpLambda.TagMatchIsCaseSensitive` | backend/MCPLambda/src/index.ts:90-135 | matching has no case folding: `ProductInfo` gives 400 `Invalid dataType: ProductInfo` |
| `McpLambda.MissingIdMessageNamesFieldAndCategory` | backend/MCPLambda/src/index.ts:98-124 | each of the three fixed messages reads `Missing <id property> for <tag>` |
| `McpLambda.MissingIdRejected` | backend/MCPLambda/src/index.ts:92-127 | for a known tag, an absent or empty-string id gives 400 with that category's missing-id message before any lookup, so an empty id never gives 404 |
| `McpLambda.OnlyOwnIdFieldRead` | backend/MCPLambda/src/index.ts:92-118 | two events with the same tag and the same value in that category's id property get the same response; the generic `id` and other categories' ids are never read |
| `McpLambda.ProductRequestIgnoresCustomerId` | backend/MCPLambda/src/index.ts:104-113 | a `productInfo` event that carries only a `customerId` gets 400 `Missing productId for productInfo` |
| `McpLambda.StoredIdFound` | backend/MCPLambda/src/index.ts:138-147 | a truthy id that is a key of the requested category's map gives 200, and the body is exactly the stored record |
| `McpLambda.AbsentIdNotFound` | backend/MCPLambda/src/index.ts:148-156 | a truthy id that is not a key of the requested category's map gives 404 with error `Data not found for <dataType> with ID <id>` |
| `McpLambda.OnlyOwnMapConsulted` | backend/MCPLambda/src/index.ts:102-128 | stores that agree on the requested category's map give the same response, so an id stored only under another category still gets 404 |
| `McpLambda.UnknownProductExample` | backend/MCPLambda/src/index.ts:104-156 | `{dataType: productInfo, productId: P123}` with `P123` absent gives 404 `Data not found for productInfo with ID P123` |
| `McpLambda.InternalErrorResponse` | backend/MCPLambda/src/index.ts:158-167 | the internal-error answer is 500 with error `Internal Server Error` and `details` set to the failure's message |
| `McpLambda.ConformingResponseIsHandlers` | backend/MCPLambda/src/index.ts:80-169 | conversely, any response that meets `Conforms` is the handler's response, so the contract fixes the status, headers and body completely |

## Left out

- `backend/TestOrchestratorLambda/src/index.ts` as a whole. It is a wrapper around a remote model call through the AWS Bedrock SDK (client, `send`, decoding, environment defaults). The only logic around the call is a one-line prompt default and a one-line reply-text fallback.
- Logging (`console.log`, `console.error`): side effects only.
- JSON serialisation of bodies (`JSON.stringify`): a body is a datatype value here, not a string.
- The contents of `./data/mock-data.json`: the three maps are arbitrary inputs.
- The 500 path as a reachable outcome. Nothing inside the `try` throws for an event and a store of the declared shapes. A null event throws at line 85, outside the `try`, and escapes the handler. That escape is not modelled.
- Events outside the declared types: a missing or non-string `dataType` (the template would print `undefined`), and id properties that hold non-strings (whose JavaScript truthiness differs). `dataType` is a `string` and each id is an optional `string`.
- Keys inherited through the JavaScript prototype chain (such as `constructor`) on the plain-object maps, and the truthiness test of the looked-up record at line 138. Stored records are objects and always truthy, so presence is modelled as `key in map`.
- The asynchronous `Promise` wrapper and the Lambda runtime: the handler is a function from event and store to response.
- Numeric record fields are `real` values. Floating-point behaviour is not modelled, because the handler only copies records.
