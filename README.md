# circle-client: the request core of the CircleCI API v2 client

This project models how the `CircleCI` class of `src/client.ts` turns a method
call into one HTTP request, and how it turns the reply into a result or an
error. Every property below is proved with Dafny.

What is modelled:

- **`request`**. It builds the URL from the base `https://circleci.com/api/v2`,
  `/` and the path. GET and DELETE carry their parameters in a query string
  (`URLSearchParams`). POST and PUT carry them as a JSON body
  (`JSON.stringify`) and set `Content-Type: application/json`. In both cases
  this happens only when the parameters object is non-empty. The identity
  headers `Circle-Token` and `X-Circle-Client` are written into the client's
  own header map. The reply's status is compared with the single expected
  status: the body comes back unchanged on a match. On a mismatch the source
  reads the body's `message` and raises an `APIError`; when the body is JSON
  `null` that read throws a `TypeError` instead (see "## Findings"). The
  class's `Request` follows the corrected check, which raises the `APIError`
  in that case too.
- **`getProjectSlug`**. It raises `ProjectSlugError` when no slug is set.
  Otherwise it returns `encodeURIComponent` of the slug. A `[vcs, org, repo]`
  tuple is joined with `/` first.
- **`previewWarn`**. It prints the one-time warning for preview endpoints.
- **The 40 façade methods**, `getProject` to `deleteContextEnvVar`. Each one
  builds its parameters object by conditional assignments, then calls
  `request` with a verb, a path, an expected status and those parameters.
  Some methods also call `previewWarn`, `getProjectSlug` or both, and
  `listContexts` also checks its owner arguments.

The modules are:

- `Wrappers`: `Option` and `Result`.
- `Utf8`: UTF-8 encoding and decoding.
- `Percent`: `encodeURIComponent` and the application/x-www-form-urlencoded
  byte serializer of the WHATWG URL Standard, section 5.2, each with its
  decoder and round trip.
- `Json`: the JSON value type, `JSON.stringify`, a parser for what it writes
  and `String(value)`.
- `Query`: the parameters object as an insertion-ordered property list, the
  assignment `p[k] = v`, and the query string with its parser (section 5.1 of
  the same standard).
- `Client`: the errors, the request, the slug, the parameter builders, and the
  class `CircleCI`.

Modelling choices:

- The network is an oracle. Each method takes the `Reply` (status and parsed
  body, or no body when `response.json()` rejects) that `fetch` would
  produce.
- The client keeps a ghost log of the requests it sent and the warnings it
  printed.
- Each façade method's contract is `Performed(preview, plan, reply, r)`. The
  plan is a pure value: the slug's error, `listContexts`'s argument error, or
  the `Call` (verb, path, status, parameters) that goes to `request`.
  `Performed` states that:
  - the warning flag and log advance only for preview methods, and only on
    their first use;
  - a failed plan sends nothing and leaves the header map as it was;
  - a successful plan sends exactly one request, with the URL, body and
    headers of `request`, and gives `CheckReply`'s verdict.

Details of the code that the model follows:

- The preview warning is printed once per client. A single flag
  (`src/client.ts:299`, `362-371`) is shared by every preview method, not kept
  per operation name.
- `listContexts` is a preview endpoint too (`src/client.ts:1067`). It prints
  the warning before it checks its owner arguments, so the warning is printed
  even when the call then fails.
- This revision of `src/client.ts` has no artifact-download helper.

## Model

| member | source | states |
|---|---|---|
| Utf8.DecodeEncode | src/client.ts:378-382 | decoding the UTF-8 bytes that `encodeURIComponent` percent-encodes gives the original string back |
| Percent.DecodeEncodeBytes | src/client.ts:333-335 | percent-decoding undoes percent-encoding of any byte sequence, in both the URI-component and the form mode |
| Percent.URIComponentRoundTrip | src/client.ts:378-382 | `encodeURIComponent` loses nothing: its output decodes back to the input string |
| Percent.URIComponentHasNoDelimiters | src/client.ts:378-382 | the output of `encodeURIComponent` never holds `/`, `?`, `#`, `&`, `=` or `+`, so it stays a single path segment |
| Percent.EncodeUnreserved | src/client.ts:378-382 | a string made only of unreserved characters is written unchanged |
| Percent.URIComponentAppend | src/client.ts:378-382 | `encodeURIComponent` of a concatenation is the concatenation of the encodings |
| Percent.FormRoundTrip | src/client.ts:333-335 | the form serialization of a name or value decodes back to it |
| Percent.FormHasNoSeparators | src/client.ts:333-335 | a serialized name or value never holds `&` or `=` |
| Json.ValueParses | src/client.ts:339 | parsing the text `JSON.stringify` writes, followed by nothing or by `,`, `]` or `}`, gives the value back and leaves that rest unread |
| Json.StringifyRoundTrip | src/client.ts:339 | the JSON body parses back to exactly the parameters object that was sent |
| Json.DisplayScalar | src/client.ts:333-335 | `String(value)`, which `URLSearchParams` applies to each value and `Error` to a non-string message, gives a string itself unquoted and a null, boolean or number as its JSON text (so `mine` is sent as `true`) |
| Json.JoinItemsAppend | src/client.ts:351-357 | `String` of an array joins its elements with commas: the display of two non-empty runs put together is their displays with one comma between |
| Json.DisplayFlatArray | src/client.ts:351-357 | an array of numbers and booleans displays as its JSON text without the brackets |
| Query.PutPlaces | src/client.ts:624-630 | assigning a new property appends it at the end; assigning an existing one keeps the property names and their order |
| Query.PutLookup | src/client.ts:624-630 | after `p[k] = v`, reading k gives v and every other property reads as before |
| Query.PutKeys | src/client.ts:624-630 | after `p[k] = v`, a name is a property name exactly when it was one before or is k |
| Query.PutUnique | src/client.ts:624-630 | assignment keeps property names unique |
| Query.SetIfGivenNew | src/client.ts:624-630 | `if (x) p[k] = x` on a new name appends k exactly when x is given, reads back as x, and leaves every other property unchanged |
| Query.SplitJoin | src/client.ts:333-335 | splitting the `&`-joined pieces on `&` gives the pieces back when there is at least one piece and none holds `&` |
| Query.PieceParses | src/client.ts:333-335 | one `name=value` piece is non-empty, has no `&`, and parses back to the name and the value's string form |
| Query.QueryRoundTrip | src/client.ts:333-335 | the query string parses back to every property's name and string value, in insertion order |
| Client.ReplyAccepted | src/client.ts:349-359 | the reply is accepted exactly when its body is JSON and its status is the expected one, and the body is then returned unchanged |
| Client.ReplyRejected | src/client.ts:284-293 | a JSON reply with any other status raises APIError with the actual status and the reply; the message is the body's string `message`, or 'An API error occurred' when there is none |
| Client.MessageOfObject | src/client.ts:351-357 | a string `message` property of the body becomes the APIError's message |
| Client.AsWrittenDiffers | src/client.ts:351-357 | the check as written and the corrected check differ exactly on a `null` body with an unexpected status |
| Client.NullBodyCounterexample | src/client.ts:351-357 | status 500 with body `null`, when 200 was expected, throws a TypeError as written instead of raising APIError |
| Client.UrlReadsBack | src/client.ts:324-337 | the URL starts with base + `/` + path; for GET and DELETE with parameters, `?` follows and the rest parses back to every parameter in insertion order; otherwise the URL is exactly base + `/` + path |
| Client.BodyReadsBack | src/client.ts:330-342 | there is a body exactly for POST and PUT with non-empty parameters, and it parses back to the parameters object |
| Client.HeadersOfRequest | src/client.ts:326-341 | every request carries the API token and `v` + version; a body adds `Content-Type: application/json`; every other header of the client's map keeps its value and no other header appears |
| Client.ContentTypePersists | src/client.ts:326-341 | once a POST or PUT has written Content-Type into the client's map, every later request carries it, GET and DELETE included |
| Client.SlugSegment | src/client.ts:373-383 | fails with ProjectSlugError exactly when the slug is undefined or the empty string; otherwise the segment decodes back to the joined tuple or the string and holds no `/`, `?`, `#`, `&`, `=` or `+` |
| Client.SlugScopedCall | src/client.ts:373-396 | a project-scoped method fails with ProjectSlugError exactly when there is no usable slug; otherwise its path is prefix + encoded slug + suffix, and the slug part decodes back to the slug |
| Client.PageParamsSent | src/client.ts:401-419 | `page-token` is sent exactly when a page token is given, with that value |
| Client.BranchFallback | src/client.ts:617-640 | a given `branch` argument wins, the client's default is used when the argument is omitted, and no `branch` is sent when neither is set; the page token keeps its place before it |
| Client.DateRangeSent | src/client.ts:676-712 | `start-date` then `end-date` are appended, each only when given and with its own value, after whatever the query already holds, and no other parameter changes |
| Client.RunsParamsSent | src/client.ts:676-754 | the run listings send `page-token`, `branch`, `start-date`, `end-date` in that order, each only when given (the branch with its fallback), each with its own value |
| Client.PipelinesParamsSent | src/client.ts:760-783 | `org-slug` is always sent first, then `page-token` when given, then `mine=true` only when `onlyMine` is true |
| Client.RerunParamsSent | src/client.ts:552-572 | a rerun sends the job list whenever one is given, even an empty one, and `fromFailed` only when it is true |
| Client.BranchTagSent | src/client.ts:840-868 | the trigger sends the branch (with its fallback) and then the tag, each only when given |
| Client.TriggerParamsSent | src/client.ts:840-868 | the trigger sends branch, tag and the pipeline parameters object, each only when given, in that order |
| Client.OwnerParamsSent | src/client.ts:1056-1090 | the context listing sends the page token, the owner id and the owner slug, each only when given, in that order, each with its own value |
| Client.ContextsOwner | src/client.ts:1056-1090 | `listContexts` fails with ArgumentError exactly when both or neither of ownerId and ownerSlug are given; otherwise exactly one of `owner-id` and `owner-slug` is sent, with its value, after `page-token` and before `owner-type`, and those two read back as given |
| Client.CircleCI.constructor | src/client.ts:295-316 | the new client holds the key, the slug, the default branch and the caller's header map, has not warned, and has sent nothing |
| Client.CircleCI.Request | src/client.ts:318-360 | the client's header map becomes SentHeaders of the old map; exactly one request is sent, with RequestUrl, the updated map and RequestBody; the result is CheckReply's verdict |
| Client.CircleCI.PreviewWarn | src/client.ts:362-371 | the warning is printed only when the flag was clear; afterwards the flag is set, and the log holds the warning exactly once |
| Client.CircleCI.ProjectRequest | src/client.ts:373-383 | the slug is evaluated after the parameters; with no slug nothing is sent and the header map is untouched, otherwise the request goes to prefix + slug + suffix |
| Client.CircleCI.GetProject | src/client.ts:388-396 | GET `project/<slug>`, expected 200, no parameters; ProjectSlugError with nothing sent when there is no slug |
| Client.CircleCI.ListCheckoutKeys | src/client.ts:401-419 | GET `project/<slug>/checkout-key`, expected 200, with `page-token` when given |
| Client.CircleCI.CreateCheckoutKey | src/client.ts:424-435 | POST `project/<slug>/checkout-key`, expected 201, body `{type}` |
| Client.CircleCI.DeleteCheckoutKey | src/client.ts:440-446 | DELETE `project/<slug>/checkout-key/<fingerprint>`, expected 200 |
| Client.CircleCI.GetCheckoutKey | src/client.ts:451-459 | GET `project/<slug>/checkout-key/<fingerprint>`, expected 200 |
| Client.CircleCI.ListEnvVars | src/client.ts:464-482 | GET `project/<slug>/envvar`, expected 200, with `page-token` when given |
| Client.CircleCI.GetEnvVar | src/client.ts:487-495 | GET `project/<slug>/envvar/<encoded name>`, expected 200 |
| Client.CircleCI.CreateEnvVar | src/client.ts:500-512 | POST `project/<slug>/envvar`, expected 201, body `{name, value}` |
| Client.CircleCI.DeleteEnvVar | src/client.ts:517-523 | DELETE `project/<slug>/envvar/<encoded name>`, expected 200 |
| Client.CircleCI.GetWorkflow | src/client.ts:528-536 | GET `workflow/<encoded id>`, expected 200, no slug needed |
| Client.CircleCI.CancelWorkflow | src/client.ts:541-547 | POST `workflow/<encoded id>/cancel`, expected 202, no body |
| Client.CircleCI.RerunWorkflow | src/client.ts:552-572 | POST `workflow/<encoded id>/rerun`, expected 202, body with `jobs` and `fromFailed` as RerunParams |
| Client.CircleCI.ApproveWorkflowJob | src/client.ts:577-586 | POST `workflow/<encoded id>/approve/<requestId>`, expected 202 |
| Client.CircleCI.ListWorkflowJobs | src/client.ts:591-612 | GET `workflow/<encoded id>/job`, expected 200, with `page-token` when given |
| Client.CircleCI.ListWorkflowMetrics | src/client.ts:617-640 | GET `insights/<slug>/workflows`, expected 200, with page token and branch (with its fallback) |
| Client.CircleCI.ListWorkflowJobMetrics | src/client.ts:645-671 | GET `insights/<slug>/workflows/<name>/jobs`, expected 200, with page token and branch (with its fallback) |
| Client.CircleCI.ListWorkflowRuns | src/client.ts:676-712 | GET `insights/<slug>/workflows/<name>`, expected 200, with RunsParams |
| Client.CircleCI.ListWorkflowJobRuns | src/client.ts:717-754 | GET `insights/<slug>/workflows/<name>/jobs/<job>`, expected 200, with RunsParams |
| Client.CircleCI.ListPipelines | src/client.ts:760-783 | GET `pipeline`, expected 200, with PipelinesParams; needs no slug |
| Client.CircleCI.GetPipeline | src/client.ts:788-796 | GET `pipeline/<id>`, expected 200 |
| Client.CircleCI.GetPipelineConfig | src/client.ts:801-809 | GET `pipeline/<id>/config`, expected 200 |
| Client.CircleCI.ListPipelineWorkflows | src/client.ts:814-835 | GET `pipeline/<id>/workflow`, expected 200, with `page-token` when given |
| Client.CircleCI.TriggerProjectPipeline | src/client.ts:840-868 | POST `project/<slug>/pipeline`, expected 201, body TriggerParams |
| Client.CircleCI.ListProjectPipelines | src/client.ts:873-896 | GET `project/<slug>/pipeline`, expected 200, with page token and branch (with its fallback) |
| Client.CircleCI.ListOwnProjectPipelines | src/client.ts:902-920 | GET `project/<slug>/pipeline/mine`, expected 200, with `page-token` when given |
| Client.CircleCI.GetProjectPipeline | src/client.ts:925-933 | GET `project/<slug>/pipeline/<number>`, expected 200 |
| Client.CircleCI.GetJob | src/client.ts:938-948 | preview: warns on first use, then GET `project/<slug>/job/<number>`, expected 200; a missing slug fails after the warning |
| Client.CircleCI.CancelJob | src/client.ts:953-961 | preview: warns on first use, then POST `project/<slug>/job/<number>/cancel`, expected 202 |
| Client.CircleCI.ListJobArtifacts | src/client.ts:966-989 | preview: warns on first use, then GET `project/<slug>/<number>/artifacts`, expected 200, with `page-token` when given |
| Client.CircleCI.ListJobTests | src/client.ts:994-1017 | preview: warns on first use, then GET `project/<slug>/<number>/tests`, expected 200, with `page-token` when given |
| Client.CircleCI.GetMe | src/client.ts:1022-1028 | preview: warns on first use, then GET `me`, expected 200 |
| Client.CircleCI.GetCollaborations | src/client.ts:1034-1040 | preview: warns on first use, then GET `me/collaborations`, expected 200 |
| Client.CircleCI.GetUser | src/client.ts:1045-1051 | preview: warns on first use, then GET `user/<id>`, expected 200 |
| Client.CircleCI.ListContexts | src/client.ts:1056-1090 | preview: warns on first use, then ArgumentError with nothing sent unless exactly one owner is given, else GET `context`, expected 200, with ContextsParams |
| Client.CircleCI.CreateContext | src/client.ts:1095-1105 | POST `context`, expected 200, body `{name, owner}` with the caller's owner object sent as given, in its own property order |
| Client.CircleCI.DeleteContext | src/client.ts:1110-1112 | DELETE `context/<id>`, expected 200 |
| Client.CircleCI.GetContext | src/client.ts:1117-1127 | preview: warns on first use, then GET `context/<id>`, expected 200 |
| Client.CircleCI.ListContextEnvVars | src/client.ts:1133-1154 | GET `context/<id>/environment-variable`, expected 200, with `page-token` when given |
| Client.CircleCI.CreateContextEnvVar | src/client.ts:1159-1174 | PUT `context/<id>/environment-variable/<name>`, expected 200, body `{value}` |
| Client.CircleCI.DeleteContextEnvVar | src/client.ts:1179-1185 | DELETE `context/<id>/environment-variable/<name>`, expected 200 |

## Left out

- `fetch`, `response.json()` and the Promise machinery are not modelled. The reply is an input to each call. A network failure, which rejects the promise before any status check, is not represented.
- `console.warn` is recorded in a ghost log rather than printed.
- `pck.version` from `package.json` is a constructor parameter (`version`), not a constant.
- The resource type declarations and enums (`src/client.ts:1-268`) are left out. They have no behaviour, and the result casts are unchecked.
- The name of each error class is not modelled.
- Numbers are modelled as integers only. No floating point and no exponent form is modelled in `JSON.stringify`, its parser or `String(value)`.
- The JSON parser reads only what `JSON.stringify` writes. Whitespace between tokens and `\u` escapes of surrogate halves are not accepted.
- Percent-decoding rejects a stray `%` and any non-ASCII character. Browsers' lenient decoding is not modelled, since only round trips of encoder output are claimed.
- Strings are sequences of Unicode scalar values. The `URIError` that `encodeURIComponent` throws on a lone surrogate is therefore not modelled.
- Arguments the source treats as `undefined` or `''` are the empty string in the model. Both are falsy and take the same branch. Two optionals matter by presence alone, because an empty array or object is truthy in JavaScript and is still sent: the `jobs` array of `rerunWorkflow` and the `parameters` object of `triggerProjectPipeline`. Each is kept as an `Option`.
- Number arguments in paths (`jobNumber`, `pipelineNumber`) are taken as the string the template literal produces.
- JavaScript objects list integer-like keys first, whatever the insertion order. The model keeps plain insertion order. Every key the façade writes is a non-numeric name, so this makes no difference here; free-form pipeline `parameters` with integer-like names are the exception.
- The client's header map is modelled as the client's own value. The aliasing of the caller's `headers` object, which `Object.assign` mutates in place, is not modelled.
- Client.CircleCI.Request: follows the corrected status check, so on a JSON `null` body with an unexpected status it promises an `APIError` where the source throws a `TypeError`. The code as written is `Client.CheckReplyAsWritten`, and `Client.AsWrittenDiffers` states that this is the only case where the two differ.
- `private` and `readonly` are visibility and typing only. `apiKey` and `version` are `const` fields.

## Findings

| source | as written | input that shows it | evidently intended | confidence | as-written member | corrected member |
|---|---|---|---|---|---|---|
| src/client.ts:351-357 | on an unexpected status, `(data as ErrorResponse).message` is read before the APIError is built, so a JSON body of `null` throws a TypeError | status 500 with body `null` when 200 was expected | an APIError with status 500 and the default message 'An API error occurred' | not executed | Client.CheckReplyAsWritten (shown by Client.NullBodyCounterexample) | Client.CheckReply (Client.ReplyRejected, Client.AsWrittenDiffers) |
