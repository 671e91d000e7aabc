# AI Router: login validation, API-client envelope unwrapping and backend CORS/fallback responses

This project models the three small decision procedures of the AI Router web
application and proves properties of them in Dafny:

- the **login form's submit handler** (`handleSubmit`): the input is trimmed,
  checked for being non-empty, then checked against the email shape
  `^[^\s@]+@[^\s@]+\.[^\s@]+$`; only then is the authentication collaborator
  called, once, with the trimmed email, with the loading flag raised around
  the call; success shows a greeting and navigates to `/`, failure shows an
  error toast;
- the **frontend API client**: `fetchTools`, `fetchToolsByCategory`,
  `generateContent` and `checkServerHealth`, each a total function from what
  `fetch` produced (a network rejection, or a status plus a body that is
  either a parsed envelope `{success, data?, error?}` or a JSON parse error)
  to either a value or the message of the error the call rejects with;
- the **backend's own decisions**: the CORS `origin` callback, the CORS
  options, and the final response of a request (health check, API route,
  catch-all error handler answering 500, route-not-found handler answering 404).

Modules, one per concern:

| file | module | contents |
|---|---|---|
| `wrappers.dfy` | `Wrappers` | `Option` (JavaScript `undefined`), `Result` (value or thrown message) |
| `js_string.dfy` | `JsString` | ECMAScript white space (`\s`, what `trim` strips), `Trim`, `Includes`, `Or` (JavaScript's or-fallback on a possibly-undefined string) |
| `decimal.dfy` | `Decimal` | decimal rendering of a status code and its parser |
| `email_shape.dfy` | `EmailShape` | the email regular expression as a predicate, with its `l@a.b` characterisation |
| `login.dfy` | `Login` | validation, the submit handler as a trace of effects, and `Replay`, which interprets a trace as the view it leaves |
| `api_client.dfy` | `ApiClient` | the data types of the API, the four client calls and their error messages |
| `server.dfy` | `Server` | origin callback, CORS options, response dispatch |

Side effects are modelled as values. The login handler returns the sequence of
effects it performs (toasts, loading-flag changes, the login call, navigation),
and the collaborator's reply to each email is a function parameter. Each API
call takes the settled `fetch` outcome as its input. `response.ok` is derived
from the status (200 to 299 inclusive, as the Fetch standard defines it).

`fetchTools` never reads the body of a failed response
(frontend/src/services/api.ts:61-63), so HTTP 500 with
`{success:false, error:"boom"}` rejects with `HTTP error! status: 500`
(`ApiClient.ToolsServerErrorExample`). Only `generateContent` consults the body
of a failed response (`ApiClient.GenerateFailureMessage`,
`ApiClient.GenerateServerErrorExample`).

## Model

| member | source | states |
|---|---|---|
| `JsString.Trim` | frontend/src/pages/Login.tsx:19 | the trimmed input has no white space at either end, and it is empty exactly when the input is all white space (so a blank input is the "required" case) |
| `JsString.TrimOfPadded` | frontend/src/pages/Login.tsx:19 | trim is characterised independently: white space + trimmed middle + white space trims to that middle |
| `JsString.TrimIgnoresPadding` | frontend/src/pages/Login.tsx:19 | adding white space on either side never changes the trimmed value |
| `JsString.TrimIdempotent` | frontend/src/pages/Login.tsx:19 | trimming twice is trimming once |
| `JsString.Includes` | backend/src/index.ts:19-26 | `includes` is true exactly when the needle occurs at some position of the haystack |
| `EmailShape.AcceptsParts` | frontend/src/pages/Login.tsx:27 | every `l@a.b` with `l`, `a`, `b` non-empty and free of white space and `@` matches the email shape, with further dots allowed in `a` and `b` |
| `EmailShape.PartsOfAccepted` | frontend/src/pages/Login.tsx:27 | every string matching the email shape is such an `l@a.b` |
| `EmailShape.AcceptedHasOneAt` | frontend/src/pages/Login.tsx:27 | a matching string holds exactly one `@` |
| `EmailShape.AcceptedHasNoSpace` | frontend/src/pages/Login.tsx:27-28 | a matching string has no white space anywhere, and trimming leaves it unchanged |
| `Login.Validate` | frontend/src/pages/Login.tsx:19-33 | the input passes exactly when its trimmed form is email-shaped, and then yields the trimmed form; "Email is required" exactly for blank input; "Invalid email" exactly for non-blank input whose trimmed form is not email-shaped |
| `Login.ReplayConcat` | frontend/src/pages/Login.tsx:35-53 | the view after two effect traces in sequence is the view after their concatenation |
| `Login.HandleSubmit` | frontend/src/pages/Login.tsx:16-54 | rejected input raises no loading flag and makes no login call; accepted input makes exactly one login call, with the trimmed email; the loading flag is down at the end in every case; navigation to `/` happens exactly on login success; exactly one toast is shown: required, invalid, welcome, or "Login failed" with the error's message or the fallback text |
| `Login.SubmitReplay` | frontend/src/pages/Login.tsx:35-53 | an accepted submission ends with the loading flag down, one login call, the welcome toast and navigation home on success, or the failure toast and no navigation on failure |
| `Login.SubmitEffectOrder` | frontend/src/pages/Login.tsx:35-53 | once the loading flag is raised, the last effect clears it; in an accepted run every toast and the navigation come after the login call; the welcome toast comes before the navigation to `/` |
| `Login.CallsLoginOnlyWhileLoading` | frontend/src/pages/Login.tsx:35-38 | wherever the trace calls login, the loading flag is raised in the view at that point |
| `Login.SubmitIgnoresPadding` | frontend/src/pages/Login.tsx:19-38 | surrounding the input with white space never changes anything the handler does |
| `Decimal.Show` | frontend/src/services/api.ts:62 | a status renders as a non-empty string of digits without a leading zero |
| `Decimal.ParseShow` | frontend/src/services/api.ts:62 | parsing the rendering of a status gives back the status |
| `Decimal.ShowInjective` | frontend/src/services/api.ts:62 | distinct statuses render differently |
| `ApiClient.StatusOf` | frontend/src/services/api.ts:62 | a status read back out of a message is one whose HTTP error message is that message |
| `ApiClient.ShowParse` | frontend/src/services/api.ts:62 | on canonical numerals, rendering undoes parsing |
| `ApiClient.HttpErrorMessageRoundTrip` | frontend/src/services/api.ts:62 | the status of an "HTTP error! status: N" message can always be recovered from it |
| `ApiClient.NotFoundMessageIsDistinct` | frontend/src/services/api.ts:88-91 | the 404 message contains the category and "not found", and is never equal to or parseable as an HTTP status message |
| `ApiClient.Rethrow` | frontend/src/services/api.ts:72-75 | the shared `catch` rethrows the caught message when it is non-empty, and exactly the fallback when the message is missing or empty; it never produces an empty message; success passes through unchanged |
| `ApiClient.CategoryRequestsDistinct` | frontend/src/services/api.ts:84-85 | with an injective URL encoder, distinct categories are requested at distinct URLs |
| `ApiClient.FetchTools` | frontend/src/services/api.ts:57-76 | non-ok status gives "HTTP error! status: N" whatever the body; ok with `success=false` gives the envelope's error or "Failed to fetch tools"; success exactly for ok + parsed + `success=true`, returning `data` or the empty list; network or parse errors give their message or "Failed to fetch tools from server"; no failure message is empty |
| `ApiClient.FetchToolsByCategory` | frontend/src/services/api.ts:81-105 | 404 gives `Category "<category>" not found`, other non-ok statuses "HTTP error! status: N"; ok with `success=false` gives the envelope's error or "Failed to fetch category tools"; success returns `data.models`, or empty when `data` or `models` is missing; other errors fall back to "Failed to fetch tools for <category>" |
| `ApiClient.GenerateContent` | frontend/src/services/api.ts:110-137 | non-ok gives the parsed body's `error` when non-empty, else "HTTP error! status: N", an unparsable body falling through to the status message; ok with `success=false` gives the envelope's error or "Generation failed"; success returns the envelope unchanged; other errors fall back to "Failed to generate content" |
| `ApiClient.CheckServerHealth` | frontend/src/services/api.ts:142-149 | never rejects; true exactly when the probe got a response with status 200 to 299 |
| `ApiClient.ToolsIgnoreErrorBody` | frontend/src/services/api.ts:61-63 | for a non-ok status, `fetchTools` returns the same failure whatever the body, and the failure names the status |
| `ApiClient.GenerateFailureMessage` | frontend/src/services/api.ts:120-124 | on any non-ok response, `generateContent` rejects with the body's `error` when that is a non-empty string, and otherwise with a message from which the status can be read back |
| `ApiClient.ToolsServerErrorExample` | frontend/src/services/api.ts:61-63 | HTTP 500 with `{success:false, error:"boom"}` rejects with "HTTP error! status: 500", not "boom" |
| `ApiClient.GenerateServerErrorExample` | frontend/src/services/api.ts:120-124 | `generateContent` on the same failed response rejects with "boom" |
| `ApiClient.UnhealthyMeansToolsFail` | frontend/src/services/api.ts:142-149 | both calls read `ok` the same way: any status the health probe would report as unhealthy is one on which `fetchTools` fails with that status's message (the two calls fetch different URLs in the program) |
| `Server.MatchedRule` | backend/src/index.ts:14-32 | which branch an origin takes: none for a missing or empty origin; local when `localhost` or `127.0.0.1` occurs in it; Vercel only when `.vercel.app` occurs; the fallback only when none of the substrings occurs |
| `Server.OriginCallback` | backend/src/index.ts:14-33 | on every branch the callback is called exactly once, with no error and `allow = true` |
| `Server.MissingCharExcludes` | backend/src/index.ts:19-26 | a string without some character of the needle does not include the needle |
| `Server.LocalMarkerAnywhere` | backend/src/index.ts:19-21 | any origin with `localhost` or `127.0.0.1` anywhere in it takes the local branch (a substring test, not a host match) |
| `Server.VercelAnywhere` | backend/src/index.ts:24-26 | any origin with `.vercel.app` anywhere in it and no local marker takes the Vercel branch |
| `Server.UnlistedOriginIsAllowed` | backend/src/index.ts:28-32 | any non-empty origin containing none of `localhost`, `127.0.0.1` and `.vercel.app` reaches the fallback and is still allowed |
| `Server.OriginWithoutMarkerCharacters` | backend/src/index.ts:19-32 | for instance an origin without the characters `l`, `7` and `v` (such as `https://foo.io`) reaches the fallback |
| `Server.CorsConfig` | backend/src/index.ts:34-36 | credentials are enabled; the methods are exactly GET, POST, PUT, DELETE, OPTIONS; the headers exactly Content-Type and Authorization |
| `Server.Respond` | backend/src/index.ts:52-68 | the health check answers 200 `{status:"ok"}`; any error reaching the error handler answers 500 `{error:"Something went wrong!"}`; unmatched routes, and API requests the router passes on, answer 404 `{error:"Route not found"}`; an API route's own response is sent unchanged; no other error text reaches the client |
| `Server.ErrorsDoNotLeak` | backend/src/index.ts:60-63 | the reply to an error is the same whatever the error's message or stack, so neither reaches the client |

## Left out

- `fetch`, `response.json()` and `encodeURIComponent` are not modelled: the settled fetch outcome and the parsed body are inputs, and the encoder is a function parameter.
- A body that parses to `null` makes `result.success` throw a `TypeError`; the model has only envelopes and parse failures. Other non-object bodies (a number, a string, an array) read `success` as undefined and behave like an envelope with `success=false` and no `error`, which the model covers. `error` fields are strings, not arbitrary JSON.
- `GenerateResponse.data` is a type parameter and `additionalParams` is a string map, because the payloads are opaque to the client.
- Strings are sequences of Unicode scalar values, not UTF-16 code units; the white-space set is the same either way.
- The email input's `required` and `type="email"` attributes (frontend/src/pages/Login.tsx:79,85) let the browser reject submissions before `handleSubmit` runs, so the "Email is required" branch is hard to reach through the form; browser form validation is not modelled.
- React rendering, `useState`, `useNavigate`, `toast` and `e.preventDefault()` are modelled only as effects in a trace; the form's `disabled` attribute (no second submit while loading) is UI.
- `useAuth().login` and the backend's `./routes/api` are not part of this model; they are collaborators that succeed or fail (`LoginReply`, `RouteOutcome`).
- `console.log` / `console.error` logging and the hardcoded backend URL (the base URL is a parameter).
- Express wiring: route matching (`Route` is an input), body-size limits (only as an error reaching the error handler), the 10-minute socket timeouts, `cors` middleware internals such as its preflight reply, `dotenv`, `PORT` and `app.listen`.
- The Vite dev-server proxy and the Vercel serverless proxy: build and deployment plumbing with no logic beyond forwarding.
