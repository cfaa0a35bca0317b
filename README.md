# wpp-automation request limiter and error responses, in Dafny

This project models the two pieces of request-handling logic of the
wpp-automation server (a bulk WhatsApp sender): the fixed-window rate
limiter that guards every HTTP route and the WhatsApp send route, and the
Express error middleware that turns an application error into the status
and JSON body the client receives.

- `wrappers.dfy` (module `Wrappers`): `Option`, standing for a field or argument that may be `undefined`.
- `text.dfy` (module `Text`): `includes`, the `||` fallback on strings and decimal rendering of integers.
- `error_handler.dfy` (module `ErrorHandler`): the `ErrorCode` union as a datatype, `createError`,
  `getErrorMessage` and the status, code and body computed by `errorHandler`, all as functions.
- `rate_limiter.dfy` (module `RateLimiter`): the limiter. The module-level `rateLimitStore` is the
  class `RateLimitStore`, whose field `store: map<string, RateLimitInfo>` the methods `Handle`
  (`rateLimiter`), `HandleWhatsApp` (`whatsappRateLimiter`) and `Cleanup` (`cleanup`) update in
  place. Each method is proved against value-level functions: `Sweep` (what cleanup leaves),
  `Hit` (the open / count / refuse rule), `Step` (cleanup then the rule) and `ApiDecision` /
  `WhatsAppDecision` (what is passed to `next`). The lemmas about those functions state the
  limiter's guarantees: the table invariant `1 <= count <= budget`, the per-window budget over any
  run of requests, key uniqueness, and how a refusal reaches the client.

Modelling choices:

- The clock `Date.now()` is the parameter `now` (milliseconds).
- A request is `Request(ip, remoteAddress, path)`. The response is a returned value: a `Decision`
  (`next()` or `next(error)`, with the three rate-limit header values) or an `ErrorResponse`
  (status and body).
- `process.env.NODE_ENV === 'development'` is the boolean parameter `development`.
- The stack trace that the JavaScript runtime records in `new Error(message)` is an input of
  `CreateError`, and every created error carries one. The limiters' `Handle` and `HandleWhatsApp`
  take that trace as the parameter `stack`.
- An error's `code` is a string, as at run time. `createError` only ever stores a name of the
  `ErrorCode` union, but errors raised by libraries (multer's `LIMIT_FILE_SIZE`, for one) carry
  other names, and `getErrorMessage` then falls back to the unknown-error text.
- `details` (`any`) is carried as an opaque serialized string.
- The pass-through for an unconfigured endpoint class (`server/src/middleware/rateLimiter.ts:24-26`)
  is unreachable. `EndpointType` guarantees its result is a key of `RateLimits`, and `Handle`
  indexes the table directly, so that guarantee is checked at every request.
- `limit.windowMs / 1000` in the refusal text is a JavaScript float division. The model uses integer
  division and requires the window to be a whole number of seconds, which every configured window is.

## Model

| member | source | states |
|---|---|---|
| `Text.Contains` | server/src/middleware/rateLimiter.ts:70-71 | `s.includes(sub)` holds exactly when `sub` occurs at some index of `s` |
| `Text.DecimalRoundTrip` | server/src/middleware/rateLimiter.ts:53 | the decimal text interpolated into the refusal message reads back as the number |
| `ErrorHandler.CodeNameRoundTrip` | shared/types.ts:241-252 | every code's wire name reads back as that code |
| `ErrorHandler.ParseCodeSound` | shared/types.ts:241-252 | a name that reads as a code is exactly that code's wire name |
| `ErrorHandler.ErrorMessage` | server/src/middleware/errorHandler.ts:55-71 | the name of each of the 11 codes maps to its fixed text; any other name takes the `||` fallback to the `UNKNOWN_ERROR` text; never empty |
| `ErrorHandler.CreateError` | server/src/middleware/errorHandler.ts:42-53 | keeps message and details; status defaults to 500 and code to `UNKNOWN_ERROR` only when omitted; the result always has a status, a code name and a stack |
| `ErrorHandler.StatusOf` | server/src/middleware/errorHandler.ts:24 | the status is the error's own when set and non-zero, 500 when absent or 0, never 0 |
| `ErrorHandler.CodeOf` | server/src/middleware/errorHandler.ts:25 | the code is the error's own when set and non-empty, `UNKNOWN_ERROR` otherwise |
| `ErrorHandler.HandleError` | server/src/middleware/errorHandler.ts:24-39 | body has `success = false`, `error` = the message or `'An unexpected error occurred'` when empty, `message` = the code's text; stack and details appear exactly in development |
| `ErrorHandler.CreatedErrorResponse` | server/src/middleware/errorHandler.ts:24-53 | an error from `createError` is answered with the status given (500 if it was 0 or omitted), the given code's text, and in development exactly the stack recorded at creation |
| `ErrorHandler.ForeignCodeResponse` | server/src/middleware/errorHandler.ts:24-30 | an error with no status and a code outside the union gets status 500 and the text 'An unknown error occurred' |
| `RateLimiter.LimitOf` | server/src/middleware/rateLimiter.ts:13-17 | every configured budget is at least one request per 60000 ms |
| `RateLimiter.EndpointType` | server/src/middleware/rateLimiter.ts:69-73 | `upload` iff the path contains `/upload`; `send` iff not and it contains `/send` or `/messages`; `general` otherwise; always a configured class |
| `RateLimiter.ClientIp` | server/src/middleware/rateLimiter.ts:20 | the request's ip when non-empty, else its remote address when non-empty, else `unknown`; never empty |
| `RateLimiter.SplitOtherKey` | server/src/middleware/rateLimiter.ts:28 | a key built for one scope never carries another scope's suffix |
| `RateLimiter.KeyRoundTrip` | server/src/middleware/rateLimiter.ts:28 | `"<ip>:<scope>"` parses back to the client and the scope |
| `RateLimiter.ParseKeySound` | server/src/middleware/rateLimiter.ts:28 | a key that parses is exactly the key built from its parts |
| `RateLimiter.KeyInjective` | server/src/middleware/rateLimiter.ts:28 | two clients or two scopes never share a counter |
| `RateLimiter.ResetSeconds` | server/src/middleware/rateLimiter.ts:78 | the reset header is the reset instant in seconds rounded up |
| `RateLimiter.HeaderValues` | server/src/middleware/rateLimiter.ts:75-79 | remaining is clamped to `max(0, remaining)`; reset is `ceil(resetTime / 1000)` |
| `RateLimiter.Sweep` | server/src/middleware/rateLimiter.ts:81-87 | keeps exactly the entries with `resetTime >= cutoff`, unchanged, and keeps the table invariant |
| `RateLimiter.Hit` | server/src/middleware/rateLimiter.ts:37-66 | admits iff there is no live window or it has room; a new window stores `{1, now + windowMs}`; a live one counts up by exactly one and keeps its close time; a refusal changes nothing; no other key is written; the admitted count never exceeds the budget |
| `RateLimiter.HitPreservesWellFormed` | server/src/middleware/rateLimiter.ts:37-66 | every stored entry keeps `1 <= count <= requests` of its scope |
| `RateLimiter.SweepSparesOpenWindows` | server/src/middleware/rateLimiter.ts:29-33 | cleanup with cutoff `now - windowMs` never deletes a window still open at `now` |
| `RateLimiter.SweepInvisible` | server/src/middleware/rateLimiter.ts:29-37 | the cleanup pass never changes the outcome of the request that triggers it, nor its key's entry |
| `RateLimiter.ApiDecision` | server/src/middleware/rateLimiter.ts:44-65 | passes iff admitted, always with the headers; remaining is `requests - count`, or 0 with a 429 `RATE_LIMIT_EXCEEDED` error on refusal; reset is the window's close time in seconds rounded up |
| `RateLimiter.WhatsAppDecision` | server/src/middleware/rateLimiter.ts:98-118 | passes iff admitted, without headers; refusal is a 429 `RATE_LIMIT_EXCEEDED` error with the WhatsApp text |
| `RateLimiter.RejectionResponse` | server/src/middleware/errorHandler.ts:24-31 | a refusal from either limiter reaches the client as status 429 with message `'Rate limit exceeded'`, the limiter's text as `error`, and the stack exactly in development |
| `RateLimiter.ApiRejectionText` | server/src/middleware/rateLimiter.ts:52-56 | the refusal text names 100, 5 or 30 requests per 60 seconds |
| `RateLimiter.ApiOpensWindow` | server/src/middleware/rateLimiter.ts:37-46 | a key with no entry or an expired one gets `{1, now + windowMs}` and passes with `requests - 1` remaining |
| `RateLimiter.ApiRefusesFullWindow` | server/src/middleware/rateLimiter.ts:48-59 | a full live window is refused with 429 and remaining 0, and the table changes only by cleanup |
| `RateLimiter.ApiCountsInWindow` | server/src/middleware/rateLimiter.ts:61-66 | a live window with room counts one more, keeps its close time, and reports `requests - count` remaining |
| `RateLimiter.LiveWindowBudget` | server/src/middleware/rateLimiter.ts:37-66 | while a window stays open, exactly `min(requests arriving, requests - count)` more are admitted |
| `RateLimiter.FreshWindowBudget` | server/src/middleware/rateLimiter.ts:37-66 | a window admits at most `requests` (100, 5, 30 or 30) requests over its whole life |
| `RateLimiter.RateLimitStore.Cleanup` | server/src/middleware/rateLimiter.ts:81-87 | the loop leaves exactly `Sweep(old store, cutoff)` |
| `RateLimiter.RateLimitStore.Admit` | server/src/middleware/rateLimiter.ts:35-66 | the in-place open / increment / refuse leaves the table and outcome `Hit` gives |
| `RateLimiter.RateLimitStore.Handle` | server/src/middleware/rateLimiter.ts:19-67 | cleanup with cutoff `now - windowMs`, then the rule on `"<ip>:<class>"`; keeps the table invariant |
| `RateLimiter.RateLimitStore.HandleWhatsApp` | server/src/middleware/rateLimiter.ts:90-119 | the rule on `"<ip>:whatsapp"` with 30 per 60000 ms, without cleanup; keeps the table invariant |

## Left out

- The `setInterval` cleanup every five minutes with a one-hour cutoff (server/src/middleware/rateLimiter.ts:122-125) is timer-driven. `Cleanup` models what each run does.
- `Date.now()` is the parameter `now`. `console.error` logging is omitted.
- `res.setHeader`, `res.status(...).json(...)` and `next(...)` are modelled as returned values.
- The stack trace captured by `new Error(message)` comes from the JavaScript runtime. Its text is an input of `CreateError` and of the two limiters, so the model does not say what it contains.
- ErrorHandler.ErrorMessage: a code naming a property every JavaScript object inherits (`toString`, `constructor`, ...) is treated like any other unknown code, while the source's `messages[code]` would pick up that inherited property.
- A status code that is not a number (for example `NaN`, which `||` would also replace by 500) is not modelled, because statuses are integers here.
- `asyncHandler` (server/src/middleware/errorHandler.ts:74-75) only forwards a rejected promise to `next`. It is promise plumbing.
- Concurrency is not modelled. Node runs each middleware call to completion, so requests are sequential steps on the table.
- Every other file of the repository is not part of this model: upload, parsing, WhatsApp and socket services, the controllers and the client UI.
