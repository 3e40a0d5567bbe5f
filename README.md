# Pastebin-Lite: the create endpoint and the clock, in Dafny

Pastebin-Lite is a small paste-sharing web application. A client posts a text
with an optional time-to-live (`ttl_seconds`) and an optional view limit
(`max_views`). The server stores it and answers with an id and a share link
`origin/p/id`. This project models two pure pieces of its server:

- the `POST /api/pastes` handler (`frontend/src/app/api/pastes/route.ts`).
  It decodes the JSON body, then checks `content`, `ttl_seconds` and
  `max_views` in that order, with early return. The first failing check answers
  400 with its own message. On success it builds the record to store, with
  `remainingViews` seeded from `maxViews`, and answers 201 with `{id, url}`.
- the clock `getCurrentTimeMs` (`frontend/src/lib/time.ts`). In test mode
  (`TEST_MODE` is `"1"`) it takes a positive `x-test-now-ms` header as the
  current time. Otherwise it uses the system clock.

Files:

- `wrappers.dfy`: `Option` (a JavaScript `undefined`/`null` lookup) and `Result`.
- `js_values.dfy`: JavaScript numbers (a real, NaN or an infinity), JSON values,
  and the tests `typeof`, `Number.isInteger`, `Number.isNaN`, `<` and `>`.
- `js_trim.dfy`: `String.prototype.trim`, using ECMAScript's WhiteSpace and
  LineTerminator code points, with the proof that a string trims to `""`
  exactly when every character in it is one of those code points.
- `create_paste.dfy`: the validator, the record, the share link and its inverse,
  and the handler's outcome. The store-assigned id and the request origin are
  parameters.
- `clock.dfy`: the clock choice. The environment variable, the header, the
  `Number(...)` conversion and `Date.now()` are parameters.

Each check has an independent reference predicate that says what it should
accept. `AcceptableContent` is "a string that is not blank" and
`AcceptableLimit` is "absent, or exactly a positive integer". The check
functions are proved to accept exactly those inputs.

The JavaScript tests the checks use are small predicates without a contract
of their own, so they have no row below. `JsValues.IsInteger` is
`Number.isInteger` in `route.ts:33`: finite and with no fractional part.
`JsValues.LessThan` is `< 1` in `route.ts:34`. `JsValues.IsNaN` and
`JsValues.GreaterThan` are `Number.isNaN` and `> 0` in `time.ts:6`. Both
comparisons are false on NaN. `Clock.InTestMode` is `TEST_MODE === "1"` in
`time.ts:2`. `Clock.Supplied` is the truthiness of the header string in
`time.ts:4`: not `null` and not `""`. `Clock.UsableTime` is the condition in
`time.ts:6`.

## Model

| member | source | states |
|---|---|---|
| `JsValues.TypeOf` | frontend/src/app/api/pastes/route.ts:32 | `typeof` is "string" exactly for JSON strings and "number" exactly for JSON numbers. |
| `JsValues.FromInt` | frontend/src/app/api/pastes/route.ts:33 | the number that holds an integer passes `Number.isInteger` and has that integer as its value. |
| `JsValues.ToInt` | frontend/src/app/api/pastes/route.ts:41 | an integral number converts to the integer it holds, and converting back gives the same number. |
| `JsValues.IntRoundTrip` | frontend/src/app/api/pastes/route.ts:41 | converting an integer to a number and back gives the same integer, the other half of the `FromInt`/`ToInt` inverse. |
| `JsValues.IntegerNotBelowOne` | frontend/src/app/api/pastes/route.ts:33-34 | for an integral number, `n < 1` is false exactly when its integer is at least 1. |
| `JsTrim.TrimStart` | frontend/src/app/api/pastes/route.ts:22 | removes exactly the longest whitespace prefix: the result is a suffix of the input, the cut is all whitespace, and the result does not start with whitespace. |
| `JsTrim.TrimEnd` | frontend/src/app/api/pastes/route.ts:22 | removes exactly the longest whitespace suffix, the mirror of `TrimStart`. |
| `JsTrim.Trim` | frontend/src/app/api/pastes/route.ts:22 | `s.trim()` is a contiguous slice of `s` with only whitespace before and after it, and a non-empty result starts and ends with a visible character. |
| `JsTrim.TrimEmptyIffBlank` | frontend/src/app/api/pastes/route.ts:22 | `s.trim().length === 0` holds exactly when every character of `s` is whitespace. |
| `JsTrim.TrimIdempotent` | frontend/src/app/api/pastes/route.ts:22 | trimming twice gives the same result as trimming once. |
| `CreatePaste.Property` | frontend/src/app/api/pastes/route.ts:16-20 | reading a body property gives a value exactly when the key is present, so a missing key (`undefined`) is different from an explicit `null`. |
| `CreatePaste.CheckContent` | frontend/src/app/api/pastes/route.ts:22-27 | accepts exactly a present string that is not blank, returns that string unchanged, and otherwise fails with the content message. |
| `CreatePaste.CheckLimit` | frontend/src/app/api/pastes/route.ts:29-57 | accepts exactly an absent value (no limit) or a positive integer number. It returns no limit exactly when the value is absent, returns the number's own integer, and otherwise fails with the given message. |
| `CreatePaste.Validate` | frontend/src/app/api/pastes/route.ts:7-65 | an unparseable body is the only one answered "Invalid JSON body". An accepted object's record has the body's `content` verbatim and not blank, `ttlSeconds` and `maxViews` absent exactly when the property is and otherwise equal to the validated positive integer, and `remainingViews == maxViews`. |
| `CreatePaste.ValidateFirstFailureWins` | frontend/src/app/api/pastes/route.ts:22-57 | each message is returned exactly when all earlier checks pass and its own check fails, in the order content, `ttl_seconds`, `max_views`. The body is accepted exactly when all three pass. |
| `CreatePaste.NullLimitIsNotAbsent` | frontend/src/app/api/pastes/route.ts:30-40 | an explicit `null` limit is rejected, while an absent one means no limit. |
| `CreatePaste.NonPositiveOrNonIntegerLimitRejected` | frontend/src/app/api/pastes/route.ts:31-40 | 1.5, 0, an infinity and the string "10" are each rejected with the limit's message. |
| `CreatePaste.PaddedContentStoredVerbatim` | frontend/src/app/api/pastes/route.ts:22-65 | padded content is accepted and stored with its padding: the trim only decides blankness. |
| `CreatePaste.Url` | frontend/src/app/api/pastes/route.ts:76 | the share link is the origin, then `/p/`, then the id. |
| `CreatePaste.IdOfUrl` | frontend/src/app/api/pastes/route.ts:76 | the inverse of the link format: a link yields an id, the text after `origin + "/p/"`, exactly when it starts with that prefix. |
| `CreatePaste.IdOfUrlRoundTrip` | frontend/src/app/api/pastes/route.ts:76 | reading the id back from a share link gives the id it was built from. |
| `CreatePaste.UrlOfIdRoundTrip` | frontend/src/app/api/pastes/route.ts:76 | every link that yields an id is the share link of that id. |
| `CreatePaste.UrlInjective` | frontend/src/app/api/pastes/route.ts:76 | two ids from the same origin get the same link only if the ids are equal. |
| `CreatePaste.Create` | frontend/src/app/api/pastes/route.ts:59-84 | status 201 exactly when something is stored, and the status is always 201 or 400. What is stored is the validated record, and the 201 payload is `{id, url}` with `url == origin + "/p/" + id`. A rejected body stores nothing and answers with the failing check's message. |
| `CreatePaste.UnparseableBodyRejected` | frontend/src/app/api/pastes/route.ts:7-14 | a body that is not JSON gets 400 "Invalid JSON body" and nothing is stored. |
| `CreatePaste.CreatedLinkLeadsToPaste` | frontend/src/app/api/pastes/route.ts:71-84 | on 201 the returned link reads back to the returned id, which is the store's id. |
| `Clock.CurrentTimeMs` | frontend/src/lib/time.ts:1-12 | outside test mode it returns the system time. A missing or empty header gives the system time, and so does a header that is NaN or not above 0. In test mode a header that parses to a number above 0 is returned as is. |
| `Clock.CurrentTimeIsSystemOrPositive` | frontend/src/lib/time.ts:4-11 | the result is either the system time or a strictly positive header value, so a positive system clock always gives a positive time. |
| `Clock.HeaderIgnoredOutsideTestMode` | frontend/src/lib/time.ts:2-11 | outside test mode two requests with any headers and any parsing get the same time. |
| `Clock.HeaderExamples` | frontend/src/lib/time.ts:3-11 | "0", "-5" and "abc" fall back to the system clock, "1700000000000" is used, and a test-mode value other than "1" ignores the header. |

## Left out

- Storing the record (`prisma.paste.create`) and generating the id are database calls. The id is a parameter of `Create`, and a failing store, which surfaces as an unhandled error, is not modelled.
- Working out the origin with `new URL(request.url).origin` is URL parsing. The origin is a parameter.
- The body must decode to a JSON object. Valid JSON that is not an object is not represented: a literal `null` makes the destructuring throw, and other non-objects read every property as `undefined`.
- Floating-point rounding is not modelled. A JSON number is its exact real value, or an infinity when it overflows. So, for example, `1e16 + 1` is not rounded.
- `CheckLimit`: the model accepts every positive integer. The database column's integer range is not modelled, because a stored value that overflows it fails inside the store.
- Strings are sequences of Unicode scalar values. A JSON string holding a lone UTF-16 surrogate (such as `"\ud800"`) cannot be represented, although the handler would accept and store it. The blank check is not affected, because every character `trim()` removes is a non-surrogate in the Basic Multilingual Plane. `.length` counts UTF-16 code units, but the handler only compares it with 0, which is the same as the string being empty.
- Routing and percent-decoding of share links are not modelled. `IdOfUrl` is the inverse of `Url` only. Its round trip matches the id the paste page receives only for ids without `/`, `?`, `#` or `%`.
- How `Number(...)` converts a header string to a number is a parameter of `CurrentTimeMs`. So are the case-insensitive header lookup and reading `TEST_MODE` from the environment.
- The read path (`GET /api/pastes/[id]` and the `/p/[id]` page) is not part of this model. That covers TTL and view-count expiry and the view decrement, which is a read-then-write race under concurrency.
- The form's own client-side checks in `page.tsx` are React state handling and are not modelled. That form sends trimmed content, but the server handler stores whatever it receives without trimming.
- Database client setup, the health probe, generated client code and the UI markup are plumbing with no logic to model.
