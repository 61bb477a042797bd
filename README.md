# process_music_callback: the status envelope

This project models the handler of the `process_music_callback` tool
(`src/tools/musicCallback.ts`). The handler looks up a music-generation job by
its identifier at an external service and turns the reply into a small status
envelope, `MusicCallbackResponse`. The reply must be a non-empty array. Its
first element is the job record, `MusicInfo`. The record's raw status is
mapped to `pending`, `complete` or `error`, and three flags say which media
locators (image, audio, video) are present. Every failure goes through one
`catch` block. That block returns a uniform error envelope whose only varying
part is the message.

The model is pure. The HTTP request and the JSON parsing are not modelled.
Their result is the input `Outcome`: either a thrown failure (an `Error`
object with a message, or some other thrown value) or the parsed body. The
body is either not an array, or an array of elements, and each element is
either falsy or a record. `MusicCallback.Handle` maps an `Outcome` to the
envelope. It is total, as the handler never throws to its caller.

Files:
- `wrappers.dfy`: `Option` (an absent optional field) and `Result` (a value or a thrown one).
- `music_callback.dfy`: the records, the envelope and the handler's steps.
- `music_callback_properties.dfy`: lemmas that relate several calls or quantify over outcomes and envelopes.

The record's fields keep the service's JSON names in camelCase
(`image_url` becomes `imageUrl`). The key `type` is named `kind` because
`type` is a Dafny keyword.

A raw status of `"error"` does not produce a failure envelope. The code sends
such a record down the success path (lines 80-81 and 89-95): the envelope has
status `error`, carries the record, and has no error message. One might expect
status `error` to mean that no record is present; the code does not
guarantee this. Only the failure envelope does (`ErrorStatusKeepsData`,
`ErrorStatusSources`).

## Model

| member | source | states |
|---|---|---|
| `MusicCallback.ClassifyStatus` | src/tools/musicCallback.ts:76-82 | raw `"complete"` gives `Complete` and only it does; raw `"error"` gives `Error` and only it does; every other string, `"streaming"` and `""` included, gives `Pending` |
| `MusicCallback.Truthy` | src/tools/musicCallback.ts:85-87 | the `!!` coercion of a locator is true exactly when the string is non-empty |
| `MusicCallback.FirstRecord` | src/tools/musicCallback.ts:65-74 | succeeds exactly when the body is a non-empty array whose first element is a record, and then yields that first element; throws "Invalid response format" exactly when the body is not an array or is empty; throws "Music info not found" exactly when the first element is falsy |
| `MusicCallback.Process` | src/tools/musicCallback.ts:52-74 | a transport or parser failure propagates unchanged; a fetched body that is not an array or is empty throws "Invalid response format"; one whose first element is falsy throws "Music info not found"; otherwise the first element is yielded |
| `MusicCallback.CatchMessage` | src/tools/musicCallback.ts:99-100 | an `Error` object is reported by its own message; any other thrown value by "Unknown error occurred" |
| `MusicCallback.Success` | src/tools/musicCallback.ts:84-95 | the success envelope carries the record, no error, the classified status, and flags equal to the non-emptiness of each locator |
| `MusicCallback.Failure` | src/tools/musicCallback.ts:96-105 | the failure envelope has no record, the catch message, status `Error` and all three flags false |
| `MusicCallback.Handle` | src/tools/musicCallback.ts:49-105 | every result is one of the two envelope shapes, and `data` and `error` are never both present nor both absent; the success shape arises exactly when the body is a non-empty array whose first element is a record, and then `data` is that element; a non-array or empty body yields "Invalid response format"; a falsy first element yields "Music info not found"; a thrown `Error` yields its message and another thrown value "Unknown error occurred"; without data, the status is `Error` and no flag is set |
| `MusicCallbackProperties.ClassifyStatusOnto` | src/tools/musicCallback.ts:26 | every one of the three statuses is the classification of some raw string |
| `MusicCallbackProperties.HandleOnto` | src/tools/musicCallback.ts:89-105 | every envelope of one of the two shapes is returned for some outcome, so the handler's results are exactly those envelopes |
| `MusicCallbackProperties.LaterElementsIgnored` | src/tools/musicCallback.ts:70 | two array bodies with the same first element give the same envelope, whatever the later elements are |
| `MusicCallbackProperties.FlagsIgnoreStatus` | src/tools/musicCallback.ts:84-87 | changing the record's raw status to any string leaves all three flags unchanged, and each flag is set exactly when its locator is non-empty |
| `MusicCallbackProperties.ErrorStatusKeepsData` | src/tools/musicCallback.ts:80-81 | a record whose raw status is `"error"` yields status `Error` with the record present and no error message |
| `MusicCallbackProperties.ErrorStatusSources` | src/tools/musicCallback.ts:77-105 | status `Error` arises from the failure envelope or from a first record with raw status `"error"` and from nothing else, and status `Error` with data present arises exactly from the latter |
| `MusicCallbackProperties.MalformedBodiesDistinguished` | src/tools/musicCallback.ts:65-74 | a non-array or empty body and an array with a falsy first element yield two different error messages |
| `MusicCallbackProperties.FailureCauseOnlyInMessage` | src/tools/musicCallback.ts:96-105 | a failing body gives the same envelope as a transport failure with the same message, so the envelope does not record the cause |
| `MusicCallbackProperties.CompleteScenario` | src/tools/musicCallback.ts:77-95 | a complete job with image and audio locators but no video yields status `Complete` with flags true, true, false |
| `MusicCallbackProperties.StreamingScenario` | src/tools/musicCallback.ts:77-95 | a `"streaming"` job without locators yields status `Pending` with all flags false |
| `MusicCallbackProperties.NetworkDownScenario` | src/tools/musicCallback.ts:96-105 | a transport failure with message "network down" yields the failure envelope with that message |

## Left out

- The request through `retryFetch`: URL construction from `SUNO_API_BASE_URL` and `music_id`, the headers, and the retry policy (lines 50-61). This is network I/O through a helper that is not part of this model. Its result is the input `Outcome`.
- `response.json()` (line 63) is not modelled. A body that is not valid JSON makes the parser throw an `Error`, which is the `Failed(ErrorObject(...))` outcome carrying the parser's message.
- The unchecked cast `result[0] as MusicInfo` (line 70). An element is either falsy or a well-typed record. A truthy element that is not an object, or an object with missing or non-string fields, is not modelled. Such an element would reach the success path with `undefined` fields.
- `MusicInfo` has only the twelve declared fields. The cast does not copy the parsed object, so any further keys the service sends reach the caller in `data` (line 90). The model does not represent those extra keys.
- The different falsy values (`null`, `undefined`, `0`, `""`, `false`, `NaN`) are one `Falsy` element, because the code treats them alike.
- The `console.error` call in the `catch` block (line 97) is a logging side effect.
- The tool's registration metadata: its name, description and parameter schema (lines 33-45). It is static configuration.
- `async`/`await` suspension. There is no shared state to reason about. Calls are deterministic functions of their `Outcome`, so two calls against an unchanged service give the same envelope.
- The optional (`?`) declaration of `hasImage`, `hasAudio` and `hasVideo` (lines 28-30). The handler always sets them, so the model makes them plain booleans.
