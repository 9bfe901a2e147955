# Drawing-to-SVG: the request path around the AI model

Drawing-to-SVG turns a drawing, sent as a Base64 image data URI, into SVG
text produced by a hosted Gemini model. The user supplies their own API key
with each request. This project models the three pieces of logic on that
path.

- **The server action** `handleVectorizeImageAction` (`actions.dfy`, module
  `Actions`). It checks the API key, then checks that the drawing is
  non-empty and matches the data-URI pattern. It then configures the shared
  Genkit client and runs the flow. Every outcome is folded into a
  `{ svgData, error }` record, and a thrown error's message goes through a
  priority chain of substring tests.
- **The flow** `vectorizeImage` (`vectorize_image.dfy`, module
  `VectorizeImageFlow`). It checks that the model returned a non-empty
  `svgData`. It only warns when the text does not look like SVG. It
  replaces "model is not available" errors with a fixed message and
  rethrows every other error unchanged.
- **The client module** (`genkit.dfy`, module `Genkit`). This is the
  module-level client `ai` together with the key it was last configured
  with. `configureGenkitInstance` keeps, resets or rebuilds the client, and
  chooses the message it throws when building fails.
  - It is a class, `GenkitModule`, whose method changes its two fields.
  - `Valid()` is its invariant: the recorded key is never empty, it is
    exactly the key the live client was built with, and the client has the
    default model exactly when it has the Google AI plugin.

`pipeline.dfy` (module `Pipeline`) puts the three together. `HandleRequest`
runs one request against a `GenkitModule`, calling its method only after
validation has passed. The lemmas there follow the messages of the
configuration and of the flow through the handler's mapping.

`js_string.dfy` holds the JavaScript string operations used on this path:
`toLowerCase`, `includes`, `startsWith`, `endsWith` and `trim`.
`outcomes.dfy` holds the representation of values that may be
`null`/`undefined`, thrown values, and awaited calls.

The three foreign calls are inputs to the model:
- the model call `ai.generate` is a `Completion<GenerateResponse>`;
- building a client with the Google AI plugin is a `Completion<()>`;
- reading `Object.keys(ai.registry.models).length` is a `RegistryProbe`.

The handler takes how each awaited call ended as a parameter. It reads that
parameter only on the path where the code makes the call.

The order of the checks follows the code, which tests the API key before the
drawing.

Two details of the code carry over to the model:
- The handler trims the key only to test it. It passes the untrimmed key on,
  so `" abc "` is configured and recorded with its spaces.
- The handler's "deadline" test is case-sensitive while its other tests are
  not. "Deadline exceeded" therefore reaches the caller as it is.

## Model

| member | source | states |
|---|---|---|
| JsString.TrimStart | src/ai/flows/vectorize-image.ts:70 | the leading part `trim` removes is all whitespace and what is left does not start with whitespace |
| JsString.TrimEnd | src/ai/flows/vectorize-image.ts:70 | the trailing part `trim` removes is all whitespace and what is left does not end with whitespace |
| JsString.Trim | src/ai/flows/vectorize-image.ts:70 | `trim` removes leading and trailing whitespace; its properties are those of `TrimStart` and `TrimEnd` |
| JsString.ToLower | src/app/actions.ts:44 | `toLowerCase` maps each character through the ASCII lower-case mapping and keeps the length |
| JsString.Includes | src/app/actions.ts:44 | `includes` holds when the pattern occurs at some index of the string |
| Actions.BlankIffAllWhitespace | src/app/actions.ts:13 | `!apiKey \|\| !apiKey.trim()` holds exactly when every character of the key is whitespace |
| Actions.IsBlank | src/app/actions.ts:13 | the test `!apiKey \|\| !apiKey.trim()`: the key is empty or trims to nothing |
| Actions.PassesValidation | src/app/actions.ts:13-23 | the three guards all pass: the key is not blank, the drawing is non-empty and it matches the data-URI pattern |
| Actions.BlankKeyRejectedFirst | src/app/actions.ts:13-15 | an empty or all-whitespace key gives the "API Key is required." result whatever the drawing and the later outcomes |
| Actions.EmptyDrawingRejected | src/app/actions.ts:17-19 | with a key that is not blank, an empty drawing gives the "No drawing data provided" result |
| Actions.MatchAlternatives | src/app/actions.ts:21 | the group `(png\|jpeg\|gif\|webp)` followed by `;base64,` matches exactly when some alternative followed by the marker is a prefix |
| Actions.IsImageDataUri | src/app/actions.ts:21 | the anchored pattern accepts exactly the strings starting with `data:image/`, one of the four subtypes and `;base64,` |
| Actions.PayloadNotExamined | src/app/actions.ts:21-23 | after an accepted prefix any payload passes, the empty one included |
| Actions.OtherSubtypesRejected | src/app/actions.ts:21-23 | `image/jpg` and `image/svg+xml` data URIs are rejected |
| Actions.CaseSensitiveAndAnchored | src/app/actions.ts:21-23 | the test is case-sensitive and anchored: `DATA:` and a leading space are rejected |
| Actions.InvalidFormatRejected | src/app/actions.ts:21-23 | with a key that is not blank, a non-empty drawing the pattern rejects gives the "Invalid image data format" result whatever the later outcomes |
| Actions.TextDataUriRejected | src/app/actions.ts:21-23 | with a key that is not blank, a `data:text/plain;base64,` drawing gives the "Invalid image data format" result |
| Actions.TextDataUriNotImage | src/app/actions.ts:21 | the data-URI pattern rejects `data:text/plain;base64,AAAA` |
| Actions.MessageOf | src/app/actions.ts:38-41 | the message of a thrown `Error`, and the generic "unexpected error" text for anything else |
| Actions.MentionsTimeout | src/app/actions.ts:46 | the second test: "deadline" as written, or "timeout" in any letter case |
| Actions.Caught | src/app/actions.ts:36-56 | the catch block's result: an error carrying the thrown value's message after the handler's mapping |
| Actions.MapErrorMessage | src/app/actions.ts:43-53 | the first matching test picks the message: invalid key, then "deadline" (case-sensitive) or "timeout", then "quota"; a message matching none is kept |
| Actions.FromFlowOutput | src/app/actions.ts:32-35 | exactly one field is set; `svgData` is set exactly when the flow returned an output with non-empty `svgData`, and then it is that text; otherwise the error is "AI model did not return SVG data" |
| Actions.TryVectorize | src/app/actions.ts:25-57 | exactly one field is set; `svgData` is set exactly when configuration and the flow return normally with non-empty `svgData`, and then it is that text; a throw from configuration, or from the flow after configuration succeeded, gives that value's mapped message as the error |
| Actions.HandleVectorizeImageAction | src/app/actions.ts:12-58 | exactly one field of the result is set and `svgData` is never empty; `svgData` is set exactly when all checks pass, configuration and the flow succeed and the flow's `svgData` is non-empty, and then it is that text |
| Actions.ValidationPrecedesCalls | src/app/actions.ts:13-27 | a validation failure does not depend on how configuration or the flow would end, and it is one of the three validation messages |
| Actions.ConfigureFailureSkipsFlow | src/app/actions.ts:25-56 | when configuration throws, the flow's outcome is ignored and the mapped message is returned as an error |
| Actions.FlowFailureCaught | src/app/actions.ts:30-56 | when the flow throws, its mapped message is returned as an error |
| Actions.EmptyFlowResultGivesNoSvgData | src/app/actions.ts:32-34 | after validation, a successful configuration and a flow result that is missing or has empty `svgData` give the "AI model did not return SVG data" result |
| Actions.MapErrorMessageRange | src/app/actions.ts:43-53 | the mapped message is the original or one of the three replacement texts |
| Actions.MapErrorMessageIdempotent | src/app/actions.ts:43-53 | mapping a mapped message again changes nothing |
| Actions.NonErrorGivesUnexpectedError | src/app/actions.ts:38-41 | a thrown value that is not an `Error` gives the generic message, which no test changes |
| Actions.DeadlineTestIsCaseSensitive | src/app/actions.ts:46 | "deadline exceeded" maps to the time-out message while "Deadline exceeded" is kept unchanged |
| Actions.KeyNotValidUnmapped | src/app/actions.ts:44-45 | the invalid-key replacement maps to itself |
| Actions.TimedOutUnmapped | src/app/actions.ts:46-47 | the time-out replacement maps to itself |
| Actions.QuotaIssueRemapsToItself | src/app/actions.ts:48-49 | the quota replacement matches only the quota test and maps to itself |
| Actions.QuotaIssueMentionsQuota | src/app/actions.ts:49 | the quota replacement contains "quota" |
| VectorizeImageFlow.CatchGenerationError | src/ai/flows/vectorize-image.ts:79-86 | a thrown value is replaced only by the fixed "currently unavailable" error, and exactly when it is an `Error` whose message contains "model is not available" |
| VectorizeImageFlow.VectorizeImage | src/ai/flows/vectorize-image.ts:30-87 | the flow returns normally exactly when the model returned an output with non-empty `svgData`; it then returns that output unchanged, and only then can it warn |
| VectorizeImageFlow.MissingSvgDataKeptByCatch | src/ai/flows/vectorize-image.ts:63-85 | the "did not return the expected SVG data format" error passes the catch block unchanged |
| VectorizeImageFlow.MissingOutputFails | src/ai/flows/vectorize-image.ts:63-67 | a missing output or an empty `svgData` makes the flow throw the "expected SVG data format" error without a warning |
| VectorizeImageFlow.ShapeCheckOnlyWarns | src/ai/flows/vectorize-image.ts:69-78 | non-empty output is returned whether or not it looks like SVG; the warning is logged exactly when it does not |
| VectorizeImageFlow.UntrimmedOutputReturned | src/ai/flows/vectorize-image.ts:69-78 | SVG text with a space before it and a line break after it passes the shape check and is returned with both |
| VectorizeImageFlow.PaddingTrimmed | src/ai/flows/vectorize-image.ts:70 | `trim` removes one space before and one line break after text that neither starts nor ends with whitespace |
| VectorizeImageFlow.LooksLikeSvg | src/ai/flows/vectorize-image.ts:70-71 | the shape check: the trimmed text starts with `<svg` and ends with `</svg>` |
| VectorizeImageFlow.GenerationErrorsRethrown | src/ai/flows/vectorize-image.ts:79-86 | an error mentioning "model is not available" becomes the fixed message; every other thrown value is rethrown as it is |
| VectorizeImageFlow.CatchGenerationErrorIdempotent | src/ai/flows/vectorize-image.ts:81-82 | the replacement message passes the catch block again unchanged |
| Genkit.ConfigFailureMessage | src/ai/genkit.ts:66-75 | each of the four messages is chosen exactly when its test is the first to match, and non-`Error` values get the generic one |
| Genkit.MentionsInvalidKey | src/ai/genkit.ts:68 | the lower-cased message contains "api key not valid" or "invalid api key" |
| Genkit.MentionsQuota | src/ai/genkit.ts:70 | the lower-cased message contains "quota" |
| Genkit.MentionsPermissionDenied | src/ai/genkit.ts:72 | the lower-cased message contains "permission denied" |
| Genkit.StepFor | src/ai/genkit.ts:14-47 | the step taken: an empty key takes the missing-key step, the recorded key with a registry holding models keeps the client, anything else rebuilds |
| Genkit.ConfigureOutcome | src/ai/genkit.ts:14-77 | how the call ends for each step: an empty key throws, a kept client returns, a rebuild returns or throws the chosen message |
| Genkit.NextConfiguredKey | src/ai/genkit.ts:14-77 | the key recorded after the call: none after a reset or a failed build, the old one when kept, the supplied one after a successful build |
| Genkit.GenkitInstance.Unconfigured | src/ai/genkit.ts:9 | a client with no plugins has no key and no default model |
| Genkit.GenkitInstance.WithGoogleAi | src/ai/genkit.ts:49-52 | a client built with the Google AI plugin carries the key and the default model name |
| Genkit.GenkitModule.constructor | src/ai/genkit.ts:9-11 | at load time the client has no key and no default model, no key is recorded, and the invariant holds |
| Genkit.GenkitModule.ConfigureGenkitInstance | src/ai/genkit.ts:13-78 | keeps the invariant; the outcome and the new recorded key are those of the three steps; an empty key replaces the client only if a key was recorded; a kept client is the same object; a rebuild makes a fresh client carrying the key and the default model on success and neither on failure; a reset client has neither |
| Genkit.EmptyKeyThrows | src/ai/genkit.ts:14-23 | an empty key always throws "API Key is required to use AI features." and leaves no key recorded |
| Genkit.SameKeyWithModelsIsNoOp | src/ai/genkit.ts:31-38 | the recorded key again with a non-empty registry returns normally and keeps the key |
| Genkit.RebuildIff | src/ai/genkit.ts:31-47 | the client is rebuilt exactly when the key is non-empty and differs from the recorded one, or the registry probe throws or finds no model |
| Genkit.RebuildResult | src/ai/genkit.ts:47-77 | a successful rebuild records the supplied key; a failed one records none and throws the chosen message |
| Genkit.NormalIffKeyRecorded | src/ai/genkit.ts:13-78 | the call returns normally exactly when the supplied key is recorded afterwards; every failure is an `Error` and leaves no key recorded |
| Genkit.RecordedKeyNeverEmpty | src/ai/genkit.ts:11-64 | the recorded key never becomes the empty string |
| Pipeline.HandleRequest | src/app/actions.ts:25-35 | the result is that of the handler composed with configuration and the flow; a request failing validation leaves the module untouched; otherwise the recorded key moves as configuration says; a success leaves the request's key recorded |
| Pipeline.SeenByHandler | src/app/actions.ts:30 | how the awaited `vectorizeImage(input)` looks to the handler: the output it returned, or the value it threw |
| Pipeline.Vectorize | src/app/actions.ts:12-58 | the handler run with the outcome of `configureGenkitInstance` for the recorded key and what `vectorizeImage` gives for the model's response |
| Pipeline.FlowNeverReturnsEmpty | src/app/actions.ts:32-34 | the flow never returns a missing output or empty `svgData`, so the handler's "did not return SVG data" branch is not reached through it |
| Pipeline.SuccessIff | src/app/actions.ts:12-35 | a request returns SVG exactly when validation passes, configuration returns normally and the model gives non-empty `svgData`; the text is returned untrimmed |
| Pipeline.ConfigureNeverSeesMissingKey | src/ai/genkit.ts:14-23 | a key that passes the handler's check never takes the "API Key is required to use AI features." path |
| Pipeline.ValidatedRequestTries | src/app/actions.ts:25-57 | once validation passes, the request's result is that of the `try` block over configuration and the flow |
| Pipeline.ConfigureFailureMessages | src/ai/genkit.ts:61-76 | when building fails, whatever the flow would do, the `try` block returns the invalid-key message, the handler's own quota message, the permissions message or the generic configuration message, by the same tests as the configuration |
| Pipeline.ConfigFailureMessageMapped | src/app/actions.ts:43-53 | the handler keeps the configuration's invalid-key, permissions and generic messages and rewrites its quota message |
| Pipeline.FlowFailureMessages | src/ai/flows/vectorize-image.ts:63-86 | when configuration returns normally, a missing output reaches the caller as the flow's message, an unavailable model as the flow's replacement, and every other error through the handler's mapping |
| Pipeline.QuotaProblemRemapped | src/ai/genkit.ts:70-71 | the configuration's quota message contains "quota" and none of the earlier phrases, so the handler rewrites it into its own |
| Pipeline.PermissionProblemKept | src/ai/genkit.ts:72-73 | the permissions message matches none of the handler's tests |
| Pipeline.ConfigureFailedKept | src/app/actions.ts:50-53 | the generic "Failed to configure AI service" message matches none of the handler's tests |
| Pipeline.ModelUnavailableKept | src/ai/flows/vectorize-image.ts:81-82 | the flow's "currently unavailable" message matches none of the handler's tests |
| Pipeline.MissingSvgDataKept | src/ai/flows/vectorize-image.ts:63-66 | the flow's "expected SVG data format" message matches none of the handler's tests |

The lemmas named `<Message>No<Phrase>` and their `…UpTo<n>` parts
establish, position by position, that a fixed message does not contain one
of the phrases tested for. They serve only as steps of the proofs above.

## Left out

- The user interface is not part of this model: `src/app/page.tsx`, the drawing canvas, the header and the footer.
- The SVG preview's script-stripping `replace` is not part of this model; it relies on a regular-expression engine with look-ahead.
- The bodies of `ai.generate`, `genkit(...)` and `googleAI(...)` are foreign library calls. Their outcomes and the registry probe are inputs.
- Genkit.GenkitModule.ConfigureGenkitInstance: the model assumes that `genkit({ plugins: [] })` never throws, at load time (src/ai/genkit.ts:9), on the reset for a missing key (line 18) and on the fallback after a failed build (line 63). If line 18 threw, the call would reject with that library error instead of "API Key is required to use AI features." and would keep the recorded key, so `Genkit.EmptyKeyThrows` rests on this assumption. The same call with the same argument has already succeeded at load time.
- The prompt text and the input and output schema descriptions are constants that nothing here checks.
- `console.*` logging is left out, except whether the flow logs its "does not look like SVG" warning.
- `async`/`await` and concurrent requests are left out, including the unguarded race on the shared client and recorded key. Calls are sequential.
- JsString.ToLower: lower-cases ASCII letters only, while JavaScript's `toLowerCase` covers all of Unicode; the two differ only on non-ASCII text.
- VectorizeImageFlow.VectorizeImageOutput: a missing `svgData` is folded into the empty string, which every check treats in the same way.
- Genkit.GenkitModule.ConfigureGenkitInstance: the key is a string, so the `undefined` and `null` keys the `!apiKey` test also rejects are represented by the empty string.
- Genkit.GenkitInstance.WithGoogleAi: a client records only its plugin key and default model, not the rest of the library's internal state.
