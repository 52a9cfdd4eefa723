# Image generator session and history — a Dafny model

This project models the core of a browser front end that sends a text prompt,
a visual style and an aspect ratio to a remote image-generation service. It
shows the returned image, keeps a local history of the latest fifty results,
and persists that history in the browser's key-value storage.

Three pieces are modelled:

- **The generation client** (`GeminiService`, from `services/geminiService.ts`).
  The instruction is the prompt followed directly by the style suffix, and the
  aspect ratio is passed through unchanged. The client reads the parts of the
  first candidate, where a missing link counts as no parts. The first part with
  inline data becomes a `data:image/png;base64,` URI. When no part has inline
  data, the client throws the no-image error. Errors from the remote call are
  rethrown unchanged. The scan is a method with a loop (`ScanParts`), proved
  against the pure specification `ExtractImage`.
- **The session** (`App.Session`, from `App.tsx`). This is a class with the
  component's state: prompt, selected style, aspect ratio, application state,
  current image, history, error message, and the browser storage it writes.
  The one `await` splits `handleGenerate` into `BeginGenerate` and
  `CompleteGenerate`. `BeginGenerate` returns a `Pending` record with the
  prompt, ratio and style that the handler's closure captured. The record is
  built from those values, not from what the fields hold at completion. The
  history update is a functional update, so it prepends to the history as it
  is at completion. The write-back of the history is a React effect. It is
  modelled by a `historyDirty` flag and the `SaveHistory` method, and
  `Valid()` says that storage agrees with the history whenever no write-back
  is due. The pure bounded update `[newImage, ...prev].slice(0, 50)` is
  `History.PushRecent`, with lemmas on sequences of successes.
- **The catalog** (`Constants`, from `constants.tsx`): the eight styles and
  the five aspect ratios, as constants with lemmas about them.

`Scenarios` runs a few action sequences on a `Session` and proves their
outcome from the handlers' contracts alone. These are an example run with the
prompt "a red fox in snow", a retry after failure, regenerating while a generation
runs, clearing then reloading, and selecting an older entry.

Four behaviours of the code worth stating plainly:

- A submit while a generation runs is not a no-op. `handleGenerate` has no
  guard. Only the sidebar and mobile buttons are disabled (`CanSubmit`). The
  "regenerate" button stays shown whenever there is a current image, and
  `Scenarios.RegenerateWhileGenerating` uses it to start a second request.
- Clearing removes the storage key. The history effect then fires because
  the history changed, and it writes the empty history back. Either way the
  next load yields an empty history (`Scenarios.ClearThenReload`).
- A load does not cap the stored history at fifty. Only a success truncates
  it, so the cap holds after every success, and otherwise only when the loaded
  history had at most fifty entries. A longer stored history is shown, and
  written back, at its full length until the next success
  (`History.PushAll`, `History.PushAllKeepsNewest`).
- The error message shown is the error's own message. When that message is
  empty, the fixed fallback is shown instead.

## Model

| member | source | states |
|---|---|---|
| JsString.LeadingCount | App.tsx:73 | the count covers whitespace only and stops at the first non-whitespace character |
| JsString.TrailingCount | App.tsx:73 | the count covers whitespace only and stops at the last non-whitespace character |
| JsString.Trim | App.tsx:73 | the trimmed prompt is never longer than the input and does not start with whitespace |
| JsString.TrimDropsWhitespace | App.tsx:73 | everything `trim` removes, before and after the part it keeps, is whitespace |
| JsString.TrimEmptyIffBlank | App.tsx:73 | `prompt.trim()` is empty exactly when every character is JavaScript whitespace |
| JsString.TrimIsCore | App.tsx:73 | the trimmed string is a substring of the input that neither starts nor ends with whitespace |
| Constants.AiStyles | constants.tsx:4-13 | the style table, entry for entry: id, display name, preview image and prompt suffix |
| Constants.AspectRatios | constants.tsx:15-21 | the aspect-ratio table: each option's label and value |
| Constants.StyleCatalog | constants.tsx:4-13 | eight styles with pairwise distinct ids; the first is `none` with an empty suffix; every other suffix is longer than two characters and starts with ", " |
| Constants.RatioCatalog | constants.tsx:15-21 | five options, each label equal to its value's literal, no value twice |
| Constants.EveryRatioOffered | constants.tsx:15-21 | every member of the `AspectRatio` union is offered, so the options are exactly the union |
| Constants.RatioTextInjective | types.ts:2 | distinct ratios have distinct literals |
| GeminiService.ComposePrompt | services/geminiService.ts:11 | the instruction is the prompt followed by the suffix, with nothing between them |
| GeminiService.CandidateParts | services/geminiService.ts:31 | the parts are those of the first candidate's content when the whole chain is present, and empty otherwise |
| GeminiService.Interpolate | services/geminiService.ts:34 | a present payload is rendered as itself and an absent one as `undefined` |
| GeminiService.DataUri | services/geminiService.ts:33-34 | the URI is the PNG base64 prefix followed by the rendered payload, so it is never empty |
| GeminiService.FirstInlineIndex | services/geminiService.ts:31-37 | the index is the first part with inline data, or the number of parts when there is none |
| GeminiService.ExtractImage | services/geminiService.ts:28-37 | None exactly when no part has inline data; otherwise the URI of the first part that has it |
| GeminiService.ScanParts | services/geminiService.ts:28-37 | the loop with `break` yields the URI `ExtractImage` describes, or the empty string when it finds none |
| GeminiService.Outcome | services/geminiService.ts:28-47 | a rejected call gives its own error; a response gives the no-image error exactly when no part of the first candidate has inline data; a success is exactly the URI `ExtractImage` gives for the first candidate's parts, so it starts with the data URI prefix |
| GeminiService.GenerateAIImage | services/geminiService.ts:5-48 | sends the composed instruction and the unchanged aspect ratio, and settles to `Outcome` of the reply |
| GeminiService.LaterPartsIgnored | services/geminiService.ts:31-36 | once a part with inline data is found, appending parts does not change the result |
| GeminiService.TextPartSkipped | services/geminiService.ts:31-32 | a part without inline data before the image changes nothing |
| GeminiService.OnlyFirstCandidateRead | services/geminiService.ts:31 | candidates after the first are never read |
| GeminiService.MissingChainFails | services/geminiService.ts:31-41 | missing candidates or content gives the no-image error, not an empty image |
| History.PushRecent | App.tsx:90 | the new record comes first, then the old records in order; the length is min(50, old length + 1) |
| History.PushRecentEvicts | App.tsx:90 | below the cap nothing is dropped; at exactly fifty only the oldest is dropped |
| History.PushAll | App.tsx:90 | after at least one success, or from a history within the cap, the history holds at most fifty records |
| History.PushAllKeepsNewest | App.tsx:90 | after any run of successes the history is the new records newest first, then the old history, cut to fifty; a loaded history longer than fifty is cut at the first success |
| History.FiftyOneGenerations | App.tsx:90 | after 51 successes from empty, the first record is gone and the other fifty remain newest first |
| App.NewImage | App.tsx:81-87 | the record carries the returned URL, the unsuffixed prompt, the style's display name and the given id and timestamp |
| App.FailureMessage | App.tsx:94 | the message shown is never empty; it is the error's own message whenever that is non-empty |
| App.StoredHistory | App.tsx:57-65 | a history is found exactly when the key is present and its value parses, and it is that value |
| App.LoadedHistory | App.tsx:57-65 | a fresh start shows the stored history, or the empty one when none is found |
| App.SaveThenLoad | App.tsx:57-70 | loading what was saved gives the same history |
| App.LoadFailsSoft | App.tsx:58-64 | a missing key or a value that does not parse loads as the empty history |
| App.DefaultStyleKeepsPrompt | App.tsx:50 | with the default style the instruction is the user's prompt itself |
| App.DefaultRatioOffered | App.tsx:51 | the default ratio 1:1 is one of the catalog's options |
| App.Session.constructor | App.tsx:49-55 | the first render has an empty prompt, the first style, 1:1, Idle, no image, empty history and message; the write-back is due |
| App.Session.SetPrompt | App.tsx:138 | only the prompt changes |
| App.Session.SelectStyle | App.tsx:160 | only the selected style changes, and only to a catalog entry |
| App.Session.SelectAspectRatio | App.tsx:187 | only the aspect ratio changes |
| App.Session.CanSubmit | App.tsx:203 | the generate buttons are enabled exactly when no generation runs and the prompt has a non-whitespace character |
| App.Session.RetryShown | App.tsx:260-266 | whenever the error panel with its "try again" button is shown, it has a non-empty message to show (App.tsx:94) |
| App.Session.RegenerateShown | App.tsx:274 | the image panel with its regenerate button is shown exactly when there is a current image, whatever the state |
| App.Session.BeginGenerate | App.tsx:72-79 | a blank prompt changes nothing and issues nothing; otherwise the state is Generating and the message is empty; the request carries the values captured now; the image and history are untouched, and nothing checks for a running generation |
| App.Session.CompleteGenerate | App.tsx:79-95 | success: Success, the new record is the current image and is pushed onto the current history, and the message is untouched; failure: Error with the failure message, and image and history unchanged |
| App.Session.HandleGenerate | App.tsx:72-96 | an uninterrupted run: the request is the composed instruction with the ratio, and the session settles with the service's outcome; a blank prompt changes nothing |
| App.Session.SelectHistoryItem | App.tsx:333 | the chosen entry becomes the current image and nothing else changes |
| App.Session.ClearHistory | App.tsx:107-112 | confirmed: the history is empty and the key is removed, with state and current image kept; not confirmed: nothing changes |
| App.Session.LoadSaved | App.tsx:57-66 | a stored history that parses replaces the history; a missing key or malformed value leaves it as it is |
| App.Session.SaveHistory | App.tsx:68-70 | the history is written under `image_history`, and storage then agrees with it |
| App.Session.Mount | App.tsx:57-70 | after both mount effects the history is the stored one or empty, and storage is the old storage with only `image_history` written, holding that history |
| Scenarios.Reload | App.tsx:57-66 | a new page load shows exactly the history that storage holds, or the empty one |
| Scenarios.ClearThenReload | App.tsx:107-112 | after a confirmed clear, with or without the write-back, the next load is empty |
| Scenarios.RegenerateWhileGenerating | App.tsx:289 | during a generation the sidebar button is disabled, but the regenerate button is shown and starts a second request |
| Scenarios.RetryAfterFailure | App.tsx:265-266 | after a failure the retry button is shown with the error's message or the fallback, and it starts a new request |
| Scenarios.RedFox | App.tsx:72-91 | "a red fox in snow" with the oil-painting style and 16:9 sends the suffixed instruction with 16:9; the record keeps the bare prompt and becomes the only history entry |
| Scenarios.SelectAfterSuccess | App.tsx:333 | selecting an older entry after a success shows it and keeps the Success state |
| Scenarios.FailureKeepsStorageInStep | App.tsx:68-70 | once the history has been written back, a failed generation (App.tsx:92-95) leaves storage in step: a reload shows the session's history |

## Left out

- The remote SDK call, the API key and the model name are not modelled. The reply is an input (`GeminiService.Reply`), and the request is returned as a value.
- Storage writes always succeed in the model. In a browser, `localStorage.setItem` at App.tsx:69 throws when the serialized history exceeds the origin's quota; each record holds a full base64 image, so a few records can exceed it. Nothing in App.tsx catches that error, and storage keeps its old value. `App.Session.Valid`, `App.SaveThenLoad` and `Scenarios.FailureKeepsStorageInStep` therefore hold only for storage without a size limit.
- JSON encoding and the storage API are abstract. Storage is a map from key to a parsed history or a malformed value. A value that parses but is not a list of records is not modelled.
- An empty stored string is skipped without parsing. The model folds it into the malformed case, which has the same effect: the history stays as it is.
- `Date.now()` is read twice, once for the id and once for the timestamp. Both readings are parameters, and ids are not claimed unique.
- The confirmation dialog is the `confirmed` argument of `ClearHistory`.
- The clock widget, all rendering, the example-prompt link, the clear-prompt button and `downloadImage` are presentation only.
- `console.error` logging is left out. So are React's scheduling and batching of state updates: each handler applies its updates at once. Interleaving is modelled only at the one `await`.
- App.Session.Valid: does not include "the selected style is a catalog entry". That fact follows from the frames instead: only `SelectStyle` writes the field, and only with a catalog entry.
- String handling is on Unicode code points. `trim` is modelled by its whitespace set, and there is no UTF-16 detail.
