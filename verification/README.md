# Listing generator session state, in Dafny

A model of the per-marketplace session logic of the listing-generator page
(`App.tsx`). The page keeps four records keyed by marketplace (`amazon`,
`trendyol`): the image, a loading flag, the last generation result and the
last error. It also keeps the URL field text and the copy feedback text. Its
handlers are:

- `handleFile`, fed by the file picker and the drop zone;
- `handleUrlSubmit`, which fetches an image from a link;
- `processImage`, which splits the stored data URL into media type and base64
  payload and sends them to a hosted generator;
- `handleCopy`.

Each handler is cut at its `await`s and `onloadend` callbacks into
synchronous steps. Each step is a pure function on an immutable `State`
(module `App`). A step that starts asynchronous work also returns that work
as a `Pending` value. The module `EventLoop` holds the waiting continuations
as a list. Its `Step` applies either a user action or the settling of any
waiting continuation, in any order, and `Run` applies a sequence of steps.

The other modules are:

- `JsStrings`: ECMAScript `split` with a one-character separator, `join`,
  `startsWith` and out-of-range indexing (which gives `undefined`);
- `DataUrl`: the two-expression header split of lines 101-102, applied to
  the `data:<mime>;base64,<payload>` form of RFC 2397, section 3;
- `Types`: the platforms, the per-platform record with its `{...prev, [p]: v}`
  update (`PerPlatform.Set`), and the result shape of `types.ts`.

The application treats the result as an opaque value.

Details of the code's behaviour that the model follows:

- A URL load (lines 65-68) does not clear the platform's previous result or
  error; only a file load (lines 43-47) does. `UrlLoaded` keeps both.
- `fetch` resolves for every HTTP status. Only a network failure or a failed
  body read reaches the `catch` of line 70. The fetch outcome is an input.
- The loading flag of a URL load is cleared in `finally` (line 73), before
  the image read finishes. `UrlFetchSettled` clears it and starts the read.
- `reader.result` is `null` when a read fails, and `onloadend` still runs.
  `FileLoaded` and `UrlLoaded` then store `null` as the image.
- The guards use JavaScript truthiness, so an empty string counts as absent
  like `null` (`Truthy`).
- A header split that throws (no `:` before the first `,`) runs `catch` and
  `finally` synchronously, before any call is made. `ProcessImage` then
  returns no pending call.
- An image without a comma does not throw. Its payload is `undefined` and is
  passed on to the generator (`base64Data: Option<string>`).

## Model

| member | source | states |
|---|---|---|
| JsStrings.Split | App.tsx:101-102 | `split` with a one-character separator: at least one piece, none containing the separator, the first piece is the text before the first separator, and there are two or more pieces exactly when the separator occurs |
| JsStrings.JoinSplit | App.tsx:101-102 | joining the pieces of a split with the same separator gives back the original string |
| JsStrings.SplitJoin | App.tsx:101-102 | splitting a join of separator-free pieces gives back the pieces |
| DataUrl.Extract | App.tsx:101-102 | the media-type lookup throws exactly when the text before the first comma holds no colon; the payload is present exactly when the image holds a comma; the media type holds no colon and no semicolon |
| DataUrl.ExtractBuild | App.tsx:101-102 | round trip: for a media type without `,` `:` `;` and a payload without `,`, splitting `data:<mime>;base64,<payload>` yields that media type and that payload |
| DataUrl.NoColonThrows | App.tsx:102 | a header with no colon before the first comma makes the media-type lookup throw, whatever follows the comma |
| Types.PerPlatform.Set | App.tsx:44-46 | the single-key update `{ ...prev, [p]: v }`: the written platform reads the new value and the other platform keeps its old one |
| App.Initial | App.tsx:10-29 | both platforms start with no image, not loading, no result and no error; the URL field is empty and there is no feedback |
| App.HandleCopy | App.tsx:33-37 | empty text changes nothing and writes nothing to the clipboard; otherwise the clipboard receives the text, the feedback becomes exactly the label followed by " copied!", and nothing else changes |
| App.HandleFile | App.tsx:40-49 | the handler writes no state; it starts a read for platform `p` exactly when the file's type starts with "image/" |
| App.FileLoaded | App.tsx:43-47 | a completed file read sets the image of `p` to the read result and clears its result and error; loading flags, the other platform, the URL field and the feedback are unchanged |
| App.EditUrl | App.tsx:188 | typing replaces the URL field and nothing else |
| App.SubmitUrl | App.tsx:57-62 | an empty URL field is a no-op; otherwise `p` becomes loading, a fetch of the field's text starts for `p`, and nothing else changes |
| App.UrlFetchFailed | App.tsx:70-71 | the catch stores exactly "Failed to load image from URL." for `p` and changes nothing else |
| App.StopLoading | App.tsx:107-108 | the `finally` of both asynchronous handlers (also line 73) leaves the loading flag of `p` false and changes nothing else |
| App.UrlFetchSettled | App.tsx:62-74 | after the fetch the loading flag of `p` is always false; a failure stores the fixed URL error and starts nothing; a success starts the image read and leaves the errors alone; images, results and the other platform are unchanged |
| App.UrlLoaded | App.tsx:65-68 | the later read completion sets only the image of `p` and empties the URL field; the result and error of `p` are kept |
| App.StartGeneration | App.tsx:97-98 | starting a generation sets loading and clears the error of `p`, touching nothing else (the result of `p` is kept) |
| App.GenerationSucceeded | App.tsx:104 | the returned value becomes the result of `p`; nothing else changes |
| App.GenerationFailed | App.tsx:105-106 | the error of `p` becomes exactly "Generation failed."; the result is kept; nothing else changes |
| App.ProcessImage | App.tsx:93-103 | without a truthy image it is a no-op; otherwise a call starts exactly when the header holds a colon, and then `p` is loading with no error and the call receives the split parts; when the header has no colon, `p` ends not loading with "Generation failed."; images, results and the other platform are unchanged |
| App.GenerationSettled | App.tsx:104-109 | after the reply `p` is not loading; a returned value becomes its result with errors untouched; a thrown error stores "Generation failed." with the results untouched; images and the other platform are unchanged |
| App.ClickGenerate | App.tsx:196-198 | a disabled button (no truthy image, or loading) is a no-op; an enabled one either starts a call and shows loading, or ends with "Generation failed." |
| App.GenerateSucceeds | App.tsx:93-109 | an enabled click and a returned value leave `p` with the same image, not loading, that value as result and no error, and the other platform unchanged |
| App.GenerateFails | App.tsx:93-109 | an enabled click that throws, or an image whose header cannot be split, leaves `p` with the same image and the previous result, not loading, and "Generation failed." |
| App.GenerateIdempotent | App.tsx:93-109 | generating twice for the same image with the same deterministic reply gives the same state as generating once |
| App.FileLoadEnablesGenerate | App.tsx:43-47 | after a file load with a non-empty data URL, `p` has no stale result or error, and Generate is enabled exactly when `p` was not loading |
| App.GenerateSendsParts | App.tsx:101-103 | for a stored data URL `data:<mime>;base64,<payload>`, an enabled click starts a call with exactly that payload and media type |
| App.StaleReplyLands | App.tsx:93-109 | a reply that arrives after a new file load for the same platform is still stored, next to the new image |
| EventLoop.Continue | App.tsx:43-108 | running any waiting continuation leaves the other platform's entries unchanged |
| EventLoop.StepFrame | App.tsx:40-109 | every event writes only the entries of the platform its handler closed over; URL-field and copy events write none |
| EventLoop.StepInv | App.tsx:33-109 | every event keeps the invariant: errors are one of the two fixed messages, a loading flag is set only while a fetch or generation for that platform is waiting, waiting reads are of image files and waiting fetches of non-empty URLs, and the feedback ends in " copied!" |
| EventLoop.RunInv | App.tsx:33-109 | every sequence of events keeps the invariant |
| EventLoop.Reachable | App.tsx:10-109 | in every world reachable from page load, stored errors are the fixed messages, a spinner implies a waiting fetch or generation for that platform, and nothing loads once nothing is waiting |
| EventLoop.UploadThenGenerate | App.tsx:40-109 | from page load, an image upload for `p`, its read, a Generate click and a returned value leave `p` with the data URL, the value, no error and no spinner; the generator receives exactly the media type and payload; the other platform is still empty |

## Left out

- The generator call (`geminiService.ts`): the hosted model, its prompt text, its response schema and the `JSON.parse` of its reply. The model treats the call's outcome as an input (`Reply`: a returned value or a thrown error).
- `components/PromptCard.tsx`: a clipboard write plus a timer, with no state of the page.
- The two-second timer that clears the copy feedback (line 37). Only the immediate write is modelled.
- The browser APIs themselves (`FileReader`, `fetch`, `navigator.clipboard`). Their results are inputs: the read result, the fetch outcome and the clipboard text returned by `HandleCopy`.
- The drag highlight flag and its handlers (lines 77-91). It changes no session entry. A drop is modelled as the file it hands to `handleFile`.
- The tab switch (lines 140, 146). The active platform is a parameter of each user event, as each handler closes over it.
- Rendering (lines 112-318).
- Scheduling: settlements may come in any order, but no fairness or timing is modelled.
- JsStrings.Split: only one-character separators are modelled, which are the only ones the page uses. Characters stand for UTF-16 code units.
- Cancelling a stale generation: the page has none. `StaleReplyLands` records that a late reply overwrites the result of a newer image.
