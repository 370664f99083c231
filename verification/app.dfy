/** The session state of the `App` component (App.tsx) and its event
    handlers. Every handler is split at its `await`s and `onloadend`
    callbacks into synchronous steps, and each step is a pure function from
    state to state. React's functional updates `prev => ({ ...prev, [p]: v })`
    are `PerPlatform.Set`; updates issued in one synchronous step are applied
    in order. A step that starts asynchronous work also returns that work as a
    `Pending` value, which the event loop later settles. */
module App {
  import opened Wrappers
  import opened Types
  import opened JsStrings
  import DataUrl

  /** The error `processImage` stores when anything in its `try` throws (line 106). */
  const GenerationFailedMessage: string := "Generation failed."

  /** The error `handleUrlSubmit` stores when the fetch or the body read throws (line 71). */
  const UrlFailedMessage: string := "Failed to load image from URL."

  /** What `handleCopy` appends to the label (line 36). */
  const CopiedSuffix: string := " copied!"

  /** The media-type prefix `handleFile` accepts (line 41). */
  const ImagePrefix: string := "image/"

  /** A file chosen in the picker or dropped on the drop zone; only its
      declared media type (`file.type`) matters to the handlers. */
  datatype File = File(mediaType: string)

  /** The four entries one platform owns. */
  datatype Entries = Entries(
    image: Option<string>,
    loading: bool,
    result: Option<PlatformResult>,
    error: Option<string>)

  /** The state hooks of lines 11-29, except the drag flag. */
  datatype State = State(
    images: PerPlatform<Option<string>>,
    loading: PerPlatform<bool>,
    results: PerPlatform<Option<PlatformResult>>,
    errors: PerPlatform<Option<string>>,
    imageUrlInput: string,
    copyFeedback: Option<string>)
  {
    /** Everything the state holds for platform `p`. */
    function Of(p: Platform): Entries {
      Entries(images.Get(p), loading.Get(p), results.Get(p), errors.Get(p))
    }
  }

  /** The initial values of lines 11-29. */
  function Initial(): (s: State)
    ensures forall p :: s.Of(p) == Entries(None, false, None, None)
    ensures s.imageUrlInput == "" && s.copyFeedback == None
  {
    State(Both(None), Both(false), Both(None), Both(None), "", None)
  }

  /** Asynchronous work a handler has started and whose continuation has not
      run yet. Each continuation closes over the platform it was started for. */
  datatype Pending =
      /** `reader.onloadend` of `handleFile` (lines 43-47). */
    | FileRead(platform: Platform, file: File)
      /** `await fetch(url)` and `await response.blob()` of `handleUrlSubmit` (lines 62-63). */
    | UrlFetch(platform: Platform, url: string)
      /** `reader.onloadend` of `handleUrlSubmit` (lines 65-68). */
    | UrlRead(platform: Platform)
      /** `await generatePlatformData(base64Data, mimeType)` of `processImage` (line 103). */
    | Generation(platform: Platform, base64Data: Option<string>, mimeType: string)

  /** The state after a synchronous step and the work the step started, if any. */
  datatype Handled = Handled(state: State, started: Option<Pending>)

  /** How the fetch and body read of a URL load ended. `fetch` resolves for
      any HTTP status; only a network failure or a failed body read throws. */
  datatype FetchOutcome = Fetched | FetchThrew

  /** How the call to the generator ended. */
  datatype Reply = Returned(result: PlatformResult) | Threw

  /** JavaScript truthiness of a `string | null`: `null` and `""` are false. */
  predicate Truthy(v: Option<string>) {
    v.Some? && v.value != ""
  }

  // ---------------------------------------------------------------- handleCopy

  /** The state after a copy and the text written to the clipboard, if any. */
  datatype Copied = Copied(state: State, clipboard: Option<string>)

  /** `handleCopy(text, label)` (lines 33-37), without the timer that clears
      the feedback two seconds later. */
  function HandleCopy(s: State, text: string, fieldLabel: string): (r: Copied)
    ensures text == "" ==> r == Copied(s, None)
    ensures text != "" ==> r.clipboard == Some(text)
    ensures text != "" ==> r.state.copyFeedback == Some(fieldLabel + CopiedSuffix)
    ensures r.state.(copyFeedback := s.copyFeedback) == s
  {
    if text == "" then Copied(s, None)
    else Copied(s.(copyFeedback := Some(fieldLabel + " copied!")), Some(text))
  }

  // ---------------------------------------------------------------- handleFile

  /** `handleFile(file, p)` (lines 40-49) up to its `readAsDataURL` call:
      it writes nothing, and starts a read only for an image media type. */
  function HandleFile(s: State, file: File, p: Platform): (r: Handled)
    ensures r.state == s
    ensures r.started.Some? <==> StartsWith(file.mediaType, ImagePrefix)
    ensures r.started.Some? ==> r.started.value == FileRead(p, file)
  {
    if StartsWith(file.mediaType, "image/") then Handled(s, Some(FileRead(p, file)))
    else Handled(s, None)
  }

  /** The `onloadend` of `handleFile` (lines 43-47). `result` is
      `reader.result`, which is `null` when the read failed. The image of `p`
      becomes the read result and its result and error are cleared; nothing
      else changes. */
  function FileLoaded(s: State, p: Platform, result: Option<string>): (s': State)
    ensures s'.Of(p) == Entries(result, s.loading.Get(p), None, None)
    ensures s'.Of(Other(p)) == s.Of(Other(p))
    ensures s'.loading == s.loading
    ensures s'.imageUrlInput == s.imageUrlInput && s'.copyFeedback == s.copyFeedback
  {
    s.(images := s.images.Set(p, result),
       results := s.results.Set(p, None),
       errors := s.errors.Set(p, None))
  }

  // ---------------------------------------------------------- handleUrlSubmit

  /** The `onChange` of the URL field (line 188). */
  function EditUrl(s: State, text: string): (s': State)
    ensures s'.imageUrlInput == text
    ensures s'.(imageUrlInput := s.imageUrlInput) == s
  {
    s.(imageUrlInput := text)
  }

  /** `handleUrlSubmit` up to its first `await` (lines 57-62), with `p` the
      `activePlatform` of the render that created the handler. An empty URL
      field is a no-op; otherwise `p` is marked loading and the fetch of the
      field's current text starts. */
  function SubmitUrl(s: State, p: Platform): (r: Handled)
    ensures s.imageUrlInput == "" ==> r == Handled(s, None)
    ensures s.imageUrlInput != "" ==> r.started == Some(UrlFetch(p, s.imageUrlInput))
    ensures s.imageUrlInput != "" ==> r.state.loading.Get(p)
    ensures r.state.Of(Other(p)) == s.Of(Other(p))
    ensures r.state.(loading := s.loading) == s
  {
    if s.imageUrlInput == "" then Handled(s, None)
    else Handled(s.(loading := s.loading.Set(p, true)), Some(UrlFetch(p, s.imageUrlInput)))
  }

  /** The `catch` of `handleUrlSubmit` (line 71). */
  function UrlFetchFailed(s: State, p: Platform): (s': State)
    ensures s'.errors.Get(p) == Some(UrlFailedMessage)
    ensures s'.Of(Other(p)) == s.Of(Other(p))
    ensures s'.(errors := s.errors) == s
  {
    s.(errors := s.errors.Set(p, Some("Failed to load image from URL.")))
  }

  /** The `finally` blocks of `handleUrlSubmit` (line 73) and `processImage`
      (line 108): `p` stops loading. */
  function StopLoading(s: State, p: Platform): (s': State)
    ensures !s'.loading.Get(p)
    ensures s'.Of(Other(p)) == s.Of(Other(p))
    ensures s'.(loading := s.loading) == s
  {
    s.(loading := s.loading.Set(p, false))
  }

  /** `handleUrlSubmit` after its `await`s (lines 63-73): on success the body
      read starts; on failure the fixed error is stored. Either way `p` stops
      loading, before the body read has finished. */
  function UrlFetchSettled(s: State, p: Platform, outcome: FetchOutcome): (r: Handled)
    ensures !r.state.loading.Get(p)
    ensures outcome.FetchThrew? ==> r.state.errors.Get(p) == Some(UrlFailedMessage) && r.started == None
    ensures outcome.Fetched? ==> r.state.errors == s.errors && r.started == Some(UrlRead(p))
    ensures r.state.Of(Other(p)) == s.Of(Other(p))
    ensures r.state.(loading := s.loading, errors := s.errors) == s
  {
    match outcome
    case Fetched => Handled(StopLoading(s, p), Some(UrlRead(p)))
    case FetchThrew => Handled(StopLoading(UrlFetchFailed(s, p), p), None)
  }

  /** The `onloadend` of `handleUrlSubmit` (lines 65-68): the image of `p`
      becomes the read result and the URL field is emptied. Unlike a file
      load, the previous result and error of `p` are kept. */
  function UrlLoaded(s: State, p: Platform, result: Option<string>): (s': State)
    ensures s'.Of(p) == s.Of(p).(image := result)
    ensures s'.Of(Other(p)) == s.Of(Other(p))
    ensures s'.imageUrlInput == ""
    ensures s'.(images := s.images, imageUrlInput := s.imageUrlInput) == s
  {
    s.(images := s.images.Set(p, result), imageUrlInput := "")
  }

  // ------------------------------------------------------------- processImage

  /** Lines 97-98: `p` is marked loading and its error is cleared. */
  function StartGeneration(s: State, p: Platform): (s': State)
    ensures s'.loading.Get(p) && s'.errors.Get(p) == None
    ensures s'.Of(Other(p)) == s.Of(Other(p))
    ensures s'.(loading := s.loading, errors := s.errors) == s
  {
    s.(loading := s.loading.Set(p, true), errors := s.errors.Set(p, None))
  }

  /** Line 104: the generator's result is stored for `p`. */
  function GenerationSucceeded(s: State, p: Platform, result: PlatformResult): (s': State)
    ensures s'.results.Get(p) == Some(result)
    ensures s'.Of(Other(p)) == s.Of(Other(p))
    ensures s'.(results := s.results) == s
  {
    s.(results := s.results.Set(p, Some(result)))
  }

  /** Line 106: the fixed error is stored for `p`; its result is not touched. */
  function GenerationFailed(s: State, p: Platform): (s': State)
    ensures s'.errors.Get(p) == Some(GenerationFailedMessage)
    ensures s'.Of(Other(p)) == s.Of(Other(p))
    ensures s'.(errors := s.errors) == s
  {
    s.(errors := s.errors.Set(p, Some("Generation failed.")))
  }

  /** `processImage(p)` up to its `await` (lines 93-103). Without an image it
      does nothing. Otherwise it marks `p` loading, clears its error and
      splits the image; when the media-type lookup throws, the `catch` and
      `finally` run at once and no call is made, and otherwise the call to
      the generator starts with the two split parts. */
  function ProcessImage(s: State, p: Platform): (r: Handled)
    ensures !Truthy(s.images.Get(p)) ==> r == Handled(s, None)
    ensures Truthy(s.images.Get(p)) ==>
      && (r.started.None? <==> ':' !in DataUrl.Header(s.images.Get(p).value))
      && (r.state.loading.Get(p) <==> r.started.Some?)
      && r.state.errors.Get(p) == (if r.started.Some? then None else Some(GenerationFailedMessage))
    ensures r.started.Some? ==>
      && r.started.value.Generation?
      && r.started.value.platform == p
      && DataUrl.Extract(s.images.Get(p).value)
         == DataUrl.Extracted(r.started.value.base64Data, r.started.value.mimeType)
    ensures r.state.Of(Other(p)) == s.Of(Other(p))
    ensures r.state.(loading := s.loading, errors := s.errors) == s
  {
    var currentImage := s.images.Get(p);
    if !Truthy(currentImage) then Handled(s, None)
    else
      var started := StartGeneration(s, p);
      match DataUrl.Extract(currentImage.value)
      case MimeLookupThrew =>
        Handled(StopLoading(GenerationFailed(started, p), p), None)
      case Extracted(base64Data, mimeType) =>
        Handled(started, Some(Generation(p, base64Data, mimeType)))
  }

  /** `processImage` after its `await` (lines 104-108): the result or the
      fixed error is stored, and `p` stops loading. A failure keeps the
      previous result; a success keeps the error (cleared when the call
      started). */
  function GenerationSettled(s: State, p: Platform, reply: Reply): (s': State)
    ensures !s'.loading.Get(p)
    ensures reply.Returned? ==> s'.results.Get(p) == Some(reply.result) && s'.errors == s.errors
    ensures reply.Threw? ==> s'.errors.Get(p) == Some(GenerationFailedMessage) && s'.results == s.results
    ensures s'.Of(Other(p)) == s.Of(Other(p))
    ensures s'.(loading := s.loading, results := s.results, errors := s.errors) == s
  {
    match reply
    case Returned(result) => StopLoading(GenerationSucceeded(s, p, result), p)
    case Threw => StopLoading(GenerationFailed(s, p), p)
  }

  /** The Generate button's `disabled` attribute, negated (line 197). */
  predicate GenerateEnabled(s: State, p: Platform) {
    Truthy(s.images.Get(p)) && !s.loading.Get(p)
  }

  /** A click on the Generate button of platform `p` (line 198): a disabled
      button delivers no click. An enabled one either starts a call or, when
      the image header has no colon, ends at once in the fixed error. */
  function ClickGenerate(s: State, p: Platform): (r: Handled)
    ensures !GenerateEnabled(s, p) ==> r == Handled(s, None)
    ensures GenerateEnabled(s, p) ==>
      (r.started.Some? <==> r.state.loading.Get(p)) &&
      (r.started.None? ==> r.state.errors.Get(p) == Some(GenerationFailedMessage))
    ensures r.state.Of(Other(p)) == s.Of(Other(p))
  {
    if GenerateEnabled(s, p) then ProcessImage(s, p) else Handled(s, None)
  }

  // ------------------------------------------------- properties across steps

  /** One click on Generate followed, if a call was made, by its reply. */
  function GenerateOnce(s: State, p: Platform, reply: Reply): State {
    var h := ClickGenerate(s, p);
    if h.started.Some? then GenerationSettled(h.state, p, reply) else h.state
  }

  /** A successful call stores exactly the returned value, clears the error
      and the loading flag, and keeps the image and the other platform. */
  lemma GenerateSucceeds(s: State, p: Platform, result: PlatformResult)
    requires GenerateEnabled(s, p)
    requires ':' in DataUrl.Header(s.images.Get(p).value)
    ensures GenerateOnce(s, p, Returned(result)).Of(p) == Entries(s.images.Get(p), false, Some(result), None)
    ensures GenerateOnce(s, p, Returned(result)).Of(Other(p)) == s.Of(Other(p))
  {
  }

  /** A failed call, or an image whose header cannot be split, stores the
      fixed error, clears the loading flag and keeps the previous result. */
  lemma GenerateFails(s: State, p: Platform, reply: Reply)
    requires GenerateEnabled(s, p)
    requires reply.Threw? || ':' !in DataUrl.Header(s.images.Get(p).value)
    ensures GenerateOnce(s, p, reply).Of(p)
      == Entries(s.images.Get(p), false, s.results.Get(p), Some(GenerationFailedMessage))
    ensures GenerateOnce(s, p, reply).Of(Other(p)) == s.Of(Other(p))
  {
  }

  /** Generating twice for the same image with the same deterministic reply
      leaves the state as one generation does: nothing accumulates. */
  lemma GenerateIdempotent(s: State, p: Platform, reply: Reply)
    ensures GenerateOnce(GenerateOnce(s, p, reply), p, reply) == GenerateOnce(s, p, reply)
  {
  }

  /** A completed file load with a non-empty data URL leaves no stale result
      or error behind, and enables Generate unless a call is still running. */
  lemma FileLoadEnablesGenerate(s: State, p: Platform, dataUrl: string)
    requires dataUrl != ""
    ensures FileLoaded(s, p, Some(dataUrl)).results.Get(p) == None
    ensures FileLoaded(s, p, Some(dataUrl)).errors.Get(p) == None
    ensures GenerateEnabled(FileLoaded(s, p, Some(dataUrl)), p) <==> !s.loading.Get(p)
  {
  }

  /** A data URL built by the reader for an image starts a call that
      receives exactly its media type and payload. */
  lemma GenerateSendsParts(s: State, p: Platform, mime: string, payload: string)
    requires s.images.Get(p) == Some(DataUrl.Build(mime, payload)) && !s.loading.Get(p)
    requires ',' !in mime && ':' !in mime && ';' !in mime && ',' !in payload
    ensures ClickGenerate(s, p).started == Some(Generation(p, Some(payload), mime))
  {
    DataUrl.ExtractBuild(mime, payload);
  }

  /** A call still waiting when a new image arrives for the same platform
      stores its reply anyway, next to the new image: the reply is not
      checked against the image it was made for. */
  lemma StaleReplyLands(s: State, p: Platform, newImage: Option<string>, result: PlatformResult)
    ensures GenerationSettled(FileLoaded(s, p, newImage), p, Returned(result)).Of(p)
      == Entries(newImage, false, Some(result), None)
  {
  }
}
