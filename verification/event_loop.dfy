/** The application as the browser's event loop drives it: the session state
    together with the asynchronous continuations still waiting to run. A
    step is either a user action, which runs a handler up to its first
    suspension point, or the settling of one waiting continuation, in any
    order the environment chooses. Interleavings are therefore all possible,
    but each step is atomic, as JavaScript's run-to-completion semantics
    makes it. */
module EventLoop {
  import opened Wrappers
  import opened Types
  import opened JsStrings
  import opened App
  import DataUrl

  /** What settles a waiting continuation. */
  datatype Outcome =
    | ReadDone(result: Option<string>)
    | FetchDone(fetch: FetchOutcome)
    | GenerationDone(reply: Reply)

  /** One event. User actions carry the platform their handler closed over. */
  datatype Input =
      /** A file from the picker (lines 52-55) or the drop zone (lines 86-91). */
    | ChooseFile(platform: Platform, file: File)
      /** Typing in the URL field (line 188). */
    | EditUrlField(text: string)
      /** Submitting the URL form (line 184). */
    | SubmitUrlForm(platform: Platform)
      /** Clicking Generate (lines 196-198). */
    | ClickGenerateButton(platform: Platform)
      /** Clicking a copyable field (for instance line 225). */
    | ClickCopy(text: string, fieldLabel: string)
      /** The continuation at `index` of the waiting list runs. */
    | Settle(index: nat, outcome: Outcome)

  datatype World = World(session: State, pending: seq<Pending>)

  /** The world when the page has loaded: initial state, nothing waiting. */
  function Boot(): World {
    World(Initial(), [])
  }

  function Started(o: Option<Pending>): seq<Pending> {
    if o.Some? then [o.value] else []
  }

  /** The waiting list without its entry at `i`. */
  function Remove(ps: seq<Pending>, i: nat): (r: seq<Pending>)
    requires i < |ps|
    ensures |r| == |ps| - 1
    ensures forall j :: 0 <= j < i ==> r[j] == ps[j]
    ensures forall j :: i <= j < |r| ==> r[j] == ps[j + 1]
  {
    ps[..i] + ps[i + 1..]
  }

  /** Whether `outcome` is one that continuation `op` can receive. */
  predicate Fits(op: Pending, outcome: Outcome) {
    match op
    case FileRead(_, _) => outcome.ReadDone?
    case UrlFetch(_, _) => outcome.FetchDone?
    case UrlRead(_) => outcome.ReadDone?
    case Generation(_, _, _) => outcome.GenerationDone?
  }

  /** Runs continuation `op` with `outcome`. */
  function Continue(s: State, op: Pending, outcome: Outcome): (r: Handled)
    requires Fits(op, outcome)
    ensures r.state.Of(Other(op.platform)) == s.Of(Other(op.platform))
  {
    match op
    case FileRead(p, _) => Handled(FileLoaded(s, p, outcome.result), None)
    case UrlFetch(p, _) => UrlFetchSettled(s, p, outcome.fetch)
    case UrlRead(p) => Handled(UrlLoaded(s, p, outcome.result), None)
    case Generation(p, _, _) => Handled(GenerationSettled(s, p, outcome.reply), None)
  }

  function After(w: World, h: Handled): World {
    World(h.state, w.pending + Started(h.started))
  }

  /** One event applied to the world. Settling an index that does not exist,
      or with an outcome of the wrong kind, is not an event and changes
      nothing. */
  function Step(w: World, input: Input): World {
    match input
    case ChooseFile(p, file) => After(w, HandleFile(w.session, file, p))
    case EditUrlField(text) => World(EditUrl(w.session, text), w.pending)
    case SubmitUrlForm(p) => After(w, SubmitUrl(w.session, p))
    case ClickGenerateButton(p) => After(w, ClickGenerate(w.session, p))
    case ClickCopy(text, fieldLabel) => World(HandleCopy(w.session, text, fieldLabel).state, w.pending)
    case Settle(i, outcome) =>
      if i < |w.pending| && Fits(w.pending[i], outcome) then
        var h := Continue(w.session, w.pending[i], outcome);
        World(h.state, Remove(w.pending, i) + Started(h.started))
      else w
  }

  /** A sequence of events applied in order. */
  function Run(w: World, inputs: seq<Input>): World
    decreases |inputs|
  {
    if |inputs| == 0 then w else Run(Step(w, inputs[0]), inputs[1..])
  }

  /** The platform whose entries an event may write, if any. */
  function Target(w: World, input: Input): Option<Platform> {
    match input
    case ChooseFile(p, _) => Some(p)
    case EditUrlField(_) => None
    case SubmitUrlForm(p) => Some(p)
    case ClickGenerateButton(p) => Some(p)
    case ClickCopy(_, _) => None
    case Settle(i, _) => if i < |w.pending| then Some(w.pending[i].platform) else None
  }

  /** Every event writes the entries of at most one platform: those of the
      platform its handler closed over. */
  lemma StepFrame(w: World, input: Input, q: Platform)
    requires Target(w, input) != Some(q)
    ensures Step(w, input).session.Of(q) == w.session.Of(q)
  {
    match input
    case ChooseFile(p, file) =>
    case EditUrlField(text) =>
    case SubmitUrlForm(p) => OnlyTwo(p, q);
    case ClickGenerateButton(p) => OnlyTwo(p, q);
    case ClickCopy(text, fieldLabel) =>
    case Settle(i, outcome) =>
      if i < |w.pending| && Fits(w.pending[i], outcome) {
        OnlyTwo(w.pending[i].platform, q);
      }
  }

  // ------------------------------------------------------------- invariants

  /** The only errors the application ever stores. */
  predicate KnownError(e: Option<string>) {
    e == None || e == Some(GenerationFailedMessage) || e == Some(UrlFailedMessage)
  }

  /** The only copy feedback the application ever shows. */
  predicate KnownFeedback(f: Option<string>) {
    f.Some? ==> EndsWith(f.value, CopiedSuffix)
  }

  /** Continuations whose `finally` clears the loading flag of `p`. */
  predicate Busy(op: Pending, p: Platform) {
    (op.UrlFetch? || op.Generation?) && op.platform == p
  }

  predicate InFlight(ps: seq<Pending>, p: Platform) {
    exists j :: 0 <= j < |ps| && Busy(ps[j], p)
  }

  /** What the guard of the starting handler let through. */
  predicate WellStarted(op: Pending) {
    match op
    case FileRead(_, file) => StartsWith(file.mediaType, ImagePrefix)
    case UrlFetch(_, url) => url != ""
    case UrlRead(_) => true
    case Generation(_, _, _) => true
  }

  /** What holds in every world the page can reach: errors are one of the
      two fixed messages; a platform shows its spinner only while a fetch or
      a generation for it is waiting; every waiting file read is of an image,
      and every waiting fetch is of a non-empty URL; the copy feedback is a
      label followed by " copied!". */
  predicate Inv(w: World) {
    && (forall p :: KnownError(w.session.errors.Get(p)))
    && (forall p :: w.session.loading.Get(p) ==> InFlight(w.pending, p))
    && (forall j :: 0 <= j < |w.pending| ==> WellStarted(w.pending[j]))
    && KnownFeedback(w.session.copyFeedback)
  }

  lemma BootInv()
    ensures Inv(Boot())
  {
  }

  lemma InFlightAppend(ps: seq<Pending>, extra: seq<Pending>, p: Platform)
    requires InFlight(ps, p)
    ensures InFlight(ps + extra, p)
  {
    var j :| 0 <= j < |ps| && Busy(ps[j], p);
    assert (ps + extra)[j] == ps[j];
  }

  /** Removing a continuation that does not clear `p`'s flag keeps a
      continuation that does. */
  lemma InFlightRemove(ps: seq<Pending>, i: nat, p: Platform)
    requires i < |ps| && InFlight(ps, p) && !Busy(ps[i], p)
    ensures InFlight(Remove(ps, i), p)
  {
    var j :| 0 <= j < |ps| && Busy(ps[j], p);
    var r := Remove(ps, i);
    if j < i {
      assert Busy(r[j], p);
    } else {
      assert Busy(r[j - 1], p);
    }
  }

  /** A list extended with one freshly started continuation keeps the
      property that every entry passed its guard. */
  lemma WellStartedAppend(ps: seq<Pending>, extra: seq<Pending>)
    requires forall j :: 0 <= j < |ps| ==> WellStarted(ps[j])
    requires forall j :: 0 <= j < |extra| ==> WellStarted(extra[j])
    ensures forall j :: 0 <= j < |ps + extra| ==> WellStarted((ps + extra)[j])
  {
    forall j | 0 <= j < |ps + extra|
      ensures WellStarted((ps + extra)[j])
    {
      if j < |ps| {
        assert (ps + extra)[j] == ps[j];
      } else {
        assert (ps + extra)[j] == extra[j - |ps|];
      }
    }
  }

  /** A user action that starts `h.started` preserves the invariant. */
  lemma AfterInv(w: World, h: Handled, p: Platform)
    requires Inv(w)
    requires h.state.Of(Other(p)) == w.session.Of(Other(p))
    requires KnownError(h.state.errors.Get(p)) && KnownFeedback(h.state.copyFeedback)
    requires h.state.loading.Get(p) ==> w.session.loading.Get(p) || (h.started.Some? && Busy(h.started.value, p))
    requires h.started.Some? ==> WellStarted(h.started.value)
    ensures Inv(After(w, h))
  {
    var w' := After(w, h);
    forall q
      ensures KnownError(w'.session.errors.Get(q))
    {
      OnlyTwo(p, q);
    }
    forall q | w'.session.loading.Get(q)
      ensures InFlight(w'.pending, q)
    {
      OnlyTwo(p, q);
      if q == p && !w.session.loading.Get(p) {
        assert w'.pending[|w.pending|] == h.started.value;
      } else {
        InFlightAppend(w.pending, Started(h.started), q);
      }
    }
    WellStartedAppend(w.pending, Started(h.started));
  }

  /** Running a continuation preserves the invariant. */
  lemma SettleInv(w: World, i: nat, outcome: Outcome)
    requires Inv(w)
    requires i < |w.pending| && Fits(w.pending[i], outcome)
    ensures Inv(Step(w, Settle(i, outcome)))
  {
    var op := w.pending[i];
    var p := op.platform;
    var h := Continue(w.session, op, outcome);
    var rest := Remove(w.pending, i);
    var w' := Step(w, Settle(i, outcome));
    assert w' == World(h.state, rest + Started(h.started));
    assert Busy(op, p) ==> !h.state.loading.Get(p);
    assert !Busy(op, p) ==> h.state.loading == w.session.loading;
    forall q
      ensures KnownError(w'.session.errors.Get(q))
    {
      OnlyTwo(p, q);
    }
    forall q | w'.session.loading.Get(q)
      ensures InFlight(w'.pending, q)
    {
      OnlyTwo(p, q);
      InFlightRemove(w.pending, i, q);
      InFlightAppend(rest, Started(h.started), q);
    }
    assert forall j :: 0 <= j < |rest| ==> WellStarted(rest[j]) by {
      forall j | 0 <= j < |rest|
        ensures WellStarted(rest[j])
      {
        if j >= i {
          assert rest[j] == w.pending[j + 1];
        }
      }
    }
    WellStartedAppend(rest, Started(h.started));
  }

  /** Every event preserves the invariant. */
  lemma StepInv(w: World, input: Input)
    requires Inv(w)
    ensures Inv(Step(w, input))
  {
    match input
    case ChooseFile(p, file) =>
      AfterInv(w, HandleFile(w.session, file, p), p);
    case EditUrlField(text) =>
    case SubmitUrlForm(p) =>
      AfterInv(w, SubmitUrl(w.session, p), p);
    case ClickGenerateButton(p) =>
      AfterInv(w, ClickGenerate(w.session, p), p);
    case ClickCopy(text, fieldLabel) =>
      if text != "" {
        EndsWithSuffix(fieldLabel, CopiedSuffix);
      }
    case Settle(i, outcome) =>
      if i < |w.pending| && Fits(w.pending[i], outcome) {
        SettleInv(w, i, outcome);
      }
  }

  /** Every sequence of events preserves the invariant. */
  lemma {:induction false} RunInv(w: World, inputs: seq<Input>)
    requires Inv(w)
    ensures Inv(Run(w, inputs))
    decreases |inputs|
  {
    if |inputs| > 0 {
      StepInv(w, inputs[0]);
      RunInv(Step(w, inputs[0]), inputs[1..]);
    }
  }

  /** In every reachable world the stored errors are the fixed messages and
      a spinner is shown only while something for its platform is waiting;
      in particular, once nothing is waiting no platform is loading. */
  lemma Reachable(inputs: seq<Input>)
    ensures forall p :: KnownError(Run(Boot(), inputs).session.errors.Get(p))
    ensures forall p :: Run(Boot(), inputs).session.loading.Get(p) ==> InFlight(Run(Boot(), inputs).pending, p)
    ensures Run(Boot(), inputs).pending == [] ==> forall p :: !Run(Boot(), inputs).session.loading.Get(p)
  {
    BootInv();
    RunInv(Boot(), inputs);
  }

  /** From a fresh page: choosing an image file for `p`, its read completing
      with a data URL, clicking Generate and the generator returning
      `result` leaves `p` with that image and result, no error and no
      spinner, sends the generator exactly the media type and payload, and
      leaves the other platform as it was at start. */
  lemma {:induction false} UploadThenGenerate(p: Platform, mime: string, payload: string, result: PlatformResult)
    requires ',' !in mime && ':' !in mime && ';' !in mime && ',' !in payload
    ensures var dataUrl := DataUrl.Build("image/" + mime, payload);
      var w1 := Step(Boot(), ChooseFile(p, File("image/" + mime)));
      var w2 := Step(w1, Settle(0, ReadDone(Some(dataUrl))));
      var w3 := Step(w2, ClickGenerateButton(p));
      var w4 := Step(w3, Settle(0, GenerationDone(Returned(result))));
      && w3.pending == [Generation(p, Some(payload), "image/" + mime)]
      && w4.session.Of(p) == Entries(Some(dataUrl), false, Some(result), None)
      && w4.session.Of(Other(p)) == Entries(None, false, None, None)
      && w4.pending == []
  {
    var m := "image/" + mime;
    var dataUrl := DataUrl.Build(m, payload);
    ImageMimeChars(mime);
    StartsWithPrefix("image/", mime);
    var w1 := Step(Boot(), ChooseFile(p, File(m)));
    ChooseImageStep(Boot(), p, File(m));
    var w2 := Step(w1, Settle(0, ReadDone(Some(dataUrl))));
    SettleLast(w1, ReadDone(Some(dataUrl)));
    var s2 := FileLoaded(Initial(), p, Some(dataUrl));
    assert w2 == World(s2, []);
    GenerateSendsParts(s2, p, m, payload);
    var h := ClickGenerate(s2, p);
    var w3 := Step(w2, ClickGenerateButton(p));
    assert w3 == World(h.state, [Generation(p, Some(payload), m)]);
    var w4 := Step(w3, Settle(0, GenerationDone(Returned(result))));
    SettleLast(w3, GenerationDone(Returned(result)));
    assert w4 == World(GenerationSettled(h.state, p, Returned(result)), []);
  }

  /** Choosing an image file appends its read to the waiting list. */
  lemma ChooseImageStep(w: World, p: Platform, file: File)
    requires StartsWith(file.mediaType, ImagePrefix)
    ensures Step(w, ChooseFile(p, file)) == World(w.session, w.pending + [FileRead(p, file)])
  {
  }

  /** Settling the only waiting continuation empties the list unless it starts another. */
  lemma SettleLast(w: World, outcome: Outcome)
    requires |w.pending| == 1 && Fits(w.pending[0], outcome)
    ensures Step(w, Settle(0, outcome))
      == World(Continue(w.session, w.pending[0], outcome).state, Started(Continue(w.session, w.pending[0], outcome).started))
  {
  }

  lemma ImageMimeChars(mime: string)
    requires ',' !in mime && ':' !in mime && ';' !in mime
    ensures ',' !in "image/" + mime && ':' !in "image/" + mime && ';' !in "image/" + mime
  {
  }
}
