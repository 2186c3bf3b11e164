/**
 * The application's session: the three upload slots, the five presentation
 * options (persisted to a key-value store on every change), the optional
 * scene prompt, the refinement input, the generation state record and the
 * `isRefining` flag, with one method per handler.
 *
 * Each asynchronous handler is split where it awaits the service: a Start
 * method runs the guard and the first state update and returns the call it
 * makes; a Finish method takes the call's outcome and applies the second
 * update. Timer callbacks are explicit `StatusTick` calls.
 */
module App {
  import opened Wrappers
  import opened Text
  import opened Types
  import opened Gemini

  // ---- Persisted preferences ----------------------------------------------------

  const AspectRatioKey := "couple_ai_aspect_ratio"
  const StyleKey := "couple_ai_style"
  const DetailLevelKey := "couple_ai_detail_level"
  const PoseVariationKey := "couple_ai_pose_variation"
  const CameraAngleKey := "couple_ai_camera_angle"
  const TourCompletedKey := "couple_ai_tour_completed"
  const TourCompletedValue := "true"

  type Storage = map<string, string>

  const DefaultOptions := OptionSet(Ratio9x16, Realistic, DetailDefault, PoseDefault, AngleDefault)

  /** `localStorage.getItem(key)`, `None` standing for `null`. */
  function GetItem(storage: Storage, key: string): (r: Option<string>)
    ensures r.Some? <==> key in storage
    ensures r.Some? ==> r.value == storage[key]
  {
    if key in storage then Some(storage[key]) else None
  }

  /** A stored entry that is falsy: missing or the empty string. */
  predicate Unset(saved: Option<string>)
  {
    saved.None? || saved.value == ""
  }

  /** Every option entry is unset or holds a wire string the application itself writes. */
  predicate PreferencesReadable(storage: Storage)
  {
    var a, s, d, p, c := GetItem(storage, AspectRatioKey), GetItem(storage, StyleKey),
                         GetItem(storage, DetailLevelKey), GetItem(storage, PoseVariationKey),
                         GetItem(storage, CameraAngleKey);
    && (Unset(a) || ParseAspectRatio(a.value).Some?)
    && (Unset(s) || ParseStyle(s.value).Some?)
    && (Unset(d) || ParseDetailLevel(d.value).Some?)
    && (Unset(p) || ParsePoseVariation(p.value).Some?)
    && (Unset(c) || ParseCameraAngle(c.value).Some?)
  }

  /** `(saved as AspectRatio) || '9:16'`. */
  function LoadAspectRatio(saved: Option<string>): (r: AspectRatio)
    requires Unset(saved) || ParseAspectRatio(saved.value).Some?
    ensures Unset(saved) ==> r == Ratio9x16
    ensures !Unset(saved) ==> AspectRatioValue(r) == saved.value
  {
    if Unset(saved) then Ratio9x16 else ParseAspectRatio(saved.value).value
  }

  /** `(saved as GenerationStyle) || 'realistic'`. */
  function LoadStyle(saved: Option<string>): (r: GenerationStyle)
    requires Unset(saved) || ParseStyle(saved.value).Some?
    ensures Unset(saved) ==> r == Realistic
    ensures !Unset(saved) ==> StyleValue(r) == saved.value
  {
    if Unset(saved) then Realistic else ParseStyle(saved.value).value
  }

  /** `(saved as DetailLevel) || 'default'`. */
  function LoadDetailLevel(saved: Option<string>): (r: DetailLevel)
    requires Unset(saved) || ParseDetailLevel(saved.value).Some?
    ensures Unset(saved) ==> r == DetailDefault
    ensures !Unset(saved) ==> DetailLevelValue(r) == saved.value
  {
    if Unset(saved) then DetailDefault else ParseDetailLevel(saved.value).value
  }

  /** `(saved as PoseVariation) || 'default'`. */
  function LoadPoseVariation(saved: Option<string>): (r: PoseVariation)
    requires Unset(saved) || ParsePoseVariation(saved.value).Some?
    ensures Unset(saved) ==> r == PoseDefault
    ensures !Unset(saved) ==> PoseVariationValue(r) == saved.value
  {
    if Unset(saved) then PoseDefault else ParsePoseVariation(saved.value).value
  }

  /** `(saved as CameraAngle) || 'default'`. */
  function LoadCameraAngle(saved: Option<string>): (r: CameraAngle)
    requires Unset(saved) || ParseCameraAngle(saved.value).Some?
    ensures Unset(saved) ==> r == AngleDefault
    ensures !Unset(saved) ==> CameraAngleValue(r) == saved.value
  {
    if Unset(saved) then AngleDefault else ParseCameraAngle(saved.value).value
  }

  /** The options the application starts with, read once from the store: each entry falls back to its default on its own. */
  function LoadPreferences(storage: Storage): (o: OptionSet)
    requires PreferencesReadable(storage)
    ensures Unset(GetItem(storage, AspectRatioKey)) ==> o.aspectRatio == DefaultOptions.aspectRatio
    ensures !Unset(GetItem(storage, AspectRatioKey)) ==> AspectRatioValue(o.aspectRatio) == storage[AspectRatioKey]
    ensures Unset(GetItem(storage, StyleKey)) ==> o.style == DefaultOptions.style
    ensures !Unset(GetItem(storage, StyleKey)) ==> StyleValue(o.style) == storage[StyleKey]
    ensures Unset(GetItem(storage, DetailLevelKey)) ==> o.detailLevel == DefaultOptions.detailLevel
    ensures !Unset(GetItem(storage, DetailLevelKey)) ==> DetailLevelValue(o.detailLevel) == storage[DetailLevelKey]
    ensures Unset(GetItem(storage, PoseVariationKey)) ==> o.poseVariation == DefaultOptions.poseVariation
    ensures !Unset(GetItem(storage, PoseVariationKey)) ==> PoseVariationValue(o.poseVariation) == storage[PoseVariationKey]
    ensures Unset(GetItem(storage, CameraAngleKey)) ==> o.cameraAngle == DefaultOptions.cameraAngle
    ensures !Unset(GetItem(storage, CameraAngleKey)) ==> CameraAngleValue(o.cameraAngle) == storage[CameraAngleKey]
  {
    OptionSet(LoadAspectRatio(GetItem(storage, AspectRatioKey)),
              LoadStyle(GetItem(storage, StyleKey)),
              LoadDetailLevel(GetItem(storage, DetailLevelKey)),
              LoadPoseVariation(GetItem(storage, PoseVariationKey)),
              LoadCameraAngle(GetItem(storage, CameraAngleKey)))
  }

  /** The five option keys the persistence effects write. */
  const OptionKeys: set<string> := {AspectRatioKey, StyleKey, DetailLevelKey, PoseVariationKey, CameraAngleKey}

  /** The five `setItem` effects: the option keys are added and every other entry is left as it was. */
  function Persist(storage: Storage, o: OptionSet): (r: Storage)
    ensures r.Keys == storage.Keys + OptionKeys
    ensures forall k :: k in storage && k !in OptionKeys ==> r[k] == storage[k]
  {
    storage[AspectRatioKey := AspectRatioValue(o.aspectRatio)]
           [StyleKey := StyleValue(o.style)]
           [DetailLevelKey := DetailLevelValue(o.detailLevel)]
           [PoseVariationKey := PoseVariationValue(o.poseVariation)]
           [CameraAngleKey := CameraAngleValue(o.cameraAngle)]
  }

  /** The store holds the wire string of every current option. */
  predicate Persisted(storage: Storage, o: OptionSet)
  {
    && GetItem(storage, AspectRatioKey) == Some(AspectRatioValue(o.aspectRatio))
    && GetItem(storage, StyleKey) == Some(StyleValue(o.style))
    && GetItem(storage, DetailLevelKey) == Some(DetailLevelValue(o.detailLevel))
    && GetItem(storage, PoseVariationKey) == Some(PoseVariationValue(o.poseVariation))
    && GetItem(storage, CameraAngleKey) == Some(CameraAngleValue(o.cameraAngle))
  }

  /** Writing the options persists them, whatever the store held before. */
  lemma PersistPersists(storage: Storage, o: OptionSet)
    ensures Persisted(Persist(storage, o), o)
  {
  }

  /** A store the application has written is read back as the same options on the next start. */
  lemma ReloadRestoresPreferences(storage: Storage, o: OptionSet)
    requires Persisted(storage, o)
    ensures PreferencesReadable(storage)
    ensures LoadPreferences(storage) == o
  {
    WireRoundTrips(o.aspectRatio, o.style, o.detailLevel, o.poseVariation, o.cameraAngle);
    assert AspectRatioValue(o.aspectRatio) != "";
    assert StyleValue(o.style) != "";
    assert DetailLevelValue(o.detailLevel) != "";
    assert PoseVariationValue(o.poseVariation) != "";
    assert CameraAngleValue(o.cameraAngle) != "";
  }

  /** An empty store gives the defaults 9:16, realistic, default, default, default. */
  lemma EmptyStoreGivesDefaults()
    ensures PreferencesReadable(map[])
    ensures LoadPreferences(map[]) == DefaultOptions
  {
  }

  /** The tour shows when the completion flag is missing or empty. */
  predicate TourPending(storage: Storage)
  {
    Unset(GetItem(storage, TourCompletedKey))
  }

  /** A fresh store shows the tour; once the flag is written the tour stays hidden, whatever else is stored. */
  lemma TourFlagHidesTour(storage: Storage, key: string, value: string)
    requires key != TourCompletedKey
    ensures TourPending(map[])
    ensures !TourPending(storage[TourCompletedKey := TourCompletedValue])
    ensures !TourPending(storage[TourCompletedKey := TourCompletedValue][key := value])
  {
  }

  // ---- The generation state record ---------------------------------------------------

  const InitialState := GenerationState(false, "", None, None)
  const InitializingStatus := "Initializing Flash Engine..."
  const SuccessStatus := "Success!"
  const RefiningStatus := "Applying Flash Edit..."
  const UnexpectedError := "An unexpected error occurred."
  const RefinementFailedMessage := "Refinement failed. Please try again."

  /** A cosmetic status message and its delay in milliseconds after generation starts. */
  datatype StatusUpdate = StatusUpdate(message: string, delay: nat)

  const StatusUpdates: seq<StatusUpdate> := [
    StatusUpdate("Analyzing facial features...", 1000),
    StatusUpdate("Matching reference geometry...", 2500),
    StatusUpdate("Synthesizing scene...", 4000),
    StatusUpdate("Enhancing textures...", 5500)
  ]

  /** The delays strictly increase, so the status messages fire in list order. */
  lemma StatusUpdatesInOrder()
    ensures forall i, j :: 0 <= i < j < |StatusUpdates| ==> StatusUpdates[i].delay < StatusUpdates[j].delay
  {
  }

  /** `err instanceof Error ? err.message : 'An unexpected error occurred.'` */
  function ErrorMessage(e: Thrown): (m: string)
    ensures e.ErrorObject? ==> m == e.message
    ensures e.NonErrorValue? ==> m == UnexpectedError
  {
    match e
    case ErrorObject(msg) => msg
    case NonErrorValue => UnexpectedError
  }

  /**
   * The record once generation settles: no longer generating, and holding a
   * result with status 'Success!' or an error message with an empty status,
   * never both.
   */
  function GenerationSettled(outcome: Outcome): (s: GenerationState)
    ensures !s.isGenerating
    ensures s.resultUrl.Some? <==> outcome.Image?
    ensures s.error.Some? <==> outcome.Failed?
    ensures outcome.Image? ==> s.resultUrl == Some(outcome.dataUri) && s.status == SuccessStatus
    ensures outcome.Failed? ==> s.error == Some(ErrorMessage(outcome.error)) && s.status == ""
  {
    match outcome
    case Image(url) => GenerationState(false, SuccessStatus, None, Some(url))
    case Failed(e) => GenerationState(false, "", Some(ErrorMessage(e)), None)
  }

  /**
   * The record once refinement settles, from the record `s` it started from:
   * success replaces the result and sets 'Success!'; failure keeps the result
   * and status and sets the refinement error. Every other field keeps its value.
   */
  function RefinementSettled(s: GenerationState, outcome: Outcome): (r: GenerationState)
    ensures r.isGenerating == s.isGenerating
    ensures outcome.Image? ==> r.resultUrl == Some(outcome.dataUri) && r.status == SuccessStatus && r.error == s.error
    ensures outcome.Failed? ==> r.resultUrl == s.resultUrl && r.status == s.status && r.error == Some(RefinementFailedMessage)
  {
    match outcome
    case Image(url) => s.(resultUrl := Some(url), status := SuccessStatus)
    case Failed(_) => s.(error := Some(RefinementFailedMessage))
  }

  /** The arguments a generation call captures when it starts. */
  datatype GenerationCall = GenerationCall(
    person1: ImageData, person2: ImageData, reference: ImageData, options: OptionSet, prompt: string)

  /** The arguments a refinement call captures when it starts. */
  datatype RefinementCall = RefinementCall(currentImage: string, instruction: string)

  /** Every field of the session at one moment. */
  datatype View = View(
    person1: Option<ImageData>, person2: Option<ImageData>, reference: Option<ImageData>,
    showTour: bool, options: OptionSet, prompt: string, refinementInput: string,
    state: GenerationState, isRefining: bool, storage: Storage)

  function WithImage(v: View, slot: UploadSlot, img: Option<ImageData>): View
  {
    match slot
    case Person1 => v.(person1 := img)
    case Person2 => v.(person2 := img)
    case Reference => v.(reference := img)
  }

  // ---- Which controls the page offers ------------------------------------------------

  /** All three images are present. */
  predicate Complete(v: View)
  {
    v.person1.Some? && v.person2.Some? && v.reference.Some?
  }

  /** The generate button is shown (no result yet) and enabled (complete, nothing in flight). */
  predicate GenerateOffered(v: View)
  {
    v.state.resultUrl.None? && Complete(v) && !v.state.isGenerating && !v.isRefining
  }

  /**
   * The refine button is shown (a result exists) and enabled (non-blank
   * input, no refinement running); this is also exactly the refine
   * handler's own guard.
   */
  predicate RefineOffered(v: View)
  {
    v.state.resultUrl.Some? && Trim(v.refinementInput) != "" && !v.isRefining
  }

  /**
   * A reset control is usable: "Create New" beside a result while not
   * refining, or "Try Again" in the error panel, which is rendered only
   * when there is no result, no generation running and a truthy (non-empty)
   * error message.
   */
  predicate ResetOffered(v: View)
  {
    if v.state.resultUrl.Some? then !v.isRefining
    else !v.state.isGenerating && v.state.error.Some? && v.state.error.value != ""
  }

  /**
   * Once generation settles (with no refinement running) a reset control is
   * offered exactly when there is a result or the error message is not
   * empty, and the generate button comes back exactly when the generation
   * failed and the images are still complete.
   */
  lemma SettledGenerationOffersReset(v: View, outcome: Outcome)
    requires !v.isRefining
    ensures ResetOffered(v.(state := GenerationSettled(outcome))) <==> outcome.Image? || ErrorMessage(outcome.error) != ""
    ensures GenerateOffered(v.(state := GenerationSettled(outcome))) <==> outcome.Failed? && Complete(v)
    ensures !RefineOffered(v.(state := GenerationSettled(outcome))) || outcome.Image?
  {
  }

  /**
   * After a reset nothing is left to reset or refine, and the generate
   * button is offered exactly when the images are complete and no
   * refinement is running.
   */
  lemma ResetOffersGenerate(v: View)
    ensures !ResetOffered(v.(state := InitialState, refinementInput := ""))
    ensures !RefineOffered(v.(state := InitialState, refinementInput := ""))
    ensures GenerateOffered(v.(state := InitialState, refinementInput := "")) <==> Complete(v) && !v.isRefining
  {
  }

  /** While a refinement of the shown result runs, none of the three actions is offered. */
  lemma RefiningOffersNothing(v: View)
    requires v.isRefining && v.state.resultUrl.Some?
    ensures !GenerateOffered(v) && !RefineOffered(v) && !ResetOffered(v)
  {
  }

  /** While a first generation runs (no result yet), none of the three actions is offered. */
  lemma GeneratingOffersNothing(v: View)
    requires v.state.isGenerating && v.state.resultUrl.None?
    ensures !GenerateOffered(v) && !RefineOffered(v) && !ResetOffered(v)
  {
  }

  class CoupleApp {
    var person1: Option<ImageData>
    var person2: Option<ImageData>
    var reference: Option<ImageData>
    var showTour: bool
    var aspectRatio: AspectRatio
    var style: GenerationStyle
    var detailLevel: DetailLevel
    var poseVariation: PoseVariation
    var cameraAngle: CameraAngle
    var prompt: string
    var refinementInput: string
    var state: GenerationState
    var isRefining: bool
    var storage: Storage

    function Options(): OptionSet
      reads this
    {
      OptionSet(aspectRatio, style, detailLevel, poseVariation, cameraAngle)
    }

    function Snapshot(): View
      reads this
    {
      View(person1, person2, reference, showTour, Options(), prompt, refinementInput, state, isRefining, storage)
    }

    /** The session invariant: the store mirrors the current options. */
    predicate Valid()
      reads this
    {
      Persisted(storage, Options())
    }

    /** All three images are present. */
    predicate IsComplete()
      reads this
    {
      Complete(Snapshot())
    }

    /** A request is in flight; the form's controls are disabled. */
    predicate Busy()
      reads this
    {
      state.isGenerating || isRefining
    }

    predicate GenerateEnabled()
      reads this
    {
      GenerateOffered(Snapshot())
    }

    predicate RefineEnabled()
      reads this
    {
      RefineOffered(Snapshot())
    }

    predicate ResetEnabled()
      reads this
    {
      ResetOffered(Snapshot())
    }

    /** Mount: read the options once, then the persistence effects write them all and the tour flag is read. */
    constructor (saved: Storage)
      requires PreferencesReadable(saved)
      ensures Options() == LoadPreferences(saved)
      ensures person1 == None && person2 == None && reference == None
      ensures prompt == "" && refinementInput == ""
      ensures state == InitialState && !isRefining
      ensures showTour == TourPending(saved)
      ensures storage == Persist(saved, Options())
      ensures Valid()
    {
      person1, person2, reference := None, None, None;
      var o := LoadPreferences(saved);
      aspectRatio, style, detailLevel, poseVariation, cameraAngle :=
        o.aspectRatio, o.style, o.detailLevel, o.poseVariation, o.cameraAngle;
      prompt, refinementInput := "", "";
      state := InitialState;
      isRefining := false;
      storage := Persist(saved, o);
      showTour := TourPending(saved);
      PersistPersists(saved, o);
    }

    /** The tour's completion callback: record the flag, hide the tour. */
    method CompleteTour()
      requires Valid()
      modifies this
      ensures Valid()
      ensures Snapshot() == old(Snapshot()).(showTour := false, storage := old(storage)[TourCompletedKey := TourCompletedValue])
    {
      storage := storage[TourCompletedKey := TourCompletedValue];
      showTour := false;
    }

    /**
     * A finished upload lands in its slot whatever the page's state: the
     * uploader disables only the file picker, not the read in progress.
     */
    method Upload(slot: UploadSlot, img: ImageData)
      modifies this
      ensures Snapshot() == WithImage(old(Snapshot()), slot, Some(img))
    {
      match slot
      case Person1 => person1 := Some(img);
      case Person2 => person2 := Some(img);
      case Reference => reference := Some(img);
    }

    /** The "Change" control empties a slot; it is hidden while busy. */
    method Clear(slot: UploadSlot)
      modifies this
      ensures Snapshot() == if old(Busy()) then old(Snapshot()) else WithImage(old(Snapshot()), slot, None)
    {
      if !Busy() {
        match slot
        case Person1 => person1 := None;
        case Person2 => person2 := None;
        case Reference => reference := None;
      }
    }

    method SelectAspectRatio(a: AspectRatio)
      requires Valid()
      modifies this
      ensures Valid()
      ensures Snapshot() == if old(Busy()) then old(Snapshot())
                            else old(Snapshot()).(options := old(Options()).(aspectRatio := a),
                                                  storage := old(storage)[AspectRatioKey := AspectRatioValue(a)])
    {
      if !Busy() {
        aspectRatio := a;
        storage := storage[AspectRatioKey := AspectRatioValue(a)];
      }
    }

    method SelectStyle(s: GenerationStyle)
      requires Valid()
      modifies this
      ensures Valid()
      ensures Snapshot() == if old(Busy()) then old(Snapshot())
                            else old(Snapshot()).(options := old(Options()).(style := s),
                                                  storage := old(storage)[StyleKey := StyleValue(s)])
    {
      if !Busy() {
        style := s;
        storage := storage[StyleKey := StyleValue(s)];
      }
    }

    method SelectDetailLevel(d: DetailLevel)
      requires Valid()
      modifies this
      ensures Valid()
      ensures Snapshot() == if old(Busy()) then old(Snapshot())
                            else old(Snapshot()).(options := old(Options()).(detailLevel := d),
                                                  storage := old(storage)[DetailLevelKey := DetailLevelValue(d)])
    {
      if !Busy() {
        detailLevel := d;
        storage := storage[DetailLevelKey := DetailLevelValue(d)];
      }
    }

    method SelectPoseVariation(p: PoseVariation)
      requires Valid()
      modifies this
      ensures Valid()
      ensures Snapshot() == if old(Busy()) then old(Snapshot())
                            else old(Snapshot()).(options := old(Options()).(poseVariation := p),
                                                  storage := old(storage)[PoseVariationKey := PoseVariationValue(p)])
    {
      if !Busy() {
        poseVariation := p;
        storage := storage[PoseVariationKey := PoseVariationValue(p)];
      }
    }

    method SelectCameraAngle(c: CameraAngle)
      requires Valid()
      modifies this
      ensures Valid()
      ensures Snapshot() == if old(Busy()) then old(Snapshot())
                            else old(Snapshot()).(options := old(Options()).(cameraAngle := c),
                                                  storage := old(storage)[CameraAngleKey := CameraAngleValue(c)])
    {
      if !Busy() {
        cameraAngle := c;
        storage := storage[CameraAngleKey := CameraAngleValue(c)];
      }
    }

    /** Typing in the scene-instructions box, disabled while busy. */
    method EditPrompt(text: string)
      modifies this
      ensures Snapshot() == if old(Busy()) then old(Snapshot()) else old(Snapshot()).(prompt := text)
    {
      if !Busy() {
        prompt := text;
      }
    }

    /** Typing in the refinement box, which is shown beside a result only and disabled while refining. */
    method EditRefinementInput(text: string)
      modifies this
      ensures Snapshot() == if old(state.resultUrl.None? || isRefining) then old(Snapshot())
                            else old(Snapshot()).(refinementInput := text)
    {
      if state.resultUrl.Some? && !isRefining {
        refinementInput := text;
      }
    }

    /**
     * The generate handler up to its call: nothing happens unless all three
     * images are present; otherwise the record becomes "generating, status
     * 'Initializing Flash Engine...', no error, no result" and the call
     * captures the images, the options and the scene prompt.
     */
    method StartGeneration() returns (call: Option<GenerationCall>)
      requires Valid()
      modifies this
      ensures Valid()
      ensures call.Some? <==> old(IsComplete())
      ensures old(GenerateEnabled()) ==> call.Some?
      ensures call.None? ==> Snapshot() == old(Snapshot())
      ensures call.Some? ==>
                && call.value == GenerationCall(old(person1).value, old(person2).value, old(reference).value,
                                                old(Options()), old(prompt))
                && Snapshot() == old(Snapshot()).(state := GenerationState(true, InitializingStatus, None, None))
    {
      if person1.None? || person2.None? || reference.None? {
        return None;
      }
      state := GenerationState(true, InitializingStatus, None, None);
      return Some(GenerationCall(person1.value, person2.value, reference.value, Options(), prompt));
    }

    /** A scheduled status message fires: it replaces the status only while generating. */
    method StatusTick(k: nat)
      requires k < |StatusUpdates|
      requires Valid()
      modifies this
      ensures Valid()
      ensures Snapshot() == if old(state.isGenerating)
                            then old(Snapshot()).(state := old(state).(status := StatusUpdates[k].message))
                            else old(Snapshot())
    {
      if state.isGenerating {
        state := state.(status := StatusUpdates[k].message);
      }
    }

    /** The generation call returns or throws: the record is replaced by the settled one. */
    method FinishGeneration(outcome: Outcome)
      requires Valid()
      modifies this
      ensures Valid()
      ensures Snapshot() == old(Snapshot()).(state := GenerationSettled(outcome))
      ensures !isRefining ==> (ResetEnabled() <==> outcome.Image? || ErrorMessage(outcome.error) != "")
    {
      match outcome {
        case Image(url) =>
          state := GenerationState(false, SuccessStatus, None, Some(url));
        case Failed(e) =>
          state := GenerationState(false, "", Some(ErrorMessage(e)), None);
      }
    }

    /**
     * The refine handler up to its call: nothing happens without a result,
     * with a blank input or while refining; otherwise `isRefining` is set, the
     * status becomes 'Applying Flash Edit...' and the call captures the current
     * result and the input as typed (untrimmed).
     */
    method StartRefinement() returns (call: Option<RefinementCall>)
      requires Valid()
      modifies this
      ensures Valid()
      ensures call.Some? <==> old(RefineEnabled())
      ensures call.None? ==> Snapshot() == old(Snapshot())
      ensures call.Some? ==>
                && call.value == RefinementCall(old(state).resultUrl.value, old(refinementInput))
                && Snapshot() == old(Snapshot()).(isRefining := true, state := old(state).(status := RefiningStatus))
    {
      if !RefineEnabled() {
        return None;
      }
      call := Some(RefinementCall(state.resultUrl.value, refinementInput));
      isRefining := true;
      state := state.(status := RefiningStatus);
    }

    /**
     * The refinement call returns or throws: the record settles, the input is
     * cleared on success only, and `isRefining` ends false either way.
     */
    method FinishRefinement(outcome: Outcome)
      requires Valid()
      modifies this
      ensures Valid()
      ensures Snapshot() == old(Snapshot()).(state := RefinementSettled(old(state), outcome),
                                             refinementInput := if outcome.Image? then "" else old(refinementInput),
                                             isRefining := false)
    {
      match outcome {
        case Image(url) =>
          state := state.(resultUrl := Some(url), status := SuccessStatus);
          refinementInput := "";
        case Failed(_) =>
          state := state.(error := Some(RefinementFailedMessage));
      }
      isRefining := false;
    }

    /** "Create New" / "Try Again": the record returns to its initial value and the refinement input is cleared. */
    method Reset()
      requires Valid()
      modifies this
      ensures Valid()
      ensures Snapshot() == old(Snapshot()).(state := InitialState, refinementInput := "")
      ensures !ResetEnabled() && !RefineEnabled()
      ensures GenerateEnabled() <==> IsComplete() && !isRefining
    {
      state := InitialState;
      refinementInput := "";
    }

    /**
     * The whole generate handler when its call settles before any status
     * message fires: the record ends as the service's outcome for the request
     * built from the session's images, options and prompt.
     */
    method Generate(api: Request -> ApiReply)
      requires Valid()
      modifies this
      ensures Valid()
      ensures !old(IsComplete()) ==> Snapshot() == old(Snapshot())
      ensures old(IsComplete()) ==>
                Snapshot() == old(Snapshot()).(state := GenerationSettled(ReplyOutcome(
                  api(GenerationRequest(old(person1).value, old(person2).value, old(reference).value,
                                        old(Options()), Some(old(prompt)))),
                  NoImageGenerated, NoImageData)))
    {
      var call := StartGeneration();
      if call.Some? {
        var c := call.value;
        var outcome := GenerateCouplePhoto(c.person1, c.person2, c.reference, c.options, Some(c.prompt), api);
        FinishGeneration(outcome);
      }
    }

    /** The whole refine handler: the record ends as the refinement outcome for the captured result and input. */
    method Refine(api: Request -> ApiReply)
      requires Valid()
      modifies this
      ensures Valid()
      ensures !old(RefineEnabled()) ==> Snapshot() == old(Snapshot())
      ensures old(RefineEnabled()) ==>
                var outcome := ReplyOutcome(api(RefinementRequest(old(state).resultUrl.value, old(refinementInput))),
                                            RefineNoOutput, RefineNoImageData);
                Snapshot() == old(Snapshot()).(
                  state := RefinementSettled(old(state).(status := RefiningStatus), outcome),
                  refinementInput := if outcome.Image? then "" else old(refinementInput))
    {
      var call := StartRefinement();
      if call.Some? {
        var c := call.value;
        var outcome := RefineGeneratedPhoto(c.currentImage, c.instruction, api);
        FinishRefinement(outcome);
      }
    }
  }
}
