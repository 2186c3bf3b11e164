# CoupleAI Photo — a Dafny model of its core

CoupleAI is a single-page web application. The user uploads portraits of two
people and a reference image, chooses five presentation options (aspect ratio,
style, detail level, pose variation, camera angle) and optionally types scene
instructions. The app asks an image-generation model for one photo of the
couple in the reference scene, and can then refine that photo with free-text
edit instructions. A support chat widget and a four-step onboarding tour
complete the interface.

This project models the core in Dafny and proves properties of the model:

- `types.dfy` (module `Types`): the option unions as datatypes, their wire strings, parsing back from a
  wire string, and the option lists the form offers.
- `gemini_service.dfy` (module `Gemini`): the service layer.
  - The four description tables and the prompt composer: clause filtering and joining with a space.
  - The request each call sends.
  - The search for the first inline image in a reply, as a loop.
  - The data URI built from that image and the base64 payload split out of it.
  - The refinement instruction.
  - The error outcomes.
  - The remote model is an abstract function parameter `api: Request -> ApiReply`.
- `app.dfy` (module `App`): the application session as a class.
  - Its fields are the source's state hooks.
  - Each handler is a method: uploads, option setters with persistence, the generate handler, status ticks,
    the refine handler and reset.
  - The key-value store is a `map<string, string>` field.
  - Each asynchronous handler is split at its `await` into a Start and a Finish method. A driver method
    composes the two around the service call.
- `support_chat.dfy` (module `SupportChat`): the chat widget as a class.
  - The transcript starts with a greeting.
  - Sending is guarded. The user's turn is trimmed. The session is created lazily.
  - The assistant's reply falls back to a fixed text when the reply is empty and to another when the call fails.
- `onboarding_tour.dfy` (module `OnboardingTour`): the tour as a class.
  - Moves between steps and completion.
  - The Next button's label.
  - The progress dots.
- `text.dfy` (module `Text`): the JavaScript string built-ins the core relies on.
  - `trim`, with the ECMAScript white-space set.
  - `split` on one character.
  - `Array.prototype.join`.
- `wrappers.dfy` (module `Wrappers`): `Option`.

Behaviour of the code worth noting:

- The prompt composer uses four description tables: pose, camera angle, style and detail level. The aspect ratio
  is not a clause of the prompt. It is sent in the request's image configuration (`GenerationRequest`).
- The failure test `!response.candidates?.[0]?.content?.parts` fires only when the parts are absent.
  - An empty parts array passes it, finds no inline image, and fails with "Could not find image data in
    response."
  - `ApiReply.Delivered` therefore carries `Option<seq<Part>>`.
- The refinement request always claims MIME type `image/png`, whatever the type in the current image's data URI
  (`RefinementRequest`, `RefinementResendsPayload`).
- A successful refinement keeps any earlier error message in the state record. A failed one keeps the status
  'Applying Flash Edit...' (`RefinementSettled`).
- An upload whose file read completes while the page is busy still lands in its slot (`Upload`). The uploader
  disables only the file picker and the "Change" control (`Clear`).
- The error panel tests the error message for truthiness. A failure whose message is empty (an `Error` thrown
  with no message) shows the placeholder and no "Try Again" control (`ResetOffered`).
- The chat's input box and send form exist only while the panel is open (`EditInput`, `SendEnabled`).
- There is no guard against a response that arrives after a reset. `FinishGeneration` and `FinishRefinement`
  apply whatever outcome they are given.

## Model

| member | source | states |
|---|---|---|
| Types.ParseAspectRatio | types.ts:10 | a string parses exactly when it is one of the five aspect-ratio literals, to the value whose wire string it is |
| Types.ParseStyle | types.ts:12 | a string parses exactly when it is one of the five style literals, to the value whose wire string it is |
| Types.ParseDetailLevel | types.ts:14 | a string parses exactly when it is one of the four detail-level literals, to the value whose wire string it is |
| Types.ParsePoseVariation | types.ts:16 | a string parses exactly when it is one of the four pose literals, to the value whose wire string it is |
| Types.ParseCameraAngle | types.ts:18 | a string parses exactly when it is one of the six camera-angle literals, to the value whose wire string it is |
| Types.WireRoundTrips | types.ts:10-18 | every option value's wire string parses back to that value |
| Types.OptionListsEnumerate | App.tsx:163-224 | each option list of the form offers every value of its union exactly once (5, 5, 4, 4 and 6 entries); the pose and detail defaults are written "default" |
| Gemini.StyleDescription | services/geminiService.ts:34-40 | every style has a non-empty description |
| Gemini.DetailDescription | services/geminiService.ts:42-47 | every detail level has a non-empty description |
| Gemini.PoseDescription | services/geminiService.ts:49-54 | every pose variation has a non-empty description |
| Gemini.AngleDescription | services/geminiService.ts:56-63 | every camera angle has a non-empty description |
| Gemini.DescriptionsDistinct | services/geminiService.ts:34-63 | each description table is injective: different options give different text |
| Gemini.KeepNonEmpty | services/geminiService.ts:74 | `filter(Boolean)` on strings keeps exactly the non-empty entries, in order, and is the identity on a list with no empty entry |
| Gemini.KeepNonEmptyAppend | services/geminiService.ts:74 | filtering distributes over concatenation |
| Gemini.JoinSevenPieces | services/geminiService.ts:65-74 | joining the seven fixed clauses with a space gives the clauses in order, separated by single spaces |
| Gemini.FilterJoinLayout | services/geminiService.ts:65-74 | filtering and joining seven non-empty clauses and a last segment gives the seven joined, followed by a space and the last segment exactly when it is non-empty |
| Gemini.FixedClausesNonEmpty | services/geminiService.ts:66-72 | all seven fixed clauses are non-empty for every option set, so the filter never drops one |
| Gemini.ComposePrompt | services/geminiService.ts:65-74 | the prompt is the seven fixed clauses in order, followed by " Additional instructions: " and the custom text exactly when that text is present and non-empty |
| Gemini.CustomPromptIsSuffix | services/geminiService.ts:73 | with truthy custom text, the prompt ends with the additional-instructions clause, and the custom text can be read back from it |
| Gemini.PromptDeterminesCustom | services/geminiService.ts:65-74 | for fixed options, the prompt determines whether custom text was given and, if so, which |
| Gemini.JoinOccurs | services/geminiService.ts:74 | every piece of a join occurs in the joined string |
| Gemini.SevenJoinContains | services/geminiService.ts:65-74 | a description wrapped in one of the seven clauses occurs in the prompt |
| Gemini.PromptContainsDescriptions | services/geminiService.ts:68-72 | the prompt contains the pose, camera-angle, style and detail descriptions of the chosen options |
| Gemini.RefinementInstruction | services/geminiService.ts:149 | the refinement text is the fixed lead, the user's instruction verbatim and the fixed example tail |
| Gemini.Base64Payload | services/geminiService.ts:133-135 | a string without a comma is kept whole; otherwise the payload is the second comma-separated field, which holds no comma |
| Gemini.PayloadIsSecondField | services/geminiService.ts:133-135 | with a comma present, the string is a comma-free head, a comma, the payload and then nothing or a further comma-led tail |
| Gemini.DataUri | services/geminiService.ts:117 | the image's data URI starts with `data:`, so it is never empty (truthy), and has the length of `data:`, the MIME type, `;base64`, the comma and the data |
| Gemini.DataUriRoundTrip | services/geminiService.ts:117-135 | splitting the payload out of a data URI built from a comma-free MIME type and data gives back the data |
| Gemini.GenerationRequest | services/geminiService.ts:77-109 | the request names the image model and the aspect ratio, carries the three images in order and the composed prompt as its only text |
| Gemini.RefinementRequest | services/geminiService.ts:138-153 | the request names the image model, carries the payload of the current image as a PNG and the refinement text, and has no aspect ratio |
| Gemini.FirstInline | services/geminiService.ts:115-119 | the result is the inline data of the first part that has some, or none when no part has any |
| Gemini.FirstInlineUnique | services/geminiService.ts:115-119 | that specification has one answer per list of parts |
| Gemini.FindInlineData | services/geminiService.ts:115-119 | the loop returns the inline data of the first part that has some, or none |
| Gemini.ReplyOutcome | services/geminiService.ts:111-124 | a thrown error is rethrown unchanged; absent parts fail with the first message; no inline part fails with the second; otherwise the result is the data URI of the first inline part, which starts with `data:` |
| Gemini.ImageFromReply | services/geminiService.ts:111-124 | the reply-handling code computes exactly that outcome |
| Gemini.GenerateCouplePhoto | services/geminiService.ts:21-125 | the outcome is the reply outcome of the generation request, with the generation messages |
| Gemini.RefineGeneratedPhoto | services/geminiService.ts:127-169 | the outcome is the reply outcome of the refinement request, with the refinement messages |
| Gemini.RefinementResendsPayload | services/geminiService.ts:117-146 | refining a freshly generated image resends exactly its base64 data, labelled PNG |
| Gemini.ExamplePrompt | services/geminiService.ts:65-74 | for anime, high detail, dynamic pose, close-up and "sunset beach", the prompt contains the four matching descriptions |
| Gemini.ExamplePromptEnding | services/geminiService.ts:65-74 | with "sunset beach" as the custom text, the prompt ends with the additional-instructions clause for it |
| Text.Trim | App.tsx:135 | `trim` neither starts nor ends with white space and is no longer than its input |
| Text.TrimRemovesBlankEnds | components/SupportChat.tsx:50 | `trim` removes exactly a blank run at each end |
| Text.TrimEmptyIffBlank | App.tsx:135 | `s.trim()` is empty exactly when `s` is all white space |
| Text.Split | services/geminiService.ts:134 | `split(',')` returns comma-free pieces that join back to the input, one piece exactly when there is no comma |
| Text.SplitAfter | services/geminiService.ts:134 | splitting after a comma-free head gives that head followed by the split of the rest |
| Text.Join | services/geminiService.ts:74 | `Array.prototype.join`: no pieces give "", one piece gives itself, and otherwise the first piece, the separator and the join of the rest |
| Text.JoinEnds | services/geminiService.ts:74 | a join of at least one piece starts with the first piece and ends with the last |
| Text.JoinAppend | services/geminiService.ts:74 | joining one more piece appends the separator and that piece |
| App.GetItem | App.tsx:16-35 | reading a key gives its stored value, or null when it is missing |
| App.LoadAspectRatio | App.tsx:16-19 | an unset entry gives 9:16; otherwise the stored wire string's value |
| App.LoadStyle | App.tsx:20-23 | an unset entry gives realistic; otherwise the stored wire string's value |
| App.LoadDetailLevel | App.tsx:24-27 | an unset entry gives default; otherwise the stored wire string's value |
| App.LoadPoseVariation | App.tsx:28-31 | an unset entry gives default; otherwise the stored wire string's value |
| App.LoadCameraAngle | App.tsx:32-35 | an unset entry gives default; otherwise the stored wire string's value |
| App.LoadPreferences | App.tsx:16-35 | each of the five options is read on its own: an unset entry gives that option's default, and a set one gives the value whose wire string is stored |
| App.Persist | App.tsx:61-79 | the five writes add exactly the five option keys and leave every other entry unchanged |
| App.PersistPersists | App.tsx:61-79 | after the five writes the store holds every option's wire string |
| App.ReloadRestoresPreferences | App.tsx:16-79 | a store the app has written loads back as the same options |
| App.EmptyStoreGivesDefaults | App.tsx:16-35 | an empty store gives 9:16, realistic, default, default, default |
| App.ErrorMessage | App.tsx:128 | an Error gives its message; any other thrown value gives "An unexpected error occurred." |
| App.GenerationSettled | App.tsx:117-130 | after generation, the record is no longer generating and holds exactly one of a result (status 'Success!', no error) or an error (empty status, no result) |
| App.RefinementSettled | App.tsx:141-145 | success replaces the result, sets 'Success!' and keeps the error; failure keeps the result and status and sets the refinement message; `isGenerating` never changes |
| App.CoupleApp.constructor | App.tsx:9-79 | mount loads the options from the store, writes them back, starts with empty slots and the initial record, and shows the tour exactly when its flag is unset |
| App.TourPending | App.tsx:49-54 | the tour shows exactly when the completion flag is missing or empty |
| App.TourFlagHidesTour | App.tsx:49-59 | a fresh store shows the tour, and once the flag "true" is written the tour stays hidden whatever else is written later |
| App.CoupleApp.CompleteTour | App.tsx:56-59 | completing the tour stores the flag "true" and hides the tour; nothing else changes |
| App.CoupleApp.Upload | components/ImageUploader.tsx:29-36 | a finished upload sets that slot only, whether or not the page is busy |
| App.CoupleApp.Clear | components/ImageUploader.tsx:50-57 | "Change" empties that slot only, and is ignored while busy |
| App.CoupleApp.SelectAspectRatio | App.tsx:285-286 | choosing a ratio sets it and persists it, unless busy; the store keeps mirroring the options |
| App.CoupleApp.SelectStyle | App.tsx:310-311 | choosing a style sets it and persists it, unless busy |
| App.CoupleApp.SelectDetailLevel | App.tsx:360-361 | choosing a detail level sets it and persists it, unless busy |
| App.CoupleApp.SelectPoseVariation | App.tsx:336-337 | choosing a pose variation sets it and persists it, unless busy |
| App.CoupleApp.SelectCameraAngle | App.tsx:385-386 | choosing a camera angle sets it and persists it, unless busy |
| App.CoupleApp.EditPrompt | App.tsx:412-413 | typing sets the scene prompt, unless busy |
| App.CoupleApp.EditRefinementInput | App.tsx:454-482 | typing sets the refinement input when the box is shown (a result exists) and not refining; otherwise nothing changes |
| App.CoupleApp.StartGeneration | App.tsx:81-116 | generation starts exactly when all three images are present; it then clears error and result, sets the initializing status, and captures the images, options and prompt; otherwise nothing changes; an enabled generate button always starts it |
| App.StatusUpdatesInOrder | App.tsx:92-103 | the four scheduled delays strictly increase |
| App.CoupleApp.StatusTick | App.tsx:93-104 | a scheduled message replaces the status only while generating |
| App.CoupleApp.FinishGeneration | App.tsx:117-130 | the record becomes the settled record of the outcome; nothing else changes; with no refinement running a reset control is then offered exactly when there is a result or the error message is not empty |
| App.CoupleApp.StartRefinement | App.tsx:134-140 | refinement starts exactly when a result exists, the input is not blank and no refinement runs; it then sets `isRefining` and the status and captures the result and the untrimmed input |
| App.CoupleApp.FinishRefinement | App.tsx:141-148 | the record settles, the input is cleared only on success, and `isRefining` ends false either way |
| App.CoupleApp.Reset | App.tsx:151-159 | the record returns to its initial value and the refinement input is cleared; nothing else changes; afterwards neither reset nor refine is offered, and generate is offered exactly when the images are complete and no refinement runs |
| App.GenerateOffered | App.tsx:419-423 | the generate button is shown (no result) and enabled: all three images, no generation and no refinement running |
| App.RefineOffered | App.tsx:454-488 | the refine button is shown (a result exists) and enabled: the input is not blank and no refinement runs |
| App.ResetOffered | App.tsx:454-553 | "Create New" is beside a result and enabled unless refining; otherwise "Try Again" is rendered only with no generation running and a non-empty error message |
| App.SettledGenerationOffersReset | App.tsx:419-550 | once generation settles with no refinement running, "Create New" or "Try Again" is offered exactly when there is a result or the error message is not empty, and the generate button returns exactly after a failure with complete images |
| App.ResetOffersGenerate | App.tsx:419-550 | after a reset no reset or refine control is offered, and generate is offered exactly when the images are complete and no refinement runs |
| App.RefiningOffersNothing | App.tsx:419-501 | while a result is being refined, generate, refine and "Create New" are all disabled |
| App.GeneratingOffersNothing | App.tsx:419-550 | while a first generation runs, the generate button is disabled and neither refine nor reset is rendered |
| App.CoupleApp.Generate | App.tsx:81-131 | the whole handler leaves the record settled on the service's outcome for the session's own images, options and prompt, or changes nothing without all three images |
| App.CoupleApp.Refine | App.tsx:134-149 | the whole handler leaves the record settled on the refinement outcome for the current result and input, or changes nothing when the guard fails |
| SupportChat.BotText | components/SupportChat.tsx:58-62 | the assistant's turn is the reply text when present and non-empty, the processing apology otherwise, the connection apology on failure; it is never empty |
| SupportChat.AppendKeepsWellFormed | components/SupportChat.tsx:52-59 | appending a turn with text, trimmed when it is the user's, keeps the transcript well formed |
| SupportChat.Chat.constructor | components/SupportChat.tsx:6-13 | the widget starts closed, with only the greeting, an empty input and no session |
| SupportChat.Chat.Toggle | components/SupportChat.tsx:150 | the floating button flips the panel |
| SupportChat.Chat.EditInput | components/SupportChat.tsx:70-143 | typing sets the input while the panel is open and no reply is pending; otherwise nothing changes |
| SupportChat.Chat.InitChat | components/SupportChat.tsx:23-45 | a session exists afterwards, and one is created only when none existed |
| SupportChat.Chat.StartSend | components/SupportChat.tsx:47-57 | sending, only possible from the open panel's form, starts exactly when the panel is open, the input is not blank and no reply is pending; it then appends the trimmed text as a user turn, clears the input, sets loading, ensures the session and sends the trimmed text |
| SupportChat.Chat.FinishSend | components/SupportChat.tsx:58-65 | the assistant's turn is appended and loading ends |
| SupportChat.Chat.Send | components/SupportChat.tsx:47-66 | an admitted send adds exactly the user's trimmed turn and the assistant's answer, leaves a session and creates one only when none existed; otherwise nothing changes |
| OnboardingTour.Next | components/OnboardingTour.tsx:64-70 | Next completes exactly on the last step and otherwise moves to the following step |
| OnboardingTour.PressWalk | components/OnboardingTour.tsx:64-70 | k presses from a step reach the step k further on while that exists, and complete the tour otherwise |
| OnboardingTour.TourCompletesOnLastPress | components/OnboardingTour.tsx:15-70 | from the first step the tour visits the four steps in order and completes on the fourth press, not before |
| OnboardingTour.NextLabel | components/OnboardingTour.tsx:104 | the label is "Start Creating" exactly on the last step, "Next Step" otherwise |
| OnboardingTour.Dots | components/OnboardingTour.tsx:85-90 | one dot per step, highlighted exactly at the current step |
| OnboardingTour.CountSingle | components/OnboardingTour.tsx:85-90 | a sequence whose only true entry is at one index counts one |
| OnboardingTour.CountNone | components/OnboardingTour.tsx:85-90 | a sequence with no true entry counts zero |
| OnboardingTour.ExactlyOneDot | components/OnboardingTour.tsx:85-90 | on a valid step exactly one dot is highlighted, the current one |
| OnboardingTour.Tour.Current | components/OnboardingTour.tsx:76-81 | the shown step is one of the four steps |
| OnboardingTour.Tour.constructor | components/OnboardingTour.tsx:15 | the tour starts on the welcome step with no completion |
| OnboardingTour.Tour.HandleNext | components/OnboardingTour.tsx:64-70 | Next advances the step, or on the last step calls the completion callback once |
| OnboardingTour.Tour.Skip | components/OnboardingTour.tsx:94-98 | Skip calls the completion callback once from any step |

## Left out

- The image-generation and chat models are remote calls. They are abstract parameters: `api` in `Gemini`, an
  outcome argument in the Finish methods, and `service` / a reply argument in `SupportChat`. The API key,
  client construction, the chat's model name and its system instruction text are not modelled.
- `ensureApiKey` (services/geminiService.ts:8-19) depends on the browser host's key-selection dialog. It is not
  part of this model.
- Image upload and file reading (components/ImageUploader.tsx) are browser I/O. Uploads enter the model as
  finished `ImageData` values passed to `Upload`; the file picker's own disabled check is not modelled.
- `localStorage` is a `map<string, string>` field. Quota errors and other tabs writing to the store are not
  modelled.
- The timers of the status messages have no clock in the model. Each timer is an explicit `StatusTick(k)` call,
  which may come at any point, including after the call has settled. The message list and its delays are the
  constant `StatusUpdates`. Ticks may come in any order: `StatusUpdatesInOrder` is a fact about the constant only.
- Interleavings of asynchronous handlers are modelled only as sequences of Start, Tick and Finish calls. React's
  batching and the rendering itself are not. Neither are JSX, CSS, icons, scrolling, logging nor the download link.
- App.LoadAspectRatio: requires the stored entry to be unset or a wire string. The source casts any stored string unchecked, and the app itself only writes wire strings.
- App.LoadStyle: requires the stored entry to be unset or a wire string, for the same reason.
- App.LoadDetailLevel: requires the stored entry to be unset or a wire string, for the same reason.
- App.LoadPoseVariation: requires the stored entry to be unset or a wire string, for the same reason.
- App.LoadCameraAngle: requires the stored entry to be unset or a wire string, for the same reason.
- App.LoadPreferences: requires every option entry to be unset or a wire string, for the same reason as the five loaders.
- App.CoupleApp.constructor: requires all five stored option entries to be readable in that sense.
- App.CoupleApp.FinishGeneration: takes the outcome as given. The page tests `resultUrl` for truthiness (App.tsx:135, 419, 454)
  while the model tests presence, so an `Image("")` outcome would differ. The service never produces one: `ReplyOutcome`
  ensures every image URI starts with `data:`.
- App.CoupleApp.FinishRefinement: takes the outcome as given, with the same presence-for-truthiness reading of `resultUrl`.
- SupportChat.Chat.InitChat: always succeeds. If creating the client throws, the source leaves the session absent.
  The model folds that failure into the `ChatFailed` reply of the same send.
- OnboardingTour.Tour: counts `onComplete` calls. Hiding the tour is `App.CoupleApp.CompleteTour`, a separate
  call: the composition of the two components is not modelled. Each step's content text is the data
  `Tour.Current` shows; no property is stated about its wording.
