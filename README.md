# EmojiCraft in Dafny

A model of the client-side core of EmojiCraft, a browser application in which
a user describes a character (the *concept*), asks for a number of emojis,
optionally uploads reference images, and has an external image-generation
service draw each emoji from a per-item description and optional text. The
finished emojis are saved as *sets* in the browser's local storage.

The model covers four pieces:

- **Workspace** (`workspace.dfy`, module `WorkspaceComponent`): the list of
  emoji slots, created `count` at a time; editing one field of one slot by id;
  the per-slot state machine `idle → generating → success | error`, with the
  asynchronous generation split into a begin step and a completion step (and a
  method `Generate` running both against a generator passed as a parameter);
  collecting the successful slots into an `EmojiSet` on save; the guards of the
  generate and save buttons. The slot list is a field of class `Workspace`;
  every update assigns the result of a pure map over the list keyed by id.
- **Setup** (`setup.dfy`, module `SetupComponent`): the form's initial state,
  the validity check, removing a reference image by position, and the
  all-or-nothing upload of a batch of converted images (a loop that stops at
  the first failed conversion).
- **Application root** (`app.dfy`, module `AppComponent`): the three-view
  navigation with the pending setup data, the list of saved sets (save
  prepends, delete filters by id) and its copy in storage, written by the
  change effect when the list is not empty and immediately on delete.
- **Image generation adapter** (`gemini_service.dfy`, module `GeminiService`):
  stripping a data-URI prefix from each reference image, assembling the request
  parts (images in order, prompt last), composing the prompt with the optional
  text-requirement line, and extracting the first inline image of the reply as
  a `data:image/png;base64,` URI, failing when there is none.

Shared pieces: `types.dfy` (the records of `types.ts`), `wrappers.dfy`
(`Option`, `Result`), `seqs.dfy` (`filter` and `findIndex` with their
properties), `jsstrings.dfy` (`String.prototype.trim` over the ECMAScript
white-space set). `scenarios.dfy` holds client methods that walk through the
end-to-end scenarios (a successful generation saved as a one-item set, a
failed one excluded from saving, a blank concept rejected, navigation with
save) using the members' contracts and the function definitions.

Three behaviours of the code that a reader might expect to be otherwise:

- The generate handler itself does not check the description; only the
  button's `disabled` guard does (`CanGenerate`). `BeginGenerate` therefore
  accepts a blank description.
- A failed generation keeps the slot's previous image (`FinishError`), but
  the slot is no longer saved, because its status is `error`
  (`FailedSlotNotSaved`).
- Storage is written by the change effect only when the list is non-empty;
  the delete handler writes the filtered list explicitly, which is what makes
  the deletion of the last set durable (`EffectAloneKeepsLastSet`,
  `App.DeleteSet`).

## Model

| member | source | states |
|---|---|---|
| `JsStrings.TrimEmptyIffBlank` | components/Workspace.tsx:174 | `s.trim().length === 0` holds exactly when every character of `s` is ECMAScript white space |
| `GeminiService.StripDataUriPrefix` | services/geminiService.ts:18 | the result is the input, or the input with one `data:image/<subtype>;base64,` prefix removed (subtype png, jpeg, jpg or webp); an input with none of those prefixes is returned unchanged |
| `GeminiService.StripPrefixed` | services/geminiService.ts:18 | stripping `prefix + data` gives back exactly `data`, even when `data` itself starts with a prefix (only one is removed) |
| `GeminiService.InlineParts` | services/geminiService.ts:16-26 | one inline-image part per reference image, same count and order, each declared `image/png` and carrying the stripped data |
| `GeminiService.ComposePrompt` | services/geminiService.ts:29-40 | the `+=` composition yields exactly `Prompt`: the head, the text requirement only when the item text is present and not blank, then the style line |
| `GeminiService.BuildRequest` | services/geminiService.ts:16-42 | the push loop builds exactly `RequestParts`: the image parts followed by one text part holding `Prompt` |
| `GeminiService.RequestShape` | services/geminiService.ts:16-42 | the request has `|referenceImages| + 1` parts; the first ones are PNG images in reference order; the last, and only the last, is the prompt text |
| `GeminiService.PromptMentions` | services/geminiService.ts:29-34 | the concept and the item description both occur in the prompt, whatever the item text |
| `GeminiService.PromptTail` | services/geminiService.ts:36-40 | the prompt always ends with the style line; the text-requirement line comes right before it if and only if the item text is present and not blank after trimming |
| `GeminiService.ImageOf` | services/geminiService.ts:52-63 | a returned image always starts with the PNG data-URI prefix and has data behind it; a failure carries "No image generated." |
| `GeminiService.ImageOfFirstInline` | services/geminiService.ts:52-61 | the reply yields an image exactly when the first candidate has parts and one of them carries non-empty inline data; the image is then the data of the first such part behind the PNG prefix |
| `GeminiService.ExtractImage` | services/geminiService.ts:52-63 | the scan over the parts with early return computes `ImageOf` of the reply |
| `GeminiService.GenerationResult` | services/geminiService.ts:3-67 | a successful attempt's URL is non-empty and starts with the PNG data-URI prefix |
| `GeminiService.GenerateEmoji` | services/geminiService.ts:3-67 | builds the request, calls the service once, and returns the extracted image, or the service's error unchanged when it throws: exactly `GenerationResult` |
| `WorkspaceComponent.InitialSlots` | components/Workspace.tsx:15-22 | exactly one slot per id, in id order, each `idle` with empty text and description and no image |
| `WorkspaceComponent.InitialSlotsFresh` | components/Workspace.tsx:15-22 | with distinct ids the new slots are well formed, none is saveable and the save button is disabled |
| `WorkspaceComponent.MapById` | components/Workspace.tsx:27 | same length; each slot with the id is replaced by its image under `f`, every other slot is kept |
| `WorkspaceComponent.MapAbsentId` | components/Workspace.tsx:27 | mapping over an id that no slot has returns the list unchanged |
| `WorkspaceComponent.UpdateField` | components/Workspace.tsx:26-28 | ids and their order are kept, status and image of every slot are kept, other slots are untouched, and the matching slot gets `value` in `field` while its other field is kept |
| `WorkspaceComponent.UpdateAbsentId` | components/Workspace.tsx:26-28 | editing an id no slot has changes nothing |
| `WorkspaceComponent.StartGenerating` | components/Workspace.tsx:34 | only the matching slot changes, and only its status, to `generating` |
| `WorkspaceComponent.FinishSuccess` | components/Workspace.tsx:43 | only the matching slot changes: status `success` and the returned image; text and description kept |
| `WorkspaceComponent.FinishError` | components/Workspace.tsx:45 | only the matching slot changes: status `error`, its previous image kept |
| `WorkspaceComponent.StepsKeepWellFormed` | components/Workspace.tsx:26-45 | every edit and every generation step keeps ids distinct and every `success` slot holding an image |
| `WorkspaceComponent.IndexOf` | components/Workspace.tsx:31-32 | `items.find` finds a slot exactly when some slot has the id, and the slot found has it |
| `WorkspaceComponent.IndexOfUnique` | components/Workspace.tsx:31 | with distinct ids, the slot found is the one slot carrying the id |
| `WorkspaceComponent.CanGenerateIff` | components/Workspace.tsx:174 | the generate button is enabled exactly when the description has a non-white-space character and the slot is not `generating` |
| `WorkspaceComponent.NoReentry` | components/Workspace.tsx:34 | once a slot is marked `generating` its generate button is disabled |
| `WorkspaceComponent.WorkingItems` | components/Workspace.tsx:55 | the saved slots are exactly those with status `success` and an image, each as often as it occurs among the slots, as an order-preserving subsequence of the slots |
| `WorkspaceComponent.SaveEnabledIffSavable` | components/Workspace.tsx:55-74 | on well-formed slots, `hasGeneratedItems` holds exactly when saving would find at least one working slot |
| `WorkspaceComponent.FailedSlotNotSaved` | components/Workspace.tsx:45-55 | after a failed attempt the slot is not among the saved ones, and every other slot is saved exactly as before |
| `WorkspaceComponent.BuildSet` | components/Workspace.tsx:55-69 | no set when no slot is working; otherwise a set with the given id and time, the setup's concept and reference images, and exactly the working slots (at least one) |
| `WorkspaceComponent.GenerateEndsTerminal` | components/Workspace.tsx:30-47 | a whole generation attempt leaves the slot `success` with the new image, or `error` and not saveable, according to this attempt's outcome only; every other slot is left as it was and no slot changes its id |
| `WorkspaceComponent.Workspace.constructor` | components/Workspace.tsx:15-24 | opens with `InitialSlots` of the fresh ids, well formed, not saving |
| `WorkspaceComponent.Workspace.SaveEnabled` | components/Workspace.tsx:74-93 | the save button is enabled exactly when some slot is working and no save is in progress |
| `WorkspaceComponent.Workspace.UpdateItem` | components/Workspace.tsx:26-28 | the slots become `UpdateField` of the old ones; the workspace stays well formed |
| `WorkspaceComponent.Workspace.BeginGenerate` | components/Workspace.tsx:30-34 | an unknown id changes nothing and returns nothing; otherwise returns the slot as found and marks it `generating` |
| `WorkspaceComponent.Workspace.CompleteSuccess` | components/Workspace.tsx:43 | the slots become `FinishSuccess` of the old ones |
| `WorkspaceComponent.Workspace.CompleteError` | components/Workspace.tsx:45 | the slots become `FinishError` of the old ones |
| `WorkspaceComponent.Workspace.Generate` | components/Workspace.tsx:30-47 | begin, one call of the generator with the found slot's description and text, then completion: the slots become `AfterGenerate` of the old ones |
| `WorkspaceComponent.Workspace.SaveSet` | components/Workspace.tsx:49-72 | returns `BuildSet`, the set handed to `onSave`, or nothing (the alert); the saving flag stays raised only when a set was handed on |
| `SetupComponent.IsValidInputIff` | components/Setup.tsx:39 | `isValid` holds exactly when the count is positive and the concept has a non-white-space character |
| `SetupComponent.RemoveAt` | components/Setup.tsx:35-37 | the position filter removes exactly the element at an in-range index, keeping the rest in order; any other index leaves the list unchanged |
| `SetupComponent.ConvertBatch` | components/Setup.tsx:20-26 | gives every converted image in file order when all conversions succeed, and nothing when any fails |
| `SetupComponent.Setup.constructor` | components/Setup.tsx:12-14 | count 32, empty concept, no images |
| `SetupComponent.Setup.SetConcept` | components/Setup.tsx:60 | the concept becomes the typed text |
| `SetupComponent.Setup.SetCount` | components/Setup.tsx:75-80 | the count becomes the slider's value, which lies in [1, 50] |
| `SetupComponent.Setup.UploadImages` | components/Setup.tsx:17-32 | when every file converts, the images are appended after the existing ones in file order; when any fails, or there is no file list, the list is unchanged |
| `SetupComponent.Setup.RemoveImage` | components/Setup.tsx:35-37 | the images become `RemoveAt` of the old ones |
| `SetupComponent.Setup.Next` | components/Setup.tsx:126 | hands on data exactly when `isValid`: the count, the untrimmed concept and the image list, with the count in [1, 50] and the concept not blank |
| `AppComponent.Rendered` | App.tsx:56-76 | the workspace is rendered exactly when the view is `workspace` and setup data is present, and with that data |
| `AppComponent.RemoveSet` | App.tsx:48 | exactly the sets whose id differs from the given one, each as often as in the old list, in their original order |
| `AppComponent.RemoveAbsentSet` | App.tsx:48 | deleting an id no set has leaves the list unchanged |
| `AppComponent.PersistEffect` | App.tsx:25-29 | the change effect writes the list when it is non-empty and leaves storage alone otherwise |
| `AppComponent.EffectAloneKeepsLastSet` | App.tsx:25-52 | without the explicit write on delete, deleting the only set would leave it in storage |
| `AppComponent.App.constructor` | App.tsx:8-10 | view `gallery`, no sets, no pending setup |
| `AppComponent.App.Mount` | App.tsx:13-29 | loads the stored list when there is one (an empty list otherwise) and leaves storage in step with it |
| `AppComponent.App.Shown` | App.tsx:71 | in every reachable state something is rendered: the workspace view always has its setup data |
| `AppComponent.App.StartSetup` | App.tsx:31-33 | the view becomes `setup` |
| `AppComponent.App.SetupBack` | App.tsx:66 | the view becomes `gallery` |
| `AppComponent.App.SetupComplete` | App.tsx:35-38 | the setup data is stored and the view becomes `workspace` |
| `AppComponent.App.WorkspaceBack` | App.tsx:75 | the view becomes `setup`; the setup data is kept |
| `AppComponent.App.SaveSet` | App.tsx:40-44 | the list becomes `[newSet] + old`, is written to storage, the view becomes `gallery` and the setup data is cleared |
| `AppComponent.App.DeleteSet` | App.tsx:46-52 | confirmed: the list becomes `RemoveSet` of the old one and is written to storage at once; not confirmed: nothing changes |

## Left out

- Rendering and styling of every screen, and the gallery screen, which only displays the list and forwards its buttons to `StartSetup` and `DeleteSet`.
- The service client itself (`GoogleGenAI`, the model name, the API key): the service is the parameter `sdk`, a function from request parts to a reply or a thrown error. An error thrown while constructing the client is not modelled.
- Only the reply fields the adapter reads are modelled (candidates, content, parts, inline data); logging to the console is left out.
- `generateId`: fresh ids are parameters (`ids` of the workspace constructor, `newId` of `Workspace.SaveSet`), required distinct where the model relies on it. `Date.now()` is the parameter `now`.
- `fileToBase64`: each file's conversion is an input, the converted string or `None` when it throws.
- Local storage and JSON: storage is the field `App.storage`, `None` when the key is absent or its contents cannot be parsed; serialisation round trips are not modelled.
- `window.confirm` is the boolean `confirmed`; `alert` is the `None` result of `Workspace.SaveSet`.
- Concurrency: several generations in flight at once, completions arriving after the user has navigated away, and edits made while an upload batch is being converted are not modelled. Each method runs to completion on the current state; `Generate` composes the begin and completion steps with nothing in between. The source has no guard against stale completions and the model adds none.
- The `isLoadingImages` spinner flag of the setup screen.
- The 10-character `maxLength` of the text input: it is enforced by the input control, not by the edit handler, and the model does not bound the text.
- Strings are sequences of Unicode characters, not UTF-16 code units; nothing in the modelled logic depends on the difference.
- App.Mount: requires the list to be empty, because the load effect runs once, on the initial state.
- Workspace.CompleteSuccess: requires a non-empty image URL; every successful `GenerationResult` is one, so `Workspace.Generate` always meets it.
- Setup.SetCount: requires a value in [1, 50], the range the slider produces; `parseInt` of anything else is not modelled.
