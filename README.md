# Image editor client — a Dafny model

This project models the browser client of an image-editing web application
whose images live in a cloud image service. The client has three panels:

- **Upload** (`UploadSection.js`). The user picks one file and types a folder
  and comma-separated tags. The client then posts them through `uploadImage`
  in `api.js`.
- **Gallery** (`GallerySection.js`). It lists the images of a folder or a
  tag. It offers a searchable folder picker, a jump-to-folder input, a tag
  search and a clear button. Each image shows as a card; clicking a card
  selects the image and the card's delete action removes it.
- **Editor** (`ImageEditorSection.js`). Its controls build a *transformation
  map*: effect name → (parameter name → value). The map is sent to the
  service to get a preview URL. The user can reset every control, or save the
  preview back into the folder of the selected image.

Modules:

- `JsText` (`text.dfy`) holds the JavaScript string primitives the client's
  rules are built from:
  - `split` and `join` on one character, with both round trips proved;
  - `trim`, over the exact ECMAScript whitespace and line-terminator set,
    characterised as the one stretch of the input with whitespace around it
    and text at both of its ends;
  - `toLowerCase` for ASCII letters;
  - `includes`, with an if-and-only-if characterisation.

  It also holds two helpers that the client does not call itself:
  `LastIndexOf` and `LastLineBreak`. They state what the save-folder regular
  expression at `ImageEditorSection.js:212` matches.
- `Api` (`api.dfy`) is the remote service as the client sees it:
  - each awaited call is an `Outcome` that is either answered or failed with
    a message;
  - the multipart upload form with its optional `folder` and `tags` fields.
- `Upload` (`upload.dfy`) holds tag parsing and the target folder as
  functions. The form's state is a class. `handleUpload` is split at its
  `await` into `BeginUpload` and `EndUpload`.
- `Gallery` (`gallery.dfy`) holds as functions:
  - the folder picker's options and its filter;
  - the card title.

  The panel's state is a class whose handlers take the service's answer as a
  parameter.
- `Editor` (`editor.dfy`) holds:
  - the transformation map and `updateTransformation` as the function
    `Updated`, with lemmas on how updates combine;
  - the apply and save guards;
  - the save-folder regular expression `/(.*)\/[^/]+$/`.

  The editor's state is a class. Its `UpdateTransformation` method copies the
  map, edits the copy and stores it, and it is proved to compute `Updated`.

The remote service, the user's confirmation dialog and the answers of awaited
calls are parameters of the handlers. A handler returns the request it sends,
as a value such as `ImagesQuery`, `UploadForm`, `TransformRequest` or
`SaveRequest`. A handler that shows a toast also returns the toast's kind.
A gallery delete can show two toasts, so it returns both kinds.

## Model

All source paths are under `client/src/`.

| member | source | states |
|---|---|---|
| JsText.Truthy | client/src/components/ImageEditorSection.js:193-200 | JavaScript truthiness of a nullable string, as in `!selectedPublicId` and `!transformedImageUrl`: `null` and "" are falsy; no contract of its own, it is the guard `ApplyStepFor`, `SaveStepFor` and the editor handlers state their cases with |
| JsText.Split | client/src/components/GallerySection.js:218 | `split` on one character yields at least one piece, and no piece holds the separator |
| JsText.Join | client/src/api.js:22 | `join` with one separator character; no contract of its own, its meaning is the two round trips `JoinSplit` and `SplitJoin` |
| JsText.JoinSplit | client/src/api.js:22 | joining the pieces of a split gives back the original string |
| JsText.SplitJoin | client/src/api.js:22 | splitting a join of separator-free pieces gives back the pieces |
| JsText.SplitLastIsSuffix | client/src/components/GallerySection.js:218 | the last piece of a split is the suffix after the last separator, or the whole string when there is none |
| JsText.LastIndexOf | client/src/components/ImageEditorSection.js:212 | the position of the last `/` in an id: -1 when there is none, otherwise an index holding `/` with none after it. This helper specifies the greedy `(.*)\/` of the regular expression |
| JsText.LastLineBreak | client/src/components/ImageEditorSection.js:212 | the last line terminator: -1 when there is none, otherwise an index holding one with none after it. This is where the regular expression's `.` stops |
| JsText.WhitespaceIsTrimmedChars | client/src/components/UploadSection.js:55-56 | the code-point range test used for whitespace accepts exactly the listed ECMAScript `WhiteSpace` and `LineTerminator` characters |
| JsText.SkipWhitespace | client/src/components/UploadSection.js:55-56 | the scan stops at the first character that is not whitespace, or at the end; everything it skips is whitespace |
| JsText.SkipWhitespaceBack | client/src/components/UploadSection.js:55-56 | the backward scan stops just past the last character that is not whitespace, or at its lower bound; everything it skips is whitespace |
| JsText.Trim | client/src/components/UploadSection.js:55-56 | the result of `trim` has no whitespace at either end and is empty exactly when the input is all whitespace |
| JsText.TrimIsSlice | client/src/components/UploadSection.js:55-56 | `trim` keeps one contiguous stretch of the input, and everything it drops before and after that stretch is whitespace |
| JsText.TrimUnique | client/src/components/UploadSection.js:55-56 | any stretch with only whitespace before and after it, and text at both of its ends (or empty, for an all-whitespace input), is exactly what `trim` returns |
| JsText.TrimKeepsCharacters | client/src/components/UploadSection.js:55 | every character of a trimmed string comes from the input, so trimming a comma-free piece yields a comma-free tag |
| JsText.TrimOfTrimmed | client/src/components/UploadSection.js:55 | a string that neither starts nor ends with whitespace is its own trim |
| JsText.TrimIdempotent | client/src/components/UploadSection.js:55 | trimming a trimmed tag changes nothing |
| JsText.LowerChar | client/src/components/GallerySection.js:129 | an ASCII capital becomes the small letter at the same position of the alphabet; every other character is unchanged |
| JsText.Lower | client/src/components/GallerySection.js:129 | `toLowerCase` keeps the length and maps each character on its own |
| JsText.LowerIdempotent | client/src/components/GallerySection.js:129 | lower-casing twice is lower-casing once |
| JsText.Includes | client/src/components/GallerySection.js:129 | `includes`; no contract of its own, its meaning is the occurrence characterisation `IncludesIff` |
| JsText.IncludesAt | client/src/components/GallerySection.js:129 | `includes(t)` holds whenever `t` occurs at some position |
| JsText.IncludesWitness | client/src/components/GallerySection.js:129 | when `includes(t)` holds, `t` occurs at some position |
| JsText.IncludesIff | client/src/components/GallerySection.js:129 | `includes(t)` holds exactly when `t` occurs at some position of the string |
| Api.TagsField | client/src/api.js:21-23 | the tags field is sent exactly when the tag list is non-empty, as the comma join |
| Api.UploadFormFor | client/src/api.js:15-23 | the posted form holds the image, a `folder` field only for a non-empty folder, and a `tags` field only for a non-empty list |
| Upload.DropEmpty | client/src/components/UploadSection.js:55 | filtering keeps only non-empty pieces, never more than the input has, and keeps all of them when none is empty |
| Upload.DropEmptyContents | client/src/components/UploadSection.js:55 | filtering drops every empty piece and keeps every other piece exactly as often as it occurs |
| Upload.DropEmptyAppend | client/src/components/UploadSection.js:55 | filtering a concatenation filters each side and keeps their order, so the kept pieces stay in input order |
| Upload.ParseTags | client/src/components/UploadSection.js:55 | every parsed tag is non-empty, holds no comma, and neither starts nor ends with whitespace |
| Upload.TrimmedPieceIsTag | client/src/components/UploadSection.js:55 | a comma-free piece, once trimmed, is either empty or a well-formed tag |
| Upload.DropEmptyKeepsTags | client/src/components/UploadSection.js:55 | dropping the empty pieces from pieces that are empty or tags leaves only tags |
| Upload.ParseTagsOfJoin | client/src/components/UploadSection.js:55 | parsing the comma join of well-formed tags gives the same tags back |
| Upload.TagsRoundTrip | client/src/components/UploadSection.js:55 | the tags parsed at upload survive the comma join in `uploadImage`: parsing the join gives the same list |
| Upload.TagsFieldRoundTrip | client/src/api.js:21-23 | the upload form's `tags` field is absent exactly when no tag was typed, and otherwise parses back to the same tags |
| Upload.TargetFolder | client/src/components/UploadSection.js:56 | a blank folder input selects `worker_uploads`; any other input is used untrimmed; the folder sent is never blank |
| Upload.UploadRequest | client/src/components/UploadSection.js:55-57 | the form posted for a file always carries a `folder` field, holding `TargetFolder` of the input, and carries the `tags` field of the parsed tags |
| Upload.LastOnly | client/src/components/UploadSection.js:30 | `slice(-1)` keeps no element of an empty list and exactly the last element otherwise |
| Upload.UploadSection.constructor | client/src/components/UploadSection.js:17-21 | the form starts with no file, empty inputs and no upload in progress |
| Upload.UploadSection.HandleFileChange | client/src/components/UploadSection.js:28-39 | only the last picked entry is kept; the file becomes that entry's file, or none for an empty list; the picker is told not to upload by itself |
| Upload.UploadSection.SetUploadFolder | client/src/components/UploadSection.js:121 | the folder input's change handler stores the typed value |
| Upload.UploadSection.SetUploadTags | client/src/components/UploadSection.js:130 | the tags input's change handler stores the typed value |
| Upload.UploadSection.HandleRemove | client/src/components/UploadSection.js:94-97 | removing the picked file forgets it and empties the list; the typed folder and tags are kept |
| Upload.UploadSection.BeginUpload | client/src/components/UploadSection.js:45-57 | without a file: an error and nothing posted; otherwise the form is busy and posts `UploadRequest` of the file and both inputs |
| Upload.UploadSection.EndUpload | client/src/components/UploadSection.js:58-75 | on success the parent is notified when it passed a callback and the form is cleared; on failure the inputs are kept; the form is no longer busy either way |
| Upload.UploadSection.HandleUpload | client/src/components/UploadSection.js:45-76 | one upload click end to end: the error path changes nothing; otherwise the posted form and final state are as above, with a success toast on success and an error toast on failure |
| Gallery.FolderOptions | client/src/components/GallerySection.js:62-67 | the picker's options start with the "all images" entry; a non-array answer gives only that entry, an array of n names gives n + 1 options |
| Gallery.FolderOptionsSelectListed | client/src/components/GallerySection.js:64 | option k + 1 selects and is labelled by the k-th listed folder; the first option selects no folder |
| Gallery.FoldersAfterLoad | client/src/components/GallerySection.js:58-73 | after an answered listing the options start with the "all images" entry; after a failed one they are what they were |
| Gallery.FetchFoldersAsWritten | client/src/components/GallerySection.js:4 | the imported listing call is not exported by `api.js`, so calling it always fails |
| Gallery.FolderPickerStaysEmpty | client/src/components/GallerySection.js:61-70 | as written, a fresh gallery's picker gets no options at all, not even the "all images" entry |
| Gallery.FolderPickerOffersListing | client/src/components/GallerySection.js:61-64 | with an answering listing call, a fresh picker offers the "all images" entry first, then every listed folder under its own name, in order |
| Gallery.LabelOf | client/src/components/GallerySection.js:129 | `option?.label ?? ''`: the label, or "" for a missing option or label; no contract of its own, `EmptyQueryKeepsAll` covers the missing label |
| Gallery.FilterOption | client/src/components/GallerySection.js:128-130 | the picker's `filterOption`; no contract of its own, its meaning is `FilterOptionIff` and `FilterOptionCaseless` (both directions) |
| Gallery.FilterOptionIff | client/src/components/GallerySection.js:128-130 | an option passes the picker's filter exactly when the lower-cased query occurs in its lower-cased label |
| Gallery.EmptyQueryKeepsAll | client/src/components/GallerySection.js:128-130 | an empty query keeps every option, including one without a label |
| Gallery.LowerSlice | client/src/components/GallerySection.js:129 | lower-casing commutes with taking a slice |
| Gallery.FilterKeepsVerbatimMatch | client/src/components/GallerySection.js:128-130 | a label that holds the query verbatim passes the filter |
| Gallery.OccursLowerIff | client/src/components/GallerySection.js:129 | the lower-cased query occurs at a position of the lower-cased label exactly when the query matches the label there letter by letter, ignoring case |
| Gallery.FilterOptionCaseless | client/src/components/GallerySection.js:128-130 | an option passes the filter exactly when the query matches some stretch of its label with letters compared without regard to case |
| Gallery.FilterIgnoresQueryCase | client/src/components/GallerySection.js:128-130 | lower-casing the query does not change which options pass |
| Gallery.CardTitle | client/src/components/GallerySection.js:218 | a card's title holds no `/` and is the suffix of the id after its last `/`, or the whole id |
| Gallery.CardTitleOfPlainId | client/src/components/GallerySection.js:218 | an id without `/` is its own title |
| Gallery.GallerySection.constructor | client/src/components/GallerySection.js:20-27 | the gallery starts loading, with no images, no error, empty inputs and no folder options |
| Gallery.GallerySection.BeginFetch | client/src/components/GallerySection.js:35-39 | a fetch shows the spinner, clears the error and requests the folder and tag |
| Gallery.GallerySection.EndFetch | client/src/components/GallerySection.js:39-48 | on success the images and the current folder follow the request; on failure the list is emptied, the error kept and the folder left unchanged; the spinner stops |
| Gallery.GallerySection.FetchAndDisplayImages | client/src/components/GallerySection.js:35-49 | one fetch end to end: the error is cleared then set only on failure, and the only toast is an error toast on failure |
| Gallery.GallerySection.LoadFolders | client/src/components/GallerySection.js:58-73 | the options become `FoldersAfterLoad` of the old options: an answered listing rebuilds them with `FolderOptions`; a failed one keeps them and shows an error |
| Gallery.GallerySection.LoadFoldersAsWritten | client/src/components/GallerySection.js:58-73 | the listing effect as built: the options never change and an error toast shows |
| Gallery.GallerySection.HandleImageClick | client/src/components/GallerySection.js:80-84 | clicking a card selects its id and URL and opens the detail dialog |
| Gallery.GallerySection.HandleDeleteImage | client/src/components/GallerySection.js:91-105 | nothing is sent and no toast shows without confirmation; a failed delete shows an error and changes nothing; a successful one shows a success toast, clears the selection and reloads the current folder, whose failure shows a second, error toast |
| Gallery.GallerySection.HandleTagSearch | client/src/components/GallerySection.js:162-168 | an empty search only warns and changes nothing; any other value lists every folder's images with that tag, with an error and an error toast when the call fails |
| Gallery.GallerySection.HandleFolderSelect | client/src/components/GallerySection.js:123-126 | picking a folder lists it and clears the tag search; the error is cleared on success and set, with an error toast, on failure |
| Gallery.GallerySection.HandleJump | client/src/components/GallerySection.js:147-151 | the jump button lists the typed folder and clears both inputs; the error is cleared on success and set, with an error toast, on failure |
| Gallery.GallerySection.HandleClearSearch | client/src/components/GallerySection.js:171 | clearing the search empties the tag input and lists every image; the error is cleared on success and set, with an error toast, on failure |
| Gallery.GallerySection.SetFolderInput | client/src/components/GallerySection.js:141 | the folder input's change handler stores the typed value |
| Gallery.GallerySection.SetSearchTagInput | client/src/components/GallerySection.js:161 | the tag input's change handler stores the typed value |
| Editor.Updated | client/src/components/ImageEditorSection.js:161-179 | a parameterless `false` removes the effect; another parameterless value turns it on with no parameters; a named parameter creates the effect if needed and writes only that parameter; no other effect or parameter changes |
| Editor.ToggleOnOffRestores | client/src/components/ImageEditorSection.js:161-179 | switching an absent parameterless effect on and then off gives the map back |
| Editor.SwitchOffAbsentIsNoOp | client/src/components/ImageEditorSection.js:166-167 | switching off an effect that is not in the map changes nothing |
| Editor.LastWriteWins | client/src/components/ImageEditorSection.js:172-176 | writing the same parameter twice keeps only the second value |
| Editor.DifferentEffectsCommute | client/src/components/ImageEditorSection.js:161-179 | updates of two different effects give the same map in either order |
| Editor.ToggleEffect | client/src/components/ImageEditorSection.js:513-1167 | the effect each toggle button switches with `updateTransformation(name, undefined, on)`; no contract of its own, `ToggleEffectsDistinct`, `ToggleEffectsAreParameterless` and `SelectEffectsAreSeparate` state how the names relate |
| Editor.SettingEffect | client/src/components/ImageEditorSection.js:370-1148 | the effect each setting control writes; no contract of its own, `SettingSlotsDistinct` and `ToggleEffectsAreParameterless` state how the names relate |
| Editor.SettingParam | client/src/components/ImageEditorSection.js:370-1148 | the parameter each setting control writes within its effect; no contract of its own, `SettingSlotsDistinct` states that no two controls share a slot |
| Editor.DefaultSetting | client/src/components/ImageEditorSection.js:24-75 | the `useState` initial value of each setting, which reset restores: sliders 0, opacity and quality 100, DPR 1, texts and selects ""; no contract of its own, `RestoreDefaults` and `HandleResetAllEffects` state that reset restores them |
| Editor.ToggleEffectsDistinct | client/src/components/ImageEditorSection.js:511-514 | no two toggle buttons switch the same effect |
| Editor.SettingSlotsDistinct | client/src/components/ImageEditorSection.js:921-924 | no two setting controls write the same parameter of the same effect |
| Editor.ToggleEffectsAreParameterless | client/src/components/ImageEditorSection.js:168-170 | no toggle switches an effect whose parameters a setting writes, so switching a toggle on never wipes them |
| Editor.SelectEffectsAreSeparate | client/src/components/ImageEditorSection.js:888-899 | no toggle or setting writes the effects owned by the art-filter and format selects |
| Editor.ApplyStepFor | client/src/components/ImageEditorSection.js:134-152 | applying does nothing without a selected image, shows the original for an empty map, and calls the service otherwise (each case as an if-and-only-if) |
| Editor.FolderMatch | client/src/components/ImageEditorSection.js:212 | the regular expression matches exactly when a last `/` is followed by at least one character; group 1 ends at that `/`, holds no line terminator, and starts at the beginning of the id or right after a line terminator |
| Editor.SaveFolder | client/src/components/ImageEditorSection.js:212-213 | `folderMatch ? folderMatch[1] : 'worker_uploads'`; no contract of its own, its meaning is `SaveFolderOfOneLineId` and `SaveFolderAndTitleRebuildId`, over `FolderMatch`'s characterisation |
| Editor.SaveFolderOfOneLineId | client/src/components/ImageEditorSection.js:212-213 | for an id on one line, the save folder is everything before the last `/` when a character follows it, and `worker_uploads` otherwise |
| Editor.SaveFolderAndTitleRebuildId | client/src/components/ImageEditorSection.js:212-213 | the save folder, a `/` and the gallery card's title rebuild a one-line id that has a folder |
| Editor.SaveStepFor | client/src/components/ImageEditorSection.js:192-213 | a save happens exactly when an image is selected and its preview is set and differs from the original, and it targets the id's save folder |
| Editor.ImageEditorSection.constructor | client/src/components/ImageEditorSection.js:20-127 | the editor first appears reset: the mount-time run of the selection effect leaves every control at its initial value and shows the original |
| Editor.ImageEditorSection.RestoreDefaults | client/src/components/ImageEditorSection.js:233-289 | the shared setter sequence leaves every control at its default, the map empty and the preview on the original |
| Editor.ImageEditorSection.SelectionChanged | client/src/components/ImageEditorSection.js:78-127 | a new selection resets the editor onto the new original |
| Editor.ImageEditorSection.HandleResetAllEffects | client/src/components/ImageEditorSection.js:233-289 | without a selection it only warns; otherwise the editor is reset; resetting an editor that is already reset changes nothing |
| Editor.ImageEditorSection.UpdateTransformation | client/src/components/ImageEditorSection.js:161-179 | the stored map becomes `Updated` of the previous map |
| Editor.ImageEditorSection.HandleToggle | client/src/components/ImageEditorSection.js:511-514 | a toggle button flips its control and switches its effect on or off to match |
| Editor.ImageEditorSection.HandleSetting | client/src/components/ImageEditorSection.js:921-924 | a setting control stores its value and writes it, even when empty, as its parameter of its effect |
| Editor.ImageEditorSection.HandleArtFilterChange | client/src/components/ImageEditorSection.js:669-680 | choosing a filter sets `e_art.filter`; clearing it removes `e_art` entirely |
| Editor.ImageEditorSection.HandleFormatChange | client/src/components/ImageEditorSection.js:888-899 | choosing a format sets `f.format`; clearing it removes `f` entirely |
| Editor.ImageEditorSection.HandleQualityAutoChange | client/src/components/ImageEditorSection.js:1023-1031 | checking the box writes `q.level = 'auto'`; unchecking it writes back the quality slider's value |
| Editor.ImageEditorSection.HandleDprAutoChange | client/src/components/ImageEditorSection.js:1069-1077 | checking the box writes `dpr.value = 'auto'`; unchecking it writes back the DPR slider's value |
| Editor.ImageEditorSection.HandleApplyTransformations | client/src/components/ImageEditorSection.js:134-152 | per `ApplyStepFor`: nothing happens, the original is shown, or the service is asked for the preview, which is shown; a failed call alerts and keeps the old preview |
| Editor.ImageEditorSection.HandleSaveTransformedImage | client/src/components/ImageEditorSection.js:192-227 | a save is refused with a warning unless an image is selected and its preview is set and differs from the original; otherwise the preview is saved to the id's save folder, and the gallery refreshes only on success |

## Left out

- Networking in `client/src/api.js` is not modelled: URLs, `fetch`, `FormData`, JSON and HTTP status handling. Each call is reduced to the request it sends and an `Outcome`.
- Async interleaving is not modelled. Each handler runs to completion with the awaited answer given. Two fetches racing each other are not represented.
- The editor's auto-apply effect (`ImageEditorSection.js:182-186`) is left out because it is React scheduling. It calls `HandleApplyTransformations` with the current map whenever the map or the selection changes.
- The refresh-trigger effect of the gallery is left out. It re-runs `FetchAndDisplayImages` with the current folder.
- Gallery.GallerySection.HandleTagSearch: the listing effect (`GallerySection.js:51-53`) also re-runs whenever `currentFolder` changes. A tag search from a non-empty folder sets the folder to '', so an untagged fetch of every image follows and replaces the tag results. That follow-up fetch is React scheduling and is not modelled.
- The refresh counter is left out; `HandleSaveTransformedImage` only reports that it would bump it.
- The editor's toggle states and setting values are kept as two maps keyed by the control. The source has a separate state variable for each control. Separate fields made the verifier's frame reasoning too costly, and the values behave the same.
- `Editor.ImageEditorSection.RestoreDefaults`, `Editor.ImageEditorSection.SelectionChanged`, `Editor.ImageEditorSection.constructor`: React batches the setter calls, so their order is not modelled. Only the final state is stated.
- Editor handlers read the current state. The source reads the value captured at the last render, which is the same state unless two events arrive before a re-render.
- Editor.UpdateTransformation: the source copies the outer object, but it edits the inner parameter object of an existing effect in place, so that object is shared with the previous state. Maps are values here, so this aliasing is not captured.
- Number values are kept as whole tenths, so the DPR slider's 0.1 steps are exact. Other fractional numbers and floating-point rounding are not modelled.
- JsText.Lower: only ASCII letters are lower-cased. `toLowerCase` also lower-cases other scripts, so `Gallery.FilterOption` is modelled exactly only for ASCII labels and queries.
- A cleared select is modelled as the empty string. An `undefined` value from a clear icon is equally falsy, so it takes the same branch.
- Messages are reduced to their kind (`Toast`). Their text and the loading toast are left out.
- `ImageDetailSection.js`, `App.js` and `index.js` are not part of this model. They cover the modal, the layout, the dark-mode theme and rendering.
- The picker also passes `handleFileChange` as its `beforeUpload` hook (`UploadSection.js:88`). That hook receives the file rather than a change event, and what the picker library then does is not modelled. Only the change event (`UploadSection.js:90`) is modelled.
- Rendering is left out: which of the spinner, the empty state, the error state or the card list is shown.

## Findings

| source | as written | input that shows it | evidently intended | confidence | as-written member | corrected member |
|---|---|---|---|---|---|---|
| client/src/components/GallerySection.js:4 | the gallery imports `fetchFolders` from `../api`, but `api.js` exports only `uploadImage`, `fetchImages`, `applyTransformations`, `saveTransformedImage` and `deleteImage` | any mount of the gallery: the call at line 61 throws because the binding is undefined, the catch at lines 68-70 shows an error, and `folders` stays `[]`, so the picker offers no option, not even 所有图片 | an exported `fetchFolders` that returns the service's folder names, so that the picker starts with 所有图片 and then lists the folders | not executed; a bundler may instead reject the missing export at build time, and then the panel does not load at all | Gallery.FolderPickerStaysEmpty | Gallery.FolderPickerOffersListing |
