# medifold core, modelled in Dafny

medifold is a Next.js health-journal app. Users keep notes, upload files
(receipts, meal photos, medical PDFs), have an uploaded image classified into
a fixed category vocabulary, and ask for personalised tips. This project
models the logic at the centre of those features and proves properties of it:

- **Tips route** (`GET` in `app/api/generate-tips/route.ts`):
  - the budgeted prompt assembly: a header, the notes newest first, then the files newest first;
  - the downloads scheduled for images and PDFs, resolved into message parts in scheduling order;
  - the check of the generator's reply, and the 401/200/500 responses;
  - the clean-up of temporary uploads in `catch` and `finally`.

  Modules `Base64` (`arrayBufferToBase64`, `btoa`, data URLs), `ReportPrompt` and `GenerateTips`.
- **Image categories and classification** (`lib/image-categories.ts`, `lib/openai-classify.ts`):
  - the enumerations, the typed `{category, subcategory}` pairs and the description text;
  - the ordered checks of `classifyImageWithOpenAI` and its validation of the classifier's JSON answer.

  Modules `ImageCategories` and `Classify`.
- **Onboarding** (`context/OnboardingContext.tsx`, `components/onboarding/steps/EmailInputScreen.tsx`):
  - the step index with its progress percentage, and `nextStep`/`prevStep`/`skipTo`/`completeOnboarding`;
  - the email-shape test and the ordered checks of the registration step.

  Modules `Onboarding` and `EmailInput`.
- **Session middleware** (`utils/supabase/middleware.ts`): when a request is redirected to `/onboarding`. Module `Middleware`.
- **Notes list** (`components/notes-list.tsx`): optimistic delete and edit, with the snapshot restored on a database error. Module `NotesList`.
- **Upload components** (`components/upload-button.tsx`, `components/upload-section.tsx`): the file list, the preview beside each file, removal by position and the upload flags. Modules `UploadPreviews`, `UploadButton` and `UploadSection`.

`Js` holds the JavaScript semantics the code relies on:
- JSON values and truthiness;
- `\s` and `trim`;
- `length` in UTF-16 code units;
- decimal rendering.

`Wrappers` holds `Option` and `Result`.

Stateful React components and the onboarding context are classes whose fields
are the component's state. Each handler is a method with the state change in
its `ensures`. Pure helpers are functions, and the loops of the route are
methods proved equal to specification functions.

Everything outside the process is an input to the model:
- the signed-in user and the two table queries;
- the storage download and the file upload of each scheduled job;
- the file service's answer to each deletion request;
- the generator's reply and `JSON.parse`;
- the database's answer to a delete or update;
- the API key.

Two scaling rules keep the arithmetic exact:
- **Token budget.** The route estimates a text's cost as `length / 4` against a ceiling of 20000. The model multiplies every cost by four: the ceiling is 80000, the image allowance 3200, the PDF allowance 6000, and a text costs its UTF-16 length. Every comparison is therefore exactly the route's.
- **Progress.** The onboarding percentage is a `real`.

Two behaviours of the code that its comments or structure might suggest otherwise:
- **Note markers.** The notes loop's `return` only leaves the `forEach` callback. A note that does not fit leaves a marker, and the walk goes on, so a later, shorter note is still included and several markers can appear. The files loop `break`s after a single marker.
- **Integrations in classification.** `classifyImageWithOpenAI` lists `integrations` among the categories but has no branch for it in the `isValid` chain. An `integrations/strava` answer is therefore always rejected (`Classify.AcceptsImageCategories`).

## Model

| member | source | states |
|---|---|---|
| Base64.ArrayBufferToBase64 | app/api/generate-tips/route.ts:24-32 | the loop's result is the standard base64 of the buffer's bytes: length 4·⌈n/3⌉, and it decodes back to exactly those bytes |
| Base64.Btoa | app/api/generate-tips/route.ts:31 | `btoa` succeeds exactly on strings whose characters are all below 256 |
| Base64.Latin1 | app/api/generate-tips/route.ts:28-30 | `String.fromCharCode` per byte: one character per byte, with the byte's code |
| Base64.DecodeEncode | app/api/generate-tips/route.ts:31 | decoding an encoding gives back the bytes |
| Base64.EncodeDecode | app/api/generate-tips/route.ts:31 | a string that decodes is the encoding of what it decodes to (encodings are canonical) |
| Base64.EncodeLength | app/api/generate-tips/route.ts:31 | the encoding of n bytes has 4·⌈n/3⌉ characters |
| Base64.DataUrlRoundTrip | app/api/generate-tips/route.ts:149 | a `data:<type>;base64,<b64>` URL reads back as that type and those bytes, for a type without a comma |
| ReportPrompt.NotesIncludedOrTruncated | app/api/generate-tips/route.ts:88-102 | every note gets exactly one piece, in order: its own full entry or the truncation marker |
| ReportPrompt.NoteDecision | app/api/generate-tips/route.ts:92-101 | note i is included exactly when the count left by the notes before it plus its entry's cost is below the ceiling; an earlier marker never stops the walk |
| ReportPrompt.NotesStayBelowCeiling | app/api/generate-tips/route.ts:92-97 | the notes add exactly the costs of the included entries, and the count ends where it started or strictly below the ceiling |
| ReportPrompt.NotesWalkAppend | app/api/generate-tips/route.ts:89-102 | walking two runs of notes one after the other is walking their concatenation |
| ReportPrompt.NotesAllFit | app/api/generate-tips/route.ts:92-97 | when all entries fit, every note is included verbatim and no marker appears |
| ReportPrompt.MarkerThenIncluded | app/api/generate-tips/route.ts:98-101 | a note that does not fit leaves a marker and a later note that fits is still included |
| ReportPrompt.SeveralMarkers | app/api/generate-tips/route.ts:98-101 | two notes that do not fit leave two markers |
| ReportPrompt.Decide | app/api/generate-tips/route.ts:133-205 | a file's content line: an image (with a storage path) is included iff count + 800 tokens is below the ceiling, a PDF likewise with 1500 and numbered one past the downloads scheduled before it, anything else is not processed |
| ReportPrompt.FilesShape | app/api/generate-tips/route.ts:112-130 | piece i lists file i; the marker, if any, is the single last piece; without a marker every file is listed |
| ReportPrompt.FileTruncatedAt | app/api/generate-tips/route.ts:112-116 | the marker stands at file i exactly when the count before it (start plus every earlier file's metadata) is past the ceiling |
| ReportPrompt.FileContentAt | app/api/generate-tips/route.ts:124-205 | a listed file's content is decided on the count after its own metadata and the number of downloads scheduled before it |
| ReportPrompt.FilesOvershoot | app/api/generate-tips/route.ts:112-130 | the count passes the ceiling by at most one file's metadata cost |
| ReportPrompt.PdfPendingNumber | app/api/generate-tips/route.ts:163-198 | each PDF reference shows its own 1-based position among the scheduled downloads |
| ReportPrompt.AppendNotes | app/api/generate-tips/route.ts:86-105 | the notes loop yields the notes section of the walk and the count it leaves |
| ReportPrompt.ScheduleContent | app/api/generate-tips/route.ts:132-205 | the content line of one file is the decision above, and a download is scheduled exactly for an included image or PDF |
| ReportPrompt.AppendFiles | app/api/generate-tips/route.ts:108-206 | the files loop yields the files section of the walk, the downloads it schedules in order and the count it leaves |
| ReportPrompt.AssembleUserContent | app/api/generate-tips/route.ts:76-207 | the three text parts (header, notes, files) in push order, and the planned downloads |
| GenerateTips.Resolve | app/api/generate-tips/route.ts:140-194 | a job yields a part iff its download succeeded and, for a PDF, its upload too; an image becomes a low-detail image part, a PDF a file reference with the upload's id |
| GenerateTips.ResolveJob | app/api/generate-tips/route.ts:140-194 | one download callback yields that part and records the upload id exactly for an uploaded PDF |
| GenerateTips.ResolveJobs | app/api/generate-tips/route.ts:209-215 | the awaited callbacks, nulls filtered out, give the resolved parts in scheduling order and the recorded ids |
| GenerateTips.ResolvedPartsAppend | app/api/generate-tips/route.ts:209-212 | resolving two runs of jobs resolves their concatenation, in order |
| GenerateTips.ResolvedPartsCount | app/api/generate-tips/route.ts:209-212 | `filter(Boolean)` drops exactly the nulls: N jobs of which M fail leave exactly N − M parts, so one per job when nothing fails |
| GenerateTips.FileIdsAreUploads | app/api/generate-tips/route.ts:182-190 | the recorded upload ids are exactly the ids of the file parts, in the same order |
| GenerateTips.UploadedIdsComeFromUploads | app/api/generate-tips/route.ts:170-182 | an id is recorded only for a PDF whose download and upload both succeeded, and it is that upload's id |
| GenerateTips.ImagePartCarriesBytes | app/api/generate-tips/route.ts:143-152 | an inlined image's URL reads back as the file's media type and the downloaded bytes |
| GenerateTips.CheckReply | app/api/generate-tips/route.ts:268-278 | the reply is accepted iff it is non-empty, parses, and holds the four truthy keys; the parsed value is returned unchanged; an empty reply, a parse error, a null parse result (the TypeError of reading `dietTips`) and any other value missing a truthy key each give their own error |
| GenerateTips.ErrorResponse | app/api/generate-tips/route.ts:288-291 | the catch block answers 500 with a body holding only a non-empty `error` message |
| GenerateTips.FailedDeletions | app/api/generate-tips/route.ts:306-310 | the ids logged as failed are exactly the requested ids whose deletion failed |
| GenerateTips.CleanupOpenAIFiles | app/api/generate-tips/route.ts:303-314 | whatever the service answers, one deletion request is made per id, in order, so a failed deletion never stops the others; the failures are returned as logged, never thrown |
| GenerateTips.TryBlock | app/api/generate-tips/route.ts:40-279 | the try block: 401 without a user, the fetch errors, then the prompt, the uploads and the reply check |
| GenerateTips.Get | app/api/generate-tips/route.ts:34-300 | the response is the returned one or the catch block's; the uploads are deleted in `finally` and once more in `catch`, and the failures of each round are only logged |
| GenerateTips.DeletionOutcomesAreInvisible | app/api/generate-tips/route.ts:280-314 | the response, the prompt and the deletion requests are the same whatever the service answers to the deletions |
| GenerateTips.ResponseCases | app/api/generate-tips/route.ts:47-50 | 401 iff no user is signed in, 200 iff the reply is accepted (with the parsed tips as body), otherwise 500 with only an error message |
| GenerateTips.ErrorIsStatus500 | app/api/generate-tips/route.ts:280-291 | the response is 500 exactly when the try block threw |
| GenerateTips.DeletionRounds | app/api/generate-tips/route.ts:280-299 | every recorded upload gets one deletion request after success and two after an error; nothing was uploaded when the user or a query failed |
| GenerateTips.PromptShape | app/api/generate-tips/route.ts:207-215 | the user message is the three text parts then the resolved parts; it is sent exactly when a user is signed in and both queries succeed |
| ImageCategories.ValuesAreTheEnumerations | lib/image-categories.ts:1-23 | the value lists hold exactly the enumerations' values, each once |
| ImageCategories.AsImageCategory | lib/image-categories.ts:25-32 | a JSON pair reads as an `ImageCategory` only when it is one of the typed pairs, and then it carries that pair's texts |
| ImageCategories.AsImageCategoryRoundTrip | lib/image-categories.ts:25-32 | every typed pair reads back as itself |
| ImageCategories.SubcategoryBelongs | lib/image-categories.ts:25-32 | a pair's subcategory is listed under its own category, and only selfies have none |
| ImageCategories.DescriptionIsOutline | lib/image-categories.ts:35-51 | the description text is exactly the outline generated from the enumerations: each category in order, followed by all and only its subcategories |
| Classify.ValidatePair | lib/openai-classify.ts:116-140 | `isValid` holds exactly for a well-typed pair that is not an integration |
| Classify.AcceptableCases | lib/openai-classify.ts:122-139 | the accepted pairs are the diet pairs, the health pairs and selfies with null, nothing else |
| Classify.TryClassify | lib/openai-classify.ts:81-153 | each check raises its own error, in order: no content, parse failure, invalid structure, invalid pair; otherwise the classification is returned unchanged |
| Classify.ClassifyImageWithOpenAI | lib/openai-classify.ts:20-158 | a missing key and a missing image fail with their own messages; every later error carries the `OpenAI classification failed: ` prefix; success exactly for an acceptable answer |
| Classify.ListedCategoryIsTruthy | lib/openai-classify.ts:103-113 | an acceptable answer passes the structure check |
| Classify.AcceptsImageCategories | lib/openai-classify.ts:116-150 | every typed pair is accepted except the integration pairs |
| Onboarding.StepsAreDistinct | context/OnboardingContext.tsx:7-18 | eight distinct steps, `complete` last |
| Onboarding.IndexOf | context/OnboardingContext.tsx:65 | `indexOf`: -1 iff the name is absent, otherwise its first position |
| Onboarding.ProgressAt | context/OnboardingContext.tsx:39-46 | progress is within 0..100, 0 exactly on the first step and 100 exactly on the last |
| Onboarding.ProgressIncreasing | context/OnboardingContext.tsx:39-46 | progress grows strictly with the step |
| Onboarding.TransitionsStayInRange | context/OnboardingContext.tsx:48-69 | every transition keeps the index on a listed step |
| Onboarding.PrevUndoesNext | context/OnboardingContext.tsx:48-62 | `prevStep` after a `nextStep` that moved returns to the same step |
| Onboarding.SkipLandsOnStep | context/OnboardingContext.tsx:64-69 | `skipTo` a listed step lands on it; an unlisted name changes nothing |
| Onboarding.OnboardingProvider.constructor | context/OnboardingContext.tsx:35 | the flow starts on the first step, with no navigation |
| Onboarding.OnboardingProvider.CurrentStep | context/OnboardingContext.tsx:38 | the current step is a listed step |
| Onboarding.OnboardingProvider.Progress | context/OnboardingContext.tsx:39-46 | the progress shown is within 0..100 |
| Onboarding.OnboardingProvider.NextStep | context/OnboardingContext.tsx:48-55 | advances one step, or on the last step navigates to `/dashboard` and stays |
| Onboarding.OnboardingProvider.PrevStep | context/OnboardingContext.tsx:57-62 | goes back one step, except on the first |
| Onboarding.OnboardingProvider.SkipTo | context/OnboardingContext.tsx:64-69 | jumps to a listed step, ignores an unlisted name |
| Onboarding.OnboardingProvider.CompleteOnboarding | context/OnboardingContext.tsx:71-75 | pushes `/dashboard` and leaves the index |
| Middleware.StartsWith | utils/supabase/middleware.ts:57-59 | `startsWith` is the prefix relation |
| Middleware.Includes | utils/supabase/middleware.ts:60 | `includes(c)` holds iff some position holds `c` |
| Middleware.UpdateSession | utils/supabase/middleware.ts:54-68 | a redirect keeps the URL but for its pathname, which becomes `/onboarding` |
| Middleware.RedirectRule | utils/supabase/middleware.ts:50-68 | a request is redirected iff it has no session and its path is neither public, nor under an exempt prefix, nor dotted |
| Middleware.PublicPathsMatchWhole | utils/supabase/middleware.ts:50-56 | public paths match whole: `/login/` is redirected, `/login` passes |
| Middleware.PrefixesArePlain | utils/supabase/middleware.ts:57-59 | prefixes are plain string prefixes: `/apiary` passes like `/api/tips` |
| EmailInput.EmailShape | components/onboarding/steps/EmailInputScreen.tsx:21 | the regex accepts exactly `L@D` with `L` non-empty, no whitespace or `@` in either part, and a `.` inside `D` that is neither its first nor last character |
| EmailInput.ValidEmailHasOneAt | components/onboarding/steps/EmailInputScreen.tsx:21 | an accepted address holds exactly one `@` |
| EmailInput.ContinueError | components/onboarding/steps/EmailInputScreen.tsx:23-40 | the first failing check's message (email, then 6 UTF-16 units of password, then confirmation), each message exactly under its condition, none iff all pass |
| EmailInput.AcceptedFormIsSubmittable | components/onboarding/steps/EmailInputScreen.tsx:180 | a form the checks accept has its button enabled when not loading; an enabled form can still be rejected |
| EmailInput.EmailInputScreen.constructor | components/onboarding/steps/EmailInputScreen.tsx:13-18 | empty fields, no error, not loading, attached to the flow |
| EmailInput.EmailInputScreen.SetEmail | components/onboarding/steps/EmailInputScreen.tsx:14 | sets the email only |
| EmailInput.EmailInputScreen.SetPassword | components/onboarding/steps/EmailInputScreen.tsx:15 | sets the password only |
| EmailInput.EmailInputScreen.SetConfirmPassword | components/onboarding/steps/EmailInputScreen.tsx:16 | sets the confirmation only |
| EmailInput.EmailInputScreen.HandleContinue | components/onboarding/steps/EmailInputScreen.tsx:23-46 | the error becomes the first failing check's message, and the flow advances exactly once iff all pass |
| NotesList.WithoutId | components/notes-list.tsx:49 | the filter keeps exactly the notes with another id |
| NotesList.WithoutIdAppend | components/notes-list.tsx:49 | the filter works piecewise, so kept notes keep their order |
| NotesList.WithoutIdCounts | components/notes-list.tsx:49 | every note with another id is kept as often as it occurs, none with the id |
| NotesList.WithoutAbsentId | components/notes-list.tsx:49 | deleting an id no note has leaves the list unchanged |
| NotesList.FindIndex | components/notes-list.tsx:83 | `findIndex`: -1 iff no note has the id, otherwise the first position that has it |
| NotesList.WithText | components/notes-list.tsx:87-88 | only the first note with the id changes, and only its text |
| NotesList.NotesList.constructor | components/notes-list.tsx:36-38 | the notes from the prop, nothing being edited |
| NotesList.NotesList.SyncProp | components/notes-list.tsx:41-43 | a new prop replaces the notes and keeps the edit state |
| NotesList.NotesList.HandleDelete | components/notes-list.tsx:46-63 | the optimistic list drops the id; a database error restores the snapshot |
| NotesList.NotesList.HandleEditClick | components/notes-list.tsx:66-69 | editing starts on the note with its text |
| NotesList.NotesList.HandleCancelEdit | components/notes-list.tsx:71-74 | editing ends and the text clears |
| NotesList.NotesList.HandleSaveEdit | components/notes-list.tsx:76-105 | a blank text or unknown id changes nothing; otherwise the note's text becomes the untrimmed edit text, editing ends, the text clears, and a database error restores the snapshot |
| UploadPreviews.PreviewOf | components/upload-button.tsx:34-42 | a file's preview is empty iff it is not an image |
| UploadPreviews.ImagePreviewReadsBack | components/upload-button.tsx:35-39 | an image's preview reads back as its type and bytes |
| UploadPreviews.WithoutIndexSlices | components/upload-button.tsx:52-53 | removal by position drops exactly that element and keeps the order; an index out of range removes nothing |
| UploadPreviews.BuildPreviews | components/upload-section.tsx:36-47 | one preview per new file, in the files' order, empty exactly for non-images |
| UploadPreviews.RemoveKeepsAlignment | components/upload-button.tsx:51-54 | removing the same position from files and previews keeps each preview beside its file |
| UploadPreviews.Placeholders | components/upload-button.tsx:40-42 | the synchronously pushed entries are all empty placeholders |
| UploadPreviews.PreviewsMisaligned | components/upload-button.tsx:32-43 | for an image followed by a text file, the list as built differs from the aligned one, and removing the image leaves its preview beside the text file |
| UploadPreviews.PreviewsAsWrittenAlignedWhenImagesLast | components/upload-section.tsx:36-47 | the list as built is aligned when no image comes before a non-image file |
| UploadButton.GetFileCategory | components/upload-button.tsx:93-97 | `photo` iff image, `health` iff PDF, `diet` otherwise |
| UploadButton.UploadButton.constructor | components/upload-button.tsx:19-23 | no files, not uploading, closed, no notice |
| UploadButton.UploadButton.HandleFileChange | components/upload-button.tsx:26-45 | a non-empty selection replaces the files, with the corrected aligned previews (see Findings); an absent or empty one changes nothing |
| UploadButton.UploadButton.RemoveFile | components/upload-button.tsx:51-54 | the file and its preview leave together |
| UploadButton.UploadButton.UploadFiles | components/upload-button.tsx:56-59 | nothing with no files, otherwise the upload starts |
| UploadButton.UploadButton.UploadFinished | components/upload-button.tsx:62-67 | the timer empties the list, closes the dialog and shows the notice |
| UploadButton.UploadButton.SuccessExpired | components/upload-button.tsx:70 | the notice timer hides the notice and nothing else |
| UploadSection.UploadSection.constructor | components/upload-section.tsx:20-22 | no files, not dragging |
| UploadSection.UploadSection.AddFiles | components/upload-section.tsx:32-48 | the new files go after the existing ones, with the corrected aligned previews (see Findings) |
| UploadSection.UploadSection.HandleFileChange | components/upload-section.tsx:25-30 | any chosen list, even empty, is appended through `AddFiles`, with the corrected aligned previews |
| UploadSection.UploadSection.HandleDrop | components/upload-section.tsx:64-72 | dragging ends and the dropped files are appended through `AddFiles`, with the corrected aligned previews |
| UploadSection.UploadSection.HandleDragOver | components/upload-section.tsx:55-58 | dragging starts, files unchanged |
| UploadSection.UploadSection.HandleDragLeave | components/upload-section.tsx:60-62 | dragging ends, files unchanged |
| UploadSection.UploadSection.RemoveFile | components/upload-section.tsx:50-53 | the file and its preview leave together |
| UploadSection.UploadCaption | components/upload-section.tsx:157-158 | `Upload ` with no files, otherwise `Upload (n)` whose digits read back as the count |

## Findings

| source | as written | input that shows it | evidently intended | confidence | as-written member | corrected member |
|---|---|---|---|---|---|---|
| components/upload-button.tsx:33-43 | non-image placeholders are appended at once, image data URLs later from reader callbacks, so the previews list is not in file order | files `[a.png (image/png), b.txt (text/plain)]`: previews become `["", <a.png url>]`, the image shows no thumbnail, and removing file 0 leaves a.png's preview beside b.txt | preview i belongs to file i | high for the misalignment, which holds for every callback order; not executed | UploadPreviews.PreviewsMisaligned | UploadPreviews.BuildPreviews |
| components/upload-section.tsx:36-47 | the same appending in `addFiles` | the same two files | preview i belongs to file i | high; not executed | UploadPreviews.PreviewsMisaligned | UploadPreviews.BuildPreviews |

The classes keep the aligned previews (`Valid()`), built by
`UploadPreviews.BuildPreviews`. The as-written list is the function
`UploadPreviews.PreviewsAsWritten`, with the image previews in file order, the
most favourable callback order.

## Left out

- Network, database and storage I/O, the generator and upload services, and cookies are all inputs, as described above. The Supabase client plumbing in `utils/supabase/middleware.ts` is not modelled.
- The middleware's matcher configuration, which keeps the middleware off `/onboarding` and other paths, is not part of this model; only the function body is.
- GenerateTips.ResolveJobs: ids are recorded in scheduling order, not the completion order of the concurrent callbacks. Clean-up does not depend on the order, and the deletion counts are proved per id.
- The allowances the callbacks add to the count are left out. They run only after both loops are done, so they never affect a decision.
- A `download()` promise that rejects, rather than resolving with an error, would reach the catch block. The model treats every failed download as a null part.
- The PDF file name passed to the upload (`file_name || "upload.pdf"`) is not modelled; only the upload's returned id is.
- Dates: `new Date().toISOString()` is an input string, and each row's timestamp is its ISO rendering, given as a string. `toISOString` throws a RangeError on an invalid `created_at`, which would send the whole request to the 500 path; the model has no invalid dates, so it does not capture that exit.
- The system prompt text and the generator's model parameters are constants sent to an external service, and are not modelled.
- Onboarding.OnboardingProvider.Progress: JavaScript's floating-point division is modelled as exact real division.
- Logging (`console.*`) is left out, except that the clean-up returns the ids whose deletion failed, as the ids it would log. Rendering (icons, badges, animations, `getFileIcon`, the upload button's label) is left out.
- The upload button's two timers are separate steps (`UploadFinished`, `SuccessExpired`), not scheduled callbacks.
- EmailInput.EmailInputScreen: `loading` is never set by the source, so it is only a field. The registration itself is a stub in the source.
- The `prevStep` handler of the email screen is the provider's `PrevStep`.
- Types the TypeScript compiler enforces are taken at run time as any value: `skipTo` takes any string, and a note id is an integer.
- UploadButton.UploadButton.HandleFileChange: keeps the corrected aligned previews (`UploadPreviews.BuildPreviews`), not the order the source builds (placeholders at once, image URLs later, `UploadPreviews.PreviewsAsWritten`); see Findings.
- UploadSection.UploadSection.AddFiles: the appended previews are the corrected aligned ones, not the source's order (`UploadPreviews.PreviewsAsWritten`); see Findings.
- UploadSection.UploadSection.HandleFileChange: appends through `AddFiles`, so its previews are the corrected aligned ones, not the source's order.
- UploadSection.UploadSection.HandleDrop: appends through `AddFiles`, so its previews are the corrected aligned ones, not the source's order.
- NotesList.NotesList.HandleDelete: one atomic step across its `await`. In the component another handler can run during the database call, and the later rollback to the snapshot then also undoes that handler's change; the model cannot show that interleaving.
- NotesList.NotesList.HandleSaveEdit: one atomic step across its `await`, with the same consequence: a change made by another handler during the update is undone by the rollback in the component, which the model cannot show.
- GenerateTips.World: a download's outcome is a function of the job, so two identical file rows get the same outcome. A deletion's outcome is a function of the clean-up round and the id.
