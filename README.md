# Studdy core, modelled in Dafny

Studdy is a study assistant built with Next.js. A user imports text from Google
Drive or from a PDF, asks a language model for an answer, a set of flashcards or
a multiple-choice quiz, and then reviews the cards or takes the quiz. This
project models the logic at the centre of that flow:

- **The Drive import route** (`import_route.dfy`, module `ImportRoute`). The
  route checks the session and the `fileId`, then dispatches on the file's MIME
  type:
  - native Docs, Slides, Sheets and PDF files are exported directly;
  - Sites and shortcuts are rejected;
  - Word, PowerPoint and Excel files are copied into a native type, the copy is
    exported, and then the copy is deleted;
  - any other type is refused.

  Any thrown error becomes a 500. Drive is an abstract store (`Drive`: a map
  from id to file plus a log of the calls made). The route is written twice:
  `Run` executes the handler step by step against the store, and `ImportSpec`
  states the whole outcome as a function of the store before the request. `Run`
  is proved equal to `ImportSpec`.
- **The study page** (`study_page.dfy`, module `Page`). It models:
  - the quiz session (choose, submit, next, retake), with the invariant every
    reachable state keeps;
  - the generation handler `handleAsk`, which replaces the generated items, or
    appends to them when an options panel is open;
  - the picker's merge of imported text;
  - the count input's fallback to 5.

  The class `StudyPage` holds the page's state variables. Each handler method is
  proved equal to a pure step function on `PageState`.
- **The flashcard viewer** (`flashcard_viewer.dfy`, module `FlashcardReview`).
  It models the card index, the flip flag, the Prev and Next buttons with their
  `disabled` conditions, and the face shown.
- **The PDF text assembly** (`extract_pdf_text.dfy`, module `PdfExtract`). Each
  page's text items are joined with single spaces and followed by a blank line.
  The loop `ExtractPdfText` is proved equal to the fold `PdfText`.

`common.dfy` holds `Option`, `Result` and `Truthy`. `Truthy` is JavaScript
truthiness of an optional string: `undefined`, `null` and `""` are falsy.

## Model

| member | source | states |
|---|---|---|
| ImportRoute.Classify | app/api/import/route.ts:48-182 | Each exportable MIME type gets the plan its reference-table descriptor gives: a direct export, or a conversion to its native target followed by an export. Exactly Sites and shortcuts are rejected. Exactly the types in neither set are unsupported. Every export format is `text/plain` or `text/csv`. |
| ImportRoute.ConversionTargetIsExportedDirectly | app/api/import/route.ts:105-172 | The native target of every conversion is a different type that the chain exports directly, in the same format the conversion branch uses. |
| ImportRoute.Lookup | app/api/import/route.ts:36-39 | Metadata lookup succeeds exactly when the id is in the store, and then yields that file. |
| ImportRoute.Rendered | app/api/import/route.ts:50-53 | Export succeeds exactly when the file exists and the provider can render it, and then yields that rendering. |
| ImportRoute.Drive.Get | app/api/import/route.ts:36-39 | Logs one get call, leaves the store unchanged and returns the lookup result. |
| ImportRoute.Drive.Copy | app/api/import/route.ts:108-116 | Logs one copy call. It succeeds exactly when the source exists and is convertible. It then adds exactly one file under an id that was unused, retyped and renamed, with the same content. On failure the store is unchanged and the message says which cause. |
| ImportRoute.Drive.Export | app/api/import/route.ts:119-122 | Logs one export call, leaves the store unchanged and returns the rendering or the provider's error. |
| ImportRoute.Drive.Delete | app/api/import/route.ts:127 | Logs one delete call and removes exactly that id. It succeeds exactly when the id existed. |
| ImportRoute.Run | app/api/import/route.ts:8-193 | The handler's statements, run against the store, give exactly the response, final store and call sequence that `ImportSpec` gives. Any id used for a copy was unused before. |
| ImportRoute.Import | app/api/import/route.ts:8-193 | The handler as written (delete only after a successful export) matches `ImportSpec` with `AfterSuccessOnly`. |
| ImportRoute.ImportWithCleanup | app/api/import/route.ts:105-172 | The corrected handler matches `ImportSpec` with `OnEveryPath`, and the set of ids in the Drive afterwards is the set before. |
| ImportRoute.UnauthenticatedMakesNoCall | app/api/import/route.ts:12-17 | Without a truthy session token the answer is 401 "Not authenticated with Google". No Drive call is made and the store is unchanged. |
| ImportRoute.MissingFileIdMakesNoCall | app/api/import/route.ts:19-25 | A missing or empty `fileId` gets 400 "Missing fileId" before any Drive call. |
| ImportRoute.StatusesAndCatch | app/api/import/route.ts:186-192 | Every answer has status 200, 400, 401 or 500. A 500 is exactly the catch block's answer: "Failed to import file" with the thrown message as details. |
| ImportRoute.MalformedBodyFails | app/api/import/route.ts:19 | A body that cannot be parsed throws inside the try. The answer is 500 with the parser's message, no Drive call is made and the store is unchanged. |
| ImportRoute.MissingFileFails | app/api/import/route.ts:36-39 | A lookup of an id that is not in the Drive throws. The answer is 500 with the lookup's message after the get alone, and the store is unchanged. |
| ImportRoute.UnconvertibleFileFails | app/api/import/route.ts:108-114 | An Office file the provider will not convert throws at the copy. The answer is 500 after exactly the get and the copy call. No export or delete is made and the store is unchanged. |
| ImportRoute.NativeTypesExportDirectly | app/api/import/route.ts:48-82 | Docs, PDF, Slides and Sheets make exactly two calls: a get, then an export of the original id. The export is CSV exactly for spreadsheets. There is no copy or delete. The store is unchanged. The answer is 200 with the rendering, or the catch block's 500 with the export's message when the export fails. |
| ImportRoute.SitesAndShortcutsAreRejected | app/api/import/route.ts:84-98 | Sites and shortcuts get 400 with their own message after only the metadata lookup. |
| ImportRoute.UnknownTypesAreUnsupported | app/api/import/route.ts:177-182 | Every other type gets 400 "Unsupported file type: " followed by the observed MIME string, after only the lookup. |
| ImportRoute.ConversionSequence | app/api/import/route.ts:105-172 | An exportable Office file makes exactly these calls, in order: get; copy to its native target named `name + " (Converted)"`; export of the copy in the right format; delete of the copy. The answer is 200 with the text, and the store ends exactly as it began. |
| ImportRoute.OriginalNeverTouched | app/api/import/route.ts:8-193 | On every path, every file that existed is still there, unchanged, and at most the copy's id is added. A 200 means the request was admitted and the store is unchanged. It also means the text is the requested file's rendering. Every other status carries an error payload. |
| ImportRoute.ExportFailureLeaksTempCopy | app/api/import/route.ts:116-127 | As written, when the export of the converted copy fails, the answer is the catch block's 500 with the export's message. The copy stays in the store and no delete is issued. |
| ImportRoute.LeakExample | app/api/import/route.ts:106-127 | A concrete instance: a `.docx` named "Report" whose export fails leaves the store holding both the original and the copy. |
| ImportRoute.TempCopyNeverLeaks | app/api/import/route.ts:105-172 | With cleanup on every path, the set of ids is unchanged. A delete of the copy happens exactly when the copy was exported. The only delete is the copy's, as the last call. |
| ImportRoute.CleanConversion | app/api/import/route.ts:106-127 | The same three facts for the conversion branch alone, in both the convertible and non-convertible cases. |
| ImportRoute.SheetScenario | app/api/import/route.ts:75-82 | A spreadsheet is exported as `text/csv` on its own id, and its text is returned as is. |
| ImportRoute.DocScenario | app/api/import/route.ts:105-128 | A `.docx` named "Report" is copied as "Report (Converted)". The copy is exported as plain text and deleted, and the store ends unchanged. |
| Page.Choose | app/page.tsx:1051 | A click on a choice keeps the quiz invariant. |
| Page.Submit | app/page.tsx:1077-1083 | Submit keeps the quiz invariant: the score never passes the number of questions answered. |
| Page.Next | app/page.tsx:1133-1143 | Next keeps the quiz invariant: the current question stays inside the quiz. |
| Page.Retake | app/page.tsx:942-949 | Retake keeps the quiz invariant. |
| Page.QuizStep | app/page.tsx:906-1143 | Any one click on the quiz card keeps the invariant. |
| Page.QuizRun | app/page.tsx:891-1143 | After any sequence of clicks the score lies between 0 and the quiz length. The current question is inside a non-empty quiz. |
| Page.ChooseOnlyBeforeSubmit | app/page.tsx:1051 | A choice replaces the selection only while the explanation is hidden, and changes nothing else. |
| Page.SubmitScoresIffCorrect | app/page.tsx:1077-1083 | Submit adds one point exactly when the selected index is the question's correct index, and otherwise leaves the score. It always shows the explanation and keeps the question and the selection. |
| Page.NoSecondSubmit | app/page.tsx:1077-1083 | Once submitted, neither another Submit nor a choice changes anything, so a question scores at most once. |
| Page.NextFinishesOrAdvances | app/page.tsx:1133-1143 | Next hides the explanation, clears the selection and keeps the score. It finishes exactly on the last question, and otherwise advances by one. |
| Page.RetakeResets | app/page.tsx:943-948 | Retake on the completion screen returns to the first question, with no selection, no explanation, no score and not finished. |
| Page.PerfectRunFinishes | app/page.tsx:1028-1143 | Answering each remaining question correctly (choose, submit, next) ends finished on the last question with a full score. |
| Page.AppendKeepsQuizInv | app/page.tsx:168-170 | Appending generated questions to the quiz keeps a valid session valid. |
| Page.AskKeepsInv | app/page.tsx:116-181 | handleAsk keeps the quiz session valid, whether it resets or appends. |
| Page.AskWithoutPanelsReplaces | app/page.tsx:120-140 | With neither the options modal nor the sidebar open, the quiz session and card review are reset. The flashcards and quiz become exactly the reply's items for the current mode, or empty. |
| Page.AskWithPanelAppends | app/page.tsx:164-171 | With a panel open, the session and card position are kept and the old items remain a prefix. A successful reply's cards or questions are appended in order, and the sidebar opens. |
| Page.AskErrorShowsMessage | app/page.tsx:156-180 | A thrown fetch or a truthy `error` puts the matching "Error: …" message in the answer. The generated items stay as the reset left them, and the sidebar is untouched. |
| Page.MergeImportAppends | app/page.tsx:95-101 | One import appends a blank line and the text on success. It leaves the uploaded text unchanged on an error reply or a thrown fetch. |
| Page.ImportAllAppends | app/page.tsx:80-107 | After a series of imports, the uploaded text is the original followed, in order, by a blank line and the text of each successful import. |
| Page.CountFallback | app/page.tsx:1248 | The count is never 0. A parsed non-zero number is kept. The count is 5 exactly when parsing failed, gave 0, or gave 5. |
| Page.StudyPage.constructor | app/page.tsx:24-50 | The initial values of the page's state. |
| Page.StudyPage.SetMode | app/page.tsx:518 | Only the mode changes. |
| Page.StudyPage.SetSidebar | app/page.tsx:1211 | Only the sidebar flag changes. This covers the sidebar's close button and the toggle button at line 1390. |
| Page.StudyPage.SetReviewMode | app/page.tsx:797 | Only the review flag changes. This covers the Review button and the viewer's exit at line 885. |
| Page.StudyPage.HandleAsk | app/page.tsx:116-181 | The new page state is `Ask` of the old state and the reply, and the quiz session stays valid. |
| Page.StudyPage.BeginAsk | app/page.tsx:117-140 | Computes `isAddingMore` from the two panel flags before any change, then leaves the state of the synchronous reset. |
| Page.StudyPage.ResetGenerated | app/page.tsx:123-138 | Clears the generated items, the quiz session and the card review, and nothing else. |
| Page.StudyPage.ResetQuizFields | app/page.tsx:128-132 | Sets the five quiz fields to a fresh session, and nothing else. |
| Page.StudyPage.ReceiveReply | app/page.tsx:142-180 | Applies the reply exactly as `Receive` does, with the `isAddingMore` computed before the reset. |
| Page.StudyPage.OnPickerCallback | app/page.tsx:80-107 | Only a "picked" action changes anything, and then only the uploaded text, as `MergeImport` gives. |
| Page.StudyPage.ChooseAnswer | app/page.tsx:1051 | The page state after the click is the quiz step for a choice, applied only in quiz mode. |
| Page.StudyPage.SubmitAnswer | app/page.tsx:1079-1083 | The page state after the click is the quiz step for Submit. |
| Page.StudyPage.NextQuestion | app/page.tsx:1135-1143 | The page state after the click is the quiz step for Next. |
| Page.StudyPage.RetakeQuiz | app/page.tsx:943-949 | The page state after the click is the quiz step for Retake. |
| Page.StudyPage.SetCount | app/page.tsx:1248 | Only the count changes, to the fallback of the parsed input. |
| FlashcardReview.NextView | app/study/FlashcardViewer.tsx:12-15 | `next` keeps the index on a card of the deck. |
| FlashcardReview.PrevView | app/study/FlashcardViewer.tsx:17-20 | `prev` keeps the index on a card of the deck. |
| FlashcardReview.Apply | app/study/FlashcardViewer.tsx:12-44 | Any one control keeps the index on a card of the deck. |
| FlashcardReview.Replay | app/study/FlashcardViewer.tsx:12-20 | Any sequence of controls keeps the index between 0 and the last card. |
| FlashcardReview.StartsOnFirstCard | app/study/FlashcardViewer.tsx:7-8 | Review opens on the first card, front up. |
| FlashcardReview.NextMovesIffEnabled | app/study/FlashcardViewer.tsx:12-15 | `next` always unflips. It advances by one exactly when the Next button (line 93) is enabled, and otherwise stays. |
| FlashcardReview.PrevMovesIffEnabled | app/study/FlashcardViewer.tsx:17-20 | `prev` always unflips. It steps back by one exactly when the Prev button (line 79) is enabled, and otherwise stays. |
| FlashcardReview.EmptyDeckNextEnabledButStill | app/study/FlashcardViewer.tsx:93 | For an empty deck the Next button is not disabled, yet `next` leaves the index at 0. |
| FlashcardReview.ClickTwiceRestores | app/study/FlashcardViewer.tsx:44-64 | A click shows the other side of the same card, and two clicks restore the view. |
| FlashcardReview.NextRepeated | app/study/FlashcardViewer.tsx:12-15 | Pressing Next k times from the first card reaches card min(k, n - 1). |
| FlashcardReview.NextRepeatedFrom | app/study/FlashcardViewer.tsx:12-15 | Pressing Next k times from card i reaches card min(i + k, n - 1). |
| FlashcardReview.FlashcardViewer.constructor | app/study/FlashcardViewer.tsx:6-8 | The viewer starts on the first card, front up. |
| FlashcardReview.FlashcardViewer.Next | app/study/FlashcardViewer.tsx:12-15 | The new state is `NextView` of the old one, still inside the deck. |
| FlashcardReview.FlashcardViewer.Prev | app/study/FlashcardViewer.tsx:17-20 | The new state is `PrevView` of the old one, still inside the deck. |
| FlashcardReview.FlashcardViewer.Flip | app/study/FlashcardViewer.tsx:44 | Only the flip flag toggles. |
| FlashcardReview.FlashcardViewer.ShownFace | app/study/FlashcardViewer.tsx:10-64 | For a non-empty deck the card shows the current card's back when flipped, and its front otherwise. |
| FlashcardReview.FlashcardViewer.ButtonsDisabled | app/study/FlashcardViewer.tsx:77-93 | For a non-empty deck, Prev is disabled exactly on the first card and Next exactly on the last. |
| PdfExtract.ExtractPdfText | lib/extractPdfText.ts:7-16 | The page loop returns exactly the fold `PdfText` of the pages, processed in order from page 1. |
| PdfExtract.NoPagesNoText | lib/extractPdfText.ts:7-16 | A document without pages yields the empty string. |
| PdfExtract.JoinLength | lib/extractPdfText.ts:12-13 | Joining n items adds n - 1 separators to their total length. |
| PdfExtract.PdfTextAppend | lib/extractPdfText.ts:9-14 | The text of a concatenation of pages is the concatenation of the texts, so pages contribute in order and independently. |
| PdfExtract.PdfTextPrefix | lib/extractPdfText.ts:9-14 | The text of the first k pages is a prefix of the whole text. |
| PdfExtract.PdfTextLength | lib/extractPdfText.ts:12-13 | The text is as long as the joined pages plus two characters per page. |
| PdfExtract.EndsWithPageBreak | lib/extractPdfText.ts:13 | A non-empty document's text ends with a blank line. |
| PdfExtract.SinglePage | lib/extractPdfText.ts:12-13 | One page of three items gives the items separated by single spaces, then "\n\n". |

## Left out

- The session lookup (`getServerSession`) and the OAuth client are left out. The session's access token is a parameter of the route.
- The googleapis client is replaced by an abstract store. Its failures are reduced to three causes: a missing id, a file the provider will not convert, and a file it cannot render. The error messages of these failures are the model's own, not Google's. Network faults and quota errors are not modelled. Nor is a delete that fails after a successful export (in the source it would also answer 500).
- ImportRoute.Rendered: a file has a single rendering, and the export returns it whatever format is requested. The format appears only in the logged `ExportCall`, so the model's text cannot tell CSV from plain text. A converted copy keeps the original's rendering (`Converted`), so "the text is the requested file's rendering" holds for conversions by that definition, not by a model of Google's conversion.
- The viewer's `onGenerateMore` prop (page.tsx line 886) is never called by the viewer, which reads only `cards` and `onExit`. So it changes no state and is not modelled.
- The route treats `fileMeta.data.mimeType` and `name` as strings. A metadata response without a MIME type (which the source would report as "Unsupported file type: undefined") is not modelled.
- The request body's `fileId` is an optional string. A non-string JSON value (a number, an object) is not modelled.
- The ask endpoint and the extract endpoint are not part of this model: `app/api/ask/route.ts` and `app/api/extract/route.ts`. Their replies are inputs (`AskReply`, `ImportReply`). The same holds for `app/layout.tsx`, `components/AdZone.tsx` and the NextAuth route.
- pdfjs (`getDocument`, `getPage`, `getTextContent`) is left out. A document is given as its pages' sequences of item strings.
- JSX rendering, styles and animations are left out. So are the progress bar, the `alert` calls, the Google API script loading and the Picker construction in `openPicker`, including its sign-in check.
- The `question` and `generateDifficulty` fields are only forwarded to the ask endpoint and are not modelled. Nor are the `isImporting`/`isGenerating` loading flags.
- Each handler is modelled as one atomic step. Interleavings of React state updates across the `await` are not modelled: another click while a request is in flight, or a mode change between sending and receiving.
- `parseInt` on the input string is not modelled. `CountFallback` takes its result, with NaN as `None`.
- Page.Choose: the guard `0 <= index < |choices|` stands for the fact that the choice buttons are rendered only for the current question's choices.
- FlashcardReview.FlashcardViewer: the `cards` prop is fixed for the viewer's lifetime. A deck that grows while the viewer is mounted is not modelled.
- FlashcardReview.Face: `None` stands for the render of `card.front` on a missing card. The source would throw there, for an empty deck.

## Findings

| source | as written | input that shows it | evidently intended | confidence | as-written member | corrected member |
|---|---|---|---|---|---|---|
| app/api/import/route.ts:116-127 | In the DOCX, PPTX and XLSX branches, the export of the converted copy is awaited before the delete. When the export throws, the catch block answers 500 and the delete never runs. | A convertible `.docx` whose conversion succeeds but whose export fails: the copy "Report (Converted)" stays in the user's Drive. | The temporary converted copy is deleted on every path once it exists. | medium, not executed | ImportRoute.ExportFailureLeaksTempCopy | ImportRoute.TempCopyNeverLeaks |
