# SmartCurriculum-Assistant generation core, in Dafny

This project models the decision logic of a small teaching-assistant web
application. A teacher gives a subject, a class level and a chapter. The
server builds a prompt from a fixed template (lesson plan, quiz or homework),
sends it to a generative-language API and returns the text. The browser can
export that text as a PDF or a Word document.

The model has six modules, one per concern:

- `Wrappers` (`wrappers.dfy`): the `Option` and `Result` datatypes the
  other modules share.
- `Strings` (`strings.dfy`): the JavaScript string operations the core
  relies on. These are `split` with a non-empty string separator,
  `startsWith`, `replace` of the first occurrence of a character, and `trim`
  with the ECMAScript whitespace set. `Join` is the inverse of `split`, used
  to state its round trip: splitting is proved to be the unique
  left-to-right decomposition that joins back to the input.
- `Prompts` (`prompts.dfy`): the three prompt templates of the service, as
  pure functions of subject, class level and chapter, with their line
  structure and content.
- `AiService` (`ai_service.dfy`): `generateContent` and the three generators,
  modelled as pure functions. The HTTP call is a function
  parameter `upstream` that answers a `Request` with an `Outcome`: a response
  envelope, or a thrown error with an optional HTTP status. A `Call` records
  the requests sent and the result, so "no request is issued" can be stated.
- `AiRoutes` (`ai_routes.dfy`): the three POST routes. The middleware chain
  `auth` → `validateRequest` → handler is modelled as a function that returns
  the stages run, the upstream requests sent and the reply. A path reaches a
  route the way Express's default router matches it: letter case is ignored
  and one trailing `/` is accepted.
- `ExportUtils` (`export_utils.dfy`): sectioning on `"\n\n"`, the heading
  rule, Word export as a pure function, and PDF export as an imperative
  method. The PDF method drives a small `PdfDoc` class (pages, current font,
  drawn lines, saved name) with a mutable `y` cursor. It is proved equal to a
  layout function, and the page-break, margin, ordering and advance
  properties are proved about that function.

The prompt builders are Dafny functions, so the same triple always gives the
same prompt by construction.

A missing API key throws a plain `Error` before any request is sent, and the
route answers it with status 500 and that message, like every other
generation error. Errors with status 401, 400, 403 or 429 are replaced by a
fixed message; any other error is rethrown with its own message unchanged.

## Model

| member | source | states |
|---|---|---|
| Strings.Split | client/src/utils/exportUtils.js:17 | `content.split(sep)` always yields at least one piece |
| Strings.JoinSplit | client/src/utils/exportUtils.js:17 | joining the pieces of a split with the same separator gives back the string |
| Strings.SplitPieceFree | client/src/utils/exportUtils.js:17 | no piece of a split contains the separator |
| Strings.SplitCharacterized | client/src/utils/exportUtils.js:60 | `split` returns exactly the left-to-right separator-free decomposition that joins back to the string (both directions) |
| Strings.StartsWith | client/src/utils/exportUtils.js:22 | `startsWith('#')`: the string is non-empty and its first character is `#` |
| Strings.RemoveFirst | client/src/utils/exportUtils.js:24 | `replace('#', '')` shortens a string holding `#` by one character and leaves any other string unchanged; on a string starting with `#` it removes exactly the first character |
| Strings.RemoveFirstCutsFirst | client/src/utils/exportUtils.js:24 | the character removed is the first `#`, wherever it sits: the result is the text before it followed by the text after it |
| Strings.TrimStartSuffix | client/src/utils/exportUtils.js:24 | trimming the start leaves a suffix of the input, drops only whitespace, and the result does not start with whitespace |
| Strings.TrimEndPrefix | client/src/utils/exportUtils.js:24 | trimming the end leaves a prefix of the input, drops only whitespace, and the result does not end with whitespace |
| Strings.Trim | client/src/utils/exportUtils.js:24 | `trim()`: leading whitespace removed, then trailing whitespace; its properties are TrimStartSuffix, TrimEndPrefix and TrimSlice |
| Strings.TrimSlice | client/src/utils/exportUtils.js:69 | `trim` returns a middle slice with only whitespace cut away on both sides, no whitespace at either end, and is idempotent |
| AiService.RequestFor | server/services/aiService.js:19-32 | the request URL is the API URL, `?key=` and the key, and the body holds one content with one part whose text is the prompt |
| AiService.ExtractText | server/services/aiService.js:36-37 | yields a value exactly when `candidates[0].content.parts[0].text` exists and is non-empty, and then yields that text |
| AiService.StatusMessage | server/services/aiService.js:50-58 | a replacement message exists exactly for statuses 401, 400, 403 and 429 |
| AiService.Rethrow | server/services/aiService.js:50-60 | mapped statuses become a new error with their message and no status; any other error is rethrown unchanged |
| AiService.KeyMissing | server/services/aiService.js:10 | the key is falsy: unset or the empty string |
| AiService.Answered | server/services/aiService.js:35-60 | how the call settles on an upstream outcome: a response with a first text succeeds with that text, one without fails with the format error, a thrown error fails with what the catch block makes of it |
| AiService.GenerateContent | server/services/aiService.js:9-62 | missing or empty key: no request and the key-not-found error; otherwise exactly one request carrying the prompt, and the result is settled by Answered on that request's outcome (both directions: any response with a first text succeeds with it, any thrown error comes back through Rethrow); a success is always the non-empty extracted text |
| AiService.GenerateLessonPlan | server/services/aiService.js:64-75 | sends exactly the lesson-plan prompt once (nothing, and the key-not-found error, without a key); the result is Answered on that request's outcome; a success is non-empty text |
| AiService.GenerateQuiz | server/services/aiService.js:77-85 | sends exactly the quiz prompt once (nothing, and the key-not-found error, without a key); the result is Answered on that request's outcome; a success is non-empty text |
| AiService.GenerateHomework | server/services/aiService.js:87-96 | sends exactly the homework prompt once (nothing, and the key-not-found error, without a key); the result is Answered on that request's outcome; a success is non-empty text |
| AiService.StatusMessagesDistinct | server/services/aiService.js:50-58 | the four mapped messages are pairwise different and differ from the key-not-found and format messages |
| AiService.RateLimitedCall | server/services/aiService.js:56-57 | an upstream 429 surfaces as the rate-limit message |
| AiService.MissingTextIsFormatError | server/services/aiService.js:36-41 | a response without a non-empty first text yields the invalid-format error, which passes through the catch block unchanged |
| AiService.UnmappedErrorsPassThrough | server/services/aiService.js:42-60 | an error whose status is not 401/400/403/429 (or absent) is rethrown unchanged |
| AiService.EchoRoundTrip | server/services/aiService.js:25-37 | the extraction path reads back what the request body writes: an echoed first content returns the prompt (or the format error if the prompt is empty) |
| Prompts.RequestLineIsOneLine | server/services/aiService.js:65 | the interpolated request line holds a line feed only if one of the fields does |
| Prompts.PromptLines | server/services/aiService.js:65-73 | a template made of a one-line request and single-line fixed lines splits on line feeds back into exactly those lines |
| Prompts.LessonPlanHeadLineIsOneLine | server/services/aiService.js:66-69 | the lesson-plan lines "Include:" to "3. Introduction (10 minutes)" hold no line feed |
| Prompts.LessonPlanTailLineIsOneLine | server/services/aiService.js:70-73 | the lesson-plan lines "4. Main Content (30 minutes)" to "7. Homework Ideas" hold no line feed |
| Prompts.QuizLineIsOneLine | server/services/aiService.js:79-83 | no fixed line of the quiz template holds a line feed |
| Prompts.HomeworkLineIsOneLine | server/services/aiService.js:89-94 | no fixed line of the homework template holds a line feed |
| Prompts.LessonPlanPromptLines | server/services/aiService.js:65-73 | the lesson-plan prompt's lines are the interpolated request line, `Include:`, and the seven numbered sections from Learning Objectives to Homework Ideas |
| Prompts.QuizPromptLines | server/services/aiService.js:78-83 | the quiz prompt's lines are the request line, `Include:`, the 5/3/2 question groups and the request for answers |
| Prompts.HomeworkPromptLines | server/services/aiService.js:88-94 | the homework prompt's lines are the request line, `Include:`, and exactly the five sections Practice Problems to Grading Criteria |
| Prompts.QuizPromptAsksForQuestions | server/services/aiService.js:78-83 | for any fields, the quiz prompt contains "5 Multiple Choice Questions", "3 Short Answer Questions", "2 Long Answer Questions" and "Include answers for all questions." |
| Prompts.PromptContainsOutlineLine | server/services/aiService.js:65-94 | every fixed line of a template occurs in the prompt, whatever the fields |
| Prompts.PromptOpening | server/services/aiService.js:65 | a prompt begins with its template's opening words |
| Prompts.PromptsDiffer | server/services/aiService.js:64-96 | prompts of two different kinds never coincide, whatever the fields |
| AiRoutes.MountsDisjoint | server/routes/ai.js:17-53 | no path matches two of the three mount paths |
| AiRoutes.RouteOf | server/routes/ai.js:5-53 | a path reaches a route exactly when it matches that route's mount path, ignoring ASCII letter case and one trailing `/`; that route is the only one it matches |
| AiRoutes.Given | server/routes/ai.js:10 | a body field is truthy: present and not the empty string |
| AiRoutes.Complete | server/routes/ai.js:10 | all three of subject, classLevel and chapter are truthy |
| AiRoutes.ValidateRequest | server/routes/ai.js:8-14 | `next()` exactly when subject, classLevel and chapter are all present and non-empty; otherwise 400 `{message: 'Missing required fields'}` |
| AiRoutes.PromptOf | server/routes/ai.js:26-62 | the prompt of the generator each route awaits; RoutesSendDistinctPrompts proves they differ |
| AiRoutes.Generate | server/routes/ai.js:26-62 | each route awaits its own generator: it sends the route's own prompt once (nothing without a key) and its result is Answered on that request's outcome |
| AiRoutes.Respond | server/routes/ai.js:27-31 | success becomes 200 `{content}` with exactly the generator's text; any error becomes 500 `{message}` with its message |
| AiRoutes.Handle | server/routes/ai.js:17-68 | on every route the stages run are a prefix of auth, validate, handler; an unauthenticated request runs only auth, sends nothing and gets the middleware's rejection; incomplete bodies stop at validation with the 400 reply; only the handler sends upstream; complete ones get 200 or 500 |
| AiRoutes.Post | server/routes/ai.js:5-70 | the router answers exactly the paths that match one of the three mount paths, and a path matching a route's mount path is answered by that route's Handle |
| AiRoutes.RoutingRoundTrip | server/routes/ai.js:17-53 | each route is reached by its own mount path, with or without a trailing `/`, and a path reaches it exactly when it matches that mount path |
| AiRoutes.HandlerDispatch | server/routes/ai.js:25-31 | a complete, authenticated request sends the route's own prompt (when a key is set) and replies with the generator's outcome |
| AiRoutes.RoutesSendDistinctPrompts | server/routes/ai.js:26-62 | two different routes send different prompts for the same body |
| AiRoutes.IncompleteRequestSendsNothing | server/routes/ai.js:10-13 | a failed validation runs no handler and sends nothing upstream |
| AiRoutes.RateLimitReply | server/routes/ai.js:28-31 | an upstream 429 reaches the client as 500 with the rate-limit message |
| AiRoutes.MissingKeyReply | server/routes/ai.js:28-31 | without an API key, a complete request gets 500 with the key-not-found message and nothing is sent |
| ExportUtils.Sections | client/src/utils/exportUtils.js:17 | `content.split('\n\n')`: there is always at least one section |
| ExportUtils.SectionsRoundTrip | client/src/utils/exportUtils.js:17 | there is at least one section, none holds `"\n\n"`, and rejoining them gives back the content |
| ExportUtils.Classify | client/src/utils/exportUtils.js:22-24 | a section is a heading exactly when it starts with `#`; heading text is the rest after that `#`, trimmed; other sections keep their text |
| ExportUtils.HeadingText | client/src/utils/exportUtils.js:67-69 | heading text has no whitespace at either end and is already trimmed |
| ExportUtils.ExportToWord | client/src/utils/exportUtils.js:58-86 | one paragraph per section in order, HEADING_1 exactly for `#` sections, plain text unchanged, downloaded as `<filename>.docx` |
| ExportUtils.WordRoundTrip | client/src/utils/exportUtils.js:66-76 | for content without headings, the paragraphs joined by blank lines give back the content |
| ExportUtils.BeforeLine | client/src/utils/exportUtils.js:28-31 | past y = 280 the cursor moves to y = 20 on the next page; otherwise it stays |
| ExportUtils.LayoutLines | client/src/utils/exportUtils.js:27-34 | one drawn line per wrapped line; the cursor never goes back a page |
| ExportUtils.LinesPlaced | client/src/utils/exportUtils.js:27-34 | the k-th drawn line carries the k-th wrapped line's text, in the current font |
| ExportUtils.LayoutBlock | client/src/utils/exportUtils.js:20-52 | one section drawn as the loop does: one line per wrapped line of the section (heading font and step 10, or body font and step 7 then a gap of 5); the cursor never goes back a page |
| ExportUtils.LayoutBlocks | client/src/utils/exportUtils.js:20-53 | all sections in order, each from where the previous one left the cursor; the specification DrawSections is proved equal to, with BlocksSound and BlocksDrawEveryLine as its properties |
| ExportUtils.PdfLayout | client/src/utils/exportUtils.js:17-53 | the body of the PDF, the classified sections laid out from y = 40 on the first page; ExportToPdf is proved equal to it, and PdfWithinMargins, PdfReadingOrder and PdfPagesExist state its properties |
| ExportUtils.TitleLine | client/src/utils/exportUtils.js:8-10 | the title is the file name at y = 20 on the first page in 20-point bold |
| ExportUtils.PageBreakRule | client/src/utils/exportUtils.js:27-32 | each line is drawn at the position the check gives the cursor left by the earlier lines, and opens a new page exactly when that cursor is past 280 |
| ExportUtils.LinesAdvance | client/src/utils/exportUtils.js:41-48 | without a page break, n lines move the cursor by step × n |
| ExportUtils.SectionAdvance | client/src/utils/exportUtils.js:33-51 | without a page break, a heading moves the cursor 10 per line; a body section 7 per line plus 5 |
| ExportUtils.LinesSound | client/src/utils/exportUtils.js:27-34 | a section's lines are in reading order within the margins, after the starting cursor and above the cursor they leave |
| ExportUtils.BlockSound | client/src/utils/exportUtils.js:20-52 | the same holds for one section, heading or plain, including the 5-point gap after a plain one |
| ExportUtils.BlocksSound | client/src/utils/exportUtils.js:20-53 | the same holds for all sections in sequence |
| ExportUtils.PdfWithinMargins | client/src/utils/exportUtils.js:18-46 | every drawn line, title included, has 20 ≤ y ≤ 280 |
| ExportUtils.PdfReadingOrder | client/src/utils/exportUtils.js:10-53 | after the title, every line is lower on the same page than the one before, or at y = 20 on the next page |
| ExportUtils.PagesUpToLast | client/src/utils/exportUtils.js:27-32 | in a list of lines in reading order, no line is on a later page than the last one |
| ExportUtils.PdfPagesExist | client/src/utils/exportUtils.js:4-53 | every drawn line, title included, is on a page the document has: none lies past the final cursor's page |
| ExportUtils.BlockDrawsItsLines | client/src/utils/exportUtils.js:20-52 | one section draws exactly its wrapped lines, in order |
| ExportUtils.BlocksDrawEveryLine | client/src/utils/exportUtils.js:20-53 | the PDF draws exactly the wrapped lines of every section, in order, with nothing dropped or repeated |
| ExportUtils.PdfDoc.constructor | client/src/utils/exportUtils.js:5 | a new document has one page, no lines, the default 16-point normal font, and is unsaved |
| ExportUtils.PdfDoc.SetFont | client/src/utils/exportUtils.js:8-9 | changes only the current font |
| ExportUtils.PdfDoc.AddPage | client/src/utils/exportUtils.js:29 | adds one page, which becomes current; nothing else changes |
| ExportUtils.PdfDoc.Text | client/src/utils/exportUtils.js:32 | appends one line on the current page in the current font; nothing else changes |
| ExportUtils.PdfDoc.Save | client/src/utils/exportUtils.js:55 | records the saved file name; nothing else changes |
| ExportUtils.DrawLines | client/src/utils/exportUtils.js:41-48 | the inner loop appends exactly LayoutLines of the wrapped lines and leaves the cursor where LayoutLines does |
| ExportUtils.DrawSection | client/src/utils/exportUtils.js:20-52 | one outer iteration appends exactly LayoutBlock's lines for the classified section and restores the body font |
| ExportUtils.DrawSections | client/src/utils/exportUtils.js:17-53 | the outer loop over the sections appends exactly LayoutBlocks of their classified blocks from y = 40, and leaves the cursor on the last page where LayoutBlocks does |
| ExportUtils.TitledDoc | client/src/utils/exportUtils.js:5-14 | the new document has one page holding only the title, drawn at y = 20 in 20-point bold, and the body font is set |
| ExportUtils.ExportToPdf | client/src/utils/exportUtils.js:4-56 | the document holds the title at y = 20 on page 0 followed by PdfLayout's lines, its page count is one more than the last cursor page, and it is saved as `<filename>.pdf` |

## Left out

- The HTTP request to the generative-language API is the parameter `upstream`. Timeouts, headers and transport behaviour are not modelled.
- `await` is modelled as a sequential call. Console logging has no behaviour and is not modelled.
- Request-body fields are `Option<string>`. JSON values that are not strings (numbers, booleans, objects) are not modelled. For strings, JavaScript truthiness is modelled: absent, null and `""` are falsy.
- The `auth` middleware is a boolean input. Its rejection reply is the opaque `Unauthorized`, because its status and body live in `server/middleware/auth.js`, which is not part of this model.
- Path matching covers Express's default case-insensitive, non-strict comparison of the path relative to the `/api/ai` mount. Percent-decoding, query strings and the mount prefix itself, which `server/server.js` strips, are not modelled.
- `server/server.js` (Express and CORS setup, database connection, listener) is not part of this model.
- The React pages and components (`App.jsx`, `Dashboard.jsx`, `LandingPage.jsx`, `Login.jsx`, `Layout.jsx`, `ErrorMessage.jsx`) are presentation and are not part of this model.
- jsPDF's `splitTextToSize` is the function parameter `wrap`, given the text and the current font. Font metrics, the helvetica family and the fixed x = 15 of every line are not modelled. `PdfDoc` keeps only pages, font, drawn lines and the saved name.
- docx `Packer.toBlob` and the browser download (object URL, anchor click, URL revocation) are not modelled. `WordFile` keeps only the paragraphs and the download name.
- An `Error` keeps only its message and its optional response status. The response data and headers are not modelled.
- Prompts.LessonPlanPromptLines: the line structure is stated for fields without line feeds. A field that holds a line feed adds lines to the prompt.
- Prompts.QuizPromptLines: stated for fields without line feeds, for the same reason.
- Prompts.HomeworkPromptLines: stated for fields without line feeds, for the same reason.
