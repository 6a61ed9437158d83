# Student Idea Launcher: a verified model of its core

This project models the sequential logic of the Student Idea Launcher, a
web application in which a student describes an idea, talks it through
with an AI mentor, gets a presentation outline, exports it to Google
Slides and protects the idea with a timestamped PDF certificate and its
SHA-256 fingerprint. The models are:

- **RecordStore** (`lib/utils/localStorage.ts`): the browser-side store of
  ideas, keyed by `id`, and brainstorm sessions, keyed by `ideaId`. It is a
  class whose two storage slots the save and delete methods overwrite.
  Saving is an upsert at the first index with the key, lookup returns the
  first match, and deletion filters out every match.
- **PdfLayout** (`lib/utils/pdf.ts`): `generateIdeaPDF` as imperative code.
  The cursor `y` moves down, pages break at the fixed thresholds 250, 200,
  260 and 270 with the cursor reset to 20, slide headings are numbered, and
  a second pass writes the footers. It also models the resolve/reject
  outcome of `calculateSHA256`. The jsPDF document is a value: the record
  of its text calls, each tagged with the page that was current, plus
  `addPage` and `setPage`. A page's items are read off that record
  (`PageItems`). Beside the imperative layout stands a reference,
  `FirstPass`, built from the steps `Guard` (the page-break check) and
  `Draw` (a text call and the advance after it); the lemmas about page
  breaks are proved on it.
- **Slides** (`lib/google/slides.ts`): the batch of three requests per
  slide, the body text of the bullet points, the edit URL, and the calls
  made by `createGoogleSlidesPresentation`. It also models the mock
  `createSlidesFromOutline`.
- **Conversation**, **Gemini** (`lib/google/gemini.ts`): prompts built
  from the idea and the conversation history, the role-labelled
  transcript and summary, and the greedy `/\{[\s\S]*\}/` span extraction
  with its `{ slides: [] }` fallback.
- **BrainstormLocal**, **OutlineLocal** (`app/api/brainstorm-local/route.ts`,
  `app/api/outline-local/route.ts`): the `POST` handlers. Each checks its
  input in order (400 for a missing input, then 500 for a missing key),
  then assembles the prompt and builds the response.
- **Text**, **JsValues**, **Wrappers**: helpers for the JavaScript behaviour
  the code relies on:
  - decimal printing of numbers;
  - `join`, and its inverse `split`;
  - truthiness of optional strings;
  - `error.message || fallback`.

External calls are parameters of the model:

- **Gemini model:** `generate`, a parameter mapping a prompt to a reply or
  a failure.
- **`JSON.parse`:** `parse`, a parameter.
- **Slides API:** each call's result is a parameter.
- **Environment API key:** an optional string parameter.
- **`Date.now()`:** the number `now`.
- **`splitTextToSize`:** `split`, which gives the number of lines a text
  wraps to, always at least one.
- **SHA-256 digest:** another parameter.

Behaviour of the code that the model keeps as written:

- **No field validation in the certificate:** `generateIdeaPDF` checks
  neither the title nor the description; it lays out empty strings like
  any others.
- **Fixed page-break thresholds:** the code compares the cursor with fixed
  thresholds only, and only before the summary (250), the outline (200),
  each heading (260) and each bullet (270). The header never breaks, so a
  very long title or description runs past the bottom of page 1, and a
  summary or bullet that wraps to many lines is never split. `LayoutHeader`
  states the cursor it leaves: `108 + 7 * (title lines + description
  lines)`. The reference `FirstPass` gives, step by step, where the cursor
  stands and which page is current; every layout method is proved to
  follow it, and `GenerateIdeaPdf` takes its page count from it.
- **Bullet marker:** the PDF bullet text is written in the source as
  `â€¢ ` (the UTF-8 bytes of U+2022 read as Windows-1252) followed by a
  space, and the model keeps exactly those characters. The Slides body
  uses the real `• `.

## Model

| member | source | states |
|---|---|---|
| RecordStore.FindIndex | lib/utils/localStorage.ts:23 | `findIndex` gives the first index whose key matches, or -1 exactly when no entry matches |
| RecordStore.Find | lib/utils/localStorage.ts:42 | `find` gives nothing exactly when no entry has the key; otherwise the first entry with that key |
| RecordStore.Upsert | lib/utils/localStorage.ts:23-29 | a present key: same length, the first matching entry replaced by the record; an absent key: the record appended at the end |
| RecordStore.Remove | lib/utils/localStorage.ts:46 | the filtered list has no entry with the key, only entries of the input, and every input entry with another key |
| RecordStore.UpsertThenFind | lib/utils/localStorage.ts:21-43 | looking up the key just saved returns the saved record |
| RecordStore.UpsertKeepsOthers | lib/utils/localStorage.ts:25-29 | a save changes no entry except one with the saved key, keeps order, and grows the list by at most one |
| RecordStore.UpsertKeepsUnique | lib/utils/localStorage.ts:23-29 | if keys are unique before a save they are unique after it |
| RecordStore.RemoveAppend | lib/utils/localStorage.ts:46 | filtering distributes over concatenation, so the survivors keep their relative order |
| RecordStore.RemoveAbsent | lib/utils/localStorage.ts:46 | deleting a key that is not present leaves the list unchanged |
| RecordStore.RemoveLength | lib/utils/localStorage.ts:46 | deletion shortens the list by exactly the number of entries with the key |
| RecordStore.LocalStore.GetIdeas | lib/utils/localStorage.ts:34-38 | `[]` outside a browser or when the key is unset; otherwise the stored list |
| RecordStore.LocalStore.GetIdea | lib/utils/localStorage.ts:40-43 | null exactly when no stored idea has the id; otherwise the first stored idea with that id, as `find` returns it |
| RecordStore.LocalStore.SaveIdea | lib/utils/localStorage.ts:21-32 | in a browser the idea slot becomes the upsert of the old list and reading the id back gives the idea; unique ids stay unique; the session slot is unchanged; outside a browser nothing changes |
| RecordStore.LocalStore.DeleteIdea | lib/utils/localStorage.ts:45-48 | in a browser the idea slot becomes the old list without the id, and reading the id back gives null; the session slot is unchanged |
| RecordStore.LocalStore.GetSessions | lib/utils/localStorage.ts:69-73 | `[]` outside a browser or when the key is unset; otherwise the stored list |
| RecordStore.LocalStore.GetSession | lib/utils/localStorage.ts:64-67 | null exactly when no stored session has the idea id; otherwise the first stored session with that id, as `find` returns it |
| RecordStore.LocalStore.SaveSession | lib/utils/localStorage.ts:51-62 | the same upsert laws for sessions keyed by `ideaId`; the idea slot is unchanged |
| RecordStore.LocalStore.DeleteSession | lib/utils/localStorage.ts:75-78 | the same deletion laws for sessions; the idea slot is unchanged |
| Text.NatToString | lib/google/slides.ts:41 | `${index}` is a non-empty string of decimal digits with no leading zero |
| Text.NatToStringInjective | lib/google/slides.ts:41 | different indices print differently |
| Text.IndexOfChar | lib/google/gemini.ts:105 | the first position of the character, or -1 exactly when it does not occur |
| Text.LastIndexOfChar | lib/google/gemini.ts:105 | the last position of the character, or -1 exactly when it does not occur |
| Text.Join | lib/google/slides.ts:61 | `join` of no parts is the empty string; otherwise the result opens with the first part and closes with the last, so there is no separator at either end |
| Text.SplitJoin | lib/google/slides.ts:61 | joining parts that do not contain the separator is undone by splitting on it |
| Conversation.Speaker | lib/google/gemini.ts:40-44 | role `user` gets the label 学生; every other role gets メンター |
| Conversation.Lines | lib/google/gemini.ts:66-67 | one `<label>: <content>` line per message, in history order |
| Conversation.Transcript | lib/google/gemini.ts:39-45 | the `forEach` rendering is empty exactly for an empty history, and otherwise ends with a newline |
| Conversation.Summary | lib/google/gemini.ts:66-68 | the `map`/`join` rendering is empty for an empty history; otherwise it opens with the first message's line and closes with the last one's, with no trailing newline |
| Conversation.AppendTranscript | lib/google/gemini.ts:39-45 | the `forEach` appends to the prompt, in order, each message's labelled line followed by a newline |
| Conversation.TranscriptAppend | lib/google/gemini.ts:39-45 | the transcript of two histories in a row is the concatenation of their transcripts |
| Conversation.TranscriptIsSummary | lib/google/gemini.ts:39-68 | the newline-terminated transcript equals the joined summary plus one newline, or is empty for an empty history |
| Conversation.SummaryLines | lib/google/gemini.ts:66-68 | when no content has a newline, splitting the summary at newlines gives back one line per message, so there is no trailing newline |
| Slides.BulletLines | lib/google/slides.ts:61 | one line per point, each the point prefixed with `• ` |
| Slides.BodyText | lib/google/slides.ts:61 | no points give the empty string; a single point gives its marked line with no newline |
| Slides.BodyTextLines | lib/google/slides.ts:61 | splitting the body at newlines gives back each marked point, in order, with no empty trailing line |
| Slides.SlideIdsDistinct | lib/google/slides.ts:41 | `slide_i` and `slide_j` differ when i and j differ |
| Slides.BuildRequests | lib/google/slides.ts:37-68 | exactly three requests per slide: slide i's `createSlide` has id `slide_i`, index i and layout `TITLE_AND_BODY`; then the title insert into `slide_i_title`; then the body insert into `slide_i_body` |
| Slides.PushSlide | lib/google/slides.ts:39-67 | one loop step appends the three requests of slide `index` and keeps the earlier ones |
| Slides.RequestListUnique | lib/google/slides.ts:37-68 | the description of the request list fixes it completely |
| Slides.CreatedIdsDistinct | lib/google/slides.ts:41-50 | every slide created by one batch has its own object id |
| Slides.PresentationUrl | lib/google/slides.ts:81 | the presentation id can be read back from `https://docs.google.com/presentation/d/<id>/edit` |
| Slides.CreateGoogleSlidesPresentation | lib/google/slides.ts:10-91 | presentation creation is called first; `batchUpdate` is called, with that id and the request list, exactly when the list is non-empty; success returns the id and its edit URL; any failure returns the fixed message |
| Slides.CreateSlidesFromOutline | lib/google/slides.ts:94-115 | the mock id is `mock_<now>`, the URL is its edit URL, and the slides are returned unchanged |
| Gemini.ReadIdeaRoundTrip | lib/google/gemini.ts:23-24 | a title without a line break, and any description, can be read back verbatim from the prompt they are embedded in |
| Gemini.SystemPrompt | lib/google/gemini.ts:20-34 | the mentor system prompt carries the idea's title and description verbatim: both are read back from it when the title has no line break |
| Gemini.OutlinePrompt | lib/google/gemini.ts:70-98 | the outline request carries the idea's title and description verbatim, before the conversation summary and the fixed instructions |
| Gemini.BrainstormPrompt | lib/google/gemini.ts:37-45 | the prompt is the system prompt, a blank line, and then either nothing or the joined summary followed by a newline |
| Gemini.BrainstormWithGemini | lib/google/gemini.ts:11-56 | the model is called with the system prompt, a blank line and the transcript; its reply is returned, and any failure becomes the fixed error |
| Gemini.JsonSpan | lib/google/gemini.ts:105 | a match exists exactly when some `{` precedes some `}`; the match opens with `{`, closes with `}`, and contains every other such slice, so it runs from the first `{` to the last `}` |
| Gemini.MatchWithinSpan | lib/google/gemini.ts:105 | every brace-delimited slice lies between the first `{` and the last `}` |
| Gemini.GenerateOutlineWithGemini | lib/google/gemini.ts:58-115 | the outline prompt embeds the joined summary; with no span the outline is `{ slides: [] }`; otherwise it is the parsed span; a failed call or parse gives the fixed error |
| JsValues.Truthy | app/api/brainstorm-local/route.ts:13 | `!v` of an optional string: a missing value and the empty string are falsy, every other string is truthy |
| JsValues.Interpolate | app/api/brainstorm-local/route.ts:36-37 | `${v}` prints a present string as itself and a missing value as `undefined` |
| JsValues.MessageOr | app/api/brainstorm-local/route.ts:78 | the error's message when it is non-empty; the fallback when it is empty |
| BrainstormLocal.LocalPrompt | app/api/brainstorm-local/route.ts:33-65 | the prompt is the header ending in the `---` rule, then the history plus the new message rendered as a student turn, then the mentor cue; it always ends with `学生: <message>\nメンター: ` |
| BrainstormLocal.BuildPrompt | app/api/brainstorm-local/route.ts:33-65 | the `let prompt` grown by `+=`, over the history only when it is present and non-empty, equals that prompt |
| BrainstormLocal.Post | app/api/brainstorm-local/route.ts:9-82 | an unreadable body gives 500; a missing message gives 400 (and 400 happens only then), before the key is checked; a missing key gives 500 before the model is called; otherwise the model's reply is returned with `success: true`; the title and description are never checked |
| OutlineLocal.ConversationSummary | app/api/outline-local/route.ts:32-36 | a non-empty history gives the joined summary; an absent or empty one gives the fixed note |
| OutlineLocal.SummaryIsNotNoSession | app/api/outline-local/route.ts:32-36 | no real summary equals the no-session note |
| OutlineLocal.OutlineFromReply | app/api/outline-local/route.ts:73-79 | the parsed span, or an empty slide list when the reply has no span |
| OutlineLocal.Post | app/api/outline-local/route.ts:9-93 | 400 happens exactly when the title or description is missing, before the key check; a missing key gives 500; otherwise the outline of the reply is returned with `success: true`; any error gives 500 with its message or the fixed text |
| PdfLayout.SlideHeadings | lib/utils/pdf.ts:92-99 | slide i (0-based) is headed by the number i + 1 and its own title |
| PdfLayout.SlideHeadingsRead | lib/utils/pdf.ts:99 | heading i reads `<i + 1>. <title>` |
| PdfLayout.OneHeadingPerSlide | lib/utils/pdf.ts:97-113 | each slide contributes exactly its own heading, and its bullets contribute none |
| PdfLayout.SlideHeadingsInOrder | lib/utils/pdf.ts:92-114 | the outline's headings are those of the slides, in input order, one per slide |
| PdfLayout.HeaderBlocks | lib/utils/pdf.ts:19-65 | the header is ten blocks that draw the title, author, timestamp and description verbatim and hold no heading or bullet |
| PdfLayout.Contents | lib/utils/pdf.ts:19-115 | the whole document's headings are exactly the outline's, in input order, and there are none without a slide list |
| PdfLayout.BulletsAreMarked | lib/utils/pdf.ts:104-112 | a slide's bullets are its points, in order, each drawn as the marker followed by the point |
| PdfLayout.Footers | lib/utils/pdf.ts:118-129 | the second pass draws on page i the footer `Page i of n`, for i from 1 to n in turn |
| PdfLayout.FlowingIsPaginated | lib/utils/pdf.ts:69-113 | the drawing order starts on page 1; each entry is lower on the same page or at the top margin (20) of the next page; every guarded block is within its threshold; no page number exceeds the last one |
| PdfLayout.FlowingCovers | lib/utils/pdf.ts:69-113 | no page up to the last one is left empty by the first pass |
| PdfLayout.Put | lib/utils/pdf.ts:35-40 | a text call draws at the cursor on the current page, which stays the last one, and moves the cursor down by the step; the first-pass invariant is kept |
| PdfLayout.BreakBelow | lib/utils/pdf.ts:69-72 | a cursor below the limit adds a page, which becomes current, and sets the cursor to exactly 20; otherwise nothing changes; nothing is drawn (the same code is at 84-87, 93-96 and 105-108) |
| PdfLayout.Field | lib/utils/pdf.ts:32-40 | a header field draws its label at the cursor, its value 7 lower, and leaves the cursor `7 * lines + gap` below the value, on the same page |
| PdfLayout.OnOnePage | lib/utils/pdf.ts:30-65 | a flowing drawing order whose last entry is on page 1 is entirely on page 1 |
| PdfLayout.LayoutHeader | lib/utils/pdf.ts:14-65 | the banner at 20 and 30 and the four fields from 45 are ten entries, all on page 1, in the order of the header contents; the cursor ends at `108 + 7 * (title lines + description lines)` |
| PdfLayout.LayoutSummary | lib/utils/pdf.ts:67-80 | only a present, non-empty summary is drawn; a page is added exactly when the cursor is below 250; the label is drawn at the cursor, the text 7 lower, and the cursor ends `7 * lines + 10` below the text |
| PdfLayout.LayoutOutline | lib/utils/pdf.ts:82-115 | only a slide list, even an empty one, is drawn; a page is added exactly when the cursor is below 200; the label is drawn at the cursor and the slides start 10 lower |
| PdfLayout.LayoutSlides | lib/utils/pdf.ts:92-114 | the slides are drawn in input order, slide i numbered i + 1, each from where the previous one left the cursor and the page count |
| PdfLayout.LayoutSlide | lib/utils/pdf.ts:93-113 | a page is added exactly when the cursor is below 260; the heading `i + 1. title` is drawn at the cursor, the bullets start 7 lower, and the cursor ends 5 below the last bullet |
| PdfLayout.LayoutPoints | lib/utils/pdf.ts:104-112 | the bullets are drawn in order, each after its own 270 check, and each moves the cursor down 6 per wrapped line |
| PdfLayout.LayoutPoint | lib/utils/pdf.ts:105-111 | a page is added exactly when the cursor is below 270; the marked point is drawn at the cursor, which then moves down 6 per wrapped line |
| PdfLayout.PointsMoveOn | lib/utils/pdf.ts:104-112 | bullets never return to an earlier page, and on the page they start on they only move the cursor down |
| PdfLayout.SlideMoveOn | lib/utils/pdf.ts:93-113 | a slide that adds no page started no lower than 260 and moves the cursor down at least 12 |
| PdfLayout.SlidesMoveOn | lib/utils/pdf.ts:92-114 | slides that add no page started 12 apart at least, the last of them no lower than 260 |
| PdfLayout.ManySlidesBreak | lib/utils/pdf.ts:83-114 | an outline of more than 20 slides gives a document of at least two pages |
| PdfLayout.StampFooters | lib/utils/pdf.ts:117-129 | the footer pass appends exactly `Page i of n` on page i for every page, and adds no page |
| PdfLayout.FinishPages | lib/utils/pdf.ts:117-129 | on the finished document each page's items end with its own footer, after at least one other item |
| PdfLayout.GenerateIdeaPdf | lib/utils/pdf.ts:13-133 | the first pass draws exactly what the reference `FirstPass` draws, on the pages and at the positions it gives, and the page count n is the page it ends on; that drawing is the document's contents in reading order, the ten header entries on page 1, moving down the pages with each later page starting at 20 and every guarded block within its threshold; the last n entries are the footers `Page i of n`, and every page ends with its own footer after other content |
| PdfLayout.CalculateSha256 | lib/utils/pdf.ts:135-155 | resolves exactly when the read loaded a result, and then with the digest of those bytes; otherwise rejects with `Failed to read blob` |

## Left out

- **JSON and localStorage:** the localStorage read and write calls and the
  JSON round-trip are not modelled; each slot holds the list itself, or
  nothing when unset. A stored value that is an empty string or is not a
  JSON array is not represented.
- **`generateId`** (`lib/utils/localStorage.ts:81-83`): it depends on
  `Date.now()` and `Math.random()` and is not modelled.
- **`downloadPDF`:** it only manipulates the page (DOM).
- **jsPDF rendering:** fonts, font sizes, alignment options, the separator
  rule (`lib/utils/pdf.ts:26-27`) and `doc.output('blob')` are not
  modelled. The document value itself is the result. Horizontal positions
  (x coordinates) are not modelled.
- **SHA-256 and `FileReader`:** the digest (FIPS 180-4, computed by
  CryptoJS) is a parameter. The asynchronous read is represented only by
  how it ends.
- **Gemini, Google Slides, Drive and OAuth SDK calls:** these are network
  calls whose answers are parameters. `console.error` logging and
  async/await scheduling are not modelled.
- **gemini.ts API key:** the module-level key read at
  `lib/google/gemini.ts:3-4` is not modelled, because the model call is a
  parameter.
- **Untyped `outline`:** the `outline?: any` field of `IdeaDocument` is
  modelled as no outline, an outline without `slides`, or a list of slides
  with string titles and points. Other JavaScript values are not
  represented.
- **Out of scope:** Supabase-backed routes, the email helper, the
  diagnostic routes and the React pages.
