# LegalAssist: a Dafny model of the chat pages and the chat resources

LegalAssist lets a lawyer upload a PDF, or point at a web page, and then
ask questions about it. The questions are answered by a language model over
a vector index of the document. This project models the rules that sit
around those calls. The network, the language model, the vector store, the
clock and the id generator are parameters of the model.

Client side (Next.js pages, each React component a `class` whose fields
are its state):

- **ChatWithPdf** (`chatwithpdf/page.js`): the single-PDF chat.
  - A guard rejects a send when no PDF has been uploaded or the question is
    blank.
  - An accepted send appends the user's message. When the answer arrives,
    one empty agent message is appended.
  - The typewriter (`typeMessage`) then overwrites that message with ever
    longer prefixes of the answer.
  - `askingAI` marks the outstanding question and disables Send.
  - The `await` splits a send into `HandleSendMessage` (before) and
    `ReceiveAnswer` (after).
- **UploadPdf** (`chats/upload-pdf/page.js`): the upload queue.
  - Validation checks the type first, then the 10 MiB limit.
  - Accepted files are appended. Rejection messages are joined by ", ".
  - Files can be removed by name, and a recent file is added if it is absent.
  - The page has a reset and an upload guard.
- **Listing**, **ChatsPage**, **ChatUrlPage** (`chats/page.js`,
  `chat-url/page.js`): the chat lists.
  - The relative-time label ("just now", "Nm ago", "Nh ago", "Nd ago", or
    the locale date) is shared, because both pages define it identically.
  - Fetched records are mapped in order.
  - On failure the error message follows a three-level precedence.
  - The view is a spinner, an error or the list.
  - The URL page's blank-URL guard and its `isProcessing` flag are modelled.
- **Header** (`Header.jsx`): maps a pathname to a fixed title, or to "fetch
  the title of chat X". The pathname is split on "/" with empty pieces
  dropped.

Server side (Flask resources; each resource a `class` that owns its MongoDB
collection as a sequence of documents):

- **ServerCommon**: what both resources share.
  - The prompt context is the first three chunks joined by spaces, cut to
    3000 characters.
  - Metadata replies are stripped.
  - Recording a question is `update_one` with `$push` on `questions` and
    `$set` on `last_activity`. It changes the first record with the key.
- **PdfChat** (`pdf_chat.py`):
  - A request with a `pdf` part is an upload. Any other request asks a
    question.
  - Keywords are the comma-separated reply, each piece stripped, empty
    pieces dropped.
  - An upload builds its record and its response.
  - A question needs a truthy chat id and question, and its answer is
    recorded once.
- **UrlChat** (`url_chat.py`):
  - A `url` key wins the dispatch. Otherwise `url_id` and `question` are
    both required, and anything else is a 400.
  - A processor error means no record is inserted.
  - A search that finds nothing records nothing.
  - A missing `output_text` is answered as "No response".

Helper modules:

- **Text**: split, join, JavaScript `trim` / Python `strip` (their whitespace
  sets differ), and decimal rendering.
- **Json**: values, plus JavaScript and Python truthiness.
- **Wrappers**: `Option`.
- **Ui**: toasts.

On the chat page:

- The chat page shows no pending placeholder while the answer is awaited.
  The agent message is appended only after the answer arrives.
- No message is removed when a request fails. The client's `askQuestion`
  turns any failure into an answer string.

## Model

| member | source | states |
|---|---|---|
| Text.Trim | client/src/app/chatwithpdf/page.js:55 | the trimmed string starts and ends with no whitespace, and it is empty exactly when the input is all whitespace (JavaScript's or Python's set) |
| Text.TrimIsMiddle | client/src/app/chatwithpdf/page.js:55 | the trimmed string is a slice of the input whose cut-off prefix and suffix are all whitespace: only the two ends are removed |
| Text.Split | client/src/components/Header.jsx:13 | splitting yields at least one piece, and no piece contains the separator |
| ChatWithPdf.TypeMessage | client/src/app/chatwithpdf/page.js:24-36 | the callback runs once per character; the k-th call gets the first k+1 characters; the last call gets the whole text; empty text gives no call |
| ChatWithPdf.WithLast | client/src/app/chatwithpdf/page.js:69-76 | a typewriter update keeps the length and every earlier message, and replaces only the last one |
| ChatWithPdf.CanSend | client/src/app/chatwithpdf/page.js:55 | a send needs a non-empty chat id and a non-empty input |
| ChatWithPdf.CanSendIff | client/src/app/chatwithpdf/page.js:55-58 | a send is refused exactly when there is no chat id or the input is all whitespace |
| ChatWithPdf.AlternatesAppend | client/src/app/chatwithpdf/page.js:59-67 | appending the message whose turn it is (user, then agent) keeps the transcript alternating |
| ChatWithPdf.ChatWithPdfPage.constructor | client/src/app/chatwithpdf/page.js:9-14 | the page starts with no file, no chat id, an empty transcript and input, not asking and the chat hidden |
| ChatWithPdf.ChatWithPdfPage.ChooseFile | client/src/app/chatwithpdf/page.js:129 | choosing a file records it as the file to upload |
| ChatWithPdf.ChatWithPdfPage.TypeInput | client/src/app/chatwithpdf/page.js:113 | typing sets the input field |
| ChatWithPdf.ChatWithPdfPage.HandleUpload | client/src/app/chatwithpdf/page.js:38-52 | no file: an error toast and no upload; a returned id is kept and opens the chat; a null id leaves the chat hidden |
| ChatWithPdf.ChatWithPdfPage.HandleSendMessage | client/src/app/chatwithpdf/page.js:54-63 | a refused send changes only the toasts; an accepted send appends the untrimmed input as the user's message, clears the input, sets askingAI and asks that very input |
| ChatWithPdf.ChatWithPdfPage.ShowTyped | client/src/app/chatwithpdf/page.js:68-77 | the callback replaces only the last message, with an agent message holding the revealed prefix |
| ChatWithPdf.ChatWithPdfPage.ReceiveAnswer | client/src/app/chatwithpdf/page.js:64-77 | after the answer askingAI is false, and once the animation ends the transcript is the old one plus one agent message holding the whole answer; the turns still alternate |
| UploadPdf.Rejection | client/src/app/chats/upload-pdf/page.js:44-58 | a non-PDF gets "<name>: Not a PDF file" and never a size error; a PDF over 10·1024·1024 bytes gets "<name>: File exceeds 10MB limit"; exactly 10 MiB passes |
| UploadPdf.Accepted | client/src/app/chats/upload-pdf/page.js:41-58 | the accepted files are exactly the selected ones with no rejection, and each is a PDF within the limit |
| UploadPdf.Rejections | client/src/app/chats/upload-pdf/page.js:41-58 | at most one message per file, and a message appears exactly when some selected file is rejected with it |
| UploadPdf.AcceptedOrRejected | client/src/app/chats/upload-pdf/page.js:44-58 | every selected file is either accepted or rejected, never both |
| UploadPdf.AcceptedConcat | client/src/app/chats/upload-pdf/page.js:57 | acceptance keeps selection order: validating a+b accepts a's files, then b's |
| UploadPdf.RejectionsConcat | client/src/app/chats/upload-pdf/page.js:47-53 | rejection messages keep selection order |
| UploadPdf.Classify | client/src/app/chats/upload-pdf/page.js:41-58 | the forEach loop pushes exactly the accepted files and the rejection messages, in order |
| UploadPdf.WithoutName | client/src/app/chats/upload-pdf/page.js:115-117 | removing by name keeps exactly the entries with another name |
| UploadPdf.WithoutNameConcat | client/src/app/chats/upload-pdf/page.js:116 | removal keeps the relative order of the remaining entries |
| UploadPdf.WithoutAbsentName | client/src/app/chats/upload-pdf/page.js:116 | removing a name nobody has changes nothing |
| UploadPdf.AddThenRemoveRecent | client/src/app/chats/upload-pdf/page.js:115-130 | adding a recent file that was not listed, then removing it by name, restores the list |
| UploadPdf.UploadPage.constructor | client/src/app/chats/upload-pdf/page.js:11-28 | the page starts with an empty list, not uploading, no progress, no error, and the two sample recent files |
| UploadPdf.UploadPage.ValidateAndSetFiles | client/src/app/chats/upload-pdf/page.js:39-67 | the accepted files are appended after the current list without de-duplication; the error is the rejections joined by ", ", or null when there are none |
| UploadPdf.UploadPage.HandleFiles | client/src/app/chats/upload-pdf/page.js:32-37 | an empty selection changes nothing; any other selection is validated and appended |
| UploadPdf.UploadPage.RemoveFile | client/src/app/chats/upload-pdf/page.js:115-117 | the list loses every entry with that name |
| UploadPdf.UploadPage.AddRecentFile | client/src/app/chats/upload-pdf/page.js:119-130 | no change when the name is listed; otherwise exactly one entry is appended, and a size of "Just now" becomes "5.0 MB" |
| UploadPdf.UploadPage.HandleReset | client/src/app/chats/upload-pdf/page.js:102-107 | the list is empty, with no error, not uploading and no progress |
| UploadPdf.UploadPage.HandleUpload | client/src/app/chats/upload-pdf/page.js:84-100 | an empty list does nothing; otherwise the first file is sent, the error cleared, and a returned id navigates to /chats/<id> |
| Listing.AgeOf | client/src/app/chats/page.js:51-59 | the buckets are disjoint and cover every difference: under 60 (negative included), minutes 1..59, hours 1..23, days 1..6, then a week or more |
| Listing.AgeOfMonotonic | client/src/app/chats/page.js:53-58 | a later moment never gets an earlier bucket, nor a smaller count in the same unit |
| Listing.Label | client/src/app/chats/page.js:53-59 | beyond a week the label is the locale date; below a week it is never empty and never "Unknown time", so a dated chat is never shown as undated |
| Listing.CountLabel | client/src/app/chats/page.js:54-58 | "<n>m ago", "<n>h ago" and "<n>d ago" read back as n in their own unit only, and never as "just now" |
| Listing.LabelRoundTrip | client/src/app/chats/page.js:53-58 | every label below a week reads back as its bucket, so no two buckets share a label |
| Listing.FormatRelativeTime | client/src/app/chats/page.js:45-63 | a falsy date gives "Unknown time"; under 60 s gives "just now"; below a week the label reads back as the bucket of the difference; a week or more gives the locale date |
| Listing.FetchErrorMessage | client/src/app/chats/page.js:31-33 | the error is the server's `error` if non-empty, else the exception message if non-empty, else "Failed to fetch chats"; it is never empty |
| Listing.SelectView | client/src/app/chats/page.js:71-91 | the spinner exactly while loading; else the error view exactly when there is a non-empty error; else the list |
| ChatsPage.FormatChat | client/src/app/chats/page.js:22-26 | a listed chat keeps every field, gains `date` (the relative-time label) and gets `tags` = `keywords` when that is an array, else [] |
| ChatsPage.FormatChats | client/src/app/chats/page.js:22 | one listed chat per record, in the same order |
| ChatsPage.UnaskedChatIsUnknownTime | client/src/app/chats/page.js:24 | a record with no `last_activity` is listed as "Unknown time" |
| ChatsPage.FailedFetchShowsError | client/src/app/chats/page.js:79-91 | after a failed fetch the page shows the error view with the chosen message |
| ChatsPage.AllChats.constructor | client/src/app/chats/page.js:8-10 | no chats, loading, no error |
| ChatsPage.AllChats.FetchChats | client/src/app/chats/page.js:12-38 | loading ends on both paths; success replaces the list and clears the error; failure keeps the list and sets the error by precedence |
| ChatsPage.AllChats.CurrentView | client/src/app/chats/page.js:71-91 | loading has priority over the error, and the error over the list |
| ChatUrlPage.FormatUrlChat | client/src/app/chat-url/page.js:32-35 | a listed URL chat keeps every field and gains `date` |
| ChatUrlPage.FormatUrlChats | client/src/app/chat-url/page.js:32 | one listed URL chat per record, in the same order |
| ChatUrlPage.ChatUrl.constructor | client/src/app/chat-url/page.js:11-16 | empty URL, not processing, no chats, loading, no error |
| ChatUrlPage.ChatUrl.TypeUrl | client/src/app/chat-url/page.js:115 | typing sets the URL field |
| ChatUrlPage.ChatUrl.FetchChats | client/src/app/chat-url/page.js:22-47 | loading ends on both paths; success replaces the list and clears the error; failure sets the error by precedence |
| ChatUrlPage.ChatUrl.CurrentView | client/src/app/chat-url/page.js:158-163 | loading has priority over the error, and the error over the list |
| ChatUrlPage.ChatUrl.HandleProcessURL | client/src/app/chat-url/page.js:69-91 | a blank URL raises an error and makes no call; otherwise isProcessing ends false whatever happens, and the page navigates to /chat-url/<id> exactly when an id comes back |
| Header.NonEmpty | client/src/components/Header.jsx:13 | filter(Boolean) keeps exactly the non-empty pieces |
| Header.Segments | client/src/components/Header.jsx:13 | segments are non-empty and contain no "/" |
| Header.NonEmptyConcat | client/src/components/Header.jsx:13 | filtering keeps the order of the pieces |
| Header.SegmentsIgnoreDoubledSlash | client/src/components/Header.jsx:13 | a doubled slash makes no extra segment |
| Header.SegmentsIgnoreLeadingSlash | client/src/components/Header.jsx:13 | a leading slash makes no extra segment |
| Header.SegmentsIgnoreTrailingSlash | client/src/components/Header.jsx:13 | a trailing slash makes no extra segment |
| Header.TitleFor | client/src/components/Header.jsx:15-31 | a fixed title is "Previous Chats" or "New Chat"; a fetched chat id is non-empty and contains no "/" |
| Header.TitleForCases | client/src/components/Header.jsx:15-31 | the title is "Previous Chats", "New Chat" (exactly for /chats/upload-pdf) or a fetch; a fetch happens exactly for another path whose first segment is "chats" and which has a second one, and it fetches that second segment |
| Header.UploadPageIsNotAChat | client/src/components/Header.jsx:17-18 | /chats/upload-pdf is titled "New Chat", never fetched as a chat id |
| Header.ChatPathSegments | client/src/components/Header.jsx:19-21 | the first two segments of /chats/<id><rest> are "chats" and the id |
| Header.ChatPathIsNotFixed | client/src/components/Header.jsx:15-18 | /chats/<id><rest> is neither fixed path, unless it is /chats/upload-pdf itself |
| Header.ChatPathFetchesItsId | client/src/components/Header.jsx:19-21 | /chats/<id> and deeper paths fetch the title of chat <id>, whatever follows it |
| Header.FetchedTitle | client/src/components/Header.jsx:22-28 | the fetched title is the returned name when non-empty, else "Chat", and "Chat" when the request fails |
| ServerCommon.Leading | server/resources/pdf_chat.py:51 | `text_chunks[:3]` is the first three chunks, or all of them when there are fewer |
| ServerCommon.Context | server/resources/pdf_chat.py:51-53 | the context is at most 3000 characters and always a prefix of the joined chunks: the whole join when it fits, exactly 3000 characters when not |
| ServerCommon.ContextKeepsShortChunks | server/resources/pdf_chat.py:51-53 | nothing is cut when three chunks and two spaces fit in 3000 characters |
| ServerCommon.Metadata | server/resources/pdf_chat.py:57-61 | the metadata is the model's reply with whitespace removed from its two ends and nothing else: a slice of the reply with all-whitespace prefix and suffix, itself starting and ending with no whitespace |
| ServerCommon.QuestionRecord | server/resources/pdf_chat.py:116-120 | the pushed question record has exactly the fields question, answer and timestamp, holding the asked question, the answer and the time |
| ServerCommon.FirstMatch | server/utils/database.py:47-49 | update_one changes the first record whose key field equals the key (a missing field counts as null), or none |
| ServerCommon.Push | server/resources/pdf_chat.py:121-125 | the record gains the question as its last question and the new last_activity; every other field is kept |
| ServerCommon.Pushed | server/resources/pdf_chat.py:115-125 | only the first matching record changes, gaining exactly the question record; with no match nothing changes; well-formed collections stay well-formed |
| ServerCommon.AppendKeepsWellFormed | server/resources/pdf_chat.py:79-85 | inserting a record with a questions array keeps every record's questions an array |
| ServerCommon.QuestionCountAppend | server/utils/database.py:39-41 | inserting a record adds its questions to the count |
| ServerCommon.QuestionRecordedOnce | server/resources/pdf_chat.py:115-125 | an answered question adds exactly one question record when a record has the key, and none otherwise |
| PdfChat.Clean | server/resources/pdf_chat.py:78 | at most one keyword per piece, and no keyword is empty |
| PdfChat.CleanMembers | server/resources/pdf_chat.py:78 | a string is kept exactly when it is non-empty and is the stripped form of some piece |
| PdfChat.ParseKeywords | server/resources/pdf_chat.py:78 | every keyword is non-empty, has no surrounding whitespace and contains no comma |
| PdfChat.CleanConcat | server/resources/pdf_chat.py:78 | keyword order follows piece order |
| PdfChat.KeywordsSplitAtComma | server/resources/pdf_chat.py:78 | the keywords before a comma come first, then those after it |
| PdfChat.KeywordsIgnoreLeadingSpace | server/resources/pdf_chat.py:78 | a space after a comma changes nothing |
| PdfChat.KeywordAlone | server/resources/pdf_chat.py:78 | a single clean keyword parses as itself |
| PdfChat.NoKeywords | server/resources/pdf_chat.py:78 | an empty reply has no keywords |
| PdfChat.KeywordThenRest | server/resources/pdf_chat.py:78 | "k, rest" reads as k followed by the keywords of rest |
| PdfChat.KeywordsRoundTrip | server/resources/pdf_chat.py:65-78 | keywords written as "k1, k2, k3" read back as exactly those keywords, in order |
| PdfChat.ChatRecord | server/resources/pdf_chat.py:70-80 | a new record has status "processed", an empty questions list, no last_activity, the new id and the parsed keywords |
| PdfChat.Asked | server/resources/pdf_chat.py:101-105 | a question is asked only when both chat_id and question are present, and neither is null or "" |
| PdfChat.UploadResponse | server/resources/pdf_chat.py:87-97 | the reply is 200, and its chat_id and keywords are the record's |
| PdfChat.PdfChatService.constructor | server/resources/pdf_chat.py:13-15 | the service starts with an empty collection |
| PdfChat.PdfChatService.UploadPdf | server/resources/pdf_chat.py:39-97 | no pdf part: 400 "No file uploaded" and no record; otherwise exactly one record is appended and the response's chat_id and keywords are the record's |
| PdfChat.PdfChatService.AskQuestion | server/resources/pdf_chat.py:99-127 | a falsy chat_id or question gives 400 and no update; a failure gives 500 and no update; otherwise the answer is returned and recorded once, and the recorded answer is the returned one |
| PdfChat.PdfChatService.Post | server/resources/pdf_chat.py:34-37 | a request with a pdf part gets exactly upload_pdf's response and new collection (UploadOutcome), any other exactly ask_question's (AskOutcome); so an upload inserts one record and no question, and anything else inserts no record |
| UrlChat.RouteOf | server/resources/url_chat.py:20-26 | `url` wins even when url_id and question are present; otherwise both are required; anything else is invalid |
| UrlChat.UrlRecord | server/resources/url_chat.py:50-59 | a new record has status "processed", empty questions, the given url_id and url, and last_activity equal to created_at |
| UrlChat.UrlChatService.constructor | server/resources/url_chat.py:15-18 | the service starts with an empty collection |
| UrlChat.UrlChatService.HandleUrlProcessing | server/resources/url_chat.py:28-71 | a truthy processor error gives 400 with that error and no record; a failed second fetch of the page (text None, so splitting it raises) gives 500 and no record; otherwise exactly one record is appended, and the response's url_id and url are the record's |
| UrlChat.UrlChatService.HandleQuestion | server/resources/url_chat.py:73-109 | a missing key or a failure gives 500 with its text and no update; no documents gives 200 "No relevant content found" and no update; otherwise the answer (or "No response") is returned and recorded once |
| UrlChat.UrlChatService.Post | server/resources/url_chat.py:20-26 | an invalid request gives 400 and changes nothing; a url request gets exactly _handle_url_processing's response and new collection (ProcessOutcome), a question exactly _handle_question's (QuestionOutcome); so URL processing records no question and inserts at most one record, and a question inserts none |

## Left out

- Rendering, styling, icons, the auto-scroll effect and the 25 ms timer
  interval are left out. Only the sequence of typewriter prefixes is
  modelled.
- ChatWithPdf.ChatWithPdfPage.ReceiveAnswer runs the typewriter to
  completion before anything else happens. A new send started while an
  answer is still being typed, and an unmount mid-animation, are not
  modelled.
- ChatWithPdf.ChatWithPdfPage.HandleSendMessage appends to the current
  transcript. The code appends to the transcript captured when the handler
  was created, so sends are assumed not to interleave.
- The retry button of the chats page is left out. It calls a hook inside an
  event handler, so it has no defined behaviour.
- `formatFileSize` on the upload page is left out. It works in floating
  point.
- Listing.FormatRelativeTime takes the elapsed whole seconds and the locale
  date as inputs (the Clock). Date parsing, an unparseable date (NaN) and
  `toLocaleDateString` are left out.
- Header.FetchedTitle treats a returned name as a string. A truthy name of
  another JSON type, and the order in which overlapping title requests
  resolve, are not modelled.
- The HTTP wrappers (`api.js`, `urlChat.js`, `translate.js`) are left out.
  Only their results enter the model: an id or null, an answer string, or a
  thrown error.
- `toast.dismiss` is left out. Toasts are modelled as a list that only
  grows.
- Text lengths count Unicode code points. JavaScript's UTF-16 lengths, and
  so the typewriter's steps on astral characters, differ from the model.
- askai.py, the PDF and URL processors, database.py's connection code,
  app.py and config.py are left out. Their results are parameters: chunks,
  the new id, the processor's (id, error) pair, the retrieval outcome and
  the model's replies.
- The prompt texts are left out. A metadata reply depends only on its kind
  and the context.
- Request bodies that are not JSON objects are left out, as is a server
  `error` field that is not a string.
- `datetime.utcnow()` is read once per request in the model. The code reads
  it separately for `created_at` and `last_activity`, and for a question's
  timestamp and `last_activity`.
- PdfChat.PdfChatService.UploadPdf takes the uploaded file's size as an input. In the code
  it is whatever `read()` returns after text extraction has consumed the
  stream.
- UrlChat.UrlChatService.HandleUrlProcessing does not model a failing
  language-model call for the name or the description. Such a call raises
  and ends in a 500 with no record. A failed second fetch of the page is
  modelled.
- PdfChat.PdfChatService.UploadPdf does not model failures of text extraction, the vector
  store or the model during an upload. Those raise and end in a 500.
- ServerCommon.Pushed uses plain JSON equality for the `update_one` filter.
  MongoDB also matches an element of an array field, and a `$push` onto a
  non-array field fails. Both are left out, because every record the
  services insert has a `questions` array.
