# GRADFF request system: a verified model of its core

This project models the core of a Vue application used to file and decide
requests about enrolment irregularities. Requests carry up to three file
attachments. They are grouped by semester, and each gets an access code of
the form `<six characters>/<semester>`.

The model covers four source files:

- the helpers (`src/helpers/index.js`):
  - date reformatting;
  - the status colours;
  - the e-mail summary;
  - the PDF receipt with its page-breaking text flow;
  - the CSV export.
- the request store (`src/stores/request.js`):
  - the loaded list and the per-semester cache;
  - filtered loading;
  - saving with the attachment split, limit and upload loop;
  - removal of requests and files.
- the semester store (`src/stores/semester.js`):
  - the latest three semesters, each classified as active, expected or
    closed from its dates;
  - reading and writing semesters.
- the route table and navigation guard (`src/router/index.js`).

The project has nine modules:

- `Strings`: the JavaScript `split` and `join`, with their inverse laws.
- `JsValues`: JavaScript values.
  - Objects are lists of properties in insertion order.
  - Also modelled: property reads, assignment and object spread,
    truthiness, `String(v)` and `findIndex`.
- `Helpers`: the pure helpers.
- `CsvExport`: `exportToCSV`.
  - The rows are proved to read back under a quoted-field reader in the
    manner of section 2 of RFC 4180.
- `PdfReceipt`: `generatePDF` and `addWrappedText`.
  - A `PdfDoc` class records the drawing calls made on the document.
- `Backend`: the observable behaviour of the document store and the file
  store.
  - `Collection` and `Storage` are classes whose maps the operations
    update.
  - Also defined here: what a query result promises.
- `Requests`: the request store.
  - A `RequestStore` class with the fields `requests`, `requestsCache` and
    `filters`.
  - A loaded list is a `RequestList` object. `requests` and the cache entry
    of the semester it was loaded for are the same object, as the same
    array is in the source.
- `Semesters`: the semester store.
  - A `SemesterStore` class with the field `semesters`.
- `Router`: the route table, the guard decision and the document title.

Everything outside the application is a parameter of the operation that
meets it:

- whether a remote call succeeds;
- which identifier a created document gets;
- which UUID and download URL an upload gets;
- the current time and how a date text parses;
- how the browser writes a stored time as a Brazilian date;
- how jsPDF wraps text;
- who the current user is.

An asynchronous function that throws is modelled by an outcome datatype or
a `thrown` flag. A function that catches, logs and swallows an error leaves
the state unchanged.

## Model

| member | source | states |
|---|---|---|
| JsValues.FindIndex | src/stores/request.js:116 | The index of the first record whose field holds the value. -1 exactly when no record does. No record before the index holds it. |
| JsValues.SpreadReads | src/stores/request.js:118 | In `{...a, ...b}` every key reads from `b` when `b` has it and from `a` otherwise. |
| JsValues.GetSpread | src/stores/request.js:65-68 | A key read through a spread gives the later object's value when present, the earlier one's otherwise. |
| JsValues.GetAssign | src/stores/request.js:113 | Assigning fields over an object gives each assigned key its new value and leaves every other key as it was. |
| JsValues.GetSet | src/stores/request.js:121-122 | After `o[key] = v`, reading `key` gives `v` and every other key is unchanged. |
| Helpers.NanoidHasNoSlash | src/helpers/index.js:6 | A generated access code (6 characters from A-Z and 0-9) never contains "/". |
| Helpers.FormatDate | src/helpers/index.js:9-13 | An empty date gives ""; any other date gives a text containing "/". |
| Helpers.FormatDateIso | src/helpers/index.js:9-13 | "YYYY-MM-DD" becomes "DD/MM/YYYY", with each part unchanged. |
| Helpers.FormatDateParts | src/helpers/index.js:9-13 | The formatted date splits on "/" into exactly day, month and year, so no part is lost or merged. |
| Helpers.FormatDateNoDash | src/helpers/index.js:11-12 | A non-empty text without "-" gives "undefined/undefined/<text>", because the missing parts are undefined. |
| Helpers.FormatTimestamp | src/helpers/index.js:16-18 | A null or undefined date gives "—". A stored timestamp gives its locale date text. Any other value throws, because it has no `toDate`. |
| Helpers.StatusColor | src/helpers/index.js:35-46 | "success", "danger" and "info" each come from exactly one decided status. Every other value gives "default", so the mapping is total. |
| Helpers.StatusOptionColors | src/helpers/index.js:27-46 | The four status options get four different colours. "Aguardando" gets "default". |
| Helpers.SummaryHasOneLinePerIrregularity | src/helpers/index.js:52-59 | The summary splits into one line per irregularity, in order. Each line is "- name: Autorizada" or "- name: Não autorizada" by the `authorized` flag. No irregularities give "". |
| Helpers.EmailTemplate | src/helpers/index.js:49-73 | No parameters exactly when `irregularities` is not an array or holds a null or undefined element, where `.map` throws. Otherwise the e-mail goes to the request's `email` and carries its summary. |
| CsvExport.CellText | src/helpers/index.js:242-268 | A null or undefined field becomes "". A string stays itself. A plain object becomes its JSON text. |
| CsvExport.ItemText | src/helpers/index.js:246-251 | An array element is written as JSON when `typeof` gives 'object': null as "null", and arrays, objects and timestamps as their JSON text. A string stays itself and undefined becomes "". |
| CsvExport.CellTextOfStrings | src/helpers/index.js:245-253 | An array of strings becomes those strings joined by "; ". |
| CsvExport.CellTextOfArray | src/helpers/index.js:245-253 | An array field is its elements' texts in order, separated by "; ". No element gives "", and one element gives its own text. |
| CsvExport.EscapeQuotesNoQuote | src/helpers/index.js:271 | Text without quotes is left as it is by the quote doubling. |
| CsvExport.ReadQuotedEscaped | src/helpers/index.js:271 | Doubling the quotes and closing the field is undone by reading the field. What follows the field is returned untouched. |
| CsvExport.QuoteFieldRoundTrip | src/helpers/index.js:271 | Every quoted field reads back as the original text. |
| CsvExport.ReadRecordRow | src/helpers/index.js:239-274 | A data row reads back as exactly its fields. |
| CsvExport.ReadRecordsRows | src/helpers/index.js:274-277 | Rows joined by newlines read back as the records they came from, in order. |
| CsvExport.ExportCsvReadsBack | src/helpers/index.js:233-277 | No output exactly for an empty array. Otherwise the output is the header row, a newline, then a body. The body reads back record by record as one field per header key, in header order, each the field text of that record's value. |
| CsvExport.ExportCsvHeaderLine | src/helpers/index.js:236-238 | When no key holds a newline, the first line is the first record's keys joined by ",", unquoted. |
| CsvExport.ExportCsvExample | src/helpers/index.js:233-277 | `[{a: 1, b: ["x", "y"]}]` exports as the header `a,b` and the row `"1","x; y"`. |
| PdfReceipt.PdfDoc.AddPage | src/helpers/index.js:95 | A page break is appended to the document's calls. |
| PdfReceipt.PdfDoc.DrawText | src/helpers/index.js:98 | One text call at (x, y) is appended. |
| PdfReceipt.PdfDoc.DrawLine | src/helpers/index.js:111 | One line call is appended. |
| PdfReceipt.Wrapped | src/helpers/index.js:91-102 | No lines leave y unchanged and draw nothing. Otherwise the last call draws the last line one line height above the returned y. |
| PdfReceipt.WrappedDrawsEachLine | src/helpers/index.js:92-100 | The text calls of a wrapped text are exactly its lines, in order. |
| PdfReceipt.WrappedFollowsRule | src/helpers/index.js:93-99 | Line by line, the calls for the first i + 1 lines extend those for the first i. When y + line height exceeds page height - 20, the extension is a new page, then the line at the top (30), with y = 30 + line height. Otherwise it is the line at the previous y, with y advanced by one line height. |
| PdfReceipt.WrappedStaysOnPage | src/helpers/index.js:93-101 | When a line fits between top and margin, every line drawn fits between the top position and the bottom margin. So does the returned y. |
| PdfReceipt.StepTexts | src/helpers/index.js:94-98 | One step of the loop draws its line and no other text. |
| PdfReceipt.DrawStep | src/helpers/index.js:93-99 | One pass of the loop body appends exactly the step's calls: a page break when the line would cross the bottom margin, then the line. It returns the y after the line. |
| PdfReceipt.AddWrappedText | src/helpers/index.js:91-102 | The loop appends exactly the wrapped flow of the wrapped lines and returns its final y. |
| PdfReceipt.WrappedOnA4 | src/helpers/index.js:88-102 | On an A4 page with line height 7, a wrapped text keeps every text within the page and ends above the bottom margin. |
| PdfReceipt.DrawHeader | src/helpers/index.js:104-138 | Without a date text, only the title (y 30), the rule (y 40), the access code (y 50) and the link (y 58) are appended. With one, these are followed by the date line (y 66) and the requester heading (y 81), and the fields start at y = 91. |
| PdfReceipt.HeaderWithin | src/helpers/index.js:104-136 | Every header text lies within the page. |
| PdfReceipt.DrawRequester | src/helpers/index.js:139-175 | Appends exactly the wrapped flows of the five requester lines (name, register, email, course, semester), each starting where the previous one ended. Every text stays within the page and y ends above the bottom margin. |
| PdfReceipt.DrawWrapped | src/helpers/index.js:141-147 | Appends exactly the wrapped flow of the text at x = 20, width 170 and line height 7, and returns its final y. Every text stays within the page and y ends above the bottom margin. |
| PdfReceipt.DrawItem | src/helpers/index.js:194-205 | Appends exactly the title `<n>. <name>` at y, then the description wrapped from one line below. Every text stays within the page and y ends above the bottom margin. |
| PdfReceipt.DrawPageCheck | src/helpers/index.js:189-192 | Appends a new page and returns the top position exactly when y + 7 exceeds page height - 20. Otherwise it appends nothing and keeps y. |
| PdfReceipt.DrawIrregularities | src/helpers/index.js:187-206 | Appends exactly the item loop's calls, with each item's page check, title and description in order. The loop throws exactly when some item is null or undefined, and stops right after that item's page check. Otherwise it ends above the margin. |
| PdfReceipt.DrawItemStep | src/helpers/index.js:188-206 | One loop pass appends the page check, then the item. It throws right after the page check exactly when the item is null or undefined. |
| PdfReceipt.DrawHeading | src/helpers/index.js:178-181 | The heading is appended as one text at y, without a page check. |
| PdfReceipt.DrawIrregularitySection | src/helpers/index.js:177-215 | Appends exactly the heading 15 below y, then, from 25 below y, either the items or "Nenhuma irregularidade registrada." when `irregularities?.length` is falsy. It throws exactly when `irregularities?.length` is truthy and the value has no `forEach` (a non-empty string, or an object with a truthy `length`), in which case only the heading is drawn, or when an item is null or undefined. |
| PdfReceipt.DrawObservations | src/helpers/index.js:217-226 | Appends exactly the heading 15 below y, then `obs` wrapped from 23 below y, or "—" when `obs` is falsy. |
| PdfReceipt.GenerateReceipt | src/helpers/index.js:83-229 | The document's calls are exactly the receipt layout, up to the save or the statement that throws. The date line throws unless `created_at` is a stored timestamp, which leaves only the first four calls. Every text lies between the top position and 5 units above the page edge. The receipt is saved as `comprovante-<access code>.pdf` exactly when neither the date nor the irregularity section throws. |
| PdfReceipt.ReceiptDate | src/helpers/index.js:125-130 | The date line has a text exactly when `created_at` is a stored timestamp. A missing one becomes `new Date()`, which has no `toDate`, so it throws like any other value. |
| PdfReceipt.ReceiptTextsInOrder | src/helpers/index.js:83-229 | The receipt draws exactly these texts, in reading order: the banner; then, when the date does not throw, the date, the requester lines, the irregularities up to any that throws, and the observations unless the section threw. No text is lost, repeated or reordered. |
| PdfReceipt.ItemsFlowTexts | src/helpers/index.js:188-206 | The item loop draws each item's title, then its description's lines, item after item. |
| Router.SomeMatched | src/router/index.js:102-103 | True exactly when some matched record has the meta flag truthy. |
| Router.Guard | src/router/index.js:102-109 | Redirects to `login` exactly when auth is required and no user is signed in. Redirects to `request` exactly when a guest route is opened by a signed-in user. No other redirect target occurs. |
| Router.DocumentTitle | src/router/index.js:98 | The title always ends in " - FF". |
| Router.NoGuestRoutes | src/router/index.js:7-94 | No route of the table is guest-only. |
| Router.GuardedRoutes | src/router/index.js:7-94 | A table route requires authentication exactly when it is one of the eight listed. |
| Router.GuardOnTable | src/router/index.js:7-109 | For each table route, an anonymous visitor is sent to `login` exactly on the guarded routes. A signed-in user always proceeds. `login` never redirects. |
| Router.UnmatchedNavigation | src/router/index.js:98-109 | A navigation that matched nothing proceeds, titled "undefined - FF". |
| Router.TitleOnTable | src/router/index.js:98 | A table route's title is its own meta title followed by " - FF". |
| Backend.Collection.GetDoc | src/stores/request.js:84-85 | A failed read, a missing document, or the stored fields. |
| Backend.Collection.UpdateDoc | src/stores/request.js:113 | Succeeds exactly when reachable and the document exists. The given fields are then assigned over the stored ones. |
| Backend.Collection.AddDoc | src/stores/request.js:123 | On success the new identifier holds the data and nothing else changes. |
| Backend.Collection.DeleteDoc | src/stores/request.js:135 | On success the identifier is gone. |
| Backend.Storage.UploadBytes | src/stores/request.js:147 | On success the path holds the file and is logged as written. |
| Backend.Storage.GetDownloadUrl | src/stores/request.js:148 | A URL only for a path that holds a file. |
| Backend.Storage.DeleteObject | src/stores/request.js:157 | Fails for a path that holds no file. On success the path is gone. |
| Backend.StampedFields | src/stores/request.js:94 | The payload carries the server-time sentinel as `update_at` and every other field unchanged. |
| Requests.Record | src/stores/request.js:65-68 | Every key reads from the document's data, else `id` is the document id, else undefined. |
| Requests.Loaded | src/stores/request.js:65-68 | One record per fetched document, in result order. |
| Requests.FindFilter | src/stores/request.js:45 | The first filter on the field, or -1 exactly when there is none. |
| Requests.PatchedChangesFirstMatch | src/stores/request.js:116-119 | Only the first loaded entry with the id changes. It takes every payload field over its own. With no such entry nothing changes. |
| Requests.FileList | src/stores/request.js:96-97 | A falsy `files` gives the empty list. A truthy non-array throws, and so does an array with a null or undefined element. Otherwise the list is the array. |
| Requests.FilesPartition | src/stores/request.js:96-97 | The two filters are a partition. Every file goes to exactly one side (as a multiset), the stored ones to the kept side and the others to the new side. |
| Requests.KeptFilesAppend | src/stores/request.js:96 | The kept-file filter keeps list order: filtering a concatenation concatenates the filtered parts. |
| Requests.NewFilesAppend | src/stores/request.js:97 | The new-file filter keeps list order in the same way. |
| Requests.OneFileSide | src/stores/request.js:96-97 | A single file is kept exactly when it has a URL, and is new otherwise. |
| Requests.PlanFiles | src/stores/request.js:96-101 | A TypeError exactly when the list throws. The limit error exactly when more than three files are listed. Otherwise the kept and new lists total at most three, and no new file has a URL. |
| Requests.UploadPathSegments | src/stores/request.js:142-146 | The upload path splits into the folder and `<uuid>_<name>`. With no semester the folder is "attachments". |
| Requests.UploadedFileFields | src/stores/request.js:150 | The description gives the file's name, its URL and its path. It counts as stored exactly when the URL is not empty. |
| Requests.StoredFilesAreKept | src/stores/request.js:96-109 | Saving a list of stored files again keeps them all and uploads nothing. |
| Requests.FirstFailure | src/stores/request.js:103-107 | The index of the first upload that fails. All uploads before it succeed. |
| Requests.FirstFailureIs | src/stores/request.js:103-107 | An index before which all uploads succeed and at which one fails is the first failure. |
| Requests.UploadedDescriptions | src/stores/request.js:103-107 | The uploaded descriptions are one per new file, in order. Each names its file and gives its path and URL. |
| Requests.StoredFields | src/stores/request.js:94-109 | The written document keeps every field of the request except `files`, which is replaced, and `update_at`, which is set. |
| Requests.SavedFileList | src/stores/request.js:96-109 | A successful save stores the kept files first, unchanged, then the uploaded ones, at most three in all. |
| Requests.CreatedFields | src/stores/request.js:121-122 | A created request holds `<code>/<semester>` as its access code and the creation sentinel. Every other field is unchanged. |
| Requests.AccessCodeText | src/stores/request.js:121 | The access code starts with the six-character code and then "/". The part before the first "/" gives the code back. |
| Requests.RequestStore.constructor | src/stores/request.js:27-37 | A new, empty loaded list, an empty cache, and the default filters (status "Aguardando"). |
| Requests.RequestStore.HasRequests | src/stores/request.js:40 | True exactly when the loaded list is not empty. |
| Requests.RequestStore.Load | src/stores/request.js:43-79 | A semester in the cache is served without a query: its cached list object becomes the current list. Otherwise the current list becomes a new list object holding the matching documents. That same object is cached under the semester when one is filtered on. A failed query changes nothing. |
| Requests.RequestStore.GetById | src/stores/request.js:82-90 | A copy of the stored fields, or null when the document is missing or the read fails. |
| Requests.RequestStore.UploadFile | src/stores/request.js:142-151 | The file is written under `<folder>/<uuid>_<name>`. Its description is returned only when the write and the URL request both succeed. A null file writes nothing. |
| Requests.RequestStore.UploadAll | src/stores/request.js:103-107 | The uploads run in order up to the first failure. Exactly the paths written so far are added to the store. Success yields all descriptions. |
| Requests.RequestStore.Write | src/stores/request.js:111-129 | An update assigns the payload over the stored document and patches the first loaded entry with the id in place. A cache entry that is the current list sees the patch, and every other cached list is unchanged. A create stores the access code and creation time under the new id. A failed write resolves to undefined and changes nothing. |
| Requests.RequestStore.Save | src/stores/request.js:93-130 | The limit error and TypeErrors are thrown before any upload or write. An upload failure stops after the files already written, with no document write. Otherwise the document is written with the kept and uploaded files, and the access code is returned. An update patches the current list in place, so a cache entry that is that list is patched too. Other cached lists and the filters never change. |
| Requests.RequestStore.Remove | src/stores/request.js:133-139 | The document is gone when the delete reaches the store. A failure is swallowed. |
| Requests.RequestStore.RemoveFile | src/stores/request.js:154-162 | Throws exactly when the delete fails. Otherwise the file is gone. Nothing is written. |
| Semesters.StatusNamesDiffer | src/stores/semester.js:48-50 | The three status texts are distinct. |
| Semesters.Classify | src/stores/semester.js:45-50 | Active exactly from start through end. Expected exactly before start. Closed otherwise, including when a date is invalid. |
| Semesters.ClassifyMovesForward | src/stores/semester.js:45-50 | As time passes a status only moves from expected to active to closed. |
| Semesters.ClassifyByDay | src/stores/semester.js:45-50 | A semester is active at every second of each of its days, expected just before its first day and closed from the day after its last. |
| Semesters.SemesterRecord | src/stores/semester.js:52-56 | The status is computed from the record's own dates. Every other key reads from the data, else `id`. |
| Semesters.Classified | src/stores/semester.js:43-57 | One classified record per fetched document, in order. |
| Semesters.FindByStatus | src/stores/semester.js:22-29 | The first semester with the status, or none exactly when no semester has it. |
| Semesters.FoundAfterLoad | src/stores/semester.js:22-57 | After a load, the active (or expected) semester is the first fetched document whose dates give that status. There is none exactly when no document does. |
| Semesters.SemesterWrites | src/stores/semester.js:76-82 | A created semester carries both time sentinels. An update sets `update_at` to the sentinel and keeps the `created_at` of the data it is given. The update then writes that value over the stored one when the data has it. |
| Semesters.SemesterStore.constructor | src/stores/semester.js:19 | No semesters loaded. |
| Semesters.SemesterStore.ActiveSemester | src/stores/semester.js:22-24 | The first loaded semester whose status is "ativo", or null exactly when there is none. |
| Semesters.SemesterStore.PredictedSemester | src/stores/semester.js:27-29 | The first loaded semester whose status is "previsto", or null exactly when there is none. |
| Semesters.SemesterStore.Load | src/stores/semester.js:32-61 | A returned result becomes the list, one classified record per document, in result order. The result is required to be a sound answer of at most three documents, so the list holds at most three. Which three are the latest is the service's part. A failed query changes nothing. |
| Semesters.SemesterStore.GetById | src/stores/semester.js:64-72 | A copy of the stored fields, or null when the document is missing or the read fails. |
| Semesters.SemesterStore.Save | src/stores/semester.js:75-88 | An update assigns the stamped fields over the stored semester. A create stores them with a creation time. A failure changes nothing. |
| Semesters.SemesterStore.Remove | src/stores/semester.js:91-97 | The document is gone when the delete reaches the store. A failure is swallowed. |

## Left out

- Remote services (Firestore and Cloud Storage):
  - Network calls and their latency are not modelled, and neither is
    concurrency between asynchronous operations.
  - Whether a call succeeds, the new document identifier, the UUID and the
    download URL of each upload are parameters.
  - The order of query results belongs to the service. `Answers` and
    `AnswersLimited` state only which documents come back.
  - The storage library's normalisation of paths (for example, collapsing
    repeated "/") is not modelled. A storage path is the text the store
    builds.
- `serverTimestamp()` is kept as a sentinel value, `ServerTimestamp`. Its
  later resolution to a time is the service's work.
- Code generation: `nanoid` is a parameter. `Save` requires that the
  parameter has the form the generator promises: six characters from the
  alphabet.
- Time and date parsing:
  - The current time is a parameter.
  - Parsing the local date text is a parameter function. `None` stands for
    an invalid date, which the source's comparisons treat as false.
- Locale-dependent date formatting:
  - `toLocaleDateString('pt-BR')` is the parameter `localeDate`, from a
    stored time's seconds and nanoseconds to its text;
  - `formatDateLong` is not modelled at all.
- Dates: a stored time is `Timestamp(seconds, nanoseconds)`. A JavaScript
  `Date` is not a value of the model. In the receipt, `new Date()` appears
  only in place of a missing creation time, and the model keeps what
  matters there: it has no `toDate`.
- `JSON.stringify` of a stored time is written as its two fields. Some
  versions of the Firestore SDK also write a `type` field.
- The PDF library (jsPDF):
  - fonts, sizes and colours, and the rendering itself, are not modelled;
  - the page height is fixed at A4's 297;
  - `splitTextToSize` is a parameter assumed to return at least one line.
- The CSV download (Blob, object URL and link click) and the file name are
  not modelled. The model stops at the text.
- E-mail: sending through the e-mail service and reading environment
  variables are not modelled. `EmailTemplate` stops at the parameters it
  would send.
- Numbers are integers: floating point, NaN and the formatting of
  fractions are not modelled.
- Object keys: JavaScript places integer-like keys before the others, and
  the model keeps every key in insertion order.
- Vue's reactive proxies are not modelled. The list and its cache entry
  are the same `RequestList` object, which is what the proxies wrap.
- `requestsCache` is a map from the semester's text. A lookup under an
  inherited property name such as "constructor" therefore finds nothing.
- The router library's path matching is not modelled. The guard is given
  the matched records, and the current user is a parameter.
- `auth.js`, `coordinator.js` and `sweet.js` are outside the core and not
  part of this model.
- `id`: a missing, null or empty identifier is the empty string.
- Requests.RequestStore.Save: thrown errors are outcomes. A save that
  throws a TypeError leaves everything unchanged. In the source that throw
  happens before any write too.
- Helpers.FormatDate: takes a string. A null or undefined date, which the
  source also maps to "", is not modelled.
- PdfReceipt.GenerateReceipt: the bound on the page's texts is 5 units
  above the page edge, not the 20-unit bottom margin. The section headings
  "Irregularidades:" and "Observações:" are drawn 15 units below the
  previous text without a page check, so they can fall inside the margin.
- PdfReceipt.GenerateReceipt: reading `name` or `description` of a
  non-object item (for example, a number) gives undefined, as in the
  source. Reading properties of strings is modelled as giving undefined.
- Semesters.SemesterStore.Load: requires the query result to be sound for
  the ordering field and the limit of three.
