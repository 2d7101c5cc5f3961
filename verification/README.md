# gestor-enlaces, modelled in Dafny

gestor-enlaces is a bookmark manager. It has two parts:

- a Flask API over a MongoDB `links` collection that stores, lists, edits and deletes links. It guesses a title and a category for a url by reading the page's `<title>` and matching it against a fixed keyword table. It also counts links per category.
- a React client that holds the links, the statistics and a form. The form has a create draft and an edit draft. Its auto-analysis is debounced: it asks the API for a title and category 800 ms after the url stops changing.

This project models both parts as pure functions over immutable values. The modules are:

| module | models |
|---|---|
| `JsonValues` | the JSON values on the wire and both languages' truthiness |
| `Text` | string helpers: `strip`, `capitalize`, lexicographic order |
| `CategoryOptions` | the client's category list and colour table |
| `Classifier` | the keyword classifier |
| `Scraper` | the title scraper: the fetched page is an input |
| `Sorting` | the stable sort shared by two views |
| `Aggregation` | the `$group`/`$sort` statistics pipeline |
| `CrudService` | the data-access layer over a sequence of documents |
| `Routes` | status codes and payloads of the API routes |
| `LinkService` | the client's state hook |
| `LinkForm` | the form's modes and the debounce as a millisecond-step machine |

Everything outside the program's own logic is an input, not something the model performs:

- the fetched page;
- the id the driver generates on insert;
- the `time.ctime()` text;
- the server's replies to the client;
- the answer to the delete confirmation.

Python's `str.lower`, `\w` and whitespace tests are kept abstract in `Classifier.PyText`. The client's `trim` takes its whitespace test as a parameter.

## Model

| member | source | states |
|---|---|---|
| CategoryOptions.OptionsShape | gestor-enlaces-frontend/src/utils/helpers.js:9-18 | there are eight category labels, they are pairwise distinct, and the last one is "Otros" |
| CategoryOptions.ColorFor | gestor-enlaces-frontend/src/utils/helpers.js:23-35 | the colour lookup is total: every listed label gets a non-default class, and any other value, including a non-string, gets "bg-gray-400" |
| CategoryOptions.ColorOfEachOption | gestor-enlaces-frontend/src/utils/helpers.js:25-32 | each of the eight labels maps to the class listed beside it |
| CategoryOptions.OptionColorsDistinct | gestor-enlaces-frontend/src/utils/helpers.js:25-33 | the eight listed classes are pairwise distinct and none of them is the default class |
| CategoryOptions.UnknownLabelColor | gestor-enlaces-frontend/src/utils/helpers.js:33 | a label outside the list, such as "Sin Categoría", is painted with a colour no listed label has |
| Classifier.LabelsAreCapitalizedKeys | gestor-enlaces-backend/app.py:39-46 | the six labels the classifier can return are the six table keys after `capitalize()`, in declaration order |
| Classifier.LabelsAreOptions | gestor-enlaces-backend/app.py:212-214 | every label the classifier returns, "Otros" included, is offered by the client's category list, and "Otros" is not one of the six table labels |
| Classifier.MatchIsWholeWord | gestor-enlaces-backend/app.py:211 | for a keyword that starts and ends with a word character, the `\b…\b` pattern matches at exactly the occurrences not glued to a word character on either side |
| Classifier.EmbeddedOccurrenceNoMatch | gestor-enlaces-backend/app.py:211 | an occurrence preceded by a word character is not a match |
| Classifier.IaInsideMedia | gestor-enlaces-backend/app.py:41 | the keyword "ia" is not found inside "media" |
| Classifier.AnyKeywordFrom | gestor-enlaces-backend/app.py:210-212 | the inner loop finds a keyword iff some keyword of the entry from that position on is found by the search |
| Classifier.ClassifyFrom | gestor-enlaces-backend/app.py:209-214 | scanning the table from entry c gives "Otros" iff no later entry matches; otherwise it gives the label of the first matching entry |
| Classifier.ClassifyTextSimple | gestor-enlaces-backend/app.py:204-214 | on the lower-cased text the result is the label of the first entry, in declaration order, with a keyword found; it is "Otros" iff there is none; it is always a client option |
| Classifier.ClassifyByWholeWords | gestor-enlaces-backend/app.py:204-214 | a whole-word occurrence of a keyword of entry c, with no earlier entry matching, yields the label of entry c |
| Text.Strip | gestor-enlaces-backend/app.py:241 | the stripped title is the input with its leading and trailing whitespace removed; its ends are not whitespace and nothing else changes |
| Text.StripIdempotent | gestor-enlaces-frontend/src/hooks/useLinkService.js:142 | trimming a trimmed text changes nothing |
| Scraper.FallbackTitle | gestor-enlaces-backend/app.py:244 | the fallback title is the prefix, then the first 50 characters of the url (or all of it), then "..." |
| Scraper.GetTitleFromUrl | gestor-enlaces-backend/app.py:217-261 | the scraper gives None exactly when the url is not text or the fetch fails. Otherwise the title is either the stripped `<title>` text when that text is non-empty, or the fallback. The category is the classifier applied to that title, and it is always a client option |
| Scraper.BlankTitleBecomesEmpty | gestor-enlaces-backend/app.py:240-241 | a `<title>` made only of whitespace is non-empty, so it is taken and stripped to the empty title; the fallback is not used |
| Scraper.FallbackIsNotSentinel | gestor-enlaces-backend/app.py:244 | the fallback title is never the client's "Título no disponible" sentinel |
| CrudService.ParseObjectId | gestor-enlaces-backend/crudService.py:39 | an id parses iff it is 24 hexadecimal digits in either case; the stored id is its lower-case form; anything else raises `InvalidId` |
| CrudService.ParseRoundTrip | gestor-enlaces-backend/crudService.py:32 | parsing the text of an id gives back that id |
| CrudService.IdIndex | gestor-enlaces-backend/crudService.py:38-41 | the lookup finds the first document with the id, and finds nothing iff no document has it |
| CrudService.IdIndexUnique | gestor-enlaces-backend/crudService.py:39 | in a valid collection, where ids are distinct, the `{"_id": ...}` filter finds the position of the document holding that id |
| CrudService.NewLinkFields | gestor-enlaces-backend/crudService.py:14-23 | the new document has exactly url, title, category, created_at and clicks. The category defaults to "Otros" only when the key is absent, and clicks start at 0 |
| CrudService.CreateLinkDb | gestor-enlaces-backend/crudService.py:12-26 | the insert appends one document, returns its id and keeps the collection valid; a duplicate generated id raises and leaves the collection unchanged |
| CrudService.GetAllLinksDb | gestor-enlaces-backend/crudService.py:28-34 | the listing has one record per document, in order, with `_id` as text and every other field as stored |
| CrudService.GetAllLinksRoundTrip | gestor-enlaces-backend/crudService.py:28-34 | in a valid collection the listed ids are pairwise distinct, and removing `_id` from each record gives back the stored fields |
| CrudService.SetFields | gestor-enlaces-backend/crudService.py:40 | `$set` gives the listed keys their new values and keeps every other field |
| CrudService.UpdateLinkDb | gestor-enlaces-backend/crudService.py:36-42 | a bad id raises and an unknown id matches 0. A known id matches 1, changes only that document, and keeps the collection valid; setting `_id` raises instead |
| CrudService.DeleteLinkDb | gestor-enlaces-backend/crudService.py:44-47 | a bad id raises, an unknown id deletes 0, and a known id removes just that document and keeps the rest in order |
| CrudService.DeleteRemovesExactlyOne | gestor-enlaces-backend/crudService.py:44-47 | in a valid collection the count is 1 iff the id existed; afterwards no document has it, and every other document is still there |
| CrudService.GetStatsDb | gestor-enlaces-backend/crudService.py:49-75 | there is one row per distinct category value (absent counts as null), with the number of documents holding it. Rows run from highest count to lowest and the counts sum to the collection size |
| Sorting.SortBy | gestor-enlaces-backend/crudService.py:69 | sorting gives a permutation of its input |
| Sorting.SortBySorted | gestor-enlaces-backend/crudService.py:69 | under a total preorder the sorted sequence is ordered |
| Sorting.SortedUnique | gestor-enlaces-frontend/src/hooks/useLinkService.js:171 | two ordered permutations of the same elements are equal when no two distinct elements tie |
| Aggregation.GroupCountSortCorrect | gestor-enlaces-backend/crudService.py:61-70 | group, count and sort by count descending give exactly the category statistics of the keys, and the counts add up to the number of keys |
| Aggregation.SumGroupsAdd | gestor-enlaces-backend/crudService.py:63 | counting one more key adds one to the total of the group counts iff that key has a group |
| Routes.CreateLinkRoute | gestor-enlaces-backend/app.py:51-74 | create answers 400 iff the url is falsy, and then nothing is stored. It answers 500 on a driver error, also storing nothing. Otherwise it answers 201 with the new id, and the stored title is the given title if truthy, else the scraper's result |
| Routes.CreateStoresTupleTitle | gestor-enlaces-backend/app.py:62 | without a given title, the stored title is never text: it is the scraper's (title, category) pair, or null |
| Routes.CreateThenListHasUrl | gestor-enlaces-backend/app.py:65-82 | after a 201 create the collection stays valid and the listing contains a link with the posted url |
| Routes.UpdateDefaults | gestor-enlaces-backend/app.py:92-122 | with a falsy url the body is unchanged. Without a manual title the scraped title (or "Título no disponible") is stored and a missing category becomes the guess (or "Sin Categoría"); with a manual title a missing category becomes "Otros". No other key changes |
| Routes.UpdateCanStoreNoCategory | gestor-enlaces-backend/app.py:107-119 | a failed scrape during an update stores "Sin Categoría", a label the client does not offer |
| Routes.UpdateLinkRoute | gestor-enlaces-backend/app.py:89-140 | update answers 500 iff the driver raises and 404 iff nothing matched; otherwise it answers 200 with the id and the stored title |
| Routes.UpdateNotFound | gestor-enlaces-backend/app.py:125-130 | for a well-formed id, update answers 404 iff no document has it. For a body without `_id` it answers 200 iff one does; for a body with `_id` it answers 500 iff one does, because the driver refuses to change `_id` |
| Routes.DeleteLinkRoute | gestor-enlaces-backend/app.py:143-161 | delete answers 200 iff exactly one document was deleted, 404 when none was, and 500 on a malformed id |
| Routes.DeleteTwiceIsNotFound | gestor-enlaces-backend/app.py:150-157 | deleting the same id a second time answers 404 and changes nothing |
| Routes.AnalyzeLinkRoute | gestor-enlaces-backend/app.py:176-202 | analysis answers 400 iff the url is falsy; a failed scrape answers 200 with the two sentinels, and otherwise 200 carries the scraper's pair |
| Routes.AnalysisSentinels | gestor-enlaces-backend/app.py:188-199 | a 200 analysis guesses "Sin Categoría" iff the scrape failed, and then the title is the title sentinel; any other guess is a client option |
| JsonValues.TruthyStrings | gestor-enlaces-backend/app.py:58 | the falsy values, shared by Python's `not` and JavaScript's `!` on the modelled values: the empty text, 0, false, null and undefined; a pair is truthy |
| JsonValues.JsString | gestor-enlaces-frontend/src/hooks/useLinkService.js:83 | `String(v)` of a text is the text itself, of undefined is "undefined", and of a natural number its decimal digits |
| JsonValues.DropUndefined | gestor-enlaces-frontend/src/hooks/useLinkService.js:79 | the serialised body keeps exactly the keys whose value is defined, with their values |
| LinkService.InitialForm | gestor-enlaces-frontend/src/hooks/useLinkService.js:5-9 | the initial form is an empty url and title with category "Otros", the last option |
| LinkService.NormalizeLink | gestor-enlaces-frontend/src/hooks/useLinkService.js:43 | `id` becomes `_id` when that is truthy and the existing `id` otherwise; every other field is kept |
| LinkService.NormalizeIdempotent | gestor-enlaces-frontend/src/hooks/useLinkService.js:43 | mapping links a second time changes nothing |
| LinkService.ServerLinksHaveTextIds | gestor-enlaces-frontend/src/hooks/useLinkService.js:43 | the links the API lists come out of the mapping with their document ids as text, pairwise distinct |
| LinkService.FetchShowsCollection | gestor-enlaces-frontend/src/hooks/useLinkService.js:39-53 | a refresh answered by the API's own listing and statistics shows every stored link in order, under its document id and with its stored fields, and the displayed total is the number of links shown |
| LinkService.FetchLinksAndStats | gestor-enlaces-frontend/src/hooks/useLinkService.js:35-64 | links are replaced only by an ok array reply, and only then are statistics requested. A non-ok or non-array statistics reply is ignored. A failure reading the links, or a network or parse failure on the statistics, shows the connection error |
| LinkService.FailureReason | gestor-enlaces-frontend/src/hooks/useLinkService.js:87-90 | the text of the error a failed call shows: the network error's message, the JSON-parse error's message, or else `data.error` when truthy and the handler's fallback text otherwise |
| LinkService.HandleCreateLink | gestor-enlaces-frontend/src/hooks/useLinkService.js:73-94 | create POSTs the draft. Only a parsed 201 reply counts as success: the form resets to the initial form and the links are refreshed. Anything else keeps the form and shows "Error al crear: " followed by the failure's reason |
| LinkService.CreateMessageQuotesTitle | gestor-enlaces-frontend/src/hooks/useLinkService.js:83 | the success message quotes the title the server says it used |
| LinkService.PutBody | gestor-enlaces-frontend/src/hooks/useLinkService.js:103 | the PUT body carries only url, title and category, each one that the draft defines |
| LinkService.HandleUpdateLink | gestor-enlaces-frontend/src/hooks/useLinkService.js:96-118 | with no draft, or a draft whose id is falsy, nothing is sent and nothing changes. Otherwise one PUT to that id is sent; an ok reply leaves edit mode and refreshes, anything else keeps edit mode and shows "Error al actualizar: " followed by the failure's reason |
| LinkService.HandleDeleteLink | gestor-enlaces-frontend/src/hooks/useLinkService.js:120-139 | an unconfirmed delete sends nothing. A confirmed one sends one DELETE; an ok reply refreshes and quotes the title, anything else shows "Error al eliminar: " followed by the failure's reason |
| LinkService.DeleteNotFoundShowsServerText | gestor-enlaces-frontend/src/hooks/useLinkService.js:130-135 | a 404 carrying an error text shows that text and does not refresh |
| LinkService.AnalyzeRequest | gestor-enlaces-frontend/src/hooks/useLinkService.js:141-151 | an analysis is requested iff the url is text whose trimmed form starts with "http", and the request carries the trimmed url |
| LinkService.AnalyzedUrlIsClean | gestor-enlaces-frontend/src/hooks/useLinkService.js:142-150 | the url an analysis sends is already trimmed and starts with "http", so analysing it again sends the same request |
| LinkService.MergeAnalysis | gestor-enlaces-frontend/src/hooks/useLinkService.js:156-160 | the title is replaced iff the reply's title is not "Título no disponible", and the category iff the guess is not "Sin Categoría"; all other draft fields are untouched |
| LinkService.ApplyAnalysis | gestor-enlaces-frontend/src/hooks/useLinkService.js:152-165 | the draft changes only on an ok, parsed reply |
| LinkService.MergeIdempotent | gestor-enlaces-frontend/src/hooks/useLinkService.js:156-160 | applying the same analysis twice changes nothing more |
| LinkService.SentinelTitleKeepsDraft | gestor-enlaces-frontend/src/hooks/useLinkService.js:158-159 | a sentinel title keeps the user's title while a real category guess is taken |
| LinkService.SortedLinks | gestor-enlaces-frontend/src/hooks/useLinkService.js:170-172 | the sorted view is a permutation of the links, ordered by id from largest to smallest |
| LinkService.SortedLinksIgnoreFetchOrder | gestor-enlaces-frontend/src/hooks/useLinkService.js:170-172 | with distinct ids, the sorted view does not depend on the order the links arrived in |
| LinkService.ReduceCounts | gestor-enlaces-frontend/src/hooks/useLinkService.js:176 | the left fold over the counts gives the start value plus the sum of the counts |
| LinkService.TotalLinks | gestor-enlaces-frontend/src/hooks/useLinkService.js:175-177 | the total is the sum of all counts, and 0 for no statistics |
| LinkService.TotalLinksCountsCollection | gestor-enlaces-frontend/src/hooks/useLinkService.js:175-177 | the total computed from the API's statistics is the number of stored links |
| LinkForm.CurrentDraft | gestor-enlaces-frontend/src/components/LinkForm.jsx:52-53 | the form is in edit mode iff an edit draft is set, even an empty one; the shown draft is then the edit draft, and otherwise the create form |
| LinkForm.HandleFormChange | gestor-enlaces-frontend/src/components/LinkForm.jsx:31-38 | a field edit sets only the named field of the active draft; the mode and the inactive draft are unchanged |
| LinkForm.Submit | gestor-enlaces-frontend/src/components/LinkForm.jsx:41-50 | in edit mode submit asks only for an update of the edit draft. In create mode it asks for a create of the form iff the url is truthy. While saving or analysing, the button is disabled and nothing happens |
| LinkForm.Dispatch | gestor-enlaces-frontend/src/components/LinkForm.jsx:44-49 | no action calls nothing; a create POSTs the draft without its undefined fields; an update sends nothing iff the draft's id is falsy |
| LinkForm.SubmitSendsOnlyTheActiveRequest | gestor-enlaces-frontend/src/components/LinkForm.jsx:44-49 | a submit in edit mode can only send the PUT for the edited id, and in create mode only the POST of the form. It sends nothing while disabled, or in create mode with an empty url |
| LinkForm.Cancel | gestor-enlaces-frontend/src/components/LinkForm.jsx:128 | cancel leaves edit mode, and the shown draft is then the untouched form |
| LinkForm.Arm | gestor-enlaces-frontend/src/components/LinkForm.jsx:18-27 | a re-run replaces any pending timer by a single one, due 800 ms later, that captures the url and the target of the draft now active |
| LinkForm.Mount | gestor-enlaces-frontend/src/components/LinkForm.jsx:17-28 | on mount one timer is armed for the initial form |
| LinkForm.StepSetForm | gestor-enlaces-frontend/src/components/LinkForm.jsx:28 | as written, a new form re-arms the timer iff its url differs; a title or category change keeps the pending timer |
| LinkForm.StepSetEditLink | gestor-enlaces-frontend/src/components/LinkForm.jsx:28 | as written, any new non-null edit draft re-arms the timer, and so does leaving edit mode; staying out of edit mode keeps it |
| LinkForm.StepTick | gestor-enlaces-frontend/src/components/LinkForm.jsx:21-25 | a timer falling due fires once and is gone, calling the analysis with its captured url iff that url is truthy |
| LinkForm.StepReply | gestor-enlaces-frontend/src/hooks/useLinkService.js:154-161 | an ok reply merges into the draft it was armed for, through that draft's setter; as written, a null edit draft spreads as an empty object, unless the reply carries a sentinel: then the updater reads a field of null and the form crashes, its timer cleared. As intended, a reply for a closed edit draft is dropped. Any other reply changes nothing |
| LinkForm.WaitFires | gestor-enlaces-frontend/src/components/LinkForm.jsx:21-25 | a pending timer makes no call before its due time, and exactly its one captured call, if any, when the due time is reached |
| LinkForm.MountCallsNothing | gestor-enlaces-frontend/src/components/LinkForm.jsx:17-28 | the mount-time timer fires after 800 ms with an empty url and calls nothing |
| LinkForm.UrlEditCallsOnceAfterDelay | gestor-enlaces-frontend/src/components/LinkForm.jsx:17-28 | after a url edit in create mode nothing is called before 800 ms, and then one call is made with the new url |
| LinkForm.LastUrlWins | gestor-enlaces-frontend/src/components/LinkForm.jsx:17-28 | two url edits less than 800 ms apart produce one call, with the second url, 800 ms after the second edit |
| LinkForm.TitleEditKeepsTimer | gestor-enlaces-frontend/src/components/LinkForm.jsx:28 | editing the title or category in create mode leaves the pending timer as it was |
| LinkForm.EditModeEditRearms | gestor-enlaces-frontend/src/components/LinkForm.jsx:28 | as written, any field edit in edit mode re-arms the timer for the edited link |
| LinkForm.EditModeAnalysisRepeats | gestor-enlaces-frontend/src/components/LinkForm.jsx:17-28 | as written, an ok analysis of the edit draft re-arms the timer, so the same url is analysed again 800 ms later |
| LinkForm.IntendedReplyDoesNotRearm | gestor-enlaces-frontend/src/components/LinkForm.jsx:28 | as intended, an analysis reply, whatever the mode, neither arms nor drops a timer |
| LinkForm.IntendedKeepsTypedTitle | gestor-enlaces-frontend/src/components/LinkForm.jsx:28 | as intended, a title typed in edit mode when no analysis is pending is kept, and no analysis follows it |
| LinkForm.LateReplyReopensEdit | gestor-enlaces-frontend/src/hooks/useLinkService.js:156-160 | as written, an ok reply for the edit draft after Cancel that carries neither sentinel reopens edit mode with a draft that has no url and no id, so the next submit sends nothing |
| LinkForm.LateSentinelReplyCrashes | gestor-enlaces-frontend/src/hooks/useLinkService.js:156-159 | as written, the failed-scrape reply (both sentinels) for the edit draft after Cancel crashes the form: the form is unchanged, the timer is cleared, no later event has any effect and no further call is made |
| LinkForm.IntendedLateReplyIgnored | gestor-enlaces-frontend/src/components/LinkForm.jsx:128 | as intended, a reply for an edit draft that was closed changes nothing |

## Left out

- HTTP and HTML: the page request, `raise_for_status` and BeautifulSoup parsing are not modelled. Their outcome is the `Scraper.Page` input. The request headers and the 10 s timeout are not modelled either.
- Flask, CORS, dotenv and the MongoDB connection are not modelled. A database that is down, or any other driver failure besides the modelled ones, is not modelled; the 500 answers of `GET /links` and `GET /stats` therefore do not appear.
- Request bodies that are not JSON objects are not modelled. Nor are dotted keys in `$set`, or the `_id` an insert adds to the caller's dictionary.
- Routes.GetAllLinksRoute, Routes.GetStatsRoute: these only wrap the data-access results in a 200. Their contracts live on `CrudService.GetAllLinksDb` and `CrudService.GetStatsDb`.
- CrudService.GetStatsDb: MongoDB leaves the order of rows with equal counts unspecified. The model fixes one order, and the stated property admits any order.
- CrudService.ParseObjectId: also accepting 12-byte binary ids is not modelled; only text ids reach it.
- Text.Capitalize: handles ASCII letters only. It is exact on the six category keys, whose other letters are already lower case.
- Classifier.ClassifyTextSimple: Python's `lower()` and the regex word-character and whitespace classes are abstract parameters. The whole-word results assume that every keyword starts and ends with a word character.
- The module `analysis` that app.py imports is not part of this model. app.py redefines `classify_text_simple` and `get_title_from_url` after that import, and the local definitions are the ones the routes call.
- LinkService.SortedLinks: `localeCompare` is modelled as plain lexicographic order on the id text, which agrees with it on lower-case hexadecimal ids. Its requires restates that every id is text, which `b.id.localeCompare` needs.
- The loading and analysing flags are not modelled, nor what overlapping asynchronous calls do to them. The 3 s message auto-clear and the `console` logging are not modelled either. The flags appear only as inputs of `LinkForm.Submit`.
- LinkForm.StepSetEditLink: React compares `editLink` by reference. The model treats every non-null assignment as a new object. That holds for every assignment the form makes itself. Re-selecting the link already being edited from the list is not modelled.
- LinkForm.Submit: the browser's constraint validation of the `required` url input (type `url`) is not modelled; the model follows the submit handler alone.
- The window.confirm dialog text, StatsCard percentages, LinkCard, LinkList, Overlays, App and the `API_BASE_URL` setting are not modelled. They are presentation or configuration.
- JsonValues.Json: there are no arrays, nested objects or floating-point numbers. The two languages disagree on an empty array: a url `[]` is falsy for Python's `not` and truthy for JavaScript. Such inputs are outside the model.
- JsonValues.JsString: client integers are exact in the model. The browser holds them as doubles: `response.json()` rounds integers above 2^53, and `String(n)` gives exponent form from 1e21 on. Counts and click totals that reach either bound are outside the model.
- LinkService.Body: a reply is an object, an array or unparseable text. A JSON `null` or a bare scalar body is not modelled, so the TypeError that reading `data.title_used` of a `null` body raises does not appear.
- The failure policy of statistics loading follows the code: only a non-ok or non-array statistics reply is ignored. A network or JSON-parse failure on `/stats` shows the connection error even though the links were already replaced.

## Findings

| source | as written | input that shows it | evidently intended | confidence | as-written member | corrected member |
|---|---|---|---|---|---|---|
| gestor-enlaces-frontend/src/components/LinkForm.jsx:28 | the effect depends on the whole `editLink` object, and every analysis merge stores a new object there | open a link whose url starts with "http" for editing; each ok analysis re-arms the 800 ms timer and analyses the same url again, for as long as the form is open, overwriting any title typed meanwhile | re-analyse only when the user edits the url of the active draft | medium, not executed | LinkForm.EditModeAnalysisRepeats | LinkForm.IntendedReplyDoesNotRearm |
| gestor-enlaces-frontend/src/components/LinkForm.jsx:128 | Cancel sets `editLink` to null but does not stop an analysis already in flight; its reply calls `setEditLink(prev => ({...prev, ...}))` with `prev` null | edit a link whose page has a title, let the analysis start, press Cancel before the reply; the form reopens in edit mode with only a title and category, and "Guardar Cambios" then sends nothing because the draft has no id | drop a reply whose edit draft was closed | medium, not executed | LinkForm.LateReplyReopensEdit | LinkForm.IntendedLateReplyIgnored |
| gestor-enlaces-frontend/src/hooks/useLinkService.js:158-159 | the updater reads `prev.title` when the reply's title is "Título no disponible" and `prev.category` when the guess is "Sin Categoría", and `prev` is null after Cancel; the throw happens while React applies the update, outside the `try` | edit a link whose page cannot be fetched, let the analysis start, press Cancel before the reply; the failed-scrape reply makes the updater throw a TypeError and, with no error boundary, the app unmounts | drop a reply whose edit draft was closed | medium, not executed | LinkForm.LateSentinelReplyCrashes | LinkForm.IntendedLateReplyIgnored |
