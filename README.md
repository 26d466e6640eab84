# ticketflowai in Dafny

A model of the core of ticketflowai. The app takes an uploaded PDF, extracts
its text and has a language model turn it into tickets. It then pushes those
tickets to Jira and GitLab and lists the documents and their tickets in a web
page. The model covers these parts:

- **Records** (`document_models.dfy`, `ticket_models.dfy`): the `Document`
  and `Ticket` rows, their status and priority domains, defaults, length
  bounds and `__str__`.
- **AI service** (`ai_service.dfy`): it removes code fences from a reply,
  then filters and normalises the parsed entries into tickets
  (`generate_tickets_from_content`). It also covers the bracket-slice
  variant `process_crew_result` and the stripped summary and questions
  replies.
- **Document handlers** (`documents_views.dfy`): the `upload` and
  `push_to_jira_and_gitlab` handlers, written against a `Store` class that
  holds the documents and tickets tables. The page loop that builds the
  content is a method proved against `PageText`. The per-ticket issue loop
  is a method proved against `PushLog`.
- **Documents page** (`documents_page.dfy`): the frontend's documents list.
  It covers the priority colours, status labels and badges, the
  "Edit Tickets" gate, the expand/collapse toggle and the choice between
  spinner, empty prompt and list. The page's state cells are a `Page` class.
- **Sign-in** (`auth_views.dfy`): the GitLab callback's name split and its
  get-or-create of the user by email, and the fixed `verify_token` reply.
- **Python and JavaScript string built-ins** (`text.dfy`): `strip`,
  `startswith`/`endswith`, slicing, `upper`/`lower`, `find`/`rfind`,
  `split()` and `' '.join`.
- **Filtering** (`selection.dfy`): the order-keeping "keep what passes"
  that the two ticket loops of the AI service and the per-document ticket
  lookups perform.

Inputs stand in for the services the handlers call:

- the PDF's page texts, or the extraction error;
- the language model's replies;
- `json.loads`, as a `decode` function;
- the per-ticket Jira/GitLab outcome;
- the GitLab HTTP status codes and the fetched profile;
- JWT minting, as a function of the user id.

## Model

| member | source | states |
|---|---|---|
| Text.Strip | backend/apps/tickets/ai_service.py:50 | `strip()` returns a contiguous piece of its input, starting right after the leading whitespace run |
| Text.StripIsStripped | backend/apps/tickets/ai_service.py:50-58 | the stripped text has no whitespace at either end, and only whitespace was cut off at each side |
| Text.StripEmpty | backend/apps/documents/views.py:73 | `s.strip()` is empty exactly when `s` is all whitespace (the `if content.strip()` test) |
| Text.StripOfStripped | backend/apps/tickets/ai_service.py:58 | stripping text without outer whitespace changes nothing |
| Text.StripIdempotent | backend/apps/tickets/ai_service.py:58 | stripping twice is stripping once |
| Text.StripPadded | backend/apps/tickets/ai_service.py:50 | whitespace around a stripped body is removed, and nothing else |
| Text.LeadingSpaceIsMaximal | backend/apps/tickets/ai_service.py:50 | the counted leading run is all whitespace, and the next character is not whitespace |
| Text.TrailingSpaceIsMaximal | backend/apps/tickets/ai_service.py:50 | the counted trailing run is all whitespace, and the character before it is not whitespace |
| Text.LeadingSpaceSkipsSpace | backend/apps/tickets/ai_service.py:50 | a whitespace prefix adds its length to the leading run |
| Text.TrailingSpaceSkipsSpace | backend/apps/tickets/ai_service.py:50 | a whitespace suffix adds its length to the trailing run |
| Text.Take | backend/apps/tickets/ai_service.py:75 | `s[:n]` is the prefix of length `min(n, len(s))`, and all of `s` when it is short enough |
| Text.UpperNormalises | backend/apps/tickets/ai_service.py:77 | `upper()` keeps the length, leaves no lower-case letter and is idempotent |
| Text.UpperOfLower | ticketflowai-frontend/app/documents/page.tsx:51 | upper-casing ignores a prior lower-casing, which is what makes a switch on `toUpperCase()` case-insensitive |
| Text.LowerOfUpper | backend/apps/documents/views.py:194 | lower-casing ignores a prior upper-casing |
| Text.Find | backend/apps/tickets/ai_service.py:104 | `find` gives the first index of the character, or -1 when it is absent |
| Text.RFind | backend/apps/tickets/ai_service.py:105 | `rfind` gives the last index of the character, or -1 when it is absent |
| Text.Words | backend/apps/auth/views.py:75 | `split()` yields non-empty runs of non-whitespace, and yields nothing exactly for a blank text |
| Text.WordsLeadingBlank | backend/apps/auth/views.py:75 | leading whitespace of any length is ignored by `split()` |
| Text.WordsLeadingWord | backend/apps/auth/views.py:75 | a word followed by whitespace or by nothing is split off as the first element |
| Text.WordsOfJoin | backend/apps/auth/views.py:76 | splitting `' '.join(words)` gives the words back |
| DocumentModels.StatusCode | backend/apps/documents/models.py:8-18 | every `jira_status` code is non-empty, upper-case and fits the 20-character column |
| DocumentModels.ParseStatus | backend/apps/documents/models.py:8-18 | a code names a status exactly when it is that status's code: the five choices and nothing else |
| DocumentModels.NewDocument | backend/apps/documents/views.py:48-52 | a created row has the upload's file name, `UNPROCESSED`, and no content, summary or questions |
| DocumentModels.DefaultDocument | backend/apps/documents/models.py:5-17 | the defaults are `untitled` and `UNPROCESSED`, and they fit the schema |
| DocumentModels.DocumentStr | backend/apps/documents/models.py:22-23 | `str(document)` starts with the file name and ends with ` (<status>)` |
| DocumentModels.DocumentStrShowsStatus | backend/apps/documents/models.py:22-23 | two documents with the same file name and the same `str` have the same status |
| TicketModels.PriorityCode | backend/apps/tickets/models.py:11-15 | priority codes are non-empty, upper-case and fit the 10-character column |
| TicketModels.ParsePriority | backend/apps/tickets/models.py:11-15 | a code names a priority exactly when it is that priority's code |
| TicketModels.StatusCode | backend/apps/tickets/models.py:5-9 | status codes are non-empty, upper-case and fit the 20-character column |
| TicketModels.ParseStatus | backend/apps/tickets/models.py:5-9 | a code names a status exactly when it is that status's code |
| TicketModels.NewTicket | backend/apps/tickets/models.py:17-22 | a created ticket keeps the given fields and gets the default status `PENDING` |
| TicketModels.TicketStr | backend/apps/tickets/models.py:26-27 | `str(ticket)` is the title, so it fits 200 characters when the title does |
| Selection.Select | backend/apps/tickets/ai_service.py:64-85 | a filter loop never yields more than it was given |
| Selection.Survivors | backend/apps/tickets/ai_service.py:64-85 | each kept value comes from an accepted entry; the positions increase; every accepted entry is kept |
| Selection.SelectAppend | backend/apps/tickets/ai_service.py:64-85 | filtering a concatenation filters each part |
| Selection.SelectSkipsRejected | backend/apps/tickets/ai_service.py:82-84 | removing a rejected entry leaves the result unchanged |
| Selection.FilterLayout | backend/apps/tickets/models.py:17 | a predicate filter keeps exactly the elements satisfying it, in order |
| AiService.DropLeadingFences | backend/apps/tickets/ai_service.py:51-54 | removing the opening fence leaves a suffix of the text |
| AiService.DropTrailingFence | backend/apps/tickets/ai_service.py:55-56 | removing the closing fence leaves a prefix of the text |
| AiService.Unfence | backend/apps/tickets/ai_service.py:51-56 | the unfenced text is a contiguous piece of the input, starting where the opening fence ends |
| AiService.StripFences | backend/apps/tickets/ai_service.py:50-58 | the cleaned reply has no whitespace at either end |
| AiService.StripFencesIsInfix | backend/apps/tickets/ai_service.py:50-58 | the cleaned reply is a contiguous piece of the raw reply |
| AiService.OpeningFenceDropped | backend/apps/tickets/ai_service.py:51-54 | ```` ```json ```` or ```` ``` ```` before a newline is removed, and only that |
| AiService.FenceDropped | backend/apps/tickets/ai_service.py:51-56 | a fenced block loses exactly its opening tag and closing fence |
| AiService.FencedReply | backend/apps/tickets/ai_service.py:50-58 | a whitespace-padded fenced block of stripped text cleans to exactly that text |
| AiService.PlainReply | backend/apps/tickets/ai_service.py:50-58 | a reply that neither starts nor ends with a fence is only stripped |
| AiService.TitleText | backend/apps/tickets/ai_service.py:75 | the stored title is the front of the given title: all of it when at most 200 characters, exactly 200 otherwise; a non-string title fails |
| AiService.PriorityText | backend/apps/tickets/ai_service.py:77 | the priority is the given text upper-cased, `MEDIUM` when absent, and fails for a non-string |
| AiService.Hours | backend/apps/tickets/ai_service.py:78 | missing hours become 0; a number is kept as is; a boolean converts; anything else fails |
| AiService.Normalise | backend/apps/tickets/ai_service.py:73-79 | an entry normalises exactly when title, priority and hours convert, and its cleaned form is the converted title, priority and hours with the description kept |
| AiService.Examine | backend/apps/tickets/ai_service.py:66-84 | an entry is skipped exactly when it lacks `title` or `description`, raises exactly when it has both and fails to normalise, and is otherwise kept in its normalised form |
| AiService.Admit | backend/apps/tickets/ai_service.py:66-84 | an entry is stored exactly when it has both keys, normalises and has a text description; the stored title is at most 200 characters and the priority upper-case |
| AiService.KeptIsCleaned | backend/apps/tickets/ai_service.py:73-79 | a kept entry's draft is the entry with its title cut to 200 characters, its priority upper-cased or `MEDIUM`, its description and its converted hours |
| AiService.GenerateTickets | backend/apps/tickets/ai_service.py:49-96 | the created tickets are the admitted entries of the cleaned and decoded reply, in order; a reply that does not decode to a list gives none |
| AiService.CreateTickets | backend/apps/tickets/ai_service.py:64-87 | the loop creates exactly the admitted entries, in order |
| AiService.GeneratedTicketsAreNormalised | backend/apps/tickets/ai_service.py:64-87 | every created ticket is its entry with the title cut to 200 characters, the priority upper-cased or `MEDIUM`, and the text description; every admitted entry gives a ticket; input order is kept |
| AiService.FailingEntrySkippedAlone | backend/apps/tickets/ai_service.py:82-84 | an entry that raises is skipped on its own; the others are created as if it were absent |
| AiService.FencedReplyDecoded | backend/apps/tickets/ai_service.py:49-61 | a fenced reply is decoded from exactly its body |
| AiService.PriorityNotValidated | backend/apps/tickets/ai_service.py:77 | a priority outside LOW/MEDIUM/HIGH, such as `urgent`, is stored upper-cased and unchecked |
| AiService.BracketSlice | backend/apps/tickets/ai_service.py:104-108 | a slice exists exactly when some `[` comes before some `]`; it is a piece of the reply that starts with `[` and ends with `]` |
| AiService.ProcessCrewResult | backend/apps/tickets/ai_service.py:98-129 | the cleaned list is every dictionary with both keys, normalised and in order; it is empty when any entry raises |
| AiService.CrewTicketsAreNormalised | backend/apps/tickets/ai_service.py:113-121 | every cleaned ticket is its entry with the title cut to 200 characters, the priority upper-cased or `MEDIUM`, and the description unchanged; every dictionary with both keys gives one; input order is kept |
| AiService.NoBracketsNoTickets | backend/apps/tickets/ai_service.py:104-109 | without a `[` followed later by a `]` the result is empty |
| AiService.ServiceText | backend/apps/tickets/ai_service.py:164-216 | the scope summary and the clarifying questions are each the reply with exactly its leading and trailing whitespace removed, or the service's fixed error text when the call fails |
| DocumentViews.PageTextAppend | backend/apps/documents/views.py:64-66 | the content of a run of pages is the content of its parts, concatenated |
| DocumentViews.PageTextBlank | backend/apps/documents/views.py:64-73 | the content is blank exactly when every page's text is blank |
| DocumentViews.ExtractContent | backend/apps/documents/views.py:62-66 | the loop yields each page's text followed by a newline, in page order |
| DocumentViews.Preview | backend/apps/documents/views.py:99 | the preview is all of short content, or the first 500 characters plus `...` |
| DocumentViews.JiraIssueFor | backend/apps/documents/views.py:183-188 | the Jira issue carries the ticket's title and description |
| DocumentViews.GitLabIssueFor | backend/apps/documents/views.py:191-195 | the GitLab issue carries the title; its description is the ticket's followed by the "Jira Reference" line and the Jira key; its one label is the lower-cased priority |
| DocumentViews.GitLabLabelIgnoresCase | backend/apps/documents/views.py:194 | a priority upper-cased from the model's text is labelled with that text lower-cased |
| DocumentViews.FirstFailure | backend/apps/documents/views.py:181-198 | the loop stops at the first ticket whose issues fail, and runs through when none fails |
| DocumentViews.PairedIssuesLayout | backend/apps/documents/views.py:181-195 | on success the issues come in pairs, the Jira issue of ticket k before its GitLab issue |
| DocumentViews.PushLogSize | backend/apps/documents/views.py:181-198 | two issues per ticket on success; after a failure, two per earlier ticket plus the Jira issue when only GitLab refused |
| DocumentViews.UploadedStatus | backend/apps/documents/views.py:48-122 | after an upload the stored status is `PROCESSED` exactly for a `.pdf` with non-blank text, else the untouched `UNPROCESSED` row; `ERROR` is never stored |
| DocumentViews.UploadReportsError | backend/apps/documents/views.py:102-116 | the reply says `ERROR` exactly for a `.pdf` with failed or blank extraction; the stored row then stays `UNPROCESSED`; otherwise the reply states the stored status |
| DocumentViews.UploadReportsTickets | backend/apps/documents/views.py:94-100 | only a processed upload reports a ticket count and a preview; the count is the number of tickets created |
| DocumentViews.Store.AddTickets | backend/apps/tickets/ai_service.py:73-81 | the created tickets are appended, with fresh ids, belonging to the document |
| DocumentViews.Store.Upload | backend/apps/documents/views.py:36-129 | no file: 400 and nothing changes; failed create: 500 and nothing changes; otherwise one new row, its tickets appended, and the reply that goes with them |
| DocumentViews.Store.Process | backend/apps/documents/views.py:54-122 | a non-PDF, a failed extraction or blank text leave the new row as created; otherwise it becomes the processed row |
| DocumentViews.Store.SaveExtracted | backend/apps/documents/views.py:73-100 | the row ends with the content, summary, questions and `PROCESSED`; the generated tickets are stored |
| DocumentViews.Store.Create | backend/apps/documents/views.py:48-52 | a fresh id gets an `UNPROCESSED` row with the file name |
| DocumentViews.Store.Save | backend/apps/documents/views.py:76-92 | `save()` overwrites one row and nothing else |
| DocumentViews.Store.Push | backend/apps/documents/views.py:159-215 | a missing document gives 404; otherwise the status becomes `PUSHED` exactly when the setup and every ticket's issues succeed, and `FAILED` otherwise, whatever it was before; created issues are kept |
| DocumentViews.Store.Delete | backend/apps/tickets/models.py:17 | deleting a document deletes exactly its tickets and keeps the others in order |
| DocumentViews.PushFailure | backend/apps/documents/views.py:181-215 | the push fails exactly when some ticket's issues are refused |
| DocumentViews.CreateIssues | backend/apps/documents/views.py:181-198 | the loop reports the first refusal and creates the issues `PushLog` lists |
| DocumentViews.TicketsOfLayout | backend/apps/documents/views.py:181 | `document.tickets.all()` is exactly the document's tickets, in order |
| DocumentViews.TicketsNotOfLayout | backend/apps/tickets/models.py:17 | what a cascade delete keeps is exactly the other documents' tickets, in order |
| DocumentsPage.PriorityColourMeaning | ticketflowai-frontend/app/documents/page.tsx:50-61 | red for HIGH, yellow for MEDIUM, green for LOW, after upper-casing; gray for anything else |
| DocumentsPage.PriorityColourIgnoresCase | ticketflowai-frontend/app/documents/page.tsx:50-51 | any casing of a priority gets the same colour |
| DocumentsPage.PriorityColoursDistinct | ticketflowai-frontend/app/documents/page.tsx:50-61 | the three priorities get three different colours, none of them gray |
| DocumentsPage.StatusLabelMeaning | ticketflowai-frontend/app/documents/page.tsx:144-152 | each of the four named labels appears for its own status only |
| DocumentsPage.StatusBadgeMeaning | ticketflowai-frontend/app/documents/page.tsx:135-143 | green for PUSHED, blue for PROCESSED, red for FAILED, ERROR and UNPROCESSED, gray for anything outside the five |
| DocumentsPage.StatusLabelsDistinct | ticketflowai-frontend/app/documents/page.tsx:135-152 | the five statuses have five different labels, and none gets a gray pill |
| DocumentsPage.UnknownStatusLooksUnprocessed | ticketflowai-frontend/app/documents/page.tsx:135-152 | an unknown status has the same label as UNPROCESSED but a gray pill instead of red |
| DocumentsPage.StoredStatusNeverError | ticketflowai-frontend/app/documents/page.tsx:150-151 | a document of a store changed only by upload, push and delete never shows the Error label, because those handlers never store `ERROR` |
| DocumentsPage.EditGate | ticketflowai-frontend/app/documents/page.tsx:172-181 | the edit link is shown for `PROCESSED` only, not for pushed or failed documents |
| DocumentsPage.Toggled | ticketflowai-frontend/app/documents/page.tsx:185 | clicking the open document closes it; clicking any other one opens it |
| DocumentsPage.ToggleTwice | ticketflowai-frontend/app/documents/page.tsx:185 | two clicks on one document leave it open only if it was open before |
| DocumentsPage.CardShows | ticketflowai-frontend/app/documents/page.tsx:128-235 | a card counts all its tickets, links to the editor exactly for `PROCESSED`, and lists every ticket with its priority colour exactly when expanded |
| DocumentsPage.Lines | ticketflowai-frontend/app/documents/page.tsx:211-231 | the table has one line per ticket, in order |
| DocumentsPage.CardsOfLayout | ticketflowai-frontend/app/documents/page.tsx:128 | the k-th card is the k-th document's card |
| DocumentsPage.Render | ticketflowai-frontend/app/documents/page.tsx:63-124 | spinner while loading; then the empty prompt for no documents; otherwise one card per document |
| DocumentsPage.AtMostOneTable | ticketflowai-frontend/app/documents/page.tsx:199 | with distinct ids at most one table is shown, and none while nothing is expanded |
| DocumentsPage.NoTableBut | ticketflowai-frontend/app/documents/page.tsx:199 | no card shows a table when the expanded id belongs to no listed document |
| DocumentsPage.Page.constructor | ticketflowai-frontend/app/documents/page.tsx:31-33 | the page starts loading, with no documents and nothing expanded, and shows the spinner |
| DocumentsPage.Page.Settle | ticketflowai-frontend/app/documents/page.tsx:35-48 | loading ends in both cases; only a successful fetch replaces the documents |
| DocumentsPage.Page.Click | ticketflowai-frontend/app/documents/page.tsx:185 | a click toggles the expanded document and changes nothing else |
| DocumentsPage.Load | ticketflowai-frontend/app/documents/page.tsx:31-48 | on a fresh page, a failed fetch shows the same empty prompt as an empty one; a non-empty fetch shows its cards |
| AuthViews.SplitName | backend/apps/auth/views.py:75-76 | a blank name raises `IndexError`; otherwise the first name is the first word |
| AuthViews.NameSplitKeepsWords | backend/apps/auth/views.py:75-76 | the name's words are the first name followed by the last name's words; the last name is those words joined by single spaces, and is empty exactly for a one-word name |
| AuthViews.SplitOfJoinedName | backend/apps/auth/views.py:75-76 | a name made of words joined by spaces splits back into its first word and the rest re-joined |
| AuthViews.FindByEmail | backend/apps/auth/views.py:71-72 | the position of a user with the email, before which none has it, or that no user has it |
| AuthViews.CountEmail | backend/apps/auth/views.py:71-72 | no user matches exactly when the lookup finds none |
| AuthViews.OnlyMatchIsFound | backend/apps/auth/views.py:71-72 | when exactly one user has the email, the lookup finds that user |
| AuthViews.CountEmailAppend | backend/apps/auth/views.py:71-78 | adding a user adds one to the count of its email only |
| AuthViews.GetOrCreateOutcome | backend/apps/auth/views.py:71-78 | two users with the email raise `MultipleObjectsReturned`; one is returned, not created; with none, a user is created from the email and defaults under the next id, unless the username is taken, which raises `IntegrityError` |
| AuthViews.GetOrCreateIsIdempotent | backend/apps/auth/views.py:71-78 | a second sign-in with the same email returns the same user and creates nothing, whatever the defaults |
| AuthViews.UserTable.GetOrCreate | backend/apps/auth/views.py:71-78 | the table changes exactly as `GetOrCreateOutcome` says, and usernames stay unique and ids fresh |
| AuthViews.UserTable.GitLabCallback | backend/apps/auth/views.py:52-96 | a non-200 token exchange or profile fetch gives 400 "Authentication failed"; a blank name raises `IndexError` even for a known user, and both cases change nothing; otherwise the get-or-create exception escapes, or its user is signed in with a token minted for it |
| AuthViews.VerifyToken | backend/apps/auth/views.py:20-28 | the reply always says authenticated, for the fixed test user 1 |
| AuthViews.VerifyTokenIgnoresRequest | backend/apps/auth/views.py:11-28 | every request gets the same reply |

## Left out

- **PDF extraction** (`fitz`): the page texts, or the exception text, are an input (`Extraction`).
- **Network clients**: the OpenAI, Jira and GitLab clients are inputs.
  - The replies and the per-ticket Jira/GitLab outcome are inputs.
  - A failure of the client set-up or of `gitlab_project` is a `setupError` input.
  - The GitLab project id is not modelled.
- **`json.loads`**: it is the parameter `decode`. The model starts from parsed JSON values.
- **Text truncation in prompts**: the prompt texts and their `content[:4000]` slice only feed the language model, so they are not modelled.
- **`float(...)`**: the conversion of `estimated_hours` is floating point.
  - A JSON number is taken as is.
  - Any other value counts as a failed conversion, although Python would parse a numeric string.
- **Non-string title, description or priority**: these count as a failed entry. Python would slice a list title, and the ORM would store `str()` of a description.
- **Case conversion**: Python `upper`/`lower` and JavaScript `toUpperCase` are modelled on ASCII letters only.
- **Database**:
  - Ticket inserts are assumed to succeed.
  - A failing `Document.objects.create` is the `createError` input.
  - Column lengths and choices are not enforced, and neither is the ORM.
- **Store.SaveExtracted**: the `document.save()` calls of `upload` (backend/apps/documents/views.py:76-92) are assumed to succeed. If one raised, the handler at lines 110-116 would reply `ERROR` while the content, and any tickets already created, stay stored; the model does not produce that reply.
- **TicketsOf**: the tickets of a document are listed in the order they were inserted. `document.tickets.all()` has no `ORDER BY`, and the ticket model's options are empty after backend/apps/tickets/migrations/0002_alter_ticket_options_remove_ticket_estimate_and_more.py:15, so the database may return them in another order; the model assumes insertion order.
- **Store.Push**: the per-ticket outcome is a function of the ticket's position, because the outcome of a service call cannot be known in advance.
- StoredStatusNeverError: holds only for the handlers modelled here. `DocumentViewSet` is a `ModelViewSet` (backend/apps/documents/views.py:14), and `DocumentSerializer` lists `jira_status` as a writable field (backend/apps/documents/serializers.py:10). So the inherited `create`, `update` and `partial_update` handlers can store `ERROR`, or any other text, and the list page would then show the Error label.
- **Inherited `create`, `update` and `partial_update`**: these generic handlers of the document view set write any serializer field, `jira_status` included, and are not modelled. The `Store` invariant that no document is in `ERROR` is a property of upload, push and delete only.
- **Other handlers and files**: these are framework glue or file serving.
  - `list`, `retrieve`, `content`, `view_pdf`, `jira_projects` and `gitlab_projects`.
  - backend/apps/documents/tasks.py, the migrations, serializers, urls and admin files.
  - backend/apps/tickets/views.py.
- **Frontend**:
  - The sign-in pages, the upload page, the layout and the API client are not part of this model.
  - The per-document editing page ticketflowai-frontend/app/documents/[id]/page.tsx is not part of this model.
  - Dates, icons and other presentation details of the list are not modelled.
- **Sign-in**:
  - The OAuth code, client secrets and request bodies are left out, as are the `print` output and the access token passed to the profile request.
  - A present but non-string `name` is not modelled.
  - A missing `email` or `username` key in the profile is not modelled.
- **GetOrCreate**: `get_or_create` retries its lookup after an `IntegrityError`, which only finds a user when another request inserted the same email meanwhile; requests are sequential here, so the error always escapes.
- **Asynchrony**: the fetch effect is a single settled outcome, and request races are not modelled.
- **Logging**: the `print` and `console.error` calls are output only.
