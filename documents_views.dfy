/**
 * The document handlers of backend/apps/documents/views.py: `upload`, which
 * creates a document and drives its status, and `push_to_jira_and_gitlab`,
 * which creates one Jira issue and one GitLab issue per ticket. The
 * database is the class `Store`; PDF extraction, the language model and
 * the issue trackers are inputs.
 */
module DocumentViews {
  import opened Wrappers
  import opened Text
  import opened Json
  import opened Selection
  import opened AiService
  import D = DocumentModels
  import T = TicketModels

  // ---------------------------------------------------------------------
  // Text extraction

  /** Every page's text followed by a line break, in page order. */
  function PageText(pages: seq<string>): string {
    if pages == [] then []
    else PageText(pages[..|pages| - 1]) + pages[|pages| - 1] + "\n"
  }

  /** Extraction concatenates: the text of two runs of pages is the two texts joined. */
  lemma {:induction false} PageTextAppend(a: seq<string>, b: seq<string>)
    ensures PageText(a + b) == PageText(a) + PageText(b)
  {
    if b == [] {
      assert a + b == a;
    } else {
      var b0 := b[..|b| - 1];
      assert (a + b)[..|a + b| - 1] == a + b0;
      PageTextAppend(a, b0);
    }
  }

  /** The extracted text is blank exactly when every page's text is blank (or there are no pages). */
  lemma {:induction false} PageTextBlank(pages: seq<string>)
    ensures AllSpace(PageText(pages)) <==> forall i :: 0 <= i < |pages| ==> AllSpace(pages[i])
  {
    if pages != [] {
      var init, last := pages[..|pages| - 1], pages[|pages| - 1];
      PageTextBlank(init);
      AllSpaceConcat(PageText(init) + last, "\n");
      AllSpaceConcat(PageText(init), last);
      assert IsSpace('\n');
      assert forall i :: 0 <= i < |init| ==> init[i] == pages[i];
    }
  }

  /** The page loop of `upload`: `content += page.get_text() + "\n"`. */
  method ExtractContent(pages: seq<string>) returns (content: string)
    ensures content == PageText(pages)
  {
    content := "";
    var i := 0;
    while i < |pages|
      invariant 0 <= i <= |pages|
      invariant content == PageText(pages[..i])
    {
      assert pages[..i + 1][..i] == pages[..i];
      content := content + pages[i] + "\n";
      i := i + 1;
    }
    assert pages[..i] == pages;
  }

  /** What PDF extraction gives: each page's text, or the exception it raised. */
  datatype Extraction = Pages(texts: seq<string>) | ExtractFailed(reason: string)

  /** The PDF has text worth processing: `content.strip()` is not empty. */
  predicate HasText(e: Extraction) {
    e.Pages? && !AllSpace(PageText(e.texts))
  }

  const PreviewLength := 500

  /** `content_preview`: the first 500 characters and `...` for longer content, else all of it. */
  function Preview(content: string): (r: string)
    ensures |content| <= PreviewLength ==> r == content
    ensures |content| > PreviewLength ==>
      |r| == PreviewLength + 3 && StartsWith(content, r[..PreviewLength]) && EndsWith(r, "...")
  {
    if |content| > PreviewLength then content[..PreviewLength] + "..." else content
  }

  /** Only a name ending exactly in `.pdf` is extracted; `.PDF` is not. */
  predicate IsPdf(fileName: string) {
    EndsWith(fileName, ".pdf")
  }

  // ---------------------------------------------------------------------
  // Responses

  const HttpOk := 200
  const HttpCreated := 201
  const HttpBadRequest := 400
  const HttpNotFound := 404
  const HttpServerError := 500

  /** The body and status code of an `upload` response. */
  datatype UploadResponse =
    | UploadRejected(code: nat, error: string)
    | UploadAccepted(code: nat, id: nat, message: string, jiraStatus: D.JiraStatus,
                     ticketsCount: Option<nat>, contentPreview: Option<string>)

  const NoFileError := "No file provided"
  const ExtractedMessage := "Content extracted and tickets generated successfully"
  const NoTextMessage := "PDF uploaded but no text content extracted"
  const ExtractFailedPrefix := "PDF upload successful but extraction failed: "
  const UploadedMessage := "Document uploaded successfully"

  /** The rows `Ticket.objects.create` inserts for one document, numbered from `firstId`. */
  function TicketRows(firstId: nat, document: nat, created: seq<TicketFields>): (r: seq<T.Ticket>)
    ensures |r| == |created|
  {
    seq(|created|, k requires 0 <= k < |created| =>
      T.NewTicket(firstId + k, document, created[k].title, created[k].description,
                  created[k].priority, Some(created[k].estimatedHours)))
  }

  /** The ticket belongs to `document`: its foreign key. */
  function BelongsTo(document: nat): T.Ticket -> bool {
    (t: T.Ticket) => t.document == document
  }

  /** The ticket belongs to another document. */
  function BelongsElsewhere(document: nat): T.Ticket -> bool {
    (t: T.Ticket) => t.document != document
  }

  /** The tickets of one document, in table order: `document.tickets.all()`. */
  function TicketsOf(tickets: seq<T.Ticket>, document: nat): seq<T.Ticket> {
    Select(KeepIf(BelongsTo(document)), tickets)
  }

  /** The tickets that survive deleting one document: `on_delete=CASCADE`. */
  function TicketsNotOf(tickets: seq<T.Ticket>, document: nat): seq<T.Ticket> {
    Select(KeepIf(BelongsElsewhere(document)), tickets)
  }

  // ---------------------------------------------------------------------
  // Issue creation

  /** What one ticket's two issue-creation calls did. */
  datatype IssueOutcome =
    | JiraRejects(error: string)
    | GitLabRejects(jiraKey: string, error: string)
    | BothCreated(jiraKey: string)

  /** An issue created in one of the trackers. */
  datatype Issue =
    | JiraIssue(project: string, summary: string, description: string, issueType: string)
    | GitLabIssue(title: string, description: string, labels: seq<string>)

  const IssueType := "Task"
  const JiraReference := "\n\nJira Reference: "

  /** `jira.create_issue(...)` for one ticket. */
  function JiraIssueFor(project: string, t: T.Ticket): (i: Issue)
    ensures i.JiraIssue? && i.summary == t.title && i.description == t.description
  {
    JiraIssue(project, t.title, t.description, IssueType)
  }

  /** `gitlab_project.issues.create(...)` for one ticket, citing its Jira key. */
  function GitLabIssueFor(t: T.Ticket, jiraKey: string): (i: Issue)
    ensures i.GitLabIssue? && i.title == t.title
    ensures StartsWith(i.description, t.description) && EndsWith(i.description, JiraReference + jiraKey)
    ensures |i.description| == |t.description| + |JiraReference| + |jiraKey|
    ensures i.labels == [Lower(t.priority)]
  {
    GitLabIssue(t.title, t.description + JiraReference + jiraKey, [Lower(t.priority)])
  }

  /**
   * A ticket whose priority was upper-cased from the model's `given` text
   * is labelled with `given` lower-cased, whatever its case.
   */
  lemma GitLabLabelIgnoresCase(t: T.Ticket, given: string, jiraKey: string)
    requires t.priority == Upper(given)
    ensures GitLabIssueFor(t, jiraKey).labels == [Lower(given)]
  {
    LowerOfUpper(given);
  }

  /** The position of the first ticket whose issues were not both created, among the first `n`. */
  function FirstFailure(n: nat, outcome: nat -> IssueOutcome): (r: Option<nat>)
    ensures r.None? <==> forall k :: 0 <= k < n ==> outcome(k).BothCreated?
    ensures r.Some? ==> r.value < n && !outcome(r.value).BothCreated?
    ensures r.Some? ==> forall k :: 0 <= k < r.value ==> outcome(k).BothCreated?
  {
    if n == 0 then None
    else match FirstFailure(n - 1, outcome)
      case Some(k) => Some(k)
      case None => if outcome(n - 1).BothCreated? then None else Some(n - 1)
  }

  /** The issues of tickets whose calls all succeeded: a Jira issue, then its GitLab issue, per ticket. */
  function PairedIssues(project: string, ts: seq<T.Ticket>, outcome: nat -> IssueOutcome): seq<Issue>
    requires forall k :: 0 <= k < |ts| ==> outcome(k).BothCreated?
  {
    if ts == [] then []
    else
      var n := |ts| - 1;
      PairedIssues(project, ts[..n], outcome)
        + [JiraIssueFor(project, ts[n]), GitLabIssueFor(ts[n], outcome(n).jiraKey)]
  }

  /**
   * Everything a push creates: the pairs of the tickets before the first
   * failure, then the Jira issue of the failing ticket if only GitLab
   * refused it. Nothing created is ever removed.
   */
  function PushLog(project: string, ts: seq<T.Ticket>, outcome: nat -> IssueOutcome): seq<Issue> {
    match FirstFailure(|ts|, outcome)
    case None => PairedIssues(project, ts, outcome)
    case Some(k) =>
      PairedIssues(project, ts[..k], outcome)
        + (if outcome(k).GitLabRejects? then [JiraIssueFor(project, ts[k])] else [])
  }

  /** The pairs are laid out ticket by ticket: position `2k` is ticket `k`'s Jira issue, `2k+1` its GitLab issue. */
  lemma {:induction false} PairedIssuesLayout(project: string, ts: seq<T.Ticket>, outcome: nat -> IssueOutcome)
    requires forall k :: 0 <= k < |ts| ==> outcome(k).BothCreated?
    ensures |PairedIssues(project, ts, outcome)| == 2 * |ts|
    ensures forall k :: 0 <= k < |ts| ==>
      && PairedIssues(project, ts, outcome)[2 * k] == JiraIssueFor(project, ts[k])
      && PairedIssues(project, ts, outcome)[2 * k + 1] == GitLabIssueFor(ts[k], outcome(k).jiraKey)
  {
    if ts != [] {
      var n := |ts| - 1;
      var init := ts[..n];
      PairedIssuesLayout(project, init, outcome);
      var p := PairedIssues(project, ts, outcome);
      var q := PairedIssues(project, init, outcome);
      forall k | 0 <= k < |ts|
        ensures p[2 * k] == JiraIssueFor(project, ts[k])
        ensures p[2 * k + 1] == GitLabIssueFor(ts[k], outcome(k).jiraKey)
      {
        if k < n {
          assert p[2 * k] == q[2 * k] && p[2 * k + 1] == q[2 * k + 1];
          assert init[k] == ts[k];
        }
      }
    }
  }

  /**
   * What a push leaves behind: on success two issues per ticket; after a
   * failure at ticket `k`, the `2k` issues of the tickets before it stay,
   * plus one Jira issue when only GitLab failed.
   */
  lemma PushLogSize(project: string, ts: seq<T.Ticket>, outcome: nat -> IssueOutcome)
    ensures FirstFailure(|ts|, outcome).None? ==> |PushLog(project, ts, outcome)| == 2 * |ts|
    ensures FirstFailure(|ts|, outcome).Some? ==>
      var k := FirstFailure(|ts|, outcome).value;
      |PushLog(project, ts, outcome)| == 2 * k + (if outcome(k).GitLabRejects? then 1 else 0)
  {
    match FirstFailure(|ts|, outcome)
    case None => PairedIssuesLayout(project, ts, outcome);
    case Some(k) => PairedIssuesLayout(project, ts[..k], outcome);
  }

  /** The body and status code of a push response. */
  datatype PushResponse =
    | DocumentNotFound(code: nat)
    | PushSucceeded(code: nat, message: string)
    | PushFailed(code: nat, error: string)

  const PushedMessage := "Successfully pushed to Jira and GitLab"

  // ---------------------------------------------------------------------
  // What `upload` promises

  /** The row `upload` leaves behind for a file called `name` once it has been created. */
  function UploadedRow(name: string, extraction: Extraction,
                       summaryReply: Option<string>, questionsReply: Option<string>): D.Document
  {
    if IsPdf(name) && HasText(extraction) then
      D.Document(name, Some(PageText(extraction.texts)), D.Processed,
                 Some(ScopeSummary(summaryReply)), Some(ClarifyingQuestions(questionsReply)))
    else D.NewDocument(name)
  }

  /** The tickets `upload` generates for a file called `name`. */
  function UploadedTickets(name: string, extraction: Extraction,
                           ticketReply: Option<string>, decode: string -> Option<Value>): seq<TicketFields>
  {
    if IsPdf(name) && HasText(extraction) then Select(Admit, ReplyEntries(ticketReply, decode)) else []
  }

  /** The `201` response of `upload` for document `id`, given how many tickets were generated. */
  function UploadReply(id: nat, name: string, extraction: Extraction, ticketsCount: nat): UploadResponse {
    if !IsPdf(name) then UploadAccepted(HttpCreated, id, UploadedMessage, D.Unprocessed, None, None)
    else match extraction
      case ExtractFailed(reason) =>
        UploadAccepted(HttpCreated, id, ExtractFailedPrefix + reason, D.Error, None, None)
      case Pages(texts) =>
        if AllSpace(PageText(texts)) then UploadAccepted(HttpCreated, id, NoTextMessage, D.Error, None, None)
        else UploadAccepted(HttpCreated, id, ExtractedMessage, D.Processed, Some(ticketsCount),
                            Some(Preview(PageText(texts))))
  }

  /**
   * The stored status after an upload is `PROCESSED` exactly for a `.pdf`
   * with non-blank text, and `UNPROCESSED` otherwise: `ERROR` is never stored.
   */
  lemma UploadedStatus(name: string, extraction: Extraction, summaryReply: Option<string>,
                       questionsReply: Option<string>)
    ensures var row := UploadedRow(name, extraction, summaryReply, questionsReply);
      && row.fileName == name
      && (row.jiraStatus == D.Processed <==> IsPdf(name) && HasText(extraction))
      && (row.jiraStatus != D.Processed ==> row == D.NewDocument(name))
      && row.jiraStatus != D.Error
  {
  }

  /**
   * The response reports `ERROR` exactly for a `.pdf` whose extraction
   * failed or gave blank text, and in exactly those cases the stored row
   * still says `UNPROCESSED`. Otherwise it reports the stored status.
   */
  lemma UploadReportsError(id: nat, name: string, extraction: Extraction, ticketsCount: nat,
                           summaryReply: Option<string>, questionsReply: Option<string>)
    ensures var reply := UploadReply(id, name, extraction, ticketsCount);
      var row := UploadedRow(name, extraction, summaryReply, questionsReply);
      && reply.UploadAccepted? && reply.code == HttpCreated && reply.id == id
      && (reply.jiraStatus == D.Error <==> IsPdf(name) && !HasText(extraction))
      && (reply.jiraStatus == D.Error ==> row.jiraStatus == D.Unprocessed)
      && (reply.jiraStatus != D.Error ==> reply.jiraStatus == row.jiraStatus)
  {
  }

  /** Only a processed upload reports a ticket count and a preview, and the count is that of the generated tickets. */
  lemma UploadReportsTickets(id: nat, name: string, extraction: Extraction,
                             ticketReply: Option<string>, decode: string -> Option<Value>)
    ensures var created := UploadedTickets(name, extraction, ticketReply, decode);
      var reply := UploadReply(id, name, extraction, |created|);
      && (reply.ticketsCount.Some? <==> IsPdf(name) && HasText(extraction))
      && (reply.ticketsCount.Some? ==>
            reply.ticketsCount.value == |created| && reply.contentPreview == Some(Preview(PageText(extraction.texts))))
      && (!(IsPdf(name) && HasText(extraction)) ==> created == [])
  {
  }

  // ---------------------------------------------------------------------
  // The database

  /** A stored ticket as the AI service writes it. */
  predicate GeneratedTicket(t: T.Ticket) {
    T.TitleFits(t) && NoLowerCase(t.priority) && t.status == T.StatusCode(T.DefaultStatus)
  }

  /** The documents and tickets tables, with the next primary keys they hand out. */
  class Store {
    var documents: map<nat, D.Document>
    var tickets: seq<T.Ticket>
    var nextDocumentId: nat
    var nextTicketId: nat

    /**
     * Keys lie below the next key; upload, push and delete never store
     * `ERROR`, so no document of this store is in it;
     * every ticket belongs to a stored document and is one the AI service
     * wrote; ticket keys increase in table order.
     */
    ghost predicate Valid()
      reads this
    {
      && (forall id :: id in documents ==> id < nextDocumentId && documents[id].jiraStatus != D.Error)
      && (forall i :: 0 <= i < |tickets| ==>
            tickets[i].document in documents && tickets[i].id < nextTicketId && GeneratedTicket(tickets[i]))
      && (forall i, j :: 0 <= i < j < |tickets| ==> tickets[i].id < tickets[j].id)
    }

    constructor ()
      ensures Valid()
      ensures documents == map[] && tickets == []
    {
      documents := map[];
      tickets := [];
      nextDocumentId := 0;
      nextTicketId := 0;
    }

    /** Adds the generated tickets of document `id`, keeping the invariant. */
    method AddTickets(id: nat, created: seq<TicketFields>)
      requires Valid() && id in documents
      requires forall k :: 0 <= k < |created| ==>
        |created[k].title| <= T.MaxTitleLength && NoLowerCase(created[k].priority)
      modifies this
      ensures Valid()
      ensures tickets == old(tickets) + TicketRows(old(nextTicketId), id, created)
      ensures nextTicketId == old(nextTicketId) + |created|
      ensures documents == old(documents) && nextDocumentId == old(nextDocumentId)
    {
      var rows := TicketRows(nextTicketId, id, created);
      assert forall k :: 0 <= k < |rows| ==> rows[k].id == nextTicketId + k && GeneratedTicket(rows[k]);
      tickets := tickets + rows;
      nextTicketId := nextTicketId + |created|;
    }

    /**
     * `upload`: reject a request without a file, create the row (a failure
     * there is a `500`), then process it as `UploadedRow`,
     * `UploadedTickets` and `UploadReply` describe.
     */
    method Upload(file: Option<string>, createError: Option<string>, extraction: Extraction,
                  ticketReply: Option<string>, summaryReply: Option<string>,
                  questionsReply: Option<string>, decode: string -> Option<Value>)
      returns (r: UploadResponse)
      requires Valid()
      modifies this
      ensures Valid()
      ensures file.None? ==>
        r == UploadRejected(HttpBadRequest, NoFileError) && unchanged(this)
      ensures file.Some? && createError.Some? ==>
        r == UploadRejected(HttpServerError, createError.value) && unchanged(this)
      ensures file.Some? && createError.None? ==>
        var id := old(nextDocumentId);
        var created := UploadedTickets(file.value, extraction, ticketReply, decode);
        && id !in old(documents)
        && nextDocumentId == id + 1
        && documents == old(documents)[id := UploadedRow(file.value, extraction, summaryReply, questionsReply)]
        && tickets == old(tickets) + TicketRows(old(nextTicketId), id, created)
        && nextTicketId == old(nextTicketId) + |created|
        && r == UploadReply(id, file.value, extraction, |created|)
    {
      if file.None? {
        return UploadRejected(HttpBadRequest, NoFileError);
      }
      if createError.Some? {
        return UploadRejected(HttpServerError, createError.value);
      }
      ghost var before := documents;
      var id := Create(file.value);
      r := Process(id, file.value, extraction, ticketReply, summaryReply, questionsReply, decode);
      UpdateTwice(before, id, D.NewDocument(file.value), UploadedRow(file.value, extraction, summaryReply, questionsReply));
    }

    /** Everything `upload` does once the row for `name` exists as document `id`. */
    method Process(id: nat, name: string, extraction: Extraction,
                   ticketReply: Option<string>, summaryReply: Option<string>,
                   questionsReply: Option<string>, decode: string -> Option<Value>)
      returns (r: UploadResponse)
      requires Valid() && id in documents && documents[id] == D.NewDocument(name)
      modifies this
      ensures Valid()
      ensures var created := UploadedTickets(name, extraction, ticketReply, decode);
        && documents == old(documents)[id := UploadedRow(name, extraction, summaryReply, questionsReply)]
        && tickets == old(tickets) + TicketRows(old(nextTicketId), id, created)
        && nextTicketId == old(nextTicketId) + |created|
        && nextDocumentId == old(nextDocumentId)
        && r == UploadReply(id, name, extraction, |created|)
    {
      if !IsPdf(name) || extraction.ExtractFailed? {
        assert documents == documents[id := D.NewDocument(name)];
        return UploadReply(id, name, extraction, 0);
      }
      var content := ExtractContent(extraction.texts);
      StripEmpty(content);
      if Strip(content) == [] {
        assert documents == documents[id := D.NewDocument(name)];
        return UploadReply(id, name, extraction, 0);
      }
      r := SaveExtracted(id, name, content, ticketReply, summaryReply, questionsReply, decode);
    }

    /**
     * The non-blank branch of `upload`: save the content, generate the
     * tickets, save the summary and the questions, then `PROCESSED`.
     */
    method SaveExtracted(id: nat, name: string, content: string,
                         ticketReply: Option<string>, summaryReply: Option<string>,
                         questionsReply: Option<string>, decode: string -> Option<Value>)
      returns (r: UploadResponse)
      requires Valid() && id in documents && documents[id] == D.NewDocument(name)
      modifies this
      ensures Valid()
      ensures var created := Select(Admit, ReplyEntries(ticketReply, decode));
        && documents == old(documents)[id := D.Document(name, Some(content), D.Processed,
                                   Some(ScopeSummary(summaryReply)), Some(ClarifyingQuestions(questionsReply)))]
        && tickets == old(tickets) + TicketRows(old(nextTicketId), id, created)
        && nextTicketId == old(nextTicketId) + |created|
        && nextDocumentId == old(nextDocumentId)
        && r == UploadAccepted(HttpCreated, id, ExtractedMessage, D.Processed, Some(|created|), Some(Preview(content)))
    {
      ghost var before := documents;
      var document := documents[id].(content := Some(content));
      Save(id, document);
      var created := GenerateTickets(ticketReply, decode);
      GeneratedTicketsAreNormalised(ReplyEntries(ticketReply, decode));
      AddTickets(id, created);
      var summary := ScopeSummary(summaryReply);
      var questions := ClarifyingQuestions(questionsReply);
      UpdateTwice(before, id, document, document.(scopeSummary := Some(summary)));
      document := document.(scopeSummary := Some(summary));
      Save(id, document);
      UpdateTwice(before, id, document, document.(clarifyingQuestions := Some(questions)));
      document := document.(clarifyingQuestions := Some(questions));
      Save(id, document);
      UpdateTwice(before, id, document, document.(jiraStatus := D.Processed));
      document := document.(jiraStatus := D.Processed);
      Save(id, document);
      r := UploadAccepted(HttpCreated, id, ExtractedMessage, D.Processed, Some(|created|), Some(Preview(content)));
    }

    /** `Document.objects.create(file_name=name)`: a new row under the next key. */
    method Create(name: string) returns (id: nat)
      requires Valid()
      modifies this
      ensures Valid()
      ensures id == old(nextDocumentId) && id !in old(documents) && nextDocumentId == id + 1
      ensures documents == old(documents)[id := D.NewDocument(name)]
      ensures tickets == old(tickets) && nextTicketId == old(nextTicketId)
    {
      id := nextDocumentId;
      documents := documents[id := D.NewDocument(name)];
      nextDocumentId := id + 1;
    }

    /** `document.save()`: the row `id` takes the new field values. */
    method Save(id: nat, document: D.Document)
      requires Valid() && id in documents && document.jiraStatus != D.Error
      modifies this
      ensures Valid()
      ensures documents == old(documents)[id := document]
      ensures tickets == old(tickets) && nextTicketId == old(nextTicketId)
      ensures nextDocumentId == old(nextDocumentId)
    {
      documents := documents[id := document];
    }

    /**
     * `push_to_jira_and_gitlab`. Whatever the document's status, each of its
     * tickets gets a Jira issue and then a GitLab issue, in table order; the
     * first failure stops the loop. The status becomes `PUSHED` when every
     * ticket got both issues and `FAILED` otherwise; created issues are kept.
     */
    method Push(id: nat, project: string, setupError: Option<string>, outcome: nat -> IssueOutcome)
      returns (r: PushResponse, issues: seq<Issue>)
      requires Valid()
      modifies this
      ensures Valid()
      ensures tickets == old(tickets) && nextTicketId == old(nextTicketId)
      ensures nextDocumentId == old(nextDocumentId)
      ensures id !in old(documents) ==>
        r == DocumentNotFound(HttpNotFound) && issues == [] && documents == old(documents)
      ensures id in old(documents) ==>
        var ts := TicketsOf(old(tickets), id);
        var failure := PushFailure(ts, outcome);
        var ok := setupError.None? && failure.None?;
        && documents == old(documents)[id := old(documents)[id].(jiraStatus := if ok then D.Pushed else D.Failed)]
        && (setupError.Some? ==> issues == [] && r == PushFailed(HttpServerError, setupError.value))
        && (setupError.None? ==> issues == PushLog(project, ts, outcome))
        && (ok ==> r == PushSucceeded(HttpOk, PushedMessage))
        && (setupError.None? && failure.Some? ==> r == PushFailed(HttpServerError, failure.value))
    {
      if id !in documents {
        return DocumentNotFound(HttpNotFound), [];
      }
      if setupError.Some? {
        Save(id, documents[id].(jiraStatus := D.Failed));
        return PushFailed(HttpServerError, setupError.value), [];
      }
      var failure;
      failure, issues := CreateIssues(project, TicketsOf(tickets, id), outcome);
      if failure.Some? {
        Save(id, documents[id].(jiraStatus := D.Failed));
        r := PushFailed(HttpServerError, failure.value);
      } else {
        Save(id, documents[id].(jiraStatus := D.Pushed));
        r := PushSucceeded(HttpOk, PushedMessage);
      }
    }

    /** `destroy`: the document goes, and its tickets with it. */
    method Delete(id: nat) returns (found: bool)
      requires Valid()
      modifies this
      ensures Valid()
      ensures found <==> id in old(documents)
      ensures documents == old(documents) - {id}
      ensures tickets == TicketsNotOf(old(tickets), id)
      ensures nextDocumentId == old(nextDocumentId) && nextTicketId == old(nextTicketId)
    {
      found := id in documents;
      TicketsNotOfKeepsTable(tickets, documents, nextTicketId, id);
      documents := documents - {id};
      tickets := TicketsNotOf(tickets, id);
    }
  }

  /** Saving a row twice leaves only the second save. */
  lemma UpdateTwice<K, V>(m: map<K, V>, k: K, a: V, b: V)
    ensures m[k := a][k := b] == m[k := b]
  {
  }

  /** The first failure among `n` tickets is at `i` when all before `i` succeeded and `i` did not. */
  lemma FirstFailureAt(n: nat, outcome: nat -> IssueOutcome, i: nat)
    requires i < n && !outcome(i).BothCreated?
    requires forall k :: 0 <= k < i ==> outcome(k).BothCreated?
    ensures FirstFailure(n, outcome) == Some(i)
  {
  }

  /** The error that stopped the ticket loop, if any. */
  function PushFailure(ts: seq<T.Ticket>, outcome: nat -> IssueOutcome): (r: Option<string>)
    ensures r.None? <==> forall k :: 0 <= k < |ts| ==> outcome(k).BothCreated?
  {
    match FirstFailure(|ts|, outcome)
    case None => None
    case Some(k) => Some(outcome(k).error)
  }

  /**
   * The ticket loop of `push_to_jira_and_gitlab`: for each ticket in order,
   * the Jira issue, then the GitLab issue citing the Jira key; the first
   * call that raises ends the loop with its error.
   */
  method CreateIssues(project: string, ts: seq<T.Ticket>, outcome: nat -> IssueOutcome)
    returns (failure: Option<string>, issues: seq<Issue>)
    ensures failure == PushFailure(ts, outcome)
    ensures issues == PushLog(project, ts, outcome)
  {
    issues := [];
    failure := None;
    var i := 0;
    while i < |ts| && failure.None?
      invariant 0 <= i <= |ts|
      invariant forall k :: 0 <= k < i ==> outcome(k).BothCreated?
      invariant failure.None? ==> issues == PairedIssues(project, ts[..i], outcome)
      invariant failure.Some? ==>
        && i < |ts| && FirstFailure(|ts|, outcome) == Some(i)
        && failure.value == outcome(i).error
        && issues == PushLog(project, ts, outcome)
      decreases |ts| - i, if failure.None? then 1 else 0
    {
      var t := ts[i];
      assert ts[..i + 1][..i] == ts[..i] && ts[..i + 1][i] == t;
      match outcome(i)
      case JiraRejects(e) =>
        FirstFailureAt(|ts|, outcome, i);
        failure := Some(e);
      case GitLabRejects(key, e) =>
        FirstFailureAt(|ts|, outcome, i);
        issues := issues + [JiraIssueFor(project, t)];
        failure := Some(e);
      case BothCreated(key) =>
        issues := issues + [JiraIssueFor(project, t), GitLabIssueFor(t, key)];
        i := i + 1;
    }
    if failure.None? {
      assert ts[..i] == ts;
    }
  }

  /** A push sees exactly the document's tickets, in table order. */
  lemma TicketsOfLayout(tickets: seq<T.Ticket>, document: nat)
    ensures var mine, from := TicketsOf(tickets, document), Survivors(KeepIf(BelongsTo(document)), tickets);
      && (forall k :: 0 <= k < |mine| ==> mine[k] == tickets[from[k]] && mine[k].document == document)
      && (forall i :: 0 <= i < |tickets| && tickets[i].document == document ==> i in from)
      && (forall k, l :: 0 <= k < l < |from| ==> from[k] < from[l])
  {
    FilterLayout(BelongsTo(document), tickets);
  }

  /** The tickets left after removing a document's belong to the other documents and keep their order. */
  lemma TicketsNotOfKeepsTable(tickets: seq<T.Ticket>, documents: map<nat, D.Document>, nextTicketId: nat, id: nat)
    requires forall i :: 0 <= i < |tickets| ==>
      tickets[i].document in documents && tickets[i].id < nextTicketId && GeneratedTicket(tickets[i])
    requires forall i, j :: 0 <= i < j < |tickets| ==> tickets[i].id < tickets[j].id
    ensures var rest := TicketsNotOf(tickets, id);
      && (forall i :: 0 <= i < |rest| ==>
            rest[i].document in documents - {id} && rest[i].id < nextTicketId && GeneratedTicket(rest[i]))
      && (forall i, j :: 0 <= i < j < |rest| ==> rest[i].id < rest[j].id)
  {
    TicketsNotOfLayout(tickets, id);
  }

  /** The cascade of a delete keeps exactly the other documents' tickets, in table order. */
  lemma TicketsNotOfLayout(tickets: seq<T.Ticket>, document: nat)
    ensures var rest, from := TicketsNotOf(tickets, document), Survivors(KeepIf(BelongsElsewhere(document)), tickets);
      && (forall k :: 0 <= k < |rest| ==> rest[k] == tickets[from[k]] && rest[k].document != document)
      && (forall i :: 0 <= i < |tickets| && tickets[i].document != document ==> i in from)
      && (forall k, l :: 0 <= k < l < |from| ==> from[k] < from[l])
  {
    FilterLayout(BelongsElsewhere(document), tickets);
  }
}
