/** The `Document` record of backend/apps/documents/models.py. */
module DocumentModels {
  import opened Wrappers
  import opened Text

  /** The five choices of `jira_status`. */
  datatype JiraStatus = Unprocessed | Processed | Pushed | Failed | Error

  /** `jira_status` is a `CharField(max_length=20)`. */
  const MaxStatusLength := 20
  /** `jira_status` defaults to `UNPROCESSED`. */
  const DefaultStatus := Unprocessed
  /** `file_name` is a `CharField(max_length=255, default='untitled')`. */
  const MaxFileNameLength := 255
  const DefaultFileName := "untitled"

  /** The text stored in the column and served to the browser. */
  function StatusCode(s: JiraStatus): (r: string)
    ensures 0 < |r| <= MaxStatusLength
    ensures NoLowerCase(r)
  {
    match s
    case Unprocessed => "UNPROCESSED"
    case Processed => "PROCESSED"
    case Pushed => "PUSHED"
    case Failed => "FAILED"
    case Error => "ERROR"
  }

  /** Reading a column value back; `None` for text outside the five choices. */
  function ParseStatus(code: string): (r: Option<JiraStatus>)
    ensures forall s :: r == Some(s) <==> StatusCode(s) == code
  {
    if code == "UNPROCESSED" then Some(Unprocessed)
    else if code == "PROCESSED" then Some(Processed)
    else if code == "PUSHED" then Some(Pushed)
    else if code == "FAILED" then Some(Failed)
    else if code == "ERROR" then Some(Error)
    else None
  }

  /**
   * One row of the documents table. `uploaded_at` and the stored file are
   * not modelled; `content`, `scope_summary` and `clarifying_questions` are
   * nullable text.
   */
  datatype Document = Document(
    fileName: string,
    content: Option<string>,
    jiraStatus: JiraStatus,
    scopeSummary: Option<string>,
    clarifyingQuestions: Option<string>)

  /** `Document.objects.create(file_name=name)`: every other field takes its default. */
  function NewDocument(fileName: string): (d: Document)
    ensures d.fileName == fileName && d.jiraStatus == DefaultStatus
    ensures d.content.None? && d.scopeSummary.None? && d.clarifyingQuestions.None?
  {
    Document(fileName, None, DefaultStatus, None, None)
  }

  /** `Document()` with no arguments at all. */
  function DefaultDocument(): (d: Document)
    ensures d.fileName == DefaultFileName && d.jiraStatus == Unprocessed
    ensures FitsSchema(d)
  {
    NewDocument(DefaultFileName)
  }

  /** The column bounds the schema declares. */
  predicate FitsSchema(d: Document) {
    |d.fileName| <= MaxFileNameLength && |StatusCode(d.jiraStatus)| <= MaxStatusLength
  }

  /** `str(document)`: `"<file_name> (<jira_status>)"`. */
  function DocumentStr(d: Document): (r: string)
    ensures StartsWith(r, d.fileName)
    ensures EndsWith(r, " (" + StatusCode(d.jiraStatus) + ")")
    ensures |r| == |d.fileName| + |StatusCode(d.jiraStatus)| + 3
  {
    d.fileName + " (" + StatusCode(d.jiraStatus) + ")"
  }

  /** Two documents with the same name print differently whenever their statuses differ. */
  lemma DocumentStrShowsStatus(d1: Document, d2: Document)
    requires d1.fileName == d2.fileName
    requires DocumentStr(d1) == DocumentStr(d2)
    ensures d1.jiraStatus == d2.jiraStatus
  {
    var n := |d1.fileName| + 2;
    var r := DocumentStr(d1);
    var c1, c2 := StatusCode(d1.jiraStatus), StatusCode(d2.jiraStatus);
    assert |c1| == |c2|;
    assert r[n..n + |c1|] == c1;
    assert DocumentStr(d2)[n..n + |c2|] == c2;
    assert ParseStatus(c1) == Some(d1.jiraStatus);
  }
}
