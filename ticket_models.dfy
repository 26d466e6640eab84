/** The `Ticket` record of backend/apps/tickets/models.py. */
module TicketModels {
  import opened Wrappers
  import opened Text

  /** `PRIORITY_CHOICES`. */
  datatype Priority = Low | Medium | High

  /** `STATUS_CHOICES`. */
  datatype Status = Pending | InProgress | Completed

  /** `title` is a `CharField(max_length=200)`. */
  const MaxTitleLength := 200
  /** `priority` is a `CharField(max_length=10)` defaulting to `MEDIUM`. */
  const MaxPriorityLength := 10
  const DefaultPriority := Medium
  /** `status` is a `CharField(max_length=20)` defaulting to `PENDING`. */
  const MaxStatusLength := 20
  const DefaultStatus := Pending

  function PriorityCode(p: Priority): (r: string)
    ensures 0 < |r| <= MaxPriorityLength && NoLowerCase(r)
  {
    match p
    case Low => "LOW"
    case Medium => "MEDIUM"
    case High => "HIGH"
  }

  /** Reading a priority column back; `None` for text outside the three choices. */
  function ParsePriority(code: string): (r: Option<Priority>)
    ensures forall p :: r == Some(p) <==> PriorityCode(p) == code
  {
    if code == "LOW" then Some(Low)
    else if code == "MEDIUM" then Some(Medium)
    else if code == "HIGH" then Some(High)
    else None
  }

  function StatusCode(s: Status): (r: string)
    ensures 0 < |r| <= MaxStatusLength && NoLowerCase(r)
  {
    match s
    case Pending => "PENDING"
    case InProgress => "IN_PROGRESS"
    case Completed => "COMPLETED"
  }

  /** Reading a status column back; `None` for text outside the three choices. */
  function ParseStatus(code: string): (r: Option<Status>)
    ensures forall s :: r == Some(s) <==> StatusCode(s) == code
  {
    if code == "PENDING" then Some(Pending)
    else if code == "IN_PROGRESS" then Some(InProgress)
    else if code == "COMPLETED" then Some(Completed)
    else None
  }

  /**
   * One row of the tickets table. `document` is the owning document's id
   * (the foreign key). `priority` and `status` hold the stored text: the
   * ORM's `create` does not check choices, so a priority outside
   * LOW/MEDIUM/HIGH can be stored. `estimated_hours` is a nullable float,
   * kept here as an optional real; `created_at`/`updated_at` are not modelled.
   */
  datatype Ticket = Ticket(
    id: nat,
    document: nat,
    title: string,
    description: string,
    priority: string,
    status: string,
    estimatedHours: Option<real>)

  /** `Ticket.objects.create(...)` with `status` left to its default. */
  function NewTicket(id: nat, document: nat, title: string, description: string,
                     priority: string, estimatedHours: Option<real>): (t: Ticket)
    ensures t.id == id && t.document == document && t.title == title
    ensures t.description == description && t.priority == priority
    ensures t.status == StatusCode(DefaultStatus) && t.estimatedHours == estimatedHours
  {
    Ticket(id, document, title, description, priority, StatusCode(DefaultStatus), estimatedHours)
  }

  /** The title fits its column. */
  predicate TitleFits(t: Ticket) {
    |t.title| <= MaxTitleLength
  }

  /** `str(ticket)` is the ticket's title, so it fits the title column too. */
  function TicketStr(t: Ticket): (r: string)
    ensures TitleFits(t) ==> |r| <= MaxTitleLength
    ensures r == t.title
  {
    t.title
  }
}
