/**
 * The documents list page of the frontend
 * (ticketflowai-frontend/app/documents/page.tsx): the mapping from a
 * document's status and a ticket's priority to labels and colour classes,
 * the "Edit Tickets" gate, the one-row expand/collapse toggle, and which of
 * spinner, empty prompt or list the page shows. The page's three state
 * cells are the fields of the class `Page`; the fetch is an input.
 */
module DocumentsPage {
  import opened Wrappers
  import opened Text
  import D = DocumentModels
  import T = TicketModels
  import Views = DocumentViews

  /** A ticket as the page receives it. */
  datatype TicketItem = TicketItem(
    id: int, title: string, description: string, estimatedHours: string,
    status: string, priority: string)

  /** A document as the page receives it, with its tickets. */
  datatype DocumentItem = DocumentItem(id: int, fileName: string, jiraStatus: string, tickets: seq<TicketItem>)

  // ---------------------------------------------------------------------
  // Colours and labels

  const HighColour := "text-red-600 bg-red-100"
  const MediumColour := "text-yellow-600 bg-yellow-100"
  const LowColour := "text-green-600 bg-green-100"
  const OtherColour := "text-gray-600 bg-gray-100"

  /** `getPriorityColor`: the classes of the priority pill, chosen on the upper-cased priority. */
  function PriorityColour(priority: string): string {
    match Upper(priority)
    case "HIGH" => HighColour
    case "MEDIUM" => MediumColour
    case "LOW" => LowColour
    case _ => OtherColour
  }

  /** Each colour belongs to exactly one upper-cased priority; anything outside the three is gray. */
  lemma PriorityColourMeaning(priority: string)
    ensures PriorityColour(priority) == HighColour <==> Upper(priority) == "HIGH"
    ensures PriorityColour(priority) == MediumColour <==> Upper(priority) == "MEDIUM"
    ensures PriorityColour(priority) == LowColour <==> Upper(priority) == "LOW"
    ensures PriorityColour(priority) == OtherColour <==> T.ParsePriority(Upper(priority)).None?
  {
  }

  /** The colour ignores case: any spelling of a priority gets the colour of its upper-case form. */
  lemma PriorityColourIgnoresCase(priority: string)
    ensures PriorityColour(Lower(priority)) == PriorityColour(priority)
    ensures PriorityColour(Upper(priority)) == PriorityColour(priority)
  {
    UpperOfLower(priority);
    UpperNormalises(priority);
  }

  /** Each of the three priorities has its own colour, and none is gray. */
  lemma PriorityColoursDistinct(p: T.Priority, q: T.Priority)
    ensures PriorityColour(T.PriorityCode(p)) != OtherColour
    ensures p != q ==> PriorityColour(T.PriorityCode(p)) != PriorityColour(T.PriorityCode(q))
  {
    assert Upper("LOW") == "LOW" && Upper("MEDIUM") == "MEDIUM" && Upper("HIGH") == "HIGH";
  }

  const PushedLabel := "\U{2713} In Jira"
  const ProcessedLabel := "\U{2022} Processed"
  const FailedLabel := "\U{2715} Push Failed"
  const ErrorLabel := "\U{2715} Error"
  const UnprocessedLabel := "\U{2022} Not Processed"

  /** The text of the status pill. Anything but the four named statuses reads "Not Processed". */
  function StatusLabel(status: string): string {
    if status == "PUSHED" then PushedLabel
    else if status == "PROCESSED" then ProcessedLabel
    else if status == "FAILED" then FailedLabel
    else if status == "ERROR" then ErrorLabel
    else UnprocessedLabel
  }

  /** Each of the four named labels is shown for its own status only. */
  lemma StatusLabelMeaning(status: string)
    ensures status == "PUSHED" <==> StatusLabel(status) == PushedLabel
    ensures status == "PROCESSED" <==> StatusLabel(status) == ProcessedLabel
    ensures status == "FAILED" <==> StatusLabel(status) == FailedLabel
    ensures status == "ERROR" <==> StatusLabel(status) == ErrorLabel
  {
  }

  const PushedBadge := "bg-green-200 text-green-900"
  const ProcessedBadge := "bg-blue-200 text-blue-900"
  const AlertBadge := "bg-red-200 text-red-900"
  const OtherBadge := "bg-gray-200 text-gray-900"

  /** The classes of the status pill: FAILED, ERROR and UNPROCESSED share red. */
  function StatusBadge(status: string): string {
    if status == "PUSHED" then PushedBadge
    else if status == "PROCESSED" then ProcessedBadge
    else if status in ["FAILED", "ERROR", "UNPROCESSED"] then AlertBadge
    else OtherBadge
  }

  /** Green for pushed, blue for processed, red for the three troubled states, gray for anything else. */
  lemma StatusBadgeMeaning(status: string)
    ensures StatusBadge(status) == PushedBadge <==> status == "PUSHED"
    ensures StatusBadge(status) == ProcessedBadge <==> status == "PROCESSED"
    ensures StatusBadge(status) == AlertBadge <==> status in ["FAILED", "ERROR", "UNPROCESSED"]
    ensures StatusBadge(status) == OtherBadge <==> D.ParseStatus(status).None?
  {
  }

  /** The five statuses get five different labels, and none of them a gray pill. */
  lemma StatusLabelsDistinct(s1: D.JiraStatus, s2: D.JiraStatus)
    ensures s1 != s2 ==> StatusLabel(D.StatusCode(s1)) != StatusLabel(D.StatusCode(s2))
    ensures StatusBadge(D.StatusCode(s1)) != OtherBadge
  {
  }

  /**
   * A status outside the five reads exactly like `UNPROCESSED` but gets a
   * gray pill instead of a red one.
   */
  lemma UnknownStatusLooksUnprocessed(status: string)
    requires D.ParseStatus(status).None?
    ensures StatusLabel(status) == StatusLabel(D.StatusCode(D.Unprocessed))
    ensures StatusBadge(status) == OtherBadge != StatusBadge(D.StatusCode(D.Unprocessed))
  {
    assert D.ParseStatus("UNPROCESSED") == Some(D.Unprocessed);
  }

  /**
   * Upload and push never store `ERROR` (upload only reports it in its
   * reply), so a document of a store changed only by them never carries
   * the Error label.
   */
  lemma StoredStatusNeverError(store: Views.Store, id: nat)
    requires store.Valid() && id in store.documents
    ensures StatusLabel(D.StatusCode(store.documents[id].jiraStatus)) != ErrorLabel
    ensures StatusBadge(D.StatusCode(store.documents[id].jiraStatus)) != OtherBadge
  {
  }

  /** The "Edit Tickets" link is shown for `PROCESSED` documents only. */
  predicate CanEditTickets(status: string) {
    status == "PROCESSED"
  }

  /** Of the stored statuses, only `PROCESSED` opens the editor; pushed or failed documents do not. */
  lemma EditGate(s: D.JiraStatus)
    ensures CanEditTickets(D.StatusCode(s)) <==> s == D.Processed
  {
  }

  // ---------------------------------------------------------------------
  // Expanding a document

  /** The chevron's click handler: the clicked document closes if open, else it becomes the open one. */
  function Toggled(expanded: Option<int>, clicked: int): (r: Option<int>)
    ensures r == Some(clicked) <==> expanded != Some(clicked)
    ensures r.None? <==> expanded == Some(clicked)
  {
    if expanded == Some(clicked) then None else Some(clicked)
  }

  /** Two clicks on the same document leave it open only if it was open before. */
  lemma ToggleTwice(expanded: Option<int>, clicked: int)
    ensures Toggled(Toggled(expanded, clicked), clicked) ==
      (if expanded == Some(clicked) then expanded else None)
  {
  }

  // ---------------------------------------------------------------------
  // What the page shows

  /** One line of a ticket table. */
  datatype TicketLine = TicketLine(title: string, description: string, priority: string,
                                   priorityColour: string, status: string, estimatedHours: string)

  /** One document's card: header, pill, count, edit link, and the table if expanded. */
  datatype Card = Card(id: int, fileName: string, badge: string, caption: string, ticketCount: nat,
                       editLink: bool, table: Option<seq<TicketLine>>)

  /** The page: the spinner, the empty-state prompt, or the cards. */
  datatype View = Spinner | EmptyPrompt | Cards(cards: seq<Card>)

  function Line(t: TicketItem): TicketLine {
    TicketLine(t.title, t.description, t.priority, PriorityColour(t.priority), t.status, t.estimatedHours)
  }

  /**
   * A card counts all the document's tickets, links to the editor exactly
   * when the document is `PROCESSED`, and lists its tickets, each with its
   * priority colour, exactly when it is the expanded one.
   */
  lemma CardShows(d: DocumentItem, expanded: Option<int>)
    ensures CardOf(d, expanded).ticketCount == |d.tickets|
    ensures CardOf(d, expanded).editLink <==> d.jiraStatus == "PROCESSED"
    ensures CardOf(d, expanded).table.Some? <==> expanded == Some(d.id)
    ensures CardOf(d, expanded).table.Some? ==>
      (|CardOf(d, expanded).table.value| == |d.tickets| &&
       forall k :: 0 <= k < |d.tickets| ==>
         CardOf(d, expanded).table.value[k].priorityColour == PriorityColour(d.tickets[k].priority))
  {
  }

  /** The lines of a ticket table, in ticket order. */
  function Lines(tickets: seq<TicketItem>): (lines: seq<TicketLine>)
    ensures |lines| == |tickets|
    ensures forall k :: 0 <= k < |tickets| ==> lines[k] == Line(tickets[k])
  {
    if tickets == [] then []
    else Lines(tickets[..|tickets| - 1]) + [Line(tickets[|tickets| - 1])]
  }

  /** The card of one document, given which document is expanded. */
  function CardOf(d: DocumentItem, expanded: Option<int>): Card {
    Card(d.id, d.fileName, StatusBadge(d.jiraStatus), StatusLabel(d.jiraStatus), |d.tickets|,
         CanEditTickets(d.jiraStatus),
         if expanded == Some(d.id) then Some(Lines(d.tickets)) else None)
  }

  /** The cards of a document list, in list order. */
  function CardsOf(documents: seq<DocumentItem>, expanded: Option<int>): (cards: seq<Card>)
    ensures |cards| == |documents|
  {
    if documents == [] then []
    else CardsOf(documents[..|documents| - 1], expanded) + [CardOf(documents[|documents| - 1], expanded)]
  }

  /** The `k`-th card is the card of the `k`-th document. */
  lemma {:induction false} CardsOfLayout(documents: seq<DocumentItem>, expanded: Option<int>)
    ensures forall k :: 0 <= k < |documents| ==> CardsOf(documents, expanded)[k] == CardOf(documents[k], expanded)
  {
    if documents != [] {
      var n := |documents| - 1;
      CardsOfLayout(documents[..n], expanded);
    }
  }

  /** The page for the given state: loading wins, then an empty list, then the cards. */
  function Render(loading: bool, documents: seq<DocumentItem>, expanded: Option<int>): (v: View)
    ensures loading ==> v == Spinner
    ensures !loading && documents == [] ==> v == EmptyPrompt
    ensures v.Cards? <==> !loading && documents != []
    ensures v.Cards? ==> v.cards == CardsOf(documents, expanded)
  {
    if loading then Spinner
    else if |documents| == 0 then EmptyPrompt
    else Cards(CardsOf(documents, expanded))
  }

  /** The number of cards showing a ticket table. */
  function TablesShown(cards: seq<Card>): (n: nat)
    ensures n <= |cards|
  {
    if cards == [] then 0
    else TablesShown(cards[..|cards| - 1]) + (if cards[|cards| - 1].table.Some? then 1 else 0)
  }

  /** With distinct document ids, at most one card shows its tickets, and none while nothing is expanded. */
  lemma {:induction false} AtMostOneTable(documents: seq<DocumentItem>, expanded: Option<int>)
    requires forall i, j :: 0 <= i < j < |documents| ==> documents[i].id != documents[j].id
    ensures TablesShown(CardsOf(documents, expanded)) <= 1
    ensures expanded.None? ==> TablesShown(CardsOf(documents, expanded)) == 0
  {
    if documents != [] {
      var n := |documents| - 1;
      var init, last := documents[..n], documents[n];
      AtMostOneTable(init, expanded);
      var cards := CardsOf(documents, expanded);
      assert cards[..n] == CardsOf(init, expanded);
      if expanded == Some(last.id) {
        NoTableBut(init, expanded, last.id);
      }
    }
  }

  /** When the expanded id is one no document in the list has, no card shows a table. */
  lemma {:induction false} NoTableBut(documents: seq<DocumentItem>, expanded: Option<int>, other: int)
    requires expanded == Some(other)
    requires forall k :: 0 <= k < |documents| ==> documents[k].id != other
    ensures TablesShown(CardsOf(documents, expanded)) == 0
  {
    if documents != [] {
      var n := |documents| - 1;
      NoTableBut(documents[..n], expanded, other);
      assert CardsOf(documents, expanded)[..n] == CardsOf(documents[..n], expanded);
    }
  }

  // ---------------------------------------------------------------------
  // The page's state

  /** The three `useState` cells of `TicketsPage`. */
  class Page {
    var documents: seq<DocumentItem>
    var loading: bool
    var expandedDoc: Option<int>

    /** The first render: no documents, loading, nothing expanded. */
    constructor ()
      ensures documents == [] && loading && expandedDoc.None?
      ensures View() == Spinner
    {
      documents := [];
      loading := true;
      expandedDoc := None;
    }

    /** What the page shows now. */
    function View(): View
      reads this
    {
      Render(loading, documents, expandedDoc)
    }

    /**
     * The fetch effect settling: a successful fetch replaces the list, a
     * failed one only logs; either way loading ends.
     */
    method Settle(fetched: Option<seq<DocumentItem>>)
      modifies this
      ensures documents == (if fetched.Some? then fetched.value else old(documents))
      ensures !loading && expandedDoc == old(expandedDoc)
    {
      if fetched.Some? {
        documents := fetched.value;
      }
      loading := false;
    }

    /** A click on a document's chevron. */
    method Click(id: int)
      modifies this
      ensures expandedDoc == Toggled(old(expandedDoc), id)
      ensures documents == old(documents) && loading == old(loading)
    {
      expandedDoc := Toggled(expandedDoc, id);
    }
  }

  /** The view a fresh page settles into after its fetch. */
  method Load(fetched: Option<seq<DocumentItem>>) returns (page: Page)
    ensures fresh(page)
    ensures fetched.None? || fetched.value == [] ==> page.View() == EmptyPrompt
    ensures fetched.Some? && fetched.value != [] ==> page.View() == Cards(CardsOf(fetched.value, None))
  {
    page := new Page();
    page.Settle(fetched);
  }
}
