/**
 * The deterministic part of backend/apps/tickets/ai_service.py: cleaning up
 * the language model's reply, and turning the decoded JSON into tickets.
 * The model calls themselves are not modelled: their replies are inputs
 * (`None` when the call raised), and `json.loads` is the parameter
 * `decode` (`None` for a `JSONDecodeError`).
 */
module AiService {
  import opened Wrappers
  import opened Text
  import opened Json
  import opened Selection
  import TicketModels

  // ---------------------------------------------------------------------
  // Fence cleanup

  /** Step 2 of the cleanup: drop one leading ```` ```json ````, then one leading ```` ``` ````. */
  function DropLeadingFences(a: string): (c: string)
    ensures Occurs(c, a, |a| - |c|)
  {
    var b := if StartsWith(a, "```json") then a[7..] else a;
    if StartsWith(b, "```") then b[3..] else b
  }

  /** Step 3 of the cleanup: drop one trailing ```` ``` ````. */
  function DropTrailingFence(c: string): (d: string)
    ensures Occurs(d, c, 0)
  {
    if EndsWith(c, "```") then c[..|c| - 3] else c
  }

  /** Steps 2 and 3 together: the fences removed from an already trimmed reply. */
  function Unfence(a: string): (m: string)
    ensures Occurs(m, a, |a| - |DropLeadingFences(a)|)
  {
    var c := DropLeadingFences(a);
    var d := DropTrailingFence(c);
    OccursTransitive(d, c, a, 0, |a| - |c|);
    d
  }

  /**
   * The reply with surrounding whitespace, one leading ```` ```json ````,
   * then one leading ```` ``` ````, then one trailing ```` ``` ```` removed,
   * and trimmed again. The result is a piece of the reply with no
   * surrounding whitespace.
   */
  function StripFences(reply: string): (r: string)
    ensures Stripped(r)
  {
    var r := Strip(Unfence(Strip(reply)));
    StripIsStripped(Unfence(Strip(reply)));
    r
  }

  /** The cleaned reply is a contiguous piece of the reply. */
  lemma StripFencesIsInfix(reply: string)
    ensures IsInfix(StripFences(reply), reply)
  {
    var a := Strip(reply);
    var m := Unfence(a);
    InfixOfInfixOfInfix(Strip(m), m, a, reply, LeadingSpace(m), |a| - |DropLeadingFences(a)|, LeadingSpace(reply));
  }

  /** The cleanup is its three stages in sequence. */
  lemma StripFencesStages(reply: string, a: string, m: string, r: string)
    requires Strip(reply) == a && Unfence(a) == m && Strip(m) == r
    ensures StripFences(reply) == r
  {
  }

  /** An opening fence followed by a line break is dropped whole. */
  lemma OpeningFenceDropped(tag: string, c: string)
    requires tag == "```json" || tag == "```"
    requires c != [] && c[0] == '\n'
    ensures DropLeadingFences(tag + c) == c
  {
    var f := tag + c;
    if tag == "```json" {
      assert f[..7] == tag && f[7..] == c;
    } else {
      assert f[3] == '\n';
      assert f[..3] == tag && f[3..] == c;
    }
    assert !StartsWith(c, "```");
  }

  /** A closing fence at the end is dropped whole. */
  lemma ClosingFenceDropped(d: string)
    ensures DropTrailingFence(d + "```") == d
  {
    var c := d + "```";
    assert c[|c| - 3..] == "```" && c[..|c| - 3] == d;
  }

  lemma FenceDropped(tag: string, body: string)
    requires tag == "```json" || tag == "```"
    ensures Unfence(tag + "\n" + body + "\n```") == "\n" + body + "\n"
  {
    var d := "\n" + body + "\n";
    var c := d + "```";
    assert tag + "\n" + body + "\n```" == tag + c;
    OpeningFenceDropped(tag, c);
    ClosingFenceDropped(d);
  }

  lemma Regroup(p: string, t: string, n: string, b: string, e: string, q: string)
    ensures p + t + n + b + e + q == p + (t + n + b + e) + q
  {
  }

  /**
   * A fenced reply gives back exactly its body: whitespace, then
   * ```` ```json ```` or ```` ``` ```` and a newline, a body with no
   * surrounding whitespace, a newline, ```` ``` ```` and whitespace.
   */
  lemma FencedReply(pre: string, tag: string, body: string, post: string)
    requires AllSpace(pre) && AllSpace(post) && Stripped(body)
    requires tag == "```json" || tag == "```"
    ensures StripFences(pre + tag + "\n" + body + "\n```" + post) == body
  {
    var f := tag + "\n" + body + "\n```";
    Regroup(pre, tag, "\n", body, "\n```", post);
    assert Stripped(f) by {
      assert f[0] == tag[0] && f[|f| - 1] == '`';
    }
    StripPadded(pre, f, post);
    FenceDropped(tag, body);
    StripPadded("\n", body, "\n");
    StripFencesStages(pre + f + post, f, "\n" + body + "\n", body);
  }

  /** A reply without fences is only trimmed. */
  lemma PlainReply(reply: string)
    requires !StartsWith(Strip(reply), "```") && !EndsWith(Strip(reply), "```")
    ensures StripFences(reply) == Strip(reply)
  {
    var a := Strip(reply);
    UnfencedKept(a);
    StripIdempotent(reply);
    StripFencesStages(reply, a, a, a);
  }

  /** Text that neither starts nor ends with a fence is left as it is. */
  lemma UnfencedKept(a: string)
    requires !StartsWith(a, "```") && !EndsWith(a, "```")
    ensures Unfence(a) == a
  {
  }

  // ---------------------------------------------------------------------
  // Normalising one decoded entry

  /** A ticket as the service cleans it: the dictionary of `process_crew_result`. */
  datatype Draft = Draft(title: string, description: Value, priority: string, estimatedHours: real)

  /** The fields `Ticket.objects.create` receives in `generate_tickets_from_content`. */
  datatype TicketFields = TicketFields(title: string, description: string, priority: string, estimatedHours: real)

  /** The entry is a dictionary with both a `title` and a `description` key. */
  predicate HasTitleAndDescription(entry: Value) {
    entry.Obj? && "title" in entry.fields && "description" in entry.fields
  }

  /** `entry['title'][:200]`; `None` where slicing a non-string raises. */
  function TitleText(fields: map<string, Value>): (r: Option<string>)
    requires "title" in fields
    ensures r.Some? <==> fields["title"].Str?
    ensures r.Some? ==> |r.value| <= TicketModels.MaxTitleLength && StartsWith(fields["title"].s, r.value)
    ensures r.Some? && |fields["title"].s| <= TicketModels.MaxTitleLength ==> r.value == fields["title"].s
    ensures r.Some? && TicketModels.MaxTitleLength < |fields["title"].s| ==> |r.value| == TicketModels.MaxTitleLength
  {
    match fields["title"]
    case Str(t) => Some(Take(t, TicketModels.MaxTitleLength))
    case _ => None
  }

  /** `entry.get('priority', 'MEDIUM').upper()`; `None` where `.upper()` raises. */
  function PriorityText(fields: map<string, Value>): (r: Option<string>)
    ensures r.Some? ==> NoLowerCase(r.value)
    ensures "priority" !in fields ==> r == Some("MEDIUM")
    ensures "priority" in fields ==> (r.Some? <==> fields["priority"].Str?)
    ensures "priority" in fields && fields["priority"].Str? ==> r == Some(Upper(fields["priority"].s))
  {
    if "priority" !in fields then Some("MEDIUM")
    else match fields["priority"]
      case Str(p) => UpperNormalises(p); Some(Upper(p))
      case _ => None
  }

  /** `float(entry.get('estimated_hours', 0))`; `None` where `float` raises. */
  function Hours(fields: map<string, Value>): (r: Option<real>)
    ensures "estimated_hours" !in fields ==> r == Some(0.0)
    ensures "estimated_hours" in fields ==>
      (r.Some? <==> fields["estimated_hours"].Num? || fields["estimated_hours"].Bool?)
    ensures "estimated_hours" in fields && fields["estimated_hours"].Num? ==> r == Some(fields["estimated_hours"].x)
  {
    if "estimated_hours" !in fields then Some(0.0)
    else match fields["estimated_hours"]
      case Num(x) => Some(x)
      case Bool(b) => Some(if b then 1.0 else 0.0)
      case _ => None
  }

  /** The cleaned ticket of one entry that has both keys; `None` where Python raises. */
  function Normalise(fields: map<string, Value>): (r: Option<Draft>)
    requires "title" in fields && "description" in fields
    ensures r.Some? <==> TitleText(fields).Some? && PriorityText(fields).Some? && Hours(fields).Some?
    ensures r.Some? ==> |r.value.title| <= TicketModels.MaxTitleLength && NoLowerCase(r.value.priority)
    ensures r.Some? ==> StartsWith(fields["title"].s, r.value.title)
    ensures r.Some? ==> r.value.description == fields["description"]
    ensures r.Some? ==> (r.value.title == TitleText(fields).value && r.value.priority == PriorityText(fields).value &&
      r.value.estimatedHours == Hours(fields).value)
  {
    match (TitleText(fields), PriorityText(fields), Hours(fields))
    case (Some(t), Some(p), Some(h)) => Some(Draft(t, fields["description"], p, h))
    case _ => None
  }

  /** What happens to one entry: skipped, raising, or kept. */
  datatype Verdict = Skip | Fail | Keep(draft: Draft)

  function Examine(entry: Value): (v: Verdict)
    ensures v.Skip? <==> !HasTitleAndDescription(entry)
    ensures v.Fail? <==> HasTitleAndDescription(entry) && Normalise(entry.fields).None?
    ensures v.Keep? ==> HasTitleAndDescription(entry) && Normalise(entry.fields) == Some(v.draft)
  {
    if !HasTitleAndDescription(entry) then Skip
    else match Normalise(entry.fields)
      case None => Fail
      case Some(d) => Keep(d)
  }

  /** The entries `process_crew_result` keeps. */
  function KeptDraft(entry: Value): Option<Draft> {
    if Examine(entry).Keep? then Some(Examine(entry).draft) else None
  }

  /** The row `Ticket.objects.create` inserts; a null or non-text description fails. */
  function StoredFields(d: Draft): Option<TicketFields> {
    if d.description.Str? then Some(TicketFields(d.title, d.description.s, d.priority, d.estimatedHours))
    else None
  }

  /** The entries `generate_tickets_from_content` stores: kept ones whose description is text. */
  function Admit(entry: Value): (r: Option<TicketFields>)
    ensures r.Some? <==> (HasTitleAndDescription(entry) && Normalise(entry.fields).Some? &&
      entry.fields["description"].Str?)
    ensures r.Some? ==> |r.value.title| <= TicketModels.MaxTitleLength && NoLowerCase(r.value.priority)
  {
    match Examine(entry)
    case Keep(d) => StoredFields(d)
    case _ => None
  }

  /**
   * `title`, `description`, `priority` and `hours` are what the service
   * makes of `entry`: the entry is a dictionary with both keys, the title
   * is its text title cut to 200 characters, the description is as given,
   * the priority is its text priority upper-cased or `MEDIUM` when absent,
   * and the hours are its converted estimate.
   */
  predicate CleanedFrom(entry: Value, title: string, description: Value, priority: string, hours: real) {
    && HasTitleAndDescription(entry)
    && entry.fields["title"].Str?
    && title == Take(entry.fields["title"].s, TicketModels.MaxTitleLength)
    && description == entry.fields["description"]
    && ("priority" !in entry.fields ==> priority == "MEDIUM")
    && ("priority" in entry.fields ==> entry.fields["priority"].Str? && priority == Upper(entry.fields["priority"].s))
    && Hours(entry.fields) == Some(hours)
  }

  /** A kept entry's draft is exactly what the service makes of the entry. */
  lemma KeptIsCleaned(entry: Value)
    requires Examine(entry).Keep?
    ensures var d := Examine(entry).draft;
      CleanedFrom(entry, d.title, d.description, d.priority, d.estimatedHours)
  {
  }

  // ---------------------------------------------------------------------
  // generate_tickets_from_content

  /**
   * The entries the ticket loop iterates over. Only a decoded array yields
   * tickets: iterating a dictionary or a string gives strings, which are
   * all skipped, and iterating a scalar raises, which returns `[]`.
   */
  function ReplyEntries(reply: Option<string>, decode: string -> Option<Value>): seq<Value> {
    if reply.None? then []
    else match decode(StripFences(reply.value))
      case Some(Arr(items)) => items
      case _ => []
  }

  /** The tickets created from a reply, in the order of the surviving entries. */
  method GenerateTickets(reply: Option<string>, decode: string -> Option<Value>)
    returns (created: seq<TicketFields>)
    ensures created == Select(Admit, ReplyEntries(reply, decode))
  {
    if reply.None? {
      return [];
    }
    var result := StripFences(reply.value);
    var ticketsData := decode(result);
    if !(ticketsData.Some? && ticketsData.value.Arr?) {
      return [];
    }
    created := CreateTickets(ticketsData.value.items);
  }

  /**
   * The loop of `generate_tickets_from_content`: an entry without both keys
   * is skipped, one that raises is logged and skipped, the rest are stored.
   */
  method CreateTickets(items: seq<Value>) returns (created: seq<TicketFields>)
    ensures created == Select(Admit, items)
  {
    created := [];
    var i := 0;
    while i < |items|
      invariant 0 <= i <= |items|
      invariant created == Select(Admit, items[..i])
    {
      var ticketData := items[i];
      assert items[..i + 1][..i] == items[..i] && items[..i + 1][i] == ticketData;
      if HasTitleAndDescription(ticketData) {
        var ticket := Normalise(ticketData.fields);
        if ticket.Some? {
          var row := StoredFields(ticket.value);
          if row.Some? {
            created := created + [row.value];
          }
        }
      }
      i := i + 1;
    }
    assert items[..i] == items;
  }

  /**
   * Every created ticket is what the service makes of its entry (title cut
   * to at most 200 characters, priority upper-cased or `MEDIUM`, the text
   * description); every admitted entry gives a ticket; order is kept.
   */
  lemma GeneratedTicketsAreNormalised(entries: seq<Value>)
    ensures var created := Select(Admit, entries);
      var from := Survivors(Admit, entries);
      && |created| <= |entries|
      && (forall k :: 0 <= k < |created| ==>
            && |created[k].title| <= TicketModels.MaxTitleLength
            && NoLowerCase(created[k].priority)
            && CleanedFrom(entries[from[k]], created[k].title, Str(created[k].description),
                           created[k].priority, created[k].estimatedHours))
      && (forall i :: 0 <= i < |entries| && Admit(entries[i]).Some? ==> i in from)
      && (forall k, l :: 0 <= k < l < |from| ==> from[k] < from[l])
  {
    var created := Select(Admit, entries);
    var from := Survivors(Admit, entries);
    forall k | 0 <= k < |created|
      ensures CleanedFrom(entries[from[k]], created[k].title, Str(created[k].description),
                          created[k].priority, created[k].estimatedHours)
    {
      var e := entries[from[k]];
      assert Admit(e) == Some(created[k]);
      assert Examine(e).Keep?;
      KeptIsCleaned(e);
    }
  }

  /** An entry that raises is skipped on its own: the rest are created as if it were absent. */
  lemma FailingEntrySkippedAlone(entries: seq<Value>, k: nat)
    requires k < |entries| && Examine(entries[k]).Fail?
    ensures Select(Admit, entries) == Select(Admit, entries[..k] + entries[k + 1..])
  {
    SelectSkipsRejected(Admit, entries, k);
  }

  /** The decoder sees the body of a fenced reply, without the fence. */
  lemma FencedReplyDecoded(pre: string, tag: string, body: string, post: string,
                           decode: string -> Option<Value>)
    requires AllSpace(pre) && AllSpace(post) && Stripped(body)
    requires tag == "```json" || tag == "```"
    ensures ReplyEntries(Some(pre + tag + "\n" + body + "\n```" + post), decode)
         == (match decode(body) case Some(Arr(items)) => items case _ => [])
  {
    FencedReply(pre, tag, body, post);
  }

  /** The priority is upper-cased but not checked against LOW/MEDIUM/HIGH. */
  lemma PriorityNotValidated()
    ensures var entry := Obj(map["title" := Str("Fix"), "description" := Str("d"), "priority" := Str("urgent")]);
      Admit(entry) == Some(TicketFields("Fix", "d", "URGENT", 0.0))
      && TicketModels.ParsePriority("URGENT").None?
  {
    var fields := map["title" := Str("Fix"), "description" := Str("d"), "priority" := Str("urgent")];
    assert Upper("urgent") == "URGENT";
    assert Take("Fix", TicketModels.MaxTitleLength) == "Fix";
    assert Normalise(fields) == Some(Draft("Fix", Str("d"), "URGENT", 0.0));
  }

  // ---------------------------------------------------------------------
  // process_crew_result

  /**
   * `result[result.find('['):result.rfind(']') + 1]`, when that slice is
   * not empty: from the first `[` through the last `]`.
   */
  function BracketSlice(result: string): (r: Option<string>)
    ensures r.Some? <==> exists i, j :: 0 <= i < j < |result| && result[i] == '[' && result[j] == ']'
    ensures r.Some? ==> |r.value| >= 2 && r.value[0] == '[' && r.value[|r.value| - 1] == ']'
    ensures r.Some? ==> exists i :: Occurs(r.value, result, i)
                          && (forall k :: 0 <= k < i ==> result[k] != '[')
                          && (forall k :: i + |r.value| <= k < |result| ==> result[k] != ']')
  {
    var start := Find(result, '[');
    var end := RFind(result, ']') + 1;
    if start >= 0 && end > start then
      assert result[start..end][0] == result[start];
      assert Occurs(result[start..end], result, start);
      Some(result[start..end])
    else
      assert forall i, j :: 0 <= i < j < |result| && result[i] == '[' && result[j] == ']' ==> false by {
        forall i, j | 0 <= i < j < |result| && result[i] == '[' && result[j] == ']'
          ensures false
        {
        }
      }
      None
  }

  /** The entries of the bracketed slice once decoded; empty unless it decodes to an array. */
  function CrewEntries(result: string, decode: string -> Option<Value>): seq<Value> {
    match BracketSlice(result)
    case None => []
    case Some(slice) =>
      match decode(slice)
      case Some(Arr(items)) => items
      case _ => []
  }

  /** Some entry has both keys and raises while being cleaned. */
  predicate AnyFails(entries: seq<Value>) {
    exists k :: 0 <= k < |entries| && Examine(entries[k]).Fail?
  }

  /**
   * The cleaned tickets: every dictionary with a title and a description,
   * in order; but one entry that raises ends the whole call with `[]`.
   */
  method ProcessCrewResult(result: string, decode: string -> Option<Value>)
    returns (cleaned: seq<Draft>)
    ensures var entries := CrewEntries(result, decode);
      cleaned == if AnyFails(entries) then [] else Select(KeptDraft, entries)
  {
    var slice := BracketSlice(result);
    if slice.None? {
      return [];
    }
    var ticketsData := decode(slice.value);
    if !(ticketsData.Some? && ticketsData.value.Arr?) {
      return [];
    }
    var items := ticketsData.value.items;
    cleaned := [];
    var i := 0;
    while i < |items|
      invariant 0 <= i <= |items|
      invariant cleaned == Select(KeptDraft, items[..i])
      invariant forall k :: 0 <= k < i ==> !Examine(items[k]).Fail?
    {
      var ticket := items[i];
      assert items[..i + 1][..i] == items[..i];
      if HasTitleAndDescription(ticket) {
        var d := Normalise(ticket.fields);
        if d.None? {
          return [];
        }
        cleaned := cleaned + [d.value];
      }
      i := i + 1;
    }
    assert items[..i] == items;
  }

  /**
   * Every cleaned ticket is what the service makes of its entry (title cut
   * to at most 200 characters, priority upper-cased or `MEDIUM`, the
   * description unchanged); every dictionary with both keys gives one;
   * order is kept.
   */
  lemma CrewTicketsAreNormalised(entries: seq<Value>)
    requires !AnyFails(entries)
    ensures var cleaned := Select(KeptDraft, entries);
      var from := Survivors(KeptDraft, entries);
      && (forall k :: 0 <= k < |cleaned| ==>
            && |cleaned[k].title| <= TicketModels.MaxTitleLength
            && NoLowerCase(cleaned[k].priority)
            && CleanedFrom(entries[from[k]], cleaned[k].title, cleaned[k].description,
                           cleaned[k].priority, cleaned[k].estimatedHours))
      && (forall i :: 0 <= i < |entries| && HasTitleAndDescription(entries[i]) ==> i in from)
  {
    var cleaned := Select(KeptDraft, entries);
    var from := Survivors(KeptDraft, entries);
    forall k | 0 <= k < |cleaned|
      ensures CleanedFrom(entries[from[k]], cleaned[k].title, cleaned[k].description,
                          cleaned[k].priority, cleaned[k].estimatedHours)
    {
      assert KeptDraft(entries[from[k]]) == Some(cleaned[k]);
      KeptIsCleaned(entries[from[k]]);
    }
    forall i | 0 <= i < |entries| && HasTitleAndDescription(entries[i])
      ensures i in from
    {
      assert !Examine(entries[i]).Fail?;
      assert KeptDraft(entries[i]).Some?;
    }
  }

  /** With no `[`, or no `]` after the first `[`, the result is empty. */
  lemma NoBracketsNoTickets(result: string, decode: string -> Option<Value>)
    requires forall i, j :: 0 <= i < j < |result| && result[i] == '[' ==> result[j] != ']'
    ensures CrewEntries(result, decode) == []
  {
  }

  /**
   * The text either language-model service returns: the stripped reply, or
   * the service's fixed error message when the call fails.
   */
  function ServiceText(reply: Option<string>, errorText: string): (r: string)
    ensures reply.Some? ==> Stripped(r) && Occurs(r, reply.value, LeadingSpace(reply.value))
    ensures reply.Some? ==> (AllSpace(reply.value[..LeadingSpace(reply.value)]) &&
      AllSpace(reply.value[LeadingSpace(reply.value) + |r|..]))
    ensures reply.None? ==> r == errorText
  {
    if reply.Some? then StripIsStripped(reply.value); Strip(reply.value)
    else errorText
  }

  /** `generate_scope_summary`. */
  function ScopeSummary(reply: Option<string>): string {
    ServiceText(reply, "Error generating scope summary")
  }

  /** `generate_clarifying_questions`. */
  function ClarifyingQuestions(reply: Option<string>): string {
    ServiceText(reply, "Error generating clarifying questions")
  }
}
