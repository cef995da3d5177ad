/**
 * src/pages/tasks/add.tsx: the submit handler of the add-task page and the
 * interaction choices it offers.
 */
module TasksAdd {
  import opened Wrappers
  import opened JsText
  import opened JsValues
  import opened Web
  import opened ApiClient
  import opened Forms
  import opened Seqs

  const TitleRequired := "Title is required"
  const InteractionRequired := "Interaction is required"
  /** The initial `status`; the status select offers only `OfferedStatuses`. */
  const InitialStatus := "not_started"
  const OfferedStatuses: seq<string> := ["pending", "in progress", "completed"]
  const InitialPriority := "medium"

  datatype TaskForm = TaskForm(title: string, description: string, dueDate: string, status: string,
                               priority: string, userId: string, interactionId: string)

  /** The `taskData` object. */
  datatype TaskPayload = TaskPayload(titre: string, description: Option<string>, dueDate: Option<string>,
                                     statut: string, priorite: string, interactionId: string,
                                     assignedTo: Option<string>)

  /** Why the submit stops before any request, if it does: the title is checked first. */
  function Rejection(f: TaskForm): (r: Option<string>)
    ensures r == Some(TitleRequired) <==> AllSpace(f.title)
    ensures r == Some(InteractionRequired) <==> !AllSpace(f.title) && f.interactionId == ""
    ensures r.None? <==> !AllSpace(f.title) && f.interactionId != ""
  {
    if Blank(f.title) then Some(TitleRequired)
    else if !Truthy(f.interactionId) then Some(InteractionRequired)
    else None
  }

  /** The payload: empty optional fields become undefined, the title is sent untrimmed. */
  function Payload(f: TaskForm): (p: TaskPayload)
    ensures p.titre == f.title && p.statut == f.status && p.priorite == f.priority && p.interactionId == f.interactionId
    ensures p.description == OrUndefined(f.description) && p.dueDate == OrUndefined(f.dueDate)
    ensures p.assignedTo == OrUndefined(f.userId)
  {
    TaskPayload(f.title, OrUndefined(f.description), OrUndefined(f.dueDate), f.status, f.priority,
                f.interactionId, OrUndefined(f.userId))
  }

  /** The initial status is not one the select offers; a form whose status was never changed sends it as it is. */
  lemma InitialStatusNotOffered(f: TaskForm)
    requires f.status == InitialStatus
    ensures InitialStatus !in OfferedStatuses && Payload(f).statut == InitialStatus
  {
  }

  /** Where a created task leads: back to the lead it came from, else to the new task. */
  function NextPage(leadId: Option<string>, newTaskId: string): (path: string)
    ensures PropTruthy(leadId) ==> path == "/leads/" + leadId.value
    ensures !PropTruthy(leadId) ==> path == "/tasks/" + newTaskId
  {
    if PropTruthy(leadId) then "/leads/" + leadId.value else "/tasks/" + newTaskId
  }

  /** An interaction as listed; its `lead_id` may be populated, a bare id, or missing. */
  datatype Interaction = Interaction(id: string, lead: JsValue)

  /** `interaction.lead_id._id` throws when `lead_id` is undefined or null. */
  predicate ReadThrows(i: Interaction) {
    i.lead == Undefined || i.lead == Null
  }

  /** `interaction.lead_id._id === leadId`: only a populated reference can match. */
  predicate ForLead(i: Interaction, leadId: string) {
    i.lead.Obj? && i.lead.id == Some(leadId)
  }

  /**
   * `interactions.filter(i => i.lead_id._id === leadId)`, run left to right;
   * None when the callback throws on some element.
   */
  function FilterForLead(list: seq<Interaction>, leadId: string): (r: Option<seq<Interaction>>)
    ensures r.None? <==> exists i :: i in list && ReadThrows(i)
    ensures r.Some? ==> forall x :: x in r.value <==> x in list && ForLead(x, leadId)
    ensures r.Some? ==> IsSubsequence(r.value, list)
  {
    if list == [] then Some([])
    else if ReadThrows(list[0]) then None
    else match FilterForLead(list[1..], leadId)
      case None => None
      case Some(rest) =>
        SubsequenceOfTail(rest, list);
        if ForLead(list[0], leadId) then
          assert list == [list[0]] + list[1..];
          Some([list[0]] + rest)
        else Some(rest)
  }

  /**
   * The interactions offered for `lead_id` given the listed ones (None when the
   * response has no `interactions`); None when the fetch ends in its `catch`.
   */
  function InteractionChoices(leadId: Option<string>, listed: Option<seq<Interaction>>): (r: Option<seq<Interaction>>)
    ensures !PropTruthy(leadId) ==> r == Some(listed.GetOr([]))
    ensures PropTruthy(leadId) && listed.None? ==> r.None?
    ensures PropTruthy(leadId) && listed.Some? ==> r == FilterForLead(listed.value, leadId.value)
  {
    if !PropTruthy(leadId) then Some(listed.GetOr([]))
    else if listed.None? then None
    else FilterForLead(listed.value, leadId.value)
  }

  /** A listed interaction whose `lead_id` is a bare id string is never offered for a lead. */
  lemma BareLeadIdDropped(list: seq<Interaction>, leadId: string, x: Interaction)
    requires x in list && x.lead.Str?
    ensures var r := FilterForLead(list, leadId); r.Some? ==> x !in r.value
  {
  }

  /** The add-task page's state. */
  class AddTaskPage {
    const router: Router
    const toaster: Toaster
    var form: TaskForm
    var submitting: bool
    var interactions: seq<Interaction>

    constructor(router: Router, toaster: Toaster)
      ensures this.router == router && this.toaster == toaster
      ensures form == TaskForm("", "", "", InitialStatus, InitialPriority, "", "")
      ensures !submitting && interactions == []
    {
      this.router := router;
      this.toaster := toaster;
      form := TaskForm("", "", "", InitialStatus, InitialPriority, "", "");
      submitting := false;
      interactions := [];
    }

    /** `fetchInteractions`: the choices replace `interactions`, or the failure is shown. */
    method FetchInteractions(leadId: Option<string>, response: Outcome<Option<seq<Interaction>>>)
      modifies this, toaster
      ensures form == old(form) && submitting == old(submitting)
      ensures var r := if response.Ok? then InteractionChoices(leadId, response.value) else None;
        (r.Some? ==> interactions == r.value && toaster.shown == old(toaster.shown))
        && (r.None? ==> interactions == old(interactions)
                        && toaster.shown == old(toaster.shown) + [Error("Failed to load interactions")])
    {
      var choices := if response.Ok? then InteractionChoices(leadId, response.value) else None;
      match choices {
        case Some(list) => interactions := list;
        case None => toaster.Show(Error("Failed to load interactions"));
      }
    }

    /**
     * `handleSubmit`: a rejected form shows its message and sends nothing;
     * otherwise the payload is sent (`sent`) and `submitting` ends false.
     */
    method HandleSubmit(leadId: Option<string>, created: Outcome<string>) returns (sent: Option<TaskPayload>)
      modifies this, router, toaster
      ensures form == old(form) && interactions == old(interactions)
      ensures Rejection(form).Some? ==>
        sent == None && submitting == old(submitting) && router.pushes == old(router.pushes)
        && toaster.shown == old(toaster.shown) + [Error(Rejection(form).value)]
      ensures Rejection(form).None? ==> sent == Some(Payload(form)) && !submitting
      ensures Rejection(form).None? && created.Ok? ==>
        router.pushes == old(router.pushes) + [NextPage(leadId, created.value)]
        && toaster.shown == old(toaster.shown) + [Success("Task created successfully")]
      ensures Rejection(form).None? && created.Fail? ==>
        router.pushes == old(router.pushes) && toaster.shown == old(toaster.shown) + [Error("Failed to create task")]
    {
      var rejection := Rejection(form);
      if rejection.Some? {
        toaster.Show(Error(rejection.value));
        sent := None;
        return;
      }
      submitting := true;
      sent := Some(Payload(form));
      match created {
        case Ok(id) =>
          toaster.Show(Success("Task created successfully"));
          router.Push(NextPage(leadId, id));
        case Fail(_) =>
          toaster.Show(Error("Failed to create task"));
      }
      submitting := false;
    }
  }
}
