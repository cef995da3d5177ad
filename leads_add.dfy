/**
 * src/pages/leads/add.tsx: the submit handler of the add-lead page.
 */
module LeadsAdd {
  import opened Wrappers
  import opened JsText
  import opened Web
  import opened ApiClient
  import opened Forms
  import CrmTypes

  const NameRequired := "Lead name is required"
  const LeadsPage := "/leads"

  /** The form's fields; `source` starts empty and `status` at `Start-to-Call`. */
  datatype LeadForm = LeadForm(name: string, clientId: string, source: string, status: string,
                               estimatedValue: string, description: string, userId: string)

  /**
   * The `leadData` object. `valeur_estimee` is kept as the text `parseFloat`
   * would read, present exactly when the field is non-empty.
   */
  datatype LeadPayload = LeadPayload(name: string, clientId: Option<string>, source: string, statut: string,
                                     estimatedValue: Option<string>, description: Option<string>)

  /** The submit stops before any request exactly when the name is blank. */
  function Rejection(f: LeadForm): (r: Option<string>)
    ensures r.Some? <==> AllSpace(f.name)
    ensures r.Some? ==> r.value == NameRequired
  {
    if Blank(f.name) then Some(NameRequired) else None
  }

  /**
   * The payload: empty client and description become undefined, the source is
   * sent as it is (empty included), and the selected user is not sent at all.
   */
  function Payload(f: LeadForm): (p: LeadPayload)
    ensures p.name == f.name && p.source == f.source && p.statut == f.status
    ensures p.clientId == OrUndefined(f.clientId) && p.description == OrUndefined(f.description)
    ensures p.estimatedValue.Some? <==> f.estimatedValue != ""
  {
    LeadPayload(f.name, OrUndefined(f.clientId), f.source, f.status, OrUndefined(f.estimatedValue),
                OrUndefined(f.description))
  }

  /** Two forms that differ only in the selected user send the same payload. */
  lemma UserNotSent(f: LeadForm, userId: string)
    ensures Payload(f.(userId := userId)) == Payload(f)
  {
  }

  /** The add-lead page's state. */
  class AddLeadPage {
    const router: Router
    const toaster: Toaster
    var form: LeadForm
    var submitting: bool

    constructor(router: Router, toaster: Toaster)
      ensures this.router == router && this.toaster == toaster
      ensures form == LeadForm("", "", "", CrmTypes.LeadStatus.StartToCall.Value(), "", "", "") && !submitting
    {
      this.router := router;
      this.toaster := toaster;
      form := LeadForm("", "", "", CrmTypes.LeadStatus.StartToCall.Value(), "", "", "");
      submitting := false;
    }

    /**
     * `handleSubmit`: a blank name shows its message and sends nothing;
     * otherwise the payload is sent (`sent`), success moves to `/leads`, and
     * `submitting` ends false.
     */
    method HandleSubmit(created: Outcome<()>) returns (sent: Option<LeadPayload>)
      modifies this, router, toaster
      ensures form == old(form)
      ensures Rejection(form).Some? ==>
        sent == None && submitting == old(submitting) && router.pushes == old(router.pushes)
        && toaster.shown == old(toaster.shown) + [Error(NameRequired)]
      ensures Rejection(form).None? ==> sent == Some(Payload(form)) && !submitting
      ensures Rejection(form).None? && created.Ok? ==>
        router.pushes == old(router.pushes) + [LeadsPage]
        && toaster.shown == old(toaster.shown) + [Success("Lead created successfully")]
      ensures Rejection(form).None? && created.Fail? ==>
        router.pushes == old(router.pushes) && toaster.shown == old(toaster.shown) + [Error("Failed to create lead")]
    {
      var rejection := Rejection(form);
      if rejection.Some? {
        toaster.Show(Error(rejection.value));
        sent := None;
        return;
      }
      submitting := true;
      sent := Some(Payload(form));
      match created {
        case Ok(_) =>
          toaster.Show(Success("Lead created successfully"));
          router.Push(LeadsPage);
        case Fail(_) =>
          toaster.Show(Error("Failed to create lead"));
      }
      submitting := false;
    }
  }
}
