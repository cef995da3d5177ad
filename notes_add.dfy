/**
 * src/pages/notes/add.tsx: the submit handler of the add-note page.
 */
module NotesAdd {
  import opened Wrappers
  import opened JsText
  import opened Web
  import opened ApiClient
  import opened Forms

  const ContentRequired := "Note content is required"
  const ClientRequired := "Please select a client"

  datatype NoteForm = NoteForm(contenu: string, clientId: string)

  /** The `noteData` object. */
  datatype NotePayload = NotePayload(contenu: string, clientId: string)

  /** Why the submit stops before any request, if it does: the content is checked first. */
  function Rejection(f: NoteForm): (r: Option<string>)
    ensures r == Some(ContentRequired) <==> AllSpace(f.contenu)
    ensures r == Some(ClientRequired) <==> !AllSpace(f.contenu) && f.clientId == ""
    ensures r.None? <==> !AllSpace(f.contenu) && f.clientId != ""
  {
    if Blank(f.contenu) then Some(ContentRequired)
    else if !Truthy(f.clientId) then Some(ClientRequired)
    else None
  }

  /** The add-note page's state. */
  class AddNotePage {
    const router: Router
    const toaster: Toaster
    var form: NoteForm
    var submitting: bool

    constructor(router: Router, toaster: Toaster)
      ensures this.router == router && this.toaster == toaster
      ensures form == NoteForm("", "") && !submitting
    {
      this.router := router;
      this.toaster := toaster;
      form := NoteForm("", "");
      submitting := false;
    }

    /**
     * `handleSubmit`: a rejected form shows its message and sends nothing.
     * Otherwise `{contenu, client_id}` is sent untrimmed. On success the page
     * moves to the new note and `submitting` stays true; on failure it is reset.
     */
    method HandleSubmit(created: Outcome<string>) returns (sent: Option<NotePayload>)
      modifies this, router, toaster
      ensures form == old(form)
      ensures Rejection(form).Some? ==>
        sent == None && submitting == old(submitting) && router.pushes == old(router.pushes)
        && toaster.shown == old(toaster.shown) + [Error(Rejection(form).value)]
      ensures Rejection(form).None? ==> sent == Some(NotePayload(form.contenu, form.clientId))
      ensures Rejection(form).None? && created.Ok? ==>
        submitting && router.pushes == old(router.pushes) + ["/notes/" + created.value]
        && toaster.shown == old(toaster.shown) + [Success("Note created successfully")]
      ensures Rejection(form).None? && created.Fail? ==>
        !submitting && router.pushes == old(router.pushes)
        && toaster.shown == old(toaster.shown) + [Error("Failed to create note")]
    {
      var rejection := Rejection(form);
      if rejection.Some? {
        toaster.Show(Error(rejection.value));
        sent := None;
        return;
      }
      submitting := true;
      sent := Some(NotePayload(form.contenu, form.clientId));
      match created {
        case Ok(id) =>
          toaster.Show(Success("Note created successfully"));
          router.Push("/notes/" + id);
        case Fail(_) =>
          toaster.Show(Error("Failed to create note"));
          submitting := false;
      }
    }
  }
}
