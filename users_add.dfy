/**
 * src/pages/users/add.tsx: `validateForm` and the submit handler of the
 * add-user page.
 */
module UsersAdd {
  import opened Wrappers
  import opened JsText
  import opened Web
  import opened ApiClient
  import opened Forms

  const NameRequired := "Name is required"
  const EmailRequired := "Email is required"
  const EmailInvalid := "Email is invalid"
  const PasswordRequired := "Password is required"
  const PasswordTooShort := "Password must be at least 6 characters"
  const PasswordsDiffer := "Passwords do not match"
  const MinPasswordLength := 6
  /** `UserRole.SALES`, the initial role. */
  const DefaultRole := "sales"
  const UsersPage := "/users"

  /** The form's fields. */
  datatype UserForm = UserForm(name: string, email: string, password: string, confirmPassword: string,
                               role: string, companyId: string)

  /** The `errors` record: one optional message per field. */
  datatype Errors = Errors(name: Option<string>, email: Option<string>, password: Option<string>,
                           confirmPassword: Option<string>)

  /** The body sent to create the user. */
  datatype UserPayload = UserPayload(name: string, email: string, password: string, role: string)

  /** No white space anywhere in `t` (`\S` throughout). */
  predicate NoSpace(t: string) {
    forall i :: 0 <= i < |t| ==> !IsSpace(t[i])
  }

  /**
   * `/\S+@\S+\.\S+/.test(s)`, unanchored: somewhere in `s` a non-space, an
   * `@` at `p`, at least one non-space, a `.` at `q`, and a non-space follow
   * each other with no white space in between.
   */
  predicate EmailShape(s: string) {
    exists p, q | 0 < p < |s| && p + 2 <= q < |s| - 1 :: s[p] == '@' && s[q] == '.' && NoSpace(s[p - 1..q + 2])
  }

  /** `validateForm`'s record: each rule, in the source's order and with its message. */
  function ValidateForm(f: UserForm): (e: Errors)
    ensures e.name.Some? <==> AllSpace(f.name)
    ensures e.email == Some(EmailRequired) <==> AllSpace(f.email)
    ensures e.email == Some(EmailInvalid) <==> !AllSpace(f.email) && !EmailShape(f.email)
    ensures e.email.None? <==> !AllSpace(f.email) && EmailShape(f.email)
    ensures e.password == Some(PasswordRequired) <==> f.password == ""
    ensures e.password == Some(PasswordTooShort) <==> 0 < |f.password| < MinPasswordLength
    ensures e.password.None? <==> |f.password| >= MinPasswordLength
    ensures e.confirmPassword.Some? <==> f.password != f.confirmPassword
  {
    Errors(
      if Blank(f.name) then Some(NameRequired) else None,
      if Blank(f.email) then Some(EmailRequired) else if !EmailShape(f.email) then Some(EmailInvalid) else None,
      if !Truthy(f.password) then Some(PasswordRequired)
      else if |f.password| < MinPasswordLength then Some(PasswordTooShort) else None,
      if f.password != f.confirmPassword then Some(PasswordsDiffer) else None)
  }

  /** `Object.keys(newErrors).length === 0`. */
  predicate NoErrors(e: Errors) {
    e.name.None? && e.email.None? && e.password.None? && e.confirmPassword.None?
  }

  /** An email of the pattern's shape is never blank. */
  lemma ShapedEmailNotBlank(s: string)
    requires EmailShape(s)
    ensures !AllSpace(s)
  {
    var p, q :| 0 < p < |s| && p + 2 <= q < |s| - 1 && s[p] == '@' && s[q] == '.' && NoSpace(s[p - 1..q + 2]);
    assert s[p] == s[p - 1..q + 2][1];
  }

  /** The form validates exactly when all four rules pass. */
  lemma ValidIffRulesHold(f: UserForm)
    ensures NoErrors(ValidateForm(f)) <==>
      !AllSpace(f.name) && EmailShape(f.email) && |f.password| >= MinPasswordLength && f.password == f.confirmPassword
  {
    if EmailShape(f.email) {
      ShapedEmailNotBlank(f.email);
    }
  }

  /**
   * Any text with `local@domain.tld` somewhere inside passes, whatever
   * surrounds it: the pattern is not anchored.
   */
  lemma EmailShapeInside(before: string, local: string, domain: string, tld: string, after: string)
    requires local != "" && domain != "" && tld != ""
    requires NoSpace(local) && NoSpace(domain) && NoSpace(tld)
    ensures EmailShape(before + local + "@" + domain + "." + tld + after)
  {
    var s := before + local + "@" + domain + "." + tld + after;
    var p := |before| + |local|;
    var q := p + 1 + |domain|;
    assert s[p] == '@';
    assert s[q] == '.';
    var w := s[p - 1..q + 2];
    forall i | 0 <= i < |w|
      ensures !IsSpace(w[i])
    {
      var k := p - 1 + i;
      assert w[i] == s[k];
      if k == p - 1 {
        assert s[k] == local[|local| - 1];
      } else if p < k < q {
        assert s[k] == domain[k - p - 1];
      } else if k == q + 1 {
        assert s[k] == tld[0];
      }
    }
  }

  /** An address without a dot never passes. */
  lemma NoDotNoShape(s: string)
    requires '.' !in s
    ensures !EmailShape(s)
  {
  }

  /** The `userData` object: `confirmPassword` and `companyId` are never sent. */
  function Payload(f: UserForm): (p: UserPayload)
    ensures p.name == f.name && p.email == f.email && p.password == f.password && p.role == f.role
  {
    UserPayload(f.name, f.email, f.password, f.role)
  }

  /** The add-user page's state. */
  class AddUserPage {
    const router: Router
    const toaster: Toaster
    var form: UserForm
    var errors: Errors
    var submitting: bool

    constructor(router: Router, toaster: Toaster)
      ensures this.router == router && this.toaster == toaster
      ensures form == UserForm("", "", "", "", DefaultRole, "")
      ensures errors == Errors(None, None, None, None) && !submitting
    {
      this.router := router;
      this.toaster := toaster;
      form := UserForm("", "", "", "", DefaultRole, "");
      errors := Errors(None, None, None, None);
      submitting := false;
    }

    /**
     * `handleSubmit`: the errors are stored; an invalid form sends nothing.
     * Otherwise the payload is sent (`sent`), the outcome is reported, and
     * `submitting` ends false.
     */
    method HandleSubmit(created: Outcome<()>) returns (sent: Option<UserPayload>)
      modifies this, router, toaster
      ensures form == old(form) && errors == ValidateForm(form)
      ensures !NoErrors(errors) ==>
        sent == None && submitting == old(submitting)
        && router.pushes == old(router.pushes) && toaster.shown == old(toaster.shown)
      ensures NoErrors(errors) ==> sent == Some(Payload(form)) && !submitting
      ensures NoErrors(errors) && created.Ok? ==>
        router.pushes == old(router.pushes) + [UsersPage]
        && toaster.shown == old(toaster.shown) + [Success("User added successfully")]
      ensures NoErrors(errors) && created.Fail? ==>
        router.pushes == old(router.pushes)
        && toaster.shown == old(toaster.shown) + [Error("Failed to add user")]
    {
      var e := ValidateForm(form);
      errors := e;
      if !NoErrors(e) {
        sent := None;
        return;
      }
      submitting := true;
      sent := Some(Payload(form));
      match created {
        case Ok(_) =>
          toaster.Show(Success("User added successfully"));
          router.Push(UsersPage);
        case Fail(_) =>
          toaster.Show(Error("Failed to add user"));
      }
      submitting := false;
    }
  }
}
