/**
 * Display helpers of src/utils/dataFormatters.ts. Every helper is total over
 * whatever the API put in a field: nothing, an id string, or a populated
 * reference object.
 */
module DataFormatters {
  import opened Wrappers
  import opened JsText
  import opened JsValues
  import opened Badges
  import CrmTypes

  // ---------------------------------------------------------------- dates

  /** What `formatDate` shows: fixed text, or the value rendered by `toLocaleString('fr-FR')`. */
  datatype DateDisplay = Text(text: string) | Localized(value: JsValue)

  /** `formatDate`: 'N/A' for falsy input, a reference object's name, else the locale rendering. */
  function FormatDate(v: JsValue): (r: DateDisplay)
    ensures !v.Truthy() ==> r == Text("N/A")
    ensures v.Obj? && PropTruthy(v.id) && PropTruthy(v.name) ==> r == Text(v.name.value)
    ensures r.Localized? <==> v.Truthy() && !(v.Obj? && PropTruthy(v.id) && PropTruthy(v.name))
    ensures r.Localized? ==> r.value == v
    ensures r.Text? ==> r.text != ""
  {
    if !v.Truthy() then Text("N/A")
    else if v.Obj? && PropTruthy(v.id) && PropTruthy(v.name) then Text(v.name.value)
    else Localized(v)
  }

  // ---------------------------------------------------------- references

  /** `getNameFromRef(ref, defaultValue)`; the `prenom name` branch comes after a return on `name` and is dead. */
  function GetNameFromRef(ref: JsValue, default: string): (r: string)
    ensures !ref.Truthy() ==> r == default
    ensures ref.Str? && ref.s != "" ==> r == ref.s
    ensures ref.Obj? && PropTruthy(ref.name) ==> r == ref.name.value
    ensures ref.Obj? && !PropTruthy(ref.name) && PropTruthy(ref.titre) ==> r == ref.titre.value
    ensures ref.Obj? && !PropTruthy(ref.name) && !PropTruthy(ref.titre) ==> r == default
    ensures default != "" ==> r != ""
  {
    if !ref.Truthy() then default
    else match ref
      case Str(s) => s
      case Obj(_, name, prenom, titre) =>
        if PropTruthy(name) then name.value
        else if PropTruthy(prenom) && PropTruthy(name) then prenom.GetOr("") + " " + name.GetOr("")
        else if PropTruthy(titre) then titre.value
        else default
      case _ => default
  }

  /** The default display name. */
  const NotAvailable := "N/A"

  /** `getIdFromRef(ref)`: the id a reference carries, or '' when it carries none. */
  function GetIdFromRef(ref: JsValue): (r: string)
    ensures r == "" || (ref.Str? && r == ref.s) || (ref.Obj? && ref.id == Some(r))
    ensures r != "" <==> (ref.Str? && ref.s != "") || (ref.Obj? && PropTruthy(ref.id))
  {
    if !ref.Truthy() then ""
    else match ref
      case Str(s) => s
      case Obj(id, _, _, _) => if PropTruthy(id) then id.value else ""
      case _ => ""
  }

  /** The `prenom` of a reference never changes its display name. */
  lemma NameIgnoresPrenom(id: Option<string>, name: Option<string>, p1: Option<string>, p2: Option<string>,
                          titre: Option<string>, default: string)
    ensures GetNameFromRef(Obj(id, name, p1, titre), default) == GetNameFromRef(Obj(id, name, p2, titre), default)
  {
  }

  /** An id extracted from a reference is a reference to itself. */
  lemma IdFromRefIdempotent(ref: JsValue)
    ensures GetIdFromRef(Str(GetIdFromRef(ref))) == GetIdFromRef(ref)
  {
  }

  // ------------------------------------------------------- label helpers

  /** A reference object's label: its `name` when it has both `_id` and `name`. */
  function RefLabel(id: Option<string>, name: Option<string>, unknown: string): string {
    if PropTruthy(id) && PropTruthy(name) then name.value else unknown
  }

  /** `String(value) || unknown` for a value outside the enumeration. */
  function OtherLabel(v: JsValue, unknown: string): string {
    if ToJsString(v) != "" then ToJsString(v) else unknown
  }

  /** The fixed label of each role. */
  function RoleLabel(m: CrmTypes.UserRole): string {
    match m
    case Admin => "Admin"
    case Sales => "Sales"
  }

  function SourceLabel(m: CrmTypes.LeadSource): string {
    match m
    case Website => "Website"
    case Referral => "Referral"
    case Event => "Event"
    case Outbound => "Outbound"
    case Inbound => "Inbound"
  }

  function LeadStatusLabel(m: CrmTypes.LeadStatus): string {
    match m
    case StartToCall => "Start to Call"
    case CallToConnect => "Call to Connect"
    case ConnectToContact => "Connect to Contact"
    case ContactToDemo => "Contact to Demo"
    case DemoToClose => "Demo to Close"
    case Lost => "Lost"
  }

  function InteractionTypeLabel(m: CrmTypes.InteractionType): string {
    match m
    case Call => "Call"
    case Email => "Email"
    case Meeting => "Meeting"
  }

  function TaskStatusLabel(m: CrmTypes.TaskStatus): string {
    match m
    case Pending => "Pending"
    case InProgress => "In Progress"
    case Completed => "Completed"
  }

  // -------------------------------------------------------------- labels

  /** `formatUserRole`. */
  function FormatUserRole(v: JsValue): (r: string)
    ensures r != ""
  {
    match v
    case Obj(id, name, _, _) => RefLabel(id, name, "Unknown Role")
    case Str(s) => (
      match CrmTypes.UserRole.Parse(s)
      case Some(m) => RoleLabel(m)
      case None => OtherLabel(v, "Unknown Role"))
    case _ => OtherLabel(v, "Unknown Role")
  }

  /** `formatLeadSource`. */
  function FormatLeadSource(v: JsValue): (r: string)
    ensures r != ""
  {
    match v
    case Obj(id, name, _, _) => RefLabel(id, name, "Unknown Source")
    case Str(s) => (
      match CrmTypes.LeadSource.Parse(s)
      case Some(m) => SourceLabel(m)
      case None => OtherLabel(v, "Unknown Source"))
    case _ => OtherLabel(v, "Unknown Source")
  }

  /** `formatLeadStatus`. */
  function FormatLeadStatus(v: JsValue): (r: string)
    ensures r != ""
  {
    match v
    case Obj(id, name, _, _) => RefLabel(id, name, "Unknown Status")
    case Str(s) => (
      match CrmTypes.LeadStatus.Parse(s)
      case Some(m) => LeadStatusLabel(m)
      case None => OtherLabel(v, "Unknown Status"))
    case _ => OtherLabel(v, "Unknown Status")
  }

  /** `formatInteractionType`. */
  function FormatInteractionType(v: JsValue): (r: string)
    ensures r != ""
  {
    match v
    case Obj(id, name, _, _) => RefLabel(id, name, "Unknown Type")
    case Str(s) => (
      match CrmTypes.InteractionType.Parse(s)
      case Some(m) => InteractionTypeLabel(m)
      case None => OtherLabel(v, "Unknown Type"))
    case _ => OtherLabel(v, "Unknown Type")
  }

  /** `formatTaskStatus`. */
  function FormatTaskStatus(v: JsValue): (r: string)
    ensures r != ""
  {
    match v
    case Obj(id, name, _, _) => RefLabel(id, name, "Unknown Status")
    case Str(s) => (
      match CrmTypes.TaskStatus.Parse(s)
      case Some(m) => TaskStatusLabel(m)
      case None => OtherLabel(v, "Unknown Status"))
    case _ => OtherLabel(v, "Unknown Status")
  }

  /**
   * What every `format*` label function does: objects show their name when they
   * have `_id` and `name`, else the unknown text; enum values show their label;
   * any other value shows its own text, and only '' falls back to the unknown text.
   */
  lemma FormatRoleCases(v: JsValue)
    ensures v.Obj? ==> FormatUserRole(v) == (if PropTruthy(v.id) && PropTruthy(v.name) then v.name.value else "Unknown Role")
    ensures forall m: CrmTypes.UserRole :: v == Str(m.Value()) ==> FormatUserRole(v) == RoleLabel(m)
    ensures v.Str? && CrmTypes.UserRole.Parse(v.s).None? ==> FormatUserRole(v) == (if v.s == "" then "Unknown Role" else v.s)
    ensures v == Null ==> FormatUserRole(v) == "null"
    ensures v == Undefined ==> FormatUserRole(v) == "undefined"
  {
  }

  lemma FormatTaskStatusCases(v: JsValue)
    ensures v.Obj? ==> FormatTaskStatus(v) == (if PropTruthy(v.id) && PropTruthy(v.name) then v.name.value else "Unknown Status")
    ensures forall m: CrmTypes.TaskStatus :: v == Str(m.Value()) ==> FormatTaskStatus(v) == TaskStatusLabel(m)
    ensures v.Str? && CrmTypes.TaskStatus.Parse(v.s).None? ==> FormatTaskStatus(v) == (if v.s == "" then "Unknown Status" else v.s)
    ensures v == Null ==> FormatTaskStatus(v) == "null"
    ensures v == Undefined ==> FormatTaskStatus(v) == "undefined"
  {
  }

  lemma FormatSourceCases(v: JsValue)
    ensures v.Obj? ==> FormatLeadSource(v) == (if PropTruthy(v.id) && PropTruthy(v.name) then v.name.value else "Unknown Source")
    ensures forall m: CrmTypes.LeadSource :: v == Str(m.Value()) ==> FormatLeadSource(v) == SourceLabel(m)
    ensures v.Str? && CrmTypes.LeadSource.Parse(v.s).None? ==> FormatLeadSource(v) == (if v.s == "" then "Unknown Source" else v.s)
    ensures v == Null ==> FormatLeadSource(v) == "null"
    ensures v == Undefined ==> FormatLeadSource(v) == "undefined"
  {
  }

  lemma FormatLeadStatusCases(v: JsValue)
    ensures v.Obj? ==> FormatLeadStatus(v) == (if PropTruthy(v.id) && PropTruthy(v.name) then v.name.value else "Unknown Status")
    ensures forall m: CrmTypes.LeadStatus :: v == Str(m.Value()) ==> FormatLeadStatus(v) == LeadStatusLabel(m)
    ensures v.Str? && CrmTypes.LeadStatus.Parse(v.s).None? ==> FormatLeadStatus(v) == (if v.s == "" then "Unknown Status" else v.s)
    ensures v == Null ==> FormatLeadStatus(v) == "null"
    ensures v == Undefined ==> FormatLeadStatus(v) == "undefined"
  {
  }

  lemma FormatInteractionTypeCases(v: JsValue)
    ensures v.Obj? ==> FormatInteractionType(v) == (if PropTruthy(v.id) && PropTruthy(v.name) then v.name.value else "Unknown Type")
    ensures forall m: CrmTypes.InteractionType :: v == Str(m.Value()) ==> FormatInteractionType(v) == InteractionTypeLabel(m)
    ensures v.Str? && CrmTypes.InteractionType.Parse(v.s).None? ==> FormatInteractionType(v) == (if v.s == "" then "Unknown Type" else v.s)
    ensures v == Null ==> FormatInteractionType(v) == "null"
    ensures v == Undefined ==> FormatInteractionType(v) == "undefined"
  {
  }

  // -------------------------------------------------------------- badges

  /** Index of the first keyword, from `i` on, that `text` includes. */
  function FirstMatchFrom(text: string, keywords: seq<string>, i: nat): (r: Option<nat>)
    requires i <= |keywords|
    ensures r.Some? ==> i <= r.value < |keywords| && Contains(text, keywords[r.value])
    ensures r.Some? ==> forall j :: i <= j < r.value ==> !Contains(text, keywords[j])
    ensures r.None? ==> forall j :: i <= j < |keywords| ==> !Contains(text, keywords[j])
    decreases |keywords| - i
  {
    if i == |keywords| then None
    else if Contains(text, keywords[i]) then Some(i)
    else FirstMatchFrom(text, keywords, i + 1)
  }

  /** The colour of a reference object: first keyword its lower-cased `name` includes; gray without `_id` or match. */
  function KeywordBadge(id: Option<string>, name: Option<string>, keywords: seq<string>, colors: seq<string>): (r: string)
    requires |colors| == |keywords|
    ensures r == Gray || r in colors
    ensures var k := FirstMatchFrom(Lower(name.GetOr("")), keywords, 0);
      (!PropTruthy(id) || k.None? ==> r == Gray) && (PropTruthy(id) && k.Some? ==> r == colors[k.value])
  {
    if PropTruthy(id) then
      match FirstMatchFrom(Lower(name.GetOr("")), keywords, 0)
      case Some(i) => colors[i]
      case None => Gray
    else Gray
  }

  const RoleKeywords: seq<string> := ["admin", "sales"]
  const RoleColors: seq<string> := [Red, Green]

  function RoleColor(m: CrmTypes.UserRole): string {
    match m
    case Admin => Red
    case Sales => Green
  }

  /** `getUserRoleBadgeColor`. */
  function GetUserRoleBadgeColor(v: JsValue): (r: string)
    ensures r in {Red, Green, Gray}
    ensures forall m: CrmTypes.UserRole :: v == Str(m.Value()) ==> r == RoleColor(m)
    ensures v.Str? && CrmTypes.UserRole.Parse(v.s).None? ==> r == Gray
    ensures v == Null || v == Undefined ==> r == Gray
    ensures v.Obj? ==> r == KeywordBadge(v.id, v.name, RoleKeywords, RoleColors)
  {
    match v
    case Obj(id, name, _, _) => KeywordBadge(id, name, RoleKeywords, RoleColors)
    case Str(s) => (
      match CrmTypes.UserRole.Parse(s)
      case Some(m) => RoleColor(m)
      case None => Gray)
    case _ => Gray
  }

  const SourceKeywords: seq<string> := ["website", "referral", "event", "outbound", "inbound"]
  const SourceColors: seq<string> := [Blue, Green, Purple, Orange, Teal]

  function SourceColor(m: CrmTypes.LeadSource): string {
    match m
    case Website => Blue
    case Referral => Green
    case Event => Purple
    case Outbound => Orange
    case Inbound => Teal
  }

  /** `getLeadSourceBadgeColor`. */
  function GetLeadSourceBadgeColor(v: JsValue): (r: string)
    ensures r in {Blue, Green, Purple, Orange, Teal, Gray}
    ensures forall m: CrmTypes.LeadSource :: v == Str(m.Value()) ==> r == SourceColor(m)
    ensures v.Str? && CrmTypes.LeadSource.Parse(v.s).None? ==> r == Gray
    ensures v == Null || v == Undefined ==> r == Gray
    ensures v.Obj? ==> r == KeywordBadge(v.id, v.name, SourceKeywords, SourceColors)
  {
    match v
    case Obj(id, name, _, _) => KeywordBadge(id, name, SourceKeywords, SourceColors)
    case Str(s) => (
      match CrmTypes.LeadSource.Parse(s)
      case Some(m) => SourceColor(m)
      case None => Gray)
    case _ => Gray
  }

  const LeadStatusKeywords: seq<string> :=
    ["start-to-call", "call-to-connect", "connect-to-contact", "contact-to-demo", "demo-to-close", "lost"]
  const LeadStatusColors: seq<string> := [Blue, Yellow, Green, Purple, Indigo, Red]

  function LeadStatusColor(m: CrmTypes.LeadStatus): string {
    match m
    case StartToCall => Blue
    case CallToConnect => Yellow
    case ConnectToContact => Green
    case ContactToDemo => Purple
    case DemoToClose => Indigo
    case Lost => Red
  }

  /** `getLeadStatusBadgeColor`. */
  function GetLeadStatusBadgeColor(v: JsValue): (r: string)
    ensures r in {Blue, Yellow, Green, Purple, Indigo, Red, Gray}
    ensures forall m: CrmTypes.LeadStatus :: v == Str(m.Value()) ==> r == LeadStatusColor(m)
    ensures v.Str? && CrmTypes.LeadStatus.Parse(v.s).None? ==> r == Gray
    ensures v == Null || v == Undefined ==> r == Gray
    ensures v.Obj? ==> r == KeywordBadge(v.id, v.name, LeadStatusKeywords, LeadStatusColors)
  {
    match v
    case Obj(id, name, _, _) => KeywordBadge(id, name, LeadStatusKeywords, LeadStatusColors)
    case Str(s) => (
      match CrmTypes.LeadStatus.Parse(s)
      case Some(m) => LeadStatusColor(m)
      case None => Gray)
    case _ => Gray
  }

  const InteractionKeywords: seq<string> := ["call", "email", "meeting"]
  const InteractionColors: seq<string> := [Blue, Purple, Green]

  function InteractionTypeColor(m: CrmTypes.InteractionType): string {
    match m
    case Call => Blue
    case Email => Purple
    case Meeting => Green
  }

  /** `getInteractionTypeBadgeColor`. */
  function GetInteractionTypeBadgeColor(v: JsValue): (r: string)
    ensures r in {Blue, Purple, Green, Gray}
    ensures forall m: CrmTypes.InteractionType :: v == Str(m.Value()) ==> r == InteractionTypeColor(m)
    ensures v.Str? && CrmTypes.InteractionType.Parse(v.s).None? ==> r == Gray
    ensures v == Null || v == Undefined ==> r == Gray
    ensures v.Obj? ==> r == KeywordBadge(v.id, v.name, InteractionKeywords, InteractionColors)
  {
    match v
    case Obj(id, name, _, _) => KeywordBadge(id, name, InteractionKeywords, InteractionColors)
    case Str(s) => (
      match CrmTypes.InteractionType.Parse(s)
      case Some(m) => InteractionTypeColor(m)
      case None => Gray)
    case _ => Gray
  }

  const TaskStatusKeywords: seq<string> := ["pending", "progress", "completed"]
  const TaskStatusColors: seq<string> := [Yellow, Blue, Green]

  function TaskStatusColor(m: CrmTypes.TaskStatus): string {
    match m
    case Pending => Yellow
    case InProgress => Blue
    case Completed => Green
  }

  /** `getTaskStatusBadgeColor`. */
  function GetTaskStatusBadgeColor(v: JsValue): (r: string)
    ensures r in {Yellow, Blue, Green, Gray}
    ensures forall m: CrmTypes.TaskStatus :: v == Str(m.Value()) ==> r == TaskStatusColor(m)
    ensures v.Str? && CrmTypes.TaskStatus.Parse(v.s).None? ==> r == Gray
    ensures v == Null || v == Undefined ==> r == Gray
    ensures v.Obj? ==> r == KeywordBadge(v.id, v.name, TaskStatusKeywords, TaskStatusColors)
  {
    match v
    case Obj(id, name, _, _) => KeywordBadge(id, name, TaskStatusKeywords, TaskStatusColors)
    case Str(s) => (
      match CrmTypes.TaskStatus.Parse(s)
      case Some(m) => TaskStatusColor(m)
      case None => Gray)
    case _ => Gray
  }

  // --------------------------------- references coloured like their member

  /** The first-match search lands on `k` when `text` includes keyword `k` and none before it. */
  lemma FirstMatchIs(text: string, keywords: seq<string>, k: nat)
    requires k < |keywords| && Contains(text, keywords[k])
    requires forall j :: 0 <= j < k ==> !Contains(text, keywords[j])
    ensures FirstMatchFrom(text, keywords, 0) == Some(k)
  {
  }

  /** A reference with an `_id` whose lower-cased name first matches keyword `k` gets colour `k`. */
  lemma KeywordBadgeAt(id: string, name: string, keywords: seq<string>, colors: seq<string>, k: nat)
    requires id != "" && |colors| == |keywords|
    requires FirstMatchFrom(Lower(name), keywords, 0) == Some(k)
    ensures KeywordBadge(Some(id), Some(name), keywords, colors) == colors[k]
  {
  }

  lemma LowerOfLowercase(s: string)
    requires forall i :: 0 <= i < |s| ==> !('A' <= s[i] <= 'Z')
    ensures Lower(s) == s
  {
  }

  /** Lower-casing `s` gives `t` when they agree character by character. */
  lemma LowerByChars(s: string, t: string)
    requires |s| == |t| && forall i :: 0 <= i < |s| ==> LowerChar(s[i]) == t[i]
    ensures Lower(s) == t
  {
  }

  /**
   * The search lands on keyword `k` of a text that includes it when every earlier keyword is
   * longer than the text or holds a character (`missing[j]`) the text lacks.
   */
  lemma FirstMatchByMissingChars(text: string, keywords: seq<string>, k: nat, missing: seq<char>)
    requires k < |keywords| && Contains(text, keywords[k]) && |missing| == k
    requires forall j :: 0 <= j < k ==>
      |keywords[j]| > |text| || (missing[j] in keywords[j] && missing[j] !in text)
    ensures FirstMatchFrom(text, keywords, 0) == Some(k)
  {
    forall j | 0 <= j < k
      ensures !Contains(text, keywords[j])
    {
      if |keywords[j]| > |text| {
        LongerNotContained(text, keywords[j]);
      } else {
        MissingCharNotContained(text, keywords[j], missing[j]);
      }
    }
    FirstMatchIs(text, keywords, k);
  }

  lemma RoleAdminFirstMatch()
    ensures FirstMatchFrom("admin", RoleKeywords, 0) == Some(0)
  {
    ContainsSelf("admin");
    FirstMatchByMissingChars("admin", RoleKeywords, 0, "");
  }

  lemma RoleSalesFirstMatch()
    ensures FirstMatchFrom("sales", RoleKeywords, 0) == Some(1)
  {
    ContainsSelf("sales");
    FirstMatchByMissingChars("sales", RoleKeywords, 1, "d");
  }

  /** A role's own value, lower-cased, first matches that member's keyword. */
  lemma RoleKeywordIndex(m: CrmTypes.UserRole)
    ensures FirstMatchFrom(Lower(m.Value()), RoleKeywords, 0) == Some(m.Index())
  {
    LowerOfLowercase(m.Value());
    match m
    case Admin => RoleAdminFirstMatch();
    case Sales => RoleSalesFirstMatch();
  }

  /** A role reference named after a member is coloured like that member passed directly. */
  lemma RoleReferenceColouredLikeMember(m: CrmTypes.UserRole, id: string, prenom: Option<string>, titre: Option<string>)
    requires id != ""
    ensures GetUserRoleBadgeColor(Obj(Some(id), Some(m.Value()), prenom, titre)) == GetUserRoleBadgeColor(Str(m.Value()))
  {
    RoleKeywordIndex(m);
    KeywordBadgeAt(id, m.Value(), RoleKeywords, RoleColors, m.Index());
  }

  lemma SourceWebsiteFirstMatch()
    ensures FirstMatchFrom("website", SourceKeywords, 0) == Some(0)
  {
    ContainsSelf("website");
    FirstMatchByMissingChars("website", SourceKeywords, 0, "");
  }

  lemma SourceReferralFirstMatch()
    ensures FirstMatchFrom("referral", SourceKeywords, 0) == Some(1)
  {
    ContainsSelf("referral");
    FirstMatchByMissingChars("referral", SourceKeywords, 1, "w");
  }

  lemma SourceEventFirstMatch()
    ensures FirstMatchFrom("event", SourceKeywords, 0) == Some(2)
  {
    ContainsSelf("event");
    FirstMatchByMissingChars("event", SourceKeywords, 2, "wr");
  }

  lemma SourceOutboundFirstMatch()
    ensures FirstMatchFrom("outbound", SourceKeywords, 0) == Some(3)
  {
    ContainsSelf("outbound");
    FirstMatchByMissingChars("outbound", SourceKeywords, 3, "wre");
  }

  lemma SourceInboundFirstMatch()
    ensures FirstMatchFrom("inbound", SourceKeywords, 0) == Some(4)
  {
    ContainsSelf("inbound");
    FirstMatchByMissingChars("inbound", SourceKeywords, 4, "wret");
  }

  /** A lead source's own value, lower-cased, first matches that member's keyword. */
  lemma SourceKeywordIndex(m: CrmTypes.LeadSource)
    ensures FirstMatchFrom(Lower(m.Value()), SourceKeywords, 0) == Some(m.Index())
  {
    LowerOfLowercase(m.Value());
    match m
    case Website => SourceWebsiteFirstMatch();
    case Referral => SourceReferralFirstMatch();
    case Event => SourceEventFirstMatch();
    case Outbound => SourceOutboundFirstMatch();
    case Inbound => SourceInboundFirstMatch();
  }

  /** A lead source reference named after a member is coloured like that member passed directly. */
  lemma SourceReferenceColouredLikeMember(m: CrmTypes.LeadSource, id: string, prenom: Option<string>, titre: Option<string>)
    requires id != ""
    ensures GetLeadSourceBadgeColor(Obj(Some(id), Some(m.Value()), prenom, titre)) == GetLeadSourceBadgeColor(Str(m.Value()))
  {
    SourceKeywordIndex(m);
    KeywordBadgeAt(id, m.Value(), SourceKeywords, SourceColors, m.Index());
  }

  lemma LeadStatusStartToCallFirstMatch()
    ensures FirstMatchFrom("start-to-call", LeadStatusKeywords, 0) == Some(0)
  {
    ContainsSelf("start-to-call");
    FirstMatchByMissingChars("start-to-call", LeadStatusKeywords, 0, "");
  }

  lemma LeadStatusCallToConnectFirstMatch()
    ensures FirstMatchFrom("call-to-connect", LeadStatusKeywords, 0) == Some(1)
  {
    ContainsSelf("call-to-connect");
    FirstMatchByMissingChars("call-to-connect", LeadStatusKeywords, 1, "s");
  }

  lemma LeadStatusConnectToContactFirstMatch()
    ensures FirstMatchFrom("connect-to-contact", LeadStatusKeywords, 0) == Some(2)
  {
    ContainsSelf("connect-to-contact");
    FirstMatchByMissingChars("connect-to-contact", LeadStatusKeywords, 2, "sl");
  }

  lemma LeadStatusContactToDemoFirstMatch()
    ensures FirstMatchFrom("contact-to-demo", LeadStatusKeywords, 0) == Some(3)
  {
    ContainsSelf("contact-to-demo");
    FirstMatchByMissingChars("contact-to-demo", LeadStatusKeywords, 3, "sl ");
  }

  lemma LeadStatusDemoToCloseFirstMatch()
    ensures FirstMatchFrom("demo-to-close", LeadStatusKeywords, 0) == Some(4)
  {
    ContainsSelf("demo-to-close");
    FirstMatchByMissingChars("demo-to-close", LeadStatusKeywords, 4, "aa  ");
  }

  lemma LeadStatusLostFirstMatch()
    ensures FirstMatchFrom("lost", LeadStatusKeywords, 0) == Some(5)
  {
    ContainsSelf("lost");
    FirstMatchByMissingChars("lost", LeadStatusKeywords, 5, "     ");
  }

  lemma LeadStatusStartToCallLowered()
    ensures Lower("Start-to-Call") == "start-to-call"
  {
    LowerByChars("Start-to-Call", "start-to-call");
  }

  lemma LeadStatusCallToConnectLowered()
    ensures Lower("Call-to-Connect") == "call-to-connect"
  {
    LowerByChars("Call-to-Connect", "call-to-connect");
  }

  lemma LeadStatusConnectToContactLowered()
    ensures Lower("Connect-to-Contact") == "connect-to-contact"
  {
    LowerByChars("Connect-to-Contact", "connect-to-contact");
  }

  lemma LeadStatusContactToDemoLowered()
    ensures Lower("Contact-to-Demo") == "contact-to-demo"
  {
    LowerByChars("Contact-to-Demo", "contact-to-demo");
  }

  lemma LeadStatusDemoToCloseLowered()
    ensures Lower("Demo-to-Close") == "demo-to-close"
  {
    LowerByChars("Demo-to-Close", "demo-to-close");
  }

  lemma LeadStatusLostLowered()
    ensures Lower("Lost") == "lost"
  {
    LowerByChars("Lost", "lost");
  }

  /** Lower-casing a lead status's value gives the text its keyword search sees. */
  lemma LeadStatusValueLowered(m: CrmTypes.LeadStatus)
    ensures Lower(m.Value()) == LeadStatusKeywords[m.Index()]
  {
    match m
    case StartToCall => LeadStatusStartToCallLowered();
    case CallToConnect => LeadStatusCallToConnectLowered();
    case ConnectToContact => LeadStatusConnectToContactLowered();
    case ContactToDemo => LeadStatusContactToDemoLowered();
    case DemoToClose => LeadStatusDemoToCloseLowered();
    case Lost => LeadStatusLostLowered();
  }

  /** A lead status's own value, lower-cased, first matches that member's keyword. */
  lemma LeadStatusKeywordIndex(m: CrmTypes.LeadStatus)
    ensures FirstMatchFrom(Lower(m.Value()), LeadStatusKeywords, 0) == Some(m.Index())
  {
    match m
    case StartToCall => LeadStatusStartToCallLowered(); LeadStatusStartToCallFirstMatch();
    case CallToConnect => LeadStatusCallToConnectLowered(); LeadStatusCallToConnectFirstMatch();
    case ConnectToContact => LeadStatusConnectToContactLowered(); LeadStatusConnectToContactFirstMatch();
    case ContactToDemo => LeadStatusContactToDemoLowered(); LeadStatusContactToDemoFirstMatch();
    case DemoToClose => LeadStatusDemoToCloseLowered(); LeadStatusDemoToCloseFirstMatch();
    case Lost => LeadStatusLostLowered(); LeadStatusLostFirstMatch();
  }

  /** A lead status reference named after a member is coloured like that member passed directly. */
  lemma LeadStatusReferenceColouredLikeMember(m: CrmTypes.LeadStatus, id: string, prenom: Option<string>, titre: Option<string>)
    requires id != ""
    ensures GetLeadStatusBadgeColor(Obj(Some(id), Some(m.Value()), prenom, titre)) == GetLeadStatusBadgeColor(Str(m.Value()))
  {
    LeadStatusKeywordIndex(m);
    KeywordBadgeAt(id, m.Value(), LeadStatusKeywords, LeadStatusColors, m.Index());
  }

  lemma InteractionCallFirstMatch()
    ensures FirstMatchFrom("call", InteractionKeywords, 0) == Some(0)
  {
    ContainsSelf("call");
    FirstMatchByMissingChars("call", InteractionKeywords, 0, "");
  }

  lemma InteractionEmailFirstMatch()
    ensures FirstMatchFrom("email", InteractionKeywords, 0) == Some(1)
  {
    ContainsSelf("email");
    FirstMatchByMissingChars("email", InteractionKeywords, 1, "c");
  }

  lemma InteractionMeetingFirstMatch()
    ensures FirstMatchFrom("meeting", InteractionKeywords, 0) == Some(2)
  {
    ContainsSelf("meeting");
    FirstMatchByMissingChars("meeting", InteractionKeywords, 2, "ca");
  }

  /** An interaction type's own value, lower-cased, first matches that member's keyword. */
  lemma InteractionKeywordIndex(m: CrmTypes.InteractionType)
    ensures FirstMatchFrom(Lower(m.Value()), InteractionKeywords, 0) == Some(m.Index())
  {
    LowerOfLowercase(m.Value());
    match m
    case Call => InteractionCallFirstMatch();
    case Email => InteractionEmailFirstMatch();
    case Meeting => InteractionMeetingFirstMatch();
  }

  /** An interaction type reference named after a member is coloured like that member passed directly. */
  lemma InteractionReferenceColouredLikeMember(m: CrmTypes.InteractionType, id: string, prenom: Option<string>, titre: Option<string>)
    requires id != ""
    ensures GetInteractionTypeBadgeColor(Obj(Some(id), Some(m.Value()), prenom, titre)) == GetInteractionTypeBadgeColor(Str(m.Value()))
  {
    InteractionKeywordIndex(m);
    KeywordBadgeAt(id, m.Value(), InteractionKeywords, InteractionColors, m.Index());
  }

  lemma TaskStatusPendingFirstMatch()
    ensures FirstMatchFrom("pending", TaskStatusKeywords, 0) == Some(0)
  {
    ContainsSelf("pending");
    FirstMatchByMissingChars("pending", TaskStatusKeywords, 0, "");
  }

  lemma TaskStatusInProgressFirstMatch()
    ensures FirstMatchFrom("in progress", TaskStatusKeywords, 0) == Some(1)
  {
    assert WindowAt("in progress", "progress", 3);
    ContainsIffSomeWindow("in progress", "progress");
    FirstMatchByMissingChars("in progress", TaskStatusKeywords, 1, "d");
  }

  lemma TaskStatusCompletedFirstMatch()
    ensures FirstMatchFrom("completed", TaskStatusKeywords, 0) == Some(2)
  {
    ContainsSelf("completed");
    FirstMatchByMissingChars("completed", TaskStatusKeywords, 2, "nr");
  }

  /** A task status's own value, lower-cased, first matches that member's keyword. */
  lemma TaskStatusKeywordIndex(m: CrmTypes.TaskStatus)
    ensures FirstMatchFrom(Lower(m.Value()), TaskStatusKeywords, 0) == Some(m.Index())
  {
    LowerOfLowercase(m.Value());
    match m
    case Pending => TaskStatusPendingFirstMatch();
    case InProgress => TaskStatusInProgressFirstMatch();
    case Completed => TaskStatusCompletedFirstMatch();
  }

  /** A task status reference named after a member is coloured like that member passed directly. */
  lemma TaskStatusReferenceColouredLikeMember(m: CrmTypes.TaskStatus, id: string, prenom: Option<string>, titre: Option<string>)
    requires id != ""
    ensures GetTaskStatusBadgeColor(Obj(Some(id), Some(m.Value()), prenom, titre)) == GetTaskStatusBadgeColor(Str(m.Value()))
  {
    TaskStatusKeywordIndex(m);
    KeywordBadgeAt(id, m.Value(), TaskStatusKeywords, TaskStatusColors, m.Index());
  }
}
