/**
 * The string enumerations of the CRM's API types (src/services/api/types.ts):
 * each member has its wire value, and `Parse` recognises exactly those values.
 */
module CrmTypes {
  import opened Wrappers

  datatype UserRole = Admin | Sales {
    function Value(): string {
      match this
      case Admin => "admin"
      case Sales => "sales"
    }

    /** Position of the member in the declaration order. */
    function Index(): nat {
      match this
      case Admin => 0
      case Sales => 1
    }

    static function Parse(s: string): (r: Option<UserRole>)
      ensures r.Some? ==> r.value.Value() == s
      ensures forall m: UserRole :: m.Value() == s ==> r == Some(m)
    {
      if s == "admin" then Some(Admin)
      else if s == "sales" then Some(Sales)
      else None
    }
  }

  datatype LeadSource = Website | Referral | Event | Outbound | Inbound {
    function Value(): string {
      match this
      case Website => "website"
      case Referral => "referral"
      case Event => "event"
      case Outbound => "outbound"
      case Inbound => "inbound"
    }

    /** Position of the member in the declaration order. */
    function Index(): nat {
      match this
      case Website => 0
      case Referral => 1
      case Event => 2
      case Outbound => 3
      case Inbound => 4
    }

    static function Parse(s: string): (r: Option<LeadSource>)
      ensures r.Some? ==> r.value.Value() == s
      ensures forall m: LeadSource :: m.Value() == s ==> r == Some(m)
    {
      if s == "website" then Some(Website)
      else if s == "referral" then Some(Referral)
      else if s == "event" then Some(Event)
      else if s == "outbound" then Some(Outbound)
      else if s == "inbound" then Some(Inbound)
      else None
    }
  }

  datatype LeadStatus = StartToCall | CallToConnect | ConnectToContact | ContactToDemo | DemoToClose | Lost {
    function Value(): string {
      match this
      case StartToCall => "Start-to-Call"
      case CallToConnect => "Call-to-Connect"
      case ConnectToContact => "Connect-to-Contact"
      case ContactToDemo => "Contact-to-Demo"
      case DemoToClose => "Demo-to-Close"
      case Lost => "Lost"
    }

    /** Position of the member in the declaration order. */
    function Index(): nat {
      match this
      case StartToCall => 0
      case CallToConnect => 1
      case ConnectToContact => 2
      case ContactToDemo => 3
      case DemoToClose => 4
      case Lost => 5
    }

    static function Parse(s: string): (r: Option<LeadStatus>)
      ensures r.Some? ==> r.value.Value() == s
      ensures forall m: LeadStatus :: m.Value() == s ==> r == Some(m)
    {
      if s == "Start-to-Call" then Some(StartToCall)
      else if s == "Call-to-Connect" then Some(CallToConnect)
      else if s == "Connect-to-Contact" then Some(ConnectToContact)
      else if s == "Contact-to-Demo" then Some(ContactToDemo)
      else if s == "Demo-to-Close" then Some(DemoToClose)
      else if s == "Lost" then Some(Lost)
      else None
    }
  }

  datatype InteractionType = Call | Email | Meeting {
    function Value(): string {
      match this
      case Call => "call"
      case Email => "email"
      case Meeting => "meeting"
    }

    /** Position of the member in the declaration order. */
    function Index(): nat {
      match this
      case Call => 0
      case Email => 1
      case Meeting => 2
    }

    static function Parse(s: string): (r: Option<InteractionType>)
      ensures r.Some? ==> r.value.Value() == s
      ensures forall m: InteractionType :: m.Value() == s ==> r == Some(m)
    {
      if s == "call" then Some(Call)
      else if s == "email" then Some(Email)
      else if s == "meeting" then Some(Meeting)
      else None
    }
  }

  datatype TaskStatus = Pending | InProgress | Completed {
    function Value(): string {
      match this
      case Pending => "pending"
      case InProgress => "in progress"
      case Completed => "completed"
    }

    /** Position of the member in the declaration order. */
    function Index(): nat {
      match this
      case Pending => 0
      case InProgress => 1
      case Completed => 2
    }

    static function Parse(s: string): (r: Option<TaskStatus>)
      ensures r.Some? ==> r.value.Value() == s
      ensures forall m: TaskStatus :: m.Value() == s ==> r == Some(m)
    {
      if s == "pending" then Some(Pending)
      else if s == "in progress" then Some(InProgress)
      else if s == "completed" then Some(Completed)
      else None
    }
  }
}
