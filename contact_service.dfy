/**
 * src/services/api/contactService.ts: `getByClientId`, which rejects ids that
 * are the text of a missing or non-string value, tries the per-client
 * endpoint, falls back to the filtered contact list, and never rejects.
 */
module ContactService {
  import opened Wrappers
  import opened JsText
  import opened ApiClient

  const DefaultPage := 1
  const DefaultLimit := 50

  datatype Contact = Contact(id: string, name: string)

  /** A contact listing as the server returns it. */
  datatype ContactsResponse = ContactsResponse(contacts: seq<Contact>, total: int, page: int, limit: int, totalPages: int)

  /** The requests `getByClientId` may send. */
  datatype ContactsRequest =
    | ClientContacts(clientId: string, page: int, limit: int)               // GET /clients/{id}/contacts
    | AllContacts(page: int, limit: int, search: string, clientId: string)  // GET /contacts with `client_id`

  /** What `getByClientId` resolves to, with the requests it sent in order. */
  datatype Answer = Answer(value: ContactsResponse, requests: seq<ContactsRequest>)

  /** The empty listing returned for an unusable id or after both requests failed. */
  function Empty(page: int, limit: int): (r: ContactsResponse)
    ensures r.contacts == [] && r.total == 0 && r.totalPages == 0 && r.page == page && r.limit == limit
  {
    ContactsResponse([], 0, page, limit, 0)
  }

  /** An id is usable unless it is empty or the text of `undefined` or of a plain object. */
  predicate UsableId(clientId: string) {
    Truthy(clientId) && clientId != "undefined" && clientId != "[object Object]"
  }

  /**
   * `getByClientId(clientId, page, limit)`, given what the per-client request
   * and the fallback `getAll(page, limit, '', clientId)` would answer.
   */
  function GetByClientId(clientId: string, page: int, limit: int,
                         direct: Outcome<ContactsResponse>, fallback: Outcome<ContactsResponse>): (a: Answer)
    ensures !UsableId(clientId) ==> a == Answer(Empty(page, limit), [])
    ensures UsableId(clientId) ==> |a.requests| >= 1 && a.requests[0] == ClientContacts(clientId, page, limit)
    ensures UsableId(clientId) && direct.Ok? ==> a == Answer(direct.value, [ClientContacts(clientId, page, limit)])
    ensures UsableId(clientId) && direct.Fail? ==>
      a.requests == [ClientContacts(clientId, page, limit), AllContacts(page, limit, "", clientId)]
      && a.value == (if fallback.Ok? then fallback.value else Empty(page, limit))
  {
    if !Truthy(clientId) || clientId == "undefined" || clientId == "[object Object]" then
      Answer(Empty(page, limit), [])
    else
      var first := ClientContacts(clientId, page, limit);
      match direct
      case Ok(data) => Answer(data, [first])
      case Fail(_) =>
        var second := AllContacts(page, limit, "", clientId);
        match fallback
        case Ok(data) => Answer(data, [first, second])
        case Fail(_) => Answer(Empty(page, limit), [first, second])
  }

  /**
   * Whatever the server does, the answer is one of the server's listings or
   * the empty listing for the caller's page and limit; at most two requests
   * are sent, and the fallback only after the first failed.
   */
  lemma AnswerIsServerOrEmpty(clientId: string, page: int, limit: int,
                              direct: Outcome<ContactsResponse>, fallback: Outcome<ContactsResponse>)
    ensures var a := GetByClientId(clientId, page, limit, direct, fallback);
      |a.requests| <= 2
      && (a.value == Empty(page, limit) || (direct.Ok? && a.value == direct.value)
          || (fallback.Ok? && a.value == fallback.value))
      && (|a.requests| == 2 ==> direct.Fail? && a.requests[1].AllContacts? && a.requests[1].clientId == clientId)
  {
  }

  /** Called with its defaults, `getByClientId` asks for page 1 of 50. */
  lemma DefaultsFirstRequest(clientId: string, direct: Outcome<ContactsResponse>, fallback: Outcome<ContactsResponse>)
    requires UsableId(clientId)
    ensures GetByClientId(clientId, DefaultPage, DefaultLimit, direct, fallback).requests[0]
         == ClientContacts(clientId, 1, 50)
  {
  }
}
