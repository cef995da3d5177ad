# Master Sales CRM front-end: session handling, formatters, forms and list logic

This project models the rule-bearing core of a Next.js CRM front-end in Dafny
and proves properties of it. It covers these parts:

- **Session and tokens** (`api_client.dfy`, `mock_auth_service.dfy`,
  `auth_context.dfy`).
  - `localStorage` is a `map<string, string>`, held by a `LocalStorage` object.
  - The shared axios instance `api` is a `Client` object:
    - its `defaultAuthorization` field is `api.defaults.headers.common.Authorization`;
    - its request interceptor (`InterceptRequest`) attaches
      `Authorization: Bearer <token>` (section 2.1 of RFC 6750), except on URLs
      that mention `login` or `register`;
    - its 401 handler (`OnError`) refreshes once, marks the request `_retry`,
      and replays it.
  - A request's config is a `RequestConfig` object with the `_retry` flag.
  - The server is not modelled. Each request gets a `Script`: the first
    answer, the refresh answer and the replay answer.
  - `ApiExchange` states, as a value, what one request through `api` does.
    `Client.Send` performs the request on the objects and is proved equal to
    `ApiExchange`. Lemmas about `ApiExchange` cover:
    - pass-through of non-401 errors;
    - at most one refresh and one replay;
    - clearing the session when the refresh fails;
    - storing both tokens when the refresh succeeds.
  - `AuthService` (login, register, profile, password, refresh, logout) and
    `AuthProvider` (`user`, `token`, `loading`) are classes. Their methods
    state the whole new state in terms of `ApiExchange`.
- **Screen guard** (`protected_route.dfy`, `app.dfy`): spinner, page or
  redirect, decided from `loading` and `isAuthenticated`. Public paths are
  rendered unguarded.
- **Display formatters** (`data_formatters.dfy`, over `JsValue` and the enums
  of `crm_types.dfy`):
  - the reference helpers;
  - `formatDate`'s falsy and reference branches;
  - the five `format*` label functions;
  - the five keyword-first-match `get*BadgeColor` functions.
- **Add forms** (`users_add.dfy`, `tasks_add.dfy`, `notes_add.dfy`,
  `leads_add.dfy`): the validation rules, the payloads, and the submit
  handlers as methods on page objects.
- **List pages** (`dashboard.dfy`, `tasks_list.dfy`, `leads_list.dfy`,
  `users_list.dfy`): the client-side filters, counters, labels, badges and
  paging handlers. The dashboard's per-stage lead counter is a loop with
  invariants, proved against a recursive count.
- **Layout** (`main_layout.dfy`): the role-dependent menu, the header title
  and the sidebar flag.
- **Contacts** (`contact_service.dfy`): `getByClientId`'s id guard and its
  fallback chain.

Behaviour the model follows from the code:

- **The replay is not caught by the 401 handler's own `catch`.** The replay is
  returned without `await`, so its rejection does not reach that `catch`. A
  failed replay therefore leaves the new tokens in place. A replay answered
  with 401 goes through the handler again and is passed on, because `_retry`
  is already set.
- **The instance default is never cleared.** The default `Authorization` set
  by a successful refresh outlives a later `removeToken`. axios merges it into
  every later request, so requests keep sending the old bearer
  (`ApiClient.DefaultOutlivesStoredToken`).
- **Handlers built in one render read that render's state.**
  - In the lead list, `handleFilterChange` starts a fetch that filters by the
    previous status.
  - In the lead list, `handleSearch` starts a fetch that reads the previous
    page.
  - In the task list, `handleItemsPerPageChange` starts a fetch with the
    previous page size.
  - Each of these handlers returns the `Query` its fetch runs with, so the
    contract states this.
- **`getRoleBadgeColor` on the user list** names `UserRole.SUPER_ADMIN`,
  `MANAGER` and `SUPPORT`, which the role enum lacks. Those cases compare with
  `undefined`, so a user without a role gets the super-admin purple, and blue
  and yellow are never produced.
- **The dashboard's "Pending" figure** is the server total minus the
  completed tasks of the fetched page only. It can be negative.
- **`getByClientId` never rejects.**

## Model

| member | source | states |
|---|---|---|
| ApiClient.Client.constructor | src/services/api/index.ts:31-36 | the instance starts with no default `Authorization` header |
| ApiClient.Client.SetToken | src/services/api/index.ts:19-23 | `getToken()` then returns the new token; only the `'token'` key changes and `'refreshToken'` is untouched |
| ApiClient.Client.RemoveToken | src/services/api/index.ts:25-29 | `getToken()` then returns null; only `'token'` is removed and `'refreshToken'` is untouched |
| ApiClient.Intercept | src/services/api/index.ts:40-56 | the header changes only for a non-auth URL with a truthy stored token, and then it is `Bearer <token>`; such a request always gets it |
| ApiClient.AuthEndpointUntouched | src/services/api/index.ts:42-44 | a URL with `login` or `register` anywhere in it keeps whatever header it had |
| ApiClient.Client.InterceptRequest | src/services/api/index.ts:40-56 | the config's header becomes `Intercept` of its URL, the stored token and its previous header; `_retry` is untouched |
| ApiClient.Client.Dispatch | src/services/api/index.ts:32-56 | instance defaults are merged under the request's own header, then intercepted, and exactly that request is sent through `api` |
| ApiClient.Failure.MessageOr | src/context/AuthContext.tsx:73 | `error.response?.data?.message` when an HTTP error carries a non-empty one, else the fallback |
| ApiClient.PassThrough | src/services/api/index.ts:59-100 | a success, or any error other than a 401, settles as it came and changes neither storage nor defaults, with no redirect and one request |
| ApiClient.AtMostOneRefresh | src/services/api/index.ts:65-86 | every request produces 1 to 3 calls: itself, then the bare refresh call, then one replay through `api` |
| ApiClient.FailedRefreshClearsSession | src/services/api/index.ts:70-96 | a 401 with no refresh token, or with a failed refresh, removes both tokens, keeps every other key, redirects to `/login`, and rejects with the refresh error rather than the 401 |
| ApiClient.SuccessfulRefreshReplays | src/services/api/index.ts:75-86 | a successful refresh stores both new tokens, makes the new bearer the instance default, replays the request with it, and settles as the replay does |
| ApiClient.OtherKeysUntouched | src/services/api/index.ts:59-102 | no storage key other than the two tokens ever changes |
| ApiClient.DefaultOutlivesStoredToken | src/services/api/index.ts:83 | once a refresh has set the default header, a request made after the token was removed still carries the old bearer |
| ApiClient.Client.AttemptRefresh | src/services/api/index.ts:70-75 | the refresh call is sent only when a truthy refresh token is stored; otherwise the attempt fails with 'No refresh token available' |
| ApiClient.Client.Renew | src/services/api/index.ts:76-84 | both new tokens are stored, and the new bearer becomes the instance default and the header of the request |
| ApiClient.Client.EndSession | src/services/api/index.ts:89-94 | both tokens are removed and the window goes to `/login` |
| ApiClient.Client.OnError | src/services/api/index.ts:61-101 | the handler's effect on storage, defaults, redirects and sent calls, and its result, are exactly `HandleError`'s |
| ApiClient.Client.Send | src/services/api/index.ts:32-102 | one request through `api` does exactly what `ApiExchange` says |
| MockAuthService.BareCall | src/services/api/mockAuthService.ts:46-48 | login, register and refresh go through bare `axios`: no interceptor, no header |
| MockAuthService.AuthService.Login | src/services/api/mockAuthService.ts:46-60 | on success both tokens are stored and the response is returned unchanged; on failure storage is unchanged and the error is rethrown |
| MockAuthService.AuthService.Register | src/services/api/mockAuthService.ts:62-70 | returns the server's answer; storage is outside what it may change |
| MockAuthService.AuthService.GetProfile | src/services/api/mockAuthService.ts:72-91 | `GET /auth/profile` through `api`, as `ApiExchange` describes |
| MockAuthService.AuthService.UpdateProfile | src/services/api/mockAuthService.ts:93-101 | `PUT /auth/profile` through `api`, as `ApiExchange` describes |
| MockAuthService.AuthService.ChangePassword | src/services/api/mockAuthService.ts:103-111 | resolves to true exactly when the `api` call resolves, and otherwise rejects with its error |
| MockAuthService.AuthService.RefreshToken | src/services/api/mockAuthService.ts:113-127 | on success both stored tokens are overwritten with the new pair; on failure storage is unchanged |
| MockAuthService.AuthService.Logout | src/services/api/mockAuthService.ts:129-139 | never rejects; whatever the call does, both tokens are absent afterwards |
| AuthContext.AuthProvider.constructor | src/context/AuthContext.tsx:22-24 | no user, no token, `loading` true |
| AuthContext.AuthProvider.Value | src/context/AuthContext.tsx:136-140 | `isAuthenticated` is exactly "a user is present" |
| AuthContext.AuthProvider.FetchUserProfile | src/context/AuthContext.tsx:40-54 | the profile becomes `user`; a failure removes both tokens and keeps `user`; `loading` ends false |
| AuthContext.AuthProvider.Bootstrap | src/context/AuthContext.tsx:28-38 | without a stored token only `loading` changes: storage, default header, requests and redirects stay; with one, `token` takes it and the profile fetch decides `user`, storage, default header and redirects; after a failed fetch, `token` still holds the cleared value |
| AuthContext.AuthProvider.Login | src/context/AuthContext.tsx:56-78 | success sets `token` and `user` from the response and goes to `/dashboard`; failure keeps both, shows the server message or the fallback, and rethrows; `loading` ends false |
| AuthContext.AuthProvider.Register | src/context/AuthContext.tsx:80-99 | never sets `user` or `token`; success goes to `/login`, failure shows the message and rethrows |
| AuthContext.AuthProvider.Logout | src/context/AuthContext.tsx:101-114 | always ends with no user, no token, no stored tokens, `loading` false and `/login`; the default header and any redirect are those of the logout exchange |
| AuthContext.AuthProvider.UpdateProfile | src/context/AuthContext.tsx:116-132 | without a user it rejects with 'User not authenticated' and changes nothing outside the provider and the toasts; otherwise storage, default header and redirects follow the exchange and the server's answer replaces `user`; `loading` ends false |
| ProtectedRoute.Guard | src/components/ProtectedRoute.tsx:21-43 | spinner and no redirect while loading; otherwise the children when authenticated, else nothing and a redirect |
| ProtectedRoute.GuardIgnoresUserAndToken | src/components/ProtectedRoute.tsx:11-43 | the decision depends only on `loading` and `isAuthenticated` |
| App.Render | src/pages/_app.tsx:11-34 | every page sits inside the provider; exactly the public paths are rendered without the guard |
| App.PublicPageAlwaysShown | src/pages/_app.tsx:27-28 | a public page is shown, and no auth state redirects it |
| App.OtherPagesGuarded | src/pages/_app.tsx:29-33 | every other page shows exactly what the guard decides |
| JsValues.ToJsString | src/utils/dataFormatters.ts:101 | `String(v)`: a string is itself, and any other value gives non-empty text |
| CrmTypes.UserRole.Parse | src/services/api/types.ts:2-5 | recognises exactly the wire values of the role enum |
| CrmTypes.LeadSource.Parse | src/services/api/types.ts:7-13 | recognises exactly the wire values of the lead-source enum |
| CrmTypes.LeadStatus.Parse | src/services/api/types.ts:15-22 | recognises exactly the wire values of the lead-status enum |
| CrmTypes.InteractionType.Parse | src/services/api/types.ts:24-28 | recognises exactly the wire values of the interaction-type enum |
| CrmTypes.TaskStatus.Parse | src/services/api/types.ts:30-34 | recognises exactly the wire values of the task-status enum |
| DataFormatters.FormatDate | src/utils/dataFormatters.ts:12-46 | 'N/A' for falsy input, the `name` of a reference with `_id` and `name`, and exactly every other truthy value handed unchanged to the locale rendering |
| DataFormatters.GetNameFromRef | src/utils/dataFormatters.ts:51-65 | falsy input gives the default; a non-empty string gives itself; an object gives its truthy `name`, else its truthy `titre`, else the default; never empty when the default is not |
| DataFormatters.NameIgnoresPrenom | src/utils/dataFormatters.ts:59-60 | `prenom` never affects the result, because the `prenom name` branch is unreachable |
| DataFormatters.GetIdFromRef | src/utils/dataFormatters.ts:70-82 | the string itself or the object's truthy `_id`, else ''; non-empty exactly when one of those is |
| DataFormatters.IdFromRefIdempotent | src/utils/dataFormatters.ts:70-82 | an extracted id, passed back in, is itself |
| DataFormatters.FormatUserRole | src/utils/dataFormatters.ts:87-103 | the label is never empty (the cases are in `FormatRoleCases`) |
| DataFormatters.FormatLeadSource | src/utils/dataFormatters.ts:133-155 | the label is never empty (the cases are in `FormatSourceCases`) |
| DataFormatters.FormatLeadStatus | src/utils/dataFormatters.ts:193-217 | the label is never empty (the cases are in `FormatLeadStatusCases`) |
| DataFormatters.FormatInteractionType | src/utils/dataFormatters.ts:258-276 | the label is never empty (the cases are in `FormatInteractionTypeCases`) |
| DataFormatters.FormatTaskStatus | src/utils/dataFormatters.ts:308-326 | the label is never empty (the cases are in `FormatTaskStatusCases`) |
| DataFormatters.FormatRoleCases | src/utils/dataFormatters.ts:87-103 | objects: `name` with `_id` and `name`, else 'Unknown Role'; members: their fixed label; other strings: themselves, with only '' becoming 'Unknown Role'; null and undefined: their text |
| DataFormatters.FormatTaskStatusCases | src/utils/dataFormatters.ts:308-326 | objects: `name` with `_id` and `name`, else 'Unknown Status'; pending, in progress and completed: 'Pending', 'In Progress', 'Completed'; other strings: themselves, with only '' becoming 'Unknown Status'; null and undefined: their text |
| DataFormatters.FormatSourceCases | src/utils/dataFormatters.ts:133-155 | objects: `name` with `_id` and `name`, else 'Unknown Source'; the five sources: their fixed labels; other strings: themselves, with only '' becoming 'Unknown Source'; null and undefined: their text |
| DataFormatters.FormatLeadStatusCases | src/utils/dataFormatters.ts:193-217 | objects: `name` with `_id` and `name`, else 'Unknown Status'; the six statuses: their fixed labels such as 'Start to Call'; other strings: themselves, with only '' becoming 'Unknown Status'; null and undefined: their text |
| DataFormatters.FormatInteractionTypeCases | src/utils/dataFormatters.ts:258-276 | objects: `name` with `_id` and `name`, else 'Unknown Type'; call, email and meeting: 'Call', 'Email', 'Meeting'; other strings: themselves, with only '' becoming 'Unknown Type'; null and undefined: their text |
| DataFormatters.FirstMatchFrom | src/utils/dataFormatters.ts:114-115 | the index of the first keyword the text includes, or none when it includes none |
| DataFormatters.KeywordBadge | src/utils/dataFormatters.ts:109-117 | gray without a truthy `_id` or when the lower-cased name includes no keyword; otherwise the colour of the first keyword it includes |
| DataFormatters.GetUserRoleBadgeColor | src/utils/dataFormatters.ts:108-128 | admin red, sales green; any other string, null and undefined gray; an object coloured by `KeywordBadge` over 'admin', 'sales' |
| DataFormatters.GetLeadSourceBadgeColor | src/utils/dataFormatters.ts:160-188 | website blue, referral green, event purple, outbound orange, inbound teal; any other string, null and undefined gray; an object coloured by `KeywordBadge` over the source keywords |
| DataFormatters.GetLeadStatusBadgeColor | src/utils/dataFormatters.ts:222-253 | the six statuses blue, yellow, green, purple, indigo and red in pipeline order; any other string, null and undefined gray; an object coloured by `KeywordBadge` over the status keywords |
| DataFormatters.GetInteractionTypeBadgeColor | src/utils/dataFormatters.ts:281-303 | call blue, email purple, meeting green; any other string, null and undefined gray; an object coloured by `KeywordBadge` over the type keywords |
| DataFormatters.GetTaskStatusBadgeColor | src/utils/dataFormatters.ts:331-353 | pending yellow, in progress blue, completed green; any other string, null and undefined gray; an object coloured by `KeywordBadge` over 'pending', 'progress', 'completed' |
| DataFormatters.FirstMatchIs | src/utils/dataFormatters.ts:114-115 | the search stops at keyword k when the text includes it and no earlier one |
| DataFormatters.KeywordBadgeAt | src/utils/dataFormatters.ts:110-115 | a reference with an `_id` whose lower-cased name first matches keyword k gets colour k |
| DataFormatters.FirstMatchByMissingChars | src/utils/dataFormatters.ts:114-115 | an earlier keyword cannot match a text that is shorter than it, or that lacks one of its characters |
| DataFormatters.RoleKeywordIndex | src/utils/dataFormatters.ts:111-115 | a role's own value, lower-cased, first matches that role's keyword |
| DataFormatters.RoleReferenceColouredLikeMember | src/utils/dataFormatters.ts:109-127 | a role reference named after a member gets the colour of that member passed directly |
| DataFormatters.SourceKeywordIndex | src/utils/dataFormatters.ts:163-169 | a source's own value, lower-cased, first matches that source's keyword |
| DataFormatters.SourceReferenceColouredLikeMember | src/utils/dataFormatters.ts:161-187 | a source reference named after a member gets the colour of that member passed directly |
| DataFormatters.LeadStatusValueLowered | src/utils/dataFormatters.ts:225 | lower-casing a status value gives its keyword |
| DataFormatters.LeadStatusKeywordIndex | src/utils/dataFormatters.ts:225-232 | a status's own value, lower-cased, first matches that status's keyword |
| DataFormatters.LeadStatusReferenceColouredLikeMember | src/utils/dataFormatters.ts:223-252 | a status reference named after a member gets the colour of that member passed directly |
| DataFormatters.InteractionKeywordIndex | src/utils/dataFormatters.ts:284-288 | an interaction type's own value, lower-cased, first matches that type's keyword |
| DataFormatters.InteractionReferenceColouredLikeMember | src/utils/dataFormatters.ts:282-302 | an interaction reference named after a member gets the colour of that member passed directly |
| DataFormatters.TaskStatusKeywordIndex | src/utils/dataFormatters.ts:334-338 | a task status's own value, lower-cased, first matches that status's keyword; 'in progress' is found through 'progress' |
| DataFormatters.TaskStatusReferenceColouredLikeMember | src/utils/dataFormatters.ts:332-352 | a task-status reference named after a member gets the colour of that member passed directly |
| Forms.BlankIffTrimEmpty | src/pages/users/add.tsx:34 | `!s.trim()` holds exactly when the field is all white space |
| Forms.OrUndefined | src/pages/tasks/add.tsx:78-83 | `s \|\| undefined`: absent exactly for '', otherwise the text unchanged |
| UsersAdd.ValidateForm | src/pages/users/add.tsx:31-57 | each error is recorded exactly when its rule fails: blank name; blank email, else no `\S+@\S+\.\S+` match; empty password, else under 6 characters; a confirmation that differs |
| UsersAdd.ValidIffRulesHold | src/pages/users/add.tsx:55-56 | the form is valid exactly when all four rules pass |
| UsersAdd.ShapedEmailNotBlank | src/pages/users/add.tsx:38-42 | an email that matches the pattern is never blank |
| UsersAdd.EmailShapeInside | src/pages/users/add.tsx:40 | the pattern is unanchored: any text with `local@domain.tld` inside it passes |
| UsersAdd.NoDotNoShape | src/pages/users/add.tsx:40 | an address without a dot never passes |
| UsersAdd.Payload | src/pages/users/add.tsx:69-74 | exactly `{name, email, password, role}`; `confirmPassword` and `companyId` are never sent |
| UsersAdd.AddUserPage.constructor | src/pages/users/add.tsx:12-29 | empty fields, role 'sales', no errors, not submitting |
| UsersAdd.AddUserPage.HandleSubmit | src/pages/users/add.tsx:59-86 | the errors are stored; an invalid form sends nothing; otherwise the payload is sent, success goes to `/users`, and `submitting` ends false |
| TasksAdd.AddTaskPage.constructor | src/pages/tasks/add.tsx:16-25 | empty fields, status 'not_started', priority 'medium', no interactions, not submitting |
| TasksAdd.Rejection | src/pages/tasks/add.tsx:63-71 | 'Title is required' exactly when the title is blank; otherwise 'Interaction is required' exactly when no interaction is chosen |
| TasksAdd.Payload | src/pages/tasks/add.tsx:76-84 | the title is sent untrimmed; empty description, due date and assignee become undefined |
| TasksAdd.InitialStatusNotOffered | src/pages/tasks/add.tsx:219-221 | 'not_started' is not among the offered statuses and is sent as it is when left unchanged |
| TasksAdd.NextPage | src/pages/tasks/add.tsx:89-93 | back to `/leads/{lead_id}` when a lead id is present, else to `/tasks/{newId}` |
| TasksAdd.FilterForLead | src/pages/tasks/add.tsx:49 | throws exactly when some listed interaction has a missing or null `lead_id`; otherwise keeps, in order, exactly those whose populated `lead_id._id` is the lead id |
| TasksAdd.InteractionChoices | src/pages/tasks/add.tsx:48-51 | without a lead id every listed interaction is offered; with one, the filtered list, or none when the filter throws |
| TasksAdd.BareLeadIdDropped | src/pages/tasks/add.tsx:49 | an interaction whose `lead_id` is a bare id string is never offered for a lead |
| TasksAdd.AddTaskPage.FetchInteractions | src/pages/tasks/add.tsx:44-58 | the choices replace `interactions`, or 'Failed to load interactions' is shown and the list is kept |
| TasksAdd.AddTaskPage.HandleSubmit | src/pages/tasks/add.tsx:60-100 | a rejected form shows its message and sends nothing; otherwise the payload is sent, success goes to `NextPage`, and `submitting` ends false |
| NotesAdd.AddNotePage.constructor | src/pages/notes/add.tsx:14-16 | empty content and client, not submitting |
| NotesAdd.Rejection | src/pages/notes/add.tsx:39-47 | 'Note content is required' exactly when the content is blank; otherwise 'Please select a client' exactly when no client is chosen |
| NotesAdd.AddNotePage.HandleSubmit | src/pages/notes/add.tsx:36-65 | the payload is exactly the untrimmed content and client id; success goes to `/notes/{id}` with `submitting` still true; failure resets it and stays |
| LeadsAdd.Rejection | src/pages/leads/add.tsx:59-62 | the submit stops exactly when the name is blank |
| LeadsAdd.Payload | src/pages/leads/add.tsx:67-74 | empty client and description become undefined; the source is sent as it is, empty included; the estimate is present exactly when non-empty |
| LeadsAdd.UserNotSent | src/pages/leads/add.tsx:67-74 | the selected user never affects the payload |
| LeadsAdd.AddLeadPage.constructor | src/pages/leads/add.tsx:21-27 | the status starts at 'Start-to-Call' and the source empty |
| LeadsAdd.AddLeadPage.HandleSubmit | src/pages/leads/add.tsx:56-85 | a blank name shows its message and sends nothing; otherwise the payload is sent, success goes to `/leads`, and `submitting` ends false |
| Dashboard.CountStatus | src/pages/dashboard.tsx:72-76 | a stage's count is at most the number of leads |
| Dashboard.CountStatusSnoc | src/pages/dashboard.tsx:72-76 | each further lead adds one exactly when its `statut` is the stage |
| Dashboard.CountStatusIsFilterLength | src/pages/dashboard.tsx:73-74 | the count equals the length of the list filtered by that status |
| Dashboard.CountLeadsByStatus | src/pages/dashboard.tsx:64-76 | the counter has exactly the five stage keys, each holding the number of leads whose `statut` is that stage |
| Dashboard.StageCountsBounded | src/pages/dashboard.tsx:64-76 | the five counts add up to the number of leads in a pipeline stage, so to at most the number of leads; 'Lost' and other statuses are skipped |
| Dashboard.CompletedCount | src/pages/dashboard.tsx:80 | at most the number of tasks, and equal to it exactly when every task is completed |
| Dashboard.OrZero | src/pages/dashboard.tsx:83-86 | a missing total becomes 0 |
| Dashboard.StatsOf | src/pages/dashboard.tsx:82-87 | the three totals with their `\|\| 0` fallbacks, and a completed count between 0 and the page size |
| Dashboard.PendingNonNegative | src/pages/dashboard.tsx:225 | the pending figure is not negative when the server total covers the fetched page |
| Dashboard.PendingCanBeNegative | src/pages/dashboard.tsx:225 | with no total reported, one completed task gives a pending figure of -1 |
| Dashboard.DashboardPage.constructor | src/pages/dashboard.tsx:24-41 | all stats 0, every stage count 0, no recent tasks or clients, loading |
| Dashboard.DashboardPage.FetchDashboardData | src/pages/dashboard.tsx:52-98 | clients are set on arrival; on full success the stats, stage counts and first five tasks are set; any failure shows 'Failed to load dashboard data' and keeps the rest; `loading` ends false |
| TasksList.StatusFiltered | src/pages/tasks/index.tsx:34-37 | 'all' or '' keeps the page; any other filter keeps, in order, exactly the tasks with that status |
| TasksList.StatusFilterIdempotent | src/pages/tasks/index.tsx:34-37 | filtering twice by a status is filtering once |
| TasksList.Toggled | src/pages/tasks/index.tsx:84-86 | 'pending' exactly for 'completed', and 'completed' for everything else |
| TasksList.ToggleInvolutive | src/pages/tasks/index.tsx:84-86 | on 'pending' and 'completed' two toggles restore the status |
| TasksList.ToggleForgetsOtherStatuses | src/pages/tasks/index.tsx:84-86 | any other status becomes 'pending' after two toggles |
| TasksList.StatusLabel | src/pages/tasks/index.tsx:130-143 | fixed labels for the four known statuses, and the status itself otherwise |
| TasksList.StatusLabelChangesOnlyKnown | src/pages/tasks/index.tsx:130-143 | the label differs from the status exactly for the four known statuses |
| TasksList.StatusBadgeColor | src/pages/tasks/index.tsx:117-128 | coloured exactly for pending, in progress and completed; gray otherwise |
| TasksList.ColouredStatusesLabelled | src/pages/tasks/index.tsx:117-143 | every coloured status has a label; 'canceled' has one but stays gray |
| TasksList.DateCell | src/pages/tasks/index.tsx:107-115 | '—' for a missing due date |
| TasksList.TasksPage.constructor | src/pages/tasks/index.tsx:13-22 | no tasks, page 1 of 1, 10 per page, filter 'all', no search, loading |
| TasksList.TasksPage.FetchQuery | src/pages/tasks/index.tsx:28-31 | a fetch reads the size, the personal flag and the status filter of the render it was made in |
| TasksList.TasksPage.FetchTasks | src/pages/tasks/index.tsx:28-49 | the page filtered by the status the call read; paging copied from the server; on failure only a toast |
| TasksList.TasksPage.HandleSearch | src/pages/tasks/index.tsx:51-56 | search mode on, page 1, and page 1 fetched with the term |
| TasksList.TasksPage.ClearSearch | src/pages/tasks/index.tsx:58-63 | term emptied, search mode off, page 1, and page 1 fetched with no term |
| TasksList.TasksPage.HandleItemsPerPageChange | src/pages/tasks/index.tsx:95-100 | the new size is stored and the page reset, but the fetch still uses the previous size |
| TasksList.TasksPage.HandleStatusFilterChange | src/pages/tasks/index.tsx:102-105 | the filter is stored and the page reset |
| TasksList.TasksPage.HandlePageChange | src/pages/tasks/index.tsx:65-67 | only the current page changes |
| TasksList.TasksPage.HandleToggleCompletion | src/pages/tasks/index.tsx:82-93 | sends the toggled status; on success the toast names that same status and the current page is fetched again with the active search |
| LeadsList.StatusFiltered | src/pages/leads/index.tsx:42-45 | '' keeps every lead; any other filter keeps, in order, exactly the leads with that status |
| LeadsList.StatusBadgeColor | src/pages/leads/index.tsx:98-113 | one of the five stage colours or gray, and coloured exactly when the lower-cased status is one of the five pipeline stages |
| LeadsList.StatusBadgeIgnoresCase | src/pages/leads/index.tsx:99 | the colour depends only on the lower-cased status |
| LeadsList.StatusBadgeOfStage | src/pages/leads/index.tsx:98-113 | the five stages get blue, yellow, green, purple and indigo; 'Lost' is gray |
| LeadsList.SourceBadgeColor | src/pages/leads/index.tsx:115-126 | coloured exactly for website, referral and event, in any case |
| LeadsList.SourceBadgeOfSource | src/pages/leads/index.tsx:115-126 | website indigo, referral purple, event orange; outbound and inbound gray |
| LeadsList.StatusLabel | src/pages/leads/index.tsx:242 | the first character upper-cased and the rest unchanged |
| LeadsList.StatusLabelIdempotent | src/pages/leads/index.tsx:242 | capitalising twice is capitalising once |
| LeadsList.LeadsPage.constructor | src/pages/leads/index.tsx:14-24 | no leads, page 1 of 1 with 10 per page, no filter, no search, loading |
| LeadsList.LeadsPage.FetchQuery | src/pages/leads/index.tsx:33-39 | a fetch reads the page, limit, search, personal flag and filter of the render it was made in |
| LeadsList.LeadsPage.FetchLeads | src/pages/leads/index.tsx:30-60 | the leads filtered by the status the call read, and the pagination copied from the server; on failure only a toast |
| LeadsList.LeadsPage.HandleSearch | src/pages/leads/index.tsx:62-66 | the page is reset, but the fetch reads the previous page |
| LeadsList.LeadsPage.HandleFilterChange | src/pages/leads/index.tsx:72-76 | the filter is stored and the page reset, but the fetch filters by the previous status |
| LeadsList.LeadsPage.HandlePageChange | src/pages/leads/index.tsx:68-70 | only the current page changes |
| LeadsList.LeadsPage.TogglePersonalOnly | src/pages/leads/index.tsx:174-177 | flips the personal flag and resets the page |
| UsersList.Search | src/pages/users/index.tsx:48-51 | keeps, in order, exactly the users whose lower-cased name or email contains the lower-cased term |
| UsersList.EmptyTermKeepsAll | src/pages/users/index.tsx:48-51 | an empty term keeps every user |
| UsersList.FoundByOwnName | src/pages/users/index.tsx:48-51 | a user is found by its own name |
| UsersList.PageCount | src/pages/users/index.tsx:54 | ceil(n / 10): 0 exactly when nothing matches, and enough pages of 10 for n with none to spare |
| UsersList.FewMatchesNoPagination | src/pages/users/index.tsx:266 | pagination shows after a search exactly when more than 10 users match |
| UsersList.RoleLabel | src/pages/users/index.tsx:284-293 | 'Admin' and 'Sales' for the two roles, and the role itself otherwise |
| UsersList.RoleBadgeColor | src/pages/users/index.tsx:92-107 | a missing role is purple, admin red, sales green, any other role gray |
| UsersList.RoleBadgeNeverBlueOrYellow | src/pages/users/index.tsx:92-107 | blue and yellow are never produced; the badge is coloured exactly for a missing role or a labelled one |
| UsersList.UsersPage.constructor | src/pages/users/index.tsx:13-18 | no users, page 1 of 1, no search, loading |
| UsersList.UsersPage.FetchUsers | src/pages/users/index.tsx:25-38 | asks for the page with 10 per page; list and counts come from the server; on failure only a toast |
| UsersList.UsersPage.HandleSearch | src/pages/users/index.tsx:40-62 | asks for 100 users; keeps the matches; the count is their number and the pages its ceiling over 10; page 1 |
| UsersList.UsersPage.ClearSearch | src/pages/users/index.tsx:64-69 | term emptied, search mode off, page 1 requested and set |
| UsersList.UsersPage.HandlePageChange | src/pages/users/index.tsx:71-73 | only the current page changes |
| MainLayout.Navigation | src/components/layout/MainLayout.tsx:19-28 | Users is in the menu exactly for an admin, in second place; the other seven entries are always there, in fixed order |
| MainLayout.FindByHref | src/components/layout/MainLayout.tsx:165 | the first entry whose `href` is the path, or none when no entry has it |
| MainLayout.Title | src/components/layout/MainLayout.tsx:165 | 'Dashboard' when no entry is active |
| MainLayout.TitleIsFirstActiveName | src/components/layout/MainLayout.tsx:165 | the header shows the name of the first highlighted entry, when that name is not empty |
| MainLayout.Layout.constructor | src/components/layout/MainLayout.tsx:15 | the sidebar starts closed |
| MainLayout.Layout.ToggleSidebar | src/components/layout/MainLayout.tsx:30-32 | flips `sidebarOpen` |
| ContactService.Empty | src/services/api/contactService.ts:51-68 | no contacts, totals 0, and the caller's page and limit |
| ContactService.GetByClientId | src/services/api/contactService.ts:45-71 | an unusable id gives the empty listing with no request; otherwise the per-client answer; after its failure, the fallback's answer, else the empty listing |
| ContactService.AnswerIsServerOrEmpty | src/services/api/contactService.ts:45-71 | never rejects: the answer is a server listing or the empty one; at most two requests, the fallback only after a failure and for the same client |
| ContactService.DefaultsFirstRequest | src/services/api/contactService.ts:45 | with its defaults it asks for page 1 of 50 |

## Left out

- `typeof window !== 'undefined'` (server-side rendering): the model is always the browser path, where storage and `window.location` exist.
- Concurrency and timing. These are not modelled:
  - simultaneous 401s;
  - the order in which React applies state updates;
  - effect scheduling;
  - the development-only StrictMode guard of the dashboard.
  Each handler runs as one sequential step; the remote answers are its parameters.
- Request bodies (credentials, profile data) are not recorded, only verb, URL, header and route through `api` or bare `axios`.
- Console logging, JSX, icons and CSS beyond the badge class tables.
- ApiClient.ApiUrl: fixed at the default `http://localhost:3001/api`; the `NEXT_PUBLIC_API_URL` override is configuration.
- ApiClient.Failure: the login and refresh responses are taken to carry string tokens; malformed response bodies are not modelled.
- JsText.Lower: ASCII letters only; full Unicode case mapping is not modelled. Lengths count `char`s, not UTF-16 code units.
- DataFormatters.FormatDate: the `Date`/`toLocaleString('fr-FR')` rendering and its `catch` path are not modelled; the result only says which value is rendered.
- TasksList.DateCell: the `Intl.DateTimeFormat` rendering is a parameter.
- LeadsAdd.Payload: `parseFloat` is not modelled; the estimate is kept as the text it would parse.
- TasksList.TasksPage.HandleItemsPerPageChange: the new size is taken as an integer; `parseInt` of the select's text is not modelled.
- The lead list's date column and its currency column (`Intl.NumberFormat`) are not modelled.
- Values that cannot be expressed in the model:
  - `getSourceBadgeColor` on a missing source, which throws;
  - a user without `name` or `email` in the user search, which throws;
  - a leads response without `leads`, which throws.
  `Lead.source`, `ListedUser.name`/`email` and `LeadsResponse.leads` are always present.
- Object-prototype keys in the dashboard's counter, such as a `statut` of `'toString'`, are not modelled. They never change the five stage counts.
- The page-level fetches of other lists are not modelled: the users of the add-task and add-lead pages, and the clients of the add-note and add-lead pages. They only fill drop-downs.
- The delete handlers of the list pages are not modelled; they only call the service and refetch.
- The lead list's `client_id` query value (a string or a string array) is not modelled.
- The REST wrappers other than `getByClientId`, the map components, and the form components are not modelled.
