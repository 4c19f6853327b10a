# HR recruitment dashboard — Dafny model of its client-side logic

This project models the sequential logic inside the React dashboard of an HR
recruitment system. The components are not rendered or run. Each piece of
logic is pulled out as a pure function over immutable data, and its
properties are proved.

- **Gateway** (`src/api/core/axios.js`): the request interceptor attaches
  `Authorization: Bearer <token>` (section 2.1 of RFC 6750). The response
  interceptor refreshes once on a 401 from a non-auth endpoint, marks the
  request `_retry` and replays it; if the refresh fails, it clears storage
  and redirects. `Call` composes the whole cycle: the request is sent at
  most twice and refreshes at most once.
- **Session** (`src/context/AuthContext.jsx`): `logout`, `login`,
  `refreshAccessToken`, the provider's own response interceptor, and the
  `user` derived from the token. In the app both interceptors are
  registered on the same axios instance. Their composition is not
  modelled: each is modelled on its own.
- **Badges**, **AllAssignments**, **MyApplications**: the five-label
  application classifier, shared by both pages. Around it:
  - the search and status filter;
  - the stat cards and their agreement with the status select;
  - the task badge and the stage icon;
  - the per-id expand toggles.
- **Stats**: the lists read from the two responses, the summary cards, the
  cumulative sign-up buckets and the role chart.
- **TaskForm** (`TaskCreateModal.jsx`): the initial form, the change
  handler, and validation plus payload normalisation.
- **StageList**, **CreateWorkflow**, **NewForm**: the stage-row editor
  shared by the two workflow pages, the create modal's checks, and the
  create/update/edit cycle of the workflow page.
- **WorkflowList**: template search, the stages under each template, and the
  edit and assign modals.
- **SideBar**: the menu table, the effect that opens the group of the
  current path, the group toggle, the active-link tests and the badge guard.

JavaScript semantics are written out where they matter:
- truthiness (an empty token is falsy; the id `0` disables `Güncelle`);
- `includes` as substring search;
- `trim` over the full ECMAScript white-space set;
- `prev[key]` of a missing key reads false;
- `Array.isArray` fall-backs are modelled as `Option<seq<T>>`;
- an assignment through `undefined` is modelled as an error value.

`Common` holds the shared vocabulary: `Option`, `Result`, string search,
case mapping (ASCII, Latin-1 and Latin Extended-A), trimming, the order-preserving `Filter` and the flag toggle.

Two behaviours of the code are worth stating because a reader might expect
otherwise:
- Neither interceptor coordinates concurrent refreshes. Each 401 refreshes
  on its own.
- When the refresh fails, `axios.js` rejects with the refresh error, not
  with the original 401.

## Model

| member | source | states |
|---|---|---|
| Gateway.AttachBearer | src/api/core/axios.js:11-18 | With a truthy stored token, the request carries `Authorization: Bearer <token>`. The other headers, the url and the retry mark are kept. Without a token, the request is returned unchanged. |
| Gateway.Marked | src/api/core/axios.js:35-42 | The replayed config is marked `_retry` and carries `Bearer <newToken>`. Its url and every other header are kept, and no header is added. |
| Gateway.OnResponse | src/api/core/axios.js:20-55 | A refresh happens exactly for an unretried 401 off the login, register and refresh urls, and at most once. Otherwise the browser is untouched, a success passes and any other outcome rejects the original error. A successful refresh stores the token and replays the marked request: same url and headers, new bearer. A failed refresh removes token and user, goes to `/login` and rejects the refresh error. |
| Gateway.Call | src/api/core/axios.js:20-55 | One call end to end against any server: sent once or twice, refreshed at most once. It refreshes exactly when the first reply is a 401 to an unretried request off the auth urls. Without a refresh it is sent once and the browser is untouched. A second send happens exactly when a refresh succeeded. A request already marked `_retry` is sent once and leaves the browser alone. A successful first reply resolves with the browser unchanged. The call ends with the refresh error exactly when an unretried 401 off the auth urls meets a failed refresh, and then the browser is `token` and `user` removed at `/login`. A replay resolves exactly when the server accepts the replayed request. Otherwise it rejects with the replay's own error, never the refresh error, because line 44 returns the replay unawaited inside the `try`. Either way the browser keeps the new token. |
| Gateway.AuthEndpointCallNeverRefreshes | src/api/core/axios.js:24-34 | A call to an auth endpoint is sent once and never refreshes, whatever the server answers. It never ends with the refresh error, and the browser state is unchanged. |
| Gateway.ReplayCarriesNewToken | src/api/core/axios.js:38-44 | The replayed request, after the request interceptor runs again, reaches the server with `Bearer <newToken>`, for every refreshed token, the empty one included. |
| Session.Logout | src/context/AuthContext.jsx:13-23 | Whether or not the backend call fails: the token state and the stored token are cleared, and the location is `/login`. |
| Session.LogoutIdempotent | src/context/AuthContext.jsx:13-23 | The end state does not depend on the backend result. A second logout changes nothing. |
| Session.Login | src/context/AuthContext.jsx:75-78 | State and storage hold exactly the given access token. Nothing else changes. |
| Session.RefreshAccessToken | src/context/AuthContext.jsx:26-38 | On success, state and storage hold the new token and it is returned. The stored user and the location are unchanged. On failure, null is returned and exactly one logout is started. The session is the state once that logout completes. |
| Session.OnError | src/context/AuthContext.jsx:41-68 | Every 401 is marked `_retry`. An unretried 401 on an auth url is rejected with no refresh and no logout. Any other unretried 401 refreshes exactly once and replays only for a truthy new token. The replay keeps the url and every other header and carries the new bearer. The stored user and the location are unchanged. An unreplayed 401/403 off login and register starts a logout, and the session is the logged-out state once the logout completes. |
| Session.ForbiddenNeverRefreshes | src/context/AuthContext.jsx:60-65 | A 403 never refreshes or replays. Off login and register it always logs out. |
| Session.FailedRefreshLogsOutOnce | src/context/AuthContext.jsx:53-65 | When the refresh fails, logout runs twice. The final state equals a single logout. |
| Session.User | src/context/AuthContext.jsx:81-88 | No truthy token gives null. Otherwise the result is the decoding of the current token, which is null when decoding fails. |
| Session.IdentityFollowsToken | src/context/AuthContext.jsx:75-88 | After login or a successful refresh, `user` is the decoding of the new token. After logout it is null. |
| Badges.StatusBadge | src/pages/SideBar/Application-Management/AllAssignment.jsx:67-113 | One condition per label, each an if-and-only-if. Missing or empty stages: 'Başlamadı'. Any DENIED: 'Reddedildi'. No DENIED and some APPROVED: 'Devam Ediyor'. Non-empty all-PENDING: 'Beklemede'. Otherwise: 'İşlemde'. The candidate page's copy (`MyApplications.jsx` lines 68-115) is the same function. |
| Badges.StatusBadgeMatchesCounts | src/pages/SideBar/Application-Management/AllAssignment.jsx:67-113 | The classifier agrees, on every stage list, with a reference definition written over the counts of DENIED, APPROVED and PENDING stages. |
| Badges.BadgeTextsDistinct | src/pages/SideBar/Application-Management/AllAssignment.jsx:237-282 | The five label texts are pairwise different, so the cards' text comparison is a comparison of labels. |
| Badges.StageStatusIcon | src/pages/SideBar/Application-Management/AllAssignment.jsx:116-126 | APPROVED is a check and DENIED is a cross. Every other status, known or not, is the pending clock. |
| Badges.SingleStageBadge | src/pages/SideBar/Application-Management/AllAssignment.jsx:67-126 | On a one-stage application, the stage icon and the application label agree. |
| AllAssignments.FilteredAssignments | src/pages/SideBar/Application-Management/AllAssignment.jsx:128-139 | The result is an order-preserving part of the input. It holds exactly the applications that match the search on name, surname, e-mail or workflow name and, unless the filter is 'all', whose lowercased label contains the lowercased filter. Each kept application occurs as often as in the input. |
| AllAssignments.EmptySearchListsAll | src/pages/SideBar/Application-Management/AllAssignment.jsx:128-135 | An empty search with the filter 'all' lists every application, in order. |
| AllAssignments.StatusFilterNarrows | src/pages/SideBar/Application-Management/AllAssignment.jsx:136-138 | A status filter gives the 'all' result filtered by status. It is therefore an order-preserving part of that result. |
| AllAssignments.CardsWithinTotal | src/pages/SideBar/Application-Management/AllAssignment.jsx:237-282 | The Beklemede, Devam Ediyor and Reddedildi cards together never exceed the total card. |
| AllAssignments.StatusOptionSelectsCard | src/pages/SideBar/Application-Management/AllAssignment.jsx:216-219 | The options 'beklemede', 'devam' and 'reddedildi' occur in exactly one lowercased label each: their card's. |
| AllAssignments.CardMatchesStatusOption | src/pages/SideBar/Application-Management/AllAssignment.jsx:128-139 | With an empty search, each of the three cards counts exactly the applications the matching select option lists. |
| Common.Toggle | src/pages/SideBar/Application-Management/AllAssignment.jsx:53-65 | Only the toggled key flips, with a missing key read as closed. Every other key keeps its value. |
| Common.ToggleTwice | src/pages/SideBar/Application-Management/AllAssignment.jsx:53-65 | Toggling the same id twice restores every flag as the page reads it. |
| Common.CaseRoundTrip | src/pages/SideBar/Application-Management/AllAssignment.jsx:128-135 | Every capital the lowercasing changes comes back under uppercasing. Every small letter the uppercasing changes comes back under lowercasing, except ı, ſ and µ, whose capitals belong to other letters. |
| Common.TurkishCapitals | src/pages/SideBar/Application-Management/AllAssignment.jsx:128-135 | Ç, Ğ, Ö, Ş and Ü lowercase to ç, ğ, ö, ş and ü. |
| AllAssignments.TurkishSurnameFound | src/pages/SideBar/Application-Management/AllAssignment.jsx:128-135 | Both 'çelik' and 'Çelik' find the surname 'Çelik'. |
| Common.Filter | src/pages/SideBar/Application-Management/AllAssignment.jsx:128-139 | `filter` keeps exactly the elements that pass, in their order and each as often as it occurs in the input. |
| Common.FilterNarrows | src/components/workflow/WorkflowList.jsx:73-79 | Filtering by a stronger condition keeps an order-preserving part of what a weaker one keeps. |
| Common.BlankIffAllSpace | src/components/ui/TaskCreateModal.jsx:43-51 | `!s.trim()` holds exactly when the string is empty or all ECMAScript white space. |
| Common.TrimIdempotent | src/components/ui/TaskCreateModal.jsx:56-60 | Trimming a trimmed string changes nothing. |
| MyApplications.CandidateView | src/pages/SideBar/Candidate/MyApplications.jsx:216-217 | A missing workflow or stage list shows 'Başlamadı' over no rows. Otherwise the rows are the workflow's stages, and the label is 'Başlamadı' exactly when there are none. |
| MyApplications.TaskStatusBadge | src/pages/SideBar/Candidate/MyApplications.jsx:129-151 | APPROVED is 'Tamamlandı' and DENIED is 'Reddedildi'. Every other status, known or not, is 'Beklemede'. |
| MyApplications.TaskBadgeAgreesWithIcon | src/pages/SideBar/Candidate/MyApplications.jsx:117-151 | The task badge and the stage icon split the statuses the same way. |
| MyApplications.ClickStage | src/pages/SideBar/Candidate/MyApplications.jsx:305-319 | A click on a stage without tasks (missing or empty list) changes nothing. On a stage with tasks, only that stage's flag flips. |
| MyApplications.ClicksOnStage | src/pages/SideBar/Candidate/MyApplications.jsx:61-66 | A stage without tasks never shows a task list, however often it is clicked. A stage with tasks opens and closes on alternate clicks. |
| Stats.FirstArray | src/pages/SideBar/Application-Management/Stats.jsx:39-52 | The users, and likewise the candidates, come from the nested array if there is one, else from the outer array, else the list is empty. |
| Stats.ChartWithinCards | src/pages/SideBar/Application-Management/Stats.jsx:39-65 | 'Total Users' shows the length of the users list the role chart counts, and 'Total Forms' the candidate count. The chart's three role bars together never exceed 'Total Users'. |
| Stats.UpdateStats | src/pages/SideBar/Application-Management/Stats.jsx:57-65 | 'Total Users' gets the user count and 'Total Forms' the candidate count. Every other entry and every title is unchanged. |
| Stats.UpdateStatsIdempotent | src/pages/SideBar/Application-Management/Stats.jsx:25-65 | A second update with the same counts changes nothing. From the initial cards, it fills exactly the two totals. |
| Stats.CreatedAtBuckets | src/pages/SideBar/Application-Management/Stats.jsx:77-102 | Each bucket counts the users who signed up within its window. The buckets are cumulative: 7 ≤ 14 ≤ 30 ≤ 365 days ≤ all users. |
| Stats.UndatedUserIgnored | src/pages/SideBar/Application-Management/Stats.jsx:85-86 | A user without a parsable `createdAt` is in no bucket. |
| Stats.CountWithinMonotone | src/pages/SideBar/Application-Management/Stats.jsx:90-93 | A wider window counts every user a narrower one counts. |
| Stats.CountRoles | src/pages/SideBar/Application-Management/Stats.jsx:106-112 | Only ADMIN, HR and CANDIDATE (after uppercasing, with a missing role read as "") get a key. A key is present exactly when its count is positive, and holds that count. |
| Stats.RoleData | src/pages/SideBar/Application-Management/Stats.jsx:115-120 | Four entries: the three role counts, with 0 for absent ones, and 'Aday' equal to the candidate count. The three role counts sum to at most the number of users. |
| Stats.RolesWithinUsers | src/pages/SideBar/Application-Management/Stats.jsx:106-112 | No user is counted under two roles. |
| TaskForm.InitialFormFields | src/components/ui/TaskCreateModal.jsx:6-14 | The initial form has type FILE_UPLOAD, `isRequired` true and every text field empty. |
| TaskForm.HandleInputChange | src/components/ui/TaskCreateModal.jsx:25-31 | Only the named field changes: to `checked` for the checkbox, otherwise to `value`. |
| TaskForm.LaterChangeWins | src/components/ui/TaskCreateModal.jsx:25-31 | Two changes of the same input keep only the later one. |
| TaskForm.ChangesCommute | src/components/ui/TaskCreateModal.jsx:25-31 | Changes of different inputs can be applied in either order. |
| TaskForm.Submit | src/components/ui/TaskCreateModal.jsx:40-63 | A blank title is refused first. A CASE_ASSIGNMENT with blank content is refused next; other types never need content. Otherwise the payload has the trimmed title and trimmed description and content, with blank ones absent. Empty dates are absent, and type and `isRequired` are copied. |
| TaskForm.SubmitNormalises | src/components/ui/TaskCreateModal.jsx:56-63 | Submitting the form a payload describes gives that payload back. |
| StageList.AddStage | src/components/workflow/CreateWorkflowButton.jsx:13 | One empty row is appended. The existing rows are unchanged. |
| StageList.RemoveStage | src/components/workflow/CreateWorkflowButton.jsx:14 | Exactly row `idx` goes and the others keep their order. An index out of range removes nothing. |
| StageList.SetStageName | src/components/workflow/CreateWorkflowButton.jsx:16-20 | Only row `idx` gets the new name. An index with no row fails, as the assignment through `undefined` throws. |
| StageList.NamesDraftsRoundTrip | src/pages/Dashboard/NewForm.jsx:100-104 | Loading names into rows and reading them back is lossless, in both directions. |
| StageList.PayloadOf | src/components/workflow/CreateWorkflowButton.jsx:29-32 | The body is the name as typed plus the row names in list order. |
| StageList.RemoveAfterAdd | src/pages/Dashboard/NewForm.jsx:35-37 | Removing the row just added restores the list. |
| StageList.AddOnPayload | src/pages/Dashboard/NewForm.jsx:35-49 | Adding a row adds an empty name at the end of the body. |
| StageList.RenameOnPayload | src/pages/Dashboard/NewForm.jsx:38-49 | Renaming a row changes exactly that name in the body. |
| StageList.Apply | src/components/workflow/CreateWorkflowButton.jsx:77-100 | An add click grows the list by one. A remove click shrinks it by one. Typing keeps its length. |
| StageList.RunNeverEmpties | src/components/workflow/CreateWorkflowButton.jsx:85-92 | Removal is offered only with two or more rows, so no sequence of clicks empties the list. |
| CreateWorkflow.HandleCreateAsWritten | src/components/workflow/CreateWorkflowButton.jsx:22-32 | The code as written. A blank name is an error toast, a blank stage name is a success toast, and otherwise the body is built. |
| CreateWorkflow.BlankStageReportedAsSuccess | src/components/workflow/CreateWorkflowButton.jsx:24-25 | A named template with an unnamed stage is refused with a success toast. |
| CreateWorkflow.HandleCreate | src/components/workflow/CreateWorkflowButton.jsx:22-32 | Either blank field aborts with an error toast before the API call. Otherwise the body is the untrimmed name and every stage name in order, none of them blank. |
| CreateWorkflow.CorrectionOnlyChangesToast | src/components/workflow/CreateWorkflowButton.jsx:22-32 | The corrected handler accepts the same inputs with the same body, and refuses with the same messages. |
| CreateWorkflow.InitialRowMustBeNamed | src/components/workflow/CreateWorkflowButton.jsx:9-25 | The freshly opened modal refuses to create until its one row is named. |
| CreateWorkflow.AcceptedPayloadRoundTrips | src/components/workflow/CreateWorkflowButton.jsx:29-32 | An accepted body, typed back into the modal, is accepted again with the same body. |
| NewForm.CreatePayload | src/pages/Dashboard/NewForm.jsx:44-49 | The body is the editor's name and its row names in order, for every state, with no check. |
| NewForm.AfterCreate | src/pages/Dashboard/NewForm.jsx:51-52 | After a create, the name is empty and the rows are one empty row. The selection and the open row are kept. |
| NewForm.UpdateRequestOf | src/pages/Dashboard/NewForm.jsx:64-69 | No request while `!selectedId` (no selection or id 0; the button at line 162). Otherwise the selected id is updated with the editor's unchecked body. |
| NewForm.AfterUpdate | src/pages/Dashboard/NewForm.jsx:71-73 | After an update, the selection is also cleared, which disables the update again. |
| NewForm.EditWorkflow | src/pages/Dashboard/NewForm.jsx:100-104 | Selects the workflow and loads its name and exactly its stage names. |
| NewForm.EditThenUpdateRoundTrip | src/pages/Dashboard/NewForm.jsx:100-104 | Editing a workflow and updating straight away sends its own name and stages back to its id. |
| NewForm.CreateAfterResetIsUnchecked | src/pages/Dashboard/NewForm.jsx:44-52 | Right after a reset, a create sends an empty name and one empty stage. |
| NewForm.ToggleOpen | src/pages/Dashboard/NewForm.jsx:180-182 | Clicking the open row closes it. Clicking another row opens only that one. Nothing else in the editor changes. |
| NewForm.ToggleOpenTwice | src/pages/Dashboard/NewForm.jsx:180-182 | Two clicks on one row leave it open only if it was open. A different row that was open is not restored. |
| WorkflowList.ListFrom | src/components/workflow/WorkflowList.jsx:30 | A response that is not an array gives the empty list. |
| WorkflowList.ShownFromResponses | src/components/workflow/WorkflowList.jsx:30-45 | A response that is not an array shows no template, and no stage under any template. An array with an empty search shows every template, and every fetched row tagged with a template shows up under it. |
| WorkflowList.SearchWorkflows | src/components/workflow/WorkflowList.jsx:73-79 | The result is the order-preserving part of the templates whose lowercased name contains the lowercased search, each as often as in the input. |
| WorkflowList.EmptySearchListsAll | src/components/workflow/WorkflowList.jsx:73-79 | An empty search lists every template, in order. |
| WorkflowList.LongerSearchNarrows | src/components/workflow/WorkflowList.jsx:73-79 | Typing more keeps an order-preserving part of the previous result. |
| WorkflowList.RelatedStages | src/components/workflow/WorkflowList.jsx:166-168 | Exactly the stage rows tagged with the template's id, in order, each as often as fetched. |
| WorkflowList.RelatedStagesDisjoint | src/components/workflow/WorkflowList.jsx:166-168 | Templates with different ids share no stage row. The rows shown under the two never outnumber the rows fetched. |
| WorkflowList.OpenEdit | src/components/workflow/WorkflowList.jsx:94-97 | The edit modal shows the template, with its name seeded. |
| WorkflowList.OpenAssignModal | src/components/workflow/WorkflowList.jsx:112-115 | The assign modal shows the template, and the earlier selection is dropped. |
| WorkflowList.FindCandidate | src/components/workflow/WorkflowList.jsx:284-290 | Returns the first candidate with the chosen id. It returns none exactly when the empty option is chosen or no candidate has that id. |
| WorkflowList.HandleAssign | src/components/workflow/WorkflowList.jsx:117-135 | No candidate: refused before any call. No template in the modal: the call fails. Otherwise the body carries the template id, the candidate id and assigner 1. |
| WorkflowList.AfterAssign | src/components/workflow/WorkflowList.jsx:129-133 | Success closes the assign modal. Failure keeps the state. The selection and the edit modal with its name are kept either way. |
| WorkflowList.AssignAroundModals | src/components/workflow/WorkflowList.jsx:94-135 | Opening the edit modal leaves a pending assignment's request unchanged. A failed assignment can be retried with the same request. After a successful one, nothing is sent until the assign modal is opened again. |
| WorkflowList.AssignFlow | src/components/workflow/WorkflowList.jsx:112-128 | Assigning straight after opening the modal is refused. Choosing a listed candidate then assigns that candidate to that template. |
| SideBar.IsGroupActive | src/components/layout/SideBar.jsx:97-99 | A group is highlighted exactly when one of its child links is the current path. |
| SideBar.MenuLinkPaths | src/components/layout/SideBar.jsx:39-91 | The link targets of the menu table, in display order. |
| SideBar.MenuLinksDistinct | src/components/layout/SideBar.jsx:93-95 | The link targets are pairwise different, so at most one link is highlighted for any path. |
| SideBar.OpenFor | src/components/layout/SideBar.jsx:16-30 | After the effect, a group is open exactly when it was open or one of its blocks lists the path. Every other key keeps its value, and new keys are only ever true. |
| SideBar.AutoOpenAsWritten | src/components/layout/SideBar.jsx:16-30 | The effect with its literal path lists never closes a menu. It opens exactly the groups whose lists hold the path. |
| SideBar.NewFormLinkNotOpened | src/components/layout/SideBar.jsx:19-21 | On '/yeni-sablon' the applications group is highlighted but stays closed. On '/new-form' it opens with no link highlighted. |
| SideBar.AutoOpen | src/components/layout/SideBar.jsx:16-30 | With path lists derived from the menu table, open menus stay open. Keys no list matches keep their value. |
| SideBar.AutoOpenOpensActiveGroup | src/components/layout/SideBar.jsx:16-30 | With derived lists, a group is opened exactly when one of its links is the current path, or when it was open before. |
| SideBar.NewFormLinkOpensGroup | src/components/layout/SideBar.jsx:56 | With derived lists, the 'Yeni Form' page opens the applications group. |
| SideBar.ToggleMenu | src/components/layout/SideBar.jsx:32-37 | Only the clicked group's flag flips. |
| SideBar.HeaderClickClosesOpenedGroup | src/components/layout/SideBar.jsx:32-37 | A header click right after the effect opened its group closes it. |
| SideBar.RenderBadge | src/components/layout/SideBar.jsx:101-102 | A missing or empty count renders nothing. Any other count renders as its text. |
| SideBar.MenuBadgesRender | src/components/layout/SideBar.jsx:39-91 | Every badge configured in the menu renders, so the guard hides only items without one. |

## Left out

- Network I/O, storage and navigation are not executed. The backend replies become parameters: `Reply`, `RefreshReply`, the `backendOk` of logout, and the success flag of an assignment. `localStorage` and `window.location` are fields of `Browser`.
- Toasts, loading flags, console output and the rendering itself are left out. Toasts are modelled only where they are the error path (`CreateWorkflow.Notice`).
- Concurrent requests are left out. Neither interceptor shares an in-flight refresh, so there is no coalescing to model.
- The two interceptors share one axios instance in the app, so an error response passes through both. Their composition is not modelled. Each interceptor is modelled on its own.
- Session.OnError: `logout()` is not awaited (lines 35 and 64). Null is returned, or the error rejected, while the token state and the stored token are still set. They are cleared only when `POST /auth/logout` settles. The modelled session is the state after the pending logouts complete.
- Session.OnError: the logout counts cover the direct calls only. `logout()`'s own backend call goes through the same axios instance, and `/auth/logout` is not in the auth list of line 48, so a 401 on it would enter this handler again. That re-entry is not modelled.
- Session.RefreshAccessToken: the returned session is the state after the unawaited `logout()` completes, not the state at the moment null is returned.
- Session.User: `jwtDecode` (RFC 7519) is a parameter, a partial function from token to claims.
- Gateway.OnResponse: a refresh reply without `data.data`, which makes the destructuring throw, is folded into `RefreshFailed`.
- Stats.CreatedAtBuckets: the age in days is an input (`DaysAgo`). `new Date()`, the division by 86 400 000 and invalid dates (`Unparsable`, which no bucket counts) are not computed.
- Common.Lower: `toLowerCase` and `toUpperCase` are modelled for ASCII, Latin-1 and Latin Extended-A, which covers the Turkish letters except the dotted capital İ. In JavaScript İ lowercases to two characters, i followed by U+0307, and the model leaves it unchanged. So a name or search term containing İ is lowercased differently from the page. The only label with İ, 'İşlemde', matches none of the select's options either way. ß and ŉ uppercase to two characters in JavaScript and stay unchanged in the model. Letters of other scripts (Greek, Cyrillic and so on) are not case-mapped.
- TaskForm.HandleInputChange: requires that the event comes from the form's own markup (`Wired`): the checkbox is bound to `isRequired` and every other input to a text key. Arbitrary keys written by foreign events are not modelled.
- TaskForm.Submit: the `stageId` argument and the date pickers' default values (`formatDateTimeLocal`, `getDefaultDateTime`) are not modelled.
- StageList.SetStageName: the source mutates the row object shared with the previous state. The model returns a new list, which is what React renders.
- WorkflowList: `handleDelete` (behind a `confirm` dialog), `handleUpdate` (name only) and the fetch error toasts are I/O only and are left out. `candidates` is taken to be an array.
- The ThemeContext palette, the TaskCard type tables, the WfDetail stage filter (a copy of `relatedStages`) and the pure rendering and endpoint-wrapper files carry no logic beyond their tables and are left out.

## Findings

| source | as written | input that shows it | evidently intended | confidence | as-written member | corrected member |
|---|---|---|---|---|---|---|
| src/components/layout/SideBar.jsx:19-21 | The applications group is auto-opened for '/my-forms', '/forms', '/new-form' and '/applicants'. Its 'Yeni Form' link (line 56) points to '/yeni-sablon'. | pathname '/yeni-sablon': the group is highlighted but stays closed. '/new-form' opens it with no link highlighted. | A group opens when one of its own links is the current page. Either half can be the stale one: `src/routes/App.routes.jsx:54` routes '/new-form' and nothing routes '/yeni-sablon', so the fix may be the link at line 56 rather than the list. The corrected member derives the lists from the menu table, which holds for either fix. | medium, not executed | SideBar.NewFormLinkNotOpened | SideBar.AutoOpenOpensActiveGroup |
| src/components/workflow/CreateWorkflowButton.jsx:24-25 | A blank stage name aborts the create with `toast.success`. | name 'Hiring' with the single empty initial row | The refusal is shown as an error toast, like the blank-name check on line 23. | high, not executed | CreateWorkflow.BlankStageReportedAsSuccess | CreateWorkflow.HandleCreate |
