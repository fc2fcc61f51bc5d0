# Task manager client: a verified Dafny model

This project models the browser client of a single-user task manager. The
client signs a user in, then lets them list, search, filter, page through,
create, edit and delete their tasks against a remote API.

The centre of the model is the **task list controller** (the dashboard). It
holds the task collection and normalises the list response, whether that is
an envelope or a bare array. From a search query and two selectors it derives
the filtered view and the current page of nine tasks, keeps page navigation in
bounds, and re-fetches after every create, update or delete. Around it sit
smaller pieces:

- the task form, with its initial contents, required-field check and
  create-or-update submit;
- the login and registration forms, with their validation ladders and
  error-to-notification mapping;
- the detail view, with its delete confirmation gate and status label;
- the top-level view state machine, which holds the user, the shown screen,
  one notification slot and the theme flag.

Modules:

- `Common`: `Option`, and `Reply<T>`, the outcome of an awaited service call (resolved value or rejection with optional server text). Also notifications (`Note`, `Notice` with the default type), the JavaScript truthiness of an optional string (`OrElse`), ASCII `Lower`, and substring `Contains`.
- `TaskModel`: the `Task` record and the `Priority` and `Status` enumerations.
- `TaskFilter`: `applyFilters` as the source chains it (`ApplyFilters`, three optional `Select` stages), beside a reference single pass over the conjunction of the constraints (`Keeps`). The lemmas relate the two.
- `Paging`: `ceil(n / 9)` and the page slice, with the partition lemmas.
- `Dashboard`: response normalisation and the class `Controller`, whose fields are the component's state variables and whose methods are its handlers and effects. `Valid()` ties the filtered view and the page to the collection and the controls. The field `sent` records the calls the dashboard makes to its `showNotification` prop, oldest first.
- `TaskForm` (TaskModal.jsx), `Register`, `Login`: pure validation and outcome functions, plus a class per form. Each submit has two steps: `BeginSubmit` runs up to the awaited call and `FinishSubmit` runs from its outcome. `loading` is true exactly in between.
- `TaskDetail`: the delete gate, `replace('_', ' ')` on the status name, and the reminder guard.
- `App`: the class `AppState` with the view, user, notification and theme fields.

Services (`taskService`, `authService`) are not modelled. Each call's outcome
is a parameter of the method that makes it, so every method is proved for
every outcome. The confirmation dialog's answer, the stored theme entry and
the stored token are parameters too.

## Model

| member | source | states |
|---|---|---|
| `Common.Notice` | frontend/src/App.js:44-46 | a notification keeps its message; its type is an error only when the caller passed 'error', since an omitted type means 'success' |
| `Common.Truthy` | frontend/src/App.js:27 | definition: an optional string is truthy iff it is present and non-empty, as JavaScript reads `token &&` |
| `Common.OrElse` | frontend/src/components/Register.jsx:28 | the or-else of `error.response?.data` and its fallback: the value when it is truthy, the fallback otherwise |
| `Common.LowerChar` | frontend/src/components/Dashboard.jsx:56 | `toLowerCase` on one character: an ASCII capital moves 32 code points down to its small letter, every other character is kept |
| `Common.Lower` | frontend/src/components/Dashboard.jsx:56 | `toLowerCase` on a string: same length, each character lowered by `LowerChar` |
| `Common.Contains` | frontend/src/components/Dashboard.jsx:56 | definition of `includes`: q is a prefix of s or occurs in its tail; its meaning is stated by `ContainsIffOccurs` |
| `Common.ContainsIffOccurs` | frontend/src/components/Dashboard.jsx:56 | the substring test used for `includes` holds iff the query is a prefix of some suffix of the name |
| `TaskModel.StatusName` | frontend/src/components/TaskDetail.jsx:32 | definition: the wire names PENDING, IN_PROGRESS and COMPLETED of the three statuses |
| `TaskFilter.IsBlank` | frontend/src/components/Dashboard.jsx:54 | definition: `searchQuery.trim()` is empty iff every character of the query is JavaScript white space or a line terminator |
| `TaskFilter.NameMatches` | frontend/src/components/Dashboard.jsx:55-57 | definition: the task has a name and its lowered name contains the lowered, untrimmed query |
| `TaskFilter.Admits` | frontend/src/components/Dashboard.jsx:58-60 | definition: a selector on 'ALL' admits every value, any other selector only its own value |
| `TaskFilter.Keeps` | frontend/src/components/Dashboard.jsx:51-62 | definition of the reference single pass: a blank query or a name match, and the priority selector admits the task, and the status selector admits it |
| `TaskFilter.ApplyFilters` | frontend/src/components/Dashboard.jsx:51-62 | the chain as written, a name stage skipped for a blank query and a selector stage skipped on 'ALL', never lengthens the collection; `ApplyFiltersIsOnePass` states what it keeps |
| `TaskFilter.Select` | frontend/src/components/Dashboard.jsx:55-60 | a `filter` stage never lengthens the list |
| `TaskFilter.ApplyFiltersIsOnePass` | frontend/src/components/Dashboard.jsx:51-62 | the three-stage chain, each stage skipped when its control is blank or 'ALL', equals one pass keeping the tasks that meet the query AND the priority AND the status constraint |
| `TaskFilter.FilterMembers` | frontend/src/components/Dashboard.jsx:54-60 | a task is in the view iff it is in the collection and (the trimmed query is empty, or its name is present and its lowered name contains the lowered untrimmed query) and each selector is 'ALL' or equal to the task's value |
| `TaskFilter.FilterPositions` | frontend/src/components/Dashboard.jsx:51-62 | the view is the collection read at strictly ascending positions, and a position is read exactly when its task meets the constraints |
| `TaskFilter.FilterIsSubsequence` | frontend/src/components/Dashboard.jsx:51-62 | the view is an order-preserving subsequence of the collection |
| `TaskFilter.FilterIdempotent` | frontend/src/components/Dashboard.jsx:51-62 | filtering the view again with the same controls returns the same view |
| `TaskFilter.NoFilterKeepsAll` | frontend/src/components/Dashboard.jsx:52-60 | a blank query with both selectors on 'ALL' keeps the whole collection |
| `TaskFilter.ReportScenario` | frontend/src/components/Dashboard.jsx:54-57 | the query "report" keeps "Report Q1" and "report Q2", in order, and drops "Budget" |
| `Paging.TotalPages` | frontend/src/components/Dashboard.jsx:91 | `ceil(n / 9)`: the pages hold all n items, and one page fewer would not |
| `Paging.LastPage` | frontend/src/components/Dashboard.jsx:201-227 | the highest page navigation can reach is max(1, totalPages): totalPages whenever there are items, and 1 for an empty view |
| `Paging.Page` | frontend/src/components/Dashboard.jsx:92-94 | page p holds at most nine items, namely the items at positions (p-1)*9 onward; it is full or holds the remainder, and it is empty past the end |
| `Paging.PagesUpTo` | frontend/src/components/Dashboard.jsx:92-94 | definition: pages 1 to k of the view, one after another |
| `Paging.PagesUpToIsPrefix` | frontend/src/components/Dashboard.jsx:92-94 | pages 1..k concatenated are the first min(9k, n) items |
| `Paging.PagesPartition` | frontend/src/components/Dashboard.jsx:91-94 | pages 1..totalPages concatenated give back the filtered view exactly |
| `Paging.PagesNonEmpty` | frontend/src/components/Dashboard.jsx:91-94 | every page 1..totalPages holds between one and nine items, and the page after the last is empty |
| `Paging.PagesDisjoint` | frontend/src/components/Dashboard.jsx:92-94 | two different pages never draw on the same position of the view |
| `Paging.TwelveItemsScenario` | frontend/src/components/Dashboard.jsx:91-94 | twelve items make two pages, of nine and of three |
| `Dashboard.TaskList` | frontend/src/components/Dashboard.jsx:35-45 | a resolved response carrying an array (as `content` or as itself) yields that array; every other response, and a failure, yields the empty list |
| `Dashboard.FetchNotices` | frontend/src/components/Dashboard.jsx:43-45 | a fetch sends a notification iff it fails, and then exactly one: 'Failed to fetch tasks' of type error |
| `Dashboard.DeletedTaskLeavesView` | frontend/src/components/Dashboard.jsx:256-258 | once the re-fetched list no longer holds an id, no task with that id is in the view, whatever the controls |
| `Dashboard.FailedFetchScenario` | frontend/src/components/Dashboard.jsx:43-45 | a failed fetch leaves an empty view and one error notification |
| `Dashboard.Controller.Valid` | frontend/src/components/Dashboard.jsx:29 | definition of the invariant every handler keeps: the view is `ApplyFilters` of the collection and the controls, and the page lies in 1..max(1, totalPages) |
| `Dashboard.Controller.constructor` | frontend/src/components/Dashboard.jsx:15-24 | initial state: empty collection and view, page 1, blank query, both selectors 'ALL', no modal, no selection, not loading, and no `showNotification` call sent yet |
| `Dashboard.Controller.CurrentTasks` | frontend/src/components/Dashboard.jsx:92-94 | the rendered cards are exactly the current page of the view, `Page(filteredTasks, currentPage)`: at most nine tasks, each in the collection and meeting the constraints |
| `Dashboard.Controller.ShowsPager` | frontend/src/components/Dashboard.jsx:201 | the pager is shown iff totalPages > 1, that is iff the view holds more than nine tasks |
| `Dashboard.Controller.ApplyFilterEffect` | frontend/src/components/Dashboard.jsx:51-64 | the view is recomputed from the collection and the controls, and the page returns to 1 |
| `Dashboard.Controller.FetchTasks` | frontend/src/components/Dashboard.jsx:31-49 | the collection becomes the normalised list, the view is recomputed on page 1, failures add one error notification, and `loading` ends false |
| `Dashboard.Controller.SetSearchQuery` | frontend/src/components/Dashboard.jsx:143-145 | a new query recomputes the view and resets the page to 1 |
| `Dashboard.Controller.SetPriorityFilter` | frontend/src/components/Dashboard.jsx:151-153 | a new priority selection recomputes the view and resets the page to 1 |
| `Dashboard.Controller.SetStatusFilter` | frontend/src/components/Dashboard.jsx:162-164 | a new status selection recomputes the view and resets the page to 1 |
| `Dashboard.Controller.PreviousPage` | frontend/src/components/Dashboard.jsx:201-208 | "previous" moves back one page iff the pager is shown and the page is not 1; the page stays within 1..max(1, totalPages) |
| `Dashboard.Controller.NextPage` | frontend/src/components/Dashboard.jsx:225-230 | "next" moves on one page iff the pager is shown and the page is not the last; the page stays in bounds |
| `Dashboard.Controller.GoToPage` | frontend/src/components/Dashboard.jsx:211-223 | a numbered button exists, and sets the page, only for 1..totalPages while the pager is shown |
| `Dashboard.Controller.OpenTaskModal` | frontend/src/components/Dashboard.jsx:71-74 | the form opens on the given task, or on none for a new task |
| `Dashboard.Controller.CloseTaskModal` | frontend/src/components/Dashboard.jsx:76-79 | the form closes and the selection is cleared |
| `Dashboard.Controller.OpenDetailModal` | frontend/src/components/Dashboard.jsx:81-84 | the detail view opens on the task |
| `Dashboard.Controller.CloseDetailModal` | frontend/src/components/Dashboard.jsx:86-89 | the detail view closes and the selection is cleared |
| `Dashboard.Controller.EditSelected` | frontend/src/components/Dashboard.jsx:252-255 | "Edit" closes the detail view and opens the form on the same task |
| `Dashboard.Controller.TaskSaved` | frontend/src/components/Dashboard.jsx:240-243 | after a form success the list is re-fetched, then the form closes and the selection is cleared; the controls are kept |
| `Dashboard.Controller.DeleteSelected` | frontend/src/components/Dashboard.jsx:256-260 | a delete request for the selected task's id is made iff the user confirms; only if it succeeds is the list re-fetched and the detail view closed, and otherwise nothing changes |
| `TaskForm.FormFor` | frontend/src/components/TaskModal.jsx:6-27 | a new form is blank with MEDIUM and PENDING; an existing task's fields are copied, and a missing reminder becomes "" |
| `TaskForm.RequiredFilled` | frontend/src/components/TaskModal.jsx:32 | definition: the name, description and due date are all non-empty |
| `TaskForm.RequestFor` | frontend/src/components/TaskModal.jsx:39-45 | an existing task is updated under its own id, otherwise a task is created; the current form is the draft either way |
| `TaskForm.ReplyNotice` | frontend/src/components/TaskModal.jsx:41-48 | success gives 'Task updated!' or 'Task created!' of type success; failure gives the server message, else 'Operation failed', of type error |
| `TaskForm.TaskModal.constructor` | frontend/src/components/TaskModal.jsx:6-27 | the form starts as the initial contents for its task, not loading |
| `TaskForm.TaskModal.Edit` | frontend/src/components/TaskModal.jsx:78-158 | an input change replaces the form contents, allowed only while not loading |
| `TaskForm.TaskModal.BeginSubmit` | frontend/src/components/TaskModal.jsx:32-40 | an empty name, description or due date gives 'Please fill in all required fields', no request, and `loading` untouched; otherwise exactly one request, for this task and form, and `loading` true |
| `TaskForm.TaskModal.FinishSubmit` | frontend/src/components/TaskModal.jsx:46-51 | `onSuccess` runs iff the call resolved, the matching notification is shown, and `loading` ends false |
| `Register.Validate` | frontend/src/components/Register.jsx:12-20 | the form may be sent iff all three fields are present and the password has at least six characters; a missing field is reported before the length |
| `Register.FailureMessage` | frontend/src/components/Register.jsx:28-33 | a server text (or the fallback 'Registration failed') that contains "exists" in any letter case is shown as 'User Already Exists', any other text as it is |
| `Register.FallbackLacksExists` | frontend/src/components/Register.jsx:28-29 | the fallback text never triggers the 'User Already Exists' branch |
| `Register.UpperExistsFound` | frontend/src/components/Register.jsx:29 | "EXISTS" in capitals is still recognised |
| `Register.FailureMessageScenarios` | frontend/src/components/Register.jsx:28-33 | no server text shows 'Registration failed'; 'User EXISTS' shows 'User Already Exists' |
| `Register.RegisterForm.constructor` | frontend/src/components/Register.jsx:6-7 | the form starts empty and not loading |
| `Register.RegisterForm.Edit` | frontend/src/components/Register.jsx:58-92 | an input change replaces the form contents, allowed only while not loading |
| `Register.RegisterForm.BeginSubmit` | frontend/src/components/Register.jsx:12-24 | a form failing the ladder shows the ladder's error and makes no call; otherwise the form is sent and `loading` is true |
| `Register.RegisterForm.FinishSubmit` | frontend/src/components/Register.jsx:24-36 | success shows 'Registration successful! Please login.' and runs `onRegisterSuccess`; failure shows the mapped error only; `loading` ends false |
| `Login.ReplyNotice` | frontend/src/components/Login.jsx:19-23 | success shows 'Login successful!'; failure shows the server text, else 'Invalid credentials', as an error |
| `Login.LoginForm.constructor` | frontend/src/components/Login.jsx:6-7 | the form starts empty and not loading |
| `Login.LoginForm.Edit` | frontend/src/components/Login.jsx:48-65 | an input change replaces the form contents, allowed only while not loading |
| `Login.LoginForm.BeginSubmit` | frontend/src/components/Login.jsx:12-19 | an empty username or password shows 'Please fill in all fields' and makes no call; otherwise the credentials are sent and `loading` is true |
| `Login.LoginForm.FinishSubmit` | frontend/src/components/Login.jsx:19-26 | `onLoginSuccess` receives the service response iff the call resolved; `loading` ends false in both cases |
| `App.AppState.constructor` | frontend/src/App.js:9-14 | the application starts on the login view with no user and no notification; dark mode is on iff the stored entry is exactly 'true' |
| `App.AppState.Bootstrap` | frontend/src/App.js:25-42 | the session check runs only with a non-empty stored token and `isAuthenticated()`; success stores the user and shows the dashboard, failure logs out and shows the login view |
| `App.AppState.ShowNotification` | frontend/src/App.js:44-46 | the slot holds exactly the new notification, replacing the previous one |
| `App.AppState.CloseNotification` | frontend/src/App.js:63 | closing empties the slot |
| `App.AppState.HandleLoginSuccess` | frontend/src/App.js:48-51 | the user becomes exactly the response's username and email, and the dashboard view is selected |
| `App.AppState.HandleRegisterSuccess` | frontend/src/App.js:53-55 | a registration success returns to the login view |
| `App.AppState.SwitchToRegister` | frontend/src/App.js:70 | the login screen's link selects the register view |
| `App.AppState.SwitchToLogin` | frontend/src/App.js:79 | the register screen's link selects the login view |
| `App.AppState.SetDarkMode` | frontend/src/App.js:89 | the theme flag takes the value the dashboard's toggle sets |
| `App.AppState.Rendered` | frontend/src/App.js:67-92 | at most one screen is rendered: login or register follow the view alone, and the dashboard needs both its view and a user |
| `TaskDetail.HandleDelete` | frontend/src/components/TaskDetail.jsx:6-10 | `onDelete` is invoked once when the user confirms and nothing is invoked when they decline |
| `TaskDetail.FirstIndex` | frontend/src/components/TaskDetail.jsx:32 | the position `replace` acts on is the first '_', or none |
| `TaskDetail.ReplaceFirst` | frontend/src/components/TaskDetail.jsx:32 | only the first '_' is replaced by a space, and a name without one is unchanged |
| `TaskDetail.StatusLabel` | frontend/src/components/TaskDetail.jsx:32 | definition: `status.replace('_', ' ')`, the first '_' of the wire name replaced by a space |
| `TaskDetail.InProgressLabel` | frontend/src/components/TaskDetail.jsx:32 | IN_PROGRESS is labelled "IN PROGRESS" |
| `TaskDetail.PlainLabels` | frontend/src/components/TaskDetail.jsx:32 | PENDING and COMPLETED are labelled as they are |
| `TaskDetail.ShowsReminder` | frontend/src/components/TaskDetail.jsx:74-83 | the reminder line is shown iff the reminder time is present and non-empty |

## Left out

- Markup, styling classes and icons: presentation only. The same goes for the header greeting and the unused `getTaskStats` import.
- `handleLogout` (frontend/src/components/Dashboard.jsx:66-69): it only calls the session service's `logout` and reloads the page, which are host and service effects with no controller state.
- The "Download Report" button: it has no handler.
- The theme effect (frontend/src/App.js:16-23), which writes the flag to `localStorage` and toggles the document's `dark` class, is a host effect. Only the flag is modelled.
- The service layer (`taskService`, `authService`) and the helpers module are not part of this model. Their outcomes are method parameters.
- `window.confirm` is the `confirmed` parameter. `localStorage` reads are the `stored` and `token` parameters.
- Concurrency: each fetch is one atomic step. Overlapping fetches can race in the source ("last to resolve wins"), and that race is not modelled.
- `Dashboard.Controller.TaskSaved`: the source calls `fetchTasks()` without awaiting it and closes the form at once. The two touch disjoint state, so the model runs them in sequence; in the source, the form closes before the list arrives.
- `Dashboard.Controller.DeleteSelected`: on success the source calls `fetchTasks()` without awaiting it and closes the detail view at once (frontend/src/components/Dashboard.jsx:258-259), so the view closes before the list arrives; the model runs the re-fetch first, as for `TaskSaved`. A rejected `deleteTask` is an unhandled promise rejection in the source. The model states only that no state changes; no notification is shown in either.
- `Dashboard.Controller.FetchTasks`, `SetSearchQuery`, `SetPriorityFilter`, `SetStatusFilter`: each is one step together with the `applyFilters` effect. In the source that effect runs after the render (frontend/src/components/Dashboard.jsx:29), so one render shows the new collection or control beside the old `filteredTasks` and page; the model does not capture that intermediate render.
- `Common.Lower`: ASCII only, with no Unicode case folding.
- `Register.Validate`: counts Unicode scalar values, not the UTF-16 code units of JavaScript's `length`. The two differ for characters outside the Basic Multilingual Plane.
- `TaskModel.Task`: priority and status are enumerations. A server value outside them is not modelled.
- Browser form validation, which blocks a submit before the handler runs: the `required` inputs (frontend/src/components/TaskModal.jsx:80,95,144; frontend/src/components/Register.jsx:60,76,90; frontend/src/components/Login.jsx:50,64), the username's `minLength="3"` and `maxLength="50"` and the password's `minLength="6"` (frontend/src/components/Register.jsx:62-63,91), `type="email"` (frontend/src/components/Register.jsx:72) and the task name's `maxLength="200"` (frontend/src/components/TaskModal.jsx:82). The model's submits are the handlers alone, so they also cover the inputs that these attributes would stop in a browser.
- `TaskForm.FormFor`: a task without a name is read into the form as "", where the source copies `undefined`. Both are falsy, so the required-field check treats them alike.
- Error payloads: `error.response?.data`, and `.data.message` in the task form, are optional strings. A non-string payload, on which `toLowerCase` would throw in the registration error path, is not modelled.
- Components not in the core: `TaskCard.jsx` (presentational; its status label is the same expression as the detail view's), `LiveClock.jsx` (wall-clock timer) and `Notification.jsx` (its 3-second auto-dismiss is timing behaviour; only the slot's `onClose` is modelled). The backend's `ReminderService.java` and `UserController.java` are also left out.

## Behaviour of the source worth noting

- The page returns to 1 on every recomputation, whether or not the view's size changed.
- The page size is 9.
- A failed create or update is reported through the notification channel, and the form stays open.
- The collection is not checked for unique ids.
