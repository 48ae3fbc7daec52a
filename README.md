# Cloud-sync to-do client: a verified Dafny model

This project models the logic of a to-do web client that syncs reminders with Google
Calendar. It also models the small backend factory for user settings and the `snapshot.js`
tool, which writes a Markdown snapshot of the project. Every part is stated in Dafny and proved.

- **Google session and calendar gateway** (`google_calendar_service.dfy`):
  - The module-level session becomes one `GoogleSession` object. Its state is the access
    token, the user's email, the `gisInitialized` flag, whether a token client exists,
    whether a listener is registered, and the two localStorage keys.
  - Every call of the sign-in listener is recorded in a ghost log.
  - Init, the token-client callback, the user-info lookup, sign-in and sign-out are
    methods. Their contracts state the new state and the notifications on every path.
  - Everything outside the module is an input: the user-info result, the token response,
    the poll tick at which the library appears, whether building the client throws, and
    the HTTP reply of each calendar call.
  - The four calendar calls are functions from the token and an abstract reply to a
    result or an error message.
- **Redux slices** (`todo_slice.dfy`, `ui_slice.dfy`, `auth_slice.dfy`): classes whose
  methods are the reducers. The guards and record building of the to-do thunks are
  functions.
- **Pages and dialogs:**
  - the to-do filter, paging and priority colour (`todo_list.dfy`);
  - the dashboard counts (`dashboard.dfy`);
  - the event conversion for FullCalendar, the "keep the duration" reschedule, and the
    update/delete/fetch handlers with their guards (`calendar_page.dfy`);
  - the to-do dialog's texts, form reset, validation and submit (`todo_dialog.dfy`);
  - the settings page updaters (`settings.dfy`).
- **Backend**: `UserSettings.createDefault` (`user_settings.dfy`).
- **`snapshot.js`**, with the file system as a `Dir(name, children) | File(name)` tree:
  - the exclusion filter and the file scans (`snapshot_files.dfy`);
  - the ASCII tree (`snapshot_tree.dfy`);
  - the function map, the dependency map and the Markdown text of `main`
    (`snapshot_report.dfy`).
- **Shared helpers**: `Option`/`Result` (`wrappers.dfy`); JavaScript string behaviour
  such as truthiness, `includes`, `toLowerCase`, `trim`, decimal printing and `<` on
  strings (`strings.dfy`); order-keeping `filter` and `slice` (`seqs.dfy`).

Loops in the source stay loops, each proved against a specification function:
- the library poll;
- the scan and tree accumulators;
- the `forEach` loops that fill `funcMap` and `depsMap`;
- the `md +=` sequence of `main`.

### Behaviour of the code worth noting

- When the identity library never loads, `initGoogleIdentityServices` rejects without
  notifying the listener (googleCalendarService.ts:67-71).
- A user-info failure other than 401 keeps the access token in memory and in storage.
  It clears only the email (googleCalendarService.ts:203-232). So after such a failure
  the stored record holds a token without an email.
- `deleteCalendarEvent` resolves on 204 and also on every other 2xx status
  (googleCalendarService.ts:455-463).
- `signInAndAuthorize` without a client does not throw. It calls the listener with
  `(false, null)` and returns (googleCalendarService.ts:246-252).
- `updateTodo` returns its payload with a fresh `updatedAt`, and the reducer stores that
  value in place of the old item (todoSlice.ts:58-66, 99-104). The edit dialog's payload
  holds only the form fields and the id (TodoDialog.tsx:80-89). So after an edit the
  item in the store has no `userId` and no `createdAt`. The completion toggle spreads the
  whole item (TodoList.tsx:166-168) and keeps both.

## Model

| member | source | states |
|---|---|---|
| GoogleCalendarService.PollForLibrary | frontend/src/services/googleCalendarService.ts:58-72 | the library is found exactly when it is present by tick 21, that is within 22 checks: the first check and up to 21 polls, giving up only once `attempts > 20`; the attempt count stays in 1..21 and the library was absent at every earlier tick |
| GoogleCalendarService.GoogleSession.constructor | frontend/src/services/googleCalendarService.ts:7-15 | page load: no token, email, client, listener or initialized flag; storage holds what was persisted |
| GoogleCalendarService.GoogleSession.Notify | frontend/src/services/googleCalendarService.ts:17-21 | the listener is told `(!!token, email)` when one is registered; otherwise nothing is logged |
| GoogleCalendarService.GoogleSession.LoadTokenFromStorage | frontend/src/services/googleCalendarService.ts:24-32 | a non-empty stored token is taken together with the stored email (even null); otherwise memory is unchanged |
| GoogleCalendarService.GoogleSession.FetchUserInfo | frontend/src/services/googleCalendarService.ts:196-243 | success sets the email to the response email or null and mirrors it in storage (one notification); 401 clears the token and both keys; every failure clears the email; a non-401 failure keeps the token; failures notify twice |
| GoogleCalendarService.GoogleSession.InitializeClientInternal | frontend/src/services/googleCalendarService.ts:102-194 | an existing client is reused (the flag set true, no re-creation); otherwise one is built; a construction failure leaves the flag false and no client and rejects without notifying |
| GoogleCalendarService.GoogleSession.LoadGis | frontend/src/services/googleCalendarService.ts:58-76 | rejects with a load timeout when the library does not appear within the poll budget; otherwise ends as client initialization does |
| GoogleCalendarService.GoogleSession.Revalidate | frontend/src/services/googleCalendarService.ts:78-95 | a held token that passes the lookup sets the flag true without building a client; one that fails wipes token, email, both keys, flag and client, tells the listener, and bootstraps afresh |
| GoogleCalendarService.GoogleSession.Init | frontend/src/services/googleCalendarService.ts:34-100 | storage is read only when no token is held and the flag is false; with flag and client it only notifies and resolves, changing nothing; otherwise the flag is reset, then revalidate or bootstrap as above; the session invariant is kept |
| GoogleCalendarService.GoogleSession.OnTokenResponse | frontend/src/services/googleCalendarService.ts:127-181 | an `error` (checked first) or a missing token clears token, email and both keys and leaves flag and client alone; a token is stored in memory and storage before the lookup; a missing calendar scope only raises the warning |
| GoogleCalendarService.GoogleSession.SignInAndAuthorize | frontend/src/services/googleCalendarService.ts:245-261 | consent is requested exactly when a client exists and no token is held; no client: the listener gets `(false, null)`; a held token: only a notification |
| GoogleCalendarService.GoogleSession.IsSignedIn | frontend/src/services/googleCalendarService.ts:263-265 | `!!currentAccessToken`: true exactly when a non-empty token is held |
| GoogleCalendarService.GoogleSession.SignedInUserEmail | frontend/src/services/googleCalendarService.ts:267-269 | the email held in memory, or null |
| GoogleCalendarService.GoogleSession.GettersAgree | frontend/src/services/googleCalendarService.ts:263-269 | in a valid session, signed in exactly when a token is held, and an email is reported only while signed in |
| GoogleCalendarService.GoogleSession.SignOut | frontend/src/services/googleCalendarService.ts:271-296 | token, email, both keys, flag and client are cleared and `(false, null)` is told before the revoke; afterwards `isSignedIn()` is false and the email null; the token to revoke is the old non-empty token |
| GoogleCalendarService.ErrorMessage | frontend/src/services/googleCalendarService.ts:336 | the provider's non-empty `error.message`, else the fallback |
| GoogleCalendarService.AddCalendarEvent | frontend/src/services/googleCalendarService.ts:319-345 | no token: fails before any request; succeeds exactly on a 2xx JSON reply, with its body; a non-2xx JSON reply fails with the provider message or "Failed to create event: " + status text |
| GoogleCalendarService.UpdateCalendarEvent | frontend/src/services/googleCalendarService.ts:407-436 | no token, then an empty id, fail before any request; succeeds exactly on a 2xx JSON reply; non-2xx fails with the provider message or the status text |
| GoogleCalendarService.DeleteCalendarEvent | frontend/src/services/googleCalendarService.ts:440-467 | no token, then an empty id, fail before any request; resolves exactly on a 2xx status (204 included); non-2xx fails with the message of a JSON body or the status text |
| GoogleCalendarService.ListCalendarEvents | frontend/src/services/googleCalendarService.ts:353-394 | never fails: `[]` without a token, on a network error, a non-2xx status or a non-JSON body; with a token, a 2xx JSON reply gives its `items`, or `[]` when it has none |
| GoogleCalendarService.SignedOutGateway | frontend/src/services/googleCalendarService.ts:310-468 | with no token every write is refused with the sign-in message and the list is empty |
| TodoSlice.FindIndex | frontend/src/store/slices/todoSlice.ts:100 | -1 exactly when no item has the id; otherwise the first index with that id |
| TodoSlice.TodoStore.constructor | frontend/src/store/slices/todoSlice.ts:24-28 | no items, not loading, no error |
| TodoSlice.TodoStore.FetchPending | frontend/src/store/slices/todoSlice.ts:84-87 | loading true, error null, items unchanged |
| TodoSlice.TodoStore.FetchFulfilled | frontend/src/store/slices/todoSlice.ts:88-91 | items become the payload, loading false, error unchanged |
| TodoSlice.TodoStore.FetchRejected | frontend/src/store/slices/todoSlice.ts:92-95 | loading false, error is the message or "Failed to fetch todos", items unchanged |
| TodoSlice.TodoStore.AddFulfilled | frontend/src/store/slices/todoSlice.ts:96-98 | exactly one item appended at the end; the flags are unchanged |
| TodoSlice.TodoStore.UpdateFulfilled | frontend/src/store/slices/todoSlice.ts:99-104 | the first item with the id is replaced and every other position is kept; with no match the list is unchanged; the length is kept |
| TodoSlice.TodoStore.DeleteFulfilled | frontend/src/store/slices/todoSlice.ts:105-107 | every item with the id is removed; every other item stays, in order |
| TodoSlice.FetchTodosThunk | frontend/src/store/slices/todoSlice.ts:31-40 | rejects with "User not authenticated" exactly when there is no user; otherwise returns exactly the documents whose `userId` is the user's uid |
| TodoSlice.AddTodoThunk | frontend/src/store/slices/todoSlice.ts:42-56 | rejects exactly when there is no user; the record carries the new document id, `userId = uid`, both timestamps, and the payload unchanged |
| TodoSlice.UpdateTodoThunk | frontend/src/store/slices/todoSlice.ts:58-66 | the result is the patch with `updatedAt` set to the new time: its id and fields, and its owner and creation time only when the patch carries them |
| UiSlice.UiStore.constructor | frontend/src/store/slices/uiSlice.ts:24-35 | snackbar closed with an empty message and severity info; dialog of no type, closed, with no data |
| UiSlice.UiStore.ShowSnackbar | frontend/src/store/slices/uiSlice.ts:41-48 | opens the snackbar with the message and severity; the dialog is untouched |
| UiSlice.UiStore.HideSnackbar | frontend/src/store/slices/uiSlice.ts:49-51 | only `open` changes; message and severity are kept |
| UiSlice.UiStore.ShowDialog | frontend/src/store/slices/uiSlice.ts:52-59 | type set, opened, `data` overwritten even when absent; the snackbar is untouched |
| UiSlice.UiStore.HideDialog | frontend/src/store/slices/uiSlice.ts:60-64 | the dialog always returns to the initial closed state (so hiding is idempotent); the snackbar is untouched |
| AuthSlice.AuthStore.constructor | frontend/src/store/slices/authSlice.ts:10-14 | user null, loading true, not initialized |
| AuthSlice.AuthStore.SetUser | frontend/src/store/slices/authSlice.ts:20-23 | user set, initialized true, loading unchanged |
| AuthSlice.AuthStore.SetLoading | frontend/src/store/slices/authSlice.ts:24-26 | only `loading` changes |
| AuthSlice.AuthStore.SignOut | frontend/src/store/slices/authSlice.ts:27-29 | only `user` changes, to null |
| AuthSlice.AuthStore.Reduce | frontend/src/store/slices/authSlice.ts:20-29 | no action turns `isInitialized` back to false |
| TodoList.FilteredTodos | frontend/src/pages/TodoList.tsx:52-60 | an order-preserving subsequence of the todos; a todo is in it exactly when the search, priority and status tests all hold |
| TodoList.EmptySearchMatchesAll | frontend/src/pages/TodoList.tsx:53-54 | the empty search term matches every todo |
| TodoList.NoFilterKeepsAll | frontend/src/pages/TodoList.tsx:52-60 | with no search term and both filters 'all' the list is unchanged |
| TodoList.SearchIgnoresTermCase | frontend/src/pages/TodoList.tsx:53-54 | the search result does not depend on the case of the term |
| TodoList.PriorityFilterSelectsDigit | frontend/src/pages/TodoList.tsx:55 | the filter value "k" (one digit) keeps exactly the todos of priority k |
| TodoList.PageRows | frontend/src/pages/TodoList.tsx:163-164 | row i of the page is filtered item page·rpp+i; exactly rpp rows when enough remain, the remaining |filtered| - page·rpp rows on a partial last page, none beyond the end |
| TodoList.ChangeRowsPerPage | frontend/src/pages/TodoList.tsx:67-70 | the new rows-per-page is taken and the page goes back to 0 |
| TodoList.ChangeRowsShowsFirstRows | frontend/src/pages/TodoList.tsx:67-70 | after the change the table shows the first rows of the filtered list |
| TodoList.PriorityColor | frontend/src/pages/TodoList.tsx:86-93 | 5 is error, 4 is warning, 3 is info, anything else default, each in both directions |
| TodoList.AlarmColorsAreHighPriority | frontend/src/pages/TodoList.tsx:86-93 | on the 1..5 scale the error and warning colours mark exactly priority at least 4 |
| TodoList.TogglePatch | frontend/src/pages/TodoList.tsx:166-168 | the toggle's payload is the item's id, owner and creation time with `completed` flipped |
| TodoList.ToggleKeepsTheRest | frontend/src/pages/TodoList.tsx:166-168 | after the toggle's update the item differs from the old one only in `completed` and `updatedAt`, and the same owners match it |
| Dashboard.ComputeStats | frontend/src/pages/Dashboard.tsx:31-36 | total is the number of todos; completed + pending = total; completed and high-priority are the sizes of their filters; high-priority is at most total |
| Dashboard.CompletionRate | frontend/src/pages/Dashboard.tsx:38 | 0 when there are no todos; 100 when all are done; between 0 and 100 otherwise |
| Dashboard.CompletionRateBounded | frontend/src/pages/Dashboard.tsx:31-38 | over computed statistics the rate lies in 0..100 |
| CalendarPage.TimeText | frontend/src/pages/CalendarPage.tsx:58-59 | the non-empty `dateTime`, else the non-empty `date`, else '' |
| CalendarPage.ConvertToFullCalendarEvents | frontend/src/pages/CalendarPage.tsx:54-65 | same length and order; id kept, title is the summary, start and end by the rule above; all-day exactly when start has no `dateTime`; location kept; the original event stored unchanged |
| CalendarPage.OriginalEvents | frontend/src/pages/CalendarPage.tsx:189-193 | one original event per converted event: element i is the `originalEvent` of converted event i |
| CalendarPage.ConversionRoundTrip | frontend/src/pages/CalendarPage.tsx:62-64 | the original events come back from the converted list, in order |
| CalendarPage.ConvertedStart | frontend/src/pages/CalendarPage.tsx:58-60 | a timed event starts at its `dateTime`; an all-day one at its `date` or '' |
| CalendarPage.RescheduledEndMs | frontend/src/pages/CalendarPage.tsx:142-149 | with `dateTime` on both the original start and end, the new end is the new start plus the original duration; otherwise the new start plus 3,600,000 ms |
| CalendarPage.RescheduleShiftsEnd | frontend/src/pages/CalendarPage.tsx:142-149 | moving the start by d moves the end by d |
| CalendarPage.CalendarView.constructor | frontend/src/pages/CalendarPage.tsx:43-49 | no events, loading, no error, no edit dialog |
| CalendarPage.CalendarView.FetchEvents | frontend/src/pages/CalendarPage.tsx:68-86 | signed out: events [] and loading false with no service call; signed in: one list call, events are its result, error cleared, loading false |
| CalendarPage.CalendarView.OpenEditDialog | frontend/src/pages/CalendarPage.tsx:122-125 | the event is kept for editing and the dialog opens |
| CalendarPage.CalendarView.CloseEditDialog | frontend/src/pages/CalendarPage.tsx:127-130 | the dialog closes and the event is dropped |
| CalendarPage.CalendarView.HandleUpdateReminder | frontend/src/pages/CalendarPage.tsx:132-165 | signed out: a warning and no service call; otherwise one update carrying the rescheduled end, then a success toast and a re-fetch that leaves loading off and no error, or an error toast with the message or 未知錯誤; the loading flag and the error are untouched on every path without a re-fetch |
| CalendarPage.CalendarView.HandleDeleteReminder | frontend/src/pages/CalendarPage.tsx:167-186 | signed out: a warning and no call; not confirmed: nothing; confirmed: one delete, then success toast and a re-fetch that leaves loading off and no error, or an error toast; the loading flag and the error are untouched on every path without a re-fetch |
| TodoDialog.DialogTitle | frontend/src/components/TodoDialog.tsx:103-108 | '' exactly for no dialog type |
| TodoDialog.SubmitButtonText | frontend/src/components/TodoDialog.tsx:110-115 | '' exactly for no dialog type |
| TodoDialog.TextsTellKindsApart | frontend/src/components/TodoDialog.tsx:103-115 | each dialog type has its own title and its own button text |
| TodoDialog.ValidationError | frontend/src/components/TodoDialog.tsx:57-66 | only create and edit are checked; they are blocked exactly when the trimmed title is empty or the due date is null; the title message comes first |
| TodoDialog.Request | frontend/src/components/TodoDialog.tsx:68-95 | create sends the form with `completed` false; edit sends the form with the existing `completed` and `data.id`, and no owner or creation time; delete sends `data.id`; each exactly when its guard holds; no type sends nothing |
| TodoDialog.SubmittedTitleIsNotBlank | frontend/src/components/TodoDialog.tsx:57-89 | a created or edited to-do that passed validation has a non-blank title |
| TodoDialog.EditDropsOwnerAndCreation | frontend/src/components/TodoDialog.tsx:80-89 | the item `updateTodo` returns for an edit keeps the id, the form fields and `completed`, but has no owner and no creation time, so no owner filter matches it |
| TodoDialog.TodoDialogForm.constructor | frontend/src/components/TodoDialog.tsx:31-34 | empty title and description, due now, priority 3 |
| TodoDialog.TodoDialogForm.Reset | frontend/src/components/TodoDialog.tsx:36-50 | an open edit dialog with data loads the to-do; anything else resets to '', '', now, 3 |
| TodoDialog.TodoDialogForm.HandleSubmit | frontend/src/components/TodoDialog.tsx:56-101 | a validation error shows its message and keeps the dialog; otherwise the request above is sent; a throw keeps the dialog open with 操作失敗; any other path, even with nothing sent, closes it |
| SettingsPage.ToggleNotification | frontend/src/pages/Settings.tsx:37-42 | flips `notificationEnabled` and nothing else |
| SettingsPage.ToggleCalendarSync | frontend/src/pages/Settings.tsx:44-49 | flips `calendarSyncEnabled` and nothing else |
| SettingsPage.ChangeLeadTime | frontend/src/pages/Settings.tsx:51-59 | the lead time takes the parsed value exactly when it is a number above 0; otherwise the settings are unchanged |
| SettingsPage.TogglesAreInvolutions | frontend/src/pages/Settings.tsx:37-49 | toggling either switch twice restores the settings |
| SettingsPage.ReachableSettings | frontend/src/pages/Settings.tsx:37-59 | after any run of edits the lead time stays above 0 and the calendar id is unchanged |
| SettingsPage.FromInitialSettings | frontend/src/pages/Settings.tsx:30-59 | from the initial settings the lead time stays positive and no calendar id appears |
| UserSettingsModel.CreateDefault | backend/src/main/java/com/cloudsync/todo/model/UserSettings.java:42-50 | the user id passes through; notifications on at 15 minutes; sync off with a null calendar id |
| UserSettingsModel.DefaultsAgreeWithPage | backend/src/main/java/com/cloudsync/todo/model/UserSettings.java:42-49 | the backend defaults equal the settings page's initial state, for every user |
| SnapshotFiles.ContainsAny | snapshot.js:44 | true exactly when some listed string occurs in the path |
| SnapshotFiles.IsExcluded | snapshot.js:43-45 | true exactly when some EXCLUDES entry is a substring anywhere in the path |
| SnapshotFiles.ExcludedAnywhere | snapshot.js:14 | a path with an excluded name anywhere in it, also inside a longer name such as "rebuild", is excluded |
| SnapshotFiles.ExcludedExtended | snapshot.js:43-45 | any path that contains an excluded path is excluded |
| SnapshotFiles.Join | snapshot.js:52 | the directory, a '/', then the name |
| SnapshotFiles.ExtName | snapshot.js:57 | empty exactly when there is no dot after the first character (or the name is ".."); otherwise the name's dotted suffix with no further dot |
| SnapshotFiles.DotFilesHaveNoExtension | snapshot.js:57 | a dot file such as ".js" has no extension, so it is not scanned |
| SnapshotFiles.CollectedEntry | snapshot.js:51-60 | an excluded entry contributes nothing |
| SnapshotFiles.CollectFiles | snapshot.js:49-62 | the loop appends exactly `Collected`, the depth-first listing, to the accumulator |
| SnapshotFiles.ScanFiles | snapshot.js:49-62 | `scanFiles` appends the source-extension files of the listing |
| SnapshotFiles.FindPackages | snapshot.js:121-134 | `findPackages` appends the `package.json` files of the listing |
| SnapshotFiles.ExcludedSubtree | snapshot.js:53-56 | nothing below an excluded directory is wanted, so skipping it loses nothing |
| SnapshotFiles.CollectedIsWantedFiles | snapshot.js:49-62 | the scan is exactly the non-excluded files that pass the name test, in depth-first listing order |
| SnapshotFiles.CollectedEntryIsWantedFiles | snapshot.js:51-60 | the same for one entry |
| SnapshotTree.InsertByName | snapshot.js:105 | inserting keeps the listing sorted and adds exactly the entry |
| SnapshotTree.SortByName | snapshot.js:105 | sorted by name and a permutation of the input |
| SnapshotTree.Visible | snapshot.js:102-105 | each listed entry is from the directory and not excluded |
| SnapshotTree.VisibleIsSortedSelection | snapshot.js:102-105 | the listed entries are sorted and are exactly the non-excluded entries, each once |
| SnapshotTree.EntryLine | snapshot.js:109-110 | prefix, connector, name; the connector is "└── " exactly for the last sibling and "├── " exactly for the others |
| SnapshotTree.ChildPrefix | snapshot.js:111-112 | the prefix grows by four spaces exactly under the last sibling and by "│   " under the others |
| SnapshotTree.BuildTree | snapshot.js:99-117 | the `forEach` builds exactly the text of the tree's lines, each ended by a newline |
| SnapshotTree.TreeLineCount | snapshot.js:18 | with MAX_DEPTH 0 nothing is cut: one line per non-excluded entry at any depth |
| SnapshotTree.SiblingLineCount | snapshot.js:106-115 | the first n siblings produce one line each plus the lines below them |
| SnapshotTree.BelowLineCount | snapshot.js:111-114 | a directory's subtree has one line per non-excluded entry in it |
| SnapshotTree.SumWeightsPermutation | snapshot.js:102-105 | sorting does not change the number of lines |
| SnapshotTree.SumWeightsFilter | snapshot.js:104 | filtering out the excluded entries removes exactly their lines |
| SnapshotTree.TreeLinePrefix | snapshot.js:109-113 | every line of a subtree starts with the prefix it was given |
| SnapshotTree.SiblingLinePrefix | snapshot.js:106-115 | the same for the first n siblings |
| SnapshotTree.BelowPrefix | snapshot.js:111-113 | the same for the lines below one sibling |
| SnapshotReport.Put | snapshot.js:148 | `obj[key] = v`: a new key goes last; an existing key keeps its place and takes the value |
| SnapshotReport.PutProperties | snapshot.js:148 | after an assignment each key occurs once and the key reads back the value |
| SnapshotReport.Relative | snapshot.js:146 | for a path below the root, the non-empty rest after `root + "/"`, so that root, "/" and the result give back the path; any other path is returned unchanged |
| SnapshotReport.BuildFunctionMap | snapshot.js:145-149 | the loop builds exactly `FunctionMapFrom`, one file at a time |
| SnapshotReport.FunctionMapInvariant | snapshot.js:148 | only files with at least one function are listed, each once |
| SnapshotReport.FunctionlessFilesIgnored | snapshot.js:147-148 | files without functions leave no trace in the map |
| SnapshotReport.FunctionLine | snapshot.js:175-177 | a function's line starts with `- **name(params)**`, ends with a newline, and with a comment holds that comment just before the newline |
| SnapshotReport.FunctionLineWithoutComment | snapshot.js:175-177 | the " - comment" part appears exactly when the comment is non-empty |
| SnapshotReport.DropLastComponent | snapshot.js:156 | `path.dirname` of a '/'-separated path: "." without a '/', else everything before the last '/' |
| SnapshotReport.ParentName | snapshot.js:156 | `path.basename(path.dirname(pf))`: a name without '/', and "." for a file name with no folder part |
| SnapshotReport.ParentOfPackageFile | snapshot.js:156 | for `…/parent/file` and `parent/file` the folder name is `parent` |
| SnapshotReport.ProjectName | snapshot.js:156 | the package's `name` when it is non-empty, else the name of the folder holding `package.json` |
| SnapshotReport.BuildDepsMap | snapshot.js:153-164 | the loop builds exactly `DepsMapFrom`, one package file at a time |
| SnapshotReport.DepsMapDistinct | snapshot.js:157 | each project is listed once |
| SnapshotReport.UnparsableFilesIgnored | snapshot.js:154-163 | a package file that cannot be read or parsed leaves no trace |
| SnapshotReport.DepsBlock | snapshot.js:186-191 | an empty dependency object is rendered as "無", and only an empty one |
| SnapshotReport.FunctionLinesText | snapshot.js:174-178 | the loop writes exactly `FunctionLines` for one file |
| SnapshotReport.FunctionListText | snapshot.js:172-180 | the loop writes one section per listed file |
| SnapshotReport.DependencyListText | snapshot.js:183-200 | the loop writes one section per project, devDependencies first |
| SnapshotReport.ComposeSnapshot | snapshot.js:166-200 | the `md +=` sequence writes exactly the three-part snapshot |
| Strings.OrNull | frontend/src/services/googleCalendarService.ts:214 | `userInfo.email or null`: the value when non-empty, else null |
| Strings.Contains | frontend/src/pages/TodoList.tsx:53-54 | `includes`: the substring occurs at some position |
| Strings.ContainsEmpty | frontend/src/pages/TodoList.tsx:53-54 | every string includes '' |
| Strings.ToLower | frontend/src/pages/TodoList.tsx:53-54 | `toLowerCase` keeps the length and lowers each letter |
| Strings.TrimIsEmptyIffBlank | frontend/src/components/TodoDialog.tsx:58 | `trim()` is empty exactly when the string is all white space |
| Strings.DecimalString | frontend/src/pages/TodoList.tsx:55 | `toString()`: a digit 0..9 is one character; larger numbers have at least two; only negatives start with '-' |
| Strings.LastIndexOf | snapshot.js:57 | `lastIndexOf` of one character: the index of its last occurrence, or -1 when it does not occur |
| Strings.LessTrichotomy | snapshot.js:105 | any two names are equal or ordered one way |
| Strings.LessTransitive | snapshot.js:105 | the name order is transitive |
| Seqs.Filter | frontend/src/pages/TodoList.tsx:52-60 | `filter` keeps exactly the elements that pass |
| Seqs.FilterIsSubsequence | frontend/src/store/slices/todoSlice.ts:106 | `filter` keeps the order of what it keeps |
| Seqs.FilterSplit | frontend/src/pages/Dashboard.tsx:33-34 | a filter and its complement split the list |
| Seqs.Slice | frontend/src/pages/TodoList.tsx:164 | `slice(start, end)`: the elements from start, exactly min(end, length) - start of them when start is inside, empty from the end on or when end <= start |

## Left out

- The real Google Identity Services library (`initTokenClient`, `requestAccessToken`,
  `oauth2.revoke`, `id.disableAutoSelect`). Only whether a client exists and the outcome
  of each library call are modelled. `SignOut` returns the token it would revoke.
- `fetch`, request building (URLs, headers, `URLSearchParams`, JSON bodies), JSON parsing
  and localStorage as a browser API. A reply is an abstract value, and storage is two fields.
- Timers and concurrency: the 250 ms poll period, and promises settling in another order
  or interleaving with other calls. Calls are taken one at a time. The init promise settles
  with the value the method returns.
- Console logging and the scope warning's text. The warning is a returned flag.
- GoogleCalendarService.ListCalendarEvents: the default month bounds, `maxResults` and
  the other query parameters are not modelled, because they only shape the request.
- Date and time-zone handling: `toISOString`, `formatISO`, `parseISO` and
  `Intl.DateTimeFormat`.
- CalendarPage.RescheduledEndMs: ISO parsing is the parameter `parseMs`, and an invalid
  date (NaN) is not modelled.
- TodoDialog.TodoDialogForm: the due date is kept as its ISO string, so
  `parseISO`/`formatISO` act as the identity.
- Dashboard.CompletionRate: uses exact real division, not IEEE doubles; `toFixed` is not
  modelled.
- Firestore I/O and `new Date()` timestamps. Documents, new ids and the current time are
  inputs. The owner query of `fetchTodos` is a filter over the given documents.
- TodoSlice.UpdateTodoThunk: a patch always carries the id and all five form fields, and
  may carry the owner and creation time. The two callers send these shapes: the dialog
  sends the form fields, the toggle the whole item. Other `Partial<Todo>` shapes, and the
  merge `updateDoc` performs in Firestore, are not modelled.
- TodoDialog.Request: the dialog's `data` is a `Todo` or nothing. The id-only form
  `{ id }` is not modelled, because no caller creates it.
- TodoList.ChangeRowsPerPage: takes the parsed number. `parseInt` of a non-number (NaN)
  is not modelled, because the select only offers numbers.
- SettingsPage.ChangeLeadTime: takes what `parseInt` produced (`None` for NaN); the
  parsing itself is not modelled.
- React effects and rendering:
  - the CalendarPage effects that react to the sign-in listener and to view switching;
  - the CalendarPage `catch` of `fetchEvents`, which cannot run because
    `listCalendarEvents` never throws;
  - the JSX of every page, and the confirmation text of `window.confirm`;
  - Settings' save and connect stubs.
  The user's answer to the confirm dialog is an input.
- CalendarPage.CalendarView.HandleUpdateReminder: the re-fetch after a successful
  update or delete is not awaited in the original. The model runs it to completion before
  returning. `fetchEvents`' range arguments are not passed on.
- Strings.ToLower: lowers ASCII letters only. Full Unicode case mapping is not modelled.
- Strings.Less: compares characters as code points, while JavaScript compares UTF-16 code
  units. The orders differ only for characters outside the Basic Multilingual Plane.
- SnapshotFiles.Join: no normalisation of `.`, `..` or repeated separators.
- SnapshotFiles.ExtName: models `path.extname` for entry names, which contain no '/'.
- SnapshotReport.Relative: handles only paths below the root. Other paths are returned
  unchanged, which `scanFiles` never produces.
- SnapshotReport.ParentName: edge cases of `path.dirname`/`path.basename` are not modelled
  (trailing separators, the root itself).
- SnapshotReport.DropLastComponent: a path whose only '/' is its first character gives ""
  where `path.dirname` gives "/"; `findPackages` only produces paths below the root.
- `parseFile` and its regular expressions, and `JSON.parse`/`JSON.stringify`. These are
  the parameters `parse`, `read` and `render`.
- A value of `dependencies` that is falsy but not an object.
- The `Object.entries` order of integer-like keys: entries are kept in insertion order.
- The order of `readdirSync`: it is the order of the children in the tree.
- `fs.writeFileSync` and the final console message.
- Routing, layout, login, theme and the other components (App, MainLayout, PrivateRoute,
  Login, GlobalSnackbar, AddReminderDialog, EditReminderDialog, CalendarEventsDisplay).
  These hold no logic beyond what is modelled.
- The Spring/Firebase bootstrap of the backend and its plain data classes.
