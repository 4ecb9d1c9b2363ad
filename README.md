# KIRA dashboard: a Dafny model of its session store, forms and list views

This project models the logic of the KIRA dashboard. KIRA is a Next.js front end over a small Python user service.

- **Session store.** `AuthProvider` holds the current user and a loading flag. It keeps a bearer token in the browser's key/value storage, under the keys `token` and `token_type`. It rehydrates the user on mount and offers `login`, `logout` and `register`; `register` chains into `login`.
- **Route guards.** Both `ProtectedRoute` components decide between a loading placeholder, a redirect to `/login`, and the protected children.
- **Forms.** The signup form has per-field validation and a submit handler. It clears a field's error when that field is edited. The two login pages have submit handlers, a redirect effect, an error boundary and the "account created" banner.
- **List views.**
  - The tasks list: add, toggle, filter and priority colours.
  - The thought-partner chat conversation.
  - The debug console's 50-entry log buffer.
  - The workflow steps: add, the run loop and the Run button.
  - The knowledge-base search.
- **Backend.** The error classification of `create_user` in the Python backend.

Every HTTP exchange is an input to the model, as a datatype:
- a reply with an `ok` flag and a JSON object or an unparsable body;
- or a `fetch` that rejects.

The awaited `login`/`register` of a page is an input too: `Fulfilled` or `Rejected` with an `Error` or a non-`Error` value. Browser storage is a `map<string, string>`. The rest of the time and randomness handling:
- The clock (`Date.now()`, today's date, the time of day) is a parameter.
- `Math.random()` is a sequence of draws, one per workflow step.

Handlers that update state step by step are class methods. Each method is proved equal to a function on a value of the state. The lemmas state the properties of those functions, and of runs of many actions.

Files and modules:
- `common.dfy` (`Common`): the JavaScript string and array operations the views use. These are truthiness, `trim` over ASCII whitespace, ASCII `toLowerCase`, `includes` and `filter`.
- `auth_session.dfy` (`AuthSession`): the session store.
- `route_guard.dfy` (`ProtectedRoute`, `FrontEndProtectedRoute`): the two route guards.
- `signup_page.dfy`, `login_page.dfy`, `frontend_login_page.dfy`: the signup page and the two login pages.
- One file per list view: `tasks_view.dfy`, `thought_partner.dfy`, `debug_console.dfy`, `workflow.dfy`, `knowledge_base.dfy`.
- `user_store.dfy` (`UserStore`): `create_user`.

Behaviour of the code worth noting:
- `register` reports every non-ok reply the same way, as `detail` or "Registration failed", whatever the status code.
- The identity request's `Authorization` header is the returned `token_type`, a space, then the `access_token`.
- `isLoading` belongs to the mount check alone: `login`, `logout` and `register` never change it. The pages keep their own loading flags.
- An accepted registration always chains into `login`.
- `logout` only clears the browser's storage and the user; it sends no request.

## Model

| member | source | states |
|---|---|---|
| Common.Trim | my-next-app/app/signup/page.tsx:39 | `trim` never lengthens its input; with `TrimIsInnerSlice` it is the inner slice between leading and trailing whitespace |
| Common.TrimEmptyIffBlank | my-next-app/app/signup/page.tsx:39 | `s.trim()` is empty exactly when every character of `s` is whitespace |
| Common.TrimIsInnerSlice | my-next-app/app/components/ThoughtPartner.tsx:22 | `trim` returns a contiguous slice that drops only whitespace on either side; a non-empty result starts and ends with non-whitespace |
| Common.ToLower | my-next-app/app/components/knowledge/KnowledgeBaseView.tsx:27 | lower-casing keeps the length and lowers each character where it stands |
| Common.Contains | my-next-app/app/components/knowledge/KnowledgeBaseView.tsx:27-28 | `includes` holds when the needle is a prefix, and only when the needle is no longer than the haystack |
| Common.ContainsIffOccurs | my-next-app/app/components/knowledge/KnowledgeBaseView.tsx:27 | `includes` holds exactly when the needle occurs at some position of the haystack |
| Common.Filter | my-next-app/app/components/tasks/TasksView.tsx:46 | `filter` returns a subsequence whose elements all pass the predicate, and keeps every element that passes |
| Common.FilterCount | my-next-app/app/components/knowledge/KnowledgeBaseView.tsx:26-29 | `filter` keeps each passing element exactly as often as it occurs, and no other element |
| Common.FilterPartition | my-next-app/app/components/tasks/TasksView.tsx:46-50 | filtering by a predicate and by its negation splits the list as a multiset |
| AuthSession.FetchUserStep | my-next-app/app/context/AuthContext.tsx:36-58 | sends one identity request with `<token_type> <token>`. An ok parsed reply becomes the user and storage is unchanged. Otherwise the user is null and both keys are removed, with other keys kept. Loading ends in every case |
| AuthSession.MountStep | my-next-app/app/context/AuthContext.tsx:25-34 | loading always ends. Without both keys stored nothing is sent and nothing else changes. With both, the identity request carries the stored pair |
| AuthSession.ConfirmIdentity | my-next-app/app/context/AuthContext.tsx:89-103 | sends nothing more and leaves storage and `isLoading` alone. It succeeds exactly on an ok JSON reply, whose body becomes the user; otherwise it throws an `Error` and changes nothing |
| AuthSession.LoginTry | my-next-app/app/context/AuthContext.tsx:61-103 | the token request goes first, at most one identity request follows, `isLoading` never changes. Every failure throws an `Error` and keeps the user. Success needs both replies accepted, sets the identity body as the user and stores a token pair |
| AuthSession.LoginStep | my-next-app/app/context/AuthContext.tsx:61-112 | the token request goes first. `isLoading` never changes. A failure is always rethrown as an `Error`. Success means a user is set and a token pair is stored |
| AuthSession.LogoutStep | my-next-app/app/context/AuthContext.tsx:114-118 | no user, no token pair stored, nothing sent, `isLoading` unchanged |
| AuthSession.RegisterStep | my-next-app/app/context/AuthContext.tsx:120-153 | the registration request goes first, `isLoading` never changes, and a failure is always rethrown as an `Error` |
| AuthSession.MountWithoutToken | my-next-app/app/context/AuthContext.tsx:29-33 | unless both keys hold a non-empty value, mounting sends nothing and only sets `isLoading` false |
| AuthSession.MountWithToken | my-next-app/app/context/AuthContext.tsx:27-30 | with both keys stored, mounting is `fetchUser` with the stored token and type |
| AuthSession.LoginRejectedByTokenEndpoint | my-next-app/app/context/AuthContext.tsx:75-79 | a non-ok token reply fails with a non-empty `detail`, else "Invalid username or password."; the session is unchanged and only the token request was sent |
| AuthSession.LoginWithoutToken | my-next-app/app/context/AuthContext.tsx:81-84 | an ok reply lacking a non-empty `access_token` or `token_type` fails with "No token returned from server" and stores nothing |
| AuthSession.LoginIdentityFailureKeepsToken | my-next-app/app/context/AuthContext.tsx:86-100 | when the identity call fails after a token success: the token pair stays stored and the user stays as it was. The error is `detail` or "Failed to fetch user data", or the fetch error's message |
| AuthSession.LoginSucceedsIff | my-next-app/app/context/AuthContext.tsx:86-111 | login succeeds exactly when the token reply is ok with both fields and the identity reply is ok. Then the token pair is stored and the identity body is the user |
| AuthSession.LogoutIdempotent | my-next-app/app/context/AuthContext.tsx:114-118 | logging out twice equals logging out once |
| AuthSession.RegisterRejected | my-next-app/app/context/AuthContext.tsx:122-134 | a failed registration request attempts no login and changes nothing; a non-ok JSON reply fails with `detail` or "Registration failed" |
| AuthSession.RegisterChainsLogin | my-next-app/app/context/AuthContext.tsx:136-145 | an accepted registration performs `login` with the same credentials. The session is login's. A login failure is reported after "Registration successful, but login failed: " |
| AuthSession.RehydrateAfterLogin | my-next-app/app/context/AuthContext.tsx:86-103 | after a successful login, a restart over the same storage sends the same identity request. Given the same reply, it holds the same user |
| AuthSession.RestartAfterLogout | my-next-app/app/context/AuthContext.tsx:114-118 | after logout, a restart sends nothing and finds no user |
| AuthSession.AuthProvider.constructor | my-next-app/app/context/AuthContext.tsx:22-23 | no user, loading, storage as persisted |
| AuthSession.AuthProvider.FetchUser | my-next-app/app/context/AuthContext.tsx:36-58 | the field updates in the provider's order equal `FetchUserStep` |
| AuthSession.AuthProvider.Mount | my-next-app/app/context/AuthContext.tsx:25-34 | the field updates equal `MountStep` |
| AuthSession.AuthProvider.Login | my-next-app/app/context/AuthContext.tsx:61-112 | the storage writes, the identity call and the rethrow equal `LoginStep` |
| AuthSession.AuthProvider.Logout | my-next-app/app/context/AuthContext.tsx:114-118 | the two removals and the null user equal `LogoutStep` |
| AuthSession.AuthProvider.Register | my-next-app/app/context/AuthContext.tsx:120-153 | the registration request, the nested `login` and both rethrows equal `RegisterStep` |
| ProtectedRoute.Guard | my-next-app/app/components/ProtectedRoute.tsx:12-35 | children render exactly when resolved with a user; navigation happens exactly when resolved without one, and goes to `/login` |
| ProtectedRoute.WhileLoading | my-next-app/app/components/ProtectedRoute.tsx:19-30 | while loading: the two-line placeholder and no navigation, whatever the user |
| ProtectedRoute.UnauthenticatedRedirects | my-next-app/app/components/ProtectedRoute.tsx:13-16 | resolved without a user: push `/login`, render nothing |
| ProtectedRoute.AuthenticatedRendersChildren | my-next-app/app/components/ProtectedRoute.tsx:35 | resolved with a user: children, no navigation |
| ProtectedRoute.ExactlyOneOutcome | my-next-app/app/components/ProtectedRoute.tsx:12-35 | exactly one of the three outcomes holds for every `(isLoading, user)` |
| ProtectedRoute.ResolvedAfterMount | my-next-app/app/components/ProtectedRoute.tsx:19-35 | after the session store's mount step the placeholder is gone, and children show exactly when a user was found |
| FrontEndProtectedRoute.Guard | FrontEnd/frontend/app/components/ProtectedRoute.tsx:12-26 | children exactly when resolved with a user; navigation to `/login` exactly when resolved without one |
| FrontEndProtectedRoute.WhileLoading | FrontEnd/frontend/app/components/ProtectedRoute.tsx:18-24 | while loading: "Loading..." and no navigation |
| FrontEndProtectedRoute.UnauthenticatedRedirects | FrontEnd/frontend/app/components/ProtectedRoute.tsx:13-15 | resolved without a user: push `/login`, render null |
| FrontEndProtectedRoute.AuthenticatedRendersChildren | FrontEnd/frontend/app/components/ProtectedRoute.tsx:26 | resolved with a user: children, no navigation |
| FrontEndProtectedRoute.AgreesWithMyNextApp | FrontEnd/frontend/app/components/ProtectedRoute.tsx:12-26 | both guards navigate alike, and show children, nothing or a placeholder in the same cases |
| SignupPage.UsernameError | my-next-app/app/signup/page.tsx:39-45 | no message, or exactly one of the three username messages |
| SignupPage.UsernameRules | my-next-app/app/signup/page.tsx:39-45 | blank gets "required"; else a length outside 3..50 gets the range message; else a character outside `[a-zA-Z0-9_-]` gets the charset message. A username passes exactly when it has 3..50 characters, all in the class |
| SignupPage.EmailShapeIffPattern | my-next-app/app/signup/page.tsx:48 | the scanning check accepts exactly the language of `^[^\s@]+@[^\s@]+\.[^\s@]+$` |
| SignupPage.EmailShapeMatches | my-next-app/app/signup/page.tsx:48 | a string the scan accepts splits as the pattern demands |
| SignupPage.PatternHasEmailShape | my-next-app/app/signup/page.tsx:48 | a string split as the pattern demands passes the scan |
| SignupPage.EmailError | my-next-app/app/signup/page.tsx:48-53 | no message, or exactly one of the two email messages |
| SignupPage.EmailRules | my-next-app/app/signup/page.tsx:48-53 | blank gets "required", else a mismatch gets the invalid message; an email passes exactly when it matches the pattern |
| SignupPage.PasswordError | my-next-app/app/signup/page.tsx:56-60 | no message, or exactly one of the two password messages |
| SignupPage.PasswordRules | my-next-app/app/signup/page.tsx:56-60 | untrimmed: empty gets "required"; 1..3 characters get "too short"; 4 or more pass |
| SignupPage.FieldErrors | my-next-app/app/signup/page.tsx:35-63 | no errors exactly when the username, email and password rules all pass |
| SignupPage.SubmitStep | my-next-app/app/signup/page.tsx:66-93 | `serverError` is cleared and exactly the validation errors are stored. `register` is called exactly when the form is valid and not loading, and then with the form. On success it goes to `/login?registered=true`. A failure shows the `Error`'s message or "An unexpected error occurred". Loading ends false |
| SignupPage.NoReentrantRegister | my-next-app/app/signup/page.tsx:70 | a submit while `register` is pending calls nothing |
| SignupPage.EditStep | my-next-app/app/signup/page.tsx:131-134 | editing a field sets its value and clears its error; the other errors, `serverError` and loading stay |
| SignupPage.ValidationMessagesNonEmpty | my-next-app/app/signup/page.tsx:133 | every validation message is non-empty, so the truthiness test clears exactly the errors set |
| SignupPage.SignupForm.constructor | my-next-app/app/signup/page.tsx:26-33 | empty form, no errors, no server error, not loading |
| SignupPage.SignupForm.ValidateForm | my-next-app/app/signup/page.tsx:35-64 | the field-by-field collection stores exactly `FieldErrors` and returns whether there are none |
| SignupPage.SignupForm.HandleSubmit | my-next-app/app/signup/page.tsx:66-93 | the field updates equal `SubmitStep` |
| SignupPage.SignupForm.Edit | my-next-app/app/signup/page.tsx:131-172 | the field updates equal `EditStep` |
| LoginPage.SubmitStep | my-next-app/app/login/page.tsx:29-43 | `login` is called with the credentials, rendering no error and loading while pending. It ends not loading, with no error exactly on success, and otherwise the `Error`'s message or "Login failed" |
| LoginPage.RedirectEffect | my-next-app/app/login/page.tsx:23-27 | the effect navigates exactly when a user is present, and then to `/` |
| LoginPage.RedirectFollowsLogin | my-next-app/app/login/page.tsx:23-27 | a login the session store accepts makes the page push `/`; a rejected one leaves the redirect as it was |
| LoginPage.ShowsSessionMessage | my-next-app/app/login/page.tsx:36-38 | the session store rejects with an `Error`, so the page shows its message |
| LoginPage.DerivedStateFromError | my-next-app/app/login/page.tsx:166-171 | `hasError` is set and the message is the error's own if non-empty, else "Something went wrong" |
| LoginPage.LoginForm.constructor | my-next-app/app/login/page.tsx:18-21 | empty credentials, no error, not loading |
| LoginPage.LoginForm.HandleSubmit | my-next-app/app/login/page.tsx:29-43 | the field updates equal `SubmitStep` |
| FrontEndLoginPage.SubmitStep | FrontEnd/frontend/app/login/page.tsx:29-49 | `login` is called exactly when both fields are non-empty, and then with the form. Success pushes `/` with no error. A failure shows the `Error`'s message or "Login failed" and does not navigate. Loading ends false after a call |
| FrontEndLoginPage.EmptyFieldRefused | FrontEnd/frontend/app/login/page.tsx:33-36 | an empty field gives "Please fill in all fields", no call, no navigation, loading untouched |
| FrontEndLoginPage.FirstWithKeyUnique | FrontEnd/frontend/app/login/page.tsx:20 | the first pair with a key determines the value |
| FrontEndLoginPage.QueryGet | FrontEnd/frontend/app/login/page.tsx:20 | `get` returns a value exactly when some pair has the key, and then the value of the first such pair |
| FrontEndLoginPage.QueryGetIgnoresLaterPairs | FrontEnd/frontend/app/login/page.tsx:20 | pairs appended after one with the key do not change `get` |
| FrontEndLoginPage.JustRegistered | FrontEnd/frontend/app/login/page.tsx:20 | the banner shows exactly when the first `registered` parameter is `true` |
| FrontEndLoginPage.LaterRegisteredIgnored | FrontEnd/frontend/app/login/page.tsx:20 | once a `registered` parameter has another value, a later `registered=true` does not show the banner |
| FrontEndLoginPage.LoginContent.constructor | FrontEnd/frontend/app/login/page.tsx:22-27 | empty form, no error, not loading |
| FrontEndLoginPage.LoginContent.HandleSubmit | FrontEnd/frontend/app/login/page.tsx:29-49 | the field updates equal `SubmitStep` |
| TasksView.AddTask | my-next-app/app/components/tasks/TasksView.tsx:16-30 | whitespace-only input changes nothing. Otherwise the untrimmed input becomes one open, medium-priority task at the end, numbered one past the old length, and the input is cleared |
| TasksView.ToggleTask | my-next-app/app/components/tasks/TasksView.tsx:32-36 | same length; tasks with the id are flipped, all others unchanged |
| TasksView.ToggleChangesOnlyCompleted | my-next-app/app/components/tasks/TasksView.tsx:33-35 | only `completed` changes, and it changes exactly on tasks with the id |
| TasksView.ToggleTwice | my-next-app/app/components/tasks/TasksView.tsx:32-36 | toggling an id twice restores the list |
| TasksView.ToggleUnknownId | my-next-app/app/components/tasks/TasksView.tsx:32-36 | an id no task has leaves the list unchanged |
| TasksView.ToggleFlipsOne | my-next-app/app/components/tasks/TasksView.tsx:32-36 | with ids equal to positions, toggling id `k` flips exactly task `k - 1` |
| TasksView.FilteredTasks | my-next-app/app/components/tasks/TasksView.tsx:46-50 | 'completed' keeps exactly the completed tasks, 'active' exactly the others, any other filter all of them; always a subsequence |
| TasksView.CompletedAndActivePartition | my-next-app/app/components/tasks/TasksView.tsx:46-50 | the 'completed' and 'active' results together are the list, as a multiset |
| TasksView.PriorityColor | my-next-app/app/components/tasks/TasksView.tsx:38-44 | red exactly for 'high', yellow exactly for 'medium', green exactly for anything else |
| TasksView.ApplyKeepsIds | my-next-app/app/components/tasks/TasksView.tsx:16-36 | typing, adding, toggling and filtering keep every id equal to its position plus one |
| TasksView.IdsStayPositions | my-next-app/app/components/tasks/TasksView.tsx:21 | ids equal positions plus one after any sequence of actions, when they did at the start |
| TasksView.InitialIdsArePositions | my-next-app/app/components/tasks/TasksView.tsx:7-11 | from the three initial tasks, ids equal positions plus one after any sequence of actions |
| ThoughtPartner.SendStep | my-next-app/app/components/ThoughtPartner.tsx:17-64 | whitespace-only input sends nothing and changes nothing. Otherwise the request is the old conversation plus the trimmed user message, shown with the input cleared and loading on. Then one assistant message follows: `data.message`, the apology, or the communication error. Loading ends off |
| ThoughtPartner.AcceptedSendAppendsTwo | my-next-app/app/components/ThoughtPartner.tsx:20-63 | an accepted send adds exactly a user message and then an assistant message after the kept old ones, and ends not loading |
| ThoughtPartner.AnswerTexts | my-next-app/app/components/ThoughtPartner.tsx:39-60 | ok gives `data.message`, non-ok the fixed apology, a throw the fixed error text |
| ThoughtPartner.ApplyKeepsAlternating | my-next-app/app/components/ThoughtPartner.tsx:17-63 | typing or sending keeps old messages as a prefix and keeps turns alternating, user first, with no blank user message |
| ThoughtPartner.RunKeepsAlternating | my-next-app/app/components/ThoughtPartner.tsx:17-63 | the same over any sequence of typing and sending |
| ThoughtPartner.ThoughtPartnerView.constructor | my-next-app/app/components/ThoughtPartner.tsx:13-15 | empty conversation and input, not loading |
| ThoughtPartner.ThoughtPartnerView.SendMessage | my-next-app/app/components/ThoughtPartner.tsx:17-64 | the successive `setConversation`/`setInput`/`setLoading` updates equal `SendStep` |
| DebugConsole.LastN | my-next-app/app/components/DebugConsole.tsx:46 | `slice(-n)` is the suffix of length `min(length, n)` |
| DebugConsole.Join | my-next-app/app/components/DebugConsole.tsx:38-40 | `join(' ')` has the parts' lengths plus one separator between each pair and starts with the first part; one part is itself, none is empty |
| DebugConsole.JoinAppend | my-next-app/app/components/DebugConsole.tsx:38-40 | joining one more argument appends a space and that argument, so the arguments appear left to right with one space between neighbours |
| DebugConsole.AddLog | my-next-app/app/components/DebugConsole.tsx:37-47 | 1 to 50 entries, the new one last. Below 50 the old entries are a kept prefix. At 50 only the oldest is dropped. The survivors are the newest old entries, in order |
| DebugConsole.Clear | my-next-app/app/components/DebugConsole.tsx:62 | the buffer is empty |
| DebugConsole.RunBounded | my-next-app/app/components/DebugConsole.tsx:42-46 | any sequence of log calls and clears keeps at most 50 entries |
| DebugConsole.LastNOfConcat | my-next-app/app/components/DebugConsole.tsx:46 | trimming, appending and trimming again is trimming once |
| DebugConsole.RunKeepsLastFifty | my-next-app/app/components/DebugConsole.tsx:42-46 | without a clear, the buffer is the last 50 of the old entries followed by all those logged, in order |
| DebugConsole.ClearThenLog | my-next-app/app/components/DebugConsole.tsx:62 | after a clear, the buffer is the last 50 entries logged since |
| Workflow.Decimal | my-next-app/app/components/workflow/WorkflowAutomationView.tsx:42 | the decimal form of the stamp is a non-empty string of digits, one digit exactly below 10 |
| Workflow.DecimalInjective | my-next-app/app/components/workflow/WorkflowAutomationView.tsx:42 | different stamps have different decimal forms |
| Workflow.StepIdInjective | my-next-app/app/components/workflow/WorkflowAutomationView.tsx:42 | two step ids are equal exactly when their stamps are |
| Workflow.AddWorkflowStep | my-next-app/app/components/workflow/WorkflowAutomationView.tsx:40-49 | one pending step named "New <type> Step" with empty config at the end; earlier steps unchanged |
| Workflow.AddAllAppends | my-next-app/app/components/workflow/WorkflowAutomationView.tsx:40-49 | successive adds keep the old steps in front, and the k-th new step is pending with the k-th stamp in its id |
| Workflow.DistinctIdsIffDistinctStamps | my-next-app/app/components/workflow/WorkflowAutomationView.tsx:42 | steps added from an empty list have distinct ids exactly when their stamps are distinct |
| Workflow.Outcome | my-next-app/app/components/workflow/WorkflowAutomationView.tsx:62 | "completed" exactly when the draw exceeds 0.2, "error" otherwise |
| Workflow.FindIndex | my-next-app/app/components/workflow/WorkflowAutomationView.tsx:55 | -1 exactly when no step has the id; otherwise the first position with it |
| Workflow.SetStatus | my-next-app/app/components/workflow/WorkflowAutomationView.tsx:55-56 | keeps the length; with no step found the list is unchanged, otherwise the found step gets the status |
| Workflow.SetStatusChangesOnlyFound | my-next-app/app/components/workflow/WorkflowAutomationView.tsx:55-56 | writing a status through `findIndex` changes only the status of the step found |
| Workflow.StateAfter | my-next-app/app/components/workflow/WorkflowAutomationView.tsx:53-63 | the list after `i` passes keeps the number of steps |
| Workflow.Midway | my-next-app/app/components/workflow/WorkflowAutomationView.tsx:54-57 | the list while step `i` runs keeps the number of steps |
| Workflow.RunKeepsSteps | my-next-app/app/components/workflow/WorkflowAutomationView.tsx:53-64 | at every point of a run, count, order, ids, types, names and configs are unchanged, with or without duplicate ids |
| Workflow.FindIndexSameSkeleton | my-next-app/app/components/workflow/WorkflowAutomationView.tsx:55 | lists that differ only in statuses have the same `findIndex` |
| Workflow.FoundInPlace | my-next-app/app/components/workflow/WorkflowAutomationView.tsx:55 | with distinct ids, step `k` is found at position `k` throughout a run |
| Workflow.StatusStep | my-next-app/app/components/workflow/WorkflowAutomationView.tsx:55-62 | with distinct ids, one pass gives step `k` its outcome and changes no other status |
| Workflow.StatusAfter | my-next-app/app/components/workflow/WorkflowAutomationView.tsx:53-63 | with distinct ids, after `i` passes step `m` has its outcome if `m < i` and its old status otherwise |
| Workflow.StatusesAfter | my-next-app/app/components/workflow/WorkflowAutomationView.tsx:53-63 | with distinct ids, after `i` passes the first `i` steps have their outcomes and the rest their old statuses |
| Workflow.StatusesMidway | my-next-app/app/components/workflow/WorkflowAutomationView.tsx:54-57 | with distinct ids, while step `i` runs it alone is "running", earlier steps show outcomes, later ones their old status |
| Workflow.RunSettlesEveryStep | my-next-app/app/components/workflow/WorkflowAutomationView.tsx:53-64 | with distinct ids, a whole run leaves every step "completed" or "error", "completed" exactly when its draw exceeded 0.2, all else unchanged |
| Workflow.FramesLength | my-next-app/app/components/workflow/WorkflowAutomationView.tsx:52-63 | the first `i` passes render `2i + 1` states |
| Workflow.FramesStart | my-next-app/app/components/workflow/WorkflowAutomationView.tsx:51-52 | the first rendered state is the list as it was, with `isRunning` on |
| Workflow.FramesRunning | my-next-app/app/components/workflow/WorkflowAutomationView.tsx:52-63 | every state rendered before the loop ends has `isRunning` on |
| Workflow.SharedIdRunsFirstTwice | my-next-app/app/components/workflow/WorkflowAutomationView.tsx:55 | with two steps sharing an id, the first gets both outcomes, ending with the second draw's, and the second is never touched |
| Workflow.LoopStep | my-next-app/app/components/workflow/WorkflowAutomationView.tsx:54-62 | one pass finds a valid index, and its two in-place writes produce the running list and then the next settled list |
| Workflow.FramesStep | my-next-app/app/components/workflow/WorkflowAutomationView.tsx:56-63 | one pass renders the running list and then the settled list |
| Workflow.WorkflowView.constructor | my-next-app/app/components/workflow/WorkflowAutomationView.tsx:29-31 | no steps, not running |
| Workflow.WorkflowView.AddStep | my-next-app/app/components/workflow/WorkflowAutomationView.tsx:40-49 | the steps become `AddWorkflowStep` of the old ones; the running flag stays |
| Workflow.WorkflowView.RunWorkflow | my-next-app/app/components/workflow/WorkflowAutomationView.tsx:51-66 | the loop over one array of shared steps renders exactly the states of the run and ends with the settled list and `isRunning` off |
| Workflow.WorkflowView.RunStep | my-next-app/app/components/workflow/WorkflowAutomationView.tsx:54-63 | one pass of the loop moves the shared steps from `i` settled to `i + 1` and renders its two states |
| Workflow.RunFrames | my-next-app/app/components/workflow/WorkflowAutomationView.tsx:51-64 | a run renders `2n + 2` states: first the old list running, all but the last running, and last the settled list with `isRunning` off |
| Workflow.RunDisabled | my-next-app/app/components/workflow/WorkflowAutomationView.tsx:90 | Run is enabled exactly when no run is in progress and there is at least one step |
| Workflow.RunButtonAroundRun | my-next-app/app/components/workflow/WorkflowAutomationView.tsx:90 | a run renders `2n + 2` states. Run is disabled in all but the last. In the last it is enabled exactly when there are steps |
| KnowledgeBase.FilteredItems | my-next-app/app/components/knowledge/KnowledgeBaseView.tsx:26-29 | exactly the items whose lowered title or content contains the lowered query, as a subsequence in the original order, each as often as in the input |
| KnowledgeBase.EmptyQueryFindsAll | my-next-app/app/components/knowledge/KnowledgeBaseView.tsx:26-29 | the empty query returns every item |
| KnowledgeBase.CaseOfQueryIrrelevant | my-next-app/app/components/knowledge/KnowledgeBaseView.tsx:27-28 | queries that differ only in ASCII letter case give the same result |
| KnowledgeBase.MatchIsOccurrence | my-next-app/app/components/knowledge/KnowledgeBaseView.tsx:27-28 | an item matches exactly when the lowered query occurs at some position of its lowered title or content |
| KnowledgeBase.InitialItemFoundInAnyCase | my-next-app/app/components/knowledge/KnowledgeBaseView.tsx:16-29 | "GETTING" finds the initial "Getting Started" item |
| UserStore.CreateUser | backend/database/mysql.py:50-74 | `True` exactly when nothing failed. A database error without `errno` fails in the handler itself. Any other exception gives "Unexpected error: <text>" |
| UserStore.UsernameTakesPrecedence | backend/database/mysql.py:66-68 | a 1062 whose text contains "username" gives "Username '<username>' already exists", whatever else it contains |
| UserStore.EmailDuplicate | backend/database/mysql.py:66-70 | a 1062 with "email" but not "username" in its text gives "Email '<email>' already exists" |
| UserStore.OtherDatabaseError | backend/database/mysql.py:71 | another errno, or a 1062 naming neither field, gives "Database error: <text>" |
| UserStore.NonDatabaseError | backend/database/mysql.py:72-74 | a non-database exception gives "Unexpected error: <text>" |
| UserStore.EmailClashReportedAsUsername | backend/database/mysql.py:66-68 | a clash on the email key for the value "username@example.com" is reported as a taken username |
| UserStore.DuplicateMessage | backend/database/mysql.py:66-71 | a duplicate decided on its key: the username key gives the username message, else the email key the email message, else the database error |
| UserStore.EmailClashReportedAsEmail | backend/database/mysql.py:66-70 | decided on the key, a clash on `users.email` is reported as a taken email whatever the value |
| UserStore.DuplicateMessageIgnoresValue | backend/database/mysql.py:66-70 | decided on the key, the report does not depend on the clashing value when the key names a field |

## Left out

- Real I/O: `fetch`, JSON parsing and `localStorage` are not performed. A reply is an input, a parse failure is a rejection with a message, and storage is a map.
- A JSON body is modelled as an object whose fields are strings. Bodies that are `null`, arrays, numbers or strings, non-string field values and nested objects are not modelled. So the `TypeError` of reading `data.detail` on a `null` body, which `login` rethrows with that error's message, is not captured either.
- The `detail` field is a string or absent; a list-valued `detail` is not modelled.
- Time and randomness: `Date.now()`, `new Date()` and `toLocaleTimeString()` are parameters, and `Math.random()` draws are a sequence of reals.
- `setTimeout` delays, unmounting during an await and React's batching of renders are left out. Each handler runs to completion in order, with its awaited call settled by an input.
- Workflow.WorkflowView.RunWorkflow: the loop reads the `workflows` array captured when the run started. A step added during a run is therefore dropped when the loop next renders, which the model does not capture. The step objects that every copy shares are modelled as one array.
- DebugConsole.Join: arguments arrive already rendered as text. `JSON.stringify` of object arguments and the overriding of `console` methods are not modelled.
- Strings: whitespace is the ASCII set (space, tab, line feed, carriage return, vertical tab, form feed), case folding is ASCII only, and lengths count characters, not UTF-16 units.
- The non-`Error` fallbacks after `login`/`register` are modelled: "An unexpected error occurred" and the "log in manually" message. The session store never rejects with anything but an `Error`, so they are unreachable.
- UserStore.CreateUser: `errno` is an optional input, since whether the driver's error carries it is up to the driver. The file imports `Error` from `pymysql` (mysql.py:1-2), whose errors carry the code in `args[0]`; if they have no `errno` attribute, line 66 raises an `AttributeError` from inside the handler, which is the model's missing-`errno` case. Hashing, the query and the commit are not modelled.
- Workflow.SetStatus: its own contract does not say that the other steps are unchanged. That is stated by `SetStatusChangesOnlyFound`, kept apart so the proofs over whole runs stay small.
- Workflow.StateAfter: its own contract states only the number of steps; the contents are stated by `RunKeepsSteps`, `StatusAfter` and `StatusesAfter`.
- Workflow.Midway: its own contract states only the number of steps; the contents are stated by `RunKeepsSteps` and `StatusesMidway`.
- `get_user_by_username`, `verify_password`, the connection and table set-up are not part of this model.
- Input setters (`setUsername`, `setSearchQuery`, `setSelectedStep`, …), `preventDefault` and all rendering markup are not modelled beyond the values they set.

## Findings

| source | as written | input that shows it | evidently intended | confidence | as-written member | corrected member |
|---|---|---|---|---|---|---|
| backend/database/mysql.py:66-70 | a duplicate entry is attributed to the username whenever the whole error text contains "username", and that text includes the clashing value | registering bob with the email `username@example.com` when that email is taken: MySQL reports `Duplicate entry 'username@example.com' for key 'users.email'`, and the user is told "Username 'bob' already exists" | attribute the duplicate by the key that clashed, so the clash above reads "Email 'username@example.com' already exists" | not executed; holds for a driver error that carries `errno` (with `pymysql` the `errno` lookup may fail first, see "Left out"); the key wording follows MySQL 8's duplicate-entry message | UserStore.EmailClashReportedAsUsername | UserStore.DuplicateMessage |
