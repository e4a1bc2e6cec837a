# Taskly client: a Dafny model of its state logic

Taskly is a React client for a task manager and a student registry (*siswa*),
with an AI assistant widget and a live chat over a WebSocket. It has no
algorithmic engine. Its logic lives in event handlers: they reconcile lists
with API replies, keep flags such as `isLoading`, `isConnected` and the
session, and choose routes. This project models that logic in Dafny and
proves what the handlers promise.

A pure computation in the source becomes a function, and what it means is
stated by its `ensures` clauses or by lemmas. A handler that updates React
state or browser storage becomes a method of a class whose fields are that
state. Its `ensures` clauses give the whole new state in terms of the old
one.

An awaited API call is a parameter `Call<T>`: either the reply body or the
rejection the axios interceptors passed on. The session effects of those
interceptors are modelled once, in `Api.Browser.Transmit` and
`Api.Browser.Login`. A handler whose properties speak about the moment of
the call is split at the `await` into a method that runs up to the call and
one that continues after it: `ChatBot.Widget.Send`/`Receive`,
`LoginPage.LoginForm.Submit`/`LoginResolved` and
`RegisterPage.RegisterForm.Submit`/`RegisterResolved`.

Modules, one per source file:

| module | source file |
|---|---|
| `Common` | JavaScript semantics the source leans on: `\|\|` fallbacks, `trim`, `replace` of the first occurrence, `${n}` of an integer |
| `Api` | src/services/api.ts |
| `AuthStore` | src/store/auth-store.ts |
| `AuthContext` | src/context/AuthContext.tsx |
| `LoginPage`, `RegisterPage` | src/pages/LoginPage.tsx, src/pages/RegisterPage.tsx |
| `ProtectedRoute` | src/components/ProtectedRoute.tsx |
| `AppRoutes` | src/App.tsx |
| `DashboardPage` | src/pages/DashboardPage.tsx |
| `SiswaPage`, `SiswaDialog` | src/pages/SiswaPage.tsx, src/components/SiswaDialog.tsx |
| `ChatBot` | src/components/ChatBot.tsx |
| `GlobalChatPage` | src/pages/GlobalChatPage.tsx |

In `GlobalChatPage`, `ChatState` and its step functions (`OnOpen`,
`OnMessage`, `OnClose`, `OnError`, `TimerFires`, `Cleanup`, `Send`, …) are
the specification. The class `ChatPage` holds the same state in fields. Each
of its methods performs one event on those fields and ensures
`State() == Step(old(State()), …)`.

Every socket ever created stays in `sockets`: its index is its identity. So the
handlers of a socket that `wsRef` no longer points at can still fire. Each
pending `setTimeout(connectWs, 3000)` is a timer id mapped to the user its
closure captured.

Three behaviours of the code a reader might not expect; the model follows
the code:

- A history reply with `success` and `data` replaces the whole log; it does
  not put the history in front of frames that already arrived.
  `GlobalChatPage.LateHistoryDropsFrames` proves it.
- Each `onclose` arms a new reconnect timer without clearing one armed
  earlier, so reconnecting is not idempotent.
  `GlobalChatPage.TwoDropsTwoTimers` proves it.
- The effect cleanup does not end the session for good. It clears only the
  timer in `reconnectTimerRef` and closes `wsRef`. That socket's `onclose`
  still fires and re-arms a reconnect.
  `GlobalChatPage.CleanupStillReconnects` proves it.

## Model

| member | source | states |
|---|---|---|
| Common.OptOrElseFallback | src/context/AuthContext.tsx:50 | `x \|\| fallback` gives the fallback exactly when `x` is absent, empty or the fallback itself; a non-empty fallback gives a non-empty result |
| Common.TrimStart | src/components/ChatBot.tsx:28 | the result is a suffix of the text; everything dropped is whitespace; the result does not start with whitespace |
| Common.TrimEnd | src/components/ChatBot.tsx:28 | the result is a prefix of the text; everything dropped is whitespace; the result does not end with whitespace |
| Common.TrimSpec | src/pages/GlobalChatPage.tsx:113 | `s.trim()` is empty iff `s` is all ECMAScript whitespace; otherwise it starts and ends with a non-whitespace character |
| Common.TrimIdempotent | src/pages/GlobalChatPage.tsx:115 | trimming the trimmed text changes nothing |
| Common.IndexFrom | src/pages/GlobalChatPage.tsx:53 | the position found is an occurrence at or after the start, and no earlier one exists; no position means no occurrence at all |
| Common.ReplaceFirstAbsent | src/pages/GlobalChatPage.tsx:53 | `replace` of a pattern that does not occur returns the text unchanged |
| Common.ReplaceFirstAtStart | src/pages/GlobalChatPage.tsx:53 | `replace` of a leading pattern swaps exactly that prefix |
| Common.NatToDecimalRoundTrip | src/pages/GlobalChatPage.tsx:73 | the decimal digits of a natural number read back as that number and never start with a minus sign |
| Common.IntToDecimalRoundTrip | src/pages/GlobalChatPage.tsx:73 | `${user.id}` reads back as `user.id`, negative ids included |
| Api.IsAuthenticated | src/services/api.ts:163-165 | authenticated iff a `token` cookie exists and is non-empty |
| Api.CurrentUser | src/services/api.ts:158-161 | null iff the entry is missing, empty or the JSON `null`; the stored user iff one is stored, and then exactly that user; a parse exception iff the entry is non-empty text that is not JSON |
| Api.WithBearer | src/services/api.ts:17-26 | a non-empty token sets `Authorization: Bearer <token>`; no other header changes and none is removed; without a token the headers are untouched |
| Api.RedirectFor | src/services/api.ts:32-38 | a redirect happens iff the status is 401 and the path is not /login, and it goes to /login |
| Api.AfterError | src/services/api.ts:29-42 | a 401 removes the token cookie and the stored user; any other rejection leaves storage alone; the path becomes /login exactly when a redirect happens |
| Api.UnauthorizedEndsSession | src/services/api.ts:32-38 | after a 401 the client is not authenticated, has no stored user and is on /login; the redirect is skipped iff it was already there |
| Api.AfterLogin | src/services/api.ts:144-151 | a reply without `success` and `data` writes nothing; a rejection has only the interceptor's effect |
| Api.LoginPersistsSession | src/services/api.ts:146-149 | after a successful login `getCurrentUser` returns the logged-in user; the token cookie holds the token and expires in 7 days; the client is authenticated iff the token is non-empty; the path is unchanged |
| Api.AfterLogout | src/services/api.ts:153-156 | logout removes exactly the token cookie and the user entry, leaving the client unauthenticated with no user |
| Api.GetAllQueryDefaults | src/services/api.ts:198-203 | without arguments page 1 of 10 unfiltered students is asked for; given arguments are passed through unchanged |
| Api.Browser.constructor | src/services/api.ts:158-165 | the browser starts in the given storage state |
| Api.Browser.OnResponseError | src/services/api.ts:31-41 | the same error is re-rejected; the redirect and the new storage are those of `RedirectFor` and `AfterError` |
| Api.Browser.Transmit | src/services/api.ts:29-42 | the caller sees the same outcome; storage changes only by the interceptor's error handling |
| Api.Browser.Login | src/services/api.ts:144-151 | the caller sees the outcome; storage becomes `AfterLogin` of the old storage |
| Api.Browser.Logout | src/services/api.ts:153-156 | storage becomes `AfterLogout` of the old storage |
| AuthStore.Store.constructor | src/store/auth-store.ts:17-19 | the user comes from localStorage, the flag from the token cookie, and the token is null |
| AuthStore.Store.Login | src/store/auth-store.ts:20-36 | true iff the reply has `success` and `data`; then user, token and flag are installed together; otherwise, refusal or exception, nothing changes; storage follows `authApi.login` |
| AuthStore.Store.Logout | src/store/auth-store.ts:37-40 | storage entries and all three fields cleared |
| AuthStore.Store.SetUser | src/store/auth-store.ts:41-43 | sets the user and keeps the other two fields |
| AuthStore.Store.SetToken | src/store/auth-store.ts:44-46 | sets the token and keeps the other two fields |
| AuthStore.Store.SetIsAuthenticated | src/store/auth-store.ts:47-49 | sets the flag and keeps the other two fields |
| AuthContext.LoginResult | src/context/AuthContext.tsx:38-53 | success iff the reply has `success` and `data`, with the server's message; a refusal gives the server's message or 'Login failed'; an exception gives the server's message or 'An error occurred during login' |
| AuthContext.RegisterResult | src/context/AuthContext.tsx:55-69 | success iff the reply has `success` (data not needed); the same fallbacks with the registration texts |
| AuthContext.FailuresExplainThemselves | src/context/AuthContext.tsx:45-51 | every failed login or registration carries a non-empty message; an exception without a server message carries the fixed error text |
| AuthContext.RestoredUser | src/context/AuthContext.tsx:25-28 | a user is restored iff a stored user and a non-empty token both exist, and it is the stored user |
| AuthContext.UseAuth | src/context/AuthContext.tsx:92-98 | throws 'useAuth must be used within an AuthProvider' iff there is no provider; otherwise returns its value |
| AuthContext.AuthProvider.constructor | src/context/AuthContext.tsx:19-20 | no user, loading |
| AuthContext.AuthProvider.Init | src/context/AuthContext.tsx:22-36 | loading ends in every case; a parse exception removes the token and the stored user and keeps the user; otherwise storage is untouched and the user is set only as `RestoredUser` allows; `isAuthenticated` afterwards iff it was before or a user was restored |
| AuthContext.AuthProvider.Login | src/context/AuthContext.tsx:38-53 | the result is `LoginResult`; the user is set only on success, to the returned user; `isAuthenticated` afterwards iff the login succeeded or it already was; storage follows `authApi.login` |
| AuthContext.AuthProvider.Register | src/context/AuthContext.tsx:55-69 | the result is `RegisterResult`; the provider's state and its `isAuthenticated` are never touched |
| AuthContext.AuthProvider.Logout | src/context/AuthContext.tsx:71-74 | storage cleared, user gone, no longer authenticated |
| LoginPage.LoginForm.constructor | src/pages/LoginPage.tsx:11-13 | no error, not loading, no navigation |
| LoginPage.LoginForm.Submit | src/pages/LoginPage.tsx:18-19 | the error is cleared and loading is on before `login` is called |
| LoginPage.LoginForm.LoginResolved | src/pages/LoginPage.tsx:22-29 | success navigates to /dashboard; failure shows the result's message and does not navigate; loading ends either way |
| RegisterPage.RegisterForm.constructor | src/pages/RegisterPage.tsx:13-15 | no messages, not loading, no navigation, no timer |
| RegisterPage.RegisterForm.Submit | src/pages/RegisterPage.tsx:21-29 | both messages cleared; `register` is called iff the two passwords match; a mismatch shows 'Passwords do not match' and loading is not set |
| RegisterPage.RegisterForm.RegisterResolved | src/pages/RegisterPage.tsx:32-39 | success shows the success text and arms one navigation timer; failure shows the result's message and arms none; loading ends |
| RegisterPage.RegisterForm.NavigationTimerFires | src/pages/RegisterPage.tsx:34 | the armed timer navigates to /login |
| ProtectedRoute.Guard | src/components/ProtectedRoute.tsx:10-73 | loading screen iff loading; redirect to /login with replace iff loaded and signed out; the children iff loaded and signed in |
| ProtectedRoute.GuardDependsOnlyOnFlags | src/components/ProtectedRoute.tsx:11-71 | the decision depends only on the two flags, never on the children |
| AppRoutes.Match | src/App.tsx:15-41 | a match is an element of a route with that exact path; no such route means no match |
| AppRoutes.MatchFirst | src/App.tsx:15-41 | the first route with the path decides |
| AppRoutes.PublicRoutes | src/App.tsx:17-18 | /login and /register render their pages unguarded |
| AppRoutes.GuardedRoutes | src/App.tsx:21-36 | /dashboard and /siswa render their pages inside the guard |
| AppRoutes.RootRoute | src/App.tsx:39 | / redirects to /dashboard with replace |
| AppRoutes.OtherPathsGoToDashboard | src/App.tsx:40 | every other path redirects to /dashboard with replace |
| AppRoutes.ChatIsUnreachable | src/App.tsx:15-41 | no path renders the global chat page |
| AppRoutes.EveryPathSettles | src/App.tsx:13-41 | once loaded, a signed-out visitor ends on the login or register page within two redirects; a signed-in one ends on the dashboard from every path but /login, /register and /siswa; guarded paths show the loading screen while loading |
| AppRoutes.RoutedPagesSeeContext | src/App.tsx:13-41 | for every path, the element the router renders (page, guard or redirect) sits under the AuthProvider, so `useAuth` in it returns the provider's value; the same router without the provider would make it throw |
| DashboardPage.ReplaceById | src/pages/DashboardPage.tsx:60 | same length; each task with the id is the replacement, every other task is unchanged and in place |
| DashboardPage.ReplaceByIdAbsent | src/pages/DashboardPage.tsx:101 | replacing an id no task has leaves the list as it was |
| DashboardPage.RemoveById | src/pages/DashboardPage.tsx:87 | a task is kept iff it was in the list and has another id; never longer |
| DashboardPage.RemoveByIdConcat | src/pages/DashboardPage.tsx:87 | removal distributes over concatenation, so the remaining tasks keep their order |
| DashboardPage.RemoveByIdAbsent | src/pages/DashboardPage.tsx:87 | removing an id no task has changes nothing |
| DashboardPage.CompletedTasks | src/pages/DashboardPage.tsx:126 | a task is kept iff it is in the list and completed |
| DashboardPage.CompletedMultiplicity | src/pages/DashboardPage.tsx:126 | a completed task is kept as often as it occurs in the list, any other task never, so `completedCount` counts the completed tasks with repeats |
| DashboardPage.CompletedConcat | src/pages/DashboardPage.tsx:126 | the completed filter distributes over concatenation, so it keeps the list's order |
| DashboardPage.PendingTasks | src/pages/DashboardPage.tsx:127 | a task is kept iff it is in the list and not completed |
| DashboardPage.PendingMultiplicity | src/pages/DashboardPage.tsx:127 | a pending task is kept as often as it occurs in the list, any other task never, so `pendingCount` counts the pending tasks with repeats |
| DashboardPage.PendingConcat | src/pages/DashboardPage.tsx:127 | the pending filter distributes over concatenation, so it keeps the list's order |
| DashboardPage.CountsPartition | src/pages/DashboardPage.tsx:126-127 | completed and pending counts add up to the number of tasks |
| DashboardPage.CountsPartitionMultiset | src/pages/DashboardPage.tsx:126-127 | the completed and the pending tasks together are the list, each task as often as it occurs |
| DashboardPage.SavedTasks | src/pages/DashboardPage.tsx:57-67 | only a reply with `success` and `data` changes the list; when editing, the task with that id is replaced; when creating, the reply is appended after the unchanged list |
| DashboardPage.Dashboard.constructor | src/pages/DashboardPage.tsx:23-31 | empty list, loading, both dialogs closed, blank form, nothing selected |
| DashboardPage.Dashboard.FetchTasks | src/pages/DashboardPage.tsx:38-50 | a reply with `success` and `data` replaces the list, anything else keeps it; loading ends; nothing else changes |
| DashboardPage.Dashboard.CloseModal | src/pages/DashboardPage.tsx:120-124 | the modal closes, the edited task is cleared and the form is blank |
| DashboardPage.Dashboard.HandleSubmit | src/pages/DashboardPage.tsx:52-74 | sends an update of the edited id or a create, with the form; the list becomes `SavedTasks`; any reply, even one without `success`, closes the modal; an exception keeps it open; submitting ends |
| DashboardPage.Dashboard.HandleDeleteClick | src/pages/DashboardPage.tsx:76-79 | remembers the id and opens the confirmation |
| DashboardPage.Dashboard.ConfirmDelete | src/pages/DashboardPage.tsx:81-95 | with no id selected nothing happens; otherwise a delete of that id is sent, a reply with `success` removes it from the list, and the dialog closes and the selection resets whatever the outcome |
| DashboardPage.Dashboard.ToggleComplete | src/pages/DashboardPage.tsx:97-106 | asks for the flipped flag of that task; a reply with `success` and `data` replaces it by id; nothing else changes |
| DashboardPage.Dashboard.OpenCreateModal | src/pages/DashboardPage.tsx:108-112 | modal open with nothing under edit and a blank form |
| DashboardPage.Dashboard.OpenEditModal | src/pages/DashboardPage.tsx:114-118 | modal open on the task, with its title and description in the form |
| DashboardPage.Dashboard.Counts | src/pages/DashboardPage.tsx:126-127 | the two counters shown always sum to the number of tasks |
| SiswaPage.PrevPage | src/pages/SiswaPage.tsx:268 | never below 1; one page back from any page after the first, else page 1 |
| SiswaPage.NextPage | src/pages/SiswaPage.tsx:289 | never beyond the page count; one page on before the last, else the last |
| SiswaPage.PageButtons | src/pages/SiswaPage.tsx:274-284 | exactly the page numbers 1..n in ascending order (none for n ≤ 0) |
| SiswaPage.PagerStaysInRange | src/pages/SiswaPage.tsx:263-291 | from a page in range every pager button keeps the page in 1..totalPages; the disabled button at either end would not move it |
| SiswaPage.SiswaList.constructor | src/pages/SiswaPage.tsx:35-56 | page 1, empty list and totals, loading, no search, the debounce timer of the mount armed |
| SiswaPage.SiswaList.TypeSearch | src/pages/SiswaPage.tsx:50-56 | the text is stored, and a changed value (re)arms the debounce timer; nothing else changes |
| SiswaPage.SiswaList.DebounceFires | src/pages/SiswaPage.tsx:51-54 | the debounced search takes the current text and the page resets to 1; a fetch follows iff either changed |
| SiswaPage.SiswaList.FetchSiswa | src/pages/SiswaPage.tsx:62-76 | asks for the current page, limit 10 and the debounced search; a reply with `success` and `data` replaces list, total and page count together, anything else keeps all three; loading ends |
| SiswaPage.SiswaList.HandleSiswaSubmit | src/pages/SiswaPage.tsx:78-85 | sends an update of the edited id or a create; refetches iff the call returned, whatever its `success`; an exception propagates to the dialog |
| SiswaPage.SiswaList.HandleDelete | src/pages/SiswaPage.tsx:87-98 | a declined confirmation sends nothing; a refetch follows only a reply with `success` |
| SiswaPage.SiswaList.ClickPrev | src/pages/SiswaPage.tsx:268-269 | the page becomes `PrevPage`; a fetch follows iff it moved |
| SiswaPage.SiswaList.ClickNext | src/pages/SiswaPage.tsx:289-290 | the page becomes `NextPage`; a fetch follows iff it moved |
| SiswaPage.SiswaList.ClickPage | src/pages/SiswaPage.tsx:274-284 | the page becomes the number pressed, which lies in 1..totalPages |
| SiswaPage.SiswaList.OpenCreateModal | src/pages/SiswaPage.tsx:100-103 | dialog open, nothing under edit |
| SiswaPage.SiswaList.OpenEditModal | src/pages/SiswaPage.tsx:105-108 | dialog open on the student |
| SiswaPage.SiswaList.CloseModal | src/pages/SiswaPage.tsx:300 | dialog hidden, the student under edit kept |
| SiswaDialog.BlankForm | src/components/SiswaDialog.tsx:52-63 | all text fields empty, gender 'L', this year |
| SiswaDialog.BeforeT | src/components/SiswaDialog.tsx:44 | a prefix of the text with no 'T', followed in the text by a 'T' unless it is all of it |
| SiswaDialog.DatePart | src/components/SiswaDialog.tsx:44 | empty for a null or empty date; otherwise the 'T'-free prefix that runs up to the first 'T', or the whole date when it has none |
| SiswaDialog.BeforeTPrefix | src/components/SiswaDialog.tsx:44 | a 'T'-free text before a 'T' or the end comes back whole |
| SiswaDialog.DatePartOfTimestamp | src/components/SiswaDialog.tsx:44 | an ISO timestamp `date + 'T' + time` gives `date` |
| SiswaDialog.DatePartIdempotent | src/components/SiswaDialog.tsx:44 | a date already without time is kept |
| SiswaDialog.YearOr | src/components/SiswaDialog.tsx:49 | a stored non-zero year is kept; null and 0 give this year; the result is this year exactly in those cases or when it was stored |
| SiswaDialog.PrefillForm | src/components/SiswaDialog.tsx:37-65 | no student gives the blank form; a student gives nis, name and gender verbatim, `''` for each falsy text field, the date part of the birth date and the year fallback |
| SiswaDialog.PrefillKeepsPresentValues | src/components/SiswaDialog.tsx:40-49 | a student with every value present keeps them all in the form |
| SiswaDialog.View | src/components/SiswaDialog.tsx:67-87 | nothing rendered iff closed; when open, the edit title iff a student is under edit, and otherwise the create title 'Tambah Siswa Baru' |
| SiswaDialog.Dialog.constructor | src/components/SiswaDialog.tsx:23-35 | not submitting, the blank form for this year |
| SiswaDialog.Dialog.Prefill | src/components/SiswaDialog.tsx:37-65 | the form becomes `PrefillForm` |
| SiswaDialog.Dialog.HandleSubmit | src/components/SiswaDialog.tsx:69-80 | the form is submitted; the dialog closes iff `onSubmit` did not throw; submitting ends |
| ChatBot.RoleName | src/components/ChatBot.tsx:47 | the assistant is sent as 'model', the user as 'user' |
| ChatBot.History | src/components/ChatBot.tsx:46-49 | one turn per message, in log order, with the mapped role and the same text |
| ChatBot.RequestContents | src/components/ChatBot.tsx:57-60 | the history followed by exactly one user turn with the new text |
| ChatBot.HistoryConcat | src/components/ChatBot.tsx:46-49 | the history of joined logs is the joined histories |
| ChatBot.RequestMatchesLog | src/components/ChatBot.tsx:46-60 | the request carries exactly the log as displayed after the user's message was appended |
| ChatBot.ReplyText | src/components/ChatBot.tsx:73 | the first candidate's first text when present and non-empty, else 'Sorry, I could not generate a response.'; never empty |
| ChatBot.ReplyFor | src/components/ChatBot.tsx:72-81 | an exception gives the apology text, an answer its `ReplyText`; never empty |
| ChatBot.AlternatingAppend | src/components/ChatBot.tsx:30-84 | appending the message whose turn it is keeps the log alternating |
| ChatBot.Widget.constructor | src/components/ChatBot.tsx:12-16 | the log is exactly the one greeting; empty input; not loading |
| ChatBot.Widget.SetInput | src/components/ChatBot.tsx:150 | stores the typed text |
| ChatBot.SendStep | src/components/ChatBot.tsx:27-70 | nothing happens for a blank input or while loading; otherwise the input clears and the trimmed text is appended as the user's; a missing or placeholder key appends the warning and ends loading; else loading starts and the request is `RequestContents` of the log before the send |
| ChatBot.SendRequestsDisplayedLog | src/components/ChatBot.tsx:46-60 | a request that goes out is the history of the log as displayed after the send |
| ChatBot.AskKeepsShape | src/components/ChatBot.tsx:30-33 | a user message on an answered log keeps it alternating and leaves it waiting for a reply |
| ChatBot.AnswerKeepsShape | src/components/ChatBot.tsx:72-84 | an assistant message on a waiting log keeps it alternating and answers it |
| ChatBot.AskAnsweredKeepsShape | src/components/ChatBot.tsx:36-44 | a user message answered at once by the warning leaves the log alternating and answered |
| ChatBot.SendKeepsShape | src/components/ChatBot.tsx:27-70 | a send keeps the log alternating, and loading holds exactly while the last message is an unanswered user message |
| ChatBot.Widget.Send | src/components/ChatBot.tsx:27-70 | the widget's log, input, loading flag and request become `SendStep` of the old state; the log keeps its shape |
| ChatBot.Widget.Receive | src/components/ChatBot.tsx:72-84 | exactly one assistant reply, `ReplyFor` the outcome, is appended; loading ends |
| GlobalChatPage.WsBase | src/pages/GlobalChatPage.tsx:52 | VITE_WS_URL when set and non-empty, else 'ws://localhost:3000' |
| GlobalChatPage.HttpBaseOfWs | src/pages/GlobalChatPage.tsx:53 | a `ws://` base becomes the same `http://` base |
| GlobalChatPage.HttpBaseOfWss | src/pages/GlobalChatPage.tsx:53 | a `wss://` base becomes the same `https://` base |
| GlobalChatPage.DefaultHistoryUrl | src/pages/GlobalChatPage.tsx:52-54 | without VITE_WS_URL the history is read from http://localhost:3000/chat/messages?limit=100 |
| GlobalChatPage.SocketUrlCarriesUser | src/pages/GlobalChatPage.tsx:71-74 | the socket address is the base and chat path, the user's id (reads back as that id), and the encoded user name at the end |
| GlobalChatPage.Connect | src/pages/GlobalChatPage.tsx:70-102 | one new connecting socket for the user is added and becomes `wsRef`; nothing else changes |
| GlobalChatPage.ApplyHistory | src/pages/GlobalChatPage.tsx:49-64 | a body with `success` and `data` replaces the whole log, even with an empty array; anything else changes nothing |
| GlobalChatPage.Effect | src/pages/GlobalChatPage.tsx:67-104 | no socket without a user; with one, `connectWs` |
| GlobalChatPage.OnOpen | src/pages/GlobalChatPage.tsx:76-79 | connected; that socket is open; other sockets, log, input, timers and both refs unchanged |
| GlobalChatPage.OnMessage | src/pages/GlobalChatPage.tsx:81-88 | a parsed frame goes at the end of the log; an unparsable one changes nothing |
| GlobalChatPage.CloseSocket | src/pages/GlobalChatPage.tsx:98 | a connecting or open socket starts closing; no other part of the state changes |
| GlobalChatPage.OnError | src/pages/GlobalChatPage.tsx:96-99 | only closes its own socket; flag, log and timers unchanged |
| GlobalChatPage.OnClose | src/pages/GlobalChatPage.tsx:90-94 | disconnected; one new timer for the socket's user is added next to every earlier one and stored in the ref |
| GlobalChatPage.TimerFires | src/pages/GlobalChatPage.tsx:93 | the timer is no longer pending and `connectWs` runs for its user |
| GlobalChatPage.Cleanup | src/pages/GlobalChatPage.tsx:106-109 | only the timer in the ref is cleared and only `wsRef` is closed; log, flag and refs unchanged |
| GlobalChatPage.Send | src/pages/GlobalChatPage.tsx:112-117 | with text after trimming and an open `wsRef`, exactly one frame with the trimmed text goes out on that socket and the input clears; otherwise nothing; the log, the flag, the timers and the refs never change |
| GlobalChatPage.Kept | src/pages/GlobalChatPage.tsx:82-87 | a message is kept iff it arrived as a parsed frame; never more than arrived |
| GlobalChatPage.KeptCounts | src/pages/GlobalChatPage.tsx:82-87 | each message is kept as often as it arrived as a parsed frame |
| GlobalChatPage.KeptConcat | src/pages/GlobalChatPage.tsx:82-87 | keeping distributes over concatenation, so parsed frames keep their arrival order |
| GlobalChatPage.Deliver | src/pages/GlobalChatPage.tsx:81-88 | frames leave the sockets alone |
| GlobalChatPage.DeliverAppends | src/pages/GlobalChatPage.tsx:84 | frames append after the log in arrival order, unparsable ones dropped; nothing else changes |
| GlobalChatPage.HistoryThenFrames | src/pages/GlobalChatPage.tsx:57-84 | history first, then frames: the log is the history followed by the parsed frames |
| GlobalChatPage.LateHistoryDropsFrames | src/pages/GlobalChatPage.tsx:57 | a history reply after some frames replaces the log, so those frames disappear |
| GlobalChatPage.DropThenReconnect | src/pages/GlobalChatPage.tsx:76-94 | after a drop the page is disconnected with a timer pending; when it fires a new socket to the same address becomes `wsRef`, and once open the page is connected |
| GlobalChatPage.CleanupStillReconnects | src/pages/GlobalChatPage.tsx:90-109 | after cleanup the closed socket's `onclose` arms a timer for the same user, which opens another socket |
| GlobalChatPage.TwoDropsTwoTimers | src/pages/GlobalChatPage.tsx:93 | two drops leave two pending reconnect timers |
| GlobalChatPage.TimeSource | src/pages/GlobalChatPage.tsx:127-128 | `time` when non-empty, else `created_at` when non-empty, else none |
| GlobalChatPage.FormatTime | src/pages/GlobalChatPage.tsx:126-134 | '' without a time source, the locale rendering of it otherwise |
| GlobalChatPage.MineOnlyForAuthor | src/pages/GlobalChatPage.tsx:221 | nothing is mine before a user is known; a message is mine for a user iff it carries that user's id, so for at most one id |
| GlobalChatPage.ChatPage.constructor | src/pages/GlobalChatPage.tsx:32-38 | empty log and input, disconnected, no socket, no timer |
| GlobalChatPage.ChatPage.ConnectWs | src/pages/GlobalChatPage.tsx:70-102 | the state becomes `Connect` of the old one |
| GlobalChatPage.ChatPage.FetchHistory | src/pages/GlobalChatPage.tsx:49-64 | asks `HistoryUrl`; the state becomes `ApplyHistory` of the old one |
| GlobalChatPage.ChatPage.RunEffect | src/pages/GlobalChatPage.tsx:67-104 | the state becomes `Effect` of the old one |
| GlobalChatPage.ChatPage.SocketOpened | src/pages/GlobalChatPage.tsx:76-79 | the state becomes `OnOpen` of the old one |
| GlobalChatPage.ChatPage.FrameArrived | src/pages/GlobalChatPage.tsx:81-88 | the state becomes `OnMessage` of the old one |
| GlobalChatPage.ChatPage.Close | src/pages/GlobalChatPage.tsx:98 | the state becomes `CloseSocket` of the old one |
| GlobalChatPage.ChatPage.SocketErred | src/pages/GlobalChatPage.tsx:96-99 | the state becomes `OnError` of the old one |
| GlobalChatPage.ChatPage.SocketClosed | src/pages/GlobalChatPage.tsx:90-94 | the state becomes `OnClose` of the old one |
| GlobalChatPage.ChatPage.ReconnectTimerFired | src/pages/GlobalChatPage.tsx:93 | the state becomes `TimerFires` of the old one |
| GlobalChatPage.ChatPage.RunCleanup | src/pages/GlobalChatPage.tsx:106-109 | the state becomes `Cleanup` of the old one |
| GlobalChatPage.ChatPage.TypeInput | src/pages/GlobalChatPage.tsx:249 | only the input changes, to the typed text |
| GlobalChatPage.ChatPage.SendMessage | src/pages/GlobalChatPage.tsx:112-117 | the state becomes `Send` of the old one |

## Left out

- HTTP, axios, `fetch`, WebSocket transport, timers and JSON are not modelled. An awaited call is its outcome (`Call<T>`, `HistoryResult`, `GeminiCall`). A browser event is a method call that the ready state permits. A frame `JSON.stringify({ message })` is its message text.
- `encodeURIComponent` and `toLocaleTimeString('id-ID')` are parameters, because their encodings and locale data are not modelled.
- The Gemini request's endpoint URL with the key, the system instruction and `generationConfig` are not modelled; only its `contents` is. `temperature` is a floating-point constant.
- src/types/task.ts is not part of this model: it wraps `../utils/http`, which is not available. `taskApi` of src/services/api.ts is taken as its outcomes.
- The ThemeContext that GlobalChatPage reads is not part of this model.
- Rendering is not modelled beyond the pager, the dialog title, time display and "mine" marking. That leaves out sidebars, scrolling to the bottom, the chat widget's open toggle and the disabled attributes on the chat input and button. The guard inside `sendMessage` is modelled instead.
- The Enter-without-Shift key handlers are not modelled separately: each just calls the send handler.
- `console.log`/`console.error` are not modelled.
- react-router's case-insensitive and trailing-slash path matching are not modelled: `AppRoutes.Match` compares paths exactly.
- The status and redirect of `window.location.href` are the `path` field. A full page reload after the redirect is not modelled.
- AuthStore.Store.constructor: requires the stored user to parse. `getCurrentUser()` in the store's initialiser throws on non-empty text that is not JSON; that failure happens at module load and has no state to model.
- A stored user entry holding JSON other than a user or `null` (such as `{}` or a number) is not represented: `Api.Stored` has only a stored user, `null` and text that is not JSON.
- Api.Stored: `OtherText` must not hold JSON text such as `"null"`; nothing in its type enforces this, and `CurrentUser` treats every non-empty `OtherText` as a parse exception.
- Common.IntToDecimal: covers only integers that JavaScript prints without an exponent (magnitude below 10^21); larger numbers and non-integral ids are not modelled.
- The `{ username, password }` object that AuthContext and auth-store pass as `LoginRequest` is a type-level mismatch with no run-time effect. It is not modelled.
- DashboardPage.Dashboard.HandleSubmit: the list is reconciled against the tasks when the reply arrives, while the source maps over the `tasks` its closure captured. Two overlapping replies may lose one update in the source; the model does not show that.
- DashboardPage.Dashboard.ToggleComplete: the same stale-closure difference as HandleSubmit.
- DashboardPage.Dashboard.ConfirmDelete: the same stale-closure difference as HandleSubmit.
- SiswaPage.SiswaList.FetchSiswa: overlapping fetches whose replies arrive out of order are not modelled. The page and search asked for are those at the call.
- The effect on `[page, searchDebounce]` in SiswaPage is not a separate member. Each state change reports whether one of the two changed, and the page then runs `FetchSiswa`.
- The effects' dependency-change semantics of React (re-running on a changed `user`, StrictMode double invocation) are not modelled. `GlobalChatPage.ChatPage.RunCleanup` and `RunEffect` are called in the order React would call them.
- `confirm()` in SiswaPage's delete is the `confirmed` parameter.
