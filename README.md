# Chat application core in Dafny

This project models the sequential logic of a small web chat application. The application is an Express + socket.io server over PostgreSQL, with a React client.

On the server side it covers:

- the bearer-token middleware, the admin check and the socket handshake guard;
- the decision chains of `/api/login` and `/api/register`;
- the `UPDATE users` statement that `PUT /api/users/:id` assembles step by step;
- the `send_message` handler, which stores a message and then emits the stored row to exactly one room.

On the client side it covers:

- the chat window's message list, with live messages deduplicated by id and history pages merged first-occurrence-wins, both kept sorted by timestamp;
- the chat window's send, scroll and file-pick handlers;
- the admin panel's search filters, labels, status toggle and user form;
- the sidebar's exclusion, online/offline split and search;
- the login page's form handlers;
- the application shell's route guards and startup check.

JavaScript truthiness is explicit (`Js.Truthy`: `null`, `0` and `''` are falsy). JWT, bcrypt, PostgreSQL, axios and socket.io are oracles: their answers are parameters of the functions and methods. Stateful parts are classes with `modifies` clauses:

- the server's sessions, rooms, message table and emission log (`SocketServer.ChatServer`);
- the component state of each screen (`ChatArea.ChatView`, `AdminPanel.AdminView`, `Sidebar.SidebarView`, `Login.LoginView`, `App.AppState`).

Modules:

| file | module | models |
|---|---|---|
| js.dfy | Js | optional values, loosely typed ids, `${n}` rendering, `Array.prototype.filter` |
| text.dfy | Text | `toLowerCase`, `includes`, `startsWith`, `trim`, `split(' ')` |
| wire.dfy | Wire | token claims, the `send_message` envelope, a stored message row, the account record, `localStorage` |
| server_auth.dfy | ServerAuth | `authenticateToken`, `checkAdmin`, handshake guard, login and register |
| user_update.dfy | UserUpdate | the `PUT /api/users/:id` statement builder |
| socket_server.dfy | SocketServer | rooms, the message table and `send_message` routing |
| message_list.dfy | MessageList | the two `setMessages` updaters of the chat window |
| chat_area.dfy | ChatArea | the chat window's handlers |
| admin_panel.dfy | AdminPanel | filters, labels, toggle, user form, tab loading |
| user_search.dfy | UserSearch | the case-insensitive user-name search of the admin panel and the sidebar |
| sidebar.dfy | Sidebar | exclusion, online/offline split, search, sidebar state |
| login.dfy | Login | the login and register form |
| app.dfy | App | route guards, route resolution, startup check |

## Model

| member | source | states |
|---|---|---|
| Js.Filter | frontend/src/components/AdminPanel.jsx:409-411 | the result is an order-preserving subsequence: every kept element satisfies the predicate, each element that satisfies it occurs as often as in the input, and no other element occurs |
| Js.Truthy | backend/server.js:429-438 | JavaScript truthiness of an id; `SocketServer.FalsyIdsGoPublic` states that `null`, `0` and `''` are the falsy ids and send a message to the public room |
| Text.IncludesAt | frontend/src/components/AdminPanel.jsx:410 | `includes` holds exactly when the term occurs at some position of the string |
| Text.Includes | frontend/src/components/AdminPanel.jsx:410 | `includes`; `Text.IncludesAt` proves it holds exactly when the term occurs at some position |
| Text.ToLower | frontend/src/components/AdminPanel.jsx:410 | `toLowerCase` keeps the length and lowers each character; `Text.MatchesTermCaseInsensitive` shows lowering the term does not change a match |
| Text.MatchesTermCaseInsensitive | frontend/src/components/AdminPanel.jsx:410 | lowering the term first does not change the match |
| Text.TrimEmptyIffBlank | frontend/src/components/ChatArea.jsx:159 | `trim()` gives `''` exactly when the input is white space only |
| Text.Trim | frontend/src/components/ChatArea.jsx:159 | `trim()`; `Text.TrimEmptyIffBlank` proves it gives `''` exactly for white space only |
| Text.StartsWith | frontend/src/components/ChatArea.jsx:253 | `startsWith`; `ChatArea.TooLargeOnlyImages` uses it to say only `image/*` files are size-checked |
| Text.SplitJoin | backend/server.js:121 | splitting a join of separator-free pieces gives back the pieces |
| Text.Split | backend/server.js:122 | `split(' ')` gives at least one piece; `Text.SplitJoin` and `Text.JoinSplit` prove it inverse to joining with the separator |
| Text.JoinSplit | backend/server.js:121 | joining the pieces of a split gives back the string |
| ServerAuth.BearerToken | backend/server.js:121 | a token is never empty and never holds a space; a missing or empty header has no token |
| ServerAuth.BearerTokenIsSecondPiece | backend/server.js:121 | for a header made of space-free pieces, the token is exactly the second piece |
| ServerAuth.BearerOfScheme | backend/server.js:121 | `Bearer <t>` yields `t` |
| ServerAuth.BearerNeedsSpace | backend/server.js:121-123 | a header without a space yields no token |
| ServerAuth.AuthenticateToken | backend/server.js:120-131 | 401 without a token, 403 when verification fails, and a verified token always lets the request go on, with exactly the claims the verifier returned |
| ServerAuth.NoTokenSkipsVerify | backend/server.js:123 | without a token the verifier is not consulted: any two verifiers give the same 401 |
| ServerAuth.CheckAdmin | backend/server.js:134-139 | the handler is reached exactly for role `'admin'`; otherwise 403 with `无权访问` |
| ServerAuth.AdminChainReachesHandler | backend/server.js:326 | the admin routes run exactly for a verified token whose claims carry `'admin'`; every other request gets 401 or 403 |
| ServerAuth.AdminChain | backend/server.js:326 | `.all(authenticateToken, checkAdmin)`; `ServerAuth.AdminChainReachesHandler` proves the handler runs exactly for a verified admin token and everything else gets 401 or 403 |
| ServerAuth.HandshakeGuard | backend/server.js:398-407 | a missing token is refused with `未提供认证令牌`, a failed verification with `认证失败`; admitted exactly with a verified token, and then with the decoded claims |
| ServerAuth.Login | backend/server.js:142-168 | 200 exactly when the user exists and a supplied password matches, with a token over `{id, username, role}`; 401 with one message for an unknown name and a wrong password; 500 exactly on a database error or a missing password for an existing user, whose comparison bcrypt rejects |
| ServerAuth.LoginHidesUnknownUser | backend/server.js:146-155 | an unknown user and a wrong password get identical replies |
| ServerAuth.LoginWithoutPasswordRevealsUser | backend/server.js:146-152 | without a password in the body an unknown name gets 401 while a known one gets 500, so such a request does tell which names exist |
| ServerAuth.LoginIgnoresStatus | backend/server.js:146-163 | a banned account with the right password still receives a token |
| ServerAuth.Register | backend/server.js:235-277 | the checks run in order: a failed lookup is a 500, a taken name is refused before any invite check or insert, then a missing invite, then an invalid one; past those checks 201 comes exactly when a password was sent and the insert succeeds, while a missing password (`bcrypt.hashSync` throws) or a failed insert is a 500; a user is created exactly on 201; the invite is marked only when required and supplied |
| ServerAuth.RegisterAsDeployed | backend/server.js:280-301 | with `checkInviteCodeRequired` returning false, no invite is ever checked or marked, and registration succeeds exactly when the name is free, a password was sent and the insert succeeds |
| ServerAuth.RegisterWithoutPasswordFails | backend/server.js:258-276 | a body without a password passes the name and invite checks and still gets 500 with nothing created, because `bcrypt.hashSync` throws |
| ServerAuth.CheckInviteCodeRequired | backend/server.js:280-289 | always false; `ServerAuth.RegisterAsDeployed` states what registration does with it |
| ServerAuth.ValidateInviteCode | backend/server.js:292-301 | always true; `ServerAuth.RegisterAsDeployed` states what registration does with it |
| UserUpdate.BuildUpdate | backend/server.js:332-364 | the statement built field by field with the `paramIndex` counter is the one `Statement(Assignments(body, hash), id)` describes |
| UserUpdate.AddAssignment | backend/server.js:336-340 | one `if (field)` block appends the next clause, binds its value and advances the counter |
| UserUpdate.Finish | backend/server.js:362-364 | cutting the trailing `", "`, adding `WHERE id = $n` on the next placeholder and binding the id completes exactly the declarative `Statement` of the assignments made |
| UserUpdate.AssignmentsOrder | backend/server.js:336-359 | only truthy fields are assigned, in the fixed order username, password, role, status; the password is bound only as its hash |
| UserUpdate.WellFormedWhenSomeField | backend/server.js:362-364 | with k >= 1 fields the query is `UPDATE users SET c1 = $1, ..., ck = $k WHERE id = $(k+1) ...`; there are k+1 params, `$i` is bound to the i-th value and the last one is the id |
| UserUpdate.MalformedWhenNoField | backend/server.js:362 | with no field supplied, `slice(0, -2)` removes `T ` from `SET ` and the query sent is `UPDATE users SE WHERE id = $1 ...` |
| UserUpdate.ClausesAreSetList | backend/server.js:337 | the appended clauses are the comma-separated SET list followed by one trailing `, ` |
| SocketServer.Route | backend/server.js:429-438 | a group room carries the envelope's group id and a user room its receiver id |
| SocketServer.RouteChoosesOneRoom | backend/server.js:429-438 | exactly one room: group when `group_id` is truthy, else user when `receiver_id` is truthy, else public; group wins when both are set |
| SocketServer.FalsyIdsGoPublic | backend/server.js:429-438 | ids that are `null`, `0` or `''` route to the public room |
| SocketServer.RoomNamesSeparateKinds | backend/server.js:431-437 | room names of different kinds never coincide, so group and direct messages never reach `'public'` |
| SocketServer.RoomName | backend/server.js:431-437 | the room a message is emitted to; `SocketServer.RoomNamesSeparateKinds` and `SocketServer.GroupRoomNames` state when two names coincide |
| SocketServer.GroupRoomNames | backend/server.js:431 | two group rooms are the same room exactly when their ids render alike |
| SocketServer.ChatServer.constructor | backend/server.js:65-73 | no sessions, no rooms, an empty table and the sequence at 1 |
| SocketServer.ChatServer.Connect | backend/server.js:398-413 | a refused handshake changes nothing; an admitted socket gets `socket.user` and, of the rooms the handlers manage, joins `'public'` and no other |
| SocketServer.ChatServer.SendMessage | backend/server.js:416-442 | on insert, the row gets the next id and the sender's id and is appended, and exactly one emission of that row to the routed room follows; a failed insert emits nothing and is logged; a group or direct message reaches no connection |
| SocketServer.ChatServer.Disconnect | backend/server.js:444-446 | the socket leaves its session and every room; the table and the emissions are unchanged |
| MessageList.FindIndex | frontend/src/components/ChatArea.jsx:127 | the first position whose id matches, or -1 when there is none |
| MessageList.KeepFirstIds | frontend/src/components/ChatArea.jsx:126-128 | deduplication loses no id |
| MessageList.KeepFirstUnique | frontend/src/components/ChatArea.jsx:126-128 | deduplication leaves unique ids |
| MessageList.KeepFirstSound | frontend/src/components/ChatArea.jsx:126-128 | every kept element is the first element with its id |
| MessageList.KeepFirst | frontend/src/components/ChatArea.jsx:126-128 | the findIndex filter over a prefix; `MessageList.KeepFirstIds`, `KeepFirstUnique`, `KeepFirstSound` and `KeepFirstComplete` state what it keeps |
| MessageList.DedupById | frontend/src/components/ChatArea.jsx:126-128 | the findIndex filter over the whole list, the `KeepFirst` lemmas at full length |
| MessageList.KeepFirstComplete | frontend/src/components/ChatArea.jsx:126-128 | every first occurrence is kept |
| MessageList.Insert | frontend/src/components/ChatArea.jsx:84-86 | inserting adds exactly the one element (multiset) |
| MessageList.InsertSorted | frontend/src/components/ChatArea.jsx:84-86 | inserting into a sorted list keeps it sorted |
| MessageList.SortByTime | frontend/src/components/ChatArea.jsx:130-132 | the result is a permutation of the input, sorted ascending by timestamp |
| MessageList.SortSorted | frontend/src/components/ChatArea.jsx:130-132 | sorting a sorted list changes nothing, since the sort is stable |
| MessageList.SortUnique | frontend/src/components/ChatArea.jsx:130-132 | sorting keeps ids unique |
| MessageList.ReceiveLiveSpec | frontend/src/components/ChatArea.jsx:77-88 | a held id leaves the list unchanged; otherwise it grows by exactly that message; the result is sorted; unique ids stay unique; the ids become the old ones plus the new one |
| MessageList.ReceiveLive | frontend/src/components/ChatArea.jsx:77-88 | the `receive_message` updater; its contract is `MessageList.ReceiveLiveSpec` |
| MessageList.MergePageSpec | frontend/src/components/ChatArea.jsx:124-133 | the merged list is sorted, has unique ids, and holds exactly the ids of both inputs |
| MessageList.MergePage | frontend/src/components/ChatArea.jsx:124-133 | the history updater; its contract is `MessageList.MergePageSpec`, `MergeKeepsHeld`, `MergeDrawsFromInputs` and `MergePageIdempotent` |
| MessageList.MergeKeepsHeld | frontend/src/components/ChatArea.jsx:124-133 | the held copy wins: every held message survives, and a survivor with a held id is the held message |
| MessageList.MergeDrawsFromInputs | frontend/src/components/ChatArea.jsx:124-133 | every merged message comes from the held list or the page; a message whose id was not held is the page's first message with that id |
| MessageList.MergePageIdempotent | frontend/src/components/ChatArea.jsx:124-133 | merging the same page twice equals merging it once |
| ChatArea.HistoryUrlShape | frontend/src/components/ChatArea.jsx:112-115 | the URL carries the page and `limit=30`; a selected user only appends `&userId=<id>` |
| ChatArea.HistoryUrl | frontend/src/components/ChatArea.jsx:112-115 | the history URL; its shape is stated by `ChatArea.HistoryUrlShape` |
| ChatArea.HasMore | frontend/src/components/ChatArea.jsx:136 | a page of exactly 30 messages; `ChatArea.ChatView.FetchSucceeded` sets `hasMore` by it |
| ChatArea.TooLargeOnlyImages | frontend/src/components/ChatArea.jsx:253 | only `image/*` files are size-checked, against 2097152 bytes |
| ChatArea.TooLarge | frontend/src/components/ChatArea.jsx:253 | the size guard; `ChatArea.TooLargeOnlyImages` states it |
| ChatArea.CanSendMeaning | frontend/src/components/ChatArea.jsx:159 | sending needs non-blank input or a staged file, and a present, connected socket |
| ChatArea.CanSend | frontend/src/components/ChatArea.jsx:159 | the send guard; `ChatArea.CanSendMeaning` states it |
| ChatArea.ReceiverOf | frontend/src/components/ChatArea.jsx:169 | `null` exactly when no user is selected |
| ChatArea.ClientNeverAddressesGroups | frontend/src/components/ChatArea.jsx:166-171 | what the client emits reaches the server's user room of the selected user, or the public room when none is selected or its id is 0; never a group room |
| ChatArea.TextEnvelope | frontend/src/components/ChatArea.jsx:166-171 | the text envelope; `ChatArea.ClientNeverAddressesGroups` proves where the server routes it |
| ChatArea.ChatView.constructor | frontend/src/components/ChatArea.jsx:14-30 | the initial state: empty list and input, page 1, `hasMore` and `loading` set, no socket |
| ChatArea.ChatView.Mount | frontend/src/components/ChatArea.jsx:42-53 | without a token, redirect to `/login` and open no socket |
| ChatArea.ChatView.SetConnected | frontend/src/components/ChatArea.jsx:55-63 | the `connect` and `disconnect` events set `isConnected` |
| ChatArea.ChatView.ReceiveMessage | frontend/src/components/ChatArea.jsx:77-88 | the list becomes `ReceiveLive` of the old list and stays sorted with unique ids |
| ChatArea.ChatView.StartFetch | frontend/src/components/ChatArea.jsx:104-119 | nothing while disconnected; otherwise `loading` is set and the current page's URL is requested |
| ChatArea.ChatView.FetchSucceeded | frontend/src/components/ChatArea.jsx:124-137 | the list becomes the merge of the old list and the page; `hasMore` holds exactly for a full page of 30; loading ends |
| ChatArea.ChatView.FetchFailed | frontend/src/components/ChatArea.jsx:138-142 | the error is set and loading ends |
| ChatArea.ChatView.LoadMore | frontend/src/components/ChatArea.jsx:231-234 | the page advances by one unless loading or `!hasMore` |
| ChatArea.ChatView.HandleScroll | frontend/src/components/ChatArea.jsx:237-245 | the page advances only with a container at `scrollTop === 0`, `hasMore` and not loading |
| ChatArea.ChatView.HandleSend | frontend/src/components/ChatArea.jsx:156-228 | the guard sends nothing and changes nothing; a text envelope is `'text'` with the untrimmed input, the selected id or null, and group null; a staged file is uploaded and its URL emitted, or the upload error is set; the input is cleared on both paths |
| ChatArea.ChatView.HandleFileSelect | frontend/src/components/ChatArea.jsx:248-260 | no file changes nothing; an oversized image sets the error and is not staged; any other file is staged |
| ChatArea.ChatView.AddEmoji | frontend/src/components/ChatArea.jsx:283-286 | the emoji is appended after the unchanged input and the picker closes |
| AdminPanel.FilterMessages | frontend/src/components/AdminPanel.jsx:414-417 | order-preserving subsequence of the messages whose truthy content or truthy sender name matches, each such message as often as in the input |
| AdminPanel.FilterMessagesEmptyTerm | frontend/src/components/AdminPanel.jsx:414-417 | with an empty term a message is listed exactly when it has content or a named sender; one with neither is never listed |
| AdminPanel.MessageMatches | frontend/src/components/AdminPanel.jsx:414-417 | the message search test; `AdminPanel.FilterMessagesEmptyTerm` states which messages an empty term lists |
| AdminPanel.SenderName | frontend/src/components/AdminPanel.jsx:416 | the sender's name, `''` when falsy; `AdminPanel.SenderLabel` states its use as the sender column |
| AdminPanel.FilterGroups | frontend/src/components/AdminPanel.jsx:420-422 | order-preserving subsequence of the groups whose name matches case-insensitively, each such group as often as in the input |
| AdminPanel.FilterGroupsEmptyTerm | frontend/src/components/AdminPanel.jsx:420-422 | an empty term keeps every group |
| AdminPanel.TargetRoom | frontend/src/components/AdminPanel.jsx:707-708 | a direct label carries the receiver id, a group label the group id |
| AdminPanel.TargetLabel | frontend/src/components/AdminPanel.jsx:707-708 | the target column's text, chosen by `AdminPanel.TargetRoom`; `AdminPanel.TargetLabelAgreesWithRoute` compares it with the server's routing |
| AdminPanel.TargetLabelAgreesWithRoute | frontend/src/components/AdminPanel.jsx:707-708 | the label names the room the server routed to exactly when the message does not carry both ids; with both, it says direct while the server sent to the group |
| AdminPanel.SenderLabel | frontend/src/components/AdminPanel.jsx:705 | the sender's name when truthy, otherwise `系统`; never empty |
| AdminPanel.LabelsOfContent | frontend/src/components/AdminPanel.jsx:718-730 | only text content is shown; an unknown type shows its raw name and the `[其他内容]` placeholder; the four known types get distinct names |
| AdminPanel.TypeLabel | frontend/src/components/AdminPanel.jsx:718-722 | the type column; `AdminPanel.LabelsOfContent` states the known names are distinct and an unknown type shows raw |
| AdminPanel.ContentPreview | frontend/src/components/AdminPanel.jsx:726-730 | the content column; `AdminPanel.LabelsOfContent` states only text content is shown |
| AdminPanel.ToggleStatus | frontend/src/components/AdminPanel.jsx:244 | `'banned'` exactly for `'active'`, `'active'` for everything else |
| AdminPanel.ToggleTwice | frontend/src/components/AdminPanel.jsx:244 | toggling twice restores exactly `'active'` and `'banned'` |
| AdminPanel.ToggleUpdatesStatusOnly | frontend/src/components/AdminPanel.jsx:246 | the toggle's body makes the server's update assign the status column alone |
| AdminPanel.TabResource | frontend/src/components/AdminPanel.jsx:159-179 | a resource exactly for the five known tabs, none for any other |
| AdminPanel.TabResourceInjective | frontend/src/components/AdminPanel.jsx:159-179 | different tabs never load the same resource |
| AdminPanel.EditForm | frontend/src/components/AdminPanel.jsx:261-269 | copies username, role and status, with the password blank |
| AdminPanel.EditKeepsPassword | frontend/src/components/AdminPanel.jsx:265 | saving an untouched edit form never assigns the password hash |
| AdminPanel.AdminView.constructor | frontend/src/components/AdminPanel.jsx:9-33 | the initial tab, form and notification; the tab effect's first run requests the user list |
| AdminPanel.AdminView.ShowNotification | frontend/src/components/AdminPanel.jsx:396-401 | the notification shows the message and its kind |
| AdminPanel.AdminView.SwitchTab | frontend/src/components/AdminPanel.jsx:159-179 | the tab is set; clicking the open tab loads nothing and leaves `loading` as it was, since the `[activeTab]` effect does not re-run; a new tab loads exactly its resource, if any, and then `loading` is true, as each fetch first calls `setLoading(true)`; a tab with no resource leaves `loading` as it was |
| AdminPanel.AdminView.FetchSettled | frontend/src/components/AdminPanel.jsx:68-157 | a completed fetch clears `loading`; a failed one shows that resource's error notice (`获取用户数据失败` and so on) and a successful one leaves the notification as it was |
| AdminPanel.AdminView.HandleEditUser | frontend/src/components/AdminPanel.jsx:261-269 | the user is selected and the form is the edit form |
| AdminPanel.AdminView.HandleUserSubmit | frontend/src/components/AdminPanel.jsx:182-219 | PUT for a selected user, else POST, with the form; on success the form resets to `'', '', 'user', 'active'`, the selection clears and the users reload; on failure the server's error or `操作失败`, with form and selection kept; loading ends |
| AdminPanel.AdminView.HandleToggleUserStatus | frontend/src/components/AdminPanel.jsx:242-258 | a PUT of the toggled status alone; the notice names unban or ban; loading ends |
| UserSearch.FilterUsers | frontend/src/components/AdminPanel.jsx:409-411 | order-preserving subsequence of the users whose name matches the term case-insensitively, each such user as often as in the input; the sidebar's `filterUsers` has the same shape |
| UserSearch.FilterUsersTerm | frontend/src/components/Sidebar.jsx:114-118 | an empty term keeps every user; the case of the term does not matter |
| Sidebar.ExcludeCurrent | frontend/src/components/Sidebar.jsx:41-43 | an order-preserving subsequence without the current user's id that keeps every other user as often as in the input |
| Sidebar.ExcludeNobody | frontend/src/components/Sidebar.jsx:42 | without a current user nobody is excluded |
| Sidebar.Online | frontend/src/components/Sidebar.jsx:46 | exactly the users with status `'online'`, in order, each as often as in the input |
| Sidebar.Offline | frontend/src/components/Sidebar.jsx:47 | exactly the users with status `'offline'`, in order, each as often as in the input |
| Sidebar.PartitionDisjoint | frontend/src/components/Sidebar.jsx:46-47 | the lists are disjoint, and any other status is in neither |
| Sidebar.StoredStatusesShowNobody | backend/server.js:60 | with the statuses the server stores (`'active'`, `'banned'`) both lists are empty |
| Sidebar.ShownOnlineUsers | frontend/src/components/Sidebar.jsx:114-123 | a shown online entry is an online user other than the current one whose name matches; an empty term shows them all |
| Sidebar.AddFriendBySection | frontend/src/components/Sidebar.jsx:174-184 | the add-friend button shows on expanded entries outside the friends list, even for a friend |
| Sidebar.ShowsAddFriend | frontend/src/components/Sidebar.jsx:174-184 | the add-friend condition; `Sidebar.AddFriendBySection` states it by section |
| Sidebar.SidebarView.constructor | frontend/src/components/Sidebar.jsx:13-24 | expanded, menu closed, no users |
| Sidebar.SidebarView.FetchUsers | frontend/src/components/Sidebar.jsx:28-58 | without a token go to `/login`; a reply replaces the list with everyone but the current user and re-derives both lists; a 401 drops the token and goes to `/login`; other failures change nothing |
| Sidebar.SidebarView.HandleUserSelect | frontend/src/components/Sidebar.jsx:89-94 | the user is always forwarded; the mobile menu closes only below 768 pixels |
| Sidebar.SidebarView.HandleLogout | frontend/src/components/Sidebar.jsx:126-130 | both `token` and `user` are removed, then `/login` |
| Sidebar.SidebarView.ToggleCollapse | frontend/src/components/Sidebar.jsx:133-135 | the flag flips, so two toggles restore it |
| Login.WithField | frontend/src/components/Login.jsx:50-56 | the named field takes the value and every other field is unchanged |
| Login.WithFieldLaws | frontend/src/components/Login.jsx:50-56 | the last write to a field wins; writes to different fields commute |
| Login.RegisterCheck | frontend/src/components/Login.jsx:106-126 | the request proceeds exactly when the passwords agree and a required invite code is given; a mismatch reports `两次输入的密码不一致` first |
| Login.PayloadOf | frontend/src/components/Login.jsx:113-126 | username and password always; the invite code exactly when required |
| Login.RoleHome | frontend/src/components/Login.jsx:87-91 | `/admin` exactly for `'admin'`, `/chat` for every other role |
| Login.ErrorText | frontend/src/components/Login.jsx:93 | the server's error when there is one, else the fallback |
| Login.LoginView.constructor | frontend/src/components/Login.jsx:9-19 | the login tab, an empty form, no messages, no invite required |
| Login.LoginView.CheckStoredToken | frontend/src/components/Login.jsx:23-36 | a stored token that verifies leads to `/chat`; one that fails is removed |
| Login.LoginView.LoadInviteStatus | frontend/src/components/Login.jsx:39-47 | the server's flag, or false when the request fails |
| Login.LoginView.HandleChange | frontend/src/components/Login.jsx:50-56 | the form becomes `WithField` of the old form |
| Login.LoginView.HandleTabChange | frontend/src/components/Login.jsx:58-62 | the tab is set, error and success are cleared |
| Login.LoginView.HandleLoginSubmit | frontend/src/components/Login.jsx:64-97 | on success, token and user are stored and the role's home is opened; a failed login stores nothing; a failed account fetch keeps the stored token; errors use the server's text or the fallback; loading ends |
| Login.LoginView.HandleRegisterSubmit | frontend/src/components/Login.jsx:99-148 | a failed check sets its error and sends nothing; otherwise the payload is posted; success clears passwords and invite code but keeps the username; loading ends |
| App.ProtectedRoute | frontend/src/App.jsx:59-65 | renders exactly with a token, otherwise redirects to `/login` |
| Wire.HasToken | frontend/src/App.jsx:60-61 | `localStorage.getItem('token')` is truthy; `App.ProtectedRoute` renders exactly when it holds |
| App.AdminRoute | frontend/src/App.jsx:68-76 | renders exactly with a token and a stored user whose role is `'admin'`, otherwise redirects to `/chat` |
| App.StoredRole | frontend/src/App.jsx:70 | the stored user's role, absent without a stored user; `App.AdminRouteImpliesProtected` shows no stored user means no admin panel |
| App.AdminRouteImpliesProtected | frontend/src/App.jsx:68-76 | what the admin guard admits, the chat guard admits; a missing stored user is redirected |
| App.RoutesSettle | frontend/src/App.jsx:105-124 | at most two redirects reach a page; `/`, unknown paths and `/chat` end on the chat layout with a token and on the login page without; the admin panel is reached only from `/admin` through its guard |
| App.Resolve | frontend/src/App.jsx:105-124 | the spinner exactly while loading, the login page exactly at `/login`, the chat layout exactly at `/chat` with a token, the admin panel exactly at `/admin` through its guard, and every redirect goes to `/login` or `/chat` |
| App.Follow | frontend/src/App.jsx:105-124 | redirects followed; `App.RoutesSettle` proves two hops always reach a page |
| App.LoginLandsOnRoleHome | frontend/src/App.jsx:115-122 | the page a role is sent to after login is the one the guards then render |
| App.StartupRequestReachesVerifier | frontend/src/App.jsx:25-27 | `Bearer <token>` passes the server's middleware exactly when the verifier accepts the token |
| App.AppState.constructor | frontend/src/App.jsx:16-18 | no user, no selection, loading |
| App.AppState.InitVerify | frontend/src/App.jsx:21-39 | loading ends on every path; the user is set only by a successful check; a token that fails is removed |
| App.AppState.HandleUserSelect | frontend/src/App.jsx:42-44 | the selection becomes the user |

## Left out

- Networking, the database, hashing and tokens are parameters and are not modelled. This covers HTTP, axios, socket.io transport, PostgreSQL, bcrypt and JWT. What a call returns is passed in: a reply datatype, a `Verifier` function or a `compare` function.
- The client calls endpoints that `backend/server.js` does not define: message history, search and deletion, upload, friends, groups, `/api/users/all`, `/api/messages/all` and the `/api/admin/...` routes. On the server a GET to any of them falls through to the `index.html` catch-all, other methods get a 404, and `GET /api/users/all` first meets the token and admin checks of the `/api/users/:id` route, which has no GET handler. The model passes the client the reply of each such call as a parameter and does not model what the server actually answers.
- Server routes defined but not modelled: `GET /api/auth/verify` and `GET /api/users/me` (their replies are parameters of the client), `GET` and `POST /api/users`, `DELETE /api/users/:id` and `GET /api/settings/invite-code-status`.
- The execution of the built `UPDATE` and its 404 reply are not modelled.
- `markInviteCodeAsUsed` is a flag in the register outcome.
- Logging is reduced to a counter of failed sends (`sendErrors`).
- Static serving, the `fs.existsSync` fallback, helmet and cors are not modelled.
- Timers are not modelled: the notification auto-hide, the three-second switch to the login tab after registering, and the 30-second sidebar refresh.
- The file-reading and formatting side of the client is not modelled: `FileReader` previews, upload progress, `isUploading`, locale date formatting, rendering and CSS.
- `frontend/src/index.jsx` is not part of this model.
- Client handlers outside the core are not modelled:
  - in the chat window: message search, `cancelFileUpload`, `online_users` and `connect_error`;
  - in the admin panel: the admin access check, delete, group and invite-code handlers;
  - in the sidebar: friends fetching and adding, and section toggles.
- The `receiver_id` that `handleFileUpload` puts in the upload form is part of a request to an endpoint that is not modelled.
- AdminPanel.AdminView.SwitchTab: only the start of a fetch is modelled, as the requested resource and `loading` set. The fetched lists, stats and invite codes, and the `error` text are not modelled. `AdminPanel.AdminView.FetchSettled` models the rest of the fetch: `setLoading(false)` and the error notice. It is a separate step, so the model does not tie a completion to the fetch that started it.
- Text.ToLower: lowercases ASCII letters only; `toLowerCase` also folds non-ASCII letters.
- Timestamps are integers; `new Date(a) - new Date(b)` on the stored timestamps becomes integer comparison.
- SocketServer.ChatServer.SendMessage: the stored row keeps `receiver_id` and `group_id` as the client sent them. PostgreSQL's coercion of strings into the INTEGER columns is not modelled. A failed insert does not advance the id counter, although PostgreSQL may consume a sequence value; real ids can have gaps, and the model's ids are consecutive.
- App.StoredRole: the stored user is either absent or a parsed record. A malformed `'user'` entry, which makes `JSON.parse` throw, is not modelled.
- App.Resolve: paths are compared as exact strings; react-router also matches them without regard to case and with a trailing slash, so `App.RoutesSettle` speaks of the exact paths only.
- SocketServer.ChatServer.Connect: the room socket.io creates for each socket's own id is not modelled; `rooms` holds only the rooms the handlers join.
- Concurrency is not modelled: socket events and React updates happen one at a time. Each handler reads the state current when it runs, and stale closures are not modelled.
- The verify endpoint's reply is taken to be the claims the middleware set (`App.AppState.InitVerify` receives `Option<Claims>`).
