# Chat page state machine

This project models the client-side logic of a small chat web application whose
backend is a hosted database with a change feed. All of that logic lives in one
React component, `Page` (`app/page.js`). It has three parts:

- **The render gate.** From the signed-in session, the global maintenance flag
  and a hard-coded admin allowlist, the page picks exactly one of five screens:
  maintenance, "Access Denied", login/sign-up form, admin panel or chat.
  Module `Gate` models it as a pure function and proves what its precedence
  order implies.
- **The event handlers.** These are the login/sign-up submit, sending a
  message, fetching and appending messages, banning and unbanning a user, and
  the maintenance switch. Class `ChatPage.Page` holds the component's state
  variables as fields and has one method per handler.
  - Each remote call is a parameter: an `Outcome` for writes and a `Result`
    for reads.
  - Each method that calls the store returns the list of `Request`s it sent, in order. This makes
    "sends nothing" a checkable fact.
  - Each method's `modifies` clause names the only fields it may change.
    Its `ensures` clauses give their new values.
  - `Valid()` is kept by every method. It says that a held session has always
    been saved to the cookie.
- **The library operations the handlers rely on.**
  - `Text`: JavaScript's `String.prototype.trim`.
  - `UserList`: `Array.prototype.find` and `map` over the cached user rows, and
    the status counts on the admin dashboard.

Modules: `Records` (table rows and constants), `Remote` (call outcomes and
the request log), `Text`, `UserList`, `Gate`, `ChatPage`.

## Model

| member | source | states |
|---|---|---|
| `Gate.IsAdmin` | app/page.js:194 | `isAdmin`: there is a session and its email is on the allowlist (`adminUsers`, app/page.js:20) |
| `Gate.IsBanned` | app/page.js:195 | `isBanned`: there is a session and its status is "Banned" |
| `Gate.SelectView` | app/page.js:219-441 | Each of the five screens is characterised directly by the inputs: maintenance iff the flag is on and the session is not an admin; "Access Denied" iff banned and (admin or flag off); login iff no session and flag off; admin panel iff admin and not banned; chat iff signed in, not admin, not banned, flag off |
| `Gate.AdminBypassesMaintenance` | app/page.js:194-232 | An admin is never shown the maintenance screen; a non-banned admin always gets the admin panel |
| `Gate.BannedAdminIsDenied` | app/page.js:194-247 | A banned admin sees "Access Denied" whether or not maintenance is on |
| `Gate.BannedNonAdminSeesMaintenance` | app/page.js:219-247 | A banned non-admin sees the maintenance screen when the flag is on and "Access Denied" when it is off |
| `Gate.SignedInScreensHaveSession` | app/page.js:249-296 | The admin panel and chat screens are only reached with a session that is not banned |
| `Gate.MaintenanceSwitchKeepsAdminPanel` | app/page.js:219-296 | Flipping the flag never takes the admin panel away from the admin who sees it |
| `Gate.MaintenanceOnlyBlocksNonAdmins` | app/page.js:219-232 | With the flag on, every non-admin sees the maintenance screen; for an admin the flag makes no difference |
| `Text.TrimStart` | app/page.js:172 | The result is a suffix of the input; it is empty or starts with a non-whitespace character; everything removed is whitespace |
| `Text.TrimEnd` | app/page.js:172 | The result is a prefix of the input; it is empty or ends with a non-whitespace character; everything removed is whitespace |
| `Text.Trim` | app/page.js:172 | `trim()` is no longer than its input and neither starts nor ends with whitespace |
| `Text.TrimStripsOuterWhitespace` | app/page.js:172 | `trim()` is a contiguous piece of its input, and everything before and after that piece is whitespace |
| `Text.IsBlank` | app/page.js:172 | `!s.trim()` holds exactly when every character of `s` is JavaScript whitespace |
| `UserList.Find` | app/page.js:199-202 | `users.find` by id is None exactly when no row has that id; otherwise it is a row of the list carrying that id |
| `UserList.FindReturnsFirst` | app/page.js:199 | `find` returns the row at the first position carrying the id |
| `UserList.NextStatus` | app/page.js:204 | The new status is "Banned" exactly when the old one is "Active"; any other old status becomes "Active" |
| `UserList.NextStatusInvolutive` | app/page.js:204 | Toggling twice restores an "Active" or "Banned" status |
| `UserList.WithStatus` | app/page.js:212 | The mapped list has the same length; rows with the id get the new status with all other fields kept; every other row is unchanged |
| `UserList.WithStatusAbsentId` | app/page.js:199-212 | Updating an id that no row carries leaves the list equal to the old one |
| `UserList.WithStatusKeepsIds` | app/page.js:199-212 | The update changes no id, and `find` afterwards returns the same row with its new status |
| `UserList.CountStatus` | app/page.js:326-335 | A status count never exceeds the number of users |
| `UserList.ActivePlusBannedAtMostTotal` | app/page.js:317-335 | The "Active Users" and "Banned Users" counts together never exceed "Total Users" |
| `ChatPage.Page.constructor` | app/page.js:23-38 | The initial state: login mode, empty form and error, not loading, no session, the browser's cookie, no messages, channel "general", no channels, maintenance off, no users |
| `ChatPage.Page.RestoreSession` | app/page.js:41-46 | A saved cookie becomes the session; without one nothing changes |
| `ChatPage.Page.LoadChannels` | app/page.js:50-59 | Sends one channel select; the list is replaced on success and kept on error; nothing else changes |
| `ChatPage.Page.LoadMaintenanceMode` | app/page.js:63-73 | Sends one settings select; the flag takes the stored value on success and is kept on error |
| `ChatPage.Page.LoadUsers` | app/page.js:76-81 | Sends one users select; the cached list is replaced on success and kept on error |
| `ChatPage.Page.ToggleFormMode` | app/page.js:281 | The form alternates between login and sign-up; nothing else changes |
| `ChatPage.Page.FormComplete` | app/page.js:95 | The submit validation passes: email and password are non-empty, and in sign-up mode the username is too |
| `ChatPage.Page.Valid` | app/page.js:111-112 | The page's invariant: a held session is the one stored in the cookie. The cookie is written together with the session on login (lines 111-112) and sign-up (137-138), and a restored session is read from the cookie (42-45) |
| `ChatPage.Page.HandleSubmit` | app/page.js:89-145 | Only error, loading flag, session and cookie can change, and loading ends false. An incomplete form (missing email or password, or missing username in sign-up) sends nothing and sets "Please fill in all fields". A failed login lookup sets "Invalid credentials". Sign-up inserts the typed fields with the avatar URL or "/default-avatar.png" and the badges `["New User"]`. A failed insert sets the insert's own message and sends no lookup. A failed re-lookup sets "Login failed after signup". Every failure leaves session and cookie unchanged. Only a successful lookup sets the session, and the cookie with it |
| `ChatPage.Page.FetchMessages` | app/page.js:147-151 | Sends one select for the channel; the message list is replaced by the fetched rows on success and kept on error |
| `ChatPage.Page.SyncMessages` | app/page.js:153-157 | Without a session nothing is sent or changed; with one, the active channel's messages are fetched as above |
| `ChatPage.Page.OnMessageInserted` | app/page.js:160-162 | The delivered row is appended: the length grows by one, earlier messages are unchanged, and nothing else changes |
| `ChatPage.Page.SelectChannel` | app/page.js:447 | Only the active channel changes |
| `ChatPage.Page.HandleSendMessage` | app/page.js:170-192 | All-whitespace input sends nothing and changes nothing. Otherwise, with no session, reading `session.id` fails, so nothing is sent and an alert is raised. Otherwise exactly one insert is sent, carrying the text, `sender = session.id` and `channel_id = activeChannel`. Success clears the input and changes nothing else. Failure alerts and keeps the input |
| `ChatPage.Page.ToggleUserStatus` | app/page.js:197-217 | An id not in the cached list sends nothing, alerts and changes nothing. Otherwise one update carrying the flipped status of the first matching row is sent. On failure it alerts and changes nothing. On success the users list becomes `WithStatus` of the old list, and nothing else changes |
| `ChatPage.Page.ToggleMaintenanceMode` | app/page.js:424-430 | The local flag becomes the negation of its old value and the write sends that same value. A failed write does not restore the flag. Nothing else changes. An admin on the admin panel stays there |

## Left out

- `app/supabaseClient.js` is not part of this model. It only reads two environment variables and builds the store client.
- The store's query semantics are not modelled: `.eq` filters, how `.single()` treats zero or several matches, and network errors. Each call's answer is a parameter. A `.single()` answer is either a row or an error. For that reason the `!user` test at app/page.js:107 is folded into the error case.
- Subscription lifecycle is not modelled: opening the feed for the active channel and releasing it with `removeChannel` (app/page.js:158-167). Nor is the feed's channel filter. `OnMessageInserted` appends whatever row it is given.
- Asynchronous interleavings are not modelled. Examples are a fetch for a previous channel landing after a switch, and an insert racing the subscription. Each handler runs to completion in one step. As a result, `isLoading` being true while `handleSubmit` awaits is not observable; only its final value is.
- The cookie is modelled as a field holding the session value. The JSON encoding and the 30-day expiry are not modelled.
- Rendering, animation, the hard-coded log lines on the admin panel and `console.error` output are not modelled.
- The input `onChange` handlers (app/page.js:261-275, 485) are plain assignments. The model's fields are assigned directly instead.
- ChatPage.Page.HandleSendMessage: the null-session alert text is the TypeError wording of V8-based browsers. Other engines word it differently.
- Logging in right after signing up with the same credentials yields the same email. Whether this holds depends on the store, so it is not stated.
- Switching channels does not clear the message list. The list changes when the next fetch succeeds, or when the change feed appends a row to the old list. This follows the code: a failed fetch keeps the previous channel's messages.
- Toggling a status outside {"Active", "Banned"} writes "Active". This follows the code: every status other than "Active" is turned into "Active".
