/** The chat page component: its state variables become the fields of a
    class and each event handler a method. A handler runs from start to end
    in one step; what the store answers is passed in as parameters, every
    handler returns the requests it sent, in order, and its `modifies` clause
    names the only fields it may change. */
module ChatPage {
  import opened Records
  import opened Remote
  import Text
  import UserList
  import Gate

  const FillInAllFields: string := "Please fill in all fields"
  const InvalidCredentials: string := "Invalid credentials"
  const LoginFailedAfterSignup: string := "Login failed after signup"
  const SendFailedAlert: string := "Failed to send message. Please try again."
  const ToggleFailedAlert: string := "Failed to update user status."
  /** The TypeError raised by reading `session.id` while `session` is null. */
  const NullSessionError: string := "Cannot read properties of null (reading 'id')"

  class Page {
    // the login / sign-up form
    var isLogin: bool
    var email: string
    var password: string
    var username: string
    var avatarUrl: string
    var error: string
    var isLoading: bool
    var session: Option<UserRow>
    /** The browser's "chat_session" cookie. */
    var cookie: Option<UserRow>
    // the chat window
    var messages: seq<Message>
    var inputMessage: string
    var activeChannel: string
    var channels: seq<Channel>
    // the admin panel
    var maintenanceMode: bool
    var users: seq<UserRow>

    /** Every session the page holds has been saved in the cookie. Every
        handler keeps this invariant; no handler's behaviour depends on it. */
    ghost predicate Valid()
      reads this
    {
      session.Some? ==> cookie == session
    }

    /** The screen the page renders in this state. */
    function CurrentView(): Gate.View
      reads this
    {
      Gate.SelectView(session, maintenanceMode, Gate.AdminUsers)
    }

    /** The state on first render; `savedCookie` is what the browser holds. */
    constructor (savedCookie: Option<UserRow>)
      ensures Valid()
      ensures isLogin && email == "" && password == "" && username == "" && avatarUrl == ""
      ensures error == "" && !isLoading && session == None && cookie == savedCookie
      ensures messages == [] && inputMessage == "" && activeChannel == DefaultChannel && channels == []
      ensures !maintenanceMode && users == []
    {
      isLogin, email, password, username, avatarUrl := true, "", "", "", "";
      error, isLoading, session, cookie := "", false, None, savedCookie;
      messages, inputMessage, activeChannel, channels := [], "", DefaultChannel, [];
      maintenanceMode, users := false, [];
    }

    /** Mount effect: a saved cookie becomes the session. */
    method RestoreSession()
      requires Valid()
      modifies this`session
      ensures Valid()
      ensures session == if cookie.Some? then cookie else old(session)
    {
      if cookie.Some? {
        session := cookie;
      }
    }

    /** Mount effect `fetchChannels`: the channel list is replaced on success. */
    method LoadChannels(response: Result<seq<Channel>>) returns (calls: seq<Request>)
      requires Valid()
      modifies this`channels
      ensures Valid()
      ensures calls == [SelectChannels]
      ensures channels == if response.Ok? then response.value else old(channels)
    {
      calls := [SelectChannels];
      if response.Ok? {
        channels := response.value;
      }
    }

    /** Mount effect `fetchMaintenanceMode`: the flag takes the stored value on success. */
    method LoadMaintenanceMode(response: Result<bool>) returns (calls: seq<Request>)
      requires Valid()
      modifies this`maintenanceMode
      ensures Valid()
      ensures calls == [SelectMaintenanceMode]
      ensures maintenanceMode == if response.Ok? then response.value else old(maintenanceMode)
    {
      calls := [SelectMaintenanceMode];
      if response.Ok? {
        maintenanceMode := response.value;
      }
    }

    /** Mount effect `fetchUsers`: the cached user list is replaced on success. */
    method LoadUsers(response: Result<seq<UserRow>>) returns (calls: seq<Request>)
      requires Valid()
      modifies this`users
      ensures Valid()
      ensures calls == [SelectUsers]
      ensures users == if response.Ok? then response.value else old(users)
    {
      calls := [SelectUsers];
      if response.Ok? {
        users := response.value;
      }
    }

    /** The form's mode switch: login and sign-up alternate. */
    method ToggleFormMode()
      requires Valid()
      modifies this`isLogin
      ensures Valid()
      ensures isLogin == !old(isLogin)
    {
      isLogin := !isLogin;
    }

    /** Every field the current mode asks for is filled in. */
    predicate FormComplete()
      reads this
    {
      email != "" && password != "" && (isLogin || username != "")
    }

    /** `handleSubmit`. Only `error`, `isLoading`, `session` and `cookie` can
        change; the error is cleared first and loading always ends. `insert`
        answers the sign-up insert, `lookup` the credential lookup. */
    method HandleSubmit(insert: Outcome, lookup: Result<UserRow>) returns (calls: seq<Request>)
      requires Valid()
      modifies this`error, this`isLoading, this`session, this`cookie
      ensures Valid()
      ensures !isLoading
      // an incomplete form sends nothing
      ensures !old(FormComplete()) ==>
                calls == [] && error == FillInAllFields && session == old(session) && cookie == old(cookie)
      // login: one lookup by the typed email and password
      ensures old(FormComplete()) && old(isLogin) ==>
                calls == [SelectUserByCredentials(old(email), old(password))] &&
                (lookup.Err? ==> error == InvalidCredentials && session == old(session) && cookie == old(cookie)) &&
                (lookup.Ok? ==> error == "" && session == Some(lookup.value) && cookie == session)
      // sign-up: an insert, then (if it went through) the same lookup
      ensures old(FormComplete()) && !old(isLogin) ==>
                |calls| >= 1 &&
                calls[0] == InsertUser(SignupRecord(old(email), old(password), old(username),
                                                    if old(avatarUrl) == "" then DefaultAvatar else old(avatarUrl),
                                                    NewUserBadges)) &&
                (insert.Fail? ==> |calls| == 1 && error == insert.message && session == old(session) && cookie == old(cookie)) &&
                (insert.Pass? ==> calls == [calls[0], SelectUserByCredentials(old(email), old(password))]) &&
                (insert.Pass? && lookup.Err? ==> error == LoginFailedAfterSignup && session == old(session) && cookie == old(cookie)) &&
                (insert.Pass? && lookup.Ok? ==> error == "" && session == Some(lookup.value) && cookie == session)
    {
      error := "";
      isLoading := true;
      calls := [];
      if !FormComplete() {
        error := FillInAllFields;
      } else if isLogin {
        calls := calls + [SelectUserByCredentials(email, password)];
        if lookup.Err? {
          error := InvalidCredentials;
        } else {
          cookie := Some(lookup.value);
          session := Some(lookup.value);
        }
      } else {
        var record := SignupRecord(email, password, username,
                                   if avatarUrl != "" then avatarUrl else DefaultAvatar,
                                   NewUserBadges);
        calls := calls + [InsertUser(record)];
        if insert.Fail? {
          error := insert.message;
        } else {
          calls := calls + [SelectUserByCredentials(email, password)];
          if lookup.Err? {
            error := LoginFailedAfterSignup;
          } else {
            cookie := Some(lookup.value);
            session := Some(lookup.value);
          }
        }
      }
      isLoading := false;
    }

    /** `fetchMessages(channelId)`: the message list is replaced by the
        fetched rows on success and kept on failure. */
    method FetchMessages(channelId: string, response: Result<seq<Message>>) returns (calls: seq<Request>)
      requires Valid()
      modifies this`messages
      ensures Valid()
      ensures calls == [SelectMessages(channelId)]
      ensures messages == if response.Ok? then response.value else old(messages)
    {
      calls := [SelectMessages(channelId)];
      if response.Ok? {
        messages := response.value;
      }
    }

    /** The effect run when the session or the active channel changes: with
        no session it does nothing, otherwise it fetches the active channel. */
    method SyncMessages(response: Result<seq<Message>>) returns (calls: seq<Request>)
      requires Valid()
      modifies this`messages
      ensures Valid()
      ensures session.None? ==> calls == [] && messages == old(messages)
      ensures session.Some? ==> calls == [SelectMessages(activeChannel)]
      ensures session.Some? && response.Ok? ==> messages == response.value
      ensures session.Some? && response.Err? ==> messages == old(messages)
    {
      if session.None? {
        calls := [];
      } else {
        calls := FetchMessages(activeChannel, response);
      }
    }

    /** The change-feed callback: the inserted row goes at the end of the list. */
    method OnMessageInserted(row: Message)
      requires Valid()
      modifies this`messages
      ensures Valid()
      ensures |messages| == |old(messages)| + 1
      ensures messages[..|old(messages)|] == old(messages) && messages[|old(messages)|] == row
    {
      messages := messages + [row];
    }

    /** A click on a channel in the side bar. */
    method SelectChannel(channelId: string)
      requires Valid()
      modifies this`activeChannel
      ensures Valid()
      ensures activeChannel == channelId
    {
      activeChannel := channelId;
    }

    /** `handleSendMessage`. Blank input sends nothing and changes nothing;
        otherwise one insert is sent and, only if it succeeds, the input is
        cleared; a failure is reported in an alert. */
    method HandleSendMessage(insert: Outcome) returns (calls: seq<Request>, alert: Option<string>)
      requires Valid()
      modifies this`inputMessage
      ensures Valid()
      ensures
        if Text.AllWhitespace(old(inputMessage)) then
          calls == [] && alert == None && inputMessage == old(inputMessage)
        else if session.None? then
          calls == [] && alert == Some(NullSessionError) && inputMessage == old(inputMessage)
        else
          calls == [InsertMessage(NewMessage(old(inputMessage), session.value.id, activeChannel))] &&
          if insert.Pass? then alert == None && inputMessage == ""
          else alert == Some(SendFailedAlert) && inputMessage == old(inputMessage)
    {
      if Text.IsBlank(inputMessage) {
        return [], None;
      }
      if session.None? {
        return [], Some(NullSessionError);
      }
      calls := [InsertMessage(NewMessage(inputMessage, session.value.id, activeChannel))];
      if insert.Fail? {
        alert := Some(SendFailedAlert);
      } else {
        inputMessage := "";
        alert := None;
      }
    }

    /** `toggleUserStatus(userId)`. An id missing from the cached list sends
        nothing; otherwise the flipped status is written remotely and, only
        on success, into every cached row with that id. */
    method ToggleUserStatus(userId: string, update: Outcome) returns (calls: seq<Request>, alert: Option<string>)
      requires Valid()
      modifies this`users
      ensures Valid()
      ensures UserList.Find(old(users), userId).None? ==>
                calls == [] && alert == Some(ToggleFailedAlert) && users == old(users)
      ensures UserList.Find(old(users), userId).Some? ==>
                var status := UserList.NextStatus(UserList.Find(old(users), userId).value.status);
                calls == [UpdateUserStatus(userId, status)] &&
                (update.Fail? ==> alert == Some(ToggleFailedAlert) && users == old(users)) &&
                (update.Pass? ==> alert == None && users == UserList.WithStatus(old(users), userId, status))
    {
      var user := UserList.Find(users, userId);
      if user.None? {
        return [], Some(ToggleFailedAlert);
      }
      var status := UserList.NextStatus(user.value.status);
      calls := [UpdateUserStatus(userId, status)];
      if update.Fail? {
        alert := Some(ToggleFailedAlert);
      } else {
        users := UserList.WithStatus(users, userId, status);
        alert := None;
      }
    }

    /** The admin panel's maintenance switch: the local flag is negated before
        the write is sent, the write carries the same negated value, and a
        failed write leaves the local flag negated. */
    method ToggleMaintenanceMode(update: Outcome) returns (calls: seq<Request>)
      requires Valid()
      modifies this`maintenanceMode
      ensures Valid()
      ensures maintenanceMode == !old(maintenanceMode)
      ensures calls == [UpdateMaintenanceMode(maintenanceMode)]
      ensures old(CurrentView()) == Gate.AdminPanel ==> CurrentView() == Gate.AdminPanel
    {
      if CurrentView() == Gate.AdminPanel {
        Gate.MaintenanceSwitchKeepsAdminPanel(session, maintenanceMode, Gate.AdminUsers);
      }
      var newValue := !maintenanceMode;
      maintenanceMode := newValue;
      calls := [UpdateMaintenanceMode(newValue)];
    }
  }
}
