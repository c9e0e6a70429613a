/** The page's render gate: from the session, the maintenance flag and the
    admin allowlist it picks the one screen the page shows. */
module Gate {
  import opened Records

  /** The five screens, in the order the page tests for them. */
  datatype View =
    | Maintenance   // "Website Under Maintenance"
    | AccessDenied  // "Access Denied" for a banned account
    | Login         // the login / sign-up form
    | AdminPanel    // dashboard, user management, logs, settings
    | Chat          // channel list and message window

  /** Emails granted the admin panel. */
  const AdminUsers: seq<string> := ["john@example.com", "admin@example.com"]

  /** `isAdmin`: there is a session and its email is on the allowlist. */
  predicate IsAdmin(session: Option<UserRow>, allowlist: seq<string>)
  {
    session.Some? && session.value.email in allowlist
  }

  /** `isBanned`: there is a session and its status is "Banned". */
  predicate IsBanned(session: Option<UserRow>)
  {
    session.Some? && session.value.status == Banned
  }

  /** The screen the page renders. Each screen is characterised directly by
      the inputs, without reference to the order of the tests. */
  function SelectView(session: Option<UserRow>, maintenanceMode: bool, allowlist: seq<string>): (v: View)
    ensures v == Maintenance <==> maintenanceMode && !IsAdmin(session, allowlist)
    ensures v == AccessDenied <==> IsBanned(session) && (IsAdmin(session, allowlist) || !maintenanceMode)
    ensures v == Login <==> session.None? && !maintenanceMode
    ensures v == AdminPanel <==> IsAdmin(session, allowlist) && !IsBanned(session)
    ensures v == Chat <==> session.Some? && !IsAdmin(session, allowlist) && !IsBanned(session) && !maintenanceMode
  {
    if maintenanceMode && !IsAdmin(session, allowlist) then Maintenance
    else if IsBanned(session) then AccessDenied
    else if session.None? then Login
    else if IsAdmin(session, allowlist) then AdminPanel
    else Chat
  }

  /** An admin is never shown the maintenance screen. */
  lemma AdminBypassesMaintenance(session: Option<UserRow>, maintenanceMode: bool, allowlist: seq<string>)
    requires IsAdmin(session, allowlist)
    ensures SelectView(session, maintenanceMode, allowlist) != Maintenance
    ensures !IsBanned(session) ==> SelectView(session, maintenanceMode, allowlist) == AdminPanel
  {
  }

  /** A banned admin is shown "Access Denied", whatever the flag says. */
  lemma BannedAdminIsDenied(session: Option<UserRow>, maintenanceMode: bool, allowlist: seq<string>)
    requires IsAdmin(session, allowlist) && IsBanned(session)
    ensures SelectView(session, maintenanceMode, allowlist) == AccessDenied
  {
  }

  /** During maintenance a banned non-admin sees the maintenance screen, not
      "Access Denied". */
  lemma BannedNonAdminSeesMaintenance(session: Option<UserRow>, allowlist: seq<string>)
    requires IsBanned(session) && !IsAdmin(session, allowlist)
    ensures SelectView(session, true, allowlist) == Maintenance
    ensures SelectView(session, false, allowlist) == AccessDenied
  {
  }

  /** The admin panel and the chat window are only shown to a signed-in,
      non-banned session; they are the only screens that read the session. */
  lemma SignedInScreensHaveSession(session: Option<UserRow>, maintenanceMode: bool, allowlist: seq<string>)
    ensures SelectView(session, maintenanceMode, allowlist) in {AdminPanel, Chat} ==>
              session.Some? && session.value.status != Banned
  {
  }

  /** An admin who flips the maintenance switch stays on the admin panel;
      only the screens of other sessions depend on the flag. */
  lemma MaintenanceSwitchKeepsAdminPanel(session: Option<UserRow>, maintenanceMode: bool, allowlist: seq<string>)
    requires SelectView(session, maintenanceMode, allowlist) == AdminPanel
    ensures SelectView(session, !maintenanceMode, allowlist) == AdminPanel
  {
  }

  /** Turning maintenance on sends every non-admin to the maintenance screen;
      turning it off restores what the session alone decides. */
  lemma MaintenanceOnlyBlocksNonAdmins(session: Option<UserRow>, allowlist: seq<string>)
    ensures !IsAdmin(session, allowlist) ==> SelectView(session, true, allowlist) == Maintenance
    ensures IsAdmin(session, allowlist) ==> SelectView(session, true, allowlist) == SelectView(session, false, allowlist)
  {
  }
}
