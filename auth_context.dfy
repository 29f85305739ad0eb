/**
 * The authentication context: the signed-in session's user mapped to the
 * portal's own user record, with the role and client it may see.
 *
 * The session is a parameter (`None` when nobody is signed in); the
 * session library, sign-out and navigation are not modelled.
 */
module AuthContext {
  import opened Common

  const AdminEmail: string := "admin@clientportal.com"
  const UnknownId: string := "unknown"
  const DefaultClientId: string := "1"

  datatype Role = ClientRole | AdminRole

  /** The portal's user; `clientId` is absent for an administrator. */
  datatype AuthUser = AuthUser(id: string, email: string, name: string, role: Role, clientId: Option<string>)

  /** The session's user as the session library gives it; its e-mail is asserted present. */
  datatype SessionUser = SessionUser(id: Option<string>, email: string, name: Option<string>)

  /** A demo account: the user and its password. */
  datatype MockUser = MockUser(user: AuthUser, password: string)

  const MockUsers: seq<MockUser> := [
    MockUser(AuthUser("1", "john@techcorp.com", "John Smith", ClientRole, Some("1")), "password123"),
    MockUser(AuthUser("2", "sarah@designstudio.com", "Sarah Johnson", ClientRole, Some("2")), "password123"),
    MockUser(AuthUser("3", "michael@startupventures.io", "Michael Chen", ClientRole, Some("3")), "password123"),
    MockUser(AuthUser("admin", AdminEmail, "Admin User", AdminRole, None), "admin123")
  ]

  predicate Truthy(s: Option<string>)
  {
    s.Some? && s.value != ""
  }

  /** The client a demo e-mail belongs to; every other e-mail falls back to client 1. */
  function GetMockClientIdForEmail(email: string): (r: string)
    ensures r in {"1", "2", "3"}
    ensures r == "2" <==> email == "sarah@designstudio.com"
    ensures r == "3" <==> email == "michael@startupventures.io"
    ensures r == "1" <==> email != "sarah@designstudio.com" && email != "michael@startupventures.io"
  {
    var emailToClient := map["john@techcorp.com" := "1", "sarah@designstudio.com" := "2",
                             "michael@startupventures.io" := "3"];
    if email in emailToClient && emailToClient[email] != "" then emailToClient[email] else DefaultClientId
  }

  /**
   * The user a session maps to: nobody without a session; otherwise the
   * administrator for the admin e-mail (and then no client), a client of
   * the e-mail's demo client for everyone else. The id falls back to the
   * e-mail and then `unknown`, the name to the e-mail's part before '@'.
   */
  function MappedUser(session: Option<SessionUser>): (r: Option<AuthUser>)
    ensures r.None? <==> session.None?
    ensures r.Some? ==> var u := session.value;
      r.value.email == u.email
      && r.value.id == (if Truthy(u.id) then u.id.value else if u.email != "" then u.email else UnknownId)
      && r.value.id != ""
      && (r.value.role == AdminRole <==> u.email == AdminEmail)
      && (r.value.clientId.None? <==> u.email == AdminEmail)
      && (r.value.clientId.Some? ==> r.value.clientId.value == GetMockClientIdForEmail(u.email))
      && (Truthy(u.name) ==> r.value.name == u.name.value)
      && (!Truthy(u.name) ==> r.value.name <= u.email && '@' !in r.value.name
                              && ('@' in u.email ==> u.email[|r.value.name|] == '@')
                              && ('@' !in u.email ==> r.value.name == u.email))
  {
    if session.None? then None
    else
      var u := session.value;
      var id := if Truthy(u.id) then u.id.value else if u.email != "" then u.email else UnknownId;
      var name := if Truthy(u.name) then u.name.value else Split(u.email, '@')[0];
      SplitHead(u.email, '@');
      if u.email == AdminEmail then Some(AuthUser(id, u.email, name, AdminRole, None))
      else Some(AuthUser(id, u.email, name, ClientRole, Some(GetMockClientIdForEmail(u.email))))
  }

  /** The effect's body: build the client record, then turn it into the administrator for the admin e-mail. */
  method MapSessionUser(session: Option<SessionUser>) returns (user: Option<AuthUser>)
    ensures user == MappedUser(session)
  {
    if session.Some? {
      var u := session.value;
      var mapped := AuthUser(
        if Truthy(u.id) then u.id.value else if u.email != "" then u.email else UnknownId,
        u.email,
        if Truthy(u.name) then u.name.value else Split(u.email, '@')[0],
        ClientRole,
        Some(GetMockClientIdForEmail(u.email)));
      if u.email == AdminEmail {
        mapped := mapped.(role := AdminRole);
        mapped := mapped.(clientId := None);
      }
      user := Some(mapped);
    } else {
      user := None;
    }
  }

  /** A session carrying a demo account's id, e-mail and name maps to exactly that account's user. */
  lemma MockUsersMapToThemselves(i: nat)
    requires i < |MockUsers|
    ensures var m := MockUsers[i].user;
      MappedUser(Some(SessionUser(Some(m.id), m.email, Some(m.name)))) == Some(m)
  {
  }

  /** A client user always sees some demo client, and only the administrator sees none. */
  lemma ClientIdPresentForClients(session: SessionUser)
    ensures var u := MappedUser(Some(session)).value;
      u.role == ClientRole <==> u.clientId.Some? && u.clientId.value in {"1", "2", "3"}
  {
  }
}
