/**
 * The settings page's Notion section: the message for an OAuth error code,
 * the connection status it loads, the database choice it saves, the
 * database it recommends for each table, and disconnecting.
 *
 * Every server reply is a parameter (`None` when the request or its JSON
 * failed); the page's state is the fields of `SettingsPage`.
 */
module Settings {
  import opened Common
  import opened NotionOAuth
  import ConfigureRoute

  const SelectAllThree: string := "Please select all three databases"
  const SavedMessage: string := "Database configuration saved successfully!"
  const SaveFailed: string := "Failed to save configuration"
  const SaveRequestFailed: string := "Failed to save database configuration"
  const Disconnected: string := "Successfully disconnected from Notion"
  const DisconnectFailed: string := "Failed to disconnect from Notion"
  const ConnectedMessage: string := "Successfully connected to Notion!"
  const AuthorizationFailed: string := "Authorization failed"
  const LoadFailed: string := "Failed to load databases"
  const LoadRequestFailed: string := "Failed to load databases from Notion"

  /** A database offered for selection, with its check against each table's required properties. */
  datatype DatabaseInfo = DatabaseInfo(
    id: string,
    title: string,
    properties: seq<string>,
    clients: Validation,
    projects: Validation,
    tasks: Validation)

  datatype SelectedDatabases = SelectedDatabases(clients: string, projects: string, tasks: string)

  datatype SavedConfiguration = SavedConfiguration(
    clientsDatabase: string, projectsDatabase: string, tasksDatabase: string, configuredAt: string)

  /** The status reply; the workspace description is kept as an opaque value. */
  datatype StatusReply = StatusReply(
    success: bool, configured: bool, workspace: Option<string>, configuration: Option<SavedConfiguration>)

  datatype SaveReply = SaveReply(success: bool, message: Option<string>)

  datatype DatabasesReply = DatabasesReply(success: bool, data: seq<DatabaseInfo>)

  const NoSelection: SelectedDatabases := SelectedDatabases("", "", "")

  /** The message for the `error` parameter the OAuth callback redirects with. */
  function ErrorMessage(code: string): (r: string)
    ensures code == "oauth_error" <==> r == "OAuth authorization failed"
    ensures code == "missing_code" <==> r == "Authorization code missing"
    ensures code == "expired_state" <==> r == "Authorization session expired"
    ensures code == "invalid_state" <==> r == "Invalid authorization state"
    ensures code == "token_exchange_failed" <==> r == "Failed to exchange authorization code"
    ensures code == "callback_error" <==> r == "Authorization callback error"
    ensures (code !in {"oauth_error", "missing_code", "expired_state", "invalid_state", "token_exchange_failed",
                       "callback_error"}) <==> r == AuthorizationFailed
  {
    var errorMessages := map[
      "oauth_error" := "OAuth authorization failed",
      "missing_code" := "Authorization code missing",
      "expired_state" := "Authorization session expired",
      "invalid_state" := "Invalid authorization state",
      "token_exchange_failed" := "Failed to exchange authorization code",
      "callback_error" := "Authorization callback error"];
    if code in errorMessages && errorMessages[code] != "" then errorMessages[code] else AuthorizationFailed
  }

  /** The check a database carries for one table. */
  function ValidationFor(db: DatabaseInfo, t: DatabaseType): Validation
  {
    match t
    case Clients => db.clients
    case Projects => db.projects
    case Tasks => db.tasks
  }

  /** The test `db.validation[type].valid`. */
  function ValidFor(t: DatabaseType): DatabaseInfo -> bool
  {
    (db: DatabaseInfo) => ValidationFor(db, t).valid
  }

  /** The databases list computed each check by `validateDatabaseStructure` on the database's own properties. */
  predicate Checked(db: DatabaseInfo)
  {
    forall t: DatabaseType :: ValidationFor(db, t).valid <==> MissingOf(db.properties, RequiredProperties(t)) == []
  }

  /** The body the page posts: the three selections, or nothing when any of them is empty. */
  function SaveRequest(sel: SelectedDatabases): (r: Option<ConfigureRoute.Configuration>)
    ensures r.None? <==> sel.clients == "" || sel.projects == "" || sel.tasks == ""
    ensures r.Some? ==> r.value == ConfigureRoute.Configuration(Some(sel.clients), Some(sel.projects), Some(sel.tasks))
  {
    if sel.clients == "" || sel.projects == "" || sel.tasks == "" then None
    else Some(ConfigureRoute.Configuration(Some(sel.clients), Some(sel.projects), Some(sel.tasks)))
  }

  /**
   * The page's own guard and the route's agree: a body the page posts is
   * never refused for a missing id, so with a session the answer is
   * decided by the connection tests alone.
   */
  lemma SaveRequestPassesRouteCheck(sel: SelectedDatabases, jar: map<string, string>,
                                    tests: (ConfigureRoute.TestOutcome, ConfigureRoute.TestOutcome, ConfigureRoute.TestOutcome),
                                    configuredAt: string)
    requires SaveRequest(sel).Some?
    requires ConfigureRoute.Truthy(ConfigureRoute.Cookie(jar, ConfigureRoute.AccessTokenCookie))
    ensures var r := ConfigureRoute.PostResponse(jar, SaveRequest(sel).value, tests, configuredAt);
      r.body.PostResults?
      && (r.status == 200 <==> ConfigureRoute.Settle(tests.0).success && ConfigureRoute.Settle(tests.1).success
                               && ConfigureRoute.Settle(tests.2).success)
  {
  }

  class SettingsPage {
    var isConnected: bool
    var workspaceInfo: Option<string>
    var databases: seq<DatabaseInfo>
    var configuration: Option<SavedConfiguration>
    var selected: SelectedDatabases
    var loading: bool
    var configuring: bool
    var error: Option<string>
    var success: Option<string>

    constructor ()
      ensures !isConnected && workspaceInfo.None? && databases == [] && configuration.None?
      ensures selected == NoSelection && loading && !configuring && error.None? && success.None?
    {
      isConnected := false;
      workspaceInfo := None;
      databases := [];
      configuration := None;
      selected := NoSelection;
      loading := true;
      configuring := false;
      error := None;
      success := None;
    }

    /** The callback's query parameters: `connected=true` reports success, a non-empty `error` its message. */
    method HandleUrlParams(connected: Option<string>, errorParam: Option<string>)
      modifies this
      ensures success == (if connected == Some("true") then Some(ConnectedMessage) else old(success))
      ensures error == (if errorParam.Some? && errorParam.value != "" then Some(ErrorMessage(errorParam.value))
                        else old(error))
      ensures isConnected == old(isConnected) && workspaceInfo == old(workspaceInfo) && databases == old(databases)
      ensures configuration == old(configuration) && selected == old(selected)
      ensures loading == old(loading) && configuring == old(configuring)
    {
      if connected == Some("true") {
        success := Some(ConnectedMessage);
      }
      if errorParam.Some? && errorParam.value != "" {
        error := Some(ErrorMessage(errorParam.value));
      }
    }

    /**
     * A successful status reply decides the connected flag (configured, or
     * a workspace is known) and copies a stored configuration into the
     * selections; anything else changes nothing but the loading flag.
     */
    method CheckConnectionStatus(reply: Option<StatusReply>)
      modifies this
      ensures !loading
      ensures reply.Some? && reply.value.success ==>
        isConnected == (reply.value.configured || reply.value.workspace.Some?)
        && workspaceInfo == reply.value.workspace
        && configuration == reply.value.configuration
        && selected == (if reply.value.configuration.Some? then
                          SelectedDatabases(reply.value.configuration.value.clientsDatabase,
                                            reply.value.configuration.value.projectsDatabase,
                                            reply.value.configuration.value.tasksDatabase)
                        else old(selected))
      ensures !(reply.Some? && reply.value.success) ==>
        isConnected == old(isConnected) && workspaceInfo == old(workspaceInfo)
        && configuration == old(configuration) && selected == old(selected)
      ensures databases == old(databases) && configuring == old(configuring)
      ensures error == old(error) && success == old(success)
    {
      if reply.Some? && reply.value.success {
        var data := reply.value;
        isConnected := data.configured || data.workspace.Some?;
        workspaceInfo := data.workspace;
        configuration := data.configuration;
        if data.configuration.Some? {
          selected := SelectedDatabases(data.configuration.value.clientsDatabase,
                                        data.configuration.value.projectsDatabase,
                                        data.configuration.value.tasksDatabase);
        }
      }
      loading := false;
    }

    /** The databases reply replaces the list on success and otherwise reports why it did not. */
    method LoadDatabases(reply: Option<DatabasesReply>)
      modifies this
      ensures !loading
      ensures reply.Some? && reply.value.success ==> databases == reply.value.data && error == old(error)
      ensures reply.Some? && !reply.value.success ==> databases == old(databases) && error == Some(LoadFailed)
      ensures reply.None? ==> databases == old(databases) && error == Some(LoadRequestFailed)
      ensures isConnected == old(isConnected) && workspaceInfo == old(workspaceInfo)
      ensures configuration == old(configuration) && selected == old(selected)
      ensures configuring == old(configuring) && success == old(success)
    {
      loading := true;
      if reply.None? {
        error := Some(LoadRequestFailed);
      } else if reply.value.success {
        databases := reply.value.data;
      } else {
        error := Some(LoadFailed);
      }
      loading := false;
    }

    /**
     * Saving: with a selection missing only the error is set and nothing is
     * posted; otherwise the three selections are posted and the reply
     * decides the message.
     */
    method SaveDatabaseConfiguration(reply: Option<SaveReply>) returns (posted: Option<ConfigureRoute.Configuration>)
      modifies this
      ensures posted == SaveRequest(old(selected))
      ensures posted.None? ==> error == Some(SelectAllThree) && success == old(success)
      ensures posted.Some? && reply.None? ==> error == Some(SaveRequestFailed) && success == old(success)
      ensures posted.Some? && reply.Some? && reply.value.success ==> error.None? && success == Some(SavedMessage)
      ensures posted.Some? && reply.Some? && !reply.value.success ==>
        success == old(success)
        && error == Some(if reply.value.message.Some? && reply.value.message.value != "" then reply.value.message.value
                         else SaveFailed)
      ensures posted.Some? ==> !configuring
      ensures posted.None? ==> configuring == old(configuring)
      ensures isConnected == old(isConnected) && workspaceInfo == old(workspaceInfo) && databases == old(databases)
      ensures configuration == old(configuration) && selected == old(selected) && loading == old(loading)
    {
      if selected.clients == "" || selected.projects == "" || selected.tasks == "" {
        error := Some(SelectAllThree);
        posted := None;
        return;
      }
      configuring := true;
      error := None;
      posted := Some(ConfigureRoute.Configuration(Some(selected.clients), Some(selected.projects), Some(selected.tasks)));
      if reply.None? {
        error := Some(SaveRequestFailed);
      } else if reply.value.success {
        success := Some(SavedMessage);
      } else {
        var message := reply.value.message;
        error := Some(if message.Some? && message.value != "" then message.value else SaveFailed);
      }
      configuring := false;
    }

    /** A disconnect the server accepts forgets everything the page knew about Notion and clears the selections. */
    method DisconnectNotion(ok: Option<bool>)
      modifies this
      ensures ok == Some(true) ==>
        !isConnected && workspaceInfo.None? && configuration.None? && databases == [] && selected == NoSelection
        && success == Some(Disconnected) && error == old(error)
      ensures ok != Some(true) ==>
        isConnected == old(isConnected) && workspaceInfo == old(workspaceInfo) && configuration == old(configuration)
        && databases == old(databases) && selected == old(selected)
        && success == old(success) && error == Some(DisconnectFailed)
      ensures loading == old(loading) && configuring == old(configuring)
    {
      if ok == Some(true) {
        isConnected := false;
        workspaceInfo := None;
        configuration := None;
        databases := [];
        selected := NoSelection;
        success := Some(Disconnected);
      } else {
        error := Some(DisconnectFailed);
      }
    }

    /** The first listed database valid for the table, or none when no database is. */
    function GetDatabaseRecommendation(t: DatabaseType): (r: Option<DatabaseInfo>)
      reads this
      ensures r.None? <==> forall i :: 0 <= i < |databases| ==> !ValidationFor(databases[i], t).valid
      ensures r.Some? ==> exists k :: FirstAt(ValidFor(t), databases, k) && databases[k] == r.value
    {
      Recommend(databases, t)
    }
  }

  /** The recommendation is the first database in the list that is valid for the table, or none. */
  function Recommend(databases: seq<DatabaseInfo>, t: DatabaseType): Option<DatabaseInfo>
  {
    Find(ValidFor(t), databases)
  }

  /**
   * With the list checked by `validateDatabaseStructure`, a database that
   * carries every required property by name is valid, so some database is
   * recommended and it has no missing property.
   */
  lemma CompleteDatabaseIsRecommended(databases: seq<DatabaseInfo>, t: DatabaseType, k: nat)
    requires forall i :: 0 <= i < |databases| ==> Checked(databases[i])
    requires k < |databases|
    requires forall j :: 0 <= j < |RequiredProperties(t)| ==> RequiredProperties(t)[j] in databases[k].properties
    ensures Recommend(databases, t).Some?
    ensures MissingOf(Recommend(databases, t).value.properties, RequiredProperties(t)) == []
  {
    AllPresentIsValid(databases[k].properties, RequiredProperties(t));
    assert Checked(databases[k]);
    assert ValidFor(t)(databases[k]);
    var r := Recommend(databases, t);
    var m :| FirstAt(ValidFor(t), databases, m) && databases[m] == r.value;
    assert Checked(databases[m]);
  }
}
