/**
 * The database-configuration route: POST checks the Notion session and
 * the three chosen databases and stores the configuration when every
 * connection test passes; GET reports whether a configuration is stored;
 * DELETE forgets the Notion session and configuration.
 *
 * The request's cookies are a map; the connection tests' outcomes and the
 * time stamp are parameters.
 */
module ConfigureRoute {
  import opened Common
  import opened Http

  const AccessTokenCookie: string := "notion_access_token"
  const WorkspaceInfoCookie: string := "notion_workspace_info"
  const ConfigCookie: string := "notion_database_config"

  const NotConnected: string := "Not connected to Notion"
  const IdsRequired: string := "All database IDs are required"
  const ConnectionFailed: string := "Connection failed"
  const Saved: string := "Database configuration saved successfully"
  const SomeFailed: string := "Some database connections failed"
  const Disconnected: string := "Notion integration disconnected"

  /** The posted ids; a missing or empty id is falsy. */
  datatype Configuration = Configuration(clientsDatabase: Option<string>, projectsDatabase: Option<string>,
                                         tasksDatabase: Option<string>)

  /** What a connection test settled to: rejected, or fulfilled with its own success flag. */
  datatype TestOutcome = Rejected | Fulfilled(success: bool, error: Option<string>)

  datatype TestResult = TestResult(success: bool, error: Option<string>)

  datatype Results = Results(clients: TestResult, projects: TestResult, tasks: TestResult)

  datatype Body =
    | ErrorBody(error: string)
    | PostResults(success: bool, message: string, results: Results)
    | ConfigurationStatus(configured: bool, configuration: Option<string>, workspace: Option<string>)
    | DisconnectResult(success: bool, message: string)

  predicate Truthy(s: Option<string>)
  {
    s.Some? && s.value != ""
  }

  function Cookie(jar: map<string, string>, name: string): Option<string>
  {
    if name in jar then Some(jar[name]) else None
  }

  /** A rejected test counts as a failed connection. */
  function Settle(t: TestOutcome): (r: TestResult)
    ensures t.Rejected? ==> r == TestResult(false, Some(ConnectionFailed))
    ensures t.Fulfilled? ==> r.success == t.success
  {
    if t.Fulfilled? then TestResult(t.success, t.error) else TestResult(false, Some(ConnectionFailed))
  }

  /** The stored configuration: `JSON.stringify` of the three ids and the time stamp. */
  function ConfigJson(c: string, p: string, t: string, configuredAt: string): string
  {
    "{\"clientsDatabase\":\"" + c + "\",\"projectsDatabase\":\"" + p + "\",\"tasksDatabase\":\"" + t
    + "\",\"configured_at\":\"" + configuredAt + "\"}"
  }

  datatype PostOutcome = PostOutcome(status: int, body: Body, cookies: seq<CookieOp>)

  /**
   * No Notion session: 401. A missing id: 400, before any test. Otherwise
   * the tests decide: all passed stores the configuration for a year,
   * anything else is a 400 with the per-database results.
   */
  function PostResponse(jar: map<string, string>, config: Configuration, tests: (TestOutcome, TestOutcome, TestOutcome),
                        configuredAt: string): (r: PostOutcome)
    ensures !Truthy(Cookie(jar, AccessTokenCookie)) ==> r == PostOutcome(401, ErrorBody(NotConnected), [])
    ensures Truthy(Cookie(jar, AccessTokenCookie))
            && !(Truthy(config.clientsDatabase) && Truthy(config.projectsDatabase) && Truthy(config.tasksDatabase)) ==>
      r == PostOutcome(400, ErrorBody(IdsRequired), [])
    ensures r.cookies != [] <==>
      Truthy(Cookie(jar, AccessTokenCookie))
      && Truthy(config.clientsDatabase) && Truthy(config.projectsDatabase) && Truthy(config.tasksDatabase)
      && Settle(tests.0).success && Settle(tests.1).success && Settle(tests.2).success
    ensures r.cookies != [] ==>
      r.status == 200
      && r.cookies == [SetCookie(ConfigCookie, ConfigJson(config.clientsDatabase.value, config.projectsDatabase.value,
                                                          config.tasksDatabase.value, configuredAt), OneYear)]
    ensures r.status == 200 <==> r.cookies != []
    ensures r.body.PostResults? ==>
      r.body.results == Results(Settle(tests.0), Settle(tests.1), Settle(tests.2))
      && r.body.success == (r.status == 200)
  {
    if !Truthy(Cookie(jar, AccessTokenCookie)) then PostOutcome(401, ErrorBody(NotConnected), [])
    else if !Truthy(config.clientsDatabase) || !Truthy(config.projectsDatabase) || !Truthy(config.tasksDatabase) then
      PostOutcome(400, ErrorBody(IdsRequired), [])
    else
      var results := Results(Settle(tests.0), Settle(tests.1), Settle(tests.2));
      if results.clients.success && results.projects.success && results.tasks.success then
        PostOutcome(200, PostResults(true, Saved, results),
                    [SetCookie(ConfigCookie, ConfigJson(config.clientsDatabase.value, config.projectsDatabase.value,
                                                        config.tasksDatabase.value, configuredAt), OneYear)])
      else PostOutcome(400, PostResults(false, SomeFailed, results), [])
  }

  /** Before the tests run, their outcomes cannot affect the answer: no session or a missing id answer the same whatever they were. */
  lemma NoTestsBeforeValidation(jar: map<string, string>, config: Configuration,
                                t1: (TestOutcome, TestOutcome, TestOutcome), t2: (TestOutcome, TestOutcome, TestOutcome),
                                at1: string, at2: string)
    requires !Truthy(Cookie(jar, AccessTokenCookie))
             || !(Truthy(config.clientsDatabase) && Truthy(config.projectsDatabase) && Truthy(config.tasksDatabase))
    ensures PostResponse(jar, config, t1, at1) == PostResponse(jar, config, t2, at2)
  {
  }

  /** `POST`: the decision above, with the cookie set on the JSON response. */
  method Post(jar: map<string, string>, config: Configuration, tests: (TestOutcome, TestOutcome, TestOutcome),
              configuredAt: string) returns (response: Response<Body>)
    ensures fresh(response)
    ensures var r := PostResponse(jar, config, tests, configuredAt);
      response.status == r.status && response.body == Some(r.body) && response.cookieOps == r.cookies
  {
    var accessToken := Cookie(jar, AccessTokenCookie);
    if !Truthy(accessToken) {
      response := new Response.Json(ErrorBody(NotConnected), 401);
      return;
    }
    if !Truthy(config.clientsDatabase) || !Truthy(config.projectsDatabase) || !Truthy(config.tasksDatabase) {
      response := new Response.Json(ErrorBody(IdsRequired), 400);
      return;
    }
    var results := Results(Settle(tests.0), Settle(tests.1), Settle(tests.2));
    var allSuccessful := results.clients.success && results.projects.success && results.tasks.success;
    if allSuccessful {
      response := new Response.Json(PostResults(true, Saved, results), 200);
      response.Set(ConfigCookie, ConfigJson(config.clientsDatabase.value, config.projectsDatabase.value,
                                            config.tasksDatabase.value, configuredAt), OneYear);
    } else {
      response := new Response.Json(PostResults(false, SomeFailed, results), 400);
    }
  }

  /** `GET`: configured exactly when a non-empty configuration cookie is present; the stored texts are passed back. */
  function GetResponse(jar: map<string, string>): (r: Body)
    ensures r.ConfigurationStatus?
    ensures r.configured <==> ConfigCookie in jar && jar[ConfigCookie] != ""
    ensures r.configured ==> r.configuration == Some(jar[ConfigCookie])
    ensures !r.configured ==> r.configuration.None?
    ensures r.workspace == (if Truthy(Cookie(jar, WorkspaceInfoCookie)) then Cookie(jar, WorkspaceInfoCookie) else None)
  {
    var configCookie := Cookie(jar, ConfigCookie);
    var workspaceInfo := Cookie(jar, WorkspaceInfoCookie);
    var workspace := if Truthy(workspaceInfo) then workspaceInfo else None;
    if !Truthy(configCookie) then ConfigurationStatus(false, None, workspace)
    else ConfigurationStatus(true, configCookie, workspace)
  }

  /** `DELETE`: deletes the token, workspace and configuration cookies on the response. */
  method Delete() returns (response: Response<Body>)
    ensures fresh(response)
    ensures response.status == 200 && response.body == Some(DisconnectResult(true, Disconnected))
    ensures response.cookieOps == [DeleteCookie(AccessTokenCookie), DeleteCookie(WorkspaceInfoCookie), DeleteCookie(ConfigCookie)]
  {
    response := new Response.Json(DisconnectResult(true, Disconnected), 200);
    response.Delete(AccessTokenCookie);
    response.Delete(WorkspaceInfoCookie);
    response.Delete(ConfigCookie);
  }

  /** After a disconnect the browser holds none of the three cookies, keeps every other one, and a later GET reports nothing configured. */
  lemma DeleteForgetsConfiguration(jar: map<string, string>)
    ensures var after := ApplyCookies(jar, [DeleteCookie(AccessTokenCookie), DeleteCookie(WorkspaceInfoCookie),
                                            DeleteCookie(ConfigCookie)]);
      after == jar - {AccessTokenCookie, WorkspaceInfoCookie, ConfigCookie}
      && !GetResponse(after).configured
  {
    var ops := [DeleteCookie(AccessTokenCookie), DeleteCookie(WorkspaceInfoCookie), DeleteCookie(ConfigCookie)];
    assert ops[..2] == [ops[0], ops[1]] && ops[..2][..1] == [ops[0]] && [ops[0]][..0] == [];
    assert ApplyCookies(jar, [ops[0]]) == jar - {AccessTokenCookie};
    assert ApplyCookies(jar, ops[..2]) == jar - {AccessTokenCookie} - {WorkspaceInfoCookie};
  }

  /** A successful POST makes a later GET report the configuration it stored. */
  lemma PostThenGet(jar: map<string, string>, config: Configuration, tests: (TestOutcome, TestOutcome, TestOutcome),
                    configuredAt: string)
    requires PostResponse(jar, config, tests, configuredAt).status == 200
    ensures var after := ApplyCookies(jar, PostResponse(jar, config, tests, configuredAt).cookies);
      GetResponse(after).configured
  {
    var ops := PostResponse(jar, config, tests, configuredAt).cookies;
    assert ops[..0] == [];
    assert "{"[0] == ConfigJson(config.clientsDatabase.value, config.projectsDatabase.value,
                                config.tasksDatabase.value, configuredAt)[0];
  }
}
