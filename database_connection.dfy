/**
 * The database step of onboarding: the Notion databases offered for each
 * of the three portal tables, the search over them, the property check,
 * and the selection the wizard keeps.
 */
module DatabaseConnection {
  import opened Common
  import opened Onboarding

  datatype DbType = ClientsDb | ProjectsDb | TasksDb

  /** A database offered for connection; an untyped one is offered for every table. */
  datatype MockDatabase = MockDatabase(id: string, name: string, url: string, properties: seq<string>, dbType: Option<DbType>)

  /** What each portal table asks of its database. */
  datatype TypeConfig = TypeConfig(key: DbType, name: string, requiredFields: seq<string>)

  const MockNotionDatabases: seq<MockDatabase> := [
    MockDatabase("db1", "Client Directory", "https://notion.so/client-directory-123",
      ["Name", "Email", "Company", "Status"], Some(ClientsDb)),
    MockDatabase("db2", "Customer Database", "https://notion.so/customer-db-456",
      ["Name", "Email", "Company"], Some(ClientsDb)),
    MockDatabase("db3", "Project Tracker", "https://notion.so/projects-789",
      ["Name", "Client", "Status", "Priority"], Some(ProjectsDb)),
    MockDatabase("db4", "Client Projects", "https://notion.so/client-projects-101",
      ["Title", "Client", "Status"], Some(ProjectsDb)),
    MockDatabase("db5", "Task Management", "https://notion.so/tasks-202",
      ["Name", "Project", "Status", "Assignee"], Some(TasksDb)),
    MockDatabase("db6", "To-Do List", "https://notion.so/todos-303",
      ["Task", "Project", "Status"], Some(TasksDb)),
    MockDatabase("db7", "Company Contacts", "https://notion.so/contacts-404",
      ["Name", "Email"], None),
    MockDatabase("db8", "Meeting Notes", "https://notion.so/meetings-505",
      ["Meeting", "Date", "Attendees"], None)
  ]

  /** The three tables, in the order clients, projects, tasks. */
  const DatabaseTypes: seq<TypeConfig> := [
    TypeConfig(ClientsDb, "Clients Database", ["Name/Title", "Email", "Company"]),
    TypeConfig(ProjectsDb, "Projects Database", ["Name/Title", "Client", "Status"]),
    TypeConfig(TasksDb, "Tasks Database", ["Name/Title", "Project", "Status"])
  ]

  function ConfigOf(t: DbType): (c: TypeConfig)
    ensures c in DatabaseTypes && c.key == t
  {
    match t
    case ClientsDb => DatabaseTypes[0]
    case ProjectsDb => DatabaseTypes[1]
    case TasksDb => DatabaseTypes[2]
  }

  /** The database chosen for table `t`, if any. */
  function Selected(sel: DatabaseSelection, t: DbType): Option<DatabaseRef>
  {
    match t
    case ClientsDb => sel.clients
    case ProjectsDb => sel.projects
    case TasksDb => sel.tasks
  }

  /** The search test: the name contains the query ignoring case, and the database is untyped or of table `t`. */
  function Shown(query: string, t: DbType): MockDatabase -> bool
  {
    (db: MockDatabase) => Contains(ToLower(db.name), ToLower(query)) && (db.dbType.None? || db.dbType == Some(t))
  }

  /** Exactly the offered databases that match the query and suit table `t`, in offered order. */
  function FilteredDatabases(databases: seq<MockDatabase>, query: string, t: DbType): (r: seq<MockDatabase>)
    ensures forall i :: 0 <= i < |r| ==>
      r[i] in databases && Contains(ToLower(r[i].name), ToLower(query)) && r[i].dbType in {None, Some(t)}
    ensures forall j :: (0 <= j < |databases| && Contains(ToLower(databases[j].name), ToLower(query))
                         && databases[j].dbType in {None, Some(t)}) ==> databases[j] in r
    ensures IsSubsequence(r, databases)
  {
    Filter(Shown(query, t), databases)
  }

  /** The part of a required field before its first '/', lower-cased (`Name/Title` gives `name`). */
  function FieldStem(field: string): (r: string)
    ensures '/' !in r && r <= ToLower(field)
    ensures |r| < |ToLower(field)| ==> ToLower(field)[|r|] == '/'
  {
    SplitHead(ToLower(field), '/');
    Split(ToLower(field), '/')[0]
  }

  /** `properties.some(prop => prop.toLowerCase().includes(stem))`. */
  function SomeProperty(properties: seq<string>, stem: string): (r: bool)
    ensures r <==> exists j :: 0 <= j < |properties| && Contains(ToLower(properties[j]), stem)
  {
    if properties == [] then false
    else if Contains(ToLower(properties[0]), stem) then true
    else
      var r := SomeProperty(properties[1..], stem);
      assert forall j :: 0 < j < |properties| ==> properties[j] == properties[1..][j - 1];
      r
  }

  /** `fields.some(field => properties.some(...))`: some field's stem is in some property name. */
  function SomeField(fields: seq<string>, properties: seq<string>): (r: bool)
    ensures r <==> exists i, j :: 0 <= i < |fields| && 0 <= j < |properties|
                                  && Contains(ToLower(properties[j]), FieldStem(fields[i]))
  {
    if fields == [] then false
    else if SomeProperty(properties, FieldStem(fields[0])) then true
    else
      var r := SomeField(fields[1..], properties);
      assert forall i :: 0 < i < |fields| ==> fields[i] == fields[1..][i - 1];
      r
  }

  /**
   * A database suits table `t` when some required field's stem occurs in
   * some property name, ignoring case: one match is enough.
   */
  function ValidateDatabaseProperties(db: MockDatabase, t: DbType): (r: bool)
    ensures r <==> exists i, j :: 0 <= i < |ConfigOf(t).requiredFields| && 0 <= j < |db.properties|
                                  && Contains(ToLower(db.properties[j]), FieldStem(ConfigOf(t).requiredFields[i]))
  {
    SomeField(ConfigOf(t).requiredFields, db.properties)
  }

  /**
   * A property named like a required field, ignoring case, makes the
   * database suit the table, whatever else it has or lacks.
   */
  lemma PropertyNamedLikeFieldIsValid(db: MockDatabase, t: DbType, i: nat, j: nat)
    requires i < |ConfigOf(t).requiredFields| && j < |db.properties|
    requires ToLower(db.properties[j]) == ToLower(ConfigOf(t).requiredFields[i])
    ensures ValidateDatabaseProperties(db, t)
  {
    var stem := FieldStem(ConfigOf(t).requiredFields[i]);
    PrefixIsContained(ToLower(db.properties[j]), stem);
  }

  /** A database without properties suits no table. */
  lemma NoPropertiesIsInvalid(db: MockDatabase, t: DbType)
    requires db.properties == []
    ensures !ValidateDatabaseProperties(db, t)
  {
  }

  /** Every typed demo database passes the check for the table it is offered for. */
  lemma MockDatabasesSuitTheirTable(k: nat)
    requires k < |MockNotionDatabases| && MockNotionDatabases[k].dbType.Some?
    ensures ValidateDatabaseProperties(MockNotionDatabases[k], MockNotionDatabases[k].dbType.value)
  {
    var db := MockNotionDatabases[k];
    var t := db.dbType.value;
    // The second property of each typed demo database is the table's second required field.
    assert k < 6 && db.properties[1] == ConfigOf(t).requiredFields[1];
    PropertyNamedLikeFieldIsValid(db, t, 1, 1);
  }

  /** Choosing a database for `t` sets that table's entry and no other. */
  function SetSelected(sel: DatabaseSelection, t: DbType, db: DatabaseRef): (r: DatabaseSelection)
    ensures Selected(r, t) == Some(db)
    ensures forall u :: u != t ==> Selected(r, u) == Selected(sel, u)
  {
    match t
    case ClientsDb => sel.(clients := Some(db))
    case ProjectsDb => sel.(projects := Some(db))
    case TasksDb => sel.(tasks := Some(db))
  }

  function IsMissing(sel: DatabaseSelection): TypeConfig -> bool
  {
    (c: TypeConfig) => Selected(sel, c.key).None?
  }

  /** The tables still without a database, in the order clients, projects, tasks. */
  function MissingDatabases(sel: DatabaseSelection): (r: seq<TypeConfig>)
    ensures forall t :: ConfigOf(t) in r <==> Selected(sel, t).None?
    ensures IsSubsequence(r, DatabaseTypes)
  {
    Filter(IsMissing(sel), DatabaseTypes)
  }

  function MissingMessage(missing: seq<TypeConfig>): string
  {
    "Please connect all databases: " + JoinWith(MapSeq((c: TypeConfig) => c.name, missing), ", ")
  }

  /** How many tables have a database: between 0 and 3, and 3 exactly when the wizard's database step is complete. */
  function GetCompletedSteps(sel: DatabaseSelection): (n: nat)
    ensures n <= |DatabaseTypes|
    ensures n == |DatabaseTypes| - |MissingDatabases(sel)|
  {
    FilterPartition(sel, DatabaseTypes);
    |Filter(IsChosen(sel), DatabaseTypes)|
  }

  function IsChosen(sel: DatabaseSelection): TypeConfig -> bool
  {
    (c: TypeConfig) => Selected(sel, c.key).Some?
  }

  /** The selected and the missing tables together are all of them. */
  lemma {:induction false} FilterPartition(sel: DatabaseSelection, s: seq<TypeConfig>)
    ensures |Filter(IsChosen(sel), s)| + |Filter(IsMissing(sel), s)| == |s|
  {
    if s != [] {
      FilterPartition(sel, s[1..]);
    }
  }

  /** Three completed steps is the same as the wizard's databases step being complete. */
  lemma AllConnectedIsStepComplete(data: OnboardingData)
    ensures GetCompletedSteps(data.databases) == 3 <==> IsStepCompleted(data, "databases")
  {
    var sel := data.databases;
    var missing := MissingDatabases(sel);
    if IsStepCompleted(data, "databases") {
      FilterNone(IsMissing(sel), DatabaseTypes);
    } else {
      var t :| Selected(sel, t).None?;
      assert ConfigOf(t) in missing;
    }
  }

  /** The database step's own state: the table being chosen, the search text per table, and the error shown. */
  class DatabaseConnectionStep {
    var currentDatabaseType: DbType
    var searchQueries: map<DbType, string>
    var errors: map<string, string>

    constructor ()
      ensures currentDatabaseType == ClientsDb && errors == map[]
      ensures searchQueries == map[ClientsDb := "", ProjectsDb := "", TasksDb := ""]
    {
      currentDatabaseType := ClientsDb;
      searchQueries := map[ClientsDb := "", ProjectsDb := "", TasksDb := ""];
      errors := map[];
    }

    function CurrentSearchQuery(): string
      reads this
    {
      if currentDatabaseType in searchQueries then searchQueries[currentDatabaseType] else ""
    }

    /** Records `database` for the current table; the other tables and the rest of the data are untouched. */
    method SelectDatabase(wizard: OnboardingWizard, database: MockDatabase)
      modifies wizard
      ensures wizard.data == old(wizard.data).(databases :=
        SetSelected(old(wizard.data.databases), currentDatabaseType, DatabaseRef(database.id, database.name, database.url)))
      ensures wizard.currentStep == old(wizard.currentStep)
    {
      var updated := SetSelected(wizard.data.databases, currentDatabaseType,
                                 DatabaseRef(database.id, database.name, database.url));
      wizard.UpdateOnboardingData(NoUpdates().(databases := Some(updated)));
    }

    /** Moves on only when all three tables have a database; otherwise names the missing ones. */
    method HandleNext(wizard: OnboardingWizard)
      modifies this, wizard
      ensures wizard.data == old(wizard.data)
      ensures var missing := MissingDatabases(old(wizard.data.databases));
        && (missing != [] ==> errors == map["databases" := MissingMessage(missing)]
                              && wizard.currentStep == old(wizard.currentStep))
        && (missing == [] ==> errors == map[] && wizard.currentStep == Next(old(wizard.currentStep)))
      ensures currentDatabaseType == old(currentDatabaseType) && searchQueries == old(searchQueries)
    {
      var missingDatabases := MissingDatabases(wizard.data.databases);
      if |missingDatabases| > 0 {
        errors := map["databases" := MissingMessage(missingDatabases)];
        return;
      }
      errors := map[];
      wizard.NextStep();
    }

    /** The current table has a database: it is not among the missing ones, and it always has one once the step is complete. */
    function IsCurrentStepCompleted(data: OnboardingData): (r: bool)
      reads this
      ensures r <==> ConfigOf(currentDatabaseType) !in MissingDatabases(data.databases)
      ensures IsStepCompleted(data, "databases") ==> r
    {
      Selected(data.databases, currentDatabaseType).Some?
    }

    /** Choosing a table's tab changes only the current table. */
    method ChooseDatabaseType(t: DbType)
      modifies this
      ensures currentDatabaseType == t
      ensures searchQueries == old(searchQueries) && errors == old(errors)
    {
      currentDatabaseType := t;
    }

    /** Typing in the search box sets the current table's query only. */
    method SetSearchQuery(query: string)
      modifies this
      ensures searchQueries == old(searchQueries)[currentDatabaseType := query]
      ensures currentDatabaseType == old(currentDatabaseType) && errors == old(errors)
    {
      searchQueries := searchQueries[currentDatabaseType := query];
    }
  }
}
