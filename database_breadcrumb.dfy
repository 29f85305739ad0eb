/**
 * The breadcrumb trail that names the database behind each page: which
 * source a crumb is tied to, and the colour and icon shown for a source.
 */
module DatabaseBreadcrumb {
  import opened Common

  datatype SourceType = ClientsSource | ProjectsSource | TasksSource

  datatype DatabaseSource = DatabaseSource(
    id: string,
    name: string,
    sourceType: SourceType,
    source: string,
    status: string)

  datatype NavigationItem = NavigationItem(labelText: string, href: Option<string>, current: Option<bool>)

  datatype BreadcrumbItem = BreadcrumbItem(
    labelText: string,
    href: Option<string>,
    current: Option<bool>,
    database: Option<DatabaseSource>)

  const DefaultDatabaseSources: seq<DatabaseSource> := [
    DatabaseSource("demo-clients", "Clients (Demo Data)", ClientsSource, "demo", "connected"),
    DatabaseSource("demo-projects", "Projects (Demo Data)", ProjectsSource, "demo", "connected"),
    DatabaseSource("demo-tasks", "Tasks (Demo Data)", TasksSource, "demo", "connected")
  ]

  /** The status dot: green, yellow or red for the three known states, gray otherwise. */
  function GetStatusColor(status: string): (r: string)
    ensures status == "connected" ==> r == "bg-green-500"
    ensures status == "syncing" ==> r == "bg-yellow-500"
    ensures status == "disconnected" ==> r == "bg-red-500"
    ensures status !in {"connected", "syncing", "disconnected"} ==> r == "bg-gray-400"
  {
    if status == "connected" then "bg-green-500"
    else if status == "syncing" then "bg-yellow-500"
    else if status == "disconnected" then "bg-red-500"
    else "bg-gray-400"
  }

  /** Notion and demo sources have their own icons; any other gets the page icon. */
  function GetSourceIcon(source: string): (r: string)
    ensures source == "notion" ==> r == "\U{1F5C3}\U{FE0F}"
    ensures source == "demo" ==> r == "\U{1F4CB}"
    ensures source !in {"notion", "demo"} ==> r == "\U{1F4C4}"
  {
    if source == "notion" then "\U{1F5C3}\U{FE0F}"
    else if source == "demo" then "\U{1F4CB}"
    else "\U{1F4C4}"
  }

  function OfType(t: SourceType): DatabaseSource -> bool
  {
    (db: DatabaseSource) => db.sourceType == t
  }

  /** The table a label names: 'client' first, then 'project', then 'task', ignoring case. */
  function LabelType(text: string): (r: Option<SourceType>)
    ensures Contains(ToLower(text), "client") ==> r == Some(ClientsSource)
    ensures !Contains(ToLower(text), "client") && Contains(ToLower(text), "project") ==> r == Some(ProjectsSource)
    ensures (!Contains(ToLower(text), "client") && !Contains(ToLower(text), "project")
             && Contains(ToLower(text), "task")) ==> r == Some(TasksSource)
    ensures r.None? <==> !Contains(ToLower(text), "client") && !Contains(ToLower(text), "project")
                         && !Contains(ToLower(text), "task")
  {
    var l := ToLower(text);
    if Contains(l, "client") then Some(ClientsSource)
    else if Contains(l, "project") then Some(ProjectsSource)
    else if Contains(l, "task") then Some(TasksSource)
    else None
  }

  /** One crumb: the item unchanged, with the first source of the label's table attached. */
  function WithDatabase(item: NavigationItem, databaseSources: seq<DatabaseSource>): (r: BreadcrumbItem)
    ensures r.labelText == item.labelText && r.href == item.href && r.current == item.current
    ensures LabelType(item.labelText).None? ==> r.database.None?
    ensures r.database.Some? ==> r.database.value in databaseSources
                                 && Some(r.database.value.sourceType) == LabelType(item.labelText)
                                 && exists k :: FirstAt(OfType(LabelType(item.labelText).value), databaseSources, k)
                                                && databaseSources[k] == r.database.value
    ensures LabelType(item.labelText).Some? ==>
      (r.database.None? <==> forall i :: 0 <= i < |databaseSources| ==>
                               databaseSources[i].sourceType != LabelType(item.labelText).value)
  {
    var t := LabelType(item.labelText);
    var database := if t.Some? then Find(OfType(t.value), databaseSources) else None;
    BreadcrumbItem(item.labelText, item.href, item.current, database)
  }

  /** Every navigation item in order, each with its database attached. */
  function CreateBreadcrumbWithDatabase(navigationItems: seq<NavigationItem>, databaseSources: seq<DatabaseSource>)
    : (r: seq<BreadcrumbItem>)
    ensures |r| == |navigationItems|
    ensures forall i :: 0 <= i < |r| ==> r[i] == WithDatabase(navigationItems[i], databaseSources)
  {
    MapSeq((item: NavigationItem) => WithDatabase(item, databaseSources), navigationItems)
  }

  /** With the demo sources, every crumb whose label names a table gets that table's demo source. */
  lemma DefaultSourcesAttachEverywhere(navigationItems: seq<NavigationItem>)
    ensures var r := CreateBreadcrumbWithDatabase(navigationItems, DefaultDatabaseSources);
      forall i :: 0 <= i < |r| ==> (r[i].database.Some? <==> LabelType(navigationItems[i].labelText).Some?)
  {
    var r := CreateBreadcrumbWithDatabase(navigationItems, DefaultDatabaseSources);
    forall i | 0 <= i < |r| && LabelType(navigationItems[i].labelText).Some?
      ensures r[i].database.Some?
    {
      var t := LabelType(navigationItems[i].labelText).value;
      var k := match t case ClientsSource => 0 case ProjectsSource => 1 case TasksSource => 2;
      assert DefaultDatabaseSources[k].sourceType == t;
    }
  }
}
