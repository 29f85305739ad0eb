/**
 * The demo fixture tables (clients, projects, tasks) and the lookups that
 * find, filter and join them along client -> project -> task.
 *
 * Every lookup takes the tables as a `Fixtures` value, so its contract holds
 * for any tables; `Demo` holds the tables the portal ships with.
 */
module DummyData {
  import opened Common
  import opened Entities

  datatype Fixtures = Fixtures(clients: seq<Client>, projects: seq<Project>, tasks: seq<Task>)

  /** A task joined with the project its `projectId` names (`undefined` when none does). */
  datatype TaskWithProject = TaskWithProject(task: Task, project: Option<Project>)

  /** A project joined with the client its `clientId` names (`undefined` when none does). */
  datatype ProjectWithClient = ProjectWithClient(project: Project, client: Option<Client>)

  const DemoClients: seq<Client> := [
    Client("1", "John Smith", "john@techcorp.com", "Tech Corp", Active),
    Client("2", "Sarah Johnson", "sarah@designstudio.com", "Creative Design Studio", Active),
    Client("3", "Michael Chen", "michael@startupventures.io", "Startup Ventures", Pending)
  ]

  const DemoProjects: seq<Project> := [
    Project("1", "Website Redesign",
      "Complete overhaul of the company website with modern design and improved UX",
      "1", Started, High, Some(20240120), Some(20240415), Some(15000)),
    Project("2", "Mobile App Development",
      "Native iOS and Android app for customer engagement",
      "1", NotStarted, Medium, Some(20240401), Some(20240830), Some(45000)),
    Project("3", "Brand Identity Package",
      "Complete brand identity design including logo, colors, and guidelines",
      "2", Started, High, Some(20240215), Some(20240330), Some(8000)),
    Project("4", "MVP Development",
      "Minimum viable product development for the startup",
      "3", OnHold, Urgent, Some(20240315), Some(20240601), Some(25000))
  ]

  const DemoTasks: seq<Task> := [
    Task("1", "Conduct user research and analysis",
      Some("Interview existing users and analyze current website analytics"),
      "1", Some("Alice Cooper"), Done, High, Some(20240201), Some(16), Some(18), ["research", "ux"]),
    Task("2", "Create wireframes and mockups",
      Some("Design initial wireframes for all key pages"),
      "1", Some("Bob Designer"), InProgress, High, Some(20240315), Some(24), Some(12), ["design", "wireframes"]),
    Task("3", "Develop responsive navigation",
      Some("Implement responsive navigation component"),
      "1", Some("Carol Developer"), Todo, Medium, Some(20240320), Some(12), None, ["development", "frontend"]),
    Task("4", "Set up CMS integration",
      Some("Configure headless CMS for content management"),
      "1", Some("Dave Backend"), Review, Medium, Some(20240325), Some(20), Some(22), ["development", "backend", "cms"]),
    Task("5", "Brand strategy workshop",
      Some("Conduct workshop with stakeholders to define brand direction"),
      "3", Some("Emma Brand"), Done, High, Some(20240220), Some(8), Some(10), ["branding", "strategy"]),
    Task("6", "Logo design concepts",
      Some("Create 3-5 initial logo concepts for client review"),
      "3", Some("Frank Designer"), InProgress, High, Some(20240310), Some(16), Some(8), ["design", "logo"]),
    Task("7", "Color palette development",
      Some("Develop comprehensive color palette with accessibility considerations"),
      "3", Some("Grace Color"), Todo, Medium, Some(20240312), Some(6), None, ["design", "colors"]),
    Task("8", "Technical architecture planning",
      Some("Define system architecture and technology stack"),
      "4", Some("Henry Architect"), Blocked, Urgent, Some(20240320), Some(24), None, ["architecture", "planning"]),
    Task("9", "Database schema design",
      Some("Design and implement initial database schema"),
      "4", Some("Ivy Database"), Todo, High, Some(20240325), Some(16), None, ["database", "backend"]),
    Task("10", "User authentication system",
      Some("Implement secure user authentication and authorization"),
      "4", Some("Jack Security"), Todo, High, Some(20240401), Some(20), None, ["security", "authentication"])
  ]

  const Demo: Fixtures := Fixtures(DemoClients, DemoProjects, DemoTasks)

  /** The first client with this id, or nothing exactly when no client has it. */
  function GetClientById(db: Fixtures, id: string): (r: Option<Client>)
    ensures r.Some? ==> r.value in db.clients && r.value.id == id
    ensures r.None? <==> forall i :: 0 <= i < |db.clients| ==> db.clients[i].id != id
  {
    Find((c: Client) => c.id == id, db.clients)
  }

  /** The first project with this id, or nothing exactly when no project has it. */
  function GetProjectById(db: Fixtures, id: string): (r: Option<Project>)
    ensures r.Some? ==> r.value in db.projects && r.value.id == id
    ensures r.None? <==> forall i :: 0 <= i < |db.projects| ==> db.projects[i].id != id
  {
    Find((p: Project) => p.id == id, db.projects)
  }

  /** Exactly the projects of this client, in fixture order. */
  function GetProjectsByClientId(db: Fixtures, clientId: string): (r: seq<Project>)
    ensures forall i :: 0 <= i < |r| ==> r[i] in db.projects && r[i].clientId == clientId
    ensures forall j :: 0 <= j < |db.projects| && db.projects[j].clientId == clientId ==> db.projects[j] in r
    ensures IsSubsequence(r, db.projects)
  {
    Filter(OfClient(clientId), db.projects)
  }

  /** The test `project.client_id === clientId`. */
  function OfClient(clientId: string): Project -> bool
  {
    (p: Project) => p.clientId == clientId
  }

  /** Exactly the tasks of this project, in fixture order. */
  function GetTasksByProjectId(db: Fixtures, projectId: string): (r: seq<Task>)
    ensures forall i :: 0 <= i < |r| ==> r[i] in db.tasks && r[i].projectId == projectId
    ensures forall j :: 0 <= j < |db.tasks| && db.tasks[j].projectId == projectId ==> db.tasks[j] in r
    ensures IsSubsequence(r, db.tasks)
  {
    Filter((t: Task) => t.projectId == projectId, db.tasks)
  }

  /** The task belongs to a project of this client. */
  predicate OwnedBy(db: Fixtures, t: Task, clientId: string)
  {
    exists k :: 0 <= k < |db.projects| && db.projects[k].clientId == clientId && db.projects[k].id == t.projectId
  }

  /** The ids of a client's projects (`clientProjects.map(project => project.id)`). */
  function ProjectIdsOf(db: Fixtures, clientId: string): seq<string>
  {
    MapSeq((p: Project) => p.id, GetProjectsByClientId(db, clientId))
  }

  lemma ProjectIdsOfIff(db: Fixtures, clientId: string)
    ensures forall t: Task :: t.projectId in ProjectIdsOf(db, clientId) <==> OwnedBy(db, t, clientId)
  {
    var ps := GetProjectsByClientId(db, clientId);
    var ids := ProjectIdsOf(db, clientId);
    forall t: Task ensures t.projectId in ids <==> OwnedBy(db, t, clientId) {
      if t.projectId in ids {
        var i :| 0 <= i < |ids| && ids[i] == t.projectId;
        var k :| 0 <= k < |db.projects| && db.projects[k] == ps[i];
      }
      if OwnedBy(db, t, clientId) {
        var k :| 0 <= k < |db.projects| && db.projects[k].clientId == clientId && db.projects[k].id == t.projectId;
        var i :| 0 <= i < |ps| && ps[i] == db.projects[k];
        assert ids[i] == t.projectId;
      }
    }
  }

  /** Exactly the tasks belonging to one of this client's projects, in task fixture order. */
  function GetTasksByClientId(db: Fixtures, clientId: string): (r: seq<Task>)
    ensures forall i :: 0 <= i < |r| ==> r[i] in db.tasks && OwnedBy(db, r[i], clientId)
    ensures forall j :: 0 <= j < |db.tasks| && OwnedBy(db, db.tasks[j], clientId) ==> db.tasks[j] in r
    ensures IsSubsequence(r, db.tasks)
  {
    ProjectIdsOfIff(db, clientId);
    Filter(InProjects(ProjectIdsOf(db, clientId)), db.tasks)
  }

  /** The test `projectIds.includes(task.project_id)`. */
  function InProjects(ids: seq<string>): Task -> bool
  {
    (t: Task) => t.projectId in ids
  }

  /** Every task, in order, with the project its `projectId` names attached. */
  function GetTasksWithProject(db: Fixtures): (r: seq<TaskWithProject>)
    ensures |r| == |db.tasks|
    ensures forall i :: 0 <= i < |r| ==> r[i].task == db.tasks[i]
    ensures forall i :: 0 <= i < |r| && r[i].project.Some? ==>
      r[i].project.value in db.projects && r[i].project.value.id == db.tasks[i].projectId
    ensures forall i :: 0 <= i < |r| ==>
      (r[i].project.None? <==> forall k :: 0 <= k < |db.projects| ==> db.projects[k].id != db.tasks[i].projectId)
  {
    MapSeq((t: Task) => TaskWithProject(t, GetProjectById(db, t.projectId)), db.tasks)
  }

  /** Every project, in order, with the client its `clientId` names attached. */
  function GetProjectsWithClient(db: Fixtures): (r: seq<ProjectWithClient>)
    ensures |r| == |db.projects|
    ensures forall i :: 0 <= i < |r| ==> r[i].project == db.projects[i]
    ensures forall i :: 0 <= i < |r| && r[i].client.Some? ==>
      r[i].client.value in db.clients && r[i].client.value.id == db.projects[i].clientId
    ensures forall i :: 0 <= i < |r| ==>
      (r[i].client.None? <==> forall k :: 0 <= k < |db.clients| ==> db.clients[k].id != db.projects[i].clientId)
  {
    MapSeq((p: Project) => ProjectWithClient(p, GetClientById(db, p.clientId)), db.projects)
  }

  /** Every task's project and every project's client exist, so both joins attach an entity everywhere. */
  lemma DemoIntegrity()
    ensures forall i :: 0 <= i < |Demo.tasks| ==> GetTasksWithProject(Demo)[i].project.Some?
    ensures forall i :: 0 <= i < |Demo.projects| ==> GetProjectsWithClient(Demo)[i].client.Some?
  {
    var ps := Demo.projects;
    var cs := Demo.clients;
    forall i | 0 <= i < |Demo.tasks| ensures GetTasksWithProject(Demo)[i].project.Some? {
      var pid := Demo.tasks[i].projectId;
      assert pid == "1" || pid == "3" || pid == "4";
      assert ps[0].id == "1" && ps[2].id == "3" && ps[3].id == "4";
    }
    forall i | 0 <= i < |Demo.projects| ensures GetProjectsWithClient(Demo)[i].client.Some? {
      var cid := Demo.projects[i].clientId;
      assert cid == "1" || cid == "2" || cid == "3";
      assert cs[0].id == "1" && cs[1].id == "2" && cs[2].id == "3";
    }
  }

  /** Ids are unique in each demo table, so each lookup by id has at most one candidate. */
  lemma DemoIdsUnique()
    ensures NoDuplicates(MapSeq((c: Client) => c.id, Demo.clients))
    ensures NoDuplicates(MapSeq((p: Project) => p.id, Demo.projects))
    ensures NoDuplicates(MapSeq((t: Task) => t.id, Demo.tasks))
  {
    assert MapSeq((c: Client) => c.id, Demo.clients) == ["1", "2", "3"];
    assert MapSeq((p: Project) => p.id, Demo.projects) == ["1", "2", "3", "4"];
    assert MapSeq((t: Task) => t.id, Demo.tasks) == ["1", "2", "3", "4", "5", "6", "7", "8", "9", "10"];
  }
}
