/**
 * The search endpoint: case-insensitive substring search over clients,
 * projects and tasks, a per-kind cap, a three-tier relevance sort
 * (exact title, title prefix, other) and a final cap on the response.
 *
 * The three entity tables are a parameter (`DummyData.Demo` in the portal).
 * The `limit` parameter is the already-parsed non-negative integer.
 */
module SearchRoute {
  import opened Common
  import opened Entities
  import opened DummyData

  const DefaultLimit: nat := 20
  const QueryRequired: string := "Search query is required"

  datatype Kind = ClientKind | ProjectKind | TaskKind

  datatype Metadata = Metadata(
    client: Option<string>,
    project: Option<string>,
    status: string,
    priority: Option<string>,
    databaseName: string)

  datatype SearchResult = SearchResult(
    kind: Kind,
    id: string,
    title: string,
    description: Option<string>,
    url: string,
    metadata: Metadata)

  /** One entry of the constant `databases` list in every successful response. */
  datatype SearchDatabase = SearchDatabase(id: string, name: string, dbType: string, source: string, status: string)

  const Databases: seq<SearchDatabase> := [
    SearchDatabase("demo-clients", "Clients (Demo Data)", "clients", "demo", "connected"),
    SearchDatabase("demo-projects", "Projects (Demo Data)", "projects", "demo", "connected"),
    SearchDatabase("demo-tasks", "Tasks (Demo Data)", "tasks", "demo", "connected")
  ]

  datatype Response =
    | BadRequest(error: string)
    | Ok(query: string, results: seq<SearchResult>, total: nat, databases: seq<SearchDatabase>)

  /** `q?.toLowerCase().trim()`: absent when the parameter is absent. */
  function NormalizeQuery(q: Option<string>): (r: Option<string>)
    ensures q.None? <==> r.None?
    ensures q.Some? ==> r.value == Trim(ToLower(q.value))
  {
    if q.None? then None else Some(Trim(ToLower(q.value)))
  }

  /** `!type || type === 'all' || type === kind`: a null or empty type searches everything. */
  predicate Wants(typ: Option<string>, kind: string)
  {
    typ.None? || typ.value == "" || typ.value == "all" || typ.value == kind
  }

  // ---------------------------------------------------------------------------
  // Matching
  // ---------------------------------------------------------------------------

  /** The query occurs in the lower-cased text. */
  predicate Hits(text: string, query: string)
  {
    Contains(ToLower(text), query)
  }

  /** An optional field hits only when present (`field?.toLowerCase().includes(q)`). */
  predicate HitsOpt(text: Option<string>, query: string)
  {
    text.Some? && Hits(text.value, query)
  }

  predicate AnyTagHits(tags: seq<string>, query: string)
  {
    exists i :: 0 <= i < |tags| && Hits(tags[i], query)
  }

  function ClientMatches(query: string): Client -> bool
  {
    (c: Client) => Hits(c.name, query) || Hits(c.email, query) || Hits(c.company, query)
  }

  function ProjectMatches(query: string): Project -> bool
  {
    (p: Project) => Hits(p.name, query) || Hits(p.description, query)
  }

  function TaskMatches(query: string): Task -> bool
  {
    (t: Task) => Hits(t.title, query) || HitsOpt(t.description, query)
      || HitsOpt(t.assignee, query) || AnyTagHits(t.tags, query)
  }

  // ---------------------------------------------------------------------------
  // Result records
  // ---------------------------------------------------------------------------

  function ClientResult(c: Client): (r: SearchResult)
    ensures r.kind == ClientKind && r.id == c.id && r.title == c.name
    ensures r.url == "/clients/" + c.id
    ensures r.description == Some(c.company + " - " + c.email)
  {
    SearchResult(ClientKind, c.id, c.name, Some(c.company + " - " + c.email), "/clients/" + c.id,
      Metadata(None, None, ClientStatusName(c.status), None, "Clients (Demo Data)"))
  }

  function ProjectResult(db: Fixtures, p: Project): (r: SearchResult)
    ensures r.kind == ProjectKind && r.id == p.id && r.title == p.name
    ensures r.url == "/clients/" + p.clientId + "?project=" + p.id
  {
    var client := GetClientById(db, p.clientId);
    SearchResult(ProjectKind, p.id, p.name, Some(p.description),
      "/clients/" + p.clientId + "?project=" + p.id,
      Metadata(if client.Some? then Some(client.value.name) else None, None,
        ProjectStatusName(p.status), Some(PriorityName(p.priority)), "Projects (Demo Data)"))
  }

  /**
   * The task's URL names its client through its project; with no such client
   * the template literal renders `undefined`.
   */
  function TaskResult(db: Fixtures, t: Task): (r: SearchResult)
    ensures r.kind == TaskKind && r.id == t.id && r.title == t.title
    ensures var p := GetProjectById(db, t.projectId);
      r.url == "/clients/" + (if p.Some? && GetClientById(db, p.value.clientId).Some? then p.value.clientId
                              else "undefined") + "?task=" + t.id
  {
    var project := GetProjectById(db, t.projectId);
    var client := if project.Some? then GetClientById(db, project.value.clientId) else None;
    var cid := if client.Some? then client.value.id else "undefined";
    SearchResult(TaskKind, t.id, t.title, t.description,
      "/clients/" + cid + "?task=" + t.id,
      Metadata(if client.Some? then Some(client.value.name) else None,
        if project.Some? then Some(project.value.name) else None,
        TaskStatusName(t.status), Some(PriorityName(t.priority)), "Tasks (Demo Data)"))
  }

  // ---------------------------------------------------------------------------
  // What the three loops collect
  // ---------------------------------------------------------------------------

  /**
   * The matching clients, capped at `limit` (empty when the type excludes
   * clients); below the cap, every matching client is there.
   */
  function ClientHits(db: Fixtures, query: string, typ: Option<string>, limit: nat): (r: seq<Client>)
    ensures |r| <= limit
    ensures !Wants(typ, "client") ==> r == []
    ensures forall i :: 0 <= i < |r| ==> r[i] in db.clients && ClientMatches(query)(r[i])
    ensures Wants(typ, "client") ==> var matching := Filter(ClientMatches(query), db.clients);
      r <= matching && |r| == (if limit < |matching| then limit else |matching|) && IsSubsequence(r, db.clients)
    ensures Wants(typ, "client") && |r| < limit ==>
      forall j :: 0 <= j < |db.clients| && ClientMatches(query)(db.clients[j]) ==> db.clients[j] in r
  {
    if Wants(typ, "client") then
      var matching := Filter(ClientMatches(query), db.clients);
      SubsequencePrefix(Take(matching, limit), matching, db.clients);
      Take(matching, limit)
    else []
  }

  function ProjectHits(db: Fixtures, query: string, typ: Option<string>, limit: nat): (r: seq<Project>)
    ensures |r| <= limit
    ensures !Wants(typ, "project") ==> r == []
    ensures forall i :: 0 <= i < |r| ==> r[i] in db.projects && ProjectMatches(query)(r[i])
    ensures Wants(typ, "project") ==> var matching := Filter(ProjectMatches(query), db.projects);
      r <= matching && |r| == (if limit < |matching| then limit else |matching|) && IsSubsequence(r, db.projects)
    ensures Wants(typ, "project") && |r| < limit ==>
      forall j :: 0 <= j < |db.projects| && ProjectMatches(query)(db.projects[j]) ==> db.projects[j] in r
  {
    if Wants(typ, "project") then
      var matching := Filter(ProjectMatches(query), db.projects);
      SubsequencePrefix(Take(matching, limit), matching, db.projects);
      Take(matching, limit)
    else []
  }

  function TaskHits(db: Fixtures, query: string, typ: Option<string>, limit: nat): (r: seq<Task>)
    ensures |r| <= limit
    ensures !Wants(typ, "task") ==> r == []
    ensures forall i :: 0 <= i < |r| ==> r[i] in db.tasks && TaskMatches(query)(r[i])
    ensures Wants(typ, "task") ==> var matching := Filter(TaskMatches(query), db.tasks);
      r <= matching && |r| == (if limit < |matching| then limit else |matching|) && IsSubsequence(r, db.tasks)
    ensures Wants(typ, "task") && |r| < limit ==>
      forall j :: 0 <= j < |db.tasks| && TaskMatches(query)(db.tasks[j]) ==> db.tasks[j] in r
  {
    if Wants(typ, "task") then
      var matching := Filter(TaskMatches(query), db.tasks);
      SubsequencePrefix(Take(matching, limit), matching, db.tasks);
      Take(matching, limit)
    else []
  }

  /** The client loop's records, one per hit, in order. */
  function ClientResults(cs: seq<Client>): (r: seq<SearchResult>)
    ensures |r| == |cs| && forall i :: 0 <= i < |cs| ==> r[i] == ClientResult(cs[i])
  {
    seq(|cs|, i requires 0 <= i < |cs| => ClientResult(cs[i]))
  }

  /** The project loop's records, one per hit, in order. */
  function ProjectResults(db: Fixtures, ps: seq<Project>): (r: seq<SearchResult>)
    ensures |r| == |ps| && forall i :: 0 <= i < |ps| ==> r[i] == ProjectResult(db, ps[i])
  {
    seq(|ps|, i requires 0 <= i < |ps| => ProjectResult(db, ps[i]))
  }

  /** The task loop's records, one per hit, in order. */
  function TaskResults(db: Fixtures, ts: seq<Task>): (r: seq<SearchResult>)
    ensures |r| == |ts| && forall i :: 0 <= i < |ts| ==> r[i] == TaskResult(db, ts[i])
  {
    seq(|ts|, i requires 0 <= i < |ts| => TaskResult(db, ts[i]))
  }

  /** One more loop iteration appends the next hit's record. */
  lemma ClientResultsSnoc(cs: seq<Client>, i: nat)
    requires i < |cs|
    ensures ClientResults(cs[..i + 1]) == ClientResults(cs[..i]) + [ClientResult(cs[i])]
  {
  }

  lemma ProjectResultsSnoc(db: Fixtures, ps: seq<Project>, i: nat)
    requires i < |ps|
    ensures ProjectResults(db, ps[..i + 1]) == ProjectResults(db, ps[..i]) + [ProjectResult(db, ps[i])]
  {
  }

  lemma TaskResultsSnoc(db: Fixtures, ts: seq<Task>, i: nat)
    requires i < |ts|
    ensures TaskResults(db, ts[..i + 1]) == TaskResults(db, ts[..i]) + [TaskResult(db, ts[i])]
  {
  }

  /** The `results` array before sorting: clients, then projects, then tasks. */
  function Collected(db: Fixtures, query: string, typ: Option<string>, limit: nat): seq<SearchResult>
  {
    ClientResults(ClientHits(db, query, typ, limit))
    + ProjectResults(db, ProjectHits(db, query, typ, limit))
    + TaskResults(db, TaskHits(db, query, typ, limit))
  }

  // ---------------------------------------------------------------------------
  // Relevance order
  // ---------------------------------------------------------------------------

  /** 0 for an exact title, 1 for a title starting with the query, 2 otherwise. */
  function Tier(r: SearchResult, query: string): (t: nat)
    ensures t <= 2
    ensures t == 0 <==> ToLower(r.title) == query
    ensures t <= 1 <==> query <= ToLower(r.title)
  {
    if ToLower(r.title) == query then 0 else if query <= ToLower(r.title) then 1 else 2
  }

  /** The comparator passed to `results.sort`. */
  function Compare(a: SearchResult, b: SearchResult, query: string): int
  {
    var aExact := ToLower(a.title) == query;
    var bExact := ToLower(b.title) == query;
    if aExact && !bExact then -1
    else if !aExact && bExact then 1
    else
      var aStarts := query <= ToLower(a.title);
      var bStarts := query <= ToLower(b.title);
      if aStarts && !bStarts then -1
      else if !aStarts && bStarts then 1
      else 0
  }

  /** The comparator orders results by tier and nothing else. */
  lemma CompareIsTierOrder(a: SearchResult, b: SearchResult, query: string)
    ensures Compare(a, b, query) < 0 <==> Tier(a, query) < Tier(b, query)
    ensures Compare(a, b, query) == 0 <==> Tier(a, query) == Tier(b, query)
    ensures Compare(a, b, query) > 0 <==> Tier(a, query) > Tier(b, query)
  {
  }

  function InTier(query: string, t: nat): SearchResult -> bool
  {
    (r: SearchResult) => Tier(r, query) == t
  }

  /**
   * The result of the stable `Array.prototype.sort` with `Compare`: since the
   * comparator only compares tiers, the results of each tier in their original
   * order, tier by tier.
   */
  function ByRelevance(rs: seq<SearchResult>, query: string): seq<SearchResult>
  {
    Filter(InTier(query, 0), rs) + Filter(InTier(query, 1), rs) + Filter(InTier(query, 2), rs)
  }

  /** Sorting puts exact matches first, then prefix matches, then the rest. */
  lemma ByRelevanceSorted(rs: seq<SearchResult>, query: string)
    ensures forall i, j :: 0 <= i < j < |ByRelevance(rs, query)| ==>
      Compare(ByRelevance(rs, query)[i], ByRelevance(rs, query)[j], query) <= 0
  {
    var s := ByRelevance(rs, query);
    forall i, j | 0 <= i < j < |s| ensures Compare(s[i], s[j], query) <= 0 {
      TierAt(rs, query, i);
      TierAt(rs, query, j);
      CompareIsTierOrder(s[i], s[j], query);
    }
  }

  /** The tier of the `i`-th sorted result is the tier of the bucket position `i` falls in. */
  lemma TierAt(rs: seq<SearchResult>, query: string, i: nat)
    requires i < |ByRelevance(rs, query)|
    ensures var n0 := |Filter(InTier(query, 0), rs)|;
      var n1 := |Filter(InTier(query, 1), rs)|;
      Tier(ByRelevance(rs, query)[i], query) == if i < n0 then 0 else if i < n0 + n1 then 1 else 2
  {
    var a := Filter(InTier(query, 0), rs);
    var b := Filter(InTier(query, 1), rs);
    var c := Filter(InTier(query, 2), rs);
    var s := a + b + c;
    if i < |a| {
      assert s[i] == a[i] && InTier(query, 0)(a[i]);
    } else if i < |a| + |b| {
      assert s[i] == b[i - |a|] && InTier(query, 1)(b[i - |a|]);
    } else {
      assert s[i] == c[i - |a| - |b|] && InTier(query, 2)(c[i - |a| - |b|]);
    }
  }

  /** Sorting neither adds nor drops results. */
  lemma ByRelevancePermutation(rs: seq<SearchResult>, query: string)
    ensures multiset(ByRelevance(rs, query)) == multiset(rs)
  {
    var s := ByRelevance(rs, query);
    forall x | true ensures multiset(s)[x] == multiset(rs)[x] {
      FilterMultiset(InTier(query, 0), rs, x);
      FilterMultiset(InTier(query, 1), rs, x);
      FilterMultiset(InTier(query, 2), rs, x);
    }
  }

  /** Results of equal relevance keep their collection order (clients, projects, tasks). */
  lemma ByRelevanceStable(rs: seq<SearchResult>, query: string, t: nat)
    requires t <= 2
    ensures Filter(InTier(query, t), ByRelevance(rs, query)) == Filter(InTier(query, t), rs)
  {
    var p := InTier(query, t);
    var a := Filter(InTier(query, 0), rs);
    var b := Filter(InTier(query, 1), rs);
    var c := Filter(InTier(query, 2), rs);
    FilterConcat(p, a + b, c);
    FilterConcat(p, a, b);
    Bucket(rs, query, t, 0);
    Bucket(rs, query, t, 1);
    Bucket(rs, query, t, 2);
  }

  /** Filtering one tier's bucket by a tier keeps all of it or none of it. */
  lemma Bucket(rs: seq<SearchResult>, query: string, t: nat, u: nat)
    ensures t == u ==> Filter(InTier(query, t), Filter(InTier(query, u), rs)) == Filter(InTier(query, u), rs)
    ensures t != u ==> Filter(InTier(query, t), Filter(InTier(query, u), rs)) == []
  {
    var bucket := Filter(InTier(query, u), rs);
    assert forall i :: 0 <= i < |bucket| ==> Tier(bucket[i], query) == u;
    if t == u {
      FilterAll(InTier(query, t), bucket);
    } else {
      FilterNone(InTier(query, t), bucket);
    }
  }

  // ---------------------------------------------------------------------------
  // The handler
  // ---------------------------------------------------------------------------

  /** The three loops of the handler: one record per hit, clients, then projects, then tasks. */
  method CollectResults(db: Fixtures, clients: seq<Client>, projects: seq<Project>, tasks: seq<Task>)
    returns (results: seq<SearchResult>)
    ensures results == ClientResults(clients) + ProjectResults(db, projects) + TaskResults(db, tasks)
  {
    results := [];
    var i := 0;
    while i < |clients|
      invariant 0 <= i <= |clients|
      invariant results == ClientResults(clients[..i])
    {
      ClientResultsSnoc(clients, i);
      results := results + [ClientResult(clients[i])];
      i := i + 1;
    }
    assert clients[..i] == clients;
    ghost var afterClients := results;

    i := 0;
    while i < |projects|
      invariant 0 <= i <= |projects|
      invariant results == afterClients + ProjectResults(db, projects[..i])
    {
      ProjectResultsSnoc(db, projects, i);
      results := results + [ProjectResult(db, projects[i])];
      i := i + 1;
    }
    assert projects[..i] == projects;
    ghost var afterProjects := results;

    i := 0;
    while i < |tasks|
      invariant 0 <= i <= |tasks|
      invariant results == afterProjects + TaskResults(db, tasks[..i])
    {
      TaskResultsSnoc(db, tasks, i);
      results := results + [TaskResult(db, tasks[i])];
      i := i + 1;
    }
    assert tasks[..i] == tasks;
  }

  method Search(db: Fixtures, q: Option<string>, typ: Option<string>, limit: nat) returns (resp: Response)
    ensures NormalizeQuery(q) == None || NormalizeQuery(q) == Some("") <==> resp == BadRequest(QueryRequired)
    ensures resp.Ok? ==>
      var query := NormalizeQuery(q).value;
      resp == Ok(query, Take(ByRelevance(Collected(db, query, typ, limit), query), limit),
                 |Collected(db, query, typ, limit)|, Databases)
  {
    var normalized := NormalizeQuery(q);
    if normalized.None? || normalized.value == "" {
      return BadRequest(QueryRequired);
    }
    var query := normalized.value;
    var clients := ClientHits(db, query, typ, limit);
    var projects := ProjectHits(db, query, typ, limit);
    var tasks := TaskHits(db, query, typ, limit);
    var results := CollectResults(db, clients, projects, tasks);
    var sorted := ByRelevance(results, query);
    resp := Ok(query, Take(sorted, limit), |results|, Databases);
  }

  // ---------------------------------------------------------------------------
  // Properties of what is collected
  // ---------------------------------------------------------------------------

  /** A missing or blank query is always rejected. */
  lemma BlankQueryRejected(q: Option<string>)
    requires q.None? || Blank(ToLower(q.value))
    ensures NormalizeQuery(q) == None || NormalizeQuery(q) == Some("")
  {
  }

  /**
   * Each kind contributes at most `limit` results, in a block of its own:
   * clients, then projects, then tasks, each block the results built from
   * that kind's hits in order. (The hit lists' own contracts say that every
   * hit is an entity of its table matching the query.)
   */
  lemma CollectedShape(db: Fixtures, query: string, typ: Option<string>, limit: nat)
    ensures var rs := Collected(db, query, typ, limit);
      var cs := ClientHits(db, query, typ, limit);
      var ps := ProjectHits(db, query, typ, limit);
      var ts := TaskHits(db, query, typ, limit);
      |cs| <= limit && |ps| <= limit && |ts| <= limit
      && |rs| == |cs| + |ps| + |ts|
      && rs[..|cs|] == ClientResults(cs)
      && rs[|cs|..|cs| + |ps|] == ProjectResults(db, ps)
      && rs[|cs| + |ps|..] == TaskResults(db, ts)
  {
    var a := ClientResults(ClientHits(db, query, typ, limit));
    var b := ProjectResults(db, ProjectHits(db, query, typ, limit));
    var c := TaskResults(db, TaskHits(db, query, typ, limit));
    ThreeBlocks(a, b, c);
  }

  /** Three lists laid end to end can be cut apart again at their lengths. */
  lemma ThreeBlocks<U>(a: seq<U>, b: seq<U>, c: seq<U>)
    ensures (a + b + c)[..|a|] == a
    ensures (a + b + c)[|a|..|a| + |b|] == b
    ensures (a + b + c)[|a| + |b|..] == c
  {
    assert (a + b + c)[..|a|] == a;
    assert (a + b + c)[|a|..|a| + |b|] == b;
  }

  /** The kind of the result at position `k`: its block decides it. */
  lemma KindAt(db: Fixtures, query: string, typ: Option<string>, limit: nat, k: nat)
    requires k < |Collected(db, query, typ, limit)|
    ensures var nc := |ClientHits(db, query, typ, limit)|;
      var np := |ProjectHits(db, query, typ, limit)|;
      Collected(db, query, typ, limit)[k].kind ==
        (if k < nc then ClientKind else if k < nc + np then ProjectKind else TaskKind)
  {
    BlockKind(db, ClientHits(db, query, typ, limit), ProjectHits(db, query, typ, limit),
      TaskHits(db, query, typ, limit), k);
  }

  lemma BlockKind(db: Fixtures, cs: seq<Client>, ps: seq<Project>, ts: seq<Task>, k: nat)
    requires k < |cs| + |ps| + |ts|
    ensures var rs := ClientResults(cs) + ProjectResults(db, ps) + TaskResults(db, ts);
      rs[k].kind == (if k < |cs| then ClientKind else if k < |cs| + |ps| then ProjectKind else TaskKind)
  {
    ResultsKinds(db, cs, ps, ts);
    ConcatKind(ClientResults(cs), ProjectResults(db, ps), TaskResults(db, ts), k);
  }

  lemma ResultsKinds(db: Fixtures, cs: seq<Client>, ps: seq<Project>, ts: seq<Task>)
    ensures forall i :: 0 <= i < |ClientResults(cs)| ==> ClientResults(cs)[i].kind == ClientKind
    ensures forall i :: 0 <= i < |ProjectResults(db, ps)| ==> ProjectResults(db, ps)[i].kind == ProjectKind
    ensures forall i :: 0 <= i < |TaskResults(db, ts)| ==> TaskResults(db, ts)[i].kind == TaskKind
  {
  }

  /** Three blocks of one kind each, concatenated: the position decides the kind. */
  lemma ConcatKind(a: seq<SearchResult>, b: seq<SearchResult>, c: seq<SearchResult>, k: nat)
    requires k < |a| + |b| + |c|
    requires forall i :: 0 <= i < |a| ==> a[i].kind == ClientKind
    requires forall i :: 0 <= i < |b| ==> b[i].kind == ProjectKind
    requires forall i :: 0 <= i < |c| ==> c[i].kind == TaskKind
    ensures (a + b + c)[k].kind == (if k < |a| then ClientKind else if k < |a| + |b| then ProjectKind else TaskKind)
  {
    if k < |a| {
      assert (a + b + c)[k] == a[k];
    } else if k < |a| + |b| {
      assert (a + b + c)[k] == b[k - |a|];
    } else {
      assert (a + b + c)[k] == c[k - |a| - |b|];
    }
  }

  /** A type of `client`, `project` or `task` yields results of that kind only. */
  lemma TypeRestrictsKind(db: Fixtures, query: string, typ: Option<string>, limit: nat)
    requires typ == Some("client") || typ == Some("project") || typ == Some("task")
    ensures var rs := Collected(db, query, typ, limit);
      forall k :: 0 <= k < |rs| ==>
        rs[k].kind == (if typ == Some("client") then ClientKind
                       else if typ == Some("project") then ProjectKind else TaskKind)
  {
    var rs := Collected(db, query, typ, limit);
    assert !Wants(typ, "client") || !Wants(typ, "project");
    forall k | 0 <= k < |rs|
      ensures rs[k].kind == (if typ == Some("client") then ClientKind
                             else if typ == Some("project") then ProjectKind else TaskKind)
    {
      KindAt(db, query, typ, limit, k);
    }
  }

  /** The response holds at most `limit` results, and `total` counts all collected before the cut. */
  lemma ResponseBounds(db: Fixtures, query: string, typ: Option<string>, limit: nat)
    ensures |Take(ByRelevance(Collected(db, query, typ, limit), query), limit)| <= limit
    ensures |ByRelevance(Collected(db, query, typ, limit), query)| == |Collected(db, query, typ, limit)|
    ensures |Collected(db, query, typ, limit)| <= 3 * limit
  {
    var rs := Collected(db, query, typ, limit);
    ByRelevancePermutation(rs, query);
    assert |multiset(ByRelevance(rs, query))| == |multiset(rs)|;
    CollectedShape(db, query, typ, limit);
  }
}
