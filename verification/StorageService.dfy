/** The storage report as the service builds it, and the batch purge. */
module StorageService {
  import opened Prelude
  import opened StorageTree

  class ProjectSummary {
    const raw: RawProject
    var totalFiles: int
    var totalBytes: int
    var folders: map<FileFolder, Folder>

    constructor (raw: RawProject)
      ensures this.raw == raw && totalFiles == 0 && totalBytes == 0 && folders == InitialFolders()
    {
      this.raw, totalFiles, totalBytes, folders := raw, 0, 0, InitialFolders();
    }

    method Add(f: RawFile)
      modifies this
      ensures folders == Added(old(folders), Listed(raw, f))
      ensures totalFiles == old(totalFiles) + Weight(f, ACTIVE_FILES)
      ensures totalBytes == old(totalBytes) + Weight(f, ACTIVE_BYTES)
    {
      var item := Item(f, raw.name, IsSigned(f));
      var folder := if f.folder in folders then folders[f.folder] else EmptyFolder(f.folder);
      folder := folder.(files := folder.files + [item]);
      if !f.isPurged {
        folder := folder.(totalFiles := folder.totalFiles + 1, totalBytes := folder.totalBytes + f.sizeBytes);
        totalFiles := totalFiles + 1;
        totalBytes := totalBytes + f.sizeBytes;
      }
      folders := folders[f.folder := folder];
    }

    /** What the summary shows of `files`. */
    ghost predicate Shows(owners: map<Uuid, string>, files: seq<RawFile>)
      reads this
    {
      && totalFiles == SizeOf(owners, files, OfProject(raw.id), ACTIVE_FILES)
      && totalBytes == SizeOf(owners, files, OfProject(raw.id), ACTIVE_BYTES)
      && folders == FoldersOf(raw, files)
    }
  }

  class ClientSummary {
    const clientSub: string
    const clientName: string
    var totalFiles: int
    var totalBytes: int
    var projectsCount: nat
    var projects: seq<ProjectSummary>

    constructor (clientSub: string, clientName: string)
      ensures this.clientSub == clientSub && this.clientName == clientName
      ensures totalFiles == 0 && totalBytes == 0 && projectsCount == 0 && projects == []
    {
      this.clientSub, this.clientName := clientSub, clientName;
      totalFiles, totalBytes, projectsCount, projects := 0, 0, 0, [];
    }

    /** The list holds the very objects of `all`, in the order of `ids`. */
    ghost predicate Lists(all: map<Uuid, ProjectSummary>, ids: seq<Uuid>)
      reads this
    {
      && projectsCount == |projects| == |ids|
      && forall j :: 0 <= j < |ids| ==> ids[j] in all && projects[j] == all[ids[j]]
    }

    method Push(p: ProjectSummary)
      modifies this`projects, this`projectsCount
      ensures projects == old(projects) + [p] && projectsCount == old(projectsCount) + 1
    {
      projects := projects + [p];
      projectsCount := projectsCount + 1;
    }

    /** Adds up the client's projects. */
    method Consolidate(ghost owners: map<Uuid, string>, ghost files: seq<RawFile>, ghost ids: seq<Uuid>)
      requires |projects| == |ids|
      requires forall i :: 0 <= i < |ids| ==> projects[i].raw.id == ids[i] && projects[i].Shows(owners, files)
      modifies this`totalFiles, this`totalBytes
      ensures totalFiles == SumOf(owners, files, Projects(ids), ACTIVE_FILES)
      ensures totalBytes == SumOf(owners, files, Projects(ids), ACTIVE_BYTES)
    {
      var count, bytes := 0, 0;
      for i := 0 to |projects|
        invariant count == SumOf(owners, files, Projects(ids[..i]), ACTIVE_FILES)
        invariant bytes == SumOf(owners, files, Projects(ids[..i]), ACTIVE_BYTES)
      {
        assert Projects(ids[..i + 1])[..i] == Projects(ids[..i]);
        count := count + projects[i].totalFiles;
        bytes := bytes + projects[i].totalBytes;
      }
      assert ids[..|projects|] == ids;
      totalFiles, totalBytes := count, bytes;
    }
  }

  /** A client is named after its first project. */
  function FirstName(projects: seq<RawProject>, key: string): string
    requires key in Keys(projects)
  {
    var before, last := projects[..|projects| - 1], projects[|projects| - 1];
    if key in Keys(before) then FirstName(before, key) else ClientName(last)
  }

  /** A client goes by the name in his first project, if that has one. */
  lemma {:induction false} ClientIsNamedAfterHisFirstProject(projects: seq<RawProject>, key: string) returns (i: nat)
    requires key in Keys(projects)
    ensures i < |projects| && ClientKey(projects[i]) == key && forall j :: 0 <= j < i ==> ClientKey(projects[j]) != key
    ensures FirstName(projects, key) == if projects[i].clientName != "" then projects[i].clientName else "CIMA (Interno)"
  {
    var n := |projects| - 1;
    if key in Keys(projects[..n]) {
      i := ClientIsNamedAfterHisFirstProject(projects[..n], key);
      assert projects[..n][i] == projects[i];
    } else {
      i := n;
      forall j | 0 <= j < n ensures ClientKey(projects[j]) != key {
        KeysAreOfProjects(projects[..n], j);
      }
    }
  }

  lemma {:induction false} KeysAreOfProjects(projects: seq<RawProject>, j: nat)
    requires j < |projects|
    ensures ClientKey(projects[j]) in Keys(projects)
  {
    if j < |projects| - 1 {
      KeysAreOfProjects(projects[..|projects| - 1], j);
    }
  }

  lemma {:induction false} NoProjectsYet(projects: seq<RawProject>, key: string)
    requires key !in Keys(projects)
    ensures IdsOf(projects, key) == []
  {
    if projects != [] {
      NoProjectsYet(projects[..|projects| - 1], key);
    }
  }

  lemma OneMoreProject(raw: seq<RawProject>, p: RawProject, key: string)
    ensures Keys(raw + [p]) == if ClientKey(p) in Keys(raw) then Keys(raw) else Keys(raw) + [ClientKey(p)]
    ensures IdsOf(raw + [p], key) == if ClientKey(p) == key then IdsOf(raw, key) + [p.id] else IdsOf(raw, key)
    ensures key in Keys(raw) ==> FirstName(raw + [p], key) == FirstName(raw, key)
    ensures key !in Keys(raw) && ClientKey(p) == key ==> FirstName(raw + [p], key) == ClientName(p) && IdsOf(raw, key) == []
  {
    assert (raw + [p])[..|raw|] == raw;
    if key !in Keys(raw) {
      NoProjectsYet(raw, key);
    }
  }

  ghost predicate ProjectsBuilt(projects: map<Uuid, ProjectSummary>, raw: seq<RawProject>)
    reads projects.Values
  {
    && (forall i :: 0 <= i < |raw| ==> raw[i].id in projects && projects[raw[i].id].raw == raw[i])
    && (forall id :: id in projects ==> id in Ids(raw) && projects[id].raw.id == id)
    && (forall id :: id in projects ==>
          projects[id].totalFiles == 0 && projects[id].totalBytes == 0 && projects[id].folders == InitialFolders())
  }

  function Ids(raw: seq<RawProject>): set<Uuid> {
    set p | p in raw :: p.id
  }

  lemma OneMoreSummary(projects: map<Uuid, ProjectSummary>, raw: seq<RawProject>, summary: ProjectSummary)
    requires ProjectsBuilt(projects, raw) && summary.raw.id !in projects
    requires summary.totalFiles == 0 && summary.totalBytes == 0 && summary.folders == InitialFolders()
    ensures ProjectsBuilt(projects[summary.raw.id := summary], raw + [summary.raw])
  {
    assert summary.raw in raw + [summary.raw];
    assert forall p :: p in raw ==> p in raw + [summary.raw];
  }

  /** The clients of the projects `named`, each holding the summaries of his projects among `listed`. */
  ghost predicate ClientsBuilt(clients: map<string, ClientSummary>, order: seq<string>, projects: map<Uuid, ProjectSummary>,
                               named: seq<RawProject>, listed: seq<RawProject>)
    reads clients.Values
  {
    && order == Keys(named) && (forall key :: key in clients <==> key in order)
    && (forall key :: key in clients ==> clients[key].clientSub == key && clients[key].clientName == FirstName(named, key))
    && (forall key :: key in clients ==> clients[key].Lists(projects, IdsOf(listed, key)))
  }

  lemma KnownClient(clients: map<string, ClientSummary>, order: seq<string>, projects: map<Uuid, ProjectSummary>,
                    p: RawProject, raw: seq<RawProject>)
    requires ClientsBuilt(clients, order, projects, raw, raw) && ClientKey(p) in clients
    ensures ClientsBuilt(clients, order, projects, raw + [p], raw)
  {
    OneMoreProject(raw, p, ClientKey(p));
    forall k | k in clients ensures FirstName(raw + [p], k) == FirstName(raw, k) {
      OneMoreProject(raw, p, k);
    }
  }

  lemma NewClient(clients: map<string, ClientSummary>, order: seq<string>, projects: map<Uuid, ProjectSummary>,
                  p: RawProject, raw: seq<RawProject>, c: ClientSummary)
    requires ClientsBuilt(clients, order, projects, raw, raw) && ClientKey(p) !in clients
    requires c.clientSub == ClientKey(p) && c.clientName == ClientName(p) && c.projectsCount == 0 && c.projects == []
    ensures ClientsBuilt(clients[ClientKey(p) := c], order + [ClientKey(p)], projects, raw + [p], raw)
  {
    var key := ClientKey(p);
    var more, keys, named := clients[key := c], order + [key], raw + [p];
    OneMoreProject(raw, p, key);
    assert keys == Keys(named) && forall k :: k in more <==> k in keys;
    forall k | k in more
      ensures more[k].clientSub == k && more[k].clientName == FirstName(named, k) && more[k].Lists(projects, IdsOf(raw, k))
    {
      OneMoreProject(raw, p, k);
      if k != key {
        assert clients[k].Lists(projects, IdsOf(raw, k));
      }
    }
  }

  /** Creates the client of a project unless he is known. */
  method AddClient(clients: map<string, ClientSummary>, order: seq<string>, ghost projects: map<Uuid, ProjectSummary>,
                   p: RawProject, ghost raw: seq<RawProject>)
    returns (moreClients: map<string, ClientSummary>, moreKeys: seq<string>)
    requires ClientsBuilt(clients, order, projects, raw, raw)
    ensures forall k :: k in moreClients ==> (k in clients && moreClients[k] == clients[k]) || fresh(moreClients[k])
    ensures ClientsBuilt(moreClients, moreKeys, projects, raw + [p], raw) && ClientKey(p) in moreClients
  {
    var key := ClientKey(p);
    if key in clients {
      KnownClient(clients, order, projects, p, raw);
      return clients, order;
    }
    var c := new ClientSummary(key, ClientName(p));
    NewClient(clients, order, projects, p, raw, c);
    return clients[key := c], order + [key];
  }

  /** Lists one more project under its client, and under no other. */
  method ListProject(ghost clients: map<string, ClientSummary>, client: ClientSummary, ghost order: seq<string>,
                     ghost projects: map<Uuid, ProjectSummary>, summary: ProjectSummary, ghost raw: seq<RawProject>)
    requires summary.raw.id !in projects
    requires ClientsBuilt(clients, order, projects, raw + [summary.raw], raw)
    requires ClientKey(summary.raw) in clients && client == clients[ClientKey(summary.raw)]
    modifies client
    ensures ClientsBuilt(clients, order, projects[summary.raw.id := summary], raw + [summary.raw], raw + [summary.raw])
  {
    ghost var p, key := summary.raw, ClientKey(summary.raw);
    ghost var all := projects[p.id := summary];
    client.Push(summary);
    forall k | k in clients ensures clients[k].Lists(all, IdsOf(raw + [p], k)) {
      OneMoreProject(raw, p, k);
      assert old(clients[k].Lists(projects, IdsOf(raw, k)));
      if k != key {
        assert clients[k] != client && clients[k].projects == old(clients[k].projects);
      }
    }
    assert order == Keys(raw + [p]);
    assert forall k :: k in clients ==> clients[k].clientSub == k && clients[k].clientName == FirstName(raw + [p], k);
  }

  /** The summary of one more project, put under its client. */
  method BuildProject(clients: map<string, ClientSummary>, order: seq<string>, projects: map<Uuid, ProjectSummary>,
                      p: RawProject, ghost raw: seq<RawProject>)
    returns (moreClients: map<string, ClientSummary>, moreKeys: seq<string>, summary: ProjectSummary)
    requires p.id !in projects
    requires ProjectsBuilt(projects, raw) && ClientsBuilt(clients, order, projects, raw, raw)
    modifies clients.Values
    ensures forall k :: k in moreClients ==> (k in clients && moreClients[k] == clients[k]) || fresh(moreClients[k])
    ensures fresh(summary) && summary.raw == p
    ensures ProjectsBuilt(projects[p.id := summary], raw + [p])
    ensures ClientsBuilt(moreClients, moreKeys, projects[p.id := summary], raw + [p], raw + [p])
  {
    moreClients, moreKeys := AddClient(clients, order, projects, p, raw);
    summary := new ProjectSummary(p);
    ListProject(moreClients, moreClients[ClientKey(p)], moreKeys, projects, summary, raw);
    assert ProjectsBuilt(projects, raw);
    OneMoreSummary(projects, raw, summary);
  }

  /** Project number `i`: a summary of its own, put under its client. */
  method BuildNext(clients: map<string, ClientSummary>, order: seq<string>, projects: map<Uuid, ProjectSummary>,
                   rawProjects: seq<RawProject>, i: nat)
    returns (moreClients: map<string, ClientSummary>, moreKeys: seq<string>, moreProjects: map<Uuid, ProjectSummary>)
    requires DistinctIds(rawProjects) && i < |rawProjects|
    requires ProjectsBuilt(projects, rawProjects[..i]) && ClientsBuilt(clients, order, projects, rawProjects[..i], rawProjects[..i])
    modifies clients.Values
    ensures forall k :: k in moreClients ==> (k in clients && moreClients[k] == clients[k]) || fresh(moreClients[k])
    ensures forall id :: id in moreProjects ==> (id in projects && moreProjects[id] == projects[id]) || fresh(moreProjects[id])
    ensures ProjectsBuilt(moreProjects, rawProjects[..i + 1])
    ensures ClientsBuilt(moreClients, moreKeys, moreProjects, rawProjects[..i + 1], rawProjects[..i + 1])
  {
    IdIsNew(rawProjects, i);
    assert rawProjects[..i] + [rawProjects[i]] == rawProjects[..i + 1];
    var summary: ProjectSummary;
    moreClients, moreKeys, summary := BuildProject(clients, order, projects, rawProjects[i], rawProjects[..i]);
    moreProjects := projects[rawProjects[i].id := summary];
  }

  method BuildProjects(rawProjects: seq<RawProject>)
    returns (clients: map<string, ClientSummary>, order: seq<string>, projects: map<Uuid, ProjectSummary>)
    requires DistinctIds(rawProjects)
    ensures fresh(clients.Values) && fresh(projects.Values)
    ensures ProjectsBuilt(projects, rawProjects) && ClientsBuilt(clients, order, projects, rawProjects, rawProjects)
  {
    clients, order, projects := map[], [], map[];
    for i := 0 to |rawProjects|
      invariant forall k :: k in clients ==> fresh(clients[k])
      invariant forall id :: id in projects ==> fresh(projects[id])
      invariant ProjectsBuilt(projects, rawProjects[..i])
      invariant ClientsBuilt(clients, order, projects, rawProjects[..i], rawProjects[..i])
    {
      clients, order, projects := BuildNext(clients, order, projects, rawProjects, i);
    }
    assert rawProjects[..|rawProjects|] == rawProjects;
  }

  lemma IdIsNew(rawProjects: seq<RawProject>, i: nat)
    requires DistinctIds(rawProjects) && i < |rawProjects|
    ensures rawProjects[i].id !in Ids(rawProjects[..i])
  {
  }

  lemma SizeOfStep(owners: map<Uuid, string>, files: seq<RawFile>, i: nat, scope: Scope, m: Measure)
    requires i < |files|
    ensures SizeOf(owners, files[..i + 1], scope, m) ==
            SizeOf(owners, files[..i], scope, m) + if Under(owners, files[i], scope) then Weight(files[i], m) else 0
  {
    assert files[..i + 1][..i] == files[..i];
  }

  function AddedWeight(f: RawFile, p: RawProject, m: Measure): int {
    if f.projectId == p.id then Weight(f, m) else 0
  }

  lemma AnotherFile(owners: map<Uuid, string>, files: seq<RawFile>, i: nat, p: RawProject)
    requires i < |files| && p.id in owners
    ensures forall m :: SizeOf(owners, files[..i + 1], OfProject(p.id), m) == SizeOf(owners, files[..i], OfProject(p.id), m)
                                                                             + AddedWeight(files[i], p, m)
    ensures FoldersOf(p, files[..i + 1]) ==
      if files[i].projectId == p.id then Added(FoldersOf(p, files[..i]), Listed(p, files[i])) else FoldersOf(p, files[..i])
  {
    assert files[..i + 1][..i] == files[..i];
  }

  ghost predicate AllShow(projects: map<Uuid, ProjectSummary>, owners: map<Uuid, string>, files: seq<RawFile>)
    reads projects.Values
  {
    forall id :: id in projects ==> projects[id].raw.id == id && projects[id].Shows(owners, files)
  }

  /** Adds the next file to its project, if that is known. */
  method AddFile(projects: map<Uuid, ProjectSummary>, ghost owners: map<Uuid, string>, ghost files: seq<RawFile>,
                 ghost i: nat, f: RawFile)
    requires projects.Keys == owners.Keys && i < |files| && f == files[i]
    requires AllShow(projects, owners, files[..i])
    modifies projects.Values
    ensures AllShow(projects, owners, files[..i + 1])
  {
    if f.projectId in projects {
      projects[f.projectId].Add(f);
    }
    forall id | id in projects ensures projects[id].Shows(owners, files[..i + 1]) {
      AnotherFile(owners, files, i, projects[id].raw);
      assert old(projects[id].Shows(owners, files[..i]));
    }
  }

  method AddFiles(projects: map<Uuid, ProjectSummary>, ghost owners: map<Uuid, string>, rawFiles: seq<RawFile>)
    returns (totalFiles: int, totalBytes: int, purgedFiles: int, purgedBytes: int)
    requires projects.Keys == owners.Keys && AllShow(projects, owners, [])
    modifies projects.Values
    ensures AllShow(projects, owners, rawFiles)
    ensures totalFiles == SizeOf(owners, rawFiles, Everything, ACTIVE_FILES)
    ensures totalBytes == SizeOf(owners, rawFiles, Everything, ACTIVE_BYTES)
    ensures purgedFiles == SizeOf(owners, rawFiles, Everything, PURGED_FILES)
    ensures purgedBytes == SizeOf(owners, rawFiles, Everything, PURGED_BYTES)
  {
    totalFiles, totalBytes, purgedFiles, purgedBytes := 0, 0, 0, 0;
    for i := 0 to |rawFiles|
      invariant AllShow(projects, owners, rawFiles[..i])
      invariant totalFiles == SizeOf(owners, rawFiles[..i], Everything, ACTIVE_FILES)
      invariant totalBytes == SizeOf(owners, rawFiles[..i], Everything, ACTIVE_BYTES)
      invariant purgedFiles == SizeOf(owners, rawFiles[..i], Everything, PURGED_FILES)
      invariant purgedBytes == SizeOf(owners, rawFiles[..i], Everything, PURGED_BYTES)
    {
      var f := rawFiles[i];
      SizeOfStep(owners, rawFiles, i, Everything, ACTIVE_FILES);
      SizeOfStep(owners, rawFiles, i, Everything, ACTIVE_BYTES);
      SizeOfStep(owners, rawFiles, i, Everything, PURGED_FILES);
      SizeOfStep(owners, rawFiles, i, Everything, PURGED_BYTES);
      AddFile(projects, owners, rawFiles, i, f);
      if f.projectId !in projects {
        continue;
      }
      if f.isPurged {
        purgedFiles := purgedFiles + 1;
        purgedBytes := purgedBytes + f.sizeBytes;
      } else {
        totalFiles := totalFiles + 1;
        totalBytes := totalBytes + f.sizeBytes;
      }
    }
    assert rawFiles[..|rawFiles|] == rawFiles;
  }

  /** A client's entry: his projects, each with its own totals and folders, and the sums over them. */
  ghost predicate Reports(c: ClientSummary, raw: seq<RawProject>, files: seq<RawFile>)
    reads c, c.projects
  {
    var owners, ids := Owners(raw), IdsOf(raw, c.clientSub);
    && c.projectsCount == |c.projects| == |ids|
    && (forall j :: 0 <= j < |ids| ==> c.projects[j].raw.id == ids[j] && c.projects[j].Shows(owners, files))
    && c.totalFiles == SizeOf(owners, files, OfClient(c.clientSub), ACTIVE_FILES)
    && c.totalBytes == SizeOf(owners, files, OfClient(c.clientSub), ACTIVE_BYTES)
  }

  method ConsolidateClient(c: ClientSummary, ghost projects: map<Uuid, ProjectSummary>, ghost raw: seq<RawProject>,
                           ghost files: seq<RawFile>)
    requires DistinctIds(raw) && AllShow(projects, Owners(raw), files) && c.Lists(projects, IdsOf(raw, c.clientSub))
    modifies c`totalFiles, c`totalBytes
    ensures Reports(c, raw, files) && AllShow(projects, Owners(raw), files)
  {
    ghost var owners, ids := Owners(raw), IdsOf(raw, c.clientSub);
    c.Consolidate(owners, files, ids);
    EachProjectIsListedOnce(raw, c.clientSub);
    ProjectsAddUpToTheClient(owners, files, c.clientSub, ids, ACTIVE_FILES);
    ProjectsAddUpToTheClient(owners, files, c.clientSub, ids, ACTIVE_BYTES);
    assert forall j :: 0 <= j < |ids| ==> ids[j] in projects && c.projects[j] == projects[ids[j]];
  }

  /** Adds up the clients one after the other. */
  method ConsolidateClients(report: seq<ClientSummary>, ghost projects: map<Uuid, ProjectSummary>, ghost raw: seq<RawProject>,
                            ghost files: seq<RawFile>)
    requires DistinctIds(raw) && AllShow(projects, Owners(raw), files)
    requires forall j, k :: 0 <= j < k < |report| ==> report[j].clientSub != report[k].clientSub
    requires forall j :: 0 <= j < |report| ==> report[j].Lists(projects, IdsOf(raw, report[j].clientSub))
    modifies report
    ensures forall j :: 0 <= j < |report| ==> Reports(report[j], raw, files)
  {
    for k := 0 to |report|
      invariant AllShow(projects, Owners(raw), files)
      invariant forall j :: k <= j < |report| ==> report[j].Lists(projects, IdsOf(raw, report[j].clientSub))
      invariant forall j :: 0 <= j < k ==> Reports(report[j], raw, files)
    {
      label before:
      ConsolidateClient(report[k], projects, raw, files);
      forall j | 0 <= j < k ensures Reports(report[j], raw, files) {
        assert report[j] != report[k];
        assert old@before(Reports(report[j], raw, files));
      }
    }
  }

  /** The clients in the order of their keys, before any total is known. */
  ghost predicate ClientList(report: seq<ClientSummary>, projects: map<Uuid, ProjectSummary>, raw: seq<RawProject>)
    reads report
  {
    && |report| == |Keys(raw)|
    && (forall j :: 0 <= j < |report| ==> report[j].clientSub == Keys(raw)[j])
    && (forall j :: 0 <= j < |report| ==> report[j].clientName == FirstName(raw, report[j].clientSub))
    && (forall j :: 0 <= j < |report| ==> report[j].Lists(projects, IdsOf(raw, report[j].clientSub)))
  }

  lemma NothingIsShownYet(projects: map<Uuid, ProjectSummary>, raw: seq<RawProject>)
    requires DistinctIds(raw) && ProjectsBuilt(projects, raw)
    ensures projects.Keys == Owners(raw).Keys && AllShow(projects, Owners(raw), [])
  {
    EachProjectHasOneOwner(raw);
    forall id | id in Owners(raw) ensures id in projects {
      var i :| 0 <= i < |raw| && raw[i].id == id;
    }
    forall id | id in projects ensures id in Owners(raw) {
      var p :| p in raw && p.id == id;
      var i :| 0 <= i < |raw| && raw[i] == p;
    }
  }

  method ListClients(clients: map<string, ClientSummary>, order: seq<string>, ghost projects: map<Uuid, ProjectSummary>,
                     ghost raw: seq<RawProject>)
    returns (report: seq<ClientSummary>)
    requires ClientsBuilt(clients, order, projects, raw, raw)
    ensures ClientList(report, projects, raw)
    ensures forall j :: 0 <= j < |report| ==> report[j] in clients.Values
  {
    report := seq(|order|, k requires 0 <= k < |order| => clients[order[k]]);
  }

  /** The summaries with the files added, and the list of clients. */
  method BuildTree(rawProjects: seq<RawProject>, rawFiles: seq<RawFile>)
    returns (totalFiles: int, totalBytes: int, purgedFiles: int, purgedBytes: int,
             report: seq<ClientSummary>, ghost projects: map<Uuid, ProjectSummary>)
    requires DistinctIds(rawProjects)
    ensures fresh(report) && fresh(projects.Values)
    ensures ClientList(report, projects, rawProjects) && AllShow(projects, Owners(rawProjects), rawFiles)
    ensures totalFiles == SizeOf(Owners(rawProjects), rawFiles, Everything, ACTIVE_FILES)
    ensures totalBytes == SizeOf(Owners(rawProjects), rawFiles, Everything, ACTIVE_BYTES)
    ensures purgedFiles == SizeOf(Owners(rawProjects), rawFiles, Everything, PURGED_FILES)
    ensures purgedBytes == SizeOf(Owners(rawProjects), rawFiles, Everything, PURGED_BYTES)
  {
    var clients, order, all := BuildProjects(rawProjects);
    report := ListClients(clients, order, all, rawProjects);
    NothingIsShownYet(all, rawProjects);
    totalFiles, totalBytes, purgedFiles, purgedBytes := AddFiles(all, Owners(rawProjects), rawFiles);
    projects := all;
  }

  /** The whole report. Every client of a project is in it once, named after his first project, and reports his own projects;
   *  the summary counts all files of known projects. */
  method GetStorageTree(rawProjects: seq<RawProject>, rawFiles: seq<RawFile>) returns (summary: Summary, report: seq<ClientSummary>)
    requires DistinctIds(rawProjects)
    ensures fresh(report) && |report| == |Keys(rawProjects)|
    ensures forall k :: 0 <= k < |report| ==> report[k].clientSub == Keys(rawProjects)[k]
    ensures forall k :: 0 <= k < |report| ==> report[k].clientName == FirstName(rawProjects, report[k].clientSub)
    ensures forall k :: 0 <= k < |report| ==> Reports(report[k], rawProjects, rawFiles)
    ensures var owners := Owners(rawProjects);
      summary == Summary(|Keys(rawProjects)|, |rawProjects|,
                         SizeOf(owners, rawFiles, Everything, ACTIVE_FILES), SizeOf(owners, rawFiles, Everything, ACTIVE_BYTES),
                         SizeOf(owners, rawFiles, Everything, PURGED_FILES), SizeOf(owners, rawFiles, Everything, PURGED_BYTES))
  {
    var totalFiles, totalBytes, purgedFiles, purgedBytes;
    ghost var projects: map<Uuid, ProjectSummary>;
    totalFiles, totalBytes, purgedFiles, purgedBytes, report, projects := BuildTree(rawProjects, rawFiles);
    EachProjectHasOneOwner(rawProjects);
    ConsolidateClients(report, projects, rawProjects, rawFiles);
    summary := Summary(|report|, |rawProjects|, totalFiles, totalBytes, purgedFiles, purgedBytes);
  }
}
