/** The storage report: files added up by folder, project and client, with summary objects shared between two maps. */
module StorageTree {
  import opened Prelude
  import Contracts

  datatype FileFolder = ContractsFolder | FinalArts | Mockups | Briefs | SharedDeliverables

  datatype RawProject = RawProject(id: Uuid, name: string, clientSub: Option<string>, clientName: string)

  datatype RawFile = RawFile(id: Uuid, projectId: Uuid, folder: FileFolder, sizeBytes: int, isPurged: bool,
                             contractStatus: Option<Contracts.Status>)

  datatype Item = Item(file: RawFile, projectName: string, isSignedContract: bool)

  datatype Folder = Folder(folderLabel: string, totalFiles: int, totalBytes: int, files: seq<Item>)

  datatype Summary = Summary(totalClients: nat, totalProjects: nat, totalFiles: int, totalBytes: int,
                             purgedFilesCount: int, purgedBytes: int)

  const STANDARD_FOLDERS := [ContractsFolder, FinalArts, Mockups, Briefs, SharedDeliverables]

  function FolderLabel(folder: FileFolder): string {
    match folder
    case ContractsFolder => "Contratos y Adendas"
    case FinalArts => "Entregables y Artes Finales"
    case Mockups => "Bocetos y Mockups"
    case Briefs => "Briefs y Requerimientos"
    case SharedDeliverables => "Archivos Compartidos"
  }

  function EmptyFolder(key: FileFolder): Folder {
    Folder(FolderLabel(key), 0, 0, [])
  }

  function InitialFolders(): map<FileFolder, Folder> {
    map key | key in STANDARD_FOLDERS :: EmptyFolder(key)
  }

  predicate IsSigned(f: RawFile) {
    f.folder.ContractsFolder? && f.contractStatus == Some(Contracts.Signed)
  }

  function ClientKey(p: RawProject): string {
    if p.clientSub.None? || p.clientSub.value == "" then "internal-cima" else p.clientSub.value
  }

  function ClientName(p: RawProject): string {
    if p.clientName == "" then "CIMA (Interno)" else p.clientName
  }

  // --------------------------------------------------------------- what is counted

  /** Which client each project belongs to. */
  function Owners(projects: seq<RawProject>): map<Uuid, string> {
    if projects == [] then map[]
    else Owners(projects[..|projects| - 1])[projects[|projects| - 1].id := ClientKey(projects[|projects| - 1])]
  }

  datatype Scope = Everything | OfClient(key: string) | OfProject(id: Uuid) | OfFolder(id: Uuid, folder: FileFolder)

  /** Totals count files or bytes, of active or of purged files. */
  datatype Measure = Measure(inBytes: bool, purged: bool)

  const ACTIVE_FILES := Measure(false, false)
  const ACTIVE_BYTES := Measure(true, false)
  const PURGED_FILES := Measure(false, true)
  const PURGED_BYTES := Measure(true, true)

  /** Files of unknown projects count nowhere. */
  predicate Under(owners: map<Uuid, string>, f: RawFile, scope: Scope) {
    f.projectId in owners &&
    match scope
    case Everything => true
    case OfClient(key) => owners[f.projectId] == key
    case OfProject(id) => f.projectId == id
    case OfFolder(id, folder) => f.projectId == id && f.folder == folder
  }

  function Weight(f: RawFile, m: Measure): int {
    if f.isPurged != m.purged then 0 else if m.inBytes then f.sizeBytes else 1
  }

  function SizeOf(owners: map<Uuid, string>, files: seq<RawFile>, scope: Scope, m: Measure): int {
    if files == [] then 0 else
      var f := files[|files| - 1];
      SizeOf(owners, files[..|files| - 1], scope, m) + if Under(owners, f, scope) then Weight(f, m) else 0
  }

  function SumOf(owners: map<Uuid, string>, files: seq<RawFile>, parts: seq<Scope>, m: Measure): int {
    if parts == [] then 0 else
      SumOf(owners, files, parts[..|parts| - 1], m) + SizeOf(owners, files, parts[|parts| - 1], m)
  }

  predicate UnderSome(owners: map<Uuid, string>, f: RawFile, parts: seq<Scope>) {
    exists i :: 0 <= i < |parts| && Under(owners, f, parts[i])
  }

  predicate UnderAtMostOne(owners: map<Uuid, string>, f: RawFile, parts: seq<Scope>) {
    forall i, j :: 0 <= i < j < |parts| ==> !(Under(owners, f, parts[i]) && Under(owners, f, parts[j]))
  }

  /** Every file under the whole is under exactly one part, and the parts hold nothing else. */
  predicate Splits(owners: map<Uuid, string>, f: RawFile, whole: Scope, parts: seq<Scope>) {
    (Under(owners, f, whole) <==> UnderSome(owners, f, parts)) && UnderAtMostOne(owners, f, parts)
  }

  lemma {:induction false} OneMoreFile(owners: map<Uuid, string>, files: seq<RawFile>, f: RawFile, parts: seq<Scope>, m: Measure)
    requires UnderAtMostOne(owners, f, parts)
    ensures SumOf(owners, files + [f], parts, m) ==
            SumOf(owners, files, parts, m) + if UnderSome(owners, f, parts) then Weight(f, m) else 0
    decreases |parts|
  {
    if parts != [] {
      var rest, last := parts[..|parts| - 1], parts[|parts| - 1];
      assert parts == rest + [last];
      OneMoreFile(owners, files, f, rest, m);
      assert (files + [f])[..|files|] == files;
    }
  }

  lemma {:induction false} NothingAddsUp(owners: map<Uuid, string>, parts: seq<Scope>, m: Measure)
    ensures SumOf(owners, [], parts, m) == 0
    decreases |parts|
  {
    if parts != [] {
      NothingAddsUp(owners, parts[..|parts| - 1], m);
    }
  }

  lemma {:induction false} PartsAddUp(owners: map<Uuid, string>, files: seq<RawFile>, whole: Scope, parts: seq<Scope>, m: Measure)
    requires forall f :: f in files ==> Splits(owners, f, whole, parts)
    ensures SumOf(owners, files, parts, m) == SizeOf(owners, files, whole, m)
    decreases |files|
  {
    if files == [] {
      NothingAddsUp(owners, parts, m);
    } else {
      var rest, last := files[..|files| - 1], files[|files| - 1];
      PartsAddUp(owners, rest, whole, parts, m);
      assert Splits(owners, last, whole, parts);
      OneMoreFile(owners, rest, last, parts, m);
      assert rest + [last] == files;
    }
  }

  // ------------------------------------------------------------------- conservation

  function Folders(id: Uuid, keys: seq<FileFolder>): seq<Scope> {
    seq(|keys|, i requires 0 <= i < |keys| => OfFolder(id, keys[i]))
  }

  function Projects(ids: seq<Uuid>): seq<Scope> {
    seq(|ids|, i requires 0 <= i < |ids| => OfProject(ids[i]))
  }

  function Clients(keys: seq<string>): seq<Scope> {
    seq(|keys|, i requires 0 <= i < |keys| => OfClient(keys[i]))
  }

  /** The folders of a project, in any order, add up to the project. */
  lemma {:induction false} FoldersAddUpToTheProject(owners: map<Uuid, string>, files: seq<RawFile>, id: Uuid, keys: seq<FileFolder>, m: Measure)
    requires Distinct(keys) && forall f :: f in files && f.projectId == id ==> f.folder in keys
    ensures SumOf(owners, files, Folders(id, keys), m) == SizeOf(owners, files, OfProject(id), m)
  {
    var parts := Folders(id, keys);
    forall f | f in files ensures Splits(owners, f, OfProject(id), parts) {
      if Under(owners, f, OfProject(id)) {
        var i :| 0 <= i < |keys| && keys[i] == f.folder;
        assert Under(owners, f, parts[i]);
      }
    }
    PartsAddUp(owners, files, OfProject(id), parts, m);
  }

  /** The projects of a client add up to the client. */
  lemma {:induction false} ProjectsAddUpToTheClient(owners: map<Uuid, string>, files: seq<RawFile>, key: string, ids: seq<Uuid>, m: Measure)
    requires Distinct(ids) && forall id :: id in ids <==> id in owners && owners[id] == key
    ensures SumOf(owners, files, Projects(ids), m) == SizeOf(owners, files, OfClient(key), m)
  {
    var parts := Projects(ids);
    forall f | f in files ensures Splits(owners, f, OfClient(key), parts) {
      if Under(owners, f, OfClient(key)) {
        var i :| 0 <= i < |ids| && ids[i] == f.projectId;
        assert Under(owners, f, parts[i]);
      }
    }
    PartsAddUp(owners, files, OfClient(key), parts, m);
  }

  /** The clients add up to all files of known projects. */
  lemma {:induction false} ClientsAddUpToEverything(owners: map<Uuid, string>, files: seq<RawFile>, keys: seq<string>, m: Measure)
    requires Distinct(keys) && forall id :: id in owners ==> owners[id] in keys
    ensures SumOf(owners, files, Clients(keys), m) == SizeOf(owners, files, Everything, m)
  {
    var parts := Clients(keys);
    forall f | f in files ensures Splits(owners, f, Everything, parts) {
      if f.projectId in owners {
        var i :| 0 <= i < |keys| && keys[i] == owners[f.projectId];
        assert Under(owners, f, parts[i]);
      }
    }
    PartsAddUp(owners, files, Everything, parts, m);
  }

  function Known(owners: map<Uuid, string>, files: seq<RawFile>): seq<RawFile> {
    if files == [] then [] else
      var f := files[|files| - 1];
      Known(owners, files[..|files| - 1]) + (if f.projectId in owners then [f] else [])
  }

  function Bytes(files: seq<RawFile>): int {
    if files == [] then 0 else Bytes(files[..|files| - 1]) + files[|files| - 1].sizeBytes
  }

  /** Active and purged files together are all files of known projects, each once. */
  lemma {:induction false} NothingIsLost(owners: map<Uuid, string>, files: seq<RawFile>)
    ensures SizeOf(owners, files, Everything, ACTIVE_FILES) + SizeOf(owners, files, Everything, PURGED_FILES) ==
            |Known(owners, files)|
    ensures SizeOf(owners, files, Everything, ACTIVE_BYTES) + SizeOf(owners, files, Everything, PURGED_BYTES) ==
            Bytes(Known(owners, files))
  {
    if files != [] {
      var f, rest := files[|files| - 1], files[..|files| - 1];
      NothingIsLost(owners, rest);
      assert f.projectId in owners ==> Known(owners, files)[..|Known(owners, files)| - 1] == Known(owners, rest);
      assert f.projectId !in owners ==> Known(owners, files) == Known(owners, rest);
    }
  }

  // ---------------------------------------------------------- folders of a project

  function Listed(p: RawProject, f: RawFile): Item {
    Item(f, p.name, IsSigned(f))
  }

  function Added(folders: map<FileFolder, Folder>, item: Item): map<FileFolder, Folder> {
    var f := item.file;
    var folder := if f.folder in folders then folders[f.folder] else EmptyFolder(f.folder);
    folders[f.folder := Folder(folder.folderLabel, folder.totalFiles + Weight(f, ACTIVE_FILES),
                               folder.totalBytes + Weight(f, ACTIVE_BYTES), folder.files + [item])]
  }

  /** The folders of a project after the files have been added. */
  function FoldersOf(p: RawProject, files: seq<RawFile>): map<FileFolder, Folder> {
    if files == [] then InitialFolders() else
      var f, before := files[|files| - 1], FoldersOf(p, files[..|files| - 1]);
      if f.projectId == p.id then Added(before, Listed(p, f)) else before
  }

  function ItemsIn(p: RawProject, files: seq<RawFile>, key: FileFolder): seq<Item> {
    if files == [] then [] else
      var f := files[|files| - 1];
      ItemsIn(p, files[..|files| - 1], key) + (if f.projectId == p.id && f.folder == key then [Listed(p, f)] else [])
  }

  /** Every project has all folders; each lists all its files, purged ones too, and its totals count the active ones. */
  lemma {:induction false} FoldersHoldTheirFiles(owners: map<Uuid, string>, p: RawProject, files: seq<RawFile>, key: FileFolder)
    requires p.id in owners
    ensures key in FoldersOf(p, files) && FoldersOf(p, files)[key] ==
            Folder(FolderLabel(key), SizeOf(owners, files, OfFolder(p.id, key), ACTIVE_FILES),
                   SizeOf(owners, files, OfFolder(p.id, key), ACTIVE_BYTES), ItemsIn(p, files, key))
    decreases |files|
  {
    if files == [] {
      AllFoldersAreStandard(key);
    } else {
      FoldersHoldTheirFiles(owners, p, files[..|files| - 1], key);
    }
  }

  /** What is said of every file in a folder. */
  lemma {:induction false} ItemsSayWhatTheyAre(p: RawProject, files: seq<RawFile>, key: FileFolder)
    ensures forall item :: item in ItemsIn(p, files, key) ==>
      && item.file in files && item.file.projectId == p.id && item.file.folder == key && item.projectName == p.name
      && (item.isSignedContract <==> key == ContractsFolder && item.file.contractStatus == Some(Contracts.Signed))
  {
    if files != [] {
      ItemsSayWhatTheyAre(p, files[..|files| - 1], key);
    }
  }

  /** No two folders go by the same name. */
  lemma FolderLabelsDiffer(a: FileFolder, b: FileFolder)
    ensures FolderLabel(a) != "" && (FolderLabel(a) == FolderLabel(b) <==> a == b)
  {
    assert FolderLabel(ContractsFolder)[0] == 'C' && FolderLabel(FinalArts)[0] == 'E' && FolderLabel(SharedDeliverables)[0] == 'A';
    assert FolderLabel(Mockups)[..2] == "Bo" && FolderLabel(Briefs)[..2] == "Br";
  }

  lemma AllFoldersAreStandard(key: FileFolder)
    ensures key in STANDARD_FOLDERS
  {
    match key
    case ContractsFolder => assert STANDARD_FOLDERS[0] == key;
    case FinalArts => assert STANDARD_FOLDERS[1] == key;
    case Mockups => assert STANDARD_FOLDERS[2] == key;
    case Briefs => assert STANDARD_FOLDERS[3] == key;
    case SharedDeliverables => assert STANDARD_FOLDERS[4] == key;
  }

  // ------------------------------------------------- the clients and their projects

  /** The client keys in the order they first appear. */
  function Keys(projects: seq<RawProject>): seq<string> {
    if projects == [] then [] else
      var before, key := Keys(projects[..|projects| - 1]), ClientKey(projects[|projects| - 1]);
      if key in before then before else before + [key]
  }

  function IdsOf(projects: seq<RawProject>, key: string): seq<Uuid> {
    if projects == [] then [] else
      var p := projects[|projects| - 1];
      IdsOf(projects[..|projects| - 1], key) + (if ClientKey(p) == key then [p.id] else [])
  }

  predicate DistinctIds(projects: seq<RawProject>) {
    forall i, j :: 0 <= i < j < |projects| ==> projects[i].id != projects[j].id
  }

  lemma {:induction false} OwnersAreTheProjects(projects: seq<RawProject>)
    requires DistinctIds(projects)
    ensures forall id :: id in Owners(projects) <==> exists i :: 0 <= i < |projects| && projects[i].id == id
    ensures forall i :: 0 <= i < |projects| ==> Owners(projects)[projects[i].id] == ClientKey(projects[i])
  {
    if projects != [] {
      var n := |projects| - 1;
      OwnersAreTheProjects(projects[..n]);
      forall id ensures id in Owners(projects) <==> exists i :: 0 <= i < |projects| && projects[i].id == id {
        if i :| 0 <= i < |projects| && projects[i].id == id {
          assert i < n ==> projects[..n][i].id == id;
        }
      }
      forall i | 0 <= i < |projects| ensures Owners(projects)[projects[i].id] == ClientKey(projects[i]) {
        assert i < n ==> projects[..n][i] == projects[i];
      }
    }
  }

  lemma {:induction false} KeysAreTheOwners(projects: seq<RawProject>)
    ensures Distinct(Keys(projects)) && forall id :: id in Owners(projects) ==> Owners(projects)[id] in Keys(projects)
  {
    if projects != [] {
      KeysAreTheOwners(projects[..|projects| - 1]);
    }
  }

  /** Each project has one client, and every client is reported under one key. */
  lemma {:induction false} EachProjectHasOneOwner(projects: seq<RawProject>)
    requires DistinctIds(projects)
    ensures forall id :: id in Owners(projects) <==> exists i :: 0 <= i < |projects| && projects[i].id == id
    ensures forall i :: 0 <= i < |projects| ==>
              var p := projects[i];
              Owners(projects)[p.id] == if p.clientSub.Some? && p.clientSub.value != "" then p.clientSub.value else "internal-cima"
    ensures Distinct(Keys(projects)) && forall id :: id in Owners(projects) ==> Owners(projects)[id] in Keys(projects)
  {
    OwnersAreTheProjects(projects);
    KeysAreTheOwners(projects);
  }

  /** Each project is listed once, under its own client and no other. */
  lemma {:induction false} EachProjectIsListedOnce(projects: seq<RawProject>, key: string)
    requires DistinctIds(projects)
    ensures Distinct(IdsOf(projects, key))
    ensures forall id :: id in IdsOf(projects, key) <==> id in Owners(projects) && Owners(projects)[id] == key
    ensures key !in Keys(projects) ==> IdsOf(projects, key) == []
  {
    if projects != [] {
      var n := |projects| - 1;
      EachProjectIsListedOnce(projects[..n], key);
      EachProjectHasOneOwner(projects[..n]);
      assert projects[n].id !in Owners(projects[..n]);
    }
  }
}
