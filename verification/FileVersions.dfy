/** File versions: two upload paths take the same advisory lock, read the latest version and insert the next one, while files
 *  are deleted at any time. A step that cannot happen in a state changes nothing. */
module FileVersions {
  import opened Prelude

  datatype File = File(project: Uuid, name: string, version: int, storagePath: string)

  datatype Phase = Waiting | Locked | Read(next: int) | Inserted(next: int, id: Uuid)

  datatype Tx = Tx(project: Uuid, name: string, storagePath: string, phase: Phase)

  datatype State = State(files: map<Uuid, File>, txs: map<Uuid, Tx>)

  datatype Step =
    | Start(t: Uuid, project: Uuid, name: string, storagePath: string)
    | Lock(t: Uuid)
    | ReadLatest(t: Uuid)
    | Insert(t: Uuid, id: Uuid)
    | Commit(t: Uuid)
    | Abort(t: Uuid)
    | Delete(id: Uuid)

  /** The hash the lock is taken on; different files may share it. */
  type LockKey = (Uuid, string) -> int

  function Versions(files: map<Uuid, File>, project: Uuid, name: string): set<int> {
    set id | id in files && files[id].project == project && files[id].name == name :: files[id].version
  }

  predicate Holds(s: State, t: Uuid) {
    t in s.txs && !s.txs[t].phase.Waiting?
  }

  predicate LockFree(key: LockKey, s: State, t: Uuid)
    requires t in s.txs
  {
    forall u :: u in s.txs && Holds(s, u) ==> key(s.txs[u].project, s.txs[u].name) != key(s.txs[t].project, s.txs[t].name)
  }

  predicate Numbered(tx: Tx) {
    tx.phase.Read? || tx.phase.Inserted?
  }

  /** The unique index on project, name and version would refuse the row `t` is about to insert. */
  predicate VersionTaken(s: State, t: Uuid)
    requires t in s.txs && s.txs[t].phase.Read?
  {
    var tx := s.txs[t];
    || tx.phase.next in Versions(s.files, tx.project, tx.name)
    || (exists u :: u in s.txs && u != t && s.txs[u].phase.Inserted? && s.txs[u].phase.next == tx.phase.next
          && s.txs[u].project == tx.project && s.txs[u].name == tx.name)
  }

  predicate PathTaken(s: State, path: string) {
    exists id :: id in s.files && s.files[id].storagePath == path
  }

  /** Another transaction has inserted a row with the storage path of `t` and not ended yet: the insert waits for it. */
  predicate PathPending(s: State, t: Uuid)
    requires t in s.txs
  {
    exists u :: u in s.txs && u != t && s.txs[u].phase.Inserted? && s.txs[u].storagePath == s.txs[t].storagePath
  }

  predicate IdUsed(s: State, id: Uuid) {
    id in s.files || exists u :: u in s.txs && s.txs[u].phase.Inserted? && s.txs[u].phase.id == id
  }

  function Next(key: LockKey, s: State, step: Step): State {
    match step
    case Start(t, project, name, path) =>
      if t in s.txs then s else s.(txs := s.txs[t := Tx(project, name, path, Waiting)])
    case Lock(t) =>
      if t in s.txs && s.txs[t].phase.Waiting? && LockFree(key, s, t) then Enter(s, t, Locked) else s
    case ReadLatest(t) =>
      if t in s.txs && s.txs[t].phase.Locked?
      then Enter(s, t, Read(MaxOrZero(Versions(s.files, s.txs[t].project, s.txs[t].name)) + 1)) else s
    case Insert(t, id) =>
      if t !in s.txs || !s.txs[t].phase.Read? || IdUsed(s, id) then s
      else if VersionTaken(s, t) || PathTaken(s, s.txs[t].storagePath) then s.(txs := s.txs - {t})
      else if PathPending(s, t) then s
      else Enter(s, t, Inserted(s.txs[t].phase.next, id))
    case Commit(t) =>
      if t in s.txs && s.txs[t].phase.Inserted? then
        var tx := s.txs[t];
        State(s.files[tx.phase.id := File(tx.project, tx.name, tx.phase.next, tx.storagePath)], s.txs - {t})
      else s
    case Abort(t) => s.(txs := s.txs - {t})
    case Delete(id) => s.(files := s.files - {id})
  }

  function Enter(s: State, t: Uuid, phase: Phase): State
    requires t in s.txs
  {
    s.(txs := s.txs[t := s.txs[t].(phase := phase)])
  }

  function Run(key: LockKey, s: State, steps: seq<Step>): State
    decreases |steps|
  {
    if steps == [] then s else Run(key, Next(key, s, steps[0]), steps[1..])
  }

  // ------------------------------------------------------------------ invariants

  /** Nobody shares a lock. */
  ghost predicate Exclusive(key: LockKey, s: State) {
    forall t, u :: Holds(s, t) && Holds(s, u) && t != u ==>
      key(s.txs[t].project, s.txs[t].name) != key(s.txs[u].project, s.txs[u].name)
  }

  /** A version that was read is above every live version of the file. */
  predicate Above(s: State) {
    forall t, id :: t in s.txs && Numbered(s.txs[t]) && id in s.files
                    && s.files[id].project == s.txs[t].project && s.files[id].name == s.txs[t].name ==>
      s.files[id].version < s.txs[t].phase.next
  }

  /** The ids of uncommitted rows are nobody else's. */
  predicate NewIds(s: State) {
    && (forall t :: t in s.txs && s.txs[t].phase.Inserted? ==> s.txs[t].phase.id !in s.files)
    && (forall t, u :: t in s.txs && u in s.txs && t != u && s.txs[t].phase.Inserted? && s.txs[u].phase.Inserted? ==>
          s.txs[t].phase.id != s.txs[u].phase.id)
  }

  predicate SameFile(f: File, g: File) {
    f.project == g.project && f.name == g.name
  }

  /** What the unique index on project, name and version demands. */
  predicate Indexed(s: State) {
    forall a, b :: a in s.files && b in s.files && a != b ==>
      SameFile(s.files[a], s.files[b]) ==> s.files[a].version != s.files[b].version
  }

  ghost predicate Inv(key: LockKey, s: State) {
    Exclusive(key, s) && Above(s) && NewIds(s) && Indexed(s)
  }

  lemma StepKeepsExclusive(key: LockKey, s: State, step: Step)
    requires Exclusive(key, s)
    ensures Exclusive(key, Next(key, s, step))
  {
  }

  lemma StepKeepsAbove(key: LockKey, s: State, step: Step)
    requires Exclusive(key, s) && Above(s)
    ensures Above(Next(key, s, step))
  {
    match step
    case ReadLatest(t) =>
      if t in s.txs {
        assert forall id :: id in s.files && s.files[id].project == s.txs[t].project && s.files[id].name == s.txs[t].name ==>
          s.files[id].version in Versions(s.files, s.txs[t].project, s.txs[t].name);
      }
    case Commit(t) =>
      assert forall u :: u in s.txs && u != t && Numbered(s.txs[u]) ==> Holds(s, u);
    case _ =>
  }

  lemma StepKeepsNewIds(key: LockKey, s: State, step: Step)
    requires NewIds(s)
    ensures NewIds(Next(key, s, step))
  {
  }

  lemma StepKeepsIndexed(key: LockKey, s: State, step: Step)
    requires Above(s) && Indexed(s)
    ensures Indexed(Next(key, s, step))
  {
  }

  lemma {:induction false} RunKeeps(key: LockKey, s: State, steps: seq<Step>)
    requires Inv(key, s)
    ensures Inv(key, Run(key, s, steps))
    decreases |steps|
  {
    if steps != [] {
      StepKeepsExclusive(key, s, steps[0]);
      StepKeepsAbove(key, s, steps[0]);
      StepKeepsNewIds(key, s, steps[0]);
      StepKeepsIndexed(key, s, steps[0]);
      RunKeeps(key, Next(key, s, steps[0]), steps[1..]);
    }
  }

  // ---------------------------------------------------------------- main results

  /** Whatever the lock's hash function and the interleaving, no upload is ever refused its version. */
  lemma {:induction false} NoUploadIsRefusedItsVersion(key: LockKey, files: map<Uuid, File>, steps: seq<Step>, t: Uuid)
    requires Indexed(State(files, map[]))
    ensures var s := Run(key, State(files, map[]), steps);
            t in s.txs && s.txs[t].phase.Read? ==> !VersionTaken(s, t)
  {
    RunKeeps(key, State(files, map[]), steps);
    var s := Run(key, State(files, map[]), steps);
    if t in s.txs && s.txs[t].phase.Read? {
      VersionIsFree(key, s, t);
    }
  }

  /** A committed file comes above every live version of its name, and the index holds, deletions or not. */
  lemma {:induction false} CommittedVersionIsTheLatest(key: LockKey, files: map<Uuid, File>, steps: seq<Step>, t: Uuid)
    requires Indexed(State(files, map[]))
    ensures var s := Run(key, State(files, map[]), steps);
            && Indexed(s)
            && (t in s.txs && s.txs[t].phase.Inserted? ==>
                  var tx, after := s.txs[t], Next(key, s, Commit(t)).files;
                  && tx.phase.id !in s.files && after == s.files[tx.phase.id := after[tx.phase.id]]
                  && after[tx.phase.id] == File(tx.project, tx.name, tx.phase.next, tx.storagePath)
                  && forall v :: v in Versions(s.files, tx.project, tx.name) ==> v < tx.phase.next)
  {
    RunKeeps(key, State(files, map[]), steps);
  }

  /** A deleted version is given out again exactly when it was the latest and the next lower one is live, or it was number one. */
  lemma {:induction false} DeletedVersionIsReusedExactlyWhen(files: map<Uuid, File>, id: Uuid)
    requires id in files && Indexed(State(files, map[])) && forall i :: i in files ==> 1 <= files[i].version
    ensures var f := files[id];
            var versions := Versions(files, f.project, f.name);
            MaxOrZero(Versions(files - {id}, f.project, f.name)) + 1 == f.version <==>
              MaxOrZero(versions) == f.version && (f.version == 1 || f.version - 1 in versions)
  {
    var f := files[id];
    var versions := Versions(files, f.project, f.name);
    assert f.version in versions;
    VersionsWithout(files, id);
    NextAfterRemoval(versions, f.version);
  }

  lemma NextAfterRemoval(versions: set<int>, v: int)
    requires v in versions && forall w :: w in versions ==> 1 <= w
    ensures MaxOrZero(versions - {v}) + 1 == v <==> MaxOrZero(versions) == v && (v == 1 || v - 1 in versions)
  {
    var rest := versions - {v};
    assert rest != {} ==> IsMax(rest, MaxOrZero(rest));
    assert IsMax(versions, MaxOrZero(versions));
    assert v - 1 in versions ==> v - 1 in rest;
    assert MaxOrZero(versions) != v ==> MaxOrZero(versions) in rest;
  }

  // ------------------------------------------------------------------------ code

  function StepOwner(step: Step): Option<Uuid> {
    if step.Delete? then None else Some(step.t)
  }

  lemma OthersKeepTransaction(key: LockKey, s: State, step: Step, t: Uuid)
    requires StepOwner(step) != Some(t)
    ensures t in Next(key, s, step).txs <==> t in s.txs
    ensures t in s.txs ==> Next(key, s, step).txs[t] == s.txs[t]
  {
  }

  lemma {:induction false} RunOneMore(key: LockKey, s: State, steps: seq<Step>, step: Step)
    ensures Run(key, s, steps + [step]) == Next(key, Run(key, s, steps), step)
    decreases |steps|
  {
    if steps == [] {
      assert ([] + [step])[1..] == [];
    } else {
      assert (steps + [step])[1..] == steps[1..] + [step];
      RunOneMore(key, Next(key, s, steps[0]), steps[1..], step);
    }
  }

  /** Why an upload fails: the storage path is registered, or its transaction is rolled back for a reason of its own, like a
   *  timeout waiting for the lock. */
  datatype UploadError = PathRegistered | RolledBack

  /** The file table, shared by transactions of both upload paths. */
  class SharedFiles {
    const key: LockKey
    var s: State
    ghost const files: map<Uuid, File>
    ghost var steps: seq<Step>

    constructor (key: LockKey, files: map<Uuid, File>)
      requires Indexed(State(files, map[]))
      ensures Valid() && s == State(files, map[]) && this.key == key
    {
      this.key, this.files, steps, s := key, files, [], State(files, map[]);
    }

    /** The state is the outcome of a run of the machine. */
    ghost predicate Valid()
      reads this
    {
      Indexed(State(files, map[])) && s == Run(key, State(files, map[]), steps)
    }

    method Take(step: Step)
      requires Valid()
      modifies this
      ensures Valid() && s == Next(key, old(s), step) && steps == old(steps) + [step]
    {
      RunOneMore(key, State(files, map[]), steps, step);
      s := Next(key, s, step);
      steps := steps + [step];
    }

    /** Whatever other transactions and deletions do before the next statement of `t`. */
    method Others(t: Uuid)
      requires Valid()
      modifies this
      ensures Valid() && old(steps) <= steps
      ensures t in s.txs <==> t in old(s).txs
      ensures t in s.txs ==> s.txs[t] == old(s).txs[t]
    {
      var count: nat := *;
      while 0 < count
        invariant Valid() && old(steps) <= steps
        invariant t in s.txs <==> t in old(s).txs
        invariant t in s.txs ==> s.txs[t] == old(s).txs[t]
      {
        var step: Step := *;
        if StepOwner(step) != Some(t) {
          OthersKeepTransaction(key, s, step, t);
          Take(step);
        }
        count := count - 1;
      }
    }

    method FindLatestVersion(project: Uuid, name: string) returns (latest: Option<Uuid>)
      ensures latest.None? <==> Versions(s.files, project, name) == {}
      ensures latest.Some? ==> latest.value in s.files
      ensures latest.Some? ==> s.files[latest.value].project == project && s.files[latest.value].name == name
      ensures latest.Some? ==> s.files[latest.value].version == MaxOrZero(Versions(s.files, project, name))
    {
      latest := None;
      var files := s.files;
      var rest := files.Keys;
      while rest != {}
        invariant rest <= files.Keys
        invariant latest.Some? ==> latest.value in files
        invariant latest.Some? ==> files[latest.value].project == project && files[latest.value].name == name
        invariant forall id :: id in files && id !in rest && files[id].project == project && files[id].name == name ==>
          latest.Some? && files[id].version <= files[latest.value].version
      {
        var id :| id in rest;
        rest := rest - {id};
        if files[id].project == project && files[id].name == name {
          if latest.None? || files[id].version > files[latest.value].version {
            latest := Some(id);
          }
        }
      }
      if latest.Some? {
        assert files[latest.value].version in Versions(files, project, name);
      }
    }

    /** Waits for the lock, for at most `patience` rounds. */
    method AwaitLock(t: Uuid, patience: nat) returns (locked: bool)
      requires Valid() && t in s.txs && s.txs[t].phase.Waiting?
      modifies this
      ensures Valid() && t in s.txs && old(steps) <= steps
      ensures s.txs[t] == old(s).txs[t].(phase := if locked then Locked else Waiting)
      ensures !locked ==> !LockFree(key, s, t)
    {
      Others(t);
      Take(Lock(t));
      var rounds := patience;
      while s.txs[t].phase.Waiting? && 0 < rounds
        invariant Valid() && t in s.txs && old(steps) <= steps
        invariant s.txs[t] == old(s).txs[t] || s.txs[t] == old(s).txs[t].(phase := Locked)
        invariant s.txs[t].phase.Waiting? ==> !LockFree(key, s, t)
      {
        Others(t);
        Take(Lock(t));
        rounds := rounds - 1;
      }
      locked := s.txs[t].phase.Locked?;
    }

    /** Takes the lock and reads the next version. */
    method ReserveVersion(t: Uuid, project: Uuid, name: string, storagePath: string, patience: nat) returns (version: Option<int>)
      requires Valid() && t !in s.txs
      modifies this
      ensures Valid() && t in s.txs && old(steps) <= steps
      ensures s.txs[t] == Tx(project, name, storagePath, if version.Some? then Read(version.value) else Waiting)
      ensures version.None? ==> !LockFree(key, s, t)
    {
      Take(Start(t, project, name, storagePath));
      var locked := AwaitLock(t, patience);
      if !locked {
        return None;
      }
      Others(t);
      var latest := FindLatestVersion(project, name);
      version := Some((if latest.Some? then s.files[latest.value].version else 0) + 1);
      Take(ReadLatest(t));
    }

    /** Waits for transactions that have inserted the same storage path, for at most `patience` rounds. */
    method AwaitPath(t: Uuid, patience: nat)
      requires Valid() && t in s.txs
      modifies this
      ensures Valid() && t in s.txs && s.txs[t] == old(s).txs[t] && old(steps) <= steps
    {
      Others(t);
      var rounds := patience;
      while PathPending(s, t) && 0 < rounds
        invariant Valid() && t in s.txs && s.txs[t] == old(s).txs[t] && old(steps) <= steps
      {
        Others(t);
        rounds := rounds - 1;
      }
    }

    /** The run was in state `at` at or after step `from`. */
    ghost predicate Visited(at: State, from: nat)
      reads this
    {
      exists n :: from <= n <= |steps| && at == Run(key, State(files, map[]), steps[..n])
    }

    lemma StillVisited(at: State, from: nat, seen: seq<Step>)
      requires from <= |seen| && seen <= steps && at == Run(key, State(files, map[]), seen)
      ensures Visited(at, from)
    {
      assert steps[..|seen|] == seen;
    }

    /** The transaction of either upload path: lock, read the latest version, insert the next one, commit. A committed file is
     *  the latest live version of its name; the version index never refuses it, only a registered storage path does. It is
     *  rolled back only when, at its last try, others hold the lock or an uncommitted row with its path, or its id is in use. */
    method UploadFileMetadata(t: Uuid, project: Uuid, name: string, storagePath: string, id: Uuid, patience: nat)
      returns (r: Result<int, UploadError>, ghost inserting: State)
      requires Valid() && t !in s.txs
      modifies this
      ensures Valid() && t !in s.txs
      ensures r.Ok? ==> id in s.files && s.files[id] == File(project, name, r.value, storagePath)
      ensures r.Ok? ==> MaxOrZero(Versions(s.files, project, name)) == r.value
      ensures r.Ok? ==> !PathTaken(inserting, storagePath)
      ensures r == Err(PathRegistered) ==> PathTaken(inserting, storagePath)
      ensures Visited(inserting, |old(steps)|) && t in inserting.txs
      ensures r == Err(RolledBack) ==>
        if inserting.txs[t].phase.Waiting? then !LockFree(key, inserting, t) else IdUsed(inserting, id) || PathPending(inserting, t)
    {
      var version := ReserveVersion(t, project, name, storagePath, patience);
      inserting := s;
      if version.None? {
        ghost var seen := steps;
        Take(Abort(t));
        StillVisited(inserting, |old(steps)|, seen);
        return Err(RolledBack), inserting;
      }
      r, inserting := StoreVersion(t, id, patience);
    }

    /** With its version read: waits for the path, inserts and commits. */
    method StoreVersion(t: Uuid, id: Uuid, patience: nat) returns (r: Result<int, UploadError>, ghost inserting: State)
      requires Valid() && t in s.txs && s.txs[t].phase.Read?
      modifies this
      ensures Valid() && t !in s.txs
      ensures var tx := old(s).txs[t];
        && (r.Ok? ==> r.value == tx.phase.next && id in s.files && s.files[id] == File(tx.project, tx.name, r.value, tx.storagePath))
        && (r.Ok? ==> MaxOrZero(Versions(s.files, tx.project, tx.name)) == r.value && !PathTaken(inserting, tx.storagePath))
        && (r == Err(PathRegistered) ==> PathTaken(inserting, tx.storagePath))
      ensures Visited(inserting, |old(steps)|) && t in inserting.txs && inserting.txs[t].phase.Read?
      ensures r == Err(RolledBack) ==> IdUsed(inserting, id) || PathPending(inserting, t)
    {
      AwaitPath(t, patience);
      inserting := s;
      ghost var seen := steps;
      if IdUsed(s, id) || PathPending(s, t) {
        Take(Abort(t));
        StillVisited(inserting, |old(steps)|, seen);
        return Err(RolledBack), inserting;
      }
      var version, taken := s.txs[t].phase.next, PathTaken(s, s.txs[t].storagePath);
      RunKeeps(key, State(files, map[]), steps);
      InsertEffect(key, s, t, id);
      Take(Insert(t, id));
      StillVisited(inserting, |old(steps)|, seen);
      if taken {
        return Err(PathRegistered), inserting;
      }
      CommitInserted(t);
      StillVisited(inserting, |old(steps)|, seen);
      return Ok(version), inserting;
    }

    method CommitInserted(t: Uuid)
      requires Valid() && t in s.txs && s.txs[t].phase.Inserted?
      modifies this
      ensures Valid() && t !in s.txs && old(steps) <= steps
      ensures var tx := old(s).txs[t];
        && tx.phase.id in s.files && s.files[tx.phase.id] == File(tx.project, tx.name, tx.phase.next, tx.storagePath)
        && MaxOrZero(Versions(s.files, tx.project, tx.name)) == tx.phase.next
    {
      Others(t);
      RunKeeps(key, State(files, map[]), steps);
      CommittedIsLatest(key, s, t);
      Take(Commit(t));
    }

    /** The index stays in force, other names keep their versions, and the next version changes only when the latest goes. */
    method DeleteFileById(id: Uuid)
      requires Valid()
      modifies this
      ensures Valid() && s.files == old(s).files - {id}
      ensures forall project, name :: (id !in old(s).files || old(s).files[id].project != project || old(s).files[id].name != name) ==>
        Versions(s.files, project, name) == Versions(old(s).files, project, name)
      ensures id in old(s).files ==>
        var f := old(s).files[id];
        var versions := Versions(old(s).files, f.project, f.name);
        && Versions(s.files, f.project, f.name) == versions - {f.version}
        && (f.version != MaxOrZero(versions) ==> MaxOrZero(Versions(s.files, f.project, f.name)) == MaxOrZero(versions))
    {
      RunKeeps(key, State(files, map[]), steps);
      DeletionEffect(s.files, id);
      Take(Delete(id));
    }
  }

  lemma InsertEffect(key: LockKey, s: State, t: Uuid, id: Uuid)
    requires Inv(key, s) && t in s.txs && s.txs[t].phase.Read? && !IdUsed(s, id)
    ensures var s' := Next(key, s, Insert(t, id));
            if PathTaken(s, s.txs[t].storagePath) then t !in s'.txs
            else if PathPending(s, t) then s' == s
            else t in s'.txs && s'.txs[t] == s.txs[t].(phase := Inserted(s.txs[t].phase.next, id))
  {
    VersionIsFree(key, s, t);
  }

  lemma VersionIsFree(key: LockKey, s: State, t: Uuid)
    requires Inv(key, s) && t in s.txs && s.txs[t].phase.Read?
    ensures !VersionTaken(s, t)
  {
    assert forall u :: u in s.txs && s.txs[u].phase.Inserted? ==> Holds(s, u);
    assert Holds(s, t);
  }

  lemma CommittedIsLatest(key: LockKey, s: State, t: Uuid)
    requires Above(s) && NewIds(s) && t in s.txs && s.txs[t].phase.Inserted?
    ensures var tx, s' := s.txs[t], Next(key, s, Commit(t));
            && t !in s'.txs && tx.phase.id in s'.files
            && s'.files[tx.phase.id] == File(tx.project, tx.name, tx.phase.next, tx.storagePath)
            && MaxOrZero(Versions(s'.files, tx.project, tx.name)) == tx.phase.next
  {
    var tx, files := s.txs[t], Next(key, s, Commit(t)).files;
    var versions := Versions(files, tx.project, tx.name);
    assert files[tx.phase.id].version in versions;
    forall v | v in versions ensures v <= tx.phase.next {
      var i :| i in files && files[i].project == tx.project && files[i].name == tx.name && files[i].version == v;
      assert i != tx.phase.id ==> i in s.files && s.files[i] == files[i];
    }
  }

  lemma DeletionEffect(files: map<Uuid, File>, id: Uuid)
    requires Indexed(State(files, map[]))
    ensures forall project, name :: (id !in files || files[id].project != project || files[id].name != name) ==>
      Versions(files - {id}, project, name) == Versions(files, project, name)
    ensures id in files ==>
      var f := files[id];
      var versions, rest := Versions(files, f.project, f.name), Versions(files - {id}, f.project, f.name);
      rest == versions - {f.version} && (f.version != MaxOrZero(versions) ==> MaxOrZero(rest) == MaxOrZero(versions))
  {
    forall project, name | id !in files || files[id].project != project || files[id].name != name
      ensures Versions(files - {id}, project, name) == Versions(files, project, name)
    {
      OtherNamesKeepVersions(files, id, project, name);
    }
    if id in files {
      var f := files[id];
      VersionsWithout(files, id);
      var versions := Versions(files, f.project, f.name);
      assert f.version in versions;
      assert f.version != MaxOrZero(versions) ==> MaxOrZero(versions) in versions - {f.version};
    }
  }

  lemma OtherNamesKeepVersions(files: map<Uuid, File>, id: Uuid, project: Uuid, name: string)
    requires id !in files || files[id].project != project || files[id].name != name
    ensures Versions(files - {id}, project, name) == Versions(files, project, name)
  {
    forall v | v in Versions(files, project, name) ensures v in Versions(files - {id}, project, name) {
      var i :| i in files && files[i].project == project && files[i].name == name && files[i].version == v;
      assert i in files - {id};
    }
  }

  lemma VersionsWithout(files: map<Uuid, File>, id: Uuid)
    requires id in files && Indexed(State(files, map[]))
    ensures Versions(files - {id}, files[id].project, files[id].name) == Versions(files, files[id].project, files[id].name) - {files[id].version}
  {
    var f := files[id];
    var others := Versions(files - {id}, f.project, f.name);
    assert f.version !in others by {
      assert forall i :: i in files && i != id && SameFile(files[i], f) ==> files[i].version != f.version;
    }
    forall v | v in Versions(files, f.project, f.name) && v != f.version ensures v in others {
      var i :| i in files && SameFile(files[i], f) && files[i].version == v;
      assert i in files - {id};
    }
  }
}
