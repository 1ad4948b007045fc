/** Purging stored files in a batch. The binaries are deleted elsewhere; the rows stay and are marked. */
module StoragePurge {
  import opened Prelude
  import opened StorageTree
  import Contracts

  datatype Mark = Mark(purgedAt: Time, purgedBySub: Uuid, purgedReason: string)

  datatype Stored = Stored(file: RawFile, mark: Option<Mark>)

  datatype ProjectInfo = ProjectInfo(clientSub: Option<string>, isCompleted: bool)

  datatype PurgeInput = PurgeInput(fileIds: seq<Uuid>, projectId: Option<Uuid>, folder: Option<FileFolder>, clientSub: Option<string>,
                                   onlyFinishedProjects: bool, forcePurgeSigned: bool, reason: string)

  datatype PurgeResult = PurgeResult(purgedCount: nat, freedBytes: int, skippedSignedContractsCount: nat)

  const DEFAULT_REASON := "Vaciado de almacenamiento por administración"

  // -------------------------------------------------------------------- selection

  predicate Candidate(f: RawFile, projects: map<Uuid, ProjectInfo>, input: PurgeInput) {
    && !f.isPurged
    && (input.fileIds == [] || f.id in input.fileIds)
    && (input.projectId.None? || f.projectId == input.projectId.value)
    && (input.folder.None? || f.folder == input.folder.value)
    && f.projectId in projects
    && (input.clientSub.None? || input.clientSub.value == "" || projects[f.projectId].clientSub == input.clientSub)
    && (input.onlyFinishedProjects ==> projects[f.projectId].isCompleted)
  }

  predicate Kept(f: RawFile, input: PurgeInput) {
    IsSigned(f) && !input.forcePurgeSigned
  }

  predicate Purged(f: RawFile, projects: map<Uuid, ProjectInfo>, input: PurgeInput) {
    Candidate(f, projects, input) && !Kept(f, input)
  }

  function MarkRow(row: Stored, projects: map<Uuid, ProjectInfo>, input: PurgeInput, mark: Mark): Stored {
    if Purged(row.file, projects, input) then Stored(row.file.(isPurged := true), Some(mark)) else row
  }

  function MarkRows(rows: seq<Stored>, projects: map<Uuid, ProjectInfo>, input: PurgeInput, mark: Mark): (r: seq<Stored>)
    ensures |r| == |rows|
  {
    seq(|rows|, i requires 0 <= i < |rows| => MarkRow(rows[i], projects, input, mark))
  }

  /** The files or bytes of all rows, of active or of purged ones. */
  function TotalOf(rows: seq<Stored>, m: Measure): int {
    if rows == [] then 0 else TotalOf(rows[..|rows| - 1], m) + Weight(rows[|rows| - 1].file, m)
  }

  function CountKept(rows: seq<Stored>, projects: map<Uuid, ProjectInfo>, input: PurgeInput): nat {
    if rows == [] then 0 else
      var f := rows[|rows| - 1].file;
      CountKept(rows[..|rows| - 1], projects, input) + if Candidate(f, projects, input) && Kept(f, input) then 1 else 0
  }

  /** The rows to purge, in order. */
  function Chosen(rows: seq<Stored>, projects: map<Uuid, ProjectInfo>, input: PurgeInput): seq<RawFile> {
    if rows == [] then [] else
      var f := rows[|rows| - 1].file;
      Chosen(rows[..|rows| - 1], projects, input) + (if Purged(f, projects, input) then [f] else [])
  }

  function IdsOfFiles(files: seq<RawFile>): set<Uuid> {
    set f | f in files :: f.id
  }

  predicate DistinctRows(rows: seq<Stored>) {
    forall i, j :: 0 <= i < j < |rows| ==> rows[i].file.id != rows[j].file.id
  }

  lemma {:induction false} ChosenAreThePurged(rows: seq<Stored>, projects: map<Uuid, ProjectInfo>, input: PurgeInput)
    ensures forall f :: f in Chosen(rows, projects, input) <==>
      exists i :: 0 <= i < |rows| && rows[i].file == f && Purged(f, projects, input)
  {
    if rows != [] {
      ChosenAreThePurged(rows[..|rows| - 1], projects, input);
    }
  }

  // ------------------------------------------------------------------ main results

  /** What a batch frees moves from the active totals to the purged ones; nothing else moves. */
  lemma {:induction false} PurgingMovesTheFreedBytes(rows: seq<Stored>, projects: map<Uuid, ProjectInfo>, input: PurgeInput, mark: Mark)
    ensures var after, chosen := MarkRows(rows, projects, input, mark), Chosen(rows, projects, input);
            && TotalOf(rows, ACTIVE_FILES) == TotalOf(after, ACTIVE_FILES) + |chosen|
            && TotalOf(after, PURGED_FILES) == TotalOf(rows, PURGED_FILES) + |chosen|
            && TotalOf(rows, ACTIVE_BYTES) == TotalOf(after, ACTIVE_BYTES) + Bytes(chosen)
            && TotalOf(after, PURGED_BYTES) == TotalOf(rows, PURGED_BYTES) + Bytes(chosen)
  {
    if rows != [] {
      var rest, f := rows[..|rows| - 1], rows[|rows| - 1].file;
      PurgingMovesTheFreedBytes(rest, projects, input, mark);
      assert MarkRows(rows, projects, input, mark)[..|rows| - 1] == MarkRows(rest, projects, input, mark);
      var before, chosen := Chosen(rest, projects, input), Chosen(rows, projects, input);
      assert Purged(f, projects, input) ==> chosen[..|chosen| - 1] == before;
      assert !Purged(f, projects, input) ==> chosen == before;
    }
  }

  /** Running the same batch again purges nothing more and keeps the same signed contracts. */
  lemma {:induction false} SecondRunFindsNothing(rows: seq<Stored>, projects: map<Uuid, ProjectInfo>, input: PurgeInput, mark: Mark)
    ensures var after := MarkRows(rows, projects, input, mark);
            && Chosen(after, projects, input) == []
            && CountKept(after, projects, input) == CountKept(rows, projects, input)
  {
    if rows != [] {
      var rest := rows[..|rows| - 1];
      SecondRunFindsNothing(rest, projects, input, mark);
      assert MarkRows(rows, projects, input, mark)[..|rows| - 1] == MarkRows(rest, projects, input, mark);
    }
  }

  /** A signed contract is only purged by a batch that says so. */
  lemma SignedContractsAreKept(rows: seq<Stored>, projects: map<Uuid, ProjectInfo>, input: PurgeInput, mark: Mark, i: nat)
    requires i < |rows| && !input.forcePurgeSigned
    requires rows[i].file.folder.ContractsFolder? && rows[i].file.contractStatus == Some(Contracts.Signed)
    ensures MarkRows(rows, projects, input, mark)[i] == rows[i]
  {
    assert MarkRows(rows, projects, input, mark)[i] == MarkRow(rows[i], projects, input, mark);
  }

  /** The signed contracts counted as kept are what the same batch would take in addition if it forced them. */
  lemma {:induction false} KeptIsWhatForceWouldTake(rows: seq<Stored>, projects: map<Uuid, ProjectInfo>, input: PurgeInput)
    ensures |Chosen(rows, projects, input)| + CountKept(rows, projects, input) ==
            |Chosen(rows, projects, input.(forcePurgeSigned := true))|
    ensures input.forcePurgeSigned ==> CountKept(rows, projects, input) == 0
  {
    if rows != [] {
      KeptIsWhatForceWouldTake(rows[..|rows| - 1], projects, input);
    }
  }

  /** Without filters a batch takes every file of a known project that is not purged yet, and keeps signed contracts back unless it
   *  forces them. */
  lemma WithoutFiltersEverythingGoes(f: RawFile, projects: map<Uuid, ProjectInfo>, force: bool, reason: string)
    ensures var input := PurgeInput([], None, None, None, false, force, reason);
      Purged(f, projects, input) <==>
        !f.isPurged && f.projectId in projects && (force || f.folder != ContractsFolder || f.contractStatus != Some(Contracts.Signed))
  {
  }

  /** Each filter takes away exactly the files that do not meet it. */
  lemma EachFilterNarrows(f: RawFile, projects: map<Uuid, ProjectInfo>, input: PurgeInput)
    ensures input.fileIds != [] ==>
      (Purged(f, projects, input) <==> Purged(f, projects, input.(fileIds := [])) && f.id in input.fileIds)
    ensures input.projectId.Some? ==>
      (Purged(f, projects, input) <==> Purged(f, projects, input.(projectId := None)) && input.projectId == Some(f.projectId))
    ensures input.folder.Some? ==>
      (Purged(f, projects, input) <==> Purged(f, projects, input.(folder := None)) && input.folder == Some(f.folder))
    ensures input.clientSub.Some? && input.clientSub.value != "" ==>
      (Purged(f, projects, input) <==>
         Purged(f, projects, input.(clientSub := None)) && projects[f.projectId].clientSub == input.clientSub)
    ensures input.clientSub == Some("") ==> (Purged(f, projects, input) <==> Purged(f, projects, input.(clientSub := None)))
    ensures input.onlyFinishedProjects ==>
      (Purged(f, projects, input) <==>
         Purged(f, projects, input.(onlyFinishedProjects := false)) && projects[f.projectId].isCompleted)
  {
  }

  // -------------------------------------------------------------------------- code

  class FileRows {
    var rows: seq<Stored>

    constructor (rows: seq<Stored>)
      ensures this.rows == rows
    {
      this.rows := rows;
    }

    method MarkFilesAsPurged(ids: set<Uuid>, mark: Mark)
      modifies this
      ensures |rows| == |old(rows)|
      ensures forall i :: 0 <= i < |rows| ==>
        rows[i] == if old(rows)[i].file.id in ids then Stored(old(rows)[i].file.(isPurged := true), Some(mark)) else old(rows)[i]
    {
      for i := 0 to |rows|
        invariant |rows| == |old(rows)|
        invariant forall k :: i <= k < |rows| ==> rows[k] == old(rows)[k]
        invariant forall k :: 0 <= k < i ==>
          rows[k] == if old(rows)[k].file.id in ids then Stored(old(rows)[k].file.(isPurged := true), Some(mark)) else old(rows)[k]
      {
        if rows[i].file.id in ids {
          rows := rows[i := Stored(rows[i].file.(isPurged := true), Some(mark))];
        }
      }
    }

    method FindFilesToPurge(projects: map<Uuid, ProjectInfo>, input: PurgeInput)
      returns (toPurge: seq<RawFile>, freed: int, skipped: nat)
      ensures toPurge == Chosen(rows, projects, input) && freed == Bytes(toPurge)
      ensures skipped == CountKept(rows, projects, input)
    {
      toPurge, freed, skipped := [], 0, 0;
      for i := 0 to |rows|
        invariant toPurge == Chosen(rows[..i], projects, input) && freed == Bytes(toPurge)
        invariant skipped == CountKept(rows[..i], projects, input)
      {
        assert rows[..i + 1][..i] == rows[..i];
        var f := rows[i].file;
        if Candidate(f, projects, input) {
          if IsSigned(f) && !input.forcePurgeSigned {
            skipped := skipped + 1;
          } else {
            assert (toPurge + [f])[..|toPurge|] == toPurge;
            toPurge := toPurge + [f];
            freed := freed + f.sizeBytes;
          }
        }
      }
      assert rows[..|rows|] == rows;
    }

    method PurgeBatch(projects: map<Uuid, ProjectInfo>, input: PurgeInput, actor: Uuid, now: Time) returns (r: PurgeResult)
      requires DistinctRows(rows)
      modifies this
      ensures rows == MarkRows(old(rows), projects, input,
        Mark(now, actor, if input.reason == "" then DEFAULT_REASON else input.reason))
      ensures r.purgedCount == |Chosen(old(rows), projects, input)|
      ensures r.freedBytes == Bytes(Chosen(old(rows), projects, input))
      ensures r.skippedSignedContractsCount == CountKept(old(rows), projects, input)
    {
      var toPurge, freed, skipped := FindFilesToPurge(projects, input);
      ChosenAreThePurged(rows, projects, input);
      r := PurgeResult(|toPurge|, freed, skipped);
      var mark := Mark(now, actor, if input.reason == "" then DEFAULT_REASON else input.reason);
      assert forall i :: 0 <= i < |rows| ==> (rows[i].file.id in IdsOfFiles(toPurge) <==> Purged(rows[i].file, projects, input));
      if toPurge == [] {
        assert forall i :: 0 <= i < |rows| ==> !Purged(rows[i].file, projects, input);
        assert rows == MarkRows(rows, projects, input, mark);
        return;
      }
      MarkFilesAsPurged(IdsOfFiles(toPurge), mark);
      assert rows == MarkRows(old(rows), projects, input, mark);
    }
  }
}
