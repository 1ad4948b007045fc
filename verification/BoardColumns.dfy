/** Reordering board columns with staged negative positions under a unique (project, position) index. */
module BoardColumns {
  import opened Prelude

  datatype Column = Column(projectId: Uuid, position: int)

  type Columns = map<Uuid, Column>

  predicate Siblings(rows: Columns, a: Uuid, b: Uuid)
    requires a in rows && b in rows
  {
    rows[a].projectId == rows[b].projectId
  }

  ghost predicate DistinctPositions(rows: Columns) {
    forall a, b :: a in rows && b in rows && a != b && Siblings(rows, a, b) ==> rows[a].position != rows[b].position
  }

  /** The state between operations: positions are distinct and not negative; gaps are fine. */
  ghost predicate Canonical(rows: Columns) {
    DistinctPositions(rows) && forall a :: a in rows ==> 0 <= rows[a].position
  }

  function Shifted(rows: Columns, targets: set<Uuid>, f: int -> int): Columns {
    map a | a in rows :: if a in targets then rows[a].(position := f(rows[a].position)) else rows[a]
  }

  /** No updated row can ever meet another one, updated already or not. */
  ghost predicate SafeShift(rows: Columns, targets: set<Uuid>, f: int -> int) {
    forall a, b :: a in targets && a in rows && b in rows && a != b && Siblings(rows, a, b) ==>
      f(rows[a].position) != rows[b].position && (b in targets ==> f(rows[a].position) != f(rows[b].position))
  }

  /** An updated row lands on one the statement does not touch. */
  ghost predicate Clash(rows: Columns, targets: set<Uuid>, f: int -> int) {
    exists a, b :: a in targets && a in rows && b in rows && b !in targets && Siblings(rows, a, b) && f(rows[a].position) == rows[b].position
  }

  /** In whatever order the rows of a statement are updated, the index holds after every single row. */
  lemma {:induction false} EveryPrefixKeepsTheIndex(rows: Columns, targets: set<Uuid>, done: set<Uuid>, f: int -> int)
    requires DistinctPositions(rows) && SafeShift(rows, targets, f) && done <= targets
    ensures DistinctPositions(Shifted(rows, done, f))
  {
    var now := Shifted(rows, done, f);
    forall a, b | a in now && b in now && a != b && Siblings(now, a, b)
      ensures now[a].position != now[b].position
    {
      assert Siblings(rows, a, b) && Siblings(rows, b, a);
    }
  }

  // ------------------------------------------------------------ specification

  function InsertAt(rows: Columns, id: Uuid, projectId: Uuid, position: int): Columns
    requires id !in rows
  {
    (map a | a in rows ::
       if rows[a].projectId == projectId && position <= rows[a].position
       then rows[a].(position := rows[a].position + 1) else rows[a])[id := Column(projectId, position)]
  }

  function MovedPosition(from: int, to: int, p: int): int {
    if from < p <= to then p - 1 else if to <= p < from then p + 1 else p
  }

  function MoveTo(rows: Columns, id: Uuid, to: int): Columns
    requires id in rows
  {
    map a | a in rows ::
      if a == id then rows[a].(position := to)
      else if Siblings(rows, a, id) then rows[a].(position := MovedPosition(rows[id].position, to, rows[a].position))
      else rows[a]
  }

  /** Moving a column down to position 0 while another column is there. */
  predicate MeetsParkedColumn(rows: Columns, id: Uuid, to: int)
    requires id in rows
  {
    to == 0 < rows[id].position && exists z :: z in rows && Siblings(rows, z, id) && rows[z].position == 0
  }

  /** What the move leaves behind in that case when no index stops it: the column from position 0 stays at -1. */
  function Stranded(rows: Columns, id: Uuid): Columns
    requires id in rows
  {
    map a | a in rows ::
      if a == id then rows[a].(position := 0)
      else if Siblings(rows, a, id) && rows[a].position == 0 then rows[a].(position := -1)
      else if Siblings(rows, a, id) then rows[a].(position := MovedPosition(rows[id].position, 0, rows[a].position))
      else rows[a]
  }

  // ---------------------------------------------------- the staged statements

  function Park(p: int): int { -1 }

  function Stage(p: int): int { -p - 1 }

  /** Undoes the staging one position lower. */
  function RestoreLower(p: int): int { -p - 2 }

  /** Undoes the staging one position higher. */
  function RestoreHigher(p: int): int { -p }

  function Between(rows: Columns, projectId: Uuid, low: int, high: int): set<Uuid> {
    set a | a in rows && rows[a].projectId == projectId && low <= rows[a].position < high
  }

  function Below(rows: Columns, projectId: Uuid, bound: int): set<Uuid> {
    set a | a in rows && rows[a].projectId == projectId && rows[a].position < bound
  }

  function From(rows: Columns, projectId: Uuid, low: int): set<Uuid> {
    set a | a in rows && rows[a].projectId == projectId && low <= rows[a].position
  }

  /** Staging a range of non-negative positions is safe as long as nothing else is below -1 and -1 stays unused. */
  lemma StagingIsSafe(rows: Columns, targets: set<Uuid>)
    requires DistinctPositions(rows) && targets <= rows.Keys
    requires forall a :: a in targets ==> 0 <= rows[a].position
    requires forall a, b :: a in targets && b in rows && Siblings(rows, a, b) && rows[b].position < 0 ==>
      rows[b].position == -1 && rows[a].position != 0
    ensures SafeShift(rows, targets, Stage)
  {
  }

  lemma CreateStages(rows: Columns, projectId: Uuid, position: int)
    requires Canonical(rows) && 0 <= position
    ensures var shifting := From(rows, projectId, position);
            var staged := Shifted(rows, shifting, Stage);
            && SafeShift(rows, shifting, Stage)
            && Below(staged, projectId, 0) == shifting
            && SafeShift(staged, shifting, RestoreHigher)
  {
    StagingIsSafe(rows, From(rows, projectId, position));
  }

  lemma CreateResult(rows: Columns, id: Uuid, projectId: Uuid, position: int)
    requires Canonical(rows) && id !in rows && 0 <= position
    ensures var shifting := From(rows, projectId, position);
            Shifted(Shifted(rows, shifting, Stage), shifting, RestoreHigher)[id := Column(projectId, position)] ==
            InsertAt(rows, id, projectId, position)
  {
  }

  lemma UpStages(saved: Columns, id: Uuid, to: int)
    requires Canonical(saved) && id in saved && saved[id].position < to
    ensures var parked := Shifted(saved, {id}, Park);
            var shifting := Between(parked, saved[id].projectId, saved[id].position + 1, to + 1);
            var staged := Shifted(parked, shifting, Stage);
            && SafeShift(saved, {id}, Park)
            && SafeShift(parked, shifting, Stage)
            && Below(staged, saved[id].projectId, -1) == shifting
            && SafeShift(staged, shifting, RestoreLower)
  {
    var parked := Shifted(saved, {id}, Park);
    ParkedIsDistinct(saved, id);
    StagingIsSafe(parked, Between(parked, saved[id].projectId, saved[id].position + 1, to + 1));
  }

  lemma ParkingIsSafe(saved: Columns, id: Uuid)
    requires Canonical(saved) && id in saved
    ensures SafeShift(saved, {id}, Park)
  {
  }

  lemma ParkedIsDistinct(saved: Columns, id: Uuid)
    requires Canonical(saved) && id in saved
    ensures DistinctPositions(Shifted(saved, {id}, Park))
    ensures forall a :: a in saved ==> Siblings(Shifted(saved, {id}, Park), a, id) == Siblings(saved, a, id)
  {
    assert SafeShift(saved, {id}, Park);
    EveryPrefixKeepsTheIndex(saved, {id}, {id}, Park);
  }

  function Constant(to: int): int -> int {
    _ => to
  }

  /** The moving column is still parked, everything else is where it belongs. */
  function StillParked(rows: Columns, id: Uuid): Columns
    requires id in rows
  {
    rows[id := rows[id].(position := -1)]
  }

  lemma UpResult(saved: Columns, id: Uuid, to: int)
    requires Canonical(saved) && id in saved && saved[id].position < to
    ensures var parked := Shifted(saved, {id}, Park);
            var shifting := Between(parked, saved[id].projectId, saved[id].position + 1, to + 1);
            Shifted(Shifted(parked, shifting, Stage), shifting, RestoreLower) == StillParked(MoveTo(saved, id, to), id)
  {
  }

  lemma DownShiftIsSafe(saved: Columns, id: Uuid, to: int)
    requires Canonical(saved) && id in saved && 0 <= to < saved[id].position
    ensures var parked := Shifted(saved, {id}, Park);
            var shifting := Between(parked, saved[id].projectId, to, saved[id].position);
            && SafeShift(saved, {id}, Park)
            && (!MeetsParkedColumn(saved, id, to) ==> SafeShift(parked, shifting, Stage))
            && (MeetsParkedColumn(saved, id, to) ==> Clash(parked, shifting, Stage))
  {
    var parked := Shifted(saved, {id}, Park);
    var shifting := Between(parked, saved[id].projectId, to, saved[id].position);
    ParkedIsDistinct(saved, id);
    if MeetsParkedColumn(saved, id, to) {
      var z :| z in saved && Siblings(saved, z, id) && saved[z].position == 0;
      assert z in shifting && id !in shifting && Siblings(parked, z, id) && Stage(parked[z].position) == parked[id].position;
    } else {
      StagingIsSafe(parked, shifting);
    }
  }

  function StagedDown(saved: Columns, id: Uuid, to: int): Columns
    requires id in saved
  {
    var parked := Shifted(saved, {id}, Park);
    Shifted(parked, Between(parked, saved[id].projectId, to, saved[id].position), Stage)
  }

  /** Everything the staging moved comes back, except what it put on -1. */
  lemma DownBack(saved: Columns, id: Uuid, to: int)
    requires Canonical(saved) && id in saved && 0 <= to < saved[id].position
    ensures Below(StagedDown(saved, id, to), saved[id].projectId, -1) ==
            Between(saved, saved[id].projectId, if to == 0 then 1 else to, saved[id].position)
    ensures SafeShift(StagedDown(saved, id, to), Below(StagedDown(saved, id, to), saved[id].projectId, -1), RestoreHigher)
  {
  }

  lemma DownRestores(saved: Columns, id: Uuid, to: int)
    requires Canonical(saved) && id in saved && 0 <= to < saved[id].position
    ensures Shifted(StagedDown(saved, id, to), Below(StagedDown(saved, id, to), saved[id].projectId, -1), RestoreHigher) ==
            StillParked(if MeetsParkedColumn(saved, id, to) then Stranded(saved, id) else MoveTo(saved, id, to), id)
  {
    DownBack(saved, id, to);
    var back := Between(saved, saved[id].projectId, if to == 0 then 1 else to, saved[id].position);
    var result := Shifted(StagedDown(saved, id, to), back, RestoreHigher);
    var expected := StillParked(if MeetsParkedColumn(saved, id, to) then Stranded(saved, id) else MoveTo(saved, id, to), id);
    forall a | a in saved ensures result[a] == expected[a] {
      if a != id && Siblings(saved, a, id) && saved[a].position == 0 && to == 0 {
        assert MeetsParkedColumn(saved, id, to);
      }
    }
  }

  lemma UnparkIsSafe(saved: Columns, id: Uuid, to: int)
    requires Canonical(saved) && id in saved && 0 <= to && to != saved[id].position
    ensures !MeetsParkedColumn(saved, id, to) ==> SafeShift(StillParked(MoveTo(saved, id, to), id), {id}, Constant(to))
    ensures Shifted(StillParked(MoveTo(saved, id, to), id), {id}, Constant(to)) == MoveTo(saved, id, to)
    ensures Shifted(StillParked(Stranded(saved, id), id), {id}, Constant(0)) == Stranded(saved, id)
  {
  }

  // --------------------------------------------------------------------- code

  class ColumnTable {
    var rows: Columns
    /** Is the unique index of the first migration in place? */
    const indexed: bool

    constructor (indexed: bool)
      ensures rows == map[] && this.indexed == indexed
    {
      rows := map[];
      this.indexed := indexed;
    }

    predicate Taken(id: Uuid, position: int)
      requires id in rows
      reads this
    {
      exists b :: b in rows && b != id && Siblings(rows, b, id) && rows[b].position == position
    }

    /** One UPDATE statement: the rows change in some order, and the first violation of the index undoes it. */
    method Update(targets: set<Uuid>, f: int -> int) returns (ok: bool)
      requires targets <= rows.Keys
      requires indexed ==> DistinctPositions(rows)
      modifies this
      ensures rows == if ok then Shifted(old(rows), targets, f) else old(rows)
      ensures indexed ==> DistinctPositions(rows)
      ensures !indexed ==> ok
      ensures SafeShift(old(rows), targets, f) ==> ok
      ensures indexed && Clash(old(rows), targets, f) ==> !ok
    {
      var saved := rows;
      var todo := targets;
      while todo != {}
        invariant todo <= targets
        invariant rows == Shifted(old(rows), targets - todo, f)
        invariant indexed ==> DistinctPositions(rows)
      {
        var a :| a in todo;
        var position := f(saved[a].position);
        if indexed && Taken(a, position) {
          var b :| b in rows && b != a && Siblings(rows, b, a) && rows[b].position == position;
          assert Siblings(saved, a, b);
          rows := saved;
          return false;
        }
        rows := rows[a := saved[a].(position := position)];
        todo := todo - {a};
        assert rows == Shifted(saved, targets - todo, f);
      }
      assert targets - todo == targets;
      assert forall a, b :: a in saved && b in saved && Siblings(saved, a, b) ==> Siblings(rows, a, b);
      return true;
    }

    method CreateTaskColumnAtPosition(id: Uuid, projectId: Uuid, position: int) returns (ok: bool)
      requires id !in rows && Canonical(rows) && 0 <= position
      modifies this
      ensures ok && rows == InsertAt(old(rows), id, projectId, position)
    {
      CreateStages(rows, projectId, position);
      CreateResult(rows, id, projectId, position);
      ok := Update(From(rows, projectId, position), Stage);
      ok := Update(Below(rows, projectId, 0), RestoreHigher);
      rows := rows[id := Column(projectId, position)];
    }

    /** The transaction is rolled back when a statement fails. */
    method MoveTaskColumnToPosition(id: Uuid, nextPosition: int) returns (ok: bool)
      requires id in rows && Canonical(rows) && 0 <= nextPosition
      modifies this
      ensures ok && rows == MoveTo(old(rows), id, nextPosition) <==> !MeetsParkedColumn(old(rows), id, nextPosition)
      ensures ok <==> !(indexed && MeetsParkedColumn(old(rows), id, nextPosition))
      ensures ok && MeetsParkedColumn(old(rows), id, nextPosition) ==> rows == Stranded(old(rows), id)
      ensures !ok ==> rows == old(rows)
    {
      var saved, column := rows, rows[id];
      if MeetsParkedColumn(saved, id, nextPosition) {
        StrandedIsNotMoved(saved, id, nextPosition);
      }
      if column.position == nextPosition {
        MoveToSamePlace(rows, id);
        return true;
      }
      ParkingIsSafe(saved, id);
      ok := Update({id}, Park);
      if column.position < nextPosition {
        MoveUp(id, column, nextPosition, saved);
      } else {
        ok := MoveDown(id, column, nextPosition, saved);
        if !ok {
          rows := saved;
          return;
        }
      }
      UnparkIsSafe(saved, id, nextPosition);
      ok := Update({id}, Constant(nextPosition));
    }

    /** Stages the columns after the parked one and brings them back one position lower. */
    method MoveUp(id: Uuid, column: Column, nextPosition: int, ghost saved: Columns)
      requires Canonical(saved) && id in saved && saved[id] == column && column.position < nextPosition
      requires rows == Shifted(saved, {id}, Park) && (indexed ==> DistinctPositions(rows))
      modifies this
      ensures rows == StillParked(MoveTo(saved, id, nextPosition), id)
      ensures indexed ==> DistinctPositions(rows)
    {
      UpStages(saved, id, nextPosition);
      UpResult(saved, id, nextPosition);
      var ok := Update(Between(rows, column.projectId, column.position + 1, nextPosition + 1), Stage);
      ok := Update(Below(rows, column.projectId, -1), RestoreLower);
    }

    /** Stages the columns before the parked one and brings them back one position higher. */
    method MoveDown(id: Uuid, column: Column, nextPosition: int, ghost saved: Columns) returns (ok: bool)
      requires Canonical(saved) && id in saved && saved[id] == column && 0 <= nextPosition < column.position
      requires rows == Shifted(saved, {id}, Park) && (indexed ==> DistinctPositions(rows))
      modifies this
      ensures ok <==> !(indexed && MeetsParkedColumn(saved, id, nextPosition))
      ensures ok && MeetsParkedColumn(saved, id, nextPosition) ==> rows == StillParked(Stranded(saved, id), id)
      ensures ok && !MeetsParkedColumn(saved, id, nextPosition) ==> rows == StillParked(MoveTo(saved, id, nextPosition), id)
      ensures indexed ==> DistinctPositions(rows)
    {
      DownShiftIsSafe(saved, id, nextPosition);
      ok := Update(Between(rows, column.projectId, nextPosition, column.position), Stage);
      if !ok {
        return;
      }
      assert rows == StagedDown(saved, id, nextPosition);
      DownBack(saved, id, nextPosition);
      DownRestores(saved, id, nextPosition);
      ok := Update(Below(rows, column.projectId, -1), RestoreHigher);
    }
  }

  lemma MoveToSamePlace(rows: Columns, id: Uuid)
    requires id in rows
    ensures MoveTo(rows, id, rows[id].position) == rows
  {
  }

  // ------------------------------------------------------------- list refinement

  ghost predicate Rising(rows: Columns, s: seq<Uuid>) {
    && (forall i :: 0 <= i < |s| ==> s[i] in rows)
    && (forall i, j :: 0 <= i < j < |s| ==> rows[s[i]].position < rows[s[j]].position)
  }

  ghost predicate Lists(rows: Columns, projectId: Uuid, s: seq<Uuid>) {
    forall a :: a in rows && rows[a].projectId == projectId <==> a in s
  }

  /** `s` lists the columns of a project in board order. */
  ghost predicate IsOrder(rows: Columns, projectId: Uuid, s: seq<Uuid>) {
    Lists(rows, projectId, s) && Rising(rows, s)
  }

  /** A board has one order only. */
  lemma {:induction false} OrderIsUnique(rows: Columns, projectId: Uuid, s: seq<Uuid>, t: seq<Uuid>)
    requires IsOrder(rows, projectId, s) && IsOrder(rows, projectId, t)
    ensures s == t
    decreases |s|
  {
    assert t == [] || t[0] in s;
    if s != [] {
      assert s[0] in t && (t != [] ==> t[0] in s);
      assert s[0] == t[0];
      var rest := map a | a in rows && a != s[0] :: rows[a];
      OrderIsUnique(rest, projectId, s[1..], t[1..]);
    }
  }

  /** Where in board order `bound` falls: behind everything before it. */
  function Cut(rows: Columns, s: seq<Uuid>, bound: int): (k: nat)
    requires forall i :: 0 <= i < |s| ==> s[i] in rows
    ensures k <= |s|
    ensures forall i :: 0 <= i < k ==> rows[s[i]].position < bound
    ensures k < |s| ==> bound <= rows[s[k]].position
  {
    if s == [] || bound <= rows[s[0]].position then 0 else 1 + Cut(rows, s[1..], bound)
  }

  function Spliced(s: seq<Uuid>, k: nat, id: Uuid): seq<Uuid>
    requires k <= |s|
  {
    s[..k] + [id] + s[k..]
  }

  lemma SplicedElements(s: seq<Uuid>, k: nat, id: Uuid)
    requires k <= |s|
    ensures forall a :: a in Spliced(s, k, id) <==> a in s || a == id
  {
    assert s == s[..k] + s[k..];
  }

  /** A rising list stays rising when its rows move monotonically and a new one fits in between. */
  lemma SplicedRises(rows: Columns, s: seq<Uuid>, k: nat, id: Uuid)
    requires k <= |s| && Rising(rows, s) && id in rows
    requires forall i :: 0 <= i < k ==> rows[s[i]].position < rows[id].position
    requires forall i :: k <= i < |s| ==> rows[id].position < rows[s[i]].position
    ensures Rising(rows, Spliced(s, k, id))
  {
    var t := Spliced(s, k, id);
    forall i, j | 0 <= i < j < |t| ensures rows[t[i]].position < rows[t[j]].position {
      assert t[i] == if i < k then s[i] else if i == k then id else s[i - 1];
      assert t[j] == if j < k then s[j] else if j == k then id else s[j - 1];
    }
  }

  lemma InsertKeepsRising(rows: Columns, projectId: Uuid, s: seq<Uuid>, id: Uuid, position: int)
    requires id !in rows && IsOrder(rows, projectId, s)
    ensures var rows' := InsertAt(rows, id, projectId, position);
            var k := Cut(rows, s, position);
            && Rising(rows', s) && id in rows'
            && (forall i :: 0 <= i < k ==> rows'[s[i]].position < position)
            && (forall i :: k <= i < |s| ==> position < rows'[s[i]].position)
  {
    var rows' := InsertAt(rows, id, projectId, position);
    var k := Cut(rows, s, position);
    forall i | 0 <= i < |s|
      ensures s[i] in rows'
      ensures rows'[s[i]].position == if position <= rows[s[i]].position then rows[s[i]].position + 1 else rows[s[i]].position
    {
      assert s[i] in s;
    }
  }

  /** Creating a column inserts it into the list. */
  lemma {:induction false} CreateInsertsIntoTheList(rows: Columns, projectId: Uuid, s: seq<Uuid>, id: Uuid, position: int)
    requires Canonical(rows) && id !in rows && 0 <= position && IsOrder(rows, projectId, s)
    ensures IsOrder(InsertAt(rows, id, projectId, position), projectId, Spliced(s, Cut(rows, s, position), id))
  {
    var k := Cut(rows, s, position);
    InsertKeepsRising(rows, projectId, s, id, position);
    SplicedRises(InsertAt(rows, id, projectId, position), s, k, id);
    SplicedElements(s, k, id);
  }

  /** Creating a column keeps every board well formed and leaves other projects alone. */
  lemma {:induction false} CreateKeepsBoards(rows: Columns, id: Uuid, projectId: Uuid, position: int)
    requires Canonical(rows) && id !in rows && 0 <= position
    ensures Canonical(InsertAt(rows, id, projectId, position))
    ensures forall a :: a in rows && rows[a].projectId != projectId ==> InsertAt(rows, id, projectId, position)[a] == rows[a]
  {
    var rows' := InsertAt(rows, id, projectId, position);
    forall a, b | a in rows' && b in rows' && a != b && Siblings(rows', a, b)
      ensures rows'[a].position != rows'[b].position
    {
      assert a != id && b != id ==> Siblings(rows, a, b);
    }
  }

  function Without(s: seq<Uuid>, i: nat): seq<Uuid>
    requires i < |s|
  {
    s[..i] + s[i + 1..]
  }

  lemma WithoutElements(s: seq<Uuid>, i: nat)
    requires i < |s|
    ensures |Without(s, i)| == |s| - 1
    ensures forall j :: 0 <= j < |s| - 1 ==> Without(s, i)[j] == s[if j < i then j else j + 1]
    ensures forall a :: a in s <==> a in Without(s, i) || a == s[i]
  {
    assert s == s[..i] + [s[i]] + s[i + 1..];
  }

  lemma MovedIsMonotone(from: int, to: int, p: int, q: int)
    requires p < q && p != from && q != from
    ensures MovedPosition(from, to, p) < MovedPosition(from, to, q)
  {
  }

  /** Where the others land relative to the target. */
  lemma MovedAroundTarget(from: int, to: int, p: int)
    requires p != from && from != to
    ensures MovedPosition(from, to, p) < to <==> p < if from < to then to + 1 else to
    ensures MovedPosition(from, to, p) != to
  {
  }

  /** The others keep their order, whether the column moves to `to` or the first one gets stranded. */
  lemma OthersRise(rows: Columns, s: seq<Uuid>, i: nat)
    requires i < |s| && Rising(rows, s)
    ensures Rising(rows, Without(s, i))
    ensures forall j :: 0 <= j < |s| - 1 ==> rows[Without(s, i)[j]].position != rows[s[i]].position
  {
    WithoutElements(s, i);
    forall j | 0 <= j < |s| - 1 ensures rows[Without(s, i)[j]].position != rows[s[i]].position {
      if j < i {
        assert rows[s[j]].position < rows[s[i]].position;
      } else {
        assert rows[s[i]].position < rows[s[j + 1]].position;
      }
    }
  }

  ghost predicate MovedAlike(rows: Columns, rows': Columns, rest: seq<Uuid>, from: int, to: int)
    requires Rising(rows, rest)
  {
    forall j :: 0 <= j < |rest| ==> rest[j] in rows' && rows'[rest[j]].position == MovedPosition(from, to, rows[rest[j]].position)
  }

  lemma MovedAlikeRises(rows: Columns, rows': Columns, rest: seq<Uuid>, from: int, to: int)
    requires Rising(rows, rest) && MovedAlike(rows, rows', rest, from, to)
    requires forall j :: 0 <= j < |rest| ==> rows[rest[j]].position != from
    ensures Rising(rows', rest)
  {
    forall i, j | 0 <= i < j < |rest| ensures rows'[rest[i]].position < rows'[rest[j]].position {
      MovedIsMonotone(from, to, rows[rest[i]].position, rows[rest[j]].position);
    }
  }

  lemma MovedAlikeCut(rows: Columns, rows': Columns, rest: seq<Uuid>, from: int, to: int)
    requires Rising(rows, rest) && MovedAlike(rows, rows', rest, from, to) && from != to
    requires forall j :: 0 <= j < |rest| ==> rows[rest[j]].position != from
    ensures var k := Cut(rows, rest, if from < to then to + 1 else to);
            && (forall j :: 0 <= j < k ==> rows'[rest[j]].position < to)
            && (forall j :: k <= j < |rest| ==> to < rows'[rest[j]].position)
  {
    var bound := if from < to then to + 1 else to;
    var k := Cut(rows, rest, bound);
    forall j | 0 <= j < |rest|
      ensures rows'[rest[j]].position != to && (rows'[rest[j]].position < to <==> j < k)
    {
      MovedAroundTarget(from, to, rows[rest[j]].position);
      assert k < j ==> rows[rest[k]].position < rows[rest[j]].position;
    }
  }

  /** Moving a column takes it out of the list and puts it back where its target position falls among the others. */
  lemma {:induction false} MoveIsRemoveThenInsert(rows: Columns, projectId: Uuid, s: seq<Uuid>, i: nat, to: int)
    requires Canonical(rows) && 0 <= to && i < |s| && IsOrder(rows, projectId, s) && rows[s[i]].position != to
    ensures Rising(rows, Without(s, i))
    ensures var k := Cut(rows, Without(s, i), if rows[s[i]].position < to then to + 1 else to);
            IsOrder(MoveTo(rows, s[i], to), projectId, Spliced(Without(s, i), k, s[i]))
  {
    var id, rest := s[i], Without(s, i);
    var from := rows[id].position;
    var rows' := MoveTo(rows, id, to);
    OthersRise(rows, s, i);
    WithoutElements(s, i);
    assert id in s;
    forall j | 0 <= j < |rest| ensures rest[j] in s && rest[j] != id {
    }
    assert MovedAlike(rows, rows', rest, from, to);
    MovedAlikeRises(rows, rows', rest, from, to);
    MovedAlikeCut(rows, rows', rest, from, to);
    var k := Cut(rows, rest, if from < to then to + 1 else to);
    SplicedRises(rows', rest, k, id);
    MoveKeepsMembers(rows, projectId, s, i, to, k);
  }

  lemma MoveKeepsMembers(rows: Columns, projectId: Uuid, s: seq<Uuid>, i: nat, to: int, k: nat)
    requires i < |s| && k <= |s| - 1 && s[i] in rows && Lists(rows, projectId, s)
    ensures |Without(s, i)| == |s| - 1 && Lists(MoveTo(rows, s[i], to), projectId, Spliced(Without(s, i), k, s[i]))
  {
    WithoutElements(s, i);
    SplicedElements(Without(s, i), k, s[i]);
  }

  /** A move keeps every board well formed and leaves other projects alone. */
  lemma {:induction false} MoveKeepsBoards(rows: Columns, id: Uuid, to: int)
    requires Canonical(rows) && 0 <= to && id in rows
    ensures Canonical(MoveTo(rows, id, to))
    ensures forall a :: a in rows && !Siblings(rows, a, id) ==> MoveTo(rows, id, to)[a] == rows[a]
  {
    var rows' := MoveTo(rows, id, to);
    forall a, b | a in rows' && b in rows' && a != b && Siblings(rows', a, b)
      ensures rows'[a].position != rows'[b].position
    {
      assert Siblings(rows, a, b) && Siblings(rows, a, id) == Siblings(rows, b, id);
    }
  }

  /** On a board without gaps the target position is the target index. */
  lemma {:induction false} PositionIsIndexWithoutGaps(rows: Columns, projectId: Uuid, s: seq<Uuid>, i: nat, to: nat)
    requires i < |s| && to < |s| && IsOrder(rows, projectId, s)
    requires forall j :: 0 <= j < |s| ==> rows[s[j]].position == j
    ensures Rising(rows, Without(s, i))
    ensures Cut(rows, Without(s, i), if i < to then to + 1 else to) == to
  {
    OthersRise(rows, s, i);
    WithoutElements(s, i);
    CutIsIndex(rows, Without(s, i), i, to);
  }

  lemma CutIsIndex(rows: Columns, rest: seq<Uuid>, i: nat, to: nat)
    requires i <= |rest| && to <= |rest| && forall j :: 0 <= j < |rest| ==> rest[j] in rows
    requires forall j :: 0 <= j < |rest| ==> rows[rest[j]].position == if j < i then j else j + 1
    ensures Cut(rows, rest, if i < to then to + 1 else to) == to
  {
    var k := Cut(rows, rest, if i < to then to + 1 else to);
    assert k < |rest| ==> rows[rest[k]].position == if k < i then k else k + 1;
    assert to < |rest| ==> rows[rest[to]].position == if to < i then to else to + 1;
  }

  /** Without the index, a move to an occupied position 0 puts the column second: the old first column stays in front of
   *  it, at the invalid position -1. */
  lemma {:induction false} StrandedColumnStaysFirst(rows: Columns, projectId: Uuid, s: seq<Uuid>, i: nat)
    requires Canonical(rows) && i < |s| && IsOrder(rows, projectId, s) && MeetsParkedColumn(rows, s[i], 0)
    ensures 0 < i && rows[s[0]].position == 0 && Stranded(rows, s[i])[s[0]].position == -1
    ensures IsOrder(Stranded(rows, s[i]), projectId, Spliced(Without(s, i), 1, s[i]))
  {
    FirstIsAtZero(rows, projectId, s, i);
    StrandedRises(rows, projectId, s, i);
    WithoutElements(s, i);
    SplicedRises(Stranded(rows, s[i]), Without(s, i), 1, s[i]);
    SplicedElements(Without(s, i), 1, s[i]);
  }

  lemma StrandedOthers(rows: Columns, projectId: Uuid, s: seq<Uuid>, i: nat)
    requires Canonical(rows) && 0 < i < |s| && IsOrder(rows, projectId, s) && rows[s[0]].position == 0
    ensures var rest, rows' := Without(s, i), Stranded(rows, s[i]);
            && Rising(rows, rest) && rest != [] && rest[0] == s[0]
            && rest[0] in rows' && rows'[rest[0]].position == -1
            && (forall j :: 1 <= j < |rest| ==>
                  rest[j] in rows' && 0 < rows[rest[j]].position != rows[s[i]].position
                  && rows'[rest[j]].position == MovedPosition(rows[s[i]].position, 0, rows[rest[j]].position))
  {
    var rest := Without(s, i);
    OthersRise(rows, s, i);
    WithoutElements(s, i);
    assert s[i] in s && forall j :: 0 <= j < |rest| ==> rest[j] in s && rest[j] != s[i];
    assert forall j :: 1 <= j < |rest| ==> rows[rest[0]].position < rows[rest[j]].position;
  }

  lemma StrandedRises(rows: Columns, projectId: Uuid, s: seq<Uuid>, i: nat)
    requires Canonical(rows) && 0 < i < |s| && IsOrder(rows, projectId, s) && rows[s[0]].position == 0
    ensures var rest, rows' := Without(s, i), Stranded(rows, s[i]);
            && Rising(rows', rest) && rest != [] && rest[0] == s[0] && rows'[s[0]].position == -1
            && (forall j :: 1 <= j < |rest| ==> 0 < rows'[rest[j]].position)
  {
    StrandedOthers(rows, projectId, s, i);
    var rest, rows', from := Without(s, i), Stranded(rows, s[i]), rows[s[i]].position;
    forall a, b | 0 <= a < b < |rest| ensures rows'[rest[a]].position < rows'[rest[b]].position {
      if 0 < a {
        MovedIsMonotone(from, 0, rows[rest[a]].position, rows[rest[b]].position);
      }
    }
  }

  lemma FirstIsAtZero(rows: Columns, projectId: Uuid, s: seq<Uuid>, i: nat)
    requires Canonical(rows) && i < |s| && IsOrder(rows, projectId, s) && MeetsParkedColumn(rows, s[i], 0)
    ensures 0 < i && rows[s[0]].position == 0
  {
    assert s[i] in s;
    var z :| z in rows && Siblings(rows, z, s[i]) && rows[z].position == 0;
    assert z in s;
    assert forall j :: 0 < j < |s| ==> rows[s[0]].position < rows[s[j]].position;
  }

  lemma StrandedIsNotMoved(rows: Columns, id: Uuid, to: int)
    requires Canonical(rows) && id in rows && MeetsParkedColumn(rows, id, to)
    ensures Stranded(rows, id) != MoveTo(rows, id, to)
  {
    var z :| z in rows && Siblings(rows, z, id) && rows[z].position == 0;
    assert Stranded(rows, id)[z].position == -1 && MoveTo(rows, id, to)[z].position == 1;
  }

  function TwoColumns(projectId: Uuid, a: Uuid, i: int, b: Uuid, j: int): Columns {
    map[a := Column(projectId, i), b := Column(projectId, j)]
  }

  lemma TwoColumnsCreated(projectId: Uuid, first: Uuid, second: Uuid)
    requires first != second
    ensures InsertAt(InsertAt(map[], first, projectId, 0), second, projectId, 1) == TwoColumns(projectId, first, 0, second, 1)
  {
    assert InsertAt(map[], first, projectId, 0) == map[first := Column(projectId, 0)];
  }

  lemma TwoColumnsMoved(projectId: Uuid, first: Uuid, second: Uuid)
    requires first != second
    ensures MoveTo(TwoColumns(projectId, first, 0, second, 1), second, 0) == TwoColumns(projectId, first, 1, second, 0)
    ensures Stranded(TwoColumns(projectId, first, 0, second, 1), second) == TwoColumns(projectId, first, -1, second, 0)
  {
  }

  /** The smallest board on which a move fails: two columns, and the second is to become the first. */
  lemma {:induction false} SecondCannotBecomeFirst(projectId: Uuid, first: Uuid, second: Uuid)
    requires first != second
    ensures var rows := InsertAt(InsertAt(map[], first, projectId, 0), second, projectId, 1);
            && Canonical(rows) && MeetsParkedColumn(rows, second, 0)
            && MoveTo(rows, second, 0) == TwoColumns(projectId, first, 1, second, 0)
            && Stranded(rows, second) == TwoColumns(projectId, first, -1, second, 0)
  {
    var rows := TwoColumns(projectId, first, 0, second, 1);
    TwoColumnsCreated(projectId, first, second);
    TwoColumnsMoved(projectId, first, second);
    assert Siblings(rows, first, second) && rows[first].position == 0;
  }

  // ------------------------------------------------------------ the move repaired

  /** The staged range of a move, with the column parked. */
  function StagedRange(parked: Columns, column: Column, to: int): set<Uuid> {
    if column.position < to then Between(parked, column.projectId, column.position + 1, to + 1)
    else Between(parked, column.projectId, to, column.position)
  }

  ghost predicate ParksBelow(rows: Columns, id: Uuid, park: int)
    requires id in rows
  {
    park < 0 && forall a :: a in rows && Siblings(rows, a, id) ==> park < Stage(rows[a].position)
  }

  function ParkedAt(rows: Columns, id: Uuid, park: int): Columns {
    Shifted(rows, {id}, Constant(park))
  }

  function StagedAt(rows: Columns, id: Uuid, to: int, park: int): Columns
    requires id in rows
  {
    Shifted(ParkedAt(rows, id, park), StagedRange(ParkedAt(rows, id, park), rows[id], to), Stage)
  }

  lemma ParkingBelowIsSafe(rows: Columns, id: Uuid, to: int, park: int)
    requires Canonical(rows) && id in rows && 0 <= to != rows[id].position && ParksBelow(rows, id, park)
    ensures SafeShift(rows, {id}, Constant(park))
    ensures SafeShift(ParkedAt(rows, id, park), StagedRange(ParkedAt(rows, id, park), rows[id], to), Stage)
  {
    var parked := ParkedAt(rows, id, park);
    assert forall a, b :: a in rows && b in rows ==> (Siblings(parked, a, b) <==> Siblings(rows, a, b));
  }

  /** The restore finds what was staged, and nothing else. */
  lemma RestoreFindsTheStaged(rows: Columns, id: Uuid, to: int, park: int)
    requires Canonical(rows) && id in rows && 0 <= to != rows[id].position && ParksBelow(rows, id, park)
    ensures Between(StagedAt(rows, id, to, park), rows[id].projectId, park + 1, 0) ==
            StagedRange(ParkedAt(rows, id, park), rows[id], to)
  {
  }

  /** Where every row is before the restore. */
  lemma StagedRows(rows: Columns, id: Uuid, to: int, park: int)
    requires id in rows
    ensures var staged, range := StagedAt(rows, id, to, park), StagedRange(ParkedAt(rows, id, park), rows[id], to);
      && staged.Keys == rows.Keys
      && forall a :: a in rows ==>
           && staged[a].projectId == rows[a].projectId
           && (a != id ==> (a in range <==> Siblings(rows, a, id) && MovedPosition(rows[id].position, to, rows[a].position) != rows[a].position))
           && (a != id ==> staged[a].position == if a in range then Stage(rows[a].position) else rows[a].position)
  {
  }

  lemma RestoringBelow(rows: Columns, id: Uuid, to: int, park: int)
    requires Canonical(rows) && id in rows && 0 <= to != rows[id].position && ParksBelow(rows, id, park)
    ensures var restore := if rows[id].position < to then RestoreLower else RestoreHigher;
            var staged, range := StagedAt(rows, id, to, park), StagedRange(ParkedAt(rows, id, park), rows[id], to);
            Shifted(staged, range, restore) == ParkedAt(MoveTo(rows, id, to), id, park)
  {
    StagedRows(rows, id, to, park);
  }

  lemma RestoringBelowIsSafe(rows: Columns, id: Uuid, to: int, park: int)
    requires Canonical(rows) && id in rows && 0 <= to != rows[id].position && ParksBelow(rows, id, park)
    ensures var restore := if rows[id].position < to then RestoreLower else RestoreHigher;
            SafeShift(StagedAt(rows, id, to, park), StagedRange(ParkedAt(rows, id, park), rows[id], to), restore)
  {
    var staged, range := StagedAt(rows, id, to, park), StagedRange(ParkedAt(rows, id, park), rows[id], to);
    StagedRows(rows, id, to, park);
    var restore := if rows[id].position < to then RestoreLower else RestoreHigher;
    forall a, b | a in range && a in staged && b in staged && a != b && Siblings(staged, a, b)
      ensures restore(staged[a].position) != staged[b].position && (b in range ==> restore(staged[a].position) != restore(staged[b].position))
    {
      assert Siblings(rows, a, b) && rows[a].position != rows[b].position;
    }
  }

  /** The move with the column parked below every staged position: no statement can fail, whatever the target, and the result
   *  is the intended board. */
  lemma {:induction false} ParkingBelowRepairsTheMove(rows: Columns, id: Uuid, to: int, park: int)
    requires Canonical(rows) && id in rows && 0 <= to != rows[id].position && ParksBelow(rows, id, park)
    ensures var p, restore := rows[id].projectId, if rows[id].position < to then RestoreLower else RestoreHigher;
            var parked, staged := ParkedAt(rows, id, park), StagedAt(rows, id, to, park);
            var restored := Shifted(staged, Between(staged, p, park + 1, 0), restore);
            && SafeShift(rows, {id}, Constant(park))
            && SafeShift(parked, StagedRange(parked, rows[id], to), Stage)
            && SafeShift(staged, Between(staged, p, park + 1, 0), restore)
            && SafeShift(restored, {id}, Constant(to))
            && Shifted(restored, {id}, Constant(to)) == MoveTo(rows, id, to)
  {
    ParkingBelowIsSafe(rows, id, to, park);
    RestoreFindsTheStaged(rows, id, to, park);
    RestoringBelow(rows, id, to, park);
    RestoringBelowIsSafe(rows, id, to, park);
    UnparkFrom(rows, id, to, park);
  }

  lemma UnparkFrom(rows: Columns, id: Uuid, to: int, park: int)
    requires Canonical(rows) && id in rows && 0 <= to != rows[id].position
    ensures var restored := ParkedAt(MoveTo(rows, id, to), id, park);
            SafeShift(restored, {id}, Constant(to)) && Shifted(restored, {id}, Constant(to)) == MoveTo(rows, id, to)
  {
  }
}
