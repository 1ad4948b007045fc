/** How many tasks each member has: counted by loops over the loaded rows, or by one grouping query. */
module Assignments {
  import opened Prelude

  datatype Assignee = Assignee(taskId: Uuid, userSub: Uuid, userEmail: string)

  datatype Task = Task(id: Uuid, projectId: Uuid, isClientVisible: bool, assigneeSub: Option<Uuid>)

  datatype UserCount = UserCount(userSub: Uuid, taskCount: nat)

  datatype Assignment = Assignment(taskId: Uuid, userSub: Uuid)

  // -------------------------------------------------------- relational definition

  predicate InScope(t: Task, projectId: Uuid, isClientVisible: Option<bool>) {
    t.projectId == projectId && (isClientVisible.Some? ==> t.isClientVisible == isClientVisible.value)
  }

  /** The two halves of the `UNION`: primary assignees, and additional ones joined with their tasks. */
  function Primary(tasks: set<Task>): set<Assignment> {
    set t | t in tasks && t.assigneeSub.Some? :: Assignment(t.id, t.assigneeSub.value)
  }

  function Additional(assignees: set<Assignee>): set<Assignment> {
    set a | a in assignees :: Assignment(a.taskId, a.userSub)
  }

  function Union(assignees: set<Assignee>, tasks: set<Task>): set<Assignment> {
    Primary(tasks) + Additional(assignees)
  }

  function TasksInScope(tasks: set<Task>, projectId: Uuid, isClientVisible: Option<bool>): set<Task> {
    set t | t in tasks && InScope(t, projectId, isClientVisible)
  }

  function AssigneesInScope(assignees: set<Assignee>, tasks: set<Task>, projectId: Uuid, isClientVisible: Option<bool>): set<Assignee> {
    set a, t | a in assignees && t in tasks && t.id == a.taskId && InScope(t, projectId, isClientVisible) :: a
  }

  function TasksOf(all: set<Assignment>, user: Uuid): set<Uuid> {
    set a | a in all && a.userSub == user :: a.taskId
  }

  function Users(all: set<Assignment>): set<Uuid> {
    set a | a in all :: a.userSub
  }

  function Group(all: set<Assignment>, user: Uuid): set<Assignment> {
    set a | a in all && a.userSub == user
  }

  /** The rows of the query, in any order: one for each group, with the size of the group. */
  predicate IsGroupBy(rows: seq<UserCount>, all: set<Assignment>) {
    && (forall i, j :: 0 <= i < j < |rows| ==> rows[i].userSub != rows[j].userSub)
    && (forall i :: 0 <= i < |rows| ==> rows[i].userSub in Users(all) && rows[i].taskCount == |Group(all, rows[i].userSub)|)
    && (forall u :: u in Users(all) ==> exists i :: 0 <= i < |rows| && rows[i].userSub == u)
  }

  lemma {:induction false} GroupSize(all: set<Assignment>, user: Uuid)
    ensures |Group(all, user)| == |TasksOf(all, user)|
  {
    if Group(all, user) == {} {
      forall a | a in all ensures a.userSub != user {
        assert a.userSub == user ==> a in Group(all, user);
      }
    } else {
      var a: Assignment :| a in Group(all, user);
      GroupSize(all - {a}, user);
      assert Group(all - {a}, user) == Group(all, user) - {a};
      forall t | t in TasksOf(all, user) && t != a.taskId ensures t in TasksOf(all - {a}, user) {
        var b :| b in all && b.userSub == user && b.taskId == t;
        assert b in all - {a};
      }
      assert TasksOf(all - {a}, user) == TasksOf(all, user) - {a.taskId};
    }
  }

  // ------------------------------------------------------------------------ loops

  function Pairs(assignees: seq<Assignee>, tasks: seq<Task>): set<Assignment> {
    Union(SeqSet(assignees), SeqSet(tasks))
  }

  /** The e-mail of the first row that names the user. */
  predicate IsFirstEmail(assignees: seq<Assignee>, user: Uuid, email: string) {
    exists i :: 0 <= i < |assignees| && assignees[i].userSub == user && assignees[i].userEmail == email
      && forall j :: 0 <= j < i ==> assignees[j].userSub != user
  }

  /** Everybody named by a row has the e-mail of his first row. */
  ghost predicate FirstEmails(emails: map<Uuid, string>, assignees: seq<Assignee>) {
    && (forall u :: u in emails <==> exists i :: 0 <= i < |assignees| && assignees[i].userSub == u)
    && (forall u :: u in emails ==> IsFirstEmail(assignees, u, emails[u]))
  }

  lemma OneMoreEmail(emails: map<Uuid, string>, assignees: seq<Assignee>, a: Assignee)
    requires FirstEmails(emails, assignees)
    ensures FirstEmails(if a.userSub in emails then emails else emails[a.userSub := a.userEmail], assignees + [a])
  {
    var more, rows := if a.userSub in emails then emails else emails[a.userSub := a.userEmail], assignees + [a];
    assert rows[|assignees|] == a && forall i :: 0 <= i < |assignees| ==> rows[i] == assignees[i];
    forall u | u in more ensures IsFirstEmail(rows, u, more[u]) {
      if u in emails {
        var i :| 0 <= i < |assignees| && assignees[i].userSub == u && assignees[i].userEmail == emails[u]
          && forall j :: 0 <= j < i ==> assignees[j].userSub != u;
        assert rows[i].userSub == u && rows[i].userEmail == more[u];
      } else {
        assert rows[|assignees|].userSub == u && rows[|assignees|].userEmail == more[u];
      }
    }
  }

  lemma SeqSetGrows<T>(s: seq<T>, i: nat)
    requires i < |s|
    ensures SeqSet(s[..i + 1]) == SeqSet(s[..i]) + {s[i]}
  {
  }

  lemma AdditionalGrows(assignees: seq<Assignee>, i: nat)
    requires i < |assignees|
    ensures Additional(SeqSet(assignees[..i + 1])) ==
            Additional(SeqSet(assignees[..i])) + {Assignment(assignees[i].taskId, assignees[i].userSub)}
  {
    SeqSetGrows(assignees, i);
  }

  lemma PrimaryGrows(tasks: seq<Task>, i: nat)
    requires i < |tasks|
    ensures Primary(SeqSet(tasks[..i + 1])) == Primary(SeqSet(tasks[..i])) +
            if tasks[i].assigneeSub.Some? then {Assignment(tasks[i].id, tasks[i].assigneeSub.value)} else {}
  {
    SeqSetGrows(tasks, i);
  }

  predicate CountsTasks(counts: map<Uuid, nat>, all: set<Assignment>) {
    counts.Keys == Users(all) && forall u :: u in counts ==> counts[u] == |TasksOf(all, u)|
  }

  predicate Registers(sets: map<Uuid, set<Uuid>>, all: set<Assignment>) {
    sets.Keys == Users(all) && forall u :: u in sets ==> sets[u] == TasksOf(all, u)
  }

  function RegisterAssignment(sets: map<Uuid, set<Uuid>>, user: Uuid, task: Uuid): map<Uuid, set<Uuid>> {
    sets[user := (if user in sets then sets[user] else {}) + {task}]
  }

  lemma RegisterAddsThePair(sets: map<Uuid, set<Uuid>>, all: set<Assignment>, user: Uuid, task: Uuid)
    requires Registers(sets, all)
    ensures Registers(RegisterAssignment(sets, user, task), all + {Assignment(task, user)})
  {
    var more := all + {Assignment(task, user)};
    assert Assignment(task, user) in more;
    assert Users(more) == Users(all) + {user};
    forall u | u in Users(more) ensures TasksOf(more, u) == if u == user then TasksOf(all, u) + {task} else TasksOf(all, u) {
    }
    if user !in sets {
      assert TasksOf(all, user) == {};
    }
  }

  /** Every user's count is the number of different tasks he is on, whether as primary or as additional assignee. */
  method BuildMemberAssignmentMaps(assignees: seq<Assignee>, tasks: seq<Task>)
    returns (assigneeEmailBySub: map<Uuid, string>, taskCountBySub: map<Uuid, nat>)
    ensures FirstEmails(assigneeEmailBySub, assignees)
    ensures CountsTasks(taskCountBySub, Pairs(assignees, tasks))
  {
    assigneeEmailBySub := map[];
    var sets: map<Uuid, set<Uuid>> := map[];
    ghost var all: set<Assignment> := {};
    for i := 0 to |assignees|
      invariant FirstEmails(assigneeEmailBySub, assignees[..i])
      invariant Registers(sets, all) && all == Additional(SeqSet(assignees[..i]))
    {
      var a := assignees[i];
      OneMoreEmail(assigneeEmailBySub, assignees[..i], a);
      assert assignees[..i] + [a] == assignees[..i + 1];
      if a.userSub !in assigneeEmailBySub {
        assigneeEmailBySub := assigneeEmailBySub[a.userSub := a.userEmail];
      }
      RegisterAddsThePair(sets, all, a.userSub, a.taskId);
      sets := RegisterAssignment(sets, a.userSub, a.taskId);
      all := all + {Assignment(a.taskId, a.userSub)};
      AdditionalGrows(assignees, i);
    }
    assert assignees[..|assignees|] == assignees;
    for i := 0 to |tasks|
      invariant Registers(sets, all) && all == Union(SeqSet(assignees), SeqSet(tasks[..i]))
    {
      var t := tasks[i];
      PrimaryGrows(tasks, i);
      if t.assigneeSub.None? {
        continue;
      }
      RegisterAddsThePair(sets, all, t.assigneeSub.value, t.id);
      sets := RegisterAssignment(sets, t.assigneeSub.value, t.id);
      all := all + {Assignment(t.id, t.assigneeSub.value)};
    }
    assert tasks[..|tasks|] == tasks;
    taskCountBySub := map u | u in sets :: |sets[u]|;
  }

  function BuildTaskCountMap(rows: seq<UserCount>): map<Uuid, nat> {
    if rows == [] then map[]
    else BuildTaskCountMap(rows[..|rows| - 1])[rows[|rows| - 1].userSub := rows[|rows| - 1].taskCount]
  }

  lemma {:induction false} LastRowOfAUserCounts(rows: seq<UserCount>, i: nat)
    requires i < |rows| && forall j :: i < j < |rows| ==> rows[j].userSub != rows[i].userSub
    ensures rows[i].userSub in BuildTaskCountMap(rows) && BuildTaskCountMap(rows)[rows[i].userSub] == rows[i].taskCount
  {
    if i < |rows| - 1 {
      LastRowOfAUserCounts(rows[..|rows| - 1], i);
    }
  }

  lemma {:induction false} CountedUsersHaveARow(rows: seq<UserCount>, u: Uuid)
    requires u in BuildTaskCountMap(rows)
    ensures exists i :: 0 <= i < |rows| && rows[i].userSub == u
  {
    if u != rows[|rows| - 1].userSub {
      CountedUsersHaveARow(rows[..|rows| - 1], u);
      var i :| 0 <= i < |rows| - 1 && rows[..|rows| - 1][i].userSub == u;
      assert rows[i].userSub == u;
    }
  }

  // ---------------------------------------------------------------- main results

  /** The loops over the rows a project loads and the grouping query over the tables give every user the same count. */
  lemma {:induction false} LoopsAgreeWithTheQuery(tasks: set<Task>, assignees: set<Assignee>, projectId: Uuid, visible: Option<bool>,
                                                  loadedTasks: seq<Task>, loadedAssignees: seq<Assignee>,
                                                  counts: map<Uuid, nat>, rows: seq<UserCount>)
    requires SeqSet(loadedTasks) == TasksInScope(tasks, projectId, visible)
    requires SeqSet(loadedAssignees) == AssigneesInScope(assignees, tasks, projectId, visible)
    requires CountsTasks(counts, Pairs(loadedAssignees, loadedTasks))
    requires IsGroupBy(rows, Union(AssigneesInScope(assignees, tasks, projectId, visible), TasksInScope(tasks, projectId, visible)))
    ensures BuildTaskCountMap(rows) == counts
  {
    var all := Pairs(loadedAssignees, loadedTasks);
    var built := BuildTaskCountMap(rows);
    forall u | u in counts ensures u in built && built[u] == counts[u] {
      var i :| 0 <= i < |rows| && rows[i].userSub == u;
      LastRowOfAUserCounts(rows, i);
      GroupSize(all, u);
    }
    forall u | u in built ensures u in counts {
      CountedUsersHaveARow(rows, u);
    }
  }

  /** Whose tasks they are: those of the project, visible as asked, that have the user as primary or as additional assignee. */
  lemma {:induction false} TasksOfAMember(tasks: set<Task>, assignees: set<Assignee>, projectId: Uuid, visible: Option<bool>, user: Uuid)
    ensures TasksOf(Union(AssigneesInScope(assignees, tasks, projectId, visible), TasksInScope(tasks, projectId, visible)), user) ==
      set t | t in tasks && t.projectId == projectId && (visible == None || visible == Some(t.isClientVisible))
              && (t.assigneeSub == Some(user) || exists a :: a in assignees && a.taskId == t.id && a.userSub == user) :: t.id
  {
    var additional, inScope := AssigneesInScope(assignees, tasks, projectId, visible), TasksInScope(tasks, projectId, visible);
    forall t | t in inScope && t.assigneeSub == Some(user) ensures t.id in TasksOf(Union(additional, inScope), user) {
      assert Assignment(t.id, user) in Primary(inScope);
    }
    forall t, a | t in inScope && a in assignees && a.taskId == t.id && a.userSub == user
      ensures t.id in TasksOf(Union(additional, inScope), user)
    {
      assert a in additional && Assignment(a.taskId, user) in Additional(additional);
    }
  }

  function Total(rows: seq<UserCount>): nat {
    if rows == [] then 0 else Total(rows[..|rows| - 1]) + rows[|rows| - 1].taskCount
  }

  /** All the counts together are the number of different assignments: none is lost and none is counted twice. */
  lemma {:induction false} CountsAddUpToTheAssignments(rows: seq<UserCount>, all: set<Assignment>)
    requires IsGroupBy(rows, all)
    ensures Total(rows) == |all|
    decreases |rows|
  {
    if rows == [] {
      assert forall a :: a in all ==> a.userSub in Users(all);
      assert all == {};
    } else {
      var last := rows[|rows| - 1];
      var rest, others := rows[..|rows| - 1], all - Group(all, last.userSub);
      assert forall a :: a in others <==> a in all && a.userSub != last.userSub;
      forall i | 0 <= i < |rest| ensures rest[i].userSub in Users(others) && rest[i].taskCount == |Group(others, rest[i].userSub)| {
        var a :| a in all && a.userSub == rows[i].userSub;
        assert a in others;
        assert Group(others, rest[i].userSub) == Group(all, rest[i].userSub);
      }
      forall u | u in Users(others) ensures exists i :: 0 <= i < |rest| && rest[i].userSub == u {
        var a :| a in others && a.userSub == u;
        assert u in Users(all);
        var i :| 0 <= i < |rows| && rows[i].userSub == u;
        assert rest[i].userSub == u;
      }
      CountsAddUpToTheAssignments(rest, others);
    }
  }
}
