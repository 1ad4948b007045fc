/** Who is notified of an event, and the notification table with its unique (event, recipient) index. */
module Notifications {
  import opened Prelude
  import opened Outbox

  datatype Role = Admin | Worker | Client

  datatype Member = Member(userSub: Uuid, role: Role)

  datatype Note = Note(eventId: Uuid, recipient: Uuid, projectId: Uuid, actorSub: Uuid, channel: Channel)

  /** An explicit, non-empty recipient list replaces the channel rule; the actor and excluded people never get a row. */
  predicate IsRecipient(m: Member, actorSub: Uuid, a: Activity) {
    && m.userSub != actorSub
    && m.userSub !in a.excluded
    && if a.recipients != [] then m.userSub in a.recipients else a.channel == External || m.role != Client
  }

  function ResolveRecipients(members: seq<Member>, actorSub: Uuid, a: Activity): (r: seq<Member>)
    ensures forall m :: m in r <==> m in members && IsRecipient(m, actorSub, a)
  {
    if members == [] then []
    else (if IsRecipient(members[0], actorSub, a) then [members[0]] else []) + ResolveRecipients(members[1..], actorSub, a)
  }

  function NotesFor(ev: Event, members: seq<Member>): (rows: seq<Note>)
    ensures forall n :: n in rows ==> n.eventId == ev.id
  {
    if ev.activity.None? then []
    else
      var rs := ResolveRecipients(members, ev.actorSub, ev.activity.value);
      seq(|rs|, i requires 0 <= i < |rs| => Note(ev.id, rs[i].userSub, ev.projectId, ev.actorSub, ev.activity.value.channel))
  }

  function Recipients(ev: Event, members: seq<Member>): set<Uuid> {
    set n | n in NotesFor(ev, members) :: n.recipient
  }

  /** Clients only see internal activity that names them. */
  lemma {:induction false} InternalActivityStaysInternal(ev: Event, members: seq<Member>, n: Note)
    requires ev.activity.Some? && ev.activity.value.channel == Internal && ev.activity.value.recipients == []
    requires n in NotesFor(ev, members)
    ensures n.recipient != ev.actorSub
    ensures exists m :: m in members && m.userSub == n.recipient && m.role != Client
  {
    var rs := ResolveRecipients(members, ev.actorSub, ev.activity.value);
    var i :| 0 <= i < |NotesFor(ev, members)| && NotesFor(ev, members)[i] == n;
    assert rs[i] in rs;
  }

  /** The people among `members`, except the actor and those the event leaves out. */
  function Audience(ev: Event, members: seq<Member>): set<Uuid>
    requires ev.activity.Some?
  {
    (set m | m in members :: m.userSub) - {ev.actorSub} - ev.activity.value.excluded
  }

  lemma RecipientsAre(ev: Event, members: seq<Member>, u: Uuid)
    requires ev.activity.Some?
    ensures u in Recipients(ev, members) <==> exists m :: m in members && m.userSub == u && IsRecipient(m, ev.actorSub, ev.activity.value)
    ensures forall n :: n in NotesFor(ev, members) ==> n == Note(ev.id, n.recipient, ev.projectId, ev.actorSub, ev.activity.value.channel)
  {
    var rs := ResolveRecipients(members, ev.actorSub, ev.activity.value);
    var notes := NotesFor(ev, members);
    if m :| m in members && m.userSub == u && IsRecipient(m, ev.actorSub, ev.activity.value) {
      var i :| 0 <= i < |rs| && rs[i] == m;
      assert notes[i].recipient == u;
    }
    if u in Recipients(ev, members) {
      var i :| 0 <= i < |notes| && notes[i].recipient == u;
      assert rs[i] in rs;
    }
  }

  /** Who is notified: with names given, the members named; without, everybody for external activity and everybody but the clients
   *  for internal activity. Never the actor or an excluded person, and each row carries the event's own data. */
  lemma {:induction false} RecipientsExactly(ev: Event, members: seq<Member>)
    requires ev.activity.Some?
    ensures var a := ev.activity.value;
      && (a.recipients != [] ==> Recipients(ev, members) == Audience(ev, members) * SeqSet(a.recipients))
      && (a.recipients == [] && a.channel == External ==> Recipients(ev, members) == Audience(ev, members))
      && (a.recipients == [] && a.channel == Internal ==>
            Recipients(ev, members) == set u | u in Audience(ev, members) && exists m :: m in members && m.userSub == u && m.role != Client)
      && (forall n :: n in NotesFor(ev, members) ==> n == Note(ev.id, n.recipient, ev.projectId, ev.actorSub, a.channel))
  {
    forall u: Uuid
      ensures u in Recipients(ev, members) <==> exists m :: m in members && m.userSub == u && IsRecipient(m, ev.actorSub, ev.activity.value)
    {
      RecipientsAre(ev, members, u);
    }
    RecipientsAre(ev, members, ev.actorSub);
  }

  predicate SameKey(a: Note, b: Note) {
    a.eventId == b.eventId && a.recipient == b.recipient
  }

  predicate HasKey(notes: seq<Note>, eventId: Uuid, recipient: Uuid) {
    exists i :: 0 <= i < |notes| && notes[i].eventId == eventId && notes[i].recipient == recipient
  }

  /** INSERT ... ON CONFLICT DO NOTHING, one row after the other. */
  function InsertIgnoringConflicts(notes: seq<Note>, values: seq<Note>): seq<Note>
    decreases |values|
  {
    if values == [] then notes
    else if HasKey(notes, values[0].eventId, values[0].recipient) then InsertIgnoringConflicts(notes, values[1..])
    else InsertIgnoringConflicts(notes + [values[0]], values[1..])
  }

  predicate UniqueKeys(notes: seq<Note>) {
    forall i, j :: 0 <= i < j < |notes| ==> !SameKey(notes[i], notes[j])
  }

  /** The insert keeps the index unique, never touches an existing row, and afterwards every row's key is there. */
  lemma {:induction false} InsertKeepsOneRowPerKey(notes: seq<Note>, values: seq<Note>)
    requires UniqueKeys(notes)
    ensures var all := InsertIgnoringConflicts(notes, values);
            && UniqueKeys(all) && notes <= all
            && (forall v :: v in values ==> HasKey(all, v.eventId, v.recipient))
            && (forall n :: n in all ==> n in notes || n in values)
    decreases |values|
  {
    var all := InsertIgnoringConflicts(notes, values);
    if values != [] {
      var v := values[0];
      var first := if HasKey(notes, v.eventId, v.recipient) then notes else notes + [v];
      InsertKeepsOneRowPerKey(first, values[1..]);
      assert HasKey(first, v.eventId, v.recipient) by {
        if first != notes {
          assert first[|notes|] == v;
        }
      }
      KeysStay(first, all, v.eventId, v.recipient);
    }
  }

  lemma KeysStay(notes: seq<Note>, notes': seq<Note>, eventId: Uuid, recipient: Uuid)
    requires notes <= notes' && HasKey(notes, eventId, recipient)
    ensures HasKey(notes', eventId, recipient)
  {
    var i :| 0 <= i < |notes| && notes[i].eventId == eventId && notes[i].recipient == recipient;
    assert notes'[i] == notes[i];
  }

  /** Redelivery adds nothing: once all keys are there, inserting them again is a no-op. */
  lemma {:induction false} ReinsertIsNoOp(notes: seq<Note>, values: seq<Note>)
    requires forall v :: v in values ==> HasKey(notes, v.eventId, v.recipient)
    ensures InsertIgnoringConflicts(notes, values) == notes
    decreases |values|
  {
    if values != [] {
      assert values[0] in values;
      ReinsertIsNoOp(notes, values[1..]);
    }
  }

  class NotificationTable {
    var rows: seq<Note>

    constructor ()
      ensures rows == []
    {
      rows := [];
    }

    method Create(values: seq<Note>) returns (created: seq<Note>)
      modifies this
      ensures rows == InsertIgnoringConflicts(old(rows), values)
      ensures rows == old(rows) + created
    {
      created := [];
      if values == [] {
        return;
      }
      var i := 0;
      while i < |values|
        invariant 0 <= i <= |values|
        invariant InsertIgnoringConflicts(rows, values[i..]) == InsertIgnoringConflicts(old(rows), values)
        invariant rows == old(rows) + created
      {
        assert values[i..][0] == values[i] && values[i..][1..] == values[i + 1..];
        if !HasKey(rows, values[i].eventId, values[i].recipient) {
          rows := rows + [values[i]];
          created := created + [values[i]];
        }
        i := i + 1;
      }
    }
  }

  /** The handler that materialises notifications; `members` is what the member lookup returns at that moment. */
  method PersistActivityNotification(table: NotificationTable, ev: Event, members: seq<Member>) returns (created: seq<Note>)
    modifies table
    ensures table.rows == InsertIgnoringConflicts(old(table.rows), NotesFor(ev, members))
    ensures table.rows == old(table.rows) + created
    ensures ev.activity.None? ==> created == []
  {
    if ev.activity.None? {
      return [];
    }
    created := table.Create(NotesFor(ev, members));
  }
}
