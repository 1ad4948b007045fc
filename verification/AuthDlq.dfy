/** The dead-letter queue of identity events: writing, reading back and replaying entries. */
module AuthDlq {
  import opened Prelude
  import opened StreamFields

  datatype Record = Record(
    sourceStream: string,
    sourceGroup: string,
    sourceMessageId: string,
    consumerId: string,
    failedAt: string,
    deliveryCount: nat,
    reason: string,
    errorName: string,
    errorMessage: string,
    rawFields: map<string, string>,
    errorStack: Option<string>,
    payload: Option<string>)

  /** JSON.stringify/parse of the raw fields and String/Number of the delivery count. */
  datatype Codec = Codec(
    json: map<string, string> -> string,
    unjson: string -> Option<map<string, string>>,
    text: nat -> string,
    untext: string -> nat)

  ghost predicate RoundTrips(c: Codec) {
    && (forall m :: c.json(m) != "" && c.unjson(c.json(m)) == Some(m))
    && (forall n :: c.untext(c.text(n)) == n)
  }

  const DEFAULT_STREAM := "stream:auth.identity"
  const DEFAULT_GROUP := "group:collab.auth-identity"

  const BASE_KEYS: seq<string> :=
    ["sourceStream", "sourceGroup", "sourceMessageId", "consumerId", "failedAt", "deliveryCount", "reason", "errorName",
     "errorMessage", "rawFields"]

  function Interleave(keys: seq<string>, values: seq<string>): seq<string>
    requires |keys| == |values|
  {
    if keys == [] then [] else [keys[0], values[0]] + Interleave(keys[1..], values[1..])
  }

  function OptionalKey(key: string, value: Option<string>): seq<string> {
    if value.Some? && value.value != "" then [key] else []
  }

  function OptionalValue(value: Option<string>): seq<string> {
    if value.Some? && value.value != "" then [value.value] else []
  }

  function Keys(r: Record): seq<string> {
    BASE_KEYS + OptionalKey("errorStack", r.errorStack) + OptionalKey("payload", r.payload)
  }

  function Values(r: Record, c: Codec): seq<string> {
    [r.sourceStream, r.sourceGroup, r.sourceMessageId, r.consumerId, r.failedAt, c.text(r.deliveryCount), r.reason,
     r.errorName, r.errorMessage, c.json(r.rawFields)] + OptionalValue(r.errorStack) + OptionalValue(r.payload)
  }

  /** The fields an entry is written with; an absent or empty stack or payload is left out. */
  function ToFields(r: Record, c: Codec): seq<string> {
    Interleave(Keys(r), Values(r, c))
  }

  function Lookup(m: map<string, string>, key: string): Option<string> {
    if key in m then Some(m[key]) else None
  }

  function ParseEntry(fields: seq<string>, c: Codec): Record {
    var m := FieldMap(fields);
    var raw := Lookup(m, "rawFields").GetOr("");
    Record(
      Lookup(m, "sourceStream").GetOr(DEFAULT_STREAM),
      Lookup(m, "sourceGroup").GetOr(DEFAULT_GROUP),
      Lookup(m, "sourceMessageId").GetOr(""),
      Lookup(m, "consumerId").GetOr(""),
      Lookup(m, "failedAt").GetOr(""),
      if "deliveryCount" in m then c.untext(m["deliveryCount"]) else 0,
      Lookup(m, "reason").GetOr("unknown"),
      Lookup(m, "errorName").GetOr("Error"),
      Lookup(m, "errorMessage").GetOr(""),
      if raw == "" then map[] else c.unjson(raw).GetOr(map[]),
      Lookup(m, "errorStack"),
      Lookup(m, "payload"))
  }

  lemma {:induction false} InterleavedFields(keys: seq<string>, values: seq<string>)
    requires |keys| == |values| && Distinct(keys)
    ensures forall i :: 0 <= i < |keys| ==>
      keys[i] in FieldMap(Interleave(keys, values)) && FieldMap(Interleave(keys, values))[keys[i]] == values[i]
    ensures forall k :: k in FieldMap(Interleave(keys, values)) ==> k in keys
  {
    if keys != [] {
      InterleavedFields(keys[1..], values[1..]);
      var fields := Interleave(keys, values);
      assert fields[2..] == Interleave(keys[1..], values[1..]);
      assert keys[0] !in keys[1..];
      forall i | 0 <= i < |keys|
        ensures keys[i] in FieldMap(fields) && FieldMap(fields)[keys[i]] == values[i]
      {
        if 0 < i {
          assert keys[1..][i - 1] == keys[i] && values[1..][i - 1] == values[i];
        }
      }
    }
  }

  /** Keys of different length or first letter are different. */
  lemma AllKeysDistinct()
    ensures Distinct(BASE_KEYS + ["errorStack", "payload"])
  {
    var ks := BASE_KEYS + ["errorStack", "payload"];
    var lengths := [12, 11, 15, 10, 8, 13, 6, 9, 12, 9, 10, 7];
    assert forall i :: 0 <= i < 12 ==> |ks[i]| == lengths[i];
    assert ks[0][0] == 's' && ks[8][0] == 'e' && ks[3][0] == 'c' && ks[10][0] == 'e' && ks[7][0] == 'e' && ks[9][0] == 'r';
  }

  lemma KeysDistinct(r: Record)
    ensures Distinct(Keys(r))
    ensures "errorStack" in Keys(r) <==> r.errorStack.Some? && r.errorStack.value != ""
    ensures "payload" in Keys(r) <==> r.payload.Some? && r.payload.value != ""
  {
    AllKeysDistinct();
    var ks := BASE_KEYS + ["errorStack", "payload"];
    assert ks[10] == "errorStack" && ks[11] == "payload";
    assert forall i :: 0 <= i < 10 ==> ks[i] == BASE_KEYS[i];
    assert "errorStack" !in BASE_KEYS && "payload" !in BASE_KEYS;
  }

  /** An empty optional text is not written, so it reads back as absent. */
  function Normalised(r: Record): Record {
    r.(errorStack := if r.errorStack == Some("") then None else r.errorStack,
       payload := if r.payload == Some("") then None else r.payload)
  }

  lemma BaseFieldsRead(r: Record, c: Codec)
    ensures var m := FieldMap(ToFields(r, c));
      forall i :: 0 <= i < 10 ==> BASE_KEYS[i] in m && m[BASE_KEYS[i]] == Values(r, c)[i]
  {
    KeysDistinct(r);
    InterleavedFields(Keys(r), Values(r, c));
    assert forall i :: 0 <= i < 10 ==> Keys(r)[i] == BASE_KEYS[i];
  }

  lemma OptionalFieldsRead(r: Record, c: Codec)
    ensures Lookup(FieldMap(ToFields(r, c)), "errorStack") == if r.errorStack == Some("") then None else r.errorStack
    ensures Lookup(FieldMap(ToFields(r, c)), "payload") == if r.payload == Some("") then None else r.payload
  {
    KeysDistinct(r);
    var ks, vs := Keys(r), Values(r, c);
    InterleavedFields(ks, vs);
    if "errorStack" in ks {
      assert ks[10] == "errorStack" && vs[10] == r.errorStack.value;
    }
    if "payload" in ks {
      assert ks[|ks| - 1] == "payload" && vs[|ks| - 1] == r.payload.value;
    }
  }

  /** Reading an entry back gives the record that was written, up to empty optional texts. */
  lemma {:induction false} EntriesReadBack(r: Record, c: Codec)
    requires RoundTrips(c)
    ensures ParseEntry(ToFields(r, c), c) == Normalised(r)
    ensures ParseEntry(ToFields(r, c), c) == r <==> r.errorStack != Some("") && r.payload != Some("")
    ensures TargetStream(ParseEntry(ToFields(r, c), c)) == if r.sourceStream == "" then "stream:auth.identity" else r.sourceStream
  {
    BaseFieldsRead(r, c);
    OptionalFieldsRead(r, c);
    var m, vs := FieldMap(ToFields(r, c)), Values(r, c);
    assert m[BASE_KEYS[0]] == vs[0] && m[BASE_KEYS[1]] == vs[1] && m[BASE_KEYS[2]] == vs[2] && m[BASE_KEYS[3]] == vs[3];
    assert m[BASE_KEYS[4]] == vs[4] && m[BASE_KEYS[5]] == vs[5] && m[BASE_KEYS[6]] == vs[6] && m[BASE_KEYS[7]] == vs[7];
    assert m[BASE_KEYS[8]] == vs[8] && m[BASE_KEYS[9]] == vs[9];
  }

  /** An entry without any of the fields. */
  lemma ForeignEntryReadsAsDefaults(c: Codec)
    ensures ParseEntry([], c) == Record("stream:auth.identity", "group:collab.auth-identity", "", "", "", 0, "unknown", "Error", "",
                                        map[], None, None)
  {
  }

  datatype Entry = Entry(id: nat, fields: seq<string>)

  /** `NoReply`: the XADD failed for all the caller sees. `NotRemoved`: it succeeded, and then the process crashed or the XDEL
   *  failed for all the caller sees. */
  datatype ReplayError = NoSuchEntry | NoPayload | NoReply | NotRemoved

  ghost predicate HasEntry(dlq: seq<Entry>, id: nat) {
    exists i :: 0 <= i < |dlq| && dlq[i].id == id
  }

  function Without(dlq: seq<Entry>, id: nat): seq<Entry> {
    if dlq == [] then [] else (if dlq[0].id == id then [] else [dlq[0]]) + Without(dlq[1..], id)
  }

  lemma {:induction false} WithoutRemovesOnlyThat(dlq: seq<Entry>, id: nat)
    ensures forall e :: e in Without(dlq, id) <==> e in dlq && e.id != id
  {
    if dlq != [] {
      WithoutRemovesOnlyThat(dlq[1..], id);
    }
  }

  function Replayed(payload: string): seq<string> {
    [PAYLOAD, payload]
  }

  /** The payload is waiting in the stream it came from, behind the entries already there at `earlier`. */
  ghost predicate ReAdded(streams: map<string, seq<seq<string>>>, earlier: map<string, seq<seq<string>>>, key: string, payload: string) {
    key in streams && exists i :: (if key in earlier then |earlier[key]| else 0) <= i < |streams[key]| && streams[key][i] == Replayed(payload)
  }

  ghost predicate StreamsGrow(earlier: map<string, seq<seq<string>>>, streams: map<string, seq<seq<string>>>) {
    forall key :: key in earlier ==> key in streams && earlier[key] <= streams[key]
  }

  function TargetStream(r: Record): string {
    if r.sourceStream != "" then r.sourceStream else DEFAULT_STREAM
  }

  /** An entry with a payload is either still in the queue or back in its stream. */
  ghost predicate Preserved(e: Entry, c: Codec, dlq: seq<Entry>, streams: map<string, seq<seq<string>>>, earlier: map<string, seq<seq<string>>>) {
    var r := ParseEntry(e.fields, c);
    e in dlq || (r.payload.Some? && ReAdded(streams, earlier, TargetStream(r), r.payload.value))
  }

  class Queues {
    var dlq: seq<Entry>
    var streams: map<string, seq<seq<string>>>

    constructor ()
      ensures dlq == [] && streams == map[]
    {
      dlq, streams := [], map[];
    }

    /** `id` is the identifier Redis would give the entry. An entry that was reported is there; one that was not may be. */
    method AppendAuthEventToDlq(r: Record, c: Codec, id: nat, fate: Delivery) returns (replied: bool)
      modifies this`dlq
      ensures replied == fate.Replied?
      ensures dlq == if fate.NotSent? then old(dlq) else old(dlq) + [Entry(id, ToFields(r, c))]
    {
      if !fate.NotSent? {
        dlq := dlq + [Entry(id, ToFields(r, c))];
      }
      replied := fate.Replied?;
    }

    method Find(id: nat) returns (found: Option<Entry>)
      ensures found.Some? ==> found.value in dlq && found.value.id == id
      ensures found.None? <==> !HasEntry(dlq, id)
    {
      var i := 0;
      while i < |dlq|
        invariant 0 <= i <= |dlq| && forall k :: 0 <= k < i ==> dlq[k].id != id
      {
        if dlq[i].id == id {
          return Some(dlq[i]);
        }
        i := i + 1;
      }
      return None;
    }

    /** Puts the payload back into its stream, then deletes the entry. Either command may take effect without its reply being
     *  seen; the entry is never deleted without its payload being back in its stream. */
    method ReplayAuthEventDlqEntry(id: nat, c: Codec, removeAfterReplay: bool, add: Delivery, del: Delivery)
      returns (r: Result<bool, ReplayError>, ghost entry: Option<Entry>)
      modifies this
      ensures entry.Some? <==> HasEntry(old(dlq), id)
      ensures entry.Some? ==> entry.value in old(dlq) && entry.value.id == id
      ensures StreamsGrow(old(streams), streams)
      ensures r.Ok? ==> r.value == removeAfterReplay && entry.Some?
      ensures r.Ok? ==> dlq == if removeAfterReplay then Without(old(dlq), id) else old(dlq)
      ensures dlq == old(dlq) || (dlq == Without(old(dlq), id) && removeAfterReplay && (r.Ok? || r == Err(NotRemoved)))
      ensures r.Ok? || r == Err(NotRemoved) || streams != old(streams) ==>
        entry.Some? && var e := ParseEntry(entry.value.fields, c);
        e.payload.Some? && e.payload.value != "" && ReAdded(streams, old(streams), TargetStream(e), e.payload.value)
      ensures r == Err(NoSuchEntry) <==> entry.None?
      ensures r == Err(NoPayload) <==> entry.Some? && var e := ParseEntry(entry.value.fields, c); e.payload.None? || e.payload.value == ""
      ensures entry.Some? && r != Err(NoPayload) ==>
        && (add.NotSent? ==> streams == old(streams))
        && (!add.Replied? ==> r == Err(NoReply))
        && (add.Replied? && removeAfterReplay ==>
              (r.Ok? <==> del.Replied?) && dlq == if del.NotSent? then old(dlq) else Without(old(dlq), id))
        && (add.Replied? && !removeAfterReplay ==> r.Ok?)
    {
      var found := Find(id);
      entry := found;
      if found.None? {
        return Err(NoSuchEntry), entry;
      }
      var record := ParseEntry(found.value.fields, c);
      if record.payload.None? || record.payload.value == "" {
        return Err(NoPayload), entry;
      }
      if !add.NotSent? {
        var key := TargetStream(record);
        var before := if key in streams then streams[key] else [];
        streams := streams[key := before + [Replayed(record.payload.value)]];
        assert streams[key][|before|] == Replayed(record.payload.value);
      }
      if !add.Replied? {
        return Err(NoReply), entry;
      }
      if removeAfterReplay {
        if !del.NotSent? {
          dlq := Without(dlq, id);
        }
        if !del.Replied? {
          return Err(NotRemoved), entry;
        }
      }
      return Ok(removeAfterReplay), entry;
    }

    /** One round of the automatic replayer over the newest entries: whatever fails on the way, no payload is lost, and
     *  entries without a payload stay. `adds` and `dels` are what becomes of the commands for each of the entries. */
    method AutoReplay(c: Codec, limit: nat, adds: nat -> Delivery, dels: nat -> Delivery) returns (entries: seq<Entry>)
      requires forall i, j :: 0 <= i < j < |dlq| ==> dlq[i].id != dlq[j].id
      modifies this
      ensures entries == old(dlq)[if limit < |old(dlq)| then |old(dlq)| - limit else 0..]
      ensures forall e :: e in old(dlq) ==> Preserved(e, c, dlq, streams, old(streams))
      ensures forall e :: e in dlq ==> e in old(dlq)
      ensures StreamsGrow(old(streams), streams)
      ensures forall k :: 0 <= k < |entries| && adds(k).Replied? && !dels(k).NotSent? && HasPayload(entries[k], c) ==> entries[k] !in dlq
    {
      entries := dlq[if limit < |dlq| then |dlq| - limit else 0..];
      var i := |entries|;
      ReplayBegins(dlq, c, entries, streams, adds, dels);
      while 0 < i
        invariant 0 <= i <= |entries|
        invariant Replaying(old(dlq), c, entries, i, dlq, streams, old(streams), adds, dels)
      {
        i := i - 1;
        TryEntry(c, entries, i, adds, dels, old(dlq), old(streams));
      }
    }

    /** A failure is logged, and the round goes on. */
    method TryEntry(c: Codec, entries: seq<Entry>, i: nat, adds: nat -> Delivery, dels: nat -> Delivery, ghost all: seq<Entry>,
                    ghost earlier: map<string, seq<seq<string>>>)
      requires forall j, k :: 0 <= j < k < |all| ==> all[j].id != all[k].id
      requires i < |entries| <= |all| && entries == all[|all| - |entries|..]
      requires Replaying(all, c, entries, i + 1, dlq, streams, earlier, adds, dels)
      modifies this
      ensures Replaying(all, c, entries, i, dlq, streams, earlier, adds, dels)
    {
      ghost var dlq0, streams0 := dlq, streams;
      ghost var entry;
      var r;
      EntryIsThere(dlq, entries[i]);
      r, entry := ReplayAuthEventDlqEntry(entries[i].id, c, true, adds(i), dels(i));
      OneMoreReplayed(all, c, entries, i, dlq0, streams0, dlq, streams, earlier, adds, dels, entry);
    }
  }

  /** In the middle of a round, with the entries from place `i` on tried. */
  ghost predicate Replaying(all: seq<Entry>, c: Codec, entries: seq<Entry>, i: nat, dlq: seq<Entry>, streams: map<string, seq<seq<string>>>,
                            earlier: map<string, seq<seq<string>>>, adds: nat -> Delivery, dels: nat -> Delivery) {
    && i <= |entries| && (forall e :: e in all ==> Preserved(e, c, dlq, streams, earlier))
    && (forall e :: e in dlq ==> e in all) && StreamsGrow(earlier, streams)
    && (forall k :: 0 <= k < i ==> entries[k] in dlq)
    && (forall k :: i <= k < |entries| && adds(k).Replied? && !dels(k).NotSent? && HasPayload(entries[k], c) ==> entries[k] !in dlq)
  }

  lemma ReplayBegins(dlq: seq<Entry>, c: Codec, entries: seq<Entry>, streams: map<string, seq<seq<string>>>,
                     adds: nat -> Delivery, dels: nat -> Delivery)
    requires |entries| <= |dlq| && entries == dlq[|dlq| - |entries|..]
    ensures Replaying(dlq, c, entries, |entries|, dlq, streams, streams, adds, dels)
  {
    forall k | 0 <= k < |entries| ensures entries[k] in dlq {
      assert entries[k] == dlq[|dlq| - |entries| + k];
    }
  }

  lemma EntryIsThere(dlq: seq<Entry>, e: Entry)
    requires e in dlq
    ensures HasEntry(dlq, e.id)
  {
    var i :| 0 <= i < |dlq| && dlq[i] == e;
  }

  lemma OneMoreReplayed(all: seq<Entry>, c: Codec, entries: seq<Entry>, i: nat, dlq0: seq<Entry>, streams0: map<string, seq<seq<string>>>,
                        dlq: seq<Entry>, streams: map<string, seq<seq<string>>>, earlier: map<string, seq<seq<string>>>,
                        adds: nat -> Delivery, dels: nat -> Delivery, entry: Option<Entry>)
    requires forall j, k :: 0 <= j < k < |all| ==> all[j].id != all[k].id
    requires i < |entries| <= |all| && entries == all[|all| - |entries|..]
    requires Replaying(all, c, entries, i + 1, dlq0, streams0, earlier, adds, dels) && StreamsGrow(streams0, streams)
    requires entry.Some? && entry.value in dlq0 && entry.value.id == entries[i].id
    requires dlq == dlq0 || dlq == Without(dlq0, entries[i].id)
    requires dlq != dlq0 ==> var r := ParseEntry(entry.value.fields, c);
      r.payload.Some? && ReAdded(streams, streams0, TargetStream(r), r.payload.value)
    requires HasPayload(entry.value, c) && adds(i).Replied? && !dels(i).NotSent? ==> dlq == Without(dlq0, entries[i].id)
    ensures Replaying(all, c, entries, i, dlq, streams, earlier, adds, dels)
  {
    OtherEntriesStay(all, entries, i, dlq0, dlq);
    WithoutRemovesOnlyThat(dlq0, entries[i].id);
    StillPreserved(all, c, dlq0, streams0, dlq, streams, earlier, entry, dlq != dlq0);
    assert entries[i] in dlq0;
    assert entry.value == entries[i];
  }

  /** Does the entry hold something to put back? */
  predicate HasPayload(e: Entry, c: Codec) {
    var payload := ParseEntry(e.fields, c).payload;
    payload.Some? && payload.value != ""
  }

  lemma OtherEntriesStay(all: seq<Entry>, entries: seq<Entry>, i: nat, dlq0: seq<Entry>, dlq: seq<Entry>)
    requires forall j, k :: 0 <= j < k < |all| ==> all[j].id != all[k].id
    requires i < |entries| <= |all| && entries == all[|all| - |entries|..]
    requires dlq == dlq0 || dlq == Without(dlq0, entries[i].id)
    ensures forall k :: 0 <= k < |entries| && k != i ==> (entries[k] in dlq <==> entries[k] in dlq0)
  {
    WithoutRemovesOnlyThat(dlq0, entries[i].id);
    forall k | 0 <= k < |entries| && k != i ensures entries[k].id != entries[i].id {
      assert entries[k] == all[|all| - |entries| + k] && entries[i] == all[|all| - |entries| + i];
    }
  }

  lemma StillPreserved(all: seq<Entry>, c: Codec, dlq0: seq<Entry>, streams0: map<string, seq<seq<string>>>, dlq: seq<Entry>,
                       streams: map<string, seq<seq<string>>>, earlier: map<string, seq<seq<string>>>, entry: Option<Entry>, removed: bool)
    requires forall i, j :: 0 <= i < j < |all| ==> all[i].id != all[j].id
    requires forall e :: e in all ==> Preserved(e, c, dlq0, streams0, earlier)
    requires forall e :: e in dlq0 ==> e in all
    requires StreamsGrow(earlier, streams0) && StreamsGrow(streams0, streams)
    requires entry.Some? ==> entry.value in dlq0
    requires removed ==> entry.Some? && (forall e :: e in dlq0 && e.id != entry.value.id ==> e in dlq)
    requires removed ==> var r := ParseEntry(entry.value.fields, c);
      r.payload.Some? && ReAdded(streams, streams0, TargetStream(r), r.payload.value)
    requires !removed ==> dlq == dlq0
    ensures forall e :: e in all ==> Preserved(e, c, dlq, streams, earlier)
  {
    forall e | e in all ensures Preserved(e, c, dlq, streams, earlier) {
      var r := ParseEntry(e.fields, c);
      if e !in dlq0 {
        var key := TargetStream(r);
        var i :| (if key in earlier then |earlier[key]| else 0) <= i < |streams0[key]| && streams0[key][i] == Replayed(r.payload.value);
        assert streams[key][i] == Replayed(r.payload.value);
      } else if removed && e.id == entry.value.id {
        assert e == entry.value;
      }
    }
  }
}
