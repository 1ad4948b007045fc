/** Flat stream fields `[k, v, k, v, ...]` and how the two consumers read them. */
module StreamFields {
  import opened Prelude

  /** Later pairs win; a key without a value at the end is dropped. */
  function FieldMap(fields: seq<string>): map<string, string> {
    if |fields| < 2 then map[] else map[fields[0] := fields[1]] + FieldMap(fields[2..])
  }

  lemma PairFirst(m: map<string, string>, fields: seq<string>)
    requires 2 <= |fields|
    ensures m[fields[0] := fields[1]] + FieldMap(fields[2..]) == m + FieldMap(fields)
  {
  }

  method ParseStreamFields(fields: seq<string>) returns (m: map<string, string>)
    ensures m == FieldMap(fields)
  {
    m := map[];
    var i := 0;
    while i < |fields| - 1
      invariant 0 <= i <= |fields|
      invariant m + FieldMap(fields[i..]) == FieldMap(fields)
    {
      PairFirst(m, fields[i..]);
      assert fields[i..][2..] == fields[i + 2..];
      m := m[fields[i] := fields[i + 1]];
      i := i + 2;
    }
  }

  ghost predicate PairAt(fields: seq<string>, i: nat, key: string) {
    i % 2 == 0 && i + 1 < |fields| && fields[i] == key
  }

  /** What a reader gets for a key: the value of its last pair, and nothing exactly when no pair has it. */
  lemma {:induction false} FieldMapReadsLastPair(fields: seq<string>, key: string)
    ensures key in FieldMap(fields) <==> exists i: nat :: PairAt(fields, i, key)
    ensures key in FieldMap(fields) ==>
      exists i: nat :: PairAt(fields, i, key) && FieldMap(fields)[key] == fields[i + 1]
                       && forall j: nat :: PairAt(fields, j, key) ==> j <= i
    decreases |fields|
  {
    if 2 <= |fields| {
      var rest := fields[2..];
      FieldMapReadsLastPair(rest, key);
      assert forall i: nat :: PairAt(rest, i, key) ==> PairAt(fields, i + 2, key);
      forall j: nat | PairAt(fields, j, key) && 0 < j ensures PairAt(rest, j - 2, key) {
      }
      if key in FieldMap(rest) {
        var i: nat :| PairAt(rest, i, key) && FieldMap(rest)[key] == rest[i + 1] && forall j: nat :: PairAt(rest, j, key) ==> j <= i;
        assert PairAt(fields, i + 2, key) && FieldMap(fields)[key] == fields[i + 2 + 1];
        forall j: nat | PairAt(fields, j, key) ensures j <= i + 2 {
          if 0 < j { assert PairAt(rest, j - 2, key); }
        }
      } else if fields[0] == key {
        assert PairAt(fields, 0, key);
        assert forall j: nat :: PairAt(fields, j, key) ==> j <= 0;
      }
    }
  }

  const SHUTDOWN := "__shutdown__"
  const PAYLOAD := "payload"

  /** The reusable consumer; `accepts` is JSON parsing, the version check and schema validation together. */
  function StrictKind(fields: seq<string>, accepts: string -> bool): Kind {
    var m := FieldMap(fields);
    if SHUTDOWN in m && m[SHUTDOWN] == "1" then ShutdownMsg
    else if PAYLOAD in m && m[PAYLOAD] != "" && accepts(m[PAYLOAD]) then EventMsg
    else BadMsg
  }

  /** Position of the first `x`, or the length when there is none. */
  function IndexOf(s: seq<string>, x: string): (i: nat)
    ensures i <= |s| && (i < |s| ==> s[i] == x) && x !in s[..i]
  {
    if s == [] || s[0] == x then 0 else
      var i := 1 + IndexOf(s[1..], x);
      assert s[..i] == [s[0]] + s[1..][..i - 1];
      i
  }

  /** JSON parsing, as far as the event bus looks at the result. */
  datatype Json = Invalid | Null | Value

  /** The event bus; `json` is JSON parsing. It looks for the first field equal to "payload", key or not. */
  function BusKind(fields: seq<string>, json: string -> Json): Kind {
    var i := IndexOf(fields, PAYLOAD);
    if i + 1 < |fields| then
      match json(fields[i + 1])
      case Invalid => BadMsg
      case Null => NullMsg
      case Value => EventMsg
    else if SHUTDOWN in fields then ShutdownMsg
    else BadMsg
  }

  /** What workers publish and what the shutdown sends is read back as such by both consumers. */
  lemma PublishedEntriesAreRecognised(text: string, accepts: string -> bool, json: string -> Json)
    requires accepts(text) && json(text) == Value && text != ""
    ensures StrictKind([PAYLOAD, text], accepts) == EventMsg == BusKind([PAYLOAD, text], json)
    ensures StrictKind([SHUTDOWN, "1"], accepts) == ShutdownMsg == BusKind([SHUTDOWN, "1"], json)
  {
    assert |PAYLOAD| == 7 && |SHUTDOWN| == 12 && |"1"| == 1;
    var published, sentinel := [PAYLOAD, text], [SHUTDOWN, "1"];
    assert published[2..] == [] && sentinel[2..] == [];
    assert published[0] == PAYLOAD != SHUTDOWN && sentinel[0] == SHUTDOWN;
    assert sentinel[0] != PAYLOAD && sentinel[1] != PAYLOAD;
    assert FieldMap(published) == map[PAYLOAD := text] && FieldMap(sentinel) == map[SHUTDOWN := "1"];
  }

  ghost predicate LastPair(fields: seq<string>, i: nat, key: string) {
    PairAt(fields, i, key) && forall j: nat :: PairAt(fields, j, key) ==> j <= i
  }

  lemma LastPairIsRead(fields: seq<string>, key: string)
    ensures key in FieldMap(fields) <==> exists i: nat :: LastPair(fields, i, key)
    ensures forall i: nat :: LastPair(fields, i, key) ==> FieldMap(fields)[key] == fields[i + 1]
  {
    FieldMapReadsLastPair(fields, key);
    if key in FieldMap(fields) {
      var i: nat :| PairAt(fields, i, key) && FieldMap(fields)[key] == fields[i + 1] && forall j: nat :: PairAt(fields, j, key) ==> j <= i;
      assert LastPair(fields, i, key);
    }
  }

  /** What each consumer takes for an event: the reusable one the value of the last `payload` pair, unless it is empty, refused or
   *  the entry is the sentinel; the bus whatever follows the first field that reads `payload`, be it a key or a value. */
  lemma {:induction false} EventsAre(fields: seq<string>, accepts: string -> bool, json: string -> Json)
    ensures StrictKind(fields, accepts) == EventMsg <==>
      && (exists i: nat :: LastPair(fields, i, PAYLOAD) && fields[i + 1] != "" && accepts(fields[i + 1]))
      && !(exists i: nat :: LastPair(fields, i, SHUTDOWN) && fields[i + 1] == "1")
    ensures BusKind(fields, json) == EventMsg <==>
      exists i :: 0 <= i < |fields| - 1 && fields[i] == PAYLOAD && PAYLOAD !in fields[..i] && json(fields[i + 1]) == Value
    ensures StrictKind(fields, accepts) == ShutdownMsg <==> exists i: nat :: LastPair(fields, i, SHUTDOWN) && fields[i + 1] == "1"
  {
    LastPairIsRead(fields, PAYLOAD);
    LastPairIsRead(fields, SHUTDOWN);
    var first := IndexOf(fields, PAYLOAD);
    forall i | 0 <= i < |fields| - 1 && fields[i] == PAYLOAD && PAYLOAD !in fields[..i] ensures i == first {
      assert PAYLOAD !in fields[..first];
    }
  }
}
