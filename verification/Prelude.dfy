/** Types shared by the other modules. */
module Prelude {
  datatype Option<+T> = None | Some(value: T) {
    function GetOr(default: T): T {
      match this
      case Some(v) => v
      case None => default
    }
  }

  datatype Result<+T, +E> = Ok(value: T) | Err(error: E)

  /** Identifiers the database or the client library generates (UUIDs). */
  type Uuid = nat

  /** Milliseconds since the epoch. */
  type Time = int

  /** What a stream entry carries: an event, the sentinel that wakes a consumer up, something unreadable, or a JSON `null`, at
   *  which the event bus throws. */
  datatype Kind = EventMsg | ShutdownMsg | BadMsg | NullMsg

  /** What becomes of a command sent over the network: it takes effect and is answered, it takes effect only, or it gets lost. */
  datatype Delivery = Replied | Lost | NotSent

  predicate Distinct<T(==)>(s: seq<T>) {
    forall i, j :: 0 <= i < j < |s| ==> s[i] != s[j]
  }

  function SeqSet<T(==)>(s: seq<T>): set<T> {
    set x | x in s
  }

  lemma {:induction false} DistinctSize<T>(s: seq<T>)
    requires Distinct(s)
    ensures |SeqSet(s)| == |s|
  {
    if s == [] {
      assert SeqSet(s) == {};
    } else {
      DistinctSize(s[1..]);
      assert SeqSet(s) == {s[0]} + SeqSet(s[1..]);
    }
  }

  /** A one-to-one map into `b` cannot start from a larger set than `b`. */
  lemma {:induction false} InjectionBound<A, B>(a: set<A>, b: set<B>, f: map<A, B>)
    requires a <= f.Keys
    requires forall x :: x in a ==> f[x] in b
    requires forall x, y :: x in a && y in a && x != y ==> f[x] != f[y]
    ensures |a| <= |b|
  {
    if a != {} {
      var x :| x in a;
      InjectionBound(a - {x}, b - {f[x]}, f);
    }
  }

  ghost function Pick<T>(s: set<T>): (x: T)
    requires s != {}
    ensures x in s
  {
    var x :| x in s;
    x
  }

  predicate IsMax(s: set<int>, m: int) {
    m in s && forall x :: x in s ==> x <= m
  }

  lemma {:induction false} MaxExists(s: set<int>)
    requires s != {}
    ensures exists m :: IsMax(s, m)
  {
    var x := Pick(s);
    if s == {x} {
      assert IsMax(s, x);
    } else {
      MaxExists(s - {x});
      var m :| IsMax(s - {x}, m);
      assert s == s - {x} + {x};
      assert IsMax(s, if m > x then m else x);
    }
  }

  /** `COALESCE(MAX(...), 0)`. */
  function MaxOrZero(s: set<int>): (m: int)
    ensures if s == {} then m == 0 else IsMax(s, m)
  {
    if s == {} then 0 else
      MaxExists(s);
      var m :| IsMax(s, m);
      m
  }
}
