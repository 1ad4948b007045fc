/** The identity replica: a snapshot table, the in-process profile cache in front of it, and the rows that repeat an e-mail. */
module ProfileCache {
  import opened Prelude

  datatype Profile = Profile(email: string, role: string,
                             firstName: Option<string>, lastName: Option<string>, clientKind: Option<string>,
                             companyName: Option<string>, profession: Option<string>)

  datatype Snapshot = Snapshot(profile: Profile, updatedAt: Time)

  datatype Cached = Cached(expiresAt: Time, profile: Profile)

  datatype Found = Found(profiles: map<string, Profile>, missingSubs: seq<string>, replicaUnavailable: bool)

  /** The other tables whose rows carry a subject and a copy of the subject's e-mail. */
  datatype Stamped = Members | ChatMessages | Files | TaskAssignees | TaskComments | MentionNotifications

  datatype Stamp = Stamp(sub: string, email: string)

  const PROFILE_TTL_MS := 300_000

  /** The distinct elements of `s`, each at its first place. */
  function Unique(s: seq<string>): (r: seq<string>) {
    if s == [] then [] else
      var r := Unique(s[..|s| - 1]);
      if s[|s| - 1] in r then r else r + [s[|s| - 1]]
  }

  function Without(s: seq<string>, drop: set<string>): (r: seq<string>) {
    if s == [] then [] else
      var r := Without(s[..|s| - 1], drop);
      if s[|s| - 1] in drop then r else r + [s[|s| - 1]]
  }

  function Wanted(userSubs: seq<string>): seq<string> {
    Without(Unique(userSubs), {""})
  }

  function Profiles(table: map<string, Snapshot>, subs: set<string>): map<string, Profile> {
    map sub | sub in subs && sub in table :: table[sub].profile
  }

  /** The subjects the cache still answers for. */
  function Live(cache: map<string, Cached>, now: Time): set<string> {
    set sub | sub in cache && cache[sub].expiresAt > now
  }

  /** What a lookup caches: every row it fetched, for five minutes. */
  function Fetched(table: map<string, Snapshot>, subs: set<string>, later: Time): map<string, Cached> {
    map sub | sub in subs && sub in table :: Cached(later + 300_000, table[sub].profile)
  }

  /** The cache after a lookup of `subs`: expired entries among them go, and what was fetched instead comes in. */
  function CacheAfter(cache: map<string, Cached>, table: map<string, Snapshot>, subs: set<string>, now: Time, later: Time, readable: bool)
    : map<string, Cached>
  {
    var expired := subs - Live(cache, now);
    cache - expired + Fetched(table, if readable then expired else {}, later)
  }

  function AnonEmail(sub: string): string {
    "anon-" + sub + "@cima.internal"
  }

  function Anonymized(rows: map<Uuid, Stamp>, sub: string): map<Uuid, Stamp> {
    map id | id in rows :: if rows[id].sub == sub then Stamp(sub, AnonEmail(sub)) else rows[id]
  }

  /** The rows of the subject show the anonymous e-mail, and all others are as they were. */
  predicate ReplacesEmails(rows: map<Uuid, Stamp>, rows': map<Uuid, Stamp>, userSub: string) {
    && rows'.Keys == rows.Keys
    && forall id :: id in rows ==>
         rows'[id] == if rows[id].sub == userSub then Stamp(userSub, "anon-" + userSub + "@cima.internal") else rows[id]
  }

  lemma AnonymizedReplacesEmails(rows: map<Uuid, Stamp>, userSub: string)
    ensures ReplacesEmails(rows, Anonymized(rows, userSub), userSub)
  {
  }

  // ------------------------------------------------------- the list of subjects

  /** `picks` are increasing places of `s`, and `r` is what stands there. */
  predicate Picks(s: seq<string>, r: seq<string>, picks: seq<nat>) {
    && |picks| == |r|
    && (forall i :: 0 <= i < |picks| ==> picks[i] < |s| && s[picks[i]] == r[i])
    && (forall i, j :: 0 <= i < j < |picks| ==> picks[i] < picks[j])
  }

  lemma {:induction false} UniqueMembers(s: seq<string>)
    ensures forall x :: x in Unique(s) <==> x in s
  {
    if s != [] {
      UniqueMembers(s[..|s| - 1]);
      assert s == s[..|s| - 1] + [s[|s| - 1]];
    }
  }

  lemma {:induction false} WithoutMembers(s: seq<string>, drop: set<string>)
    ensures forall x :: x in Without(s, drop) <==> x in s && x !in drop
  {
    if s != [] {
      WithoutMembers(s[..|s| - 1], drop);
      assert s == s[..|s| - 1] + [s[|s| - 1]];
    }
  }

  lemma OnePlaceMore(s: seq<string>, r: seq<string>, picks: seq<nat>)
    requires s != [] && Picks(s[..|s| - 1], r, picks)
    ensures Picks(s, r, picks) && Picks(s, r + [s[|s| - 1]], picks + [|s| - 1])
  {
  }

  lemma {:induction false} UniqueTakesFirstPlaces(s: seq<string>) returns (picks: seq<nat>)
    ensures Picks(s, Unique(s), picks)
    ensures forall i :: 0 <= i < |picks| ==> s[picks[i]] !in s[..picks[i]]
  {
    picks := [];
    if s != [] {
      var n := |s| - 1;
      picks := UniqueTakesFirstPlaces(s[..n]);
      UniqueMembers(s[..n]);
      OnePlaceMore(s, Unique(s[..n]), picks);
      forall i | 0 <= i < |picks| ensures s[picks[i]] !in s[..picks[i]] {
        assert s[..n][..picks[i]] == s[..picks[i]];
      }
      if s[n] !in Unique(s[..n]) {
        picks := picks + [n];
      }
    }
  }

  lemma {:induction false} WithoutKeepsPlaces(s: seq<string>, drop: set<string>) returns (picks: seq<nat>)
    ensures Picks(s, Without(s, drop), picks)
  {
    picks := [];
    if s != [] {
      var n := |s| - 1;
      picks := WithoutKeepsPlaces(s[..n], drop);
      OnePlaceMore(s, Without(s[..n], drop), picks);
      if s[n] !in drop {
        picks := picks + [n];
      }
    }
  }

  /** A lookup asks for every non-empty subject of the request once, in the order of first mention. */
  lemma {:induction false} WantedIsEachSubjectOnce(userSubs: seq<string>) returns (picks: seq<nat>)
    ensures Picks(userSubs, Wanted(userSubs), picks)
    ensures forall i :: 0 <= i < |picks| ==> userSubs[picks[i]] !in userSubs[..picks[i]]
    ensures Distinct(Wanted(userSubs))
    ensures SeqSet(Wanted(userSubs)) == SeqSet(userSubs) - {""}
  {
    var first := UniqueTakesFirstPlaces(userSubs);
    var kept := WithoutKeepsPlaces(Unique(userSubs), {""});
    UniqueMembers(userSubs);
    WithoutMembers(Unique(userSubs), {""});
    picks := seq(|kept|, i requires 0 <= i < |kept| => first[kept[i]]);
    forall i, j | 0 <= i < j < |picks| ensures Wanted(userSubs)[i] != Wanted(userSubs)[j] {
      assert userSubs[picks[i]] in userSubs[..picks[j]];
    }
  }

  lemma WithoutStep(s: seq<string>, i: nat, drop: set<string>)
    requires i < |s|
    ensures Without(s[..i + 1], drop) == if s[i] in drop then Without(s[..i], drop) else Without(s[..i], drop) + [s[i]]
  {
    assert s[..i + 1][..i] == s[..i];
  }

  lemma FetchedOneMore(cache: map<string, Cached>, table: map<string, Snapshot>, subs: set<string>, sub: string, later: Time)
    requires sub in table
    ensures (cache + Fetched(table, subs, later))[sub := Cached(later + PROFILE_TTL_MS, table[sub].profile)] ==
            cache + Fetched(table, subs + {sub}, later)
  {
  }

  lemma OneProfileMore(table: map<string, Snapshot>, cached: set<string>, subs: set<string>, sub: string)
    requires sub in table
    ensures Profiles(table, cached + subs)[sub := table[sub].profile] == Profiles(table, cached + (subs + {sub}))
  {
  }

  lemma OnlyRowsCount(table: map<string, Snapshot>, cached: set<string>, subs: set<string>, later: Time)
    ensures Fetched(table, subs * table.Keys, later) == Fetched(table, subs, later)
    ensures Profiles(table, cached + subs * table.Keys) == Profiles(table, cached + subs)
  {
  }

  lemma NothingAsked(cache: map<string, Cached>, table: map<string, Snapshot>, now: Time, later: Time, readable: bool)
    ensures CacheAfter(cache, table, {}, now, later, readable) == cache
  {
    NothingToFetch(cache, table, later);
  }

  lemma NothingToFetch(cache: map<string, Cached>, table: map<string, Snapshot>, later: Time)
    ensures cache + Fetched(table, {}, later) == cache
  {
  }

  lemma {:induction false} WithoutSame(s: seq<string>, drop: set<string>, same: set<string>)
    requires forall x :: x in s ==> (x in drop <==> x in same)
    ensures Without(s, drop) == Without(s, same)
  {
    if s != [] {
      WithoutSame(s[..|s| - 1], drop, same);
    }
  }

  // ------------------------------------------------------------------- the store

  class IdentityStore {
    var table: map<string, Snapshot>
    var cache: map<string, Cached>
    var stamps: map<Stamped, map<Uuid, Stamp>>

    /** Whatever is cached, expired or not, is what the table says. */
    ghost predicate Valid()
      reads this
    {
      forall sub :: sub in cache ==> sub in table && cache[sub].profile == table[sub].profile
    }

    constructor (table: map<string, Snapshot>, stamps: map<Stamped, map<Uuid, Stamp>>)
      ensures Valid() && this.table == table && this.stamps == stamps && cache == map[]
    {
      this.table, this.stamps, cache := table, stamps, map[];
    }

    method PurgeExpiredProfileCache(now: Time)
      requires Valid()
      modifies this`cache
      ensures Valid()
      ensures cache.Keys == set sub | sub in old(cache) && old(cache)[sub].expiresAt > now
      ensures forall sub :: sub in cache ==> cache[sub] == old(cache)[sub]
    {
      var rest := cache.Keys;
      while rest != {}
        invariant rest <= cache.Keys <= old(cache).Keys
        invariant forall sub :: sub in cache ==> cache[sub] == old(cache)[sub]
        invariant forall sub :: sub in old(cache) ==>
          (sub in cache <==> sub in rest || old(cache)[sub].expiresAt > now)
      {
        var sub :| sub in rest;
        rest := rest - {sub};
        if cache[sub].expiresAt <= now {
          cache := cache - {sub};
        }
      }
    }

    /** Answers from the cache what it can and leaves the rest to the table. */
    method FromCache(uniqueSubs: seq<string>, now: Time) returns (profiles: map<string, Profile>, missing: seq<string>)
      requires Valid()
      modifies this`cache
      ensures Valid()
      ensures profiles.Keys == SeqSet(uniqueSubs) * Live(old(cache), now) && profiles == Profiles(table, profiles.Keys)
      ensures missing == Without(uniqueSubs, profiles.Keys)
      ensures cache == old(cache) - (SeqSet(uniqueSubs) - Live(old(cache), now))
    {
      profiles, missing := map[], [];
      ghost var all := Live(old(cache), now);
      for i := 0 to |uniqueSubs|
        invariant Valid()
        invariant cache == old(cache) - (SeqSet(uniqueSubs[..i]) - all)
        invariant profiles.Keys == SeqSet(uniqueSubs[..i]) * all
        invariant profiles == Profiles(table, profiles.Keys)
        invariant missing == Without(uniqueSubs[..i], all)
      {
        var sub := uniqueSubs[i];
        WithoutStep(uniqueSubs, i, all);
        assert SeqSet(uniqueSubs[..i + 1]) == SeqSet(uniqueSubs[..i]) + {sub};
        if sub in cache && cache[sub].expiresAt > now {
          profiles := profiles[sub := cache[sub].profile];
        } else {
          if sub in cache {
            cache := cache - {sub};
          }
          missing := missing + [sub];
        }
      }
      assert uniqueSubs[..|uniqueSubs|] == uniqueSubs;
      WithoutSame(uniqueSubs, all, profiles.Keys);
    }

    /** Fetches the rows of `missing` and caches each of them. */
    method FromTable(missing: seq<string>, cached: map<string, Profile>, later: Time)
      returns (profiles: map<string, Profile>)
      requires Valid() && cached == Profiles(table, cached.Keys)
      modifies this`cache
      ensures Valid()
      ensures profiles == Profiles(table, cached.Keys + SeqSet(missing))
      ensures cache == old(cache) + Fetched(table, SeqSet(missing), later)
    {
      profiles := cached;
      var rows := set sub | sub in missing && sub in table;
      ghost var all, done := SeqSet(missing) * table.Keys, {};
      assert rows == all && cached.Keys + {} == cached.Keys;
      NothingToFetch(cache, table, later);
      while rows != {}
        invariant Valid() && rows <= all && done == all - rows
        invariant profiles == Profiles(table, cached.Keys + done)
        invariant cache == old(cache) + Fetched(table, done, later)
      {
        var sub :| sub in rows;
        FetchedOneMore(old(cache), table, done, sub, later);
        OneProfileMore(table, cached.Keys, done, sub);
        rows, done := rows - {sub}, done + {sub};
        var profile := table[sub].profile;
        cache := cache[sub := Cached(later + PROFILE_TTL_MS, profile)];
        profiles := profiles[sub := profile];
      }
      assert done == all;
      OnlyRowsCount(table, cached.Keys, SeqSet(missing), later);
    }

    /** Returns the table restricted to the subjects asked for, whatever the cache held. The table is asked only for subjects
     *  the cache does not answer for, and what it returns is cached for five minutes. */
    method GetUserProfilesFromSnapshots(userSubs: seq<string>, now: Time, later: Time, readable: bool)
      returns (found: Found)
      requires Valid()
      modifies this`cache
      ensures Valid()
      ensures !found.replicaUnavailable ==> found.profiles == Profiles(table, SeqSet(userSubs) - {""})
      ensures found.profiles == Profiles(table, found.profiles.Keys) && found.profiles.Keys <= SeqSet(userSubs) - {""}
      ensures found.missingSubs == Without(Wanted(userSubs), found.profiles.Keys)
      ensures found.replicaUnavailable <==> !readable && !(SeqSet(userSubs) - {""} <= Live(old(cache), now))
      ensures found.replicaUnavailable ==> found.profiles.Keys == (SeqSet(userSubs) - {""}) * Live(old(cache), now)
      ensures cache == CacheAfter(old(cache), table, SeqSet(userSubs) - {""}, now, later, readable)
    {
      var uniqueSubs := Wanted(userSubs);
      ghost var _ := WantedIsEachSubjectOnce(userSubs);
      if |uniqueSubs| == 0 {
        NothingAsked(cache, table, now, later, readable);
        return Found(map[], [], false);
      }
      found := LookUp(uniqueSubs, now, later, readable);
    }

    method LookUp(uniqueSubs: seq<string>, now: Time, later: Time, readable: bool) returns (found: Found)
      requires Valid()
      modifies this`cache
      ensures Valid()
      ensures !found.replicaUnavailable ==> found.profiles == Profiles(table, SeqSet(uniqueSubs))
      ensures found.profiles == Profiles(table, found.profiles.Keys) && found.profiles.Keys <= SeqSet(uniqueSubs)
      ensures found.missingSubs == Without(uniqueSubs, found.profiles.Keys)
      ensures found.replicaUnavailable <==> !readable && !(SeqSet(uniqueSubs) <= Live(old(cache), now))
      ensures found.replicaUnavailable ==> found.profiles.Keys == SeqSet(uniqueSubs) * Live(old(cache), now)
      ensures cache == CacheAfter(old(cache), table, SeqSet(uniqueSubs), now, later, readable)
    {
      var profiles, missing := FromCache(uniqueSubs, now);
      WithoutMembers(uniqueSubs, profiles.Keys);
      assert profiles.Keys + SeqSet(missing) == SeqSet(uniqueSubs);
      assert SeqSet(missing) == SeqSet(uniqueSubs) - Live(old(cache), now);
      NothingToFetch(cache, table, later);
      if |missing| == 0 {
        assert SeqSet(missing) == {};
        return Found(profiles, [], false);
      }
      assert missing[0] in SeqSet(missing);
      if !readable {
        return Found(profiles, missing, true);
      }
      profiles := FromTable(missing, profiles, later);
      found := Found(profiles, Without(uniqueSubs, profiles.Keys), false);
    }

    method UpsertUserIdentitySnapshot(userSub: string, profile: Profile, now: Time, writable: bool) returns (ok: bool)
      requires Valid()
      modifies this`table, this`cache
      ensures Valid() && ok == writable
      ensures table == if ok then old(table)[userSub := Snapshot(profile, now)] else old(table)
      ensures cache == if ok then old(cache)[userSub := Cached(now + 300_000, profile)] else old(cache)
    {
      if !writable {
        return false;
      }
      table := table[userSub := Snapshot(profile, now)];
      cache := cache[userSub := Cached(now + PROFILE_TTL_MS, table[userSub].profile)];
      return true;
    }

    method DeleteUserIdentitySnapshot(userSub: string, writable: bool) returns (ok: bool)
      requires Valid()
      modifies this`table, this`cache
      ensures Valid() && ok == writable
      ensures cache == old(cache) - {userSub}
      ensures table == if ok then old(table) - {userSub} else old(table)
    {
      cache := cache - {userSub};
      if !writable {
        return false;
      }
      table := table - {userSub};
      return true;
    }

    method Anonymize(t: Stamped, userSub: string)
      requires t in stamps
      modifies this`stamps
      ensures stamps == old(stamps)[t := Anonymized(old(stamps)[t], userSub)]
    {
      var rows := stamps[t];
      var rest := rows.Keys;
      while rest != {}
        invariant rest <= rows.Keys == old(stamps)[t].Keys
        invariant forall id :: id in rows ==>
          rows[id] == if id in rest then old(stamps)[t][id] else Anonymized(old(stamps)[t], userSub)[id]
      {
        var id :| id in rest;
        rest := rest - {id};
        if rows[id].sub == userSub {
          rows := rows[id := rows[id].(email := AnonEmail(userSub))];
        }
      }
      stamps := stamps[t := rows];
      assert rows == Anonymized(old(stamps)[t], userSub);
    }

    method AnonymizeStamps(userSub: string)
      requires forall t: Stamped :: t in stamps
      modifies this`stamps
      ensures stamps.Keys == old(stamps).Keys
      ensures forall t: Stamped :: stamps[t] == Anonymized(old(stamps)[t], userSub)
    {
      Anonymize(Members, userSub);
      Anonymize(ChatMessages, userSub);
      Anonymize(Files, userSub);
      Anonymize(TaskAssignees, userSub);
      Anonymize(TaskComments, userSub);
      Anonymize(MentionNotifications, userSub);
      forall t: Stamped ensures stamps[t] == Anonymized(old(stamps)[t], userSub) {
        match t { case Members => case ChatMessages => case Files =>
          case TaskAssignees => case TaskComments => case MentionNotifications => }
      }
    }

    /** One transaction: after it no row of the subject shows another e-mail, and nobody else's row has changed. */
    method AnonymizeUserPII(userSub: string, committed: bool)
      requires Valid() && forall t: Stamped :: t in stamps
      modifies this
      ensures Valid()
      ensures cache == old(cache) - {userSub}
      ensures !committed ==> table == old(table) && stamps == old(stamps)
      ensures committed ==> table == old(table) - {userSub} && stamps.Keys == old(stamps).Keys
      ensures committed ==> forall t: Stamped :: ReplacesEmails(old(stamps)[t], stamps[t], userSub)
    {
      var before, stamped := table, stamps;
      cache := cache - {userSub};
      table := table - {userSub};
      AnonymizeStamps(userSub);
      if !committed {
        table, stamps := before, stamped;
      } else {
        forall t: Stamped ensures ReplacesEmails(old(stamps)[t], stamps[t], userSub) {
          AnonymizedReplacesEmails(old(stamps)[t], userSub);
        }
      }
    }
  }
}
