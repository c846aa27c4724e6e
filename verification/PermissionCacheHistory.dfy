/**
 * The permission cache over any sequence of reads, writes and clears: what a hit
 * returns, and for how long a user stays.
 */
module PermissionCacheHistory {
  import opened Options
  import opened PermissionCache

  datatype Event = Put(user: int, epoch: int, value: Value, now: int) | Ask(user: int, epoch: int, now: int) | Clear

  function Apply(ttl: int, capacity: nat, es: Entries, e: Event): Entries {
    match e
    case Put(user, epoch, value, now) => Stored(es, capacity, Entry(user, value, epoch, now + ttl))
    case Ask(user, epoch, now) => Got(es, user, epoch, now).0
    case Clear => []
  }

  function Run(ttl: int, capacity: nat, events: seq<Event>): Entries {
    if events == [] then []
    else Apply(ttl, capacity, Run(ttl, capacity, events[..|events| - 1]), events[|events| - 1])
  }

  /** The entry last put for a user since the last clear. */
  function LastPut(ttl: int, log: seq<Event>, user: int): Option<Entry> {
    if log == [] || log[|log| - 1].Clear? then None
    else
      var e := log[|log| - 1];
      if e.Put? && e.user == user then Some(Entry(user, e.value, e.epoch, e.now + ttl))
      else LastPut(ttl, log[..|log| - 1], user)
  }

  /** The other users put or asked for since the user was last put or found; none
      if the user was never put since the last clear, or was dropped by a read
      from another epoch or after the entry's time. */
  function Since(ttl: int, capacity: nat, log: seq<Event>, user: int): Option<set<int>> {
    if log == [] || log[|log| - 1].Clear? then None
    else
      var init, e := log[..|log| - 1], log[|log| - 1];
      var before := Since(ttl, capacity, init, user);
      if e.Put? && e.user == user then Some({})
      else if before.None? then None
      else if e.user != user then Some(before.value + {e.user})
      else if LastPut(ttl, init, user).None? || !Usable(LastPut(ttl, init, user).value, e.epoch, e.now) then None
      else if |before.value| < capacity then Some({})
      else before
  }

  // ------------------------------------------------------------------- invariant

  /** All entries are the last ones put. */
  ghost predicate Current(ttl: int, log: seq<Event>, es: Entries) {
    forall k :: 0 <= k < |es| ==> LastPut(ttl, log, es[k].user) == Some(es[k])
  }

  /** Whoever stands before the user was used since. */
  ghost predicate Behind(es: Entries, user: int, since: set<int>) {
    forall i, k :: 0 <= i < k < |es| && es[k].user == user ==> es[i].user in since
  }

  ghost predicate Has(es: Entries, user: int) { exists k :: 0 <= k < |es| && es[k].user == user }

  ghost predicate Kept(es: Entries, capacity: nat, user: int, since: set<int>) {
    Behind(es, user, since) && (|since| < capacity ==> Has(es, user))
  }

  // ------------------------------------------------------------- facts about lists

  /** A list without its element `j`. */
  function Cut(es: Entries, j: nat): Entries
    requires j < |es|
  {
    es[..j] + es[j + 1..]
  }

  lemma CutLeaves(es: Entries, j: nat, user: int, since: set<int>)
    requires Distinct(es) && j < |es|
    ensures Distinct(Cut(es, j)) && !Has(Cut(es, j), es[j].user) && forall k :: 0 <= k < |Cut(es, j)| ==> Cut(es, j)[k] in es
    ensures user != es[j].user && Has(es, user) ==> Has(Cut(es, j), user)
    ensures Behind(es, user, since) ==> Behind(Cut(es, j), user, since)
  {
    var rest := Cut(es, j);
    forall k | 0 <= k < |rest| ensures rest[k] == es[if k < j then k else k + 1] {
    }
    if user != es[j].user && Has(es, user) {
      var k :| 0 <= k < |es| && es[k].user == user;
      assert rest[if k < j then k else k - 1].user == user;
    }
  }

  /** What taking a user out of a list leaves: the others, in order. */
  lemma WithoutLeaves(es: Entries, u: int, user: int, since: set<int>)
    requires Distinct(es)
    ensures
      var rest := Without(es, u);
      && Distinct(rest) && |rest| <= |es| && !Has(rest, u) && (forall k :: 0 <= k < |rest| ==> rest[k] in es)
      && (Has(es, u) ==> |rest| == |es| - 1) && (user != u && Has(es, user) ==> Has(rest, user))
      && (Behind(es, user, since) ==> Behind(rest, user, since))
  {
    hide Find, Without, Behind;
    if Has(es, u) {
      var j :| 0 <= j < |es| && es[j].user == u;
      WithoutAt(es, u, j);
      CutLeaves(es, j, user, since);
      assert Without(es, u) == Cut(es, j);
    } else {
      FindNone(es, u);
    }
  }

  lemma OneMore(s: set<int>, x: int)
    ensures |s| <= |s + {x}|
  {
    if x in s { assert s + {x} == s; }
  }

  lemma FindHas(es: Entries, user: int)
    requires Distinct(es)
    ensures Find(es, user).Some? <==> Has(es, user)
    ensures Find(es, user).Some? ==> Find(es, user).value in es && Find(es, user).value.user == user
  {
    if Has(es, user) {
      var k :| 0 <= k < |es| && es[k].user == user;
      FindAt(es, user, k);
    } else {
      FindNone(es, user);
    }
  }

  /** A user that stands behind few others is not far back. */
  lemma {:induction false} NotFarBack(es: Entries, k: nat, since: set<int>)
    requires Distinct(es) && k <= |es| && forall i :: 0 <= i < k ==> es[i].user in since
    ensures k <= |since|
    decreases k
  {
    if k > 0 {
      NotFarBack(es, k - 1, since - {es[k - 1].user});
    }
  }

  // ----------------------------------------------------------------- each step keeps it

  lemma Fronted(e: Entry, rest: Entries, user: int, since: set<int>)
    requires Distinct(rest) && !Has(rest, e.user)
    ensures Distinct([e] + rest) && Behind([e] + rest, e.user, {})
    ensures user != e.user && Behind(rest, user, since) ==> Behind([e] + rest, user, since + {e.user})
    ensures Has([e] + rest, e.user) && (Has(rest, user) ==> Has([e] + rest, user))
  {
    var all := [e] + rest;
    assert all[0] == e;
    if Has(rest, user) {
      var k :| 0 <= k < |rest| && rest[k].user == user;
      assert all[k + 1] == rest[k];
    }
    forall k | 0 < k < |all| ensures all[k] == rest[k - 1] && all[k].user != e.user {
      assert rest[k - 1].user != e.user;
    }
  }

  lemma CutKeeps(all: Entries, capacity: nat, user: int, since: set<int>)
    requires Distinct(all) && Behind(all, user, since) && |all| > capacity
    ensures Distinct(all[..capacity]) && Behind(all[..capacity], user, since)
    ensures |since| < capacity && Has(all, user) ==> Has(all[..capacity], user)
  {
    if |since| < capacity && Has(all, user) {
      var k :| 0 <= k < |all| && all[k].user == user;
      NotFarBack(all, k, since);
      assert all[..capacity][k].user == user;
    }
  }

  lemma PutKeeps(es: Entries, capacity: nat, e: Entry, user: int, since: set<int>)
    requires Distinct(es) && |es| <= capacity && capacity >= 1
    ensures Distinct(Stored(es, capacity, e)) && |Stored(es, capacity, e)| <= capacity
    ensures Kept(Stored(es, capacity, e), capacity, e.user, {})
    ensures user != e.user && Kept(es, capacity, user, since) ==> Kept(Stored(es, capacity, e), capacity, user, since + {e.user})
  {
    hide Find, Without;
    var rest := Without(es, e.user);
    var all := [e] + rest;
    FindHas(es, e.user);
    WithoutLeaves(es, e.user, user, since);
    WithoutLeaves(es, e.user, e.user, {});
    Fronted(e, rest, user, since);
    Fronted(e, rest, e.user, {});
    if |all| > capacity && Find(es, e.user).None? {
      CutKeeps(all, capacity, e.user, {});
      if user != e.user && Kept(es, capacity, user, since) {
        OneMore(since, e.user);
        CutKeeps(all, capacity, user, since + {e.user});
      }
    } else if user != e.user && Kept(es, capacity, user, since) {
      OneMore(since, e.user);
    }
  }

  lemma AskKeeps(es: Entries, capacity: nat, u: int, epoch: int, now: int, user: int, since: set<int>)
    requires Distinct(es) && |es| <= capacity
    ensures Distinct(Got(es, u, epoch, now).0) && |Got(es, u, epoch, now).0| <= capacity
    ensures user != u && Kept(es, capacity, user, since) ==> Kept(Got(es, u, epoch, now).0, capacity, user, since + {u})
    ensures Find(es, u).Some? && Usable(Find(es, u).value, epoch, now) ==> Kept(Got(es, u, epoch, now).0, capacity, u, {})
  {
    hide Find, Without;
    FindHas(es, u);
    OneMore(since, u);
    WithoutLeaves(es, u, user, since);
    if Find(es, u).Some? {
      Fronted(Find(es, u).value, Without(es, u), user, since);
      Fronted(Find(es, u).value, Without(es, u), u, {});
    }
  }

  lemma StepKeepsCurrent(ttl: int, capacity: nat, log: seq<Event>, es: Entries, e: Event)
    requires Distinct(es) && Current(ttl, log, es)
    ensures Current(ttl, log + [e], Apply(ttl, capacity, es, e))
  {
    hide Find, Without;
    assert (log + [e])[..|log|] == log;
    var after := Apply(ttl, capacity, es, e);
    if !e.Clear? {
      FindHas(es, e.user);
      WithoutLeaves(es, e.user, e.user, {});
      forall k | 0 <= k < |after| ensures LastPut(ttl, log + [e], after[k].user) == Some(after[k]) {
        if after[k] in es {
          var i :| 0 <= i < |es| && es[i] == after[k];
          assert LastPut(ttl, log, es[i].user) == Some(es[i]);
        }
      }
    }
  }

  ghost predicate Inv(ttl: int, capacity: nat, log: seq<Event>, es: Entries) {
    && Distinct(es) && |es| <= capacity && Current(ttl, log, es)
    && (forall user :: Since(ttl, capacity, log, user).Some? ==> Kept(es, capacity, user, Since(ttl, capacity, log, user).value))
  }

  lemma StepKeepsUser(ttl: int, capacity: nat, log: seq<Event>, es: Entries, e: Event, user: int)
    requires capacity >= 1 && Inv(ttl, capacity, log, es) && Since(ttl, capacity, log + [e], user).Some?
    ensures Kept(Apply(ttl, capacity, es, e), capacity, user, Since(ttl, capacity, log + [e], user).value)
  {
    hide Find, Without, Kept;
    assert (log + [e])[..|log|] == log;
    var before := Since(ttl, capacity, log, user);
    if e.Put? {
      PutKeeps(es, capacity, Entry(e.user, e.value, e.epoch, e.now + ttl), user, if before.Some? then before.value else {});
    } else if e.user != user {
      AskKeeps(es, capacity, e.user, e.epoch, e.now, user, before.value);
    } else {
      FoundKeeps(ttl, capacity, log, es, e);
    }
  }

  /** A read of the user itself, with the last entry put still usable. */
  lemma FoundKeeps(ttl: int, capacity: nat, log: seq<Event>, es: Entries, e: Event)
    requires Distinct(es) && |es| <= capacity && Current(ttl, log, es) && e.Ask?
    requires Since(ttl, capacity, log, e.user).Some? && Kept(es, capacity, e.user, Since(ttl, capacity, log, e.user).value)
    requires Since(ttl, capacity, log + [e], e.user).Some?
    ensures Kept(Apply(ttl, capacity, es, e), capacity, e.user, Since(ttl, capacity, log + [e], e.user).value)
  {
    hide Find, Without;
    assert (log + [e])[..|log|] == log;
    FindHas(es, e.user);
    if Has(es, e.user) {
      var k :| 0 <= k < |es| && es[k] == Find(es, e.user).value;
      assert LastPut(ttl, log, es[k].user) == Some(es[k]);
      AskKeeps(es, capacity, e.user, e.epoch, e.now, e.user, {});
    }
  }

  lemma {:induction false} RunKeepsInv(ttl: int, capacity: nat, log: seq<Event>)
    requires capacity >= 1
    ensures Inv(ttl, capacity, log, Run(ttl, capacity, log))
  {
    if log != [] {
      var init, e := log[..|log| - 1], log[|log| - 1];
      RunKeepsInv(ttl, capacity, init);
      var es := Run(ttl, capacity, init);
      assert init + [e] == log;
      StepKeepsCurrent(ttl, capacity, init, es, e);
      if e.Put? { PutKeeps(es, capacity, Entry(e.user, e.value, e.epoch, e.now + ttl), e.user, {}); }
      if e.Ask? { AskKeeps(es, capacity, e.user, e.epoch, e.now, e.user, {}); }
      forall user | Since(ttl, capacity, log, user).Some?
        ensures Kept(Run(ttl, capacity, log), capacity, user, Since(ttl, capacity, log, user).value)
      {
        StepKeepsUser(ttl, capacity, init, es, e, user);
      }
    }
  }

  // -------------------------------------------------------------------- theorems

  /** A hit returns the value last put for the user since the last clear, put in the
      same epoch and not yet expired: nothing revoked by an epoch change or a clear
      is ever returned. */
  lemma HitIsLastPut(ttl: int, capacity: nat, log: seq<Event>, user: int, epoch: int, now: int)
    requires capacity >= 1 && Got(Run(ttl, capacity, log), user, epoch, now).1.Some?
    ensures LastPut(ttl, log, user).Some? && Usable(LastPut(ttl, log, user).value, epoch, now)
    ensures Got(Run(ttl, capacity, log), user, epoch, now).1 == Some(LastPut(ttl, log, user).value.value)
  {
    hide Find, Without;
    var es := Run(ttl, capacity, log);
    RunKeepsInv(ttl, capacity, log);
    FindHas(es, user);
    var k :| 0 <= k < |es| && es[k] == Find(es, user).value;
    assert LastPut(ttl, log, es[k].user) == Some(es[k]);
  }

  /** The cache never holds more than its capacity, and a user since whose last use
      fewer other users than the capacity were used is still in it: a read hits
      exactly if the value is of its epoch and not expired. */
  lemma RecentlyUsedIsKept(ttl: int, capacity: nat, log: seq<Event>, user: int, epoch: int, now: int)
    requires capacity >= 1 && Since(ttl, capacity, log, user).Some? && |Since(ttl, capacity, log, user).value| < capacity
    ensures |Run(ttl, capacity, log)| <= capacity && LastPut(ttl, log, user).Some?
    ensures Got(Run(ttl, capacity, log), user, epoch, now).1.Some? <==> Usable(LastPut(ttl, log, user).value, epoch, now)
  {
    hide Find, Without;
    var es := Run(ttl, capacity, log);
    RunKeepsInv(ttl, capacity, log);
    FindHas(es, user);
    var k :| 0 <= k < |es| && es[k] == Find(es, user).value;
    assert LastPut(ttl, log, es[k].user) == Some(es[k]);
  }
}
