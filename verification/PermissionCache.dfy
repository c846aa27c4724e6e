/**
 * The permission cache: a bounded least-recently-used cache whose entries belong
 * to an epoch and expire. A hit is always the last value set, and a user that was
 * used recently enough is still there.
 */
module PermissionCache {
  import opened Options

  type Value = string

  datatype Entry = Entry(user: int, value: Value, epoch: int, expiresAt: int)

  /** Most recently used first. */
  type Entries = seq<Entry>

  function Find(es: Entries, user: int): Option<Entry> {
    if es == [] then None else if es[0].user == user then Some(es[0]) else Find(es[1..], user)
  }

  function Without(es: Entries, user: int): Entries {
    if es == [] then [] else if es[0].user == user then Without(es[1..], user) else [es[0]] + Without(es[1..], user)
  }

  predicate Usable(e: Entry, epoch: int, now: int) { e.epoch == epoch && now < e.expiresAt }

  function Got(es: Entries, user: int, epoch: int, now: int): (Entries, Option<Value>) {
    match Find(es, user)
    case None => (es, None)
    case Some(e) => if Usable(e, epoch, now) then ([e] + Without(es, user), Some(e.value)) else (Without(es, user), None)
  }

  function Stored(es: Entries, capacity: nat, e: Entry): Entries {
    var all := [e] + Without(es, e.user);
    if Find(es, e.user).Some? || |all| <= capacity then all else all[..capacity]
  }

  ghost predicate Distinct(es: Entries) { forall i, j :: 0 <= i < j < |es| ==> es[i].user != es[j].user }

  lemma {:induction false} FindAt(es: Entries, user: int, k: nat)
    requires k < |es| && es[k].user == user && forall i :: 0 <= i < k ==> es[i].user != user
    ensures Find(es, user) == Some(es[k])
  {
    if k > 0 { FindAt(es[1..], user, k - 1); }
  }

  lemma {:induction false} FindNone(es: Entries, user: int)
    requires forall i :: 0 <= i < |es| ==> es[i].user != user
    ensures Find(es, user) == None && Without(es, user) == es
  {
    if es != [] { FindNone(es[1..], user); }
  }

  lemma {:induction false} WithoutAt(es: Entries, user: int, k: nat)
    requires k < |es| && es[k].user == user && forall i :: 0 <= i < |es| && i != k ==> es[i].user != user
    ensures Without(es, user) == es[..k] + es[k + 1..]
  {
    if k == 0 {
      FindNone(es[1..], user);
    } else {
      WithoutAt(es[1..], user, k - 1);
      assert es[1..][..k - 1] == es[1..k] && es[1..][k..] == es[k + 1..];
    }
  }

  // ------------------------------------------------------------- the cache, in place

  class Cache {
    const ttl: int
    const capacity: nat
    var items: map<int, Entry>
    /** The list, by user id; its front is the most recently used. */
    var lru: seq<int>

    /** The list and the map hold the same users, each once. */
    ghost predicate Linked()
      reads this
    {
      && (forall i :: 0 <= i < |lru| ==> lru[i] in items && items[lru[i]].user == lru[i])
      && (forall i, j :: 0 <= i < j < |lru| ==> lru[i] != lru[j])
      && (forall user :: user in items ==> user in lru)
    }

    ghost predicate Valid()
      reads this
    {
      Linked() && 1 <= capacity && |lru| <= capacity
    }

    ghost function Model(): (es: Entries)
      requires Linked()
      reads this
      ensures |es| == |lru| && forall i :: 0 <= i < |es| ==> es[i] == items[lru[i]]
    {
      seq(|lru|, i requires 0 <= i < |lru| reads this requires lru[i] in items => items[lru[i]])
    }

    constructor (ttl: int, capacity: int)
      ensures Valid() && Model() == [] && this.ttl == ttl && this.capacity == if capacity < 1 then 1 else capacity
    {
      this.ttl := ttl;
      this.capacity := if capacity < 1 then 1 else capacity;
      items, lru := map[], [];
    }

    /** Where a user's element is in the list. */
    method Locate(user: int) returns (k: nat)
      requires Linked() && user in items
      ensures k < |lru| && lru[k] == user && Find(Model(), user) == Some(items[user])
      ensures Without(Model(), user) == Model()[..k] + Model()[k + 1..]
    {
      k := 0;
      while lru[k] != user
        invariant k < |lru| && forall i :: 0 <= i < k ==> lru[i] != user
        decreases |lru| - k
      {
        k := k + 1;
      }
      FindAt(Model(), user, k);
      WithoutAt(Model(), user, k);
    }

    method Remove(user: int)
      requires Linked() && user in items
      modifies this
      ensures Linked() && user !in items && |lru| == old(|lru|) - 1 && Model() == Without(old(Model()), user)
    {
      hide Find, Without;
      var k := Locate(user);
      ghost var es := Model();
      items := items - {user};
      lru := lru[..k] + lru[k + 1..];
      assert Model() == es[..k] + es[k + 1..];
    }

    method PushFront(e: Entry)
      requires Linked() && e.user !in items
      modifies this
      ensures Linked() && Model() == [e] + old(Model()) && |lru| == old(|lru|) + 1
    {
      ghost var es := Model();
      items := items[e.user := e];
      lru := [e.user] + lru;
      assert Model() == [e] + es;
    }

    /** Drops the least recently used entry. */
    method DropLast()
      requires Linked() && lru != []
      modifies this
      ensures Linked() && |lru| == old(|lru|) - 1 && Model() == old(Model())[..|lru|]
    {
      hide Find, Without;
      ghost var es := Model();
      items := items - {lru[|lru| - 1]};
      lru := lru[..|lru| - 1];
      assert Model() == es[..|lru|];
    }

    /** Drops the least recently used entries while there are too many. */
    method Evict()
      requires Linked()
      modifies this
      ensures Linked() && Model() == if |old(Model())| <= capacity then old(Model()) else old(Model())[..capacity]
    {
      hide Find, Without;
      ghost var all := Model();
      while |lru| > capacity
        invariant Linked() && |lru| <= |all| && Model() == all[..|lru|]
        invariant if |all| <= capacity then |lru| == |all| else |lru| >= capacity
        decreases |lru|
      {
        DropLast();
      }
    }

    method Get(user: int, epoch: int, now: int) returns (value: Option<Value>)
      requires Valid()
      modifies this
      ensures Valid() && (Model(), value) == if ttl <= 0 then (old(Model()), None) else Got(old(Model()), user, epoch, now)
    {
      hide Find, Without;
      if ttl <= 0 { return None; }
      if user !in items {
        FindNone(Model(), user);
        return None;
      }
      var k := Locate(user);
      var entry := items[user];
      Remove(user);
      if entry.epoch != epoch || now >= entry.expiresAt { return None; }
      PushFront(entry);
      value := Some(entry.value);
    }

    method Set(user: int, epoch: int, value: Value, now: int)
      requires Valid()
      modifies this
      ensures Valid()
      ensures Model() == if ttl <= 0 then old(Model()) else Stored(old(Model()), capacity, Entry(user, value, epoch, now + ttl))
    {
      hide Find, Without;
      if ttl <= 0 { return; }
      var entry := Entry(user, value, epoch, now + ttl);
      if user in items {
        var k := Locate(user);
        Remove(user);
        PushFront(entry);
        return;
      }
      FindNone(Model(), user);
      PushFront(entry);
      Evict();
    }

    method Clear()
      requires Valid()
      modifies this
      ensures Valid() && Model() == []
    {
      items, lru := map[], [];
    }
  }
}
