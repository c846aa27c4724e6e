/**
 * The keyed dispatcher: a queue per key, at most one runner per key, and a
 * bounded channel of slots for the jobs that wait. Each critical section is one
 * function on the tables; the class changes the tables in place.
 */
module Dispatcher {
  import opened Options
  import opened MapSums
  import opened Sets

  type Job = int

  /** `slots` is the number of tokens in the slot channel and `capacity` its size;
      without a bound there is no channel. */
  datatype Tables = Tables(
    queues: map<string, seq<Job>>, active: set<string>,
    capacity: Option<nat>, slots: nat, rejected: nat)

  function KeyOf(key: string): string { if key == "" then "global" else key }

  function Queue(tb: Tables, key: string): seq<Job> { if key in tb.queues then tb.queues[key] else [] }

  ghost function Lengths(queues: map<string, seq<Job>>): map<string, nat> { map key | key in queues :: |queues[key]| }

  ghost function Queued(tb: Tables): nat { Sum(Lengths(tb.queues)) }

  function Received(tb: Tables, n: nat): Tables {
    if tb.capacity.None? || tb.slots < n then tb else tb.(slots := tb.slots - n)
  }

  // ------------------------------------------------------------ critical sections

  predicate HasRoom(tb: Tables) { tb.capacity.None? || tb.slots < tb.capacity.value }

  function Acquired(tb: Tables): Tables { if tb.capacity.None? then tb else tb.(slots := tb.slots + 1) }

  function Pushed(tb: Tables, key: string, job: Job): Tables { tb.(queues := tb.queues[key := Queue(tb, key) + [job]]) }

  function Appended(tb: Tables, key: string, job: Job): Tables { Pushed(tb, key, job).(active := tb.active + {key}) }

  /** The section of `TrySubmit`; `taken` is the executor's answer, asked for only
      when the key has no runner. */
  function TryAppended(tb: Tables, key: string, job: Job, taken: bool): (Tables, bool) {
    if key in tb.active then (Pushed(tb, key, job), true)
    else if taken then (Appended(tb, key, job), true)
    else (tb.(queues := tb.queues - {key}), false)
  }

  function Dropped(tb: Tables, key: string): Tables {
    Received(tb.(queues := tb.queues - {key}, active := tb.active - {key}), |Queue(tb, key)|)
  }

  function Popped(tb: Tables, key: string): Tables {
    if Queue(tb, key) == [] then tb.(queues := tb.queues - {key}, active := tb.active - {key})
    else Received(tb.(queues := tb.queues[key := Queue(tb, key)[1..]]), 1)
  }

  // -------------------------------------------------------------- queues and slots

  lemma LengthsWrite(tb: Tables, key: string, q: seq<Job>)
    ensures Sum(Lengths(tb.queues[key := q])) == Queued(tb) - |Queue(tb, key)| + |q|
  {
    assert Lengths(tb.queues[key := q]) == Lengths(tb.queues)[key := |q|];
    SumWrite(Lengths(tb.queues), key, |q|);
  }

  lemma LengthsDelete(tb: Tables, key: string)
    ensures Sum(Lengths(tb.queues - {key})) == Queued(tb) - |Queue(tb, key)|
  {
    if key in tb.queues {
      SumTake(Lengths(tb.queues), key);
      assert Lengths(tb.queues - {key}) == Lengths(tb.queues) - {key};
    } else {
      assert tb.queues - {key} == tb.queues;
    }
  }

  // -------------------------------------------------------- the dispatcher, in place

  class Dispatcher {
    const capacity: Option<nat>
    var queues: map<string, seq<Job>>
    var active: set<string>
    var slots: nat
    var ready: bool
    var rejected: nat
    /** Submitters that hold a slot and have not appended, or have taken their job back. */
    ghost var holders: nat

    ghost function Model(): Tables
      reads this
    {
      Tables(queues, active, capacity, slots, rejected)
    }

    /** Every token in the channel belongs to a queued job or to a holder, and a
        key without a runner has no queue. */
    ghost predicate Valid()
      reads this
    {
      && (capacity.Some? ==> slots == Queued(Model()) + holders && slots <= capacity.value)
      && (capacity.None? ==> slots == 0)
      && (forall key :: key in queues ==> key in active)
    }

    constructor (maxQueued: int)
      ensures Valid() && holders == 0 && !ready
      ensures Model() == Tables(map[], {}, if maxQueued > 0 then Some(maxQueued) else None, 0, 0)
    {
      capacity := if maxQueued > 0 then Some(maxQueued) else None;
      queues, active, slots, ready, rejected, holders := map[], {}, 0, false, 0, 0;
      new;
      assert Lengths(queues) == map[];
    }

    /** A receive from the slot channel; with no token in it the caller would block
        and, under the mutex, block everyone. */
    method Receive()
      requires capacity.Some? && slots > 0
      modifies this`slots
      ensures slots == old(slots) - 1
    {
      slots := slots - 1;
    }

    method SignalReady()
      modifies this`ready
      ensures ready
    {
      if !ready { ready := true; }
    }

    /** Taking a slot; without room `Submit` waits and `TrySubmit` gives up. */
    method Acquire(giveUp: bool) returns (ok: bool)
      requires Valid()
      modifies this`slots, this`holders, this`rejected
      ensures Valid() && ok == HasRoom(old(Model()))
      ensures Model() == if ok then Acquired(old(Model())) else old(Model()).(rejected := rejected)
      ensures holders == old(holders) + (if ok then 1 else 0)
      ensures rejected == old(rejected) + (if ok || !giveUp then 0 else 1)
    {
      if capacity.Some? {
        if slots >= capacity.value {
          if giveUp { rejected := rejected + 1; }
          return false;
        }
        slots := slots + 1;
      }
      holders := holders + 1;
      ok := true;
    }

    method ReleaseSlot()
      requires Valid() && holders > 0
      modifies this`slots, this`holders, this`ready
      ensures Valid() && Model() == Received(old(Model()), 1) && holders == old(holders) - 1 && ready
    {
      if capacity.Some? { Receive(); }
      holders := holders - 1;
      SignalReady();
    }

    /** The critical section of `Submit`. */
    method Append(key: string, job: Job) returns (start: bool)
      requires Valid() && holders > 0
      modifies this`queues, this`active, this`holders
      ensures Valid() && Model() == Appended(old(Model()), KeyOf(key), job)
      ensures start == (KeyOf(key) !in old(active)) && holders == old(holders) - 1
    {
      var k := if key == "" then "global" else key;
      LengthsWrite(Model(), k, Queue(Model(), k) + [job]);
      queues := queues[k := (if k in queues then queues[k] else []) + [job]];
      start := false;
      if k !in active {
        active := active + {k};
        start := true;
      }
      assert active == old(active) + {k};
      holders := holders - 1;
    }

    /** The critical section of `TrySubmit`. A refused caller still holds its slot. */
    method TryAppend(key: string, job: Job, taken: bool) returns (ok: bool)
      requires Valid() && holders > 0
      modifies this`queues, this`active, this`holders
      ensures Valid() && (Model(), ok) == TryAppended(old(Model()), KeyOf(key), job, taken)
      ensures ok ==> holders == old(holders) - 1
      ensures !ok ==> holders == old(holders) && Model() == old(Model())
    {
      var k := if key == "" then "global" else key;
      ghost var q := Queue(Model(), k);
      LengthsWrite(Model(), k, q + [job]);
      queues := queues[k := (if k in queues then queues[k] else []) + [job]];
      if k in active {
        holders := holders - 1;
        return true;
      }
      if !taken {
        queues := queues - {k};
        assert queues == old(queues) && queues == old(queues) - {k};
        return false;
      }
      active := active + {k};
      holders := holders - 1;
      ok := true;
    }

    /** Deletes a key's queue; returns how many jobs were in it. */
    method Discard(key: string) returns (queued: nat)
      requires Valid()
      modifies this`queues, this`active, this`slots, this`ready
      ensures Valid() && Model() == Dropped(old(Model()), key) && queued == |Queue(old(Model()), key)|
      ensures ready == (old(ready) || queued > 0)
    {
      queued := if key in queues then |queues[key]| else 0;
      LengthsDelete(Model(), key);
      queues := queues - {key};
      active := active - {key};
      if capacity.Some? {
        for i := 0 to queued
          invariant slots == old(slots) - i && ready == old(ready)
          invariant queues == old(queues) - {key} && active == old(active) - {key}
        {
          Receive();
        }
      }
      if queued > 0 { SignalReady(); }
    }

    method Pop(key: string) returns (item: Option<Job>)
      requires Valid() && key in active
      modifies this`queues, this`active, this`slots, this`ready
      ensures Valid() && Model() == Popped(old(Model()), key)
      ensures item == (if Queue(old(Model()), key) == [] then None else Some(Queue(old(Model()), key)[0]))
      ensures ready == (old(ready) || item.Some?)
    {
      var queue := if key in queues then queues[key] else [];
      if |queue| == 0 {
        LengthsDelete(Model(), key);
        queues := queues - {key};
        active := active - {key};
        return None;
      }
      LengthsWrite(Model(), key, queue[1..]);
      item := Some(queue[0]);
      queues := queues[key := queue[1..]];
      if capacity.Some? { Receive(); }
      SignalReady();
    }

    /** The number of waiting jobs, summed key by key; with a bound it never
        exceeds the bound. */
    method Stats() returns (queued: nat, activeKeys: nat)
      requires Valid()
      ensures queued == Queued(Model()) && activeKeys == |active|
      ensures capacity.Some? ==> queued + holders == slots <= capacity.value
    {
      queued, activeKeys := 0, |active|;
      var rest := queues;
      while rest != map[]
        invariant queued + Sum(Lengths(rest)) == Queued(Model())
        decreases |rest.Keys|
      {
        assert rest.Keys != {};
        var key := Choose(rest.Keys);
        queued := queued + |rest[key]|;
        LengthsDelete(Tables(rest, {}, None, 0, 0), key);
        assert (rest - {key}).Keys == rest.Keys - {key};
        rest := rest - {key};
      }
    }
  }
}
