/** The unbounded queue shared by the workers. Every method is one section under access_; the closed flag is
    false throughout, since the pool is studied before Stop. */
module GlobalTasks {
  import opened Lists

  function Min(a: nat, b: nat): nat {
    if a < b then a else b
  }

  /** How many of len queued tasks one Grab takes into a buffer with the given room, for that many workers. */
  function Share(room: nat, len: nat, workers: nat): (k: nat)
    requires workers > 0
    ensures k <= room && k <= len
  {
    Min(Min(room, len), len / workers + (if len % workers != 0 then 1 else 0))
  }

  /** A grab comes back empty-handed exactly when there is nothing to grab or no room for it. */
  lemma ShareZero(room: nat, len: nat, workers: nat)
    requires workers > 0
    ensures Share(room, len, workers) == 0 <==> room == 0 || len == 0
  {
    assert len == workers * (len / workers) + len % workers;
  }

  lemma MulMono(a: nat, b: nat, c: nat)
    requires b <= c
    ensures a * b <= a * c
  {
  }

  /** The rounded-up quotient is the least k with workers * k >= len. */
  lemma CeilIsLeast(len: nat, workers: nat, q: nat, r: nat, k: nat)
    requires workers > 0 && len == workers * q + r && r < workers
    ensures workers * k >= len <==> k >= (if r != 0 then q + 1 else q)
  {
    if k <= q {
      MulMono(workers, k, q);
      if k < q {
        MulMono(workers, k + 1, q);
        assert workers * (k + 1) == workers * k + workers;
      }
    } else {
      MulMono(workers, q + 1, k);
      assert workers * (q + 1) == workers * q + workers;
    }
  }

  /** That many workers taking k tasks each would empty the queue. */
  ghost predicate Empties(workers: nat, k: int, len: nat) {
    workers * k >= len
  }

  /** The least number that lets the workers empty the queue in one round of equal grabs, or all that fits. */
  ghost predicate FairShare(k: nat, room: nat, len: nat, workers: nat) {
    && k <= room
    && (k < room ==> forall j: nat :: Empties(workers, j, len) <==> j >= k)
    && (0 < k == room ==> !Empties(workers, k - 1, len))
  }

  lemma RoundedUp(len: nat, workers: nat, j: nat)
    requires workers > 0
    ensures Empties(workers, j, len) <==> j >= len / workers + (if len % workers != 0 then 1 else 0)
  {
    CeilIsLeast(len, workers, len / workers, len % workers, j);
  }

  /** The rounded-up quotient never exceeds the queue. */
  lemma QuotientFits(len: nat, workers: nat)
    requires workers > 0
    ensures len / workers + (if len % workers != 0 then 1 else 0) <= len
  {
    RoundedUp(len, workers, len);
    MulMono(len, 1, workers);
  }

  /** A grab takes the fair share, for every buffer, queue and number of workers. */
  lemma ShareIsFair(room: nat, len: nat, workers: nat)
    requires workers > 0
    ensures FairShare(Share(room, len, workers), room, len, workers)
  {
    QuotientFits(len, workers);
    forall j: nat ensures Empties(workers, j, len) <==> j >= len / workers + (if len % workers != 0 then 1 else 0) {
      RoundedUp(len, workers, j);
    }
  }

  lemma NotLess(k: nat, l: nat, room: nat, len: nat, workers: nat)
    requires FairShare(k, room, len, workers) && FairShare(l, room, len, workers)
    ensures k >= l
  {
    assert k < room ==> Empties(workers, k, len);
    assert k < l ==> Empties(workers, l - 1, len);
  }

  /** There is only one fair share. */
  lemma FairShareIsUnique(k: nat, l: nat, room: nat, len: nat, workers: nat)
    requires FairShare(k, room, len, workers) && FairShare(l, room, len, workers)
    ensures k == l
  {
    NotLess(k, l, room, len, workers);
    NotLess(l, k, room, len, workers);
  }

  class GlobalQueue<Task(0)> {
    var queue: seq<Task>
    var busy: nat

    /** The idle counter is one exactly when the queue is non-empty. */
    ghost predicate Valid()
      reads this
    {
      busy == if queue == [] then 0 else 1
    }

    constructor ()
      ensures Valid() && queue == []
    {
      queue, busy := [], 0;
    }

    method PushOne(item: Task)
      requires Valid()
      modifies this
      ensures Valid() && queue == old(queue) + [item]
    {
      if queue == [] {
        busy := busy + 1;
      }
      queue := queue + [item];
    }

    method Offload(buffer: array<Task>)
      requires Valid()
      modifies this
      ensures Valid() && queue == old(queue) + buffer[..]
    {
      if queue == [] && buffer.Length != 0 {
        busy := busy + 1;
      }
      for i := 0 to buffer.Length
        invariant queue == old(queue) + buffer[..i]
        invariant busy == if old(queue) == [] && buffer.Length == 0 then 0 else 1
      {
        queue := queue + [buffer[i]];
      }
    }

    method TryPopOne() returns (task: Option<Task>)
      requires Valid()
      modifies this
      ensures Valid()
      ensures task.None? <==> old(queue) == []
      ensures task.None? ==> queue == []
      ensures task.Some? ==> old(queue) == [task.value] + queue
    {
      if queue == [] {
        return None;
      }
      if |queue| == 1 {
        busy := busy - 1;
      }
      task := Some(queue[0]);
      queue := queue[1..];
    }

    /** Moves the share of the queue's head, in order, to the head of the buffer. */
    method Grab(buffer: array<Task>, workers: nat) returns (limit: nat)
      requires Valid() && workers > 0
      modifies this, buffer
      ensures Valid()
      ensures FairShare(limit, buffer.Length, |old(queue)|, workers)
      ensures buffer[..limit] + queue == old(queue)
      ensures buffer[limit..] == old(buffer[limit..])
    {
      limit := Share(buffer.Length, |queue|, workers);
      ShareIsFair(buffer.Length, |queue|, workers);
      if limit == 0 {
        return;
      }
      PopInto(buffer, limit);
    }

    method PopInto(buffer: array<Task>, limit: nat)
      requires Valid() && 0 < limit <= |queue| && limit <= buffer.Length
      modifies this, buffer
      ensures Valid()
      ensures buffer[..limit] + queue == old(queue)
      ensures buffer[limit..] == old(buffer[limit..])
    {
      ghost var all := queue;
      if limit == |queue| {
        busy := busy - 1;
      }
      for i := 0 to limit
        invariant queue == all[i..] && buffer[..i] == all[..i]
        invariant buffer[limit..] == old(buffer[limit..])
        invariant busy == if limit == |all| then 0 else 1
      {
        buffer[i] := queue[0];
        queue := queue[1..];
        assert buffer[..i + 1] == buffer[..i] + [all[i]];
      }
    }

    method WaitIdle() returns (idle: bool)
      requires Valid()
      ensures idle <==> queue == []
    {
      idle := busy == 0;
    }
  }
}
