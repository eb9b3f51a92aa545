/** What PushToLocalQueue does when the local queue has no room. OffloadTasksToGlobalQueue copies the overflowing task
    and what it grabs to the front of a buffer, and then hands over the rest of the buffer instead of that front.
    Thieves may rob the queue of its oldest tasks between the look of TryPush at begin_ and what the owner does next. */
module LocalOverflow {
  import opened GlobalTasks
  import opened WorkerPool

  /** The buffer of OffloadTasksToGlobalQueue; it is not initialized, so its tail is whatever was there. */
  function OffloadBuffer(local: seq<Task>, task: Task, taken: nat, junk: seq<Task>): (buffer: seq<Task>)
    requires taken <= |local| && taken + 1 <= |junk|
    ensures |buffer| == |junk|
  {
    [task] + local[..taken] + junk[taken + 1..]
  }

  /** The queue as TryPush saw it, how many of its oldest tasks thieves got before the owner went on, and how many the
      owner's Grab got in the end; the buffer had these contents to start with. */
  ghost predicate Possible(local: seq<Task>, robbed: nat, taken: nat, junk: seq<Task>) {
    && |local| <= LOCAL_CAPACITY && robbed <= |local| && taken <= Min(LOCAL_CAPACITY / 2, |local| - robbed)
    && |junk| == LOCAL_CAPACITY / 2 + 1
  }

  /** The local and the global queue afterwards. */
  function PushToLocalQueue(local: seq<Task>, queue: seq<Task>, task: Task, robbed: nat, taken: nat, junk: seq<Task>)
      : (after: (seq<Task>, seq<Task>))
    requires Possible(local, robbed, taken, junk)
    ensures |local| < LOCAL_CAPACITY ==> after == (local[robbed..] + [task], queue)
    ensures |local| == LOCAL_CAPACITY ==>
              |after.0| == |local| - robbed - taken && |after.1| == |queue| + LOCAL_CAPACITY / 2 - taken
  {
    if |local| < LOCAL_CAPACITY then (local[robbed..] + [task], queue)
    else
      var grabbed := taken + 1;
      (local[robbed + taken..], queue + OffloadBuffer(local[robbed..], task, taken, junk)[grabbed..])
  }

  /** Tasks are conserved exactly when the local queue had room: on an overflow some task is lost or a stray pointer
      gets in, however many tasks the thieves and the owner got and whatever the buffer held. */
  lemma ConservesIffRoom(local: seq<Task>, queue: seq<Task>, task: Task, robbed: nat, taken: nat, junk: seq<Task>)
    requires Possible(local, robbed, taken, junk)
    ensures var (local', queue') := PushToLocalQueue(local, queue, task, robbed, taken, junk);
            multiset(local[..robbed]) + multiset(local') + multiset(queue')
              == multiset(local) + multiset(queue) + multiset{task}
            <==> |local| < LOCAL_CAPACITY
  {
    var (local', queue') := PushToLocalQueue(local, queue, task, robbed, taken, junk);
    var before := multiset(local) + multiset(queue) + multiset{task};
    var after := multiset(local[..robbed]) + multiset(local') + multiset(queue');
    assert local == local[..robbed] + local[robbed..];
    if |local| == LOCAL_CAPACITY {
      assert |before| == |local| + |queue| + 1;
      assert |after| == robbed + |local'| + |queue'|;
    }
  }

  /** With no thief about, an overflow loses half the queue and the new task: nothing reaches the global queue. */
  lemma OverflowLosesHalf(local: seq<Task>, queue: seq<Task>, task: Task, junk: seq<Task>)
    requires |local| == LOCAL_CAPACITY && |junk| == LOCAL_CAPACITY / 2 + 1
    ensures PushToLocalQueue(local, queue, task, 0, LOCAL_CAPACITY / 2, junk) == (local[LOCAL_CAPACITY / 2..], queue)
  {
    var half := LOCAL_CAPACITY / 2;
    assert local[0..] == local;
    assert OffloadBuffer(local, task, half, junk)[half + 1..] == [];
    assert queue + [] == queue;
  }
}
