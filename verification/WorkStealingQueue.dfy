/** The work-stealing queue as an object: the ring array and the two atomic indices are updated in place, one
    method per atomic action. Callers may interleave the methods of any number of threads in any order; each
    method is one event of the RingBuffer model, and the object keeps that model's invariant. */
module WorkStealing {
  import opened RingBuffer

  class WorkStealingQueue {
    const capacity: nat
    const buffer: array<Item>
    var begin: nat
    var end: nat
    var producer: Producer
    var consumers: map<Id, Consumer>
    ghost var pushed: seq<Item>
    ghost var taken: seq<Item>

    ghost function View(): State
      reads this, buffer
    {
      State(capacity, buffer[..], begin, end, producer, consumers, pushed, taken)
    }

    ghost predicate Valid()
      reads this, buffer
    {
      Inv(View())
    }

    constructor (capacity: nat, threads: set<Id>)
      requires capacity > 0
      ensures Valid() && Init(View()) && consumers.Keys == threads && this.capacity == capacity
      ensures fresh(buffer)
    {
      this.capacity := capacity;
      buffer := new Item[capacity];
      begin, end := 0, 0;
      producer := Quiet;
      consumers := map c | c in threads :: Idle;
      pushed, taken := [], [];
    }

    // ----- TryPush

    method TryPush(item: Item)
      requires Valid() && Enabled(View(), Event.CallTryPush(item))
      modifies `producer
      ensures Valid() && View() == Perform(old(View()), Event.CallTryPush(item))
    {
      producer := PushBegin(item);
      StepKeepsInv(old(View()), Event.CallTryPush(item), View());
    }

    method PushLoadBegin()
      requires Valid() && Enabled(View(), Event.PushLoadBegin)
      modifies `producer
      ensures Valid() && View() == Perform(old(View()), Event.PushLoadBegin)
    {
      producer := PushEnd(producer.item, begin, end >= begin + capacity);
      StepKeepsInv(old(View()), Event.PushLoadBegin, View());
    }

    /** The full-or-not branch: refused tells what TryPush returns if it ends here. */
    method PushLoadEnd() returns (refused: bool)
      requires Valid() && Enabled(View(), Event.PushLoadEnd)
      modifies `producer
      ensures Valid() && View() == Perform(old(View()), Event.PushLoadEnd)
      ensures refused <==> producer == Quiet
      ensures refused ==> old(producer).full
    {
      refused := end >= producer.begin + capacity;
      producer := if refused then Quiet else PushStore(producer.item, end);
      StepKeepsInv(old(View()), Event.PushLoadEnd, View());
    }

    method StoreItem()
      requires Valid() && Enabled(View(), Event.StoreItem)
      modifies `producer, buffer
      ensures Valid() && View() == Perform(old(View()), Event.StoreItem)
    {
      buffer[producer.end % capacity] := producer.item;
      producer := PushPublish(producer.item, producer.end);
      assert buffer[..] == DoStoreItem(old(View())).slots;
      StepKeepsInv(old(View()), Event.StoreItem, View());
    }

    method Publish()
      requires Valid() && Enabled(View(), Event.Publish)
      modifies `producer, `end, `pushed
      ensures Valid() && View() == Perform(old(View()), Event.Publish)
    {
      end := end + 1;
      pushed := pushed + [producer.item];
      producer := Quiet;
      StepKeepsInv(old(View()), Event.Publish, View());
    }

    // ----- PushMany

    method PushMany(items: seq<Item>)
      requires Valid() && Enabled(View(), Event.CallPushMany(items))
      modifies `producer
      ensures Valid() && View() == Perform(old(View()), Event.CallPushMany(items))
    {
      producer := ManyEnd(items);
      StepKeepsInv(old(View()), Event.CallPushMany(items), View());
    }

    method ManyLoadEnd()
      requires Valid() && Enabled(View(), Event.ManyLoadEnd)
      modifies `producer
      ensures Valid() && View() == Perform(old(View()), Event.ManyLoadEnd)
    {
      producer := ManyCheck(producer.items, end);
      StepKeepsInv(old(View()), Event.ManyLoadEnd, View());
    }

    /** The assertion. */
    method CheckRoom() returns (passed: bool)
      requires Valid() && Enabled(View(), Event.CheckRoom)
      modifies `producer
      ensures Valid() && View() == Perform(old(View()), Event.CheckRoom)
      ensures passed <==> |Contents(View())| + |old(producer).items| <= capacity
      ensures passed <==> producer != Aborted
    {
      passed := producer.end + |producer.items| <= begin + capacity;
      producer := if passed then ManyStore(producer.items, producer.end, 0) else Aborted;
      StepKeepsInv(old(View()), Event.CheckRoom, View());
    }

    method StoreNext()
      requires Valid() && Enabled(View(), Event.StoreNext)
      modifies `producer, buffer
      ensures Valid() && View() == Perform(old(View()), Event.StoreNext)
    {
      buffer[(producer.end + producer.stored) % capacity] := producer.items[producer.stored];
      producer := producer.(stored := producer.stored + 1);
      assert buffer[..] == DoStoreNext(old(View())).slots;
      StepKeepsInv(old(View()), Event.StoreNext, View());
    }

    method PublishMany()
      requires Valid() && Enabled(View(), Event.PublishMany)
      modifies `producer, `end, `pushed
      ensures Valid() && View() == Perform(old(View()), Event.PublishMany)
    {
      end := end + |producer.items|;
      pushed := pushed + producer.items;
      producer := Quiet;
      StepKeepsInv(old(View()), Event.PublishMany, View());
    }

    // ----- TryPop

    method TryPop(c: Id)
      requires Valid() && Enabled(View(), Event.CallTryPop(c))
      modifies `consumers
      ensures Valid() && View() == Perform(old(View()), Event.CallTryPop(c))
    {
      consumers := consumers[c := PopBegin];
      StepKeepsInv(old(View()), Event.CallTryPop(c), View());
    }

    method PopLoadBegin(c: Id)
      requires Valid() && Enabled(View(), Event.PopLoadBegin(c))
      modifies `consumers
      ensures Valid() && View() == Perform(old(View()), Event.PopLoadBegin(c))
    {
      consumers := consumers[c := PopEnd(begin)];
      StepKeepsInv(old(View()), Event.PopLoadBegin(c), View());
    }

    method PopLoadEnd(c: Id) returns (empty: bool)
      requires Valid() && Enabled(View(), Event.PopLoadEnd(c))
      modifies `consumers
      ensures Valid() && View() == Perform(old(View()), Event.PopLoadEnd(c))
      ensures empty <==> consumers[c] == Idle
      ensures empty ==> Contents(View()) == []
    {
      GivingUpSawEmpty(View(), c);
      empty := end == consumers[c].begin;
      consumers := consumers[c := if empty then Idle else PopRead(consumers[c].begin)];
      StepKeepsInv(old(View()), Event.PopLoadEnd(c), View());
    }

    method PopLoadItem(c: Id)
      requires Valid() && Enabled(View(), Event.PopLoadItem(c))
      modifies `consumers
      ensures Valid() && View() == Perform(old(View()), Event.PopLoadItem(c))
    {
      var b := consumers[c].begin;
      consumers := consumers[c := PopAdvance(b, buffer[b % capacity])];
      StepKeepsInv(old(View()), Event.PopLoadItem(c), View());
    }

    /** The weak compare-exchange; it may fail spuriously. A win returns the oldest item. */
    method PopExchange(c: Id, spurious: bool) returns (won: bool, item: Item)
      requires Valid() && Enabled(View(), Event.PopExchange(c, spurious))
      modifies `consumers, `begin, `taken
      ensures Valid() && View() == Perform(old(View()), Event.PopExchange(c, spurious))
      ensures won <==> old(consumers[c]).begin == old(begin) && !spurious
      ensures won ==> old(Contents(View())) == [item] + Contents(View())
      ensures !won ==> Contents(View()) == old(Contents(View()))
    {
      item := consumers[c].item;
      won := consumers[c].begin == begin && !spurious;
      RefinesQueue(View(), Event.PopExchange(c, spurious), Perform(View(), Event.PopExchange(c, spurious)));
      if won {
        begin := begin + 1;
        taken := taken + [item];
        consumers := consumers[c := Idle];
      } else {
        consumers := consumers[c := PopBegin];
      }
    }

    // ----- Grab

    method Grab(c: Id, room: nat)
      requires Valid() && Enabled(View(), Event.CallGrab(c, room))
      modifies `consumers
      ensures Valid() && View() == Perform(old(View()), Event.CallGrab(c, room))
    {
      consumers := consumers[c := GrabBegin(room)];
      StepKeepsInv(old(View()), Event.CallGrab(c, room), View());
    }

    method GrabLoadBegin(c: Id)
      requires Valid() && Enabled(View(), Event.GrabLoadBegin(c))
      modifies `consumers
      ensures Valid() && View() == Perform(old(View()), Event.GrabLoadBegin(c))
    {
      consumers := consumers[c := GrabEnd(consumers[c].room, begin)];
      StepKeepsInv(old(View()), Event.GrabLoadBegin(c), View());
    }

    method GrabLoadEnd(c: Id) returns (empty: bool)
      requires Valid() && Enabled(View(), Event.GrabLoadEnd(c))
      modifies `consumers
      ensures Valid() && View() == Perform(old(View()), Event.GrabLoadEnd(c))
      ensures empty ==> Contents(View()) == []
    {
      GivingUpSawEmpty(View(), c);
      var pc := consumers[c];
      empty := end <= pc.begin;
      if empty {
        consumers := consumers[c := Idle];
      } else {
        var lim := if pc.room < end - pc.begin then pc.room else end - pc.begin;
        consumers := consumers[c := GrabRead(pc.room, pc.begin, lim, [])];
      }
      StepKeepsInv(old(View()), Event.GrabLoadEnd(c), View());
    }

    method GrabLoadItem(c: Id)
      requires Valid() && Enabled(View(), Event.GrabLoadItem(c))
      modifies `consumers
      ensures Valid() && View() == Perform(old(View()), Event.GrabLoadItem(c))
    {
      var pc := consumers[c];
      consumers := consumers[c := pc.(buffer := pc.buffer + [buffer[(pc.begin + |pc.buffer|) % capacity]])];
      StepKeepsInv(old(View()), Event.GrabLoadItem(c), View());
    }

    /** The strong compare-exchange; a win hands over a run of the oldest items. */
    method GrabExchange(c: Id) returns (won: bool, items: seq<Item>)
      requires Valid() && Enabled(View(), Event.GrabExchange(c))
      modifies `consumers, `begin, `taken
      ensures Valid() && View() == Perform(old(View()), Event.GrabExchange(c))
      ensures won <==> old(consumers[c]).begin == old(begin)
      ensures won ==> old(Contents(View())) == items + Contents(View()) && |items| <= old(consumers[c]).room
      ensures !won ==> Contents(View()) == old(Contents(View()))
    {
      var pc := consumers[c];
      assert ConsumerOk(View(), pc);
      items := pc.buffer;
      won := pc.begin == begin;
      RefinesQueue(View(), Event.GrabExchange(c), Perform(View(), Event.GrabExchange(c)));
      if won {
        begin := begin + |items|;
        taken := taken + items;
        consumers := consumers[c := Idle];
      } else {
        consumers := consumers[c := GrabBegin(pc.room)];
      }
    }

    // ----- LowSize

    method LowSize(c: Id)
      requires Valid() && Enabled(View(), Event.CallLowSize(c))
      modifies `consumers
      ensures Valid() && View() == Perform(old(View()), Event.CallLowSize(c))
    {
      consumers := consumers[c := SizeEnd];
      StepKeepsInv(old(View()), Event.CallLowSize(c), View());
    }

    method SizeLoadEnd(c: Id)
      requires Valid() && Enabled(View(), Event.SizeLoadEnd(c))
      modifies `consumers
      ensures Valid() && View() == Perform(old(View()), Event.SizeLoadEnd(c))
    {
      consumers := consumers[c := SizeBegin(end)];
      StepKeepsInv(old(View()), Event.SizeLoadEnd(c), View());
    }

    method SizeLoadBegin(c: Id) returns (size: nat)
      requires Valid() && Enabled(View(), Event.SizeLoadBegin(c))
      modifies `consumers
      ensures Valid() && View() == Perform(old(View()), Event.SizeLoadBegin(c))
      ensures c in old(consumers) && old(consumers)[c].SizeBegin? && size == SizeSeen(old(View()), c)
      ensures size <= |Contents(View())| <= capacity
    {
      LowSizeIsLow(View(), c);
      size := if begin >= consumers[c].end then 0 else consumers[c].end - begin;
      consumers := consumers[c := Idle];
      StepKeepsInv(old(View()), Event.SizeLoadBegin(c), View());
    }
  }
}
