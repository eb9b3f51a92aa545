/** The fiber mutex and condition variable as an object on top of a fiber system: one method per atomic access or call
    into a futex. */
module MonitorObjects {
  import F = Futexes
  import opened FiberSystems
  import opened Lists
  import opened Monitors

  class Monitor {
    const system: FiberSystem
    var at: map<Id, At>
    ghost var holder: Option<Id>
    ghost var swept: int

    ghost function View(): State
      reads this, system
    {
      State(system.View(), at, holder, swept)
    }

    ghost predicate Valid()
      reads this, system
    {
      Inv(View())
    }

    constructor ()
      ensures Valid() && Init(View()) && fresh(system)
    {
      system := new FiberSystem(map[ACCESS := 0, VAL := 0]);
      at := map[];
      holder, swept := None, 0;
      new;
      InitHolds(View());
    }

    /** A step of a fiber's own code, of the executor or inside a futex; operations that it completes return. */
    method Inner(e: F.Event)
      requires Valid() && Enabled(View(), Event.Inner(e))
      modifies this, system
      ensures Valid() && View() == Perform(old(View()), Event.Inner(e))
      ensures e.Return? ==> GoesForMutex(old(View()), View(), e.f)
    {
      ghost var sweeps := Sweeps(View(), e);
      if e.Return? || e.WakeUnlock? {
        at := at[e.f := Returned(at[e.f])];
      } else if e.Start? {
        at := at[e.f := Idle];
      }
      swept := if sweeps then system.futexes[VAL].cell else swept;
      system.Do(e);
      StepKeepsInv(old(View()), Event.Inner(e), View());
      if e.Return? {
        ReturnsGoForMutex(old(View()), e);
      }
    }

    method Lock(f: Id)
      requires Valid() && Enabled(View(), Event.Lock(f))
      modifies this
      ensures Valid() && View() == Perform(old(View()), Event.Lock(f))
    {
      at := at[f := Exchanging(false)];
      StepKeepsInv(old(View()), Event.Lock(f), View());
    }

    /** The condition of the loop in Lock; `locked` says it is left. */
    method Exchange(f: Id) returns (locked: bool)
      requires Valid() && Enabled(View(), Event.Exchange(f))
      modifies this, system
      ensures Valid() && View() == Perform(old(View()), Event.Exchange(f))
      ensures locked ==> forall g :: g in at && g != f ==> !Inside(at[g])
    {
      var access := system.futexes[ACCESS].cell;
      system.Write(f, ACCESS, 1);
      locked := access != 1;
      if locked {
        at := at[f := Holding];
        holder := Some(f);
      } else {
        at := at[f := Failed];
      }
      StepKeepsInv(old(View()), Event.Exchange(f), View());
    }

    method CallPark(f: Id)
      requires Valid() && Enabled(View(), Event.CallPark(f))
      modifies this, system
      ensures Valid() && View() == Perform(old(View()), Event.CallPark(f))
    {
      system.ParkIfEqual(f, ACCESS, 1);
      at := at[f := InPark];
      StepKeepsInv(old(View()), Event.CallPark(f), View());
    }

    method LoadVal(f: Id)
      requires Valid() && Enabled(View(), Event.LoadVal(f))
      modifies this
      ensures Valid() && View() == Perform(old(View()), Event.LoadVal(f))
    {
      at := at[f := Noticed(system.futexes[VAL].cell)];
      StepKeepsInv(old(View()), Event.LoadVal(f), View());
    }

    method Store(f: Id)
      requires Valid() && Enabled(View(), Event.Store(f))
      modifies this, system
      ensures Valid() && View() == Perform(old(View()), Event.Store(f))
    {
      system.Write(f, ACCESS, 0);
      at := at[f := Stored(if at[f].Noticed? then ToBell(at[f].noticed) else ToCaller)];
      holder := None;
      StepKeepsInv(old(View()), Event.Store(f), View());
    }

    method CallWake(f: Id)
      requires Valid() && Enabled(View(), Event.CallWake(f))
      modifies this, system
      ensures Valid() && View() == Perform(old(View()), Event.CallWake(f))
    {
      system.Wake(f, ACCESS, false);
      at := at[f := InWake(at[f].next)];
      StepKeepsInv(old(View()), Event.CallWake(f), View());
    }

    method CallBell(f: Id)
      requires Valid() && Enabled(View(), Event.CallBell(f))
      modifies this, system
      ensures Valid() && View() == Perform(old(View()), Event.CallBell(f))
    {
      system.ParkIfEqual(f, VAL, at[f].noticed);
      at := at[f := InBell(at[f].noticed)];
      StepKeepsInv(old(View()), Event.CallBell(f), View());
    }

    method FetchAdd(f: Id, all: bool)
      requires Valid() && Enabled(View(), Event.FetchAdd(f, all))
      modifies this, system
      ensures Valid() && View() == Perform(old(View()), Event.FetchAdd(f, all))
    {
      var value := system.futexes[VAL].cell + 1;
      system.Write(f, VAL, value);
      at := at[f := Added(value, all, at[f].Holding?)];
      StepKeepsInv(old(View()), Event.FetchAdd(f, all), View());
    }

    method CallRing(f: Id)
      requires Valid() && Enabled(View(), Event.CallRing(f))
      modifies this, system
      ensures Valid() && View() == Perform(old(View()), Event.CallRing(f))
    {
      var ring := at[f];
      system.Wake(f, VAL, ring.all);
      at := at[f := InRing(ring.value, ring.all, ring.holding)];
      StepKeepsInv(old(View()), Event.CallRing(f), View());
    }
  }
}
