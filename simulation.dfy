/** The delivery simulator: a registry of running simulations, each with a
    step counter, and a timer tick that advances one of them by a step and
    emits an update to that order's room. The timer is not modelled: a tick is
    an explicit call. Positions are opaque, named by the step they were
    reached at; the interpolation between start and target is not modelled. */
module Simulation {

  /** Steps from start to destination. */
  const Steps: nat := 100

  /** `steps * 0.8`: past this step the update reads 'Arriving'. */
  const ArrivingAfter: nat := 80

  const ArrivingLabel: string := "Arriving"
  const OutForDeliveryLabel: string := "Out for Delivery"
  const DeliveredLabel: string := "Delivered"

  /** `io.to(room).emit('orderUpdated', { trackingId, currentLocation, status })`,
      where the location is the point reached at step `position`. */
  datatype SimEvent = SimEvent(room: string, trackingId: string, position: nat, status: string)

  function TickLabel(step: nat): (s: string)
    ensures s == ArrivingLabel <==> step > ArrivingAfter
    ensures s == ArrivingLabel || s == OutForDeliveryLabel
  {
    if step > ArrivingAfter then ArrivingLabel else OutForDeliveryLabel
  }

  /** The update for step `step`, sent to the order's own room. */
  function TickEvent(trackingId: string, step: nat): (e: SimEvent)
    ensures e.room == trackingId && e.trackingId == trackingId && e.position == step
    ensures e.status == ArrivingLabel <==> step > ArrivingAfter
    ensures e.status != DeliveredLabel
  {
    SimEvent(trackingId, trackingId, step, TickLabel(step))
  }

  /** What one tick emits when the counter stood at `before`: the update for
      the new step, and on reaching the last step a copy marked 'Delivered'. */
  function StepEvents(trackingId: string, before: nat): (evs: seq<SimEvent>)
    ensures |evs| == (if before + 1 >= Steps then 2 else 1)
    ensures evs[0] == TickEvent(trackingId, before + 1)
    ensures |evs| == 2 ==> evs[1] == SimEvent(trackingId, trackingId, before + 1, DeliveredLabel)
    ensures forall e :: e in evs ==> e.room == trackingId
  {
    var update := TickEvent(trackingId, before + 1);
    if before + 1 >= Steps then [update, update.(status := DeliveredLabel)] else [update]
  }

  /** The updates for the steps after `from` up to and including `to`. */
  function TicksBetween(trackingId: string, from: nat, to: nat): (evs: seq<SimEvent>)
    requires from <= to
    ensures |evs| == to - from
    ensures forall i :: 0 <= i < to - from ==> evs[i] == TickEvent(trackingId, from + i + 1)
  {
    seq(to - from, i requires 0 <= i < to - from => TickEvent(trackingId, from + i + 1))
  }

  /** Everything a simulation emits from counter `k` until it finishes: one
      update per remaining step, in step order, then one 'Delivered' update at
      the last point. */
  function RunFrom(trackingId: string, k: nat): (run: seq<SimEvent>)
    requires k < Steps
    ensures |run| == Steps - k + 1
    ensures forall i :: 0 <= i < Steps - k ==> run[i].position == k + i + 1 && run[i].status != DeliveredLabel
    ensures run[Steps - k] == SimEvent(trackingId, trackingId, Steps, DeliveredLabel)
    ensures forall e :: e in run ==> e.room == trackingId && e.trackingId == trackingId
  {
    TicksBetween(trackingId, k, Steps) + [SimEvent(trackingId, trackingId, Steps, DeliveredLabel)]
  }

  /** A run is what its first tick emits followed by the rest of the run: so
      ticking until the entry disappears emits exactly `RunFrom`. */
  lemma RunFromUnfold(trackingId: string, k: nat)
    requires k < Steps
    ensures k + 1 < Steps ==> RunFrom(trackingId, k) == StepEvents(trackingId, k) + RunFrom(trackingId, k + 1)
    ensures k + 1 >= Steps ==> RunFrom(trackingId, k) == StepEvents(trackingId, k)
  {
    if k + 1 < Steps {
      assert TicksBetween(trackingId, k, Steps) == [TickEvent(trackingId, k + 1)] + TicksBetween(trackingId, k + 1, Steps);
    }
  }

  /** A whole run: 100 updates, of which exactly the last 20 read 'Arriving',
      then one 'Delivered'; all of them go to the order's own room. */
  lemma FullRun(trackingId: string)
    ensures |RunFrom(trackingId, 0)| == Steps + 1
    ensures forall i :: 0 <= i < Steps ==>
      RunFrom(trackingId, 0)[i].position == i + 1 &&
      (RunFrom(trackingId, 0)[i].status == ArrivingLabel <==> i >= ArrivingAfter) &&
      RunFrom(trackingId, 0)[i].status != DeliveredLabel
    ensures RunFrom(trackingId, 0)[Steps].status == DeliveredLabel
    ensures forall i :: 0 <= i <= Steps ==>
      RunFrom(trackingId, 0)[i].room == trackingId && RunFrom(trackingId, 0)[i].trackingId == trackingId
  {
    var run := RunFrom(trackingId, 0);
    forall i | 0 <= i < Steps
      ensures run[i].position == i + 1
      ensures run[i].status == ArrivingLabel <==> i >= ArrivingAfter
      ensures run[i].status != DeliveredLabel
    {
      assert run[i] == TickEvent(trackingId, i + 1);
    }
  }

  /** The registry of running simulations and the emitted updates. */
  class Simulator {
    var active: map<string, nat>
    var outbox: seq<SimEvent>

    /** A registered counter has not yet reached the last step: the tick that
        reaches it also removes the entry. */
    ghost predicate Valid()
      reads this
    {
      forall id :: id in active ==> active[id] < Steps
    }

    constructor ()
      ensures Valid()
      ensures active == map[] && outbox == []
    {
      active := map[];
      outbox := [];
    }

    /** `startSimulation`: a no-op for a tracking id already running;
        otherwise registers it with counter 0. Nothing is emitted. */
    method Start(trackingId: string)
      requires Valid()
      modifies this
      ensures Valid()
      ensures outbox == old(outbox)
      ensures trackingId in old(active) ==> active == old(active)
      ensures trackingId !in old(active) ==> active == old(active)[trackingId := 0]
    {
      if trackingId in active {
        return;
      }
      active := active[trackingId := 0];
    }

    /** One firing of the interval of a running simulation: the counter goes
        up by one and one update is emitted; on reaching the last step the
        entry is removed and a 'Delivered' update follows. Other entries are
        untouched. */
    method Tick(trackingId: string)
      requires Valid()
      requires trackingId in active
      modifies this
      ensures Valid()
      ensures outbox == old(outbox) + StepEvents(trackingId, old(active)[trackingId])
      ensures old(active)[trackingId] + 1 >= Steps ==> active == old(active) - {trackingId}
      ensures old(active)[trackingId] + 1 < Steps ==>
        active == old(active)[trackingId := old(active)[trackingId] + 1]
    {
      var stepCount := active[trackingId] + 1;
      var update := TickEvent(trackingId, stepCount);
      outbox := outbox + [update];
      if stepCount >= Steps {
        active := active - {trackingId};
        outbox := outbox + [update.(status := DeliveredLabel)];
      } else {
        active := active[trackingId := stepCount];
      }
    }

    /** The interval firing until it clears itself. */
    method DriveToCompletion(trackingId: string)
      requires Valid()
      requires trackingId in active
      modifies this
      ensures Valid()
      ensures outbox == old(outbox) + RunFrom(trackingId, old(active)[trackingId])
      ensures active == old(active) - {trackingId}
    {
      ghost var k0 := active[trackingId];
      while trackingId in active
        invariant Valid()
        invariant active - {trackingId} == old(active) - {trackingId}
        invariant trackingId in active ==>
          k0 <= active[trackingId] && outbox == old(outbox) + TicksBetween(trackingId, k0, active[trackingId])
        invariant trackingId !in active ==> outbox == old(outbox) + RunFrom(trackingId, k0)
        decreases if trackingId in active then Steps - active[trackingId] else 0
      {
        ghost var k := active[trackingId];
        Tick(trackingId);
        assert TicksBetween(trackingId, k0, k + 1) == TicksBetween(trackingId, k0, k) + [TickEvent(trackingId, k + 1)];
        if k + 1 >= Steps {
          assert RunFrom(trackingId, k0) == TicksBetween(trackingId, k0, k + 1) + [SimEvent(trackingId, trackingId, Steps, DeliveredLabel)];
        }
      }
    }
  }

  /** Starting twice runs one simulation; a full run emits 101 updates and
      leaves the registry free for the same id, which can then start again. */
  method Scenario(trackingId: string, other: string)
    requires trackingId != other
  {
    var sim := new Simulator();
    sim.Start(other);
    sim.Start(trackingId);
    sim.Start(trackingId);
    assert sim.active == map[other := 0, trackingId := 0];
    sim.DriveToCompletion(trackingId);
    FullRun(trackingId);
    assert |sim.outbox| == Steps + 1 && sim.outbox[Steps].status == DeliveredLabel;
    assert sim.active == map[other := 0];
    sim.Start(trackingId);
    assert trackingId in sim.active && sim.active[trackingId] == 0;
  }
}
