/**
 * The charging logic of a dynamic (in-road) charger. Vehicles announce
 * themselves with AddVehicle and wait in an arrival queue; each charging
 * pass first charges every plugged vehicle and only then plugs the queued
 * ones. Removing a vehicle unplugs it. The events manager and the listeners'
 * callbacks are recorded in an append-only log.
 */
module DynamicCharging {
  import opened Wrappers

  /**
   * A vehicle: its id, battery capacity and charging-power rule are fixed;
   * the charge changes. The rule stands for the vehicle's ChargingPower at
   * this charger, asked afresh at every pass; it may depend on the charge
   * the battery holds at that moment.
   */
  class ElectricVehicle {
    const id: string
    const capacity: real
    const power: real -> real
    var charge: real

    constructor (id: string, capacity: real, power: real -> real, charge: real)
      ensures this.id == id && this.capacity == capacity && this.power == power && this.charge == charge
    {
      this.id := id;
      this.capacity := capacity;
      this.power := power;
      this.charge := charge;
    }
  }

  /** A charging listener, known only by its identity; the anonymous one is given to addVehicle without a listener. */
  datatype Listener = AnonymousListener | Listener(token: nat)

  datatype LogEntry =
    | EnergyCharged(vehicle: string, energy: real, charge: real)
    | ChargingStarted(vehicle: string, charge: real)
    | ChargingEnded(vehicle: string, charge: real)
    | NotifiedStart(listener: Listener, vehicle: string)
    | NotifiedEnd(listener: Listener, vehicle: string)

  /** The battery after charging `energy` more: never above capacity, never above old + energy, and equal to one of them. */
  function ChargeAfter(before: real, energy: real, capacity: real): (r: real)
    ensures r <= capacity && r <= before + energy
    ensures r == capacity || r == before + energy
  {
    if before + energy <= capacity then before + energy else capacity
  }

  function EnergyEntry(ev: ElectricVehicle, period: real): (e: LogEntry)
    reads ev
    ensures e.EnergyCharged? && e.vehicle == ev.id && e.charge <= ev.capacity
    ensures e.energy == e.charge - ev.charge
  {
    var c := Charged(ev, ev.charge, period);
    EnergyCharged(ev.id, c - ev.charge, c)
  }

  /** The battery of ev after a pass of `period` seconds that started at charge `before`. */
  function Charged(ev: ElectricVehicle, before: real, period: real): real {
    ChargeAfter(before, PassEnergy(ev.power(before), period), ev.capacity)
  }

  /** The energy a pass of `period` seconds offers at charging power `power`. */
  function PassEnergy(power: real, period: real): real {
    power * period
  }

  /** The energy events of one charging pass over the given vehicles, in order. */
  function Energies(vs: seq<ElectricVehicle>, period: real): (log: seq<LogEntry>)
    reads vs
    ensures |log| == |vs|
  {
    if vs == [] then [] else Energies(vs[..|vs| - 1], period) + [EnergyEntry(vs[|vs| - 1], period)]
  }

  /** The energy events of one charging pass over the plugged vehicles, in plugging order. */
  function EnergyLog(ids: seq<string>, plugged: map<string, ElectricVehicle>, period: real): (log: seq<LogEntry>)
    requires forall i :: 0 <= i < |ids| ==> ids[i] in plugged
    reads plugged.Values
    ensures |log| == |ids|
  {
    Energies(Lookup(ids, plugged), period)
  }

  function Ids(queue: seq<ElectricVehicle>): (ids: seq<string>)
    ensures |ids| == |queue| && forall i :: 0 <= i < |queue| ==> ids[i] == queue[i].id
  {
    if queue == [] then [] else [queue[0].id] + Ids(queue[1..])
  }

  predicate Distinct(ids: seq<string>) {
    forall i, j :: 0 <= i < j < |ids| ==> ids[i] != ids[j]
  }

  datatype PlugOutcome = PlugOutcome(
    order: seq<string>, plugged: map<string, ElectricVehicle>, arriving: seq<ElectricVehicle>,
    log: seq<LogEntry>, result: Result<()>)

  /**
   * Plugging the queue in order. Each vehicle is put into the plugged map
   * (an existing key keeps its position and gets the new value); a key that
   * was already there raises IllegalArgumentException after the put, and a
   * vehicle without a listener raises NullPointerException after its start
   * event. A failing vehicle stays at the head of the queue.
   */
  function Plug(order: seq<string>, plugged: map<string, ElectricVehicle>, queue: seq<ElectricVehicle>,
                listeners: map<string, Listener>, log: seq<LogEntry>): PlugOutcome
    reads queue
    decreases |queue|
  {
    if queue == [] then PlugOutcome(order, plugged, [], log, Ok(()))
    else
      var ev := queue[0];
      var order' := if ev.id in plugged then order else order + [ev.id];
      if ev.id in plugged then PlugOutcome(order', plugged[ev.id := ev], queue, log, Err(IllegalArgument))
      else if ev.id !in listeners then
        PlugOutcome(order', plugged[ev.id := ev], queue, log + [ChargingStarted(ev.id, ev.charge)], Err(NullPointer))
      else
        Plug(order', plugged[ev.id := ev], queue[1..], listeners,
             log + [ChargingStarted(ev.id, ev.charge), NotifiedStart(listeners[ev.id], ev.id)])
  }

  /** The plugged ids in order, each mapped to a vehicle carrying that id, and no id twice. */
  predicate ValidPlugged(order: seq<string>, plugged: map<string, ElectricVehicle>) {
    && Distinct(order)
    && (forall i :: 0 <= i < |order| ==> order[i] in plugged)
    && (forall k :: k in plugged ==> k in order && plugged[k].id == k)
  }

  /** The condition under which plugging a whole queue succeeds. */
  predicate PlugsCleanly(plugged: map<string, ElectricVehicle>, queue: seq<ElectricVehicle>, listeners: map<string, Listener>) {
    Distinct(Ids(queue)) && forall i :: 0 <= i < |queue| ==> queue[i].id !in plugged && queue[i].id in listeners
  }

  lemma PlugsCleanlyTail(plugged: map<string, ElectricVehicle>, queue: seq<ElectricVehicle>, listeners: map<string, Listener>)
    requires queue != []
    ensures PlugsCleanly(plugged, queue, listeners) <==>
      queue[0].id !in plugged && queue[0].id in listeners && PlugsCleanly(plugged[queue[0].id := queue[0]], queue[1..], listeners)
  {
    var ids, rest := Ids(queue), Ids(queue[1..]);
    assert forall i :: 0 <= i < |rest| ==> rest[i] == ids[i + 1];
    if queue[0].id !in plugged && queue[0].id in listeners && PlugsCleanly(plugged[queue[0].id := queue[0]], queue[1..], listeners) {
      forall i, j | 0 <= i < j < |ids| ensures ids[i] != ids[j] {
        if i > 0 { assert rest[i - 1] != rest[j - 1]; }
        else { assert queue[1..][j - 1].id !in plugged[queue[0].id := queue[0]]; }
      }
      forall i | 0 <= i < |queue| ensures queue[i].id !in plugged && queue[i].id in listeners {
        if i > 0 { assert queue[i] == queue[1..][i - 1]; }
      }
    }
    if PlugsCleanly(plugged, queue, listeners) {
      forall i | 0 <= i < |queue[1..]| ensures queue[1..][i].id !in plugged[queue[0].id := queue[0]] {
        assert ids[0] != ids[i + 1];
      }
    }
  }

  /** Plugging succeeds exactly when the queued ids are distinct, none is plugged yet and each has a listener. */
  lemma {:induction false} PlugOkIff(order: seq<string>, plugged: map<string, ElectricVehicle>, queue: seq<ElectricVehicle>,
                                     listeners: map<string, Listener>, log: seq<LogEntry>)
    ensures Plug(order, plugged, queue, listeners, log).result.Ok? <==> PlugsCleanly(plugged, queue, listeners)
    decreases |queue|
  {
    if queue != [] {
      var ev := queue[0];
      PlugsCleanlyTail(plugged, queue, listeners);
      if ev.id !in plugged && ev.id in listeners {
        PlugOkIff(order + [ev.id], plugged[ev.id := ev], queue[1..], listeners,
                  log + [ChargingStarted(ev.id, ev.charge), NotifiedStart(listeners[ev.id], ev.id)]);
      }
    }
  }

  /** After a successful plugging the queue is empty and the queued ids follow the old order. */
  lemma {:induction false} PlugOkOrder(order: seq<string>, plugged: map<string, ElectricVehicle>, queue: seq<ElectricVehicle>,
                                       listeners: map<string, Listener>, log: seq<LogEntry>)
    requires Plug(order, plugged, queue, listeners, log).result.Ok?
    ensures var o := Plug(order, plugged, queue, listeners, log);
      o.arriving == [] && o.order == order + Ids(queue)
    decreases |queue|
  {
    if queue != [] {
      var ev := queue[0];
      var log' := log + [ChargingStarted(ev.id, ev.charge), NotifiedStart(listeners[ev.id], ev.id)];
      PlugOkOrder(order + [ev.id], plugged[ev.id := ev], queue[1..], listeners, log');
      assert Ids(queue) == [ev.id] + Ids(queue[1..]);
      assert order + [ev.id] + Ids(queue[1..]) == order + Ids(queue);
    }
  }

  /**
   * After a successful plugging every queued vehicle is plugged under its
   * id, the earlier entries are untouched and nothing else is plugged.
   */
  lemma {:induction false} PlugOkMap(order: seq<string>, plugged: map<string, ElectricVehicle>, queue: seq<ElectricVehicle>,
                                     listeners: map<string, Listener>, log: seq<LogEntry>)
    requires Plug(order, plugged, queue, listeners, log).result.Ok?
    ensures var o := Plug(order, plugged, queue, listeners, log);
      && (forall k :: k in o.plugged <==> k in plugged || k in Ids(queue))
      && (forall i :: 0 <= i < |queue| ==> queue[i].id in o.plugged && o.plugged[queue[i].id] == queue[i])
      && (forall k :: k in plugged ==> o.plugged[k] == plugged[k])
    decreases |queue|
  {
    if queue != [] {
      var ev := queue[0];
      var log' := log + [ChargingStarted(ev.id, ev.charge), NotifiedStart(listeners[ev.id], ev.id)];
      PlugOkMap(order + [ev.id], plugged[ev.id := ev], queue[1..], listeners, log');
      var o := Plug(order + [ev.id], plugged[ev.id := ev], queue[1..], listeners, log');
      assert Ids(queue) == [ev.id] + Ids(queue[1..]);
      forall i | 0 <= i < |queue| ensures queue[i].id in o.plugged && o.plugged[queue[i].id] == queue[i] {
        if i > 0 { assert queue[i] == queue[1..][i - 1]; }
        else { PlugOkIff(order + [ev.id], plugged[ev.id := ev], queue[1..], listeners, log'); }
      }
    }
  }

  /** Plugging keeps the plugged map consistent with its order, whichever way it ends. */
  lemma {:induction false} PlugKeepsValid(order: seq<string>, plugged: map<string, ElectricVehicle>, queue: seq<ElectricVehicle>,
                                          listeners: map<string, Listener>, log: seq<LogEntry>)
    requires ValidPlugged(order, plugged)
    ensures var o := Plug(order, plugged, queue, listeners, log); ValidPlugged(o.order, o.plugged)
    decreases |queue|
  {
    if queue != [] {
      var ev := queue[0];
      if ev.id !in plugged {
        assert ValidPlugged(order + [ev.id], plugged[ev.id := ev]) by {
          forall i, j | 0 <= i < j < |order + [ev.id]| ensures (order + [ev.id])[i] != (order + [ev.id])[j] {
            if j == |order| { assert order[i] in plugged; }
          }
        }
        if ev.id in listeners {
          PlugKeepsValid(order + [ev.id], plugged[ev.id := ev], queue[1..], listeners,
                         log + [ChargingStarted(ev.id, ev.charge), NotifiedStart(listeners[ev.id], ev.id)]);
        }
      }
    }
  }

  function Lookup(ids: seq<string>, m: map<string, ElectricVehicle>): (vs: seq<ElectricVehicle>)
    requires forall i :: 0 <= i < |ids| ==> ids[i] in m
    ensures |vs| == |ids| && forall i :: 0 <= i < |ids| ==> vs[i] == m[ids[i]]
  {
    if ids == [] then [] else [m[ids[0]]] + Lookup(ids[1..], m)
  }

  /** The plugged vehicles, listed in plugging order, are pairwise different objects. */
  lemma LookupDistinct(order: seq<string>, plugged: map<string, ElectricVehicle>)
    requires ValidPlugged(order, plugged)
    ensures var vs := Lookup(order, plugged); forall a, b :: 0 <= a < b < |vs| ==> vs[a] != vs[b]
  {
    var vs := Lookup(order, plugged);
    forall a, b | 0 <= a < b < |vs| ensures vs[a] != vs[b] {
      assert vs[a].id == order[a] && vs[b].id == order[b];
    }
  }

  /** Taking position i out of a list of distinct ids removes exactly that id and keeps the rest distinct. */
  lemma RemoveAt(order: seq<string>, i: nat)
    requires Distinct(order) && i < |order|
    ensures Distinct(order[..i] + order[i + 1..])
    ensures forall k :: k in order[..i] + order[i + 1..] <==> k in order && k != order[i]
  {
    var rest := order[..i] + order[i + 1..];
    assert forall j :: 0 <= j < |rest| ==> rest[j] == order[if j < i then j else j + 1];
    forall k | k in order && k != order[i] ensures k in rest {
      var j :| 0 <= j < |order| && order[j] == k;
      assert rest[if j < i then j else j - 1] == k;
    }
  }

  /** Taking an id out of the plugged order and map keeps them consistent. */
  lemma RemoveKeepsValid(order: seq<string>, plugged: map<string, ElectricVehicle>, i: nat)
    requires ValidPlugged(order, plugged) && i < |order|
    ensures ValidPlugged(order[..i] + order[i + 1..], plugged - {order[i]})
    ensures forall k :: k in order[..i] + order[i + 1..] <==> k in order && k != order[i]
  {
    RemoveAt(order, i);
  }

  /** A vehicle whose id is not plugged is not one of the plugged vehicles. */
  lemma NotPluggedVehicle(plugged: map<string, ElectricVehicle>, ev: ElectricVehicle)
    requires forall k :: k in plugged ==> plugged[k].id == k
    requires ev.id !in plugged
    ensures ev !in plugged.Values
  {
  }

  /** Whatever happens, the queue left over is a suffix of the queue given. */
  lemma {:induction false} PlugSuffix(order: seq<string>, plugged: map<string, ElectricVehicle>, queue: seq<ElectricVehicle>,
                                      listeners: map<string, Listener>, log: seq<LogEntry>)
    ensures var o := Plug(order, plugged, queue, listeners, log);
      |o.arriving| <= |queue| && o.arriving == queue[|queue| - |o.arriving|..]
    decreases |queue|
  {
    if queue != [] {
      var ev := queue[0];
      if ev.id !in plugged && ev.id in listeners {
        var log' := log + [ChargingStarted(ev.id, ev.charge), NotifiedStart(listeners[ev.id], ev.id)];
        PlugSuffix(order + [ev.id], plugged[ev.id := ev], queue[1..], listeners, log');
        var o := Plug(order + [ev.id], plugged[ev.id := ev], queue[1..], listeners, log');
        assert queue[1..][|queue| - 1 - |o.arriving|..] == queue[|queue| - |o.arriving|..];
      }
    }
  }

  /**
   * When plugging stops with IllegalArgumentException, the vehicle at the
   * head of the remaining queue has an id that was already plugged (before
   * or by an earlier vehicle of the same queue) and has replaced the entry.
   */
  lemma {:induction false} PlugClash(order: seq<string>, plugged: map<string, ElectricVehicle>, queue: seq<ElectricVehicle>,
                                     listeners: map<string, Listener>, log: seq<LogEntry>)
    ensures var o := Plug(order, plugged, queue, listeners, log);
      o.result == Err(IllegalArgument) ==>
        && o.arriving != [] && o.arriving[0].id in o.plugged && o.plugged[o.arriving[0].id] == o.arriving[0]
        && (o.arriving[0].id in plugged || exists i :: 0 <= i < |queue| - |o.arriving| && queue[i].id == o.arriving[0].id)
    decreases |queue|
  {
    if queue != [] {
      var ev := queue[0];
      if ev.id !in plugged && ev.id in listeners {
        var log' := log + [ChargingStarted(ev.id, ev.charge), NotifiedStart(listeners[ev.id], ev.id)];
        PlugClash(order + [ev.id], plugged[ev.id := ev], queue[1..], listeners, log');
        var o := Plug(order + [ev.id], plugged[ev.id := ev], queue[1..], listeners, log');
        if o.result == Err(IllegalArgument) && o.arriving[0].id !in plugged {
          PlugSuffix(order + [ev.id], plugged[ev.id := ev], queue[1..], listeners, log');
          if o.arriving[0].id == ev.id {
            assert queue[0].id == o.arriving[0].id;
          } else {
            var i :| 0 <= i < |queue[1..]| - |o.arriving| && queue[1..][i].id == o.arriving[0].id;
            assert queue[i + 1].id == o.arriving[0].id;
          }
        }
      }
    }
  }

  class DynamicChargingLogic {
    /** Ids of the plugged vehicles in insertion order, and the map from id to vehicle. */
    var order: seq<string>
    var plugged: map<string, ElectricVehicle>
    var arriving: seq<ElectricVehicle>
    var listeners: map<string, Listener>
    var log: seq<LogEntry>

    ghost predicate Valid()
      reads this
    {
      ValidPlugged(order, plugged)
    }

    constructor ()
      ensures Valid() && order == [] && plugged == map[] && arriving == [] && listeners == map[] && log == []
    {
      order, plugged, arriving, listeners, log := [], map[], [], map[], [];
    }

    /** getPluggedVehicles: the plugged vehicles, in plugging order, and no others. */
    function PluggedVehicles(): (vs: seq<ElectricVehicle>)
      requires Valid()
      reads this
      ensures |vs| == |order|
      ensures forall i :: 0 <= i < |vs| ==> vs[i] in plugged.Values && vs[i].id == order[i]
      ensures forall v :: v in plugged.Values ==> v in vs
    {
      var vs := Lookup(order, plugged);
      assert forall v :: v in plugged.Values ==> v in vs by {
        forall v | v in plugged.Values ensures v in vs {
          var k :| k in plugged && plugged[k] == v;
          var i :| 0 <= i < |order| && order[i] == k;
          assert vs[i] == v;
        }
      }
      vs
    }

    /** getQueuedVehicles: the arrival queue is never exposed. */
    function QueuedVehicles(): (vs: seq<ElectricVehicle>)
      ensures |vs| == 0
    {
      []
    }

    /** addVehicle: enqueue the vehicle and register its listener, replacing any earlier one. */
    method AddVehicle(ev: ElectricVehicle, listener: Listener)
      modifies this
      ensures arriving == old(arriving) + [ev] && listeners == old(listeners)[ev.id := listener]
      ensures order == old(order) && plugged == old(plugged) && log == old(log)
    {
      arriving := arriving + [ev];
      listeners := listeners[ev.id := listener];
    }

    /** The one-argument addVehicle, which registers an anonymous listener. */
    method AddVehicleWithoutListener(ev: ElectricVehicle)
      modifies this
      ensures arriving == old(arriving) + [ev] && listeners == old(listeners)[ev.id := AnonymousListener]
      ensures order == old(order) && plugged == old(plugged) && log == old(log)
    {
      AddVehicle(ev, AnonymousListener);
    }

    /**
     * removeVehicle: a plugged vehicle leaves the plugged map and the
     * listener map, with an end event carrying the charge of the vehicle
     * passed in; removing its missing listener raises NullPointerException.
     * Anything else changes nothing, and the arrival queue is never touched.
     */
    method RemoveVehicle(ev: ElectricVehicle) returns (r: Result<()>)
      requires Valid()
      modifies this
      ensures Valid() && arriving == old(arriving)
      ensures ev.id !in old(plugged) ==>
        && r.Ok? && order == old(order) && plugged == old(plugged)
        && listeners == old(listeners) && log == old(log)
      ensures ev.id in old(plugged) ==>
        && plugged == old(plugged) - {ev.id}
        && (forall k :: k in order <==> k in old(order) && k != ev.id)
        && listeners == old(listeners) - {ev.id}
        && (r.Ok? <==> ev.id in old(listeners))
        && log == old(log) + [ChargingEnded(ev.id, ev.charge)]
           + (if ev.id in old(listeners) then [NotifiedEnd(old(listeners)[ev.id], ev.id)] else [])
    {
      r := Ok(());
      if ev.id in plugged {
        var i :| 0 <= i < |order| && order[i] == ev.id;
        RemoveKeepsValid(order, plugged, i);
        order := order[..i] + order[i + 1..];
        plugged := plugged - {ev.id};
        if ev.id in listeners {
          log := log + [ChargingEnded(ev.id, ev.charge), NotifiedEnd(listeners[ev.id], ev.id)];
        } else {
          log := log + [ChargingEnded(ev.id, ev.charge)];
          r := Err(NullPointer);
        }
        listeners := listeners - {ev.id};
      }
    }

    /** The charging pass over the plugged vehicles, in plugging order. */
    method ChargePlugged(period: real)
      requires Valid()
      modifies this`log, plugged.Values
      ensures Valid() && order == old(order) && plugged == old(plugged)
      ensures log == old(log) + old(EnergyLog(order, plugged, period))
      ensures forall i :: 0 <= i < |order| ==>
        plugged[order[i]].charge == Charged(plugged[order[i]], old(plugged[order[i]].charge), period)
    {
      var vs := Lookup(order, plugged);
      LookupDistinct(order, plugged);
      var entries := ChargeAll(vs, period);
      log := log + entries;
    }

    /** The loop of the pass: each vehicle in turn is charged and reports its energy event. */
    static method ChargeAll(vs: seq<ElectricVehicle>, period: real) returns (entries: seq<LogEntry>)
      requires forall a, b :: 0 <= a < b < |vs| ==> vs[a] != vs[b]
      modifies vs
      ensures entries == old(Energies(vs, period))
      ensures forall j :: 0 <= j < |vs| ==> vs[j].charge == Charged(vs[j], old(vs[j].charge), period)
    {
      entries := [];
      for i := 0 to |vs|
        invariant entries == old(Energies(vs[..i], period))
        invariant forall j :: 0 <= j < |vs| ==>
          vs[j].charge == if j < i then Charged(vs[j], old(vs[j].charge), period) else old(vs[j].charge)
      {
        assert vs[..i + 1][..i] == vs[..i];
        var entry := ChargeOne(vs[i], period);
        entries := entries + [entry];
      }
      assert vs[..|vs|] == vs;
    }

    /** One vehicle's share of the charging pass: charge it and report the energy event. */
    static method ChargeOne(ev: ElectricVehicle, period: real) returns (entry: LogEntry)
      modifies ev
      ensures ev.charge == Charged(ev, old(ev.charge), period)
      ensures entry == EnergyCharged(ev.id, ev.charge - old(ev.charge), ev.charge)
    {
      var c := Charged(ev, ev.charge, period);
      entry := EnergyCharged(ev.id, c - ev.charge, c);
      ev.charge := c;
    }

    /** The plugging half of a pass: the queue is plugged in order until it is empty or a vehicle fails. */
    method PlugArriving() returns (r: Result<()>)
      requires Valid()
      modifies this
      ensures listeners == old(listeners)
      ensures var o := old(Plug(order, plugged, arriving, listeners, log));
        order == o.order && plugged == o.plugged && arriving == o.arriving && log == o.log && r == o.result
    {
      while arriving != []
        invariant Plug(order, plugged, arriving, listeners, log) == old(Plug(order, plugged, arriving, listeners, log))
        invariant listeners == old(listeners)
        decreases |arriving|
      {
        var ev := arriving[0];
        if ev.id in plugged {
          plugged := plugged[ev.id := ev];
          return Err(IllegalArgument);
        }
        order := order + [ev.id];
        plugged := plugged[ev.id := ev];
        if ev.id !in listeners {
          log := log + [ChargingStarted(ev.id, ev.charge)];
          return Err(NullPointer);
        }
        log := log + [ChargingStarted(ev.id, ev.charge), NotifiedStart(listeners[ev.id], ev.id)];
        arriving := arriving[1..];
      }
      r := Ok(());
    }

    /**
     * chargeVehicles: charge every plugged vehicle, then plug the arrival
     * queue. Queued vehicles are charged only from the next pass on.
     */
    method ChargeVehicles(period: real) returns (r: Result<()>)
      requires Valid()
      modifies this, plugged.Values
      ensures Valid() && listeners == old(listeners)
      ensures forall i :: 0 <= i < |old(order)| ==>
        var ev := old(plugged)[old(order)[i]]; ev.charge == Charged(ev, old(ev.charge), period)
      ensures var o := Plug(old(order), old(plugged), old(arriving), listeners, old(log) + old(EnergyLog(order, plugged, period)));
        order == o.order && plugged == o.plugged && arriving == o.arriving && log == o.log && r == o.result
      ensures r.Ok? <==> PlugsCleanly(old(plugged), old(arriving), listeners)
      ensures r.Ok? ==> arriving == [] && forall i :: 0 <= i < |old(arriving)| ==> old(arriving)[i].charge == old(arriving[i].charge)
    {
      ghost var order0, plugged0, arriving0 := order, plugged, arriving;
      ChargePlugged(period);
      ghost var afterCharge := log;
      assert order == order0 && plugged == plugged0 && arriving == arriving0;
      r := PlugArriving();
      ghost var o := Plug(order0, plugged0, arriving0, listeners, afterCharge);
      assert order == o.order && plugged == o.plugged && arriving == o.arriving && log == o.log && r == o.result;
      PlugKeepsValid(order0, plugged0, arriving0, listeners, afterCharge);
      PlugOkIff(order0, plugged0, arriving0, listeners, afterCharge);
      if r.Ok? {
        PlugOkOrder(order0, plugged0, arriving0, listeners, afterCharge);
        forall i | 0 <= i < |arriving0| ensures arriving0[i] !in plugged0.Values {
          NotPluggedVehicle(plugged0, arriving0[i]);
        }
      }
    }
  }
}
