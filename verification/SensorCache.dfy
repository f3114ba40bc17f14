/** The device's table of sensor descriptions: filled on demand from the driver, never emptied while
    the device is open. */
module SensorCache {
  import opened Common

  datatype SensorType = Infrared | Color | Depth

  datatype SensorInfo = SensorInfo(sensor: SensorType, modes: seq<int>)

  // ONI_MAX_SENSORS.
  const MAX_SENSORS: nat := 10

  // The driver's descriptions; each describes the sensor it was asked for.
  type Driver = d: map<SensorType, SensorInfo> | forall t :: t in d ==> d[t].sensor == t witness map[]

  ghost predicate Distinct(infos: seq<SensorInfo>)
  {
    forall i, j :: 0 <= i < j < |infos| ==> infos[i].sensor != infos[j].sensor
  }

  /** There are three kinds of sensor, so a table of distinct kinds never has more than three entries
      and the ten-slot table never fills. */
  lemma NeverFills(infos: seq<SensorInfo>)
    requires Distinct(infos)
    ensures |infos| <= 3 < MAX_SENSORS
  {
    CountDistinct(infos);
    forall t | t in Kinds(infos) ensures t in {Infrared, Color, Depth} {
      match t { case Infrared => case Color => case Depth => }
    }
    SubsetSize(Kinds(infos), {Infrared, Color, Depth});
  }

  function Kinds(infos: seq<SensorInfo>): set<SensorType>
  {
    if infos == [] then {} else Kinds(infos[..|infos| - 1]) + {infos[|infos| - 1].sensor}
  }

  lemma {:induction false} KindsAre(infos: seq<SensorInfo>, t: SensorType)
    ensures t in Kinds(infos) ==> exists i :: 0 <= i < |infos| && infos[i].sensor == t
  {
    if infos != [] && t in Kinds(infos[..|infos| - 1]) { KindsAre(infos[..|infos| - 1], t); }
  }

  lemma {:induction false} CountDistinct(infos: seq<SensorInfo>)
    requires Distinct(infos)
    ensures |Kinds(infos)| == |infos|
  {
    if infos != [] {
      CountDistinct(infos[..|infos| - 1]);
      KindsAre(infos[..|infos| - 1], infos[|infos| - 1].sensor);
    }
  }

  lemma {:induction false} SubsetSize<T>(a: set<T>, b: set<T>)
    requires a <= b
    ensures |a| <= |b|
  {
    if x :| x in a { SubsetSize(a - {x}, b - {x}); }
  }

  // The table holds only what the driver says, each kind of sensor once.
  ghost predicate Agrees(driver: Driver, infos: seq<SensorInfo>)
  {
    Distinct(infos) && forall i :: 0 <= i < |infos| ==> infos[i].sensor in driver && infos[i] == driver[infos[i].sensor]
  }

  // The entry for a kind of sensor, or the number of entries.
  function IndexOf(infos: seq<SensorInfo>, t: SensorType): (i: nat)
    ensures i <= |infos|
  {
    if infos == [] then 0 else if infos[0].sensor == t then 0 else 1 + IndexOf(infos[1..], t)
  }

  lemma {:induction false} IndexOfFinds(infos: seq<SensorInfo>, t: SensorType)
    ensures var i := IndexOf(infos, t);
            && (i < |infos| ==> infos[i].sensor == t)
            && (forall j :: 0 <= j < i ==> infos[j].sensor != t)
  {
    if infos != [] && infos[0].sensor != t {
      IndexOfFinds(infos[1..], t);
    }
  }

  // A lookup: the table after it, and the slot found.
  function Lookup(driver: Driver, infos: seq<SensorInfo>, t: SensorType): (seq<SensorInfo>, Option<nat>)
  {
    var i := IndexOf(infos, t);
    if i < |infos| then (infos, Some(i))
    else if i == MAX_SENSORS || t !in driver then (infos, None)
    else (infos + [driver[t]], Some(i))
  }

  /** Every answer is the driver's own, whatever was asked before: a sensor is found exactly when the
      driver has it, the slot returned holds the driver's description, and entries handed out earlier
      stay where they are. */
  lemma LookupAgrees(driver: Driver, infos: seq<SensorInfo>, t: SensorType)
    requires Agrees(driver, infos)
    ensures var r := Lookup(driver, infos, t);
            && Agrees(driver, r.0) && infos <= r.0
            && (r.1.Some? <==> t in driver)
            && (r.1.Some? ==> r.1.value < |r.0| && r.0[r.1.value] == driver[t])
  {
    NeverFills(infos);
    IndexOfFinds(infos, t);
  }

  function After(driver: Driver, queries: seq<SensorType>): seq<SensorInfo>
  {
    if queries == [] then [] else Lookup(driver, After(driver, queries[..|queries| - 1]), queries[|queries| - 1]).0
  }

  ghost predicate Listed(infos: seq<SensorInfo>, t: SensorType)
  {
    exists i :: 0 <= i < |infos| && infos[i].sensor == t
  }

  lemma LookupLists(driver: Driver, infos: seq<SensorInfo>, q: SensorType, t: SensorType)
    requires Agrees(driver, infos)
    ensures Listed(Lookup(driver, infos, q).0, t) <==> Listed(infos, t) || (t == q && t in driver)
  {
    NeverFills(infos);
    IndexOfFinds(infos, q);
    var after := Lookup(driver, infos, q).0;
    if Listed(infos, t) {
      var i :| 0 <= i < |infos| && infos[i].sensor == t;
      assert after[i].sensor == t;
    }
    if t == q && t in driver {
      assert after[IndexOf(infos, q)].sensor == t;
    }
    if Listed(after, t) {
      var i :| 0 <= i < |after| && after[i].sensor == t;
      if i < |infos| { assert infos[i].sensor == t; }
    }
  }

  /** After any queries the table lists exactly the kinds of sensor asked for that the driver has. */
  lemma {:induction false} TableIsWhatWasAsked(driver: Driver, queries: seq<SensorType>)
    ensures Agrees(driver, After(driver, queries))
    ensures forall t :: t in queries && t in driver <==> Listed(After(driver, queries), t)
  {
    if queries != [] {
      hide Agrees, Lookup, Listed;
      var u, q := queries[..|queries| - 1], queries[|queries| - 1];
      TableIsWhatWasAsked(driver, u);
      LookupAgrees(driver, After(driver, u), q);
      forall t ensures t in queries && t in driver <==> Listed(After(driver, queries), t) {
        LookupLists(driver, After(driver, u), q, t);
        assert t in queries <==> t in u || t == q;
      }
    } else {
      assert forall t :: !Listed([], t);
    }
  }

  // ---------- The code ----------

  class Device {
    const driver: Driver
    const sensorInfo: array<Option<SensorInfo>>
    ghost var infos: seq<SensorInfo>

    ghost predicate Valid()
      reads this, sensorInfo
    {
      && sensorInfo.Length == MAX_SENSORS
      && Agrees(driver, infos) && |infos| <= MAX_SENSORS
      && forall i :: 0 <= i < MAX_SENSORS ==> sensorInfo[i] == if i < |infos| then Some(infos[i]) else None
    }

    constructor (driver: Driver)
      ensures Valid() && infos == [] && this.driver == driver && fresh(sensorInfo)
    {
      this.driver := driver;
      sensorInfo := new Option<SensorInfo>[MAX_SENSORS](_ => None);
      infos := [];
      new;
      ClearSensors();
    }

    method ClearSensors()
      requires sensorInfo.Length == MAX_SENSORS
      modifies this, sensorInfo
      ensures Valid() && infos == []
    {
      infos := [];
      for i := 0 to MAX_SENSORS
        invariant infos == []
        invariant forall j :: 0 <= j < i ==> sensorInfo[j] == None
      {
        sensorInfo[i] := None;
      }
    }

    // The loop both queries begin with.
    method Find(t: SensorType) returns (i: nat)
      requires Valid()
      ensures i == IndexOf(infos, t)
    {
      IndexOfFinds(infos, t);
      i := 0;
      while i < MAX_SENSORS && sensorInfo[i] != None
        invariant i <= |infos| && i <= IndexOf(infos, t)
      {
        if sensorInfo[i].value.sensor == t {
          return;
        }
        i := i + 1;
      }
    }

    method HasSensor(t: SensorType) returns (found: bool)
      requires Valid()
      modifies this, sensorInfo
      ensures Valid() && infos == Lookup(driver, old(infos), t).0
      ensures found <==> t in driver
    {
      LookupAgrees(driver, infos, t);
      NeverFills(infos);
      IndexOfFinds(infos, t);
      var i := Find(t);
      if i < MAX_SENSORS && sensorInfo[i] != None {
        return true;
      }
      if i == MAX_SENSORS {
        return false;
      }
      if t !in driver {
        return false;
      }
      sensorInfo[i] := Some(driver[t]);
      infos := infos + [driver[t]];
      return true;
    }

    method GetSensorInfo(t: SensorType) returns (slot: Option<nat>)
      requires Valid()
      modifies this, sensorInfo
      ensures Valid() && (infos, slot) == Lookup(driver, old(infos), t)
      ensures slot.Some? <==> t in driver
      ensures slot.Some? ==> slot.value < MAX_SENSORS && sensorInfo[slot.value] == Some(driver[t])
      ensures forall i :: 0 <= i < |old(infos)| ==> sensorInfo[i] == old(sensorInfo[i])
    {
      LookupAgrees(driver, infos, t);
      NeverFills(infos);
      IndexOfFinds(infos, t);
      var i := Find(t);
      if i < MAX_SENSORS && sensorInfo[i] != None {
        return Some(i);
      }
      if i == MAX_SENSORS {
        return None;
      }
      if t !in driver {
        return None;
      }
      sensorInfo[i] := Some(driver[t]);
      infos := infos + [driver[t]];
      return Some(i);
    }
  }
}
