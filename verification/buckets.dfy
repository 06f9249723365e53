/**
 The data the in-memory store keeps (store.go:24-28): for each sensor name, a
 map from day to the readings of that day in the order they arrived. Days
 are whole day numbers; the store keys them by their `2006-01-02` text.
 */
module Buckets {
  import opened Stats

  /** A calendar day, counted in days; `t - i` is the day `i` days before `t`. */
  type Day = int

  /** One reading as the server hands it to the store (store.go:19-22). */
  datatype SensorInfo = SensorInfo(time: Day, temperature: int)

  /** sensor name -> day -> readings, in insertion order. */
  type SensorMap = map<string, map<Day, seq<int>>>

  /**
   The readings of one (sensor, day) pair, as Go's nested map lookup reads
   them: an unknown sensor or day gives the empty (nil) slice.
   */
  function Bucket(sensors: SensorMap, name: string, day: Day): seq<int>
  {
    if name in sensors && day in sensors[name] then sensors[name][day] else []
  }

  /** The shape ingestion keeps: every sensor has some day, and no bucket is empty. */
  ghost predicate Wellformed(sensors: SensorMap)
  {
    && (forall name :: name in sensors ==> sensors[name] != map[])
    && (forall name, day :: name in sensors && day in sensors[name] ==> sensors[name][day] != [])
  }

  /**
   The store after one AddInfo (store.go:40-46): the sensor is registered, the
   reading goes at the end of exactly the (sensor, day) bucket, and every
   other bucket is as it was.
   */
  function Added(sensors: SensorMap, name: string, info: SensorInfo): (result: SensorMap)
    ensures result.Keys == sensors.Keys + {name}
    ensures info.time in result[name]
    ensures name in sensors ==> result[name].Keys == sensors[name].Keys + {info.time}
    ensures Bucket(result, name, info.time) == Bucket(sensors, name, info.time) + [info.temperature]
    ensures forall n, d :: n != name || d != info.time ==> Bucket(result, n, d) == Bucket(sensors, n, d)
  {
    var days := if name in sensors then sensors[name] else map[];
    sensors[name := days[info.time := Bucket(sensors, name, info.time) + [info.temperature]]]
  }

  /** Ingestion keeps the store well formed: a bucket exists only once a reading is in it. */
  lemma AddedWellformed(sensors: SensorMap, name: string, info: SensorInfo)
    requires Wellformed(sensors)
    ensures Wellformed(Added(sensors, name, info))
  {
    var result := Added(sensors, name, info);
    forall n, d | n in result && d in result[n]
      ensures result[n][d] != []
    {
      if n != name || d != info.time {
        assert Bucket(result, n, d) == Bucket(sensors, n, d);
      }
    }
  }

  /** In a well-formed store, a bucket is empty exactly when the sensor or the day is unknown. */
  lemma EmptyBucketIsAbsent(sensors: SensorMap, name: string, day: Day)
    requires Wellformed(sensors)
    ensures Bucket(sensors, name, day) == [] <==> name !in sensors || day !in sensors[name]
  {
  }

  /** The store after AddInfo(name, SensorInfo(day, x)) for each x of `temperatures` in turn. */
  function AddedAll(sensors: SensorMap, name: string, day: Day, temperatures: seq<int>): SensorMap
  {
    if temperatures == [] then sensors
    else Added(AddedAll(sensors, name, day, temperatures[..|temperatures| - 1]), name,
               SensorInfo(day, temperatures[|temperatures| - 1]))
  }

  /**
   N readings added to one bucket extend it by exactly those N readings in
   order and leave every other bucket alone.
   */
  lemma {:induction false} AddedAllBucket(sensors: SensorMap, name: string, day: Day, temperatures: seq<int>)
    ensures Bucket(AddedAll(sensors, name, day, temperatures), name, day) == Bucket(sensors, name, day) + temperatures
    ensures forall n, d :: n != name || d != day ==>
              Bucket(AddedAll(sensors, name, day, temperatures), n, d) == Bucket(sensors, n, d)
    decreases |temperatures|
  {
    if temperatures != [] {
      var prefix := temperatures[..|temperatures| - 1];
      AddedAllBucket(sensors, name, day, prefix);
      assert temperatures == prefix + [temperatures[|temperatures| - 1]];
    }
  }

  /** So N readings added to an empty bucket give it count N and, as total, the sum of the N readings. */
  lemma {:induction false} AddedAllStats(sensors: SensorMap, name: string, day: Day, temperatures: seq<int>)
    requires Bucket(sensors, name, day) == [] && temperatures != []
    ensures var st := PointStats(Bucket(AddedAll(sensors, name, day, temperatures), name, day));
            st.count == |temperatures| && st.total == Sum(temperatures)
  {
    AddedAllBucket(sensors, name, day, temperatures);
    assert Bucket(sensors, name, day) + temperatures == temperatures;
  }
}
