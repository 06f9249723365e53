/**
 Worked cases of the two reports on small stores, for any order the sensors
 happen to be visited in.
 */
module Scenarios {
  import opened Stats
  import opened Buckets
  import opened Reports

  /** Sensor A read 10 on day d; sensor B read 30 on day d - 1 and 20 on day d. */
  function TwoSensors(d: Day): SensorMap
  {
    map["A" := map[d := [10]], "B" := map[d - 1 := [30], d := [20]]]
  }

  lemma BothEnumerate(d: Day)
    ensures IsEnumeration(["A", "B"], TwoSensors(d).Keys)
  {
    assert ["A", "B"][..1] == ["A"] && ["A"][..0] == [];
    assert TwoSensors(d).Keys - {"B"} == {"A"} && {"A"} - {"A"} == {};
  }

  lemma BothReadings(d: Day)
    ensures DayReadings(TwoSensors(d), d, ["A", "B"]) == [10, 20]
    ensures DayReadings(TwoSensors(d), d - 1, ["A", "B"]) == [30]
  {
    var sensors := TwoSensors(d);
    assert ["A", "B"][..1] == ["A"] && ["A"][..0] == [];
    assert Bucket(sensors, "A", d) == [10] && Bucket(sensors, "B", d) == [20];
    assert Bucket(sensors, "A", d - 1) == [] && Bucket(sensors, "B", d - 1) == [30];
  }

  lemma BothStats()
    ensures PointStats([10, 20]) == Stats(10, 20, 15, 2, 30)
    ensures PointStats([30]) == Stats(30, 30, 30, 1, 30)
  {
    assert [10, 20][..1] == [10] && [10][..0] == [];
    assert Sum([10, 20]) == 30;
  }

  /**
   On day d both sensors contribute: the cross-sensor line has min 10, max
   20 and the count-weighted average 15. On day d - 1 only B contributes: A
   gets the missing-data line and the cross-sensor line is B's alone.
   */
  lemma DailyCrossSection(d: Day, order: seq<string>)
    requires IsEnumeration(order, TwoSensors(d).Keys)
    ensures DayTotalLine(TwoSensors(d), d, order) == [AllSensorsDay(d, 10, 20, 15)]
    ensures DayTotalLine(TwoSensors(d), d - 1, order) == [AllSensorsDay(d - 1, 30, 30, 30)]
    ensures SensorDayLine(TwoSensors(d), d - 1, "A") == SensorDayMissing(d - 1, "A")
  {
    var sensors := TwoSensors(d);
    BothEnumerate(d);
    DayLinesOrderIndependent(sensors, d, order, ["A", "B"]);
    DayLinesOrderIndependent(sensors, d - 1, order, ["A", "B"]);
    BothReadings(d);
    BothStats();
  }

  /** Sensor A read 10, 20 and 30 on three days of the window ending at t, and nothing else. */
  function OneSensor(t: Day): SensorMap
  {
    map["A" := map[t - 5 := [10], t - 2 := [20], t := [30], t + 1 := [99], t - 8 := [-99]]]
  }

  lemma OneSensorReadings(t: Day)
    ensures Readings(OneSensor(t), "A", Window(t)) == [10, 20, 30]
  {
    var sensors := OneSensor(t);
    assert Window(t)[..0] == [];
    ReadingsNextDay(sensors, "A", t, 0, t - 7);
    ReadingsNextDay(sensors, "A", t, 1, t - 6);
    ReadingsNextDay(sensors, "A", t, 2, t - 5);
    ReadingsNextDay(sensors, "A", t, 3, t - 4);
    ReadingsNextDay(sensors, "A", t, 4, t - 3);
    ReadingsNextDay(sensors, "A", t, 5, t - 2);
    ReadingsNextDay(sensors, "A", t, 6, t - 1);
    ReadingsNextDay(sensors, "A", t, 7, t);
    assert Window(t)[..8] == Window(t);
  }

  /** With one sensor there is one enumeration of the names. */
  lemma OneSensorOrder(t: Day, order: seq<string>)
    requires IsEnumeration(order, OneSensor(t).Keys)
    ensures order == ["A"]
  {
    assert OneSensor(t).Keys == {"A"};
    EnumerationMultiset(order, OneSensor(t).Keys);
    assert |order| == |multiset(order)| == |multiset{"A"}| == 1;
    assert order[0] in multiset(order);
  }

  lemma OneSensorStats()
    ensures PointStats([10, 20, 30]) == Stats(10, 30, 20, 3, 60)
  {
    assert [10, 20, 30][..2] == [10, 20] && [10, 20][..1] == [10] && [10][..0] == [];
    assert Sum([10, 20, 30]) == 60;
  }

  /**
   A sensor whose readings in the window are 10, 20 and 30 (readings outside
   it do not count) has the weekly line min 10, max 30, average 20, and the
   weekly report is that line and the identical cross-sensor line.
   */
  lemma WeeklyOneSensor(t: Day, order: seq<string>)
    requires IsEnumeration(order, OneSensor(t).Keys)
    ensures WeekLines(OneSensor(t), t, order) == [SensorWeek("A", 10, 30, 20), AllSensorsWeek(10, 30, 20)]
  {
    var sensors := OneSensor(t);
    OneSensorOrder(t, order);
    OneSensorReadings(t);
    OneSensorStats();
    assert ["A"][..0] == [];
    assert AllWeekReadings(sensors, t, order) == [10, 20, 30];
  }
}
