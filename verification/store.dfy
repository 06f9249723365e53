/**
 The in-memory store of store.go as a class: its `Sensors` map is a field that
 AddInfo reassigns, and the three queries are methods whose loops keep the
 Go code's accumulators. Calls run one at a time; the read/write lock that
 serialises them in Go is not modelled.
 */
module Store {
  import opened Seqs
  import opened Stats
  import opened Buckets
  import opened Reports

  /**
   Folds one contributing bucket's statistics into the cross-sensor
   accumulator of one day of the daily report (store.go:152-167): the
   first contribution sets min and max, later ones lower or raise them, and
   total and count always grow. The accumulator then summarises the readings
   so far followed by the bucket's.
   */
  method Accumulate(initIteration: bool, min: int, max: int, total: int, count: int, st: Stats,
                    ghost rs: seq<int>, ghost b: seq<int>)
    returns (initIteration': bool, min': int, max': int, total': int, count': int)
    requires Summarises(!initIteration, min, max, total, count, rs)
    requires b != [] && st == PointStats(b)
    ensures Summarises(!initIteration', min', max', total', count', rs + b)
  {
    FoldBucket(!initIteration, min, max, total, count, rs, b);
    initIteration', min', max', total', count' := initIteration, min, max, total, count;
    if initIteration' {
      min' := st.min;
      max' := st.max;
      initIteration' := false;
    }
    total' := total' + st.total;
    count' := count' + st.count;
    if st.min < min' {
      min' := st.min;
    }
    if st.max > max' {
      max' := st.max;
    }
  }

  class InMemoryStore {
    /** sensor -> day -> readings (store.go:27) */
    var sensors: SensorMap

    ghost predicate Valid()
      reads this
    {
      Wellformed(sensors)
    }

    /** NewInMemoryStore (store.go:30-34): a store with no sensors. */
    constructor ()
      ensures Valid() && sensors == map[]
    {
      sensors := map[];
    }

    /**
     AddInfo (store.go:36-47): registers the sensor if it is new and appends the
     reading to the end of its bucket for `info.time`; nothing else changes,
     and a well-formed store stays well formed.
     */
    method AddInfo(sensorName: string, info: SensorInfo)
      modifies this
      ensures sensors == Added(old(sensors), sensorName, info)
      ensures old(Valid()) ==> Valid()
    {
      if Valid() {
        AddedWellformed(sensors, sensorName, info);
      }
      if sensorName !in sensors {
        sensors := sensors[sensorName := map[]];
      }
      var days := sensors[sensorName];
      var bucket := if info.time in days then days[info.time] else [];
      sensors := sensors[sensorName := days[info.time := bucket + [info.temperature]]];
    }

    /**
     GetDateStatsForSensor (store.go:182-216): an error exactly when the bucket
     is absent or empty (an unknown sensor included); otherwise the bucket's
     statistics, computed in one pass over it.
     */
    method GetDateStatsForSensor(date: Day, sensorName: string) returns (r: Result<Stats>)
      ensures r.Err? <==> Bucket(sensors, sensorName, date) == []
      ensures r.Err? ==> r.error == NoDataForSensor(date, sensorName)
      ensures r.Ok? ==> r.value == PointStats(Bucket(sensors, sensorName, date))
    {
      var temperatures := Bucket(sensors, sensorName, date);
      if |temperatures| == 0 {
        return Err(NoDataForSensor(date, sensorName));
      }
      var min, max := temperatures[0], temperatures[0];
      var count := |temperatures|;
      var total := 0;
      for k := 0 to |temperatures|
        invariant total == Sum(temperatures[..k])
        invariant k == 0 ==> min == max == temperatures[0]
        invariant k > 0 ==> min == SeqMin(temperatures[..k]) && max == SeqMax(temperatures[..k])
      {
        var temperature := temperatures[k];
        assert temperatures[..k + 1][..k] == temperatures[..k];
        total := total + temperature;
        if max < temperature {
          max := temperature;
        }
        if min > temperature {
          min := temperature;
        }
      }
      assert temperatures[..|temperatures|] == temperatures;
      var avg := Quotient(total, count);
      r := Ok(Stats(min, max, avg, count, total));
    }

    /**
     One round of the day loop of GetWeeklyStatsForSensors (store.go:71-111),
     for one `date`: when the sensor has readings that day, their
     statistics are folded into the sensor's accumulator and into the
     cross-sensor one, statement by statement in the Go order (cross-sensor
     first-set, sensor first-set, sensor fold, cross-sensor fold), so that
     both then also summarise that day's readings.
     */
    method WeekDay(sensorName: string, date: Day,
                   initIteration: bool, min: int, max: int, total: int, count: int,
                   initIterationG: bool, minAll: int, maxAll: int, totalAll: int, countAll: int,
                   ghost before: seq<int>, ghost rs: seq<int>)
      returns (initIteration': bool, min': int, max': int, total': int, count': int,
               initIterationG': bool, minAll': int, maxAll': int, totalAll': int, countAll': int)
      requires Summarises(!initIteration, min, max, total, count, rs)
      requires Summarises(!initIterationG, minAll, maxAll, totalAll, countAll, before + rs)
      ensures Summarises(!initIteration', min', max', total', count', rs + Bucket(sensors, sensorName, date))
      ensures Summarises(!initIterationG', minAll', maxAll', totalAll', countAll',
                         before + (rs + Bucket(sensors, sensorName, date)))
    {
      var st := GetDateStatsForSensor(date, sensorName);
      ghost var b := Bucket(sensors, sensorName, date);
      initIteration', min', max', total', count' := initIteration, min, max, total, count;
      initIterationG', minAll', maxAll', totalAll', countAll' := initIterationG, minAll, maxAll, totalAll, countAll;
      if st.Ok? {
        FoldBucket(!initIterationG, minAll, maxAll, totalAll, countAll, before + rs, b);
        FoldBucket(!initIteration, min, max, total, count, rs, b);
        AppendAssoc(before, rs, b);
        if initIterationG' {
          minAll' := st.value.min;
          maxAll' := st.value.max;
          initIterationG' := false;
        }
        if initIteration' {
          min' := st.value.min;
          max' := st.value.max;
          initIteration' := false;
        }
        total' := total' + st.value.total;
        count' := count' + st.value.count;
        if st.value.min < min' {
          min' := st.value.min;
        }
        if st.value.max > max' {
          max' := st.value.max;
        }
        totalAll' := totalAll' + st.value.total;
        countAll' := countAll' + st.value.count;
        if st.value.min < minAll' {
          minAll' := st.value.min;
        }
        if st.value.max > maxAll' {
          maxAll' := st.value.max;
        }
      } else {
        assert rs + b == rs;
      }
    }

    /**
     The day loop that GetWeeklyStatsForSensors runs for one sensor
     (store.go:68-112): over the days t-7 .. t it folds every day with readings
     into the sensor's accumulator and into the cross-sensor one. Afterwards
     the first summarises the sensor's readings in the window, and the second
     those it summarised before followed by the same readings.
     */
    method WeekOfSensor(sensorName: string, t: Day,
                        initIterationG: bool, minAll: int, maxAll: int, totalAll: int, countAll: int,
                        ghost before: seq<int>)
      returns (initIteration: bool, min: int, max: int, total: int, count: int,
               initIterationG': bool, minAll': int, maxAll': int, totalAll': int, countAll': int)
      requires Summarises(!initIterationG, minAll, maxAll, totalAll, countAll, before)
      ensures Summarises(!initIteration, min, max, total, count, Readings(sensors, sensorName, Window(t)))
      ensures Summarises(!initIterationG', minAll', maxAll', totalAll', countAll',
                         before + Readings(sensors, sensorName, Window(t)))
    {
      initIterationG', minAll', maxAll', totalAll', countAll' := initIterationG, minAll, maxAll, totalAll, countAll;
      min, max, total, count := 0, 0, 0, 0;
      initIteration := true;
      ghost var rs: seq<int> := [];
      assert before + rs == before;
      var i := 7;
      ghost var n: nat := 0;
      while i >= 0
        invariant -1 <= i <= 7 && n == 7 - i
        invariant rs == Readings(sensors, sensorName, Window(t)[..n])
        invariant Summarises(!initIteration, min, max, total, count, rs)
        invariant Summarises(!initIterationG', minAll', maxAll', totalAll', countAll', before + rs)
        decreases i + 1
      {
        var date := t - i;
        initIteration, min, max, total, count, initIterationG', minAll', maxAll', totalAll', countAll' :=
          WeekDay(sensorName, date, initIteration, min, max, total, count,
                  initIterationG', minAll', maxAll', totalAll', countAll', before, rs);
        ReadingsNextDay(sensors, sensorName, t, n, date);
        rs := rs + Bucket(sensors, sensorName, date);
        i, n := i - 1, n + 1;
      }
      assert Window(t)[..8] == Window(t);
    }

    /**
     One round of the sensor loop of GetWeeklyStatsForSensors (store.go:66-120):
     the sensor's weekly line, with its readings in the window also folded
     into the cross-sensor accumulator.
     */
    method WeekLineFor(sensorName: string, t: Day,
                       initIterationG: bool, minAll: int, maxAll: int, totalAll: int, countAll: int,
                       ghost before: seq<int>)
      returns (line: Record, initIterationG': bool, minAll': int, maxAll': int, totalAll': int, countAll': int)
      requires Summarises(!initIterationG, minAll, maxAll, totalAll, countAll, before)
      ensures line == SensorWeekLine(sensors, t, sensorName)
      ensures Summarises(!initIterationG', minAll', maxAll', totalAll', countAll',
                         before + Readings(sensors, sensorName, Window(t)))
    {
      var initIteration, min, max, total, count;
      initIteration, min, max, total, count, initIterationG', minAll', maxAll', totalAll', countAll' :=
        WeekOfSensor(sensorName, t, initIterationG, minAll, maxAll, totalAll, countAll, before);
      // Go prints its `date` variable here, which the day loop left at t.
      if initIteration {
        line := SensorWeekMissing(sensorName, t);
      } else {
        line := SensorWeek(sensorName, min, max, Quotient(total, count));
      }
    }

    /**
     The sensor loop of GetWeeklyStatsForSensors (store.go:66-124): for the
     sensors in some enumeration of the store's names, each sensor's line, then
     the cross-sensor line when any sensor had readings in the window.
     */
    method WeeklyLines(t: Day) returns (info: seq<Record>, ghost visited: seq<string>)
      ensures IsEnumeration(visited, sensors.Keys)
      ensures info == WeekLines(sensors, t, visited)
    {
      info := [];
      var minAll, maxAll, totalAll, countAll := 0, 0, 0, 0;
      var initIterationG := true;
      // Go ranges over the map; here each round takes any sensor not yet visited.
      var remaining := sensors.Keys;
      visited := [];
      while remaining != {}
        invariant remaining <= sensors.Keys && IsEnumeration(visited, sensors.Keys - remaining)
        invariant info == FlatMap(visited, SensorWeekLineOf(sensors, t))
        invariant Summarises(!initIterationG, minAll, maxAll, totalAll, countAll, AllWeekReadings(sensors, t, visited))
        decreases remaining
      {
        var sensorName :| sensorName in remaining;
        var line;
        line, initIterationG, minAll, maxAll, totalAll, countAll :=
          WeekLineFor(sensorName, t, initIterationG, minAll, maxAll, totalAll, countAll, AllWeekReadings(sensors, t, visited));
        info := info + [line];
        FlatMapSnoc(visited, sensorName, SensorWeekLineOf(sensors, t));
        FlatMapSnoc(visited, sensorName, WeekReadingsOf(sensors, t));
        EnumerationSnoc(visited, sensors.Keys - remaining, sensorName);
        assert sensors.Keys - remaining + {sensorName} == sensors.Keys - (remaining - {sensorName});
        visited := visited + [sensorName];
        remaining := remaining - {sensorName};
      }
      if countAll != 0 {
        info := info + [AllSensorsWeek(minAll, maxAll, Quotient(totalAll, countAll))];
      }
      assert sensors.Keys - remaining == sensors.Keys;
    }

    /**
     GetWeeklyStatsForSensors (store.go:49-127). An empty store is an error,
     checked before the date is parsed; an unparsable date is an error. Otherwise
     the lines are, for the sensors in some enumeration of the store's names,
     each sensor's line over the eight days ending at the date, then the
     cross-sensor line when any sensor had readings in those days.
     */
    method GetWeeklyStatsForSensors(date: string, parse: string -> Option<Day>) returns (r: Result<seq<Record>>)
      ensures |sensors| == 0 ==> r == Err(NoSensors)
      ensures |sensors| != 0 && parse(date).None? ==> r == Err(InvalidDate(date))
      ensures |sensors| != 0 && parse(date).Some? ==>
                exists order :: IsEnumeration(order, sensors.Keys) && r == Ok(WeekLines(sensors, parse(date).value, order))
    {
      if |sensors| == 0 {
        return Err(NoSensors);
      }
      var parsed := parse(date);
      if parsed.None? {
        return Err(InvalidDate(date));
      }
      var info;
      ghost var visited;
      info, visited := WeeklyLines(parsed.value);
      r := Ok(info);
    }

    /**
     One day of GetDailyStatsForSensor (store.go:138-176): for the sensors in
     some enumeration of the store's names, each sensor's line for the day,
     then the cross-sensor line when some sensor had readings that day. The
     accumulator starts afresh for the day.
     */
    method DailyLinesFor(day: Day) returns (lines: seq<Record>, ghost order: seq<string>)
      ensures IsEnumeration(order, sensors.Keys)
      ensures lines == DayLines(sensors, day, order)
    {
      var minAll, maxAll, totalAll, countAll := 0, 0, 0, 0;
      var initIteration := true;
      lines, order := [], [];
      // Go ranges over the map; here each round takes any sensor not yet visited.
      var remaining := sensors.Keys;
      while remaining != {}
        invariant remaining <= sensors.Keys && IsEnumeration(order, sensors.Keys - remaining)
        invariant lines == FlatMap(order, SensorDayLineOf(sensors, day))
        invariant Summarises(!initIteration, minAll, maxAll, totalAll, countAll, DayReadings(sensors, day, order))
        decreases remaining
      {
        var sensorName :| sensorName in remaining;
        var st := GetDateStatsForSensor(day, sensorName);
        ghost var rs := DayReadings(sensors, day, order);
        ghost var b := Bucket(sensors, sensorName, day);
        FlatMapSnoc(order, sensorName, BucketOn(sensors, day));
        FlatMapSnoc(order, sensorName, SensorDayLineOf(sensors, day));
        if st.Err? {
          // Go appends the text of the NoDataForSensor error.
          lines := lines + [SensorDayMissing(day, sensorName)];
          assert rs + b == rs;
        } else {
          initIteration, minAll, maxAll, totalAll, countAll :=
            Accumulate(initIteration, minAll, maxAll, totalAll, countAll, st.value, rs, b);
          lines := lines + [SensorDay(day, sensorName, st.value.min, st.value.max, st.value.avg)];
        }
        EnumerationSnoc(order, sensors.Keys - remaining, sensorName);
        assert sensors.Keys - remaining + {sensorName} == sensors.Keys - (remaining - {sensorName});
        order := order + [sensorName];
        remaining := remaining - {sensorName};
      }
      if countAll != 0 {
        lines := lines + [AllSensorsDay(day, minAll, maxAll, Quotient(totalAll, countAll))];
      }
      assert sensors.Keys - remaining == sensors.Keys;
    }

    /** One round of the per-day loop of store.go:137-177: the lines of `day` appended. */
    method NextDay(day: Day, ghost days: seq<Day>, info: seq<Record>, ghost orders: seq<seq<string>>)
      returns (info': seq<Record>, ghost orders': seq<seq<string>>)
      requires |orders| == |days| && AllEnumerate(orders, sensors.Keys)
      requires info == DailyLines(sensors, days, orders)
      ensures |orders'| == |days + [day]| && AllEnumerate(orders', sensors.Keys)
      ensures info' == DailyLines(sensors, days + [day], orders')
    {
      var lines;
      ghost var order;
      lines, order := DailyLinesFor(day);
      DailyStep(sensors, days, info, orders, day, lines, order);
      info', orders' := info + lines, orders + [order];
    }

    /** The per-day loop of GetDailyStatsForSensor (store.go:137-177), oldest day first. */
    method DailyReport(t: Day) returns (info: seq<Record>, ghost orders: seq<seq<string>>)
      ensures EnumeratesDaily(orders, sensors.Keys)
      ensures info == DailyLines(sensors, Window(t), orders)
    {
      info, orders := [], [];
      var i := 7;
      ghost var n: nat := 0;
      while i >= 0
        invariant -1 <= i <= 7 && n == 7 - i && |orders| == n
        invariant AllEnumerate(orders, sensors.Keys)
        invariant info == DailyLines(sensors, Window(t)[..n], orders)
        decreases i + 1
      {
        var date := t - i;
        info, orders := NextDay(date, Window(t)[..n], info, orders);
        WindowNext(t, n, date);
        i, n := i - 1, n + 1;
      }
      assert Window(t)[..8] == Window(t);
    }

    /**
     GetDailyStatsForSensor (store.go:129-180): an unparsable date is an error;
     otherwise the lines of the eight days t-7 .. t, oldest first, each day
     visiting the sensors in its own enumeration of the store's names. An
     empty store is not an error here.
     */
    method GetDailyStatsForSensor(date: string, parse: string -> Option<Day>) returns (r: Result<seq<Record>>)
      ensures parse(date).None? ==> r == Err(InvalidDate(date))
      ensures parse(date).Some? ==>
                exists orders :: EnumeratesDaily(orders, sensors.Keys)
                              && r == Ok(DailyLines(sensors, Window(parse(date).value), orders))
    {
      var parsed := parse(date);
      if parsed.None? {
        return Err(InvalidDate(date));
      }
      var t := parsed.value;
      var info;
      ghost var orders;
      info, orders := DailyReport(t);
      r := Ok(info);
    }
  }
}
