/**
 What the two reports of store.go contain, stated over the readings rather
 than over the loops that compute them: the weekly report
 (GetWeeklyStatsForSensors, store.go:49-127) and the daily report
 (GetDailyStatsForSensor, store.go:129-180). Each text line the Go code
 formats is a `Record`; the sensors are visited in an `order` that
 enumerates the store's sensor names, since Go's map iteration order is
 unspecified.
 */
module Reports {
  import opened Seqs
  import opened Stats
  import opened Buckets

  datatype Option<T> = None | Some(value: T)

  /** The errors the store returns (store.go:56,63,134,187). */
  datatype Error =
    | NoDataForSensor(date: Day, sensor: string)
    | NoSensors
    | InvalidDate(input: string)

  datatype Result<T> = Ok(value: T) | Err(error: Error)

  /** One line of a report, one constructor per line the Go code formats. */
  datatype Record =
      /** store.go:169 */
    | SensorDay(date: Day, sensor: string, min: int, max: int, avg: int)
      /** store.go:147, the text of the NoDataForSensor error of store.go:187 */
    | SensorDayMissing(date: Day, sensor: string)
      /** store.go:175 */
    | AllSensorsDay(date: Day, min: int, max: int, avg: int)
      /** store.go:119 */
    | SensorWeek(sensor: string, min: int, max: int, avg: int)
      /** store.go:115; the date is the loop's last value, the as-of date */
    | SensorWeekMissing(sensor: string, date: Day)
      /** store.go:123 */
    | AllSensorsWeek(min: int, max: int, avg: int)

  /**
   `order` lists every name of `keys` exactly once, as one `range` over a Go
   map does: its last name is one of the keys, and the names before it
   enumerate the other keys. EnumerationMultiset restates this with multisets.
   */
  predicate IsEnumeration(order: seq<string>, keys: set<string>)
  {
    if order == [] then keys == {}
    else order[|order| - 1] in keys && IsEnumeration(order[..|order| - 1], keys - {order[|order| - 1]})
  }

  /** Visiting one more name, not visited before, enumerates one more key. */
  lemma EnumerationSnoc(order: seq<string>, keys: set<string>, name: string)
    requires IsEnumeration(order, keys) && name !in keys
    ensures IsEnumeration(order + [name], keys + {name})
  {
    assert (order + [name])[..|order|] == order;
    assert (keys + {name}) - {name} == keys;
  }

  /** An enumeration holds each key exactly once and nothing else. */
  lemma {:induction false} EnumerationMultiset(order: seq<string>, keys: set<string>)
    ensures IsEnumeration(order, keys) <==> multiset(order) == multiset(keys)
    decreases |order|
  {
    if order == [] {
      assert forall x :: x in keys ==> x in multiset(keys);
      if multiset(keys) == multiset{} {
        assert keys == {};
      }
    } else {
      var prefix, x := order[..|order| - 1], order[|order| - 1];
      assert order == prefix + [x];
      EnumerationMultiset(prefix, keys - {x});
      if x in keys {
        assert multiset(keys - {x}) == multiset(keys) - multiset{x};
      } else {
        assert x in multiset(order);
      }
    }
  }

  /** The days a report covers (store.go:71-72,137-143); see WindowDays. */
  function Window(t: Day): seq<Day>
  {
    seq(8, k => t - 7 + k)
  }

  /** The first n + 1 days of the window are its first n days and then `day`, the day t-7+n. */
  lemma WindowNext(t: Day, n: nat, day: Day)
    requires n < 8 && day == t - 7 + n
    ensures Window(t)[..n + 1] == Window(t)[..n] + [day]
  {
  }

  /** Taking one more day of the window appends that day's bucket. */
  lemma ReadingsNextDay(sensors: SensorMap, name: string, t: Day, n: nat, day: Day)
    requires n < 8 && day == t - 7 + n
    ensures Readings(sensors, name, Window(t)[..n + 1])
         == Readings(sensors, name, Window(t)[..n]) + Bucket(sensors, name, day)
  {
    WindowNext(t, n, day);
    FlatMapSnoc(Window(t)[..n], day, BucketOf(sensors, name));
  }

  /** The window is exactly the eight days t-7 .. t, both ends included, oldest first. */
  lemma WindowDays(t: Day)
    ensures |Window(t)| == 8 && Window(t)[0] == t - 7 && Window(t)[7] == t
    ensures forall j, k :: 0 <= j < k < 8 ==> Window(t)[j] < Window(t)[k]
    ensures forall d :: d in Window(t) <==> t - 7 <= d <= t
  {
    forall d | t - 7 <= d <= t
      ensures d in Window(t)
    {
      assert Window(t)[d - t + 7] == d;
    }
  }

  // ---------------------------------------------------------------- readings

  function BucketOf(sensors: SensorMap, name: string): Day -> seq<int>
  {
    day => Bucket(sensors, name, day)
  }

  /** A sensor's readings on the given days, day after day. */
  function Readings(sensors: SensorMap, name: string, days: seq<Day>): seq<int>
  {
    FlatMap(days, BucketOf(sensors, name))
  }

  function WeekReadingsOf(sensors: SensorMap, t: Day): string -> seq<int>
  {
    name => Readings(sensors, name, Window(t))
  }

  /** Every sensor's readings in the window ending at `t`, sensor after sensor. */
  function AllWeekReadings(sensors: SensorMap, t: Day, order: seq<string>): seq<int>
  {
    FlatMap(order, WeekReadingsOf(sensors, t))
  }

  function BucketOn(sensors: SensorMap, day: Day): string -> seq<int>
  {
    name => Bucket(sensors, name, day)
  }

  /** Every sensor's readings on one day, sensor after sensor. */
  function DayReadings(sensors: SensorMap, day: Day, order: seq<string>): seq<int>
  {
    FlatMap(order, BucketOn(sensors, day))
  }

  // ------------------------------------------------------------ weekly report

  /**
   A sensor's weekly line: the statistics of all its readings in the window,
   or the "no data" line when it has none there.
   */
  function SensorWeekLine(sensors: SensorMap, t: Day, name: string): Record
  {
    var rs := Readings(sensors, name, Window(t));
    if rs == [] then SensorWeekMissing(name, t)
    else
      var st := PointStats(rs);
      SensorWeek(name, st.min, st.max, st.avg)
  }

  function SensorWeekLineOf(sensors: SensorMap, t: Day): string -> seq<Record>
  {
    name => [SensorWeekLine(sensors, t, name)]
  }

  /** The cross-sensor weekly line: present only when some sensor had readings in the window. */
  function WeekTotalLine(sensors: SensorMap, t: Day, order: seq<string>): seq<Record>
  {
    var rs := AllWeekReadings(sensors, t, order);
    if rs == [] then []
    else
      var st := PointStats(rs);
      [AllSensorsWeek(st.min, st.max, st.avg)]
  }

  /** The weekly report's lines: one per sensor in `order`, then the cross-sensor line. */
  function WeekLines(sensors: SensorMap, t: Day, order: seq<string>): seq<Record>
  {
    FlatMap(order, SensorWeekLineOf(sensors, t)) + WeekTotalLine(sensors, t, order)
  }

  // ------------------------------------------------------------- daily report

  /** A sensor's line for one day: that bucket's statistics, or the missing-data line. */
  function SensorDayLine(sensors: SensorMap, day: Day, name: string): Record
  {
    var b := Bucket(sensors, name, day);
    if b == [] then SensorDayMissing(day, name)
    else
      var st := PointStats(b);
      SensorDay(day, name, st.min, st.max, st.avg)
  }

  function SensorDayLineOf(sensors: SensorMap, day: Day): string -> seq<Record>
  {
    name => [SensorDayLine(sensors, day, name)]
  }

  /**
   The cross-sensor line of one day: the statistics of all that day's readings
   (so a count-weighted average), present only when there are any.
   */
  function DayTotalLine(sensors: SensorMap, day: Day, order: seq<string>): seq<Record>
  {
    var rs := DayReadings(sensors, day, order);
    if rs == [] then []
    else
      var st := PointStats(rs);
      [AllSensorsDay(day, st.min, st.max, st.avg)]
  }

  /** One day of the daily report: a line per sensor in `order`, then the cross-sensor line. */
  function DayLines(sensors: SensorMap, day: Day, order: seq<string>): seq<Record>
  {
    FlatMap(order, SensorDayLineOf(sensors, day)) + DayTotalLine(sensors, day, order)
  }

  /** The daily report over `days`, visiting the sensors of `days[k]` in `orders[k]`. */
  function DailyLines(sensors: SensorMap, days: seq<Day>, orders: seq<seq<string>>): seq<Record>
    requires |days| == |orders|
  {
    if days == [] then []
    else DailyLines(sensors, days[..|days| - 1], orders[..|orders| - 1])
         + DayLines(sensors, days[|days| - 1], orders[|orders| - 1])
  }

  /** One more day appends that day's lines to the daily report. */
  lemma DailyLinesSnoc(sensors: SensorMap, days: seq<Day>, orders: seq<seq<string>>,
                       day: Day, order: seq<string>, lines: seq<Record>)
    requires |days| == |orders| && lines == DayLines(sensors, day, order)
    ensures DailyLines(sensors, days + [day], orders + [order]) == DailyLines(sensors, days, orders) + lines
  {
    assert (days + [day])[..|days|] == days;
    assert (orders + [order])[..|orders|] == orders;
  }

  /** Every element of `orders` enumerates `keys`. */
  predicate AllEnumerate(orders: seq<seq<string>>, keys: set<string>)
  {
    orders == [] || (AllEnumerate(orders[..|orders| - 1], keys) && IsEnumeration(orders[|orders| - 1], keys))
  }

  lemma AllEnumerateSnoc(orders: seq<seq<string>>, keys: set<string>, order: seq<string>)
    requires AllEnumerate(orders, keys) && IsEnumeration(order, keys)
    ensures AllEnumerate(orders + [order], keys)
  {
    assert (orders + [order])[..|orders|] == orders;
  }

  lemma {:induction false} AllEnumerateAt(orders: seq<seq<string>>, keys: set<string>, k: int)
    requires AllEnumerate(orders, keys) && 0 <= k < |orders|
    ensures IsEnumeration(orders[k], keys)
    decreases |orders|
  {
    if k < |orders| - 1 {
      AllEnumerateAt(orders[..|orders| - 1], keys, k);
    }
  }

  /**
   One round of the daily report's day loop: the lines of `day`, visited in
   `order`, extend the report of `days` to the report of `days + [day]`.
   */
  lemma DailyStep(sensors: SensorMap, days: seq<Day>, info: seq<Record>, orders: seq<seq<string>>,
                  day: Day, lines: seq<Record>, order: seq<string>)
    requires |orders| == |days| && AllEnumerate(orders, sensors.Keys) && IsEnumeration(order, sensors.Keys)
    requires info == DailyLines(sensors, days, orders)
    requires lines == DayLines(sensors, day, order)
    ensures |orders + [order]| == |days + [day]| && AllEnumerate(orders + [order], sensors.Keys)
    ensures info + lines == DailyLines(sensors, days + [day], orders + [order])
  {
    DailyLinesSnoc(sensors, days, orders, day, order, lines);
    AllEnumerateSnoc(orders, sensors.Keys, order);
  }

  /** One enumeration of the sensor names per day of the window. */
  predicate EnumeratesDaily(orders: seq<seq<string>>, keys: set<string>)
  {
    |orders| == 8 && AllEnumerate(orders, keys)
  }

  // ------------------------------------------------ what the lines amount to

  /** A sensor's weekly line is the "no data" line exactly when it has no reading on any day t-7 .. t. */
  lemma SensorWeekMissingIff(sensors: SensorMap, t: Day, name: string)
    ensures SensorWeekLine(sensors, t, name).SensorWeekMissing? <==>
              forall d :: t - 7 <= d <= t ==> Bucket(sensors, name, d) == []
  {
    var f := BucketOf(sensors, name);
    FlatMapEmpty(Window(t), f);
    WindowDays(t);
    if forall d :: t - 7 <= d <= t ==> Bucket(sensors, name, d) == [] {
      forall d | d in Window(t)
        ensures f(d) == []
      {
      }
    } else {
      var d :| t - 7 <= d <= t && Bucket(sensors, name, d) != [];
      assert d in Window(t) && f(d) != [];
    }
  }

  /**
   A sensor's weekly figures, over its contributing days (the days t-7 .. t
   with readings): the min is the least of their daily mins, the max the
   largest of their daily maxes, and the average is the sum of their totals
   truncated-divided by the sum of their counts, so it lies between the two.
   */
  lemma SensorWeekFromDays(sensors: SensorMap, t: Day, name: string)
    requires SensorWeekLine(sensors, t, name).SensorWeek?
    ensures var line := SensorWeekLine(sensors, t, name);
            && (forall d :: t - 7 <= d <= t && Bucket(sensors, name, d) != [] ==>
                  line.min <= PointStats(Bucket(sensors, name, d)).min &&
                  PointStats(Bucket(sensors, name, d)).max <= line.max)
            && (exists d :: t - 7 <= d <= t && Bucket(sensors, name, d) != [] &&
                  line.min == PointStats(Bucket(sensors, name, d)).min)
            && (exists d :: t - 7 <= d <= t && Bucket(sensors, name, d) != [] &&
                  line.max == PointStats(Bucket(sensors, name, d)).max)
            && CountOver(Window(t), BucketOf(sensors, name)) > 0
            && line.avg == Quotient(TotalOver(Window(t), BucketOf(sensors, name)),
                                    CountOver(Window(t), BucketOf(sensors, name)))
            && line.min <= line.avg <= line.max
  {
    var f, rs := BucketOf(sensors, name), Readings(sensors, name, Window(t));
    var line := SensorWeekLine(sensors, t, name);
    assert line.min == SeqMin(rs) && line.max == SeqMax(rs);
    WindowDays(t);
    FlatMapExtremes(Window(t), f);
    forall d | t - 7 <= d <= t && Bucket(sensors, name, d) != []
      ensures line.min <= PointStats(Bucket(sensors, name, d)).min
      ensures PointStats(Bucket(sensors, name, d)).max <= line.max
    {
      assert d in Window(t) && f(d) == Bucket(sensors, name, d);
    }
    var lo :| lo in Window(t) && f(lo) != [] && SeqMin(rs) == SeqMin(f(lo));
    assert t - 7 <= lo <= t && Bucket(sensors, name, lo) == f(lo);
    var hi :| hi in Window(t) && f(hi) != [] && SeqMax(rs) == SeqMax(f(hi));
    assert t - 7 <= hi <= t && Bucket(sensors, name, hi) == f(hi);
    FlatMapSum(Window(t), f);
  }

  /**
   The cross-sensor weekly line is present exactly when some sensor of
   `order` has a weekly line with figures. Its min is then the least of
   those sensors' mins, its max the largest of their maxes, and its average
   the sum of all their totals truncated-divided by the sum of all their counts.
   */
  lemma WeekTotalFromSensors(sensors: SensorMap, t: Day, order: seq<string>)
    ensures WeekTotalLine(sensors, t, order) != [] <==>
              exists name :: name in order && SensorWeekLine(sensors, t, name).SensorWeek?
    ensures WeekTotalLine(sensors, t, order) != [] ==>
              var total := WeekTotalLine(sensors, t, order)[0];
              && (forall name :: name in order && SensorWeekLine(sensors, t, name).SensorWeek? ==>
                    total.min <= SensorWeekLine(sensors, t, name).min &&
                    SensorWeekLine(sensors, t, name).max <= total.max)
              && (exists name :: name in order && SensorWeekLine(sensors, t, name).SensorWeek? &&
                    total.min == SensorWeekLine(sensors, t, name).min)
              && (exists name :: name in order && SensorWeekLine(sensors, t, name).SensorWeek? &&
                    total.max == SensorWeekLine(sensors, t, name).max)
              && CountOver(order, WeekReadingsOf(sensors, t)) > 0
              && total.avg == Quotient(TotalOver(order, WeekReadingsOf(sensors, t)),
                                       CountOver(order, WeekReadingsOf(sensors, t)))
  {
    var f, rs := WeekReadingsOf(sensors, t), AllWeekReadings(sensors, t, order);
    FlatMapEmpty(order, f);
    if rs != [] {
      var total := WeekTotalLine(sensors, t, order)[0];
      assert total.min == SeqMin(rs) && total.max == SeqMax(rs);
      FlatMapExtremes(order, f);
      forall name | name in order && SensorWeekLine(sensors, t, name).SensorWeek?
        ensures total.min <= SensorWeekLine(sensors, t, name).min
        ensures SensorWeekLine(sensors, t, name).max <= total.max
      {
        assert f(name) == Readings(sensors, name, Window(t));
      }
      var lo :| lo in order && f(lo) != [] && SeqMin(rs) == SeqMin(f(lo));
      assert SensorWeekLine(sensors, t, lo).min == SeqMin(f(lo));
      var hi :| hi in order && f(hi) != [] && SeqMax(rs) == SeqMax(f(hi));
      assert SensorWeekLine(sensors, t, hi).max == SeqMax(f(hi));
      FlatMapSum(order, f);
    }
  }

  /**
   The cross-sensor line of a day is present exactly when some sensor of
   `order` has a reading that day, i.e. when some sensor's line for the day
   has figures. Its min is then the least of those sensors' mins, its max the
   largest of their maxes, and its average the count-weighted one: the sum of
   the sensors' totals truncated-divided by the sum of their counts.
   */
  lemma DayTotalFromSensors(sensors: SensorMap, day: Day, order: seq<string>)
    ensures DayTotalLine(sensors, day, order) != [] <==>
              exists name :: name in order && SensorDayLine(sensors, day, name).SensorDay?
    ensures DayTotalLine(sensors, day, order) != [] ==>
              var total := DayTotalLine(sensors, day, order)[0];
              && total.date == day
              && (forall name :: name in order && SensorDayLine(sensors, day, name).SensorDay? ==>
                    total.min <= SensorDayLine(sensors, day, name).min &&
                    SensorDayLine(sensors, day, name).max <= total.max)
              && (exists name :: name in order && SensorDayLine(sensors, day, name).SensorDay? &&
                    total.min == SensorDayLine(sensors, day, name).min)
              && (exists name :: name in order && SensorDayLine(sensors, day, name).SensorDay? &&
                    total.max == SensorDayLine(sensors, day, name).max)
              && CountOver(order, BucketOn(sensors, day)) > 0
              && total.avg == Quotient(TotalOver(order, BucketOn(sensors, day)),
                                       CountOver(order, BucketOn(sensors, day)))
  {
    var f, rs := BucketOn(sensors, day), DayReadings(sensors, day, order);
    FlatMapEmpty(order, f);
    if rs != [] {
      var total := DayTotalLine(sensors, day, order)[0];
      assert total.min == SeqMin(rs) && total.max == SeqMax(rs);
      FlatMapExtremes(order, f);
      forall name | name in order && SensorDayLine(sensors, day, name).SensorDay?
        ensures total.min <= SensorDayLine(sensors, day, name).min
        ensures SensorDayLine(sensors, day, name).max <= total.max
      {
        assert f(name) == Bucket(sensors, name, day);
      }
      var lo :| lo in order && f(lo) != [] && SeqMin(rs) == SeqMin(f(lo));
      assert SensorDayLine(sensors, day, lo).min == SeqMin(f(lo));
      var hi :| hi in order && f(hi) != [] && SeqMax(rs) == SeqMax(f(hi));
      assert SensorDayLine(sensors, day, hi).max == SeqMax(f(hi));
      FlatMapSum(order, f);
    }
  }

  /**
   The weekly report holds one line per sensor of `order`, in that order,
   then at most one cross-sensor line.
   */
  lemma WeekLinesShape(sensors: SensorMap, t: Day, order: seq<string>)
    ensures |WeekLines(sensors, t, order)| == |order| + |WeekTotalLine(sensors, t, order)|
    ensures |WeekTotalLine(sensors, t, order)| <= 1
    ensures forall k :: 0 <= k < |order| ==> WeekLines(sensors, t, order)[k] == SensorWeekLine(sensors, t, order[k])
  {
    FlatMapSingles(order, SensorWeekLineOf(sensors, t));
  }

  /**
   One day of the daily report holds one line per sensor of `order`, in that
   order, then at most one cross-sensor line; every line carries the day.
   */
  lemma DayLinesShape(sensors: SensorMap, day: Day, order: seq<string>)
    ensures |DayLines(sensors, day, order)| == |order| + |DayTotalLine(sensors, day, order)|
    ensures |DayTotalLine(sensors, day, order)| <= 1
    ensures forall k :: 0 <= k < |order| ==> DayLines(sensors, day, order)[k] == SensorDayLine(sensors, day, order[k])
    ensures forall r :: r in DayLines(sensors, day, order) ==> !r.SensorWeek? && !r.SensorWeekMissing? && !r.AllSensorsWeek? && r.date == day
  {
    FlatMapSingles(order, SensorDayLineOf(sensors, day));
    var lines := DayLines(sensors, day, order);
    forall r | r in lines
      ensures !r.SensorWeek? && !r.SensorWeekMissing? && !r.AllSensorsWeek? && r.date == day
    {
      var k :| 0 <= k < |lines| && lines[k] == r;
      if k >= |order| {
        assert r == DayTotalLine(sensors, day, order)[k - |order|];
      }
    }
  }

  /**
   The weekly report does not depend on the order the sensors are visited
   in: two enumerations of the names give the same lines, possibly in another
   order, and the same cross-sensor line.
   */
  lemma WeekLinesOrderIndependent(sensors: SensorMap, t: Day, order1: seq<string>, order2: seq<string>)
    requires IsEnumeration(order1, sensors.Keys) && IsEnumeration(order2, sensors.Keys)
    ensures WeekTotalLine(sensors, t, order1) == WeekTotalLine(sensors, t, order2)
    ensures multiset(WeekLines(sensors, t, order1)) == multiset(WeekLines(sensors, t, order2))
  {
    EnumerationMultiset(order1, sensors.Keys);
    EnumerationMultiset(order2, sensors.Keys);
    FlatMapPerm(order1, order2, SensorWeekLineOf(sensors, t));
    FlatMapPerm(order1, order2, WeekReadingsOf(sensors, t));
    var rs1, rs2 := AllWeekReadings(sensors, t, order1), AllWeekReadings(sensors, t, order2);
    if rs1 != [] {
      PointStatsPerm(rs1, rs2);
    } else {
      assert |rs2| == |multiset(rs2)| == 0;
    }
  }

  /**
   Likewise one day of the daily report: two enumerations of the names give
   the same lines, possibly in another order, and the same cross-sensor line.
   */
  lemma DayLinesOrderIndependent(sensors: SensorMap, day: Day, order1: seq<string>, order2: seq<string>)
    requires IsEnumeration(order1, sensors.Keys) && IsEnumeration(order2, sensors.Keys)
    ensures DayTotalLine(sensors, day, order1) == DayTotalLine(sensors, day, order2)
    ensures multiset(DayLines(sensors, day, order1)) == multiset(DayLines(sensors, day, order2))
  {
    EnumerationMultiset(order1, sensors.Keys);
    EnumerationMultiset(order2, sensors.Keys);
    FlatMapPerm(order1, order2, SensorDayLineOf(sensors, day));
    FlatMapPerm(order1, order2, BucketOn(sensors, day));
    var rs1, rs2 := DayReadings(sensors, day, order1), DayReadings(sensors, day, order2);
    if rs1 != [] {
      PointStatsPerm(rs1, rs2);
    } else {
      assert |rs2| == |multiset(rs2)| == 0;
    }
  }

  /** With no sensors, every day of the daily report is empty, and so is the report. */
  lemma {:induction false} DailyEmptyStore(days: seq<Day>, orders: seq<seq<string>>)
    requires |days| == |orders| && AllEnumerate(orders, {})
    ensures DailyLines(map[], days, orders) == []
    decreases |days|
  {
    if days != [] {
      var n := |days| - 1;
      DailyEmptyStore(days[..n], orders[..n]);
      AllEnumerateAt(orders, {}, n);
      assert orders[n] == [];
    }
  }
}
