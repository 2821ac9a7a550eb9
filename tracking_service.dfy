/** The mock `TrackingService` (src/services/trackingService.ts): the
    module-level `MOCK_STATS` record, read whole and updated field by field. */
module TrackingService {
  import opened Common

  datatype Metric = Metric(current: real, target: real)

  datatype DailyStats = DailyStats(
    calories: Metric, protein: Metric, carbs: Metric, fat: Metric,
    water: Metric, steps: Metric)

  const InitialStats: DailyStats := DailyStats(
    Metric(1250.0, 2000.0), Metric(80.0, 150.0), Metric(150.0, 200.0),
    Metric(40.0, 70.0), Metric(1.5, 2.5), Metric(5430.0, 10000.0))

  /** The stats after `updateWater(amountLiters)`: the water drunk so far grows
      by the amount, rounded to hundredths of a litre; nothing else moves. */
  function WithWater(s: DailyStats, amountLiters: real): (t: DailyStats)
    ensures t.water.target == s.water.target
    ensures t == s.(water := t.water)
    ensures (t.water.current * 100.0).Floor as real == t.water.current * 100.0
    ensures -0.005 <= t.water.current - (s.water.current + amountLiters) <= 0.005
  {
    s.(water := s.water.(current := ToFixed(s.water.current + amountLiters, 2)))
  }

  /** The stats after `updateSteps(steps)`: the step count is replaced, not added to. */
  function WithSteps(s: DailyStats, steps: real): (t: DailyStats)
    ensures t.steps == Metric(steps, s.steps.target)
    ensures t == s.(steps := t.steps)
  {
    s.(steps := s.steps.(current := steps))
  }

  /** Adding 0.25 l to the initial 1.5 l gives 1.75 l. */
  lemma WithWaterExample()
    ensures WithWater(InitialStats, 0.25).water == Metric(1.75, 2.5)
  {
    assert FixedUnits(1.75, 2) == 175;
  }

  class TrackingStore {
    var stats: DailyStats

    constructor ()
      ensures stats == InitialStats
    {
      stats := InitialStats;
    }

    /** `getDailyStats`: a snapshot of the stats; nothing is changed. */
    method GetDailyStats() returns (snapshot: DailyStats)
      ensures snapshot == stats
    {
      snapshot := stats;
    }

    /** `updateWater`: the snapshot returned shows the new state. */
    method UpdateWater(amountLiters: real) returns (snapshot: DailyStats)
      modifies this
      ensures stats == WithWater(old(stats), amountLiters)
      ensures snapshot == stats
    {
      var current := ToFixed(stats.water.current + amountLiters, 2);
      stats := stats.(water := stats.water.(current := current));
      snapshot := stats;
    }

    /** `updateSteps`: the snapshot returned shows the new state. */
    method UpdateSteps(steps: real) returns (snapshot: DailyStats)
      modifies this
      ensures stats == WithSteps(old(stats), steps)
      ensures snapshot == stats
    {
      stats := stats.(steps := stats.steps.(current := steps));
      snapshot := stats;
    }
  }
}
