/**
 * Status-frame configuration of REV Spark motor controllers. Seven status
 * frames (signal groups) get a period in milliseconds chosen from the sensors
 * fitted and the data to be logged; each group is written through a
 * `switch` without `break`, repeated for every group with retries.
 *
 * Groups: 0 applied output, faults, bus voltage, output current and motor
 * temperature; 1 primary encoder velocity; 2 primary encoder position;
 * 3 analog sensor; 4 alternate encoder; 5 absolute encoder position;
 * 6 absolute encoder velocity.
 */
module SparkConfigurator {
  import opened Wrappers

  const ConfigurationSetRetries: nat := 5
  const Fast: int := 10
  const Normal: int := 20
  const Slow: int := 200
  const Off: int := 65535
  const FrameCount: nat := 7

  datatype Sensor = Integrated | Absolute | Alternate | Analog
  datatype LogData = Voltage | Current | Position | Velocity

  /** A follow setting: the leader's CAN id and whether the output is inverted. */
  datatype Follow = Follow(leaderId: int, invert: bool)

  /** The configuration object: a period per signal group (`None`: never set) and a follow setting. */
  class SparkConfig {
    var periods: seq<Option<int>>
    var follow: Option<Follow>

    constructor ()
      ensures periods == seq(FrameCount, _ => None) && follow == None
    {
      periods := seq(FrameCount, _ => None);
      follow := None;
    }

    method SetFollow(leaderId: int, invert: bool)
      modifies this
      ensures follow == Some(Follow(leaderId, invert)) && periods == old(periods)
    {
      follow := Some(Follow(leaderId, invert));
    }
  }

  /** A controller: what it last received from `configure`, and how often it was configured. */
  class Spark {
    const id: int
    var applied: seq<Option<int>>
    var appliedFollow: Option<Follow>
    var configureCount: nat

    constructor (id: int)
      ensures this.id == id && applied == seq(FrameCount, _ => None)
      ensures appliedFollow == None && configureCount == 0
    {
      this.id := id;
      applied := seq(FrameCount, _ => None);
      appliedFollow := None;
      configureCount := 0;
    }

    /** `configure`: the controller takes over the whole configuration object. */
    method Configure(config: SparkConfig)
      modifies this
      ensures applied == config.periods && appliedFollow == config.follow
      ensures configureCount == old(configureCount) + 1
    {
      applied := config.periods;
      appliedFollow := config.follow;
      configureCount := configureCount + 1;
    }
  }

  /** The leader's decision table, one period per group. */
  function LeaderStatus(sensors: set<Sensor>, logData: set<LogData>): seq<int> {
    [ Fast,
      if Velocity in logData || Voltage in logData || Current in logData then Fast else Slow,
      if Position in logData then Fast else Slow,
      if Analog in sensors then Fast else Off,
      if Alternate in sensors then Fast else Off,
      if Absolute in sensors && Position in logData then Fast else Off,
      if Absolute in sensors && Velocity in logData then Fast else Off ]
  }

  /** A follower's periods, whatever is fitted or logged. */
  const FollowerStatus: seq<int> := [Slow, Slow, Slow, Off, Off, Off, Off]

  /**
   * The status array as the setup edits it, starting from the defaults. The
   * follower flag is read but cannot change the result: group 0 is already
   * fast, and the branch only re-assigns that.
   */
  method ComputeLeaderStatus(hasFollower: bool, sensors: set<Sensor>, logData: set<LogData>)
    returns (status: seq<int>)
    ensures status == LeaderStatus(sensors, logData)
  {
    var a := new int[FrameCount] [Fast, Slow, Slow, Off, Off, Off, Off];
    ghost var target := LeaderStatus(sensors, logData);
    if !hasFollower && Voltage !in logData {
      a[0] := Fast;
    }
    assert a[0] == target[0];
    if Velocity in logData || Voltage in logData || Current in logData {
      a[1] := Fast;
    }
    assert a[1] == target[1];
    if Position in logData {
      a[2] := Fast;
    }
    assert a[2] == target[2];
    if Analog in sensors {
      a[3] := Fast;
    }
    assert a[3] == target[3];
    if Alternate in sensors {
      a[4] := Fast;
    }
    assert a[4] == target[4];
    if Absolute in sensors {
      if Position in logData {
        a[5] := Fast;
      }
      if Velocity in logData {
        a[6] := Fast;
      }
    }
    assert a[5] == target[5] && a[6] == target[6];
    status := [a[0], a[1], a[2], a[3], a[4], a[5], a[6]];
  }

  /** Every group is fast or at a rate the defaults name; group 0 is always fast. */
  lemma LeaderStatusTable(sensors: set<Sensor>, logData: set<LogData>)
    ensures |LeaderStatus(sensors, logData)| == FrameCount
    ensures LeaderStatus(sensors, logData)[0] == Fast
    ensures LeaderStatus(sensors, logData)[1] == Fast
        <==> Velocity in logData || Voltage in logData || Current in logData
    ensures LeaderStatus(sensors, logData)[2] == Fast <==> Position in logData
    ensures LeaderStatus(sensors, logData)[3] == Fast <==> Analog in sensors
    ensures LeaderStatus(sensors, logData)[4] == Fast <==> Alternate in sensors
    ensures LeaderStatus(sensors, logData)[5] == Fast <==> Absolute in sensors && Position in logData
    ensures LeaderStatus(sensors, logData)[6] == Fast <==> Absolute in sensors && Velocity in logData
    ensures LeaderStatus({}, {}) == [Fast, Slow, Slow, Off, Off, Off, Off]
  {
  }

  /** The effect of one fall-through `switch` entered at case `i`: every group from `i` on gets `period`. */
  function WriteFrom(periods: seq<Option<int>>, period: int, i: nat): seq<Option<int>> {
    seq(|periods|, j requires 0 <= j < |periods| => if j >= i then Some(period) else periods[j])
  }

  /** Entering the switch twice at the same case with the same period changes nothing more. */
  lemma WriteFromIdempotent(periods: seq<Option<int>>, period: int, i: nat)
    ensures WriteFrom(WriteFrom(periods, period, i), period, i) == WriteFrom(periods, period, i)
  {
  }

  /** The `switch` entered at case `i` once per round, for rounds `0 .. n-1` in ascending order. */
  function ApplyAscending(periods: seq<Option<int>>, status: seq<int>, n: nat): seq<Option<int>>
    requires n <= |status|
  {
    if n == 0 then periods else WriteFrom(ApplyAscending(periods, status, n - 1), status[n - 1], n - 1)
  }

  /** The same switch entered `k` times in a row. */
  function Repeat(periods: seq<Option<int>>, period: int, i: nat, k: nat): seq<Option<int>> {
    if k == 0 then periods else WriteFrom(Repeat(periods, period, i, k - 1), period, i)
  }

  /** Retrying is harmless: any positive number of repeats acts as one. */
  lemma {:induction false} RepeatIsOnce(periods: seq<Option<int>>, period: int, i: nat, k: nat)
    requires k >= 1
    ensures Repeat(periods, period, i, k) == WriteFrom(periods, period, i)
  {
    if k > 1 {
      RepeatIsOnce(periods, period, i, k - 1);
      WriteFromIdempotent(periods, period, i);
    }
  }

  /**
   * After rounds `0 .. n-1`, each group below `n` holds its own period and
   * every later group holds the period of the last round.
   */
  lemma {:induction false} ApplyAscendingShape(periods: seq<Option<int>>, status: seq<int>, n: nat)
    requires |periods| == |status| && 0 < n <= |status|
    ensures |ApplyAscending(periods, status, n)| == |periods|
    ensures forall j :: 0 <= j < n ==> ApplyAscending(periods, status, n)[j] == Some(status[j])
    ensures forall j :: n <= j < |periods| ==> ApplyAscending(periods, status, n)[j] == Some(status[n - 1])
  {
    if n > 1 {
      ApplyAscendingShape(periods, status, n - 1);
    }
  }

  /** After every round, each group holds exactly its own period. */
  lemma AscendingGivesEachGroupItsOwn(periods: seq<Option<int>>, status: seq<int>)
    requires |periods| == |status| && 0 < |status|
    ensures |ApplyAscending(periods, status, |status|)| == |status|
    ensures forall j :: 0 <= j < |status| ==> ApplyAscending(periods, status, |status|)[j] == Some(status[j])
  {
    ApplyAscendingShape(periods, status, |status|);
  }

  /**
   * `configLogging`: the fall-through switch entered at case `i`, then one
   * `configure` of the controller.
   */
  method ConfigLogging(spark: Spark, config: SparkConfig, status: seq<int>, i: nat)
    requires |config.periods| == FrameCount && |status| == FrameCount && i < FrameCount
    modifies spark, config
    ensures config.periods == WriteFrom(old(config.periods), status[i], i)
    ensures config.follow == old(config.follow)
    ensures spark.applied == config.periods && spark.appliedFollow == config.follow
    ensures spark.configureCount == old(spark.configureCount) + 1
  {
    var v := Some(status[i]);
    var p := config.periods;
    if i <= 0 { p := p[0 := v]; }
    if i <= 1 { p := p[1 := v]; }
    if i <= 2 { p := p[2 := v]; }
    if i <= 3 { p := p[3 := v]; }
    if i <= 4 { p := p[4 := v]; }
    if i <= 5 { p := p[5 := v]; }
    if i <= 6 { p := p[6 := v]; }
    assert p == WriteFrom(config.periods, status[i], i);
    config.periods := p;
    spark.Configure(config);
  }

  /** Rounds 0..6, each retried `ConfigurationSetRetries` times. */
  method ApplyStatus(spark: Spark, config: SparkConfig, status: seq<int>)
    requires |config.periods| == FrameCount && |status| == FrameCount
    modifies spark, config
    ensures config.periods == ApplyAscending(old(config.periods), status, FrameCount)
    ensures |config.periods| == FrameCount
    ensures forall j :: 0 <= j < FrameCount ==> config.periods[j] == Some(status[j])
    ensures config.follow == old(config.follow)
    ensures spark.applied == config.periods && spark.appliedFollow == config.follow
    ensures spark.configureCount == old(spark.configureCount) + FrameCount * ConfigurationSetRetries
  {
    ghost var initial := config.periods;
    var i := 0;
    while i < FrameCount
      invariant 0 <= i <= FrameCount
      invariant config.periods == ApplyAscending(initial, status, i)
      invariant |config.periods| == FrameCount
      invariant config.follow == old(config.follow)
      invariant i > 0 ==> spark.applied == config.periods && spark.appliedFollow == config.follow
      invariant spark.configureCount == old(spark.configureCount) + i * ConfigurationSetRetries
    {
      var j := 0;
      while j < ConfigurationSetRetries
        invariant 0 <= j <= ConfigurationSetRetries
        invariant config.periods == Repeat(ApplyAscending(initial, status, i), status[i], i, j)
        invariant |config.periods| == FrameCount
        invariant config.follow == old(config.follow)
        invariant (i > 0 || j > 0) ==> spark.applied == config.periods && spark.appliedFollow == config.follow
        invariant spark.configureCount == old(spark.configureCount) + i * ConfigurationSetRetries + j
      {
        ConfigLogging(spark, config, status, i);
        j := j + 1;
      }
      RepeatIsOnce(ApplyAscending(initial, status, i), status[i], i, ConfigurationSetRetries);
      i := i + 1;
    }
    AscendingGivesEachGroupItsOwn(initial, status);
  }

  /** `setupLogging`: the leader's table, written group by group with retries. */
  method SetupLogging(spark: Spark, hasFollower: bool, config: SparkConfig,
                      sensors: set<Sensor>, logData: set<LogData>)
    requires |config.periods| == FrameCount
    modifies spark, config
    ensures |config.periods| == FrameCount
    ensures forall j :: 0 <= j < FrameCount ==> config.periods[j] == Some(LeaderStatus(sensors, logData)[j])
    ensures spark.applied == config.periods && config.follow == old(config.follow)
    ensures spark.appliedFollow == config.follow
    ensures spark.configureCount == old(spark.configureCount) + 35
  {
    var status := ComputeLeaderStatus(hasFollower, sensors, logData);
    ApplyStatus(spark, config, status);
  }

  /**
   * `setupLoggingFollower`: follow the leader, configure once, then the fixed
   * follower table group by group with retries.
   */
  method SetupLoggingFollower(spark: Spark, leader: Spark, invert: bool, config: SparkConfig)
    requires |config.periods| == FrameCount
    modifies spark, config
    ensures config.follow == Some(Follow(leader.id, invert))
    ensures |config.periods| == FrameCount
    ensures forall j :: 0 <= j < FrameCount ==> config.periods[j] == Some(FollowerStatus[j])
    ensures spark.applied == config.periods && spark.appliedFollow == config.follow
    ensures spark.configureCount == old(spark.configureCount) + 36
  {
    config.SetFollow(leader.id, invert);
    spark.Configure(config);
    ApplyStatus(spark, config, FollowerStatus);
  }
}
