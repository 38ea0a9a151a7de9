/**
 * Vision measurement draining. Each camera holds a queue of unread pipeline
 * results; a drain reads and clears every queue, keeps only the latest frame
 * of each camera, filters that frame's targets by ambiguity and range, and
 * asks the camera's pose estimator for one measurement per accepted target.
 * The PhotonVision solvers, the field layout and the square root enter as
 * function values; the real and simulated providers differ only in the
 * timestamp they attach.
 */
module Vision {
  import opened Wrappers

  datatype Pose2d = Pose2d(x: real, y: real, heading: real)
  datatype Pose3d = Pose3d(x: real, y: real, z: real, roll: real, pitch: real, yaw: real)
  datatype Transform3d = Transform3d(x: real, y: real, z: real, roll: real, pitch: real, yaw: real)

  /** A tracked AprilTag: pose ambiguity (-1 when unknown), camera-to-tag transform, tag id. */
  datatype Target = Target(ambiguity: real, cameraToTarget: Transform3d, fiducialId: int)

  /** One frame from a camera pipeline. */
  datatype PipelineResult = PipelineResult(timestampSeconds: real, targets: seq<Target>)
  {
    predicate HasTargets() {
      |targets| > 0
    }
  }

  /** A field pose with the time it is attributed to. */
  datatype Measurement = Measurement(pose: Pose2d, timestampSeconds: real)

  datatype CameraConfig = CameraConfig(name: string, robotToCamera: Transform3d)

  /** The provider configuration; the simulation properties only configure the simulated cameras. */
  datatype Config = Config(cameras: seq<CameraConfig>, maxAmbiguity: real, maxDistanceMeters: real,
                           width: int, height: int, fovDeg: real, fps: int,
                           avgLatencyMs: real, latencyStdDevMs: real)

  /** What one pose-estimator call on a frame does: throw, find nothing, or find a pose. */
  datatype SolverOutcome = Throws | NoEstimate | Estimate(pose: Pose2d)

  /** The pose estimator of camera `c`, for its `j`-th call in a drain, on a frame, given the reference pose. */
  type SolverFn = (nat, nat, Pose2d, PipelineResult) -> SolverOutcome

  /** The ambiguity and range filter: ambiguity at most the bound and not -1, distance strictly below the bound. */
  predicate Accepted(cfg: Config, sqrt: real -> real, t: Target) {
    var d := t.cameraToTarget;
    (t.ambiguity <= cfg.maxAmbiguity && t.ambiguity != -1.0)
    && sqrt(d.x * d.x + d.y * d.y + d.z * d.z) < cfg.maxDistanceMeters
  }

  /** What reading a camera's unread queue yields: `None` when the read throws. */
  type Fetch = Option<seq<PipelineResult>>

  /** The frame the drain uses: the last of the unread results, if any were read. */
  function Latest(fetched: Fetch): (r: Option<PipelineResult>)
    ensures r.Some? <==> fetched.Some? && |fetched.value| > 0
    ensures r.Some? ==> r.value == fetched.value[|fetched.value| - 1]
  {
    match fetched
    case None => None
    case Some(results) => if |results| == 0 then None else Some(results[|results| - 1])
  }

  /** Measurements from the first `k` targets of one frame, and whether an exception ended the camera. */
  datatype Scan = Scan(out: seq<Measurement>, aborted: bool)

  function ScanTargets(cfg: Config, sqrt: real -> real, solver: SolverFn, c: nat, reference: Pose2d,
                       frame: PipelineResult, stamp: real, k: nat): Scan
    requires k <= |frame.targets|
  {
    if k == 0 then Scan([], false)
    else
      var previous := ScanTargets(cfg, sqrt, solver, c, reference, frame, stamp, k - 1);
      if previous.aborted || !Accepted(cfg, sqrt, frame.targets[k - 1]) then previous
      else match solver(c, k - 1, reference, frame)
        case Throws => Scan(previous.out, true)
        case NoEstimate => previous
        case Estimate(pose) => Scan(previous.out + [Measurement(pose, stamp)], false)
  }

  /** Number of targets among the first `k` that pass the filter. */
  function CountAccepted(cfg: Config, sqrt: real -> real, targets: seq<Target>, k: nat): (n: nat)
    requires k <= |targets|
    ensures n <= k
  {
    if k == 0 then 0
    else CountAccepted(cfg, sqrt, targets, k - 1) + (if Accepted(cfg, sqrt, targets[k - 1]) then 1 else 0)
  }

  /** The timestamp a measurement from `frame` carries: the capture time, or the clock in simulation. */
  function Stamp(sim: bool, now: real, frame: PipelineResult): real {
    if sim then now else frame.timestampSeconds
  }

  /** One camera's contribution to a drain. */
  function CameraOutput(cfg: Config, sqrt: real -> real, solver: SolverFn, sim: bool, now: real,
                        reference: Pose2d, c: nat, fetched: Fetch): seq<Measurement>
  {
    match Latest(fetched)
    case None => []
    case Some(frame) =>
      if !frame.HasTargets() then []
      else ScanTargets(cfg, sqrt, solver, c, reference, frame, Stamp(sim, now, frame), |frame.targets|).out
  }

  /** The measurements of the first `n` cameras, in camera order. */
  function DrainSpec(cfg: Config, sqrt: real -> real, solver: SolverFn, sim: bool, now: real,
                     reference: Pose2d, fetched: seq<Fetch>, n: nat): seq<Measurement>
    requires n <= |fetched|
  {
    if n == 0 then []
    else DrainSpec(cfg, sqrt, solver, sim, now, reference, fetched, n - 1)
         + CameraOutput(cfg, sqrt, solver, sim, now, reference, n - 1, fetched[n - 1])
  }

  /** Targets in a camera's latest unread frame; none when the read throws or nothing is unread. */
  function FrameTargets(fetched: Fetch): nat {
    match Latest(fetched)
    case None => 0
    case Some(f) => |f.targets|
  }

  /** Targets in the latest frame of each of the first `n` cameras. */
  function LatestTargets(fetched: seq<Fetch>, n: nat): nat
    requires n <= |fetched|
  {
    if n == 0 then 0
    else LatestTargets(fetched, n - 1) + FrameTargets(fetched[n - 1])
  }

  /** Once a camera's scan has aborted, later targets add nothing. */
  lemma {:induction false} AbortStops(cfg: Config, sqrt: real -> real, solver: SolverFn, c: nat, reference: Pose2d,
                                      frame: PipelineResult, stamp: real, j: nat, k: nat)
    requires j <= k <= |frame.targets|
    requires ScanTargets(cfg, sqrt, solver, c, reference, frame, stamp, j).aborted
    ensures ScanTargets(cfg, sqrt, solver, c, reference, frame, stamp, k)
            == ScanTargets(cfg, sqrt, solver, c, reference, frame, stamp, j)
    decreases k
  {
    if k > j {
      AbortStops(cfg, sqrt, solver, c, reference, frame, stamp, j, k - 1);
    }
  }

  /** Measurements added before an exception stay: each scan extends the earlier ones. */
  lemma {:induction false} ScanExtends(cfg: Config, sqrt: real -> real, solver: SolverFn, c: nat, reference: Pose2d,
                                       frame: PipelineResult, stamp: real, j: nat, k: nat)
    requires j <= k <= |frame.targets|
    ensures ScanTargets(cfg, sqrt, solver, c, reference, frame, stamp, j).out
            <= ScanTargets(cfg, sqrt, solver, c, reference, frame, stamp, k).out
    decreases k
  {
    if k > j {
      ScanExtends(cfg, sqrt, solver, c, reference, frame, stamp, j, k - 1);
    }
  }

  /** At most one measurement per accepted target, each stamped with `stamp`. */
  lemma {:induction false} ScanBound(cfg: Config, sqrt: real -> real, solver: SolverFn, c: nat, reference: Pose2d,
                                     frame: PipelineResult, stamp: real, k: nat)
    requires k <= |frame.targets|
    ensures |ScanTargets(cfg, sqrt, solver, c, reference, frame, stamp, k).out|
            <= CountAccepted(cfg, sqrt, frame.targets, k)
    ensures forall m :: m in ScanTargets(cfg, sqrt, solver, c, reference, frame, stamp, k).out ==>
              m.timestampSeconds == stamp
  {
    if k > 0 {
      ScanBound(cfg, sqrt, solver, c, reference, frame, stamp, k - 1);
    }
  }

  /** A frame in which no target passes the filter yields nothing. */
  lemma {:induction false} NoneAcceptedNoneOut(cfg: Config, sqrt: real -> real, solver: SolverFn, c: nat,
                                               reference: Pose2d, frame: PipelineResult, stamp: real, k: nat)
    requires k <= |frame.targets|
    requires forall j :: 0 <= j < k ==> !Accepted(cfg, sqrt, frame.targets[j])
    ensures ScanTargets(cfg, sqrt, solver, c, reference, frame, stamp, k) == Scan([], false)
  {
    if k > 0 {
      NoneAcceptedNoneOut(cfg, sqrt, solver, c, reference, frame, stamp, k - 1);
    }
  }

  /** Only the last unread result counts: older ones are read and dropped. */
  lemma OlderResultsIgnored(cfg: Config, sqrt: real -> real, solver: SolverFn, sim: bool, now: real,
                            reference: Pose2d, c: nat, older: seq<PipelineResult>, latest: PipelineResult)
    ensures CameraOutput(cfg, sqrt, solver, sim, now, reference, c, Some(older + [latest]))
            == CameraOutput(cfg, sqrt, solver, sim, now, reference, c, Some([latest]))
  {
  }

  /** A camera whose read throws, or which has nothing unread, adds nothing. */
  lemma SilentCameras(cfg: Config, sqrt: real -> real, solver: SolverFn, sim: bool, now: real,
                      reference: Pose2d, c: nat, frame: PipelineResult)
    ensures CameraOutput(cfg, sqrt, solver, sim, now, reference, c, None) == []
    ensures CameraOutput(cfg, sqrt, solver, sim, now, reference, c, Some([])) == []
    ensures !frame.HasTargets() ==> CameraOutput(cfg, sqrt, solver, sim, now, reference, c, Some([frame])) == []
  {
  }

  /**
   * The drain lists cameras in order: the first `c` cameras' measurements
   * come first, whatever the later cameras do.
   */
  lemma {:induction false} DrainInCameraOrder(cfg: Config, sqrt: real -> real, solver: SolverFn, sim: bool, now: real,
                                              reference: Pose2d, fetched: seq<Fetch>, c: nat, n: nat)
    requires c <= n <= |fetched|
    ensures DrainSpec(cfg, sqrt, solver, sim, now, reference, fetched, c)
            <= DrainSpec(cfg, sqrt, solver, sim, now, reference, fetched, n)
    decreases n
  {
    if n > c {
      var before := DrainSpec(cfg, sqrt, solver, sim, now, reference, fetched, n - 1);
      DrainInCameraOrder(cfg, sqrt, solver, sim, now, reference, fetched, c, n - 1);
      assert before <= DrainSpec(cfg, sqrt, solver, sim, now, reference, fetched, n);
    }
  }

  /**
   * A camera adds at most one measurement per target of its latest frame,
   * each stamped as that frame's stamp says.
   */
  lemma CameraBound(cfg: Config, sqrt: real -> real, solver: SolverFn, sim: bool, now: real,
                    reference: Pose2d, c: nat, fetched: Fetch)
    ensures |CameraOutput(cfg, sqrt, solver, sim, now, reference, c, fetched)| <= FrameTargets(fetched)
    ensures forall m :: m in CameraOutput(cfg, sqrt, solver, sim, now, reference, c, fetched) ==>
              Latest(fetched).Some? && m.timestampSeconds == Stamp(sim, now, Latest(fetched).value)
  {
    match Latest(fetched)
    case None =>
    case Some(frame) =>
      if frame.HasTargets() {
        var stamp := Stamp(sim, now, frame);
        ScanBound(cfg, sqrt, solver, c, reference, frame, stamp, |frame.targets|);
      }
  }

  /** At most one measurement per target of the latest frames; in simulation every stamp is the clock. */
  lemma {:induction false} DrainBound(cfg: Config, sqrt: real -> real, solver: SolverFn, sim: bool, now: real,
                                      reference: Pose2d, fetched: seq<Fetch>, n: nat)
    requires n <= |fetched|
    ensures |DrainSpec(cfg, sqrt, solver, sim, now, reference, fetched, n)| <= LatestTargets(fetched, n)
    ensures sim ==> forall m :: m in DrainSpec(cfg, sqrt, solver, sim, now, reference, fetched, n) ==>
              m.timestampSeconds == now
  {
    if n > 0 {
      var before := DrainSpec(cfg, sqrt, solver, sim, now, reference, fetched, n - 1);
      var here := CameraOutput(cfg, sqrt, solver, sim, now, reference, n - 1, fetched[n - 1]);
      DrainBound(cfg, sqrt, solver, sim, now, reference, fetched, n - 1);
      CameraBound(cfg, sqrt, solver, sim, now, reference, n - 1, fetched[n - 1]);
      assert DrainSpec(cfg, sqrt, solver, sim, now, reference, fetched, n) == before + here;
      if sim {
        forall m: Measurement | m in before + here
          ensures m.timestampSeconds == now
        {
          if m !in before {
            assert m in here;
          }
        }
      }
    }
  }

  /** Outside simulation a camera's measurements carry its latest frame's capture time. */
  lemma RealStampsAreCaptureTimes(cfg: Config, sqrt: real -> real, solver: SolverFn, now: real,
                                  reference: Pose2d, c: nat, fetched: Fetch)
    ensures forall m :: m in CameraOutput(cfg, sqrt, solver, false, now, reference, c, fetched) ==>
              Latest(fetched).Some? && m.timestampSeconds == Latest(fetched).value.timestampSeconds
  {
    CameraBound(cfg, sqrt, solver, false, now, reference, c, fetched);
  }

  /** The start pose from the first `k` cameras: the first whose best target's tag is in the layout. */
  function StartPoseFrom(bestTarget: PipelineResult -> Option<Target>, tagPose: int -> Option<Pose3d>,
                         fieldToRobot: (Transform3d, Pose3d, Transform3d) -> Pose2d,
                         configs: seq<CameraConfig>, fetched: seq<Fetch>, k: nat): Option<Pose2d>
    requires k <= |fetched| == |configs|
  {
    if k == 0 then None
    else
      var earlier := StartPoseFrom(bestTarget, tagPose, fieldToRobot, configs, fetched, k - 1);
      if earlier.Some? then earlier
      else CameraStartPose(bestTarget, tagPose, fieldToRobot, configs[k - 1], fetched[k - 1])
  }

  /** One camera's candidate start pose. */
  function CameraStartPose(bestTarget: PipelineResult -> Option<Target>, tagPose: int -> Option<Pose3d>,
                           fieldToRobot: (Transform3d, Pose3d, Transform3d) -> Pose2d,
                           config: CameraConfig, fetched: Fetch): Option<Pose2d>
  {
    match Latest(fetched)
    case None => None
    case Some(frame) =>
      if !frame.HasTargets() then None
      else match bestTarget(frame)
        case None => None
        case Some(t) =>
          match tagPose(t.fiducialId)
          case None => None
          case Some(tag) => Some(fieldToRobot(t.cameraToTarget, tag, config.robotToCamera))
  }

  /** The start pose is the first camera's candidate, in configuration order, or empty when none has one. */
  lemma {:induction false} StartPoseIsFirstCandidate(bestTarget: PipelineResult -> Option<Target>,
                                                     tagPose: int -> Option<Pose3d>,
                                                     fieldToRobot: (Transform3d, Pose3d, Transform3d) -> Pose2d,
                                                     configs: seq<CameraConfig>, fetched: seq<Fetch>, k: nat)
    requires k <= |fetched| == |configs|
    ensures StartPoseFrom(bestTarget, tagPose, fieldToRobot, configs, fetched, k).None? <==>
            forall c :: 0 <= c < k ==> CameraStartPose(bestTarget, tagPose, fieldToRobot, configs[c], fetched[c]).None?
    ensures StartPoseFrom(bestTarget, tagPose, fieldToRobot, configs, fetched, k).Some? ==>
            exists c :: 0 <= c < k &&
              StartPoseFrom(bestTarget, tagPose, fieldToRobot, configs, fetched, k)
                == CameraStartPose(bestTarget, tagPose, fieldToRobot, configs[c], fetched[c]) &&
              forall e :: 0 <= e < c ==> CameraStartPose(bestTarget, tagPose, fieldToRobot, configs[e], fetched[e]).None?
  {
    if k > 0 {
      StartPoseIsFirstCandidate(bestTarget, tagPose, fieldToRobot, configs, fetched, k - 1);
    }
  }

  /**
   * A camera: its configuration, its queue of unread results and whether
   * reading the queue currently throws. New frames and transport faults
   * arrive under the model.
   */
  class Camera {
    const config: CameraConfig
    var unread: seq<PipelineResult>
    var failing: bool

    constructor (config: CameraConfig)
      ensures this.config == config && unread == [] && !failing
    {
      this.config := config;
      unread := [];
      failing := false;
    }

    /** What a read of the queue yields, without reading it. */
    function Pending(): Fetch
      reads this
    {
      if failing then None else Some(unread)
    }

    /** `getAllUnreadResults`: return the queue and clear it; a failing read throws and keeps it. */
    method GetAllUnreadResults() returns (r: Fetch)
      modifies this
      ensures r == old(Pending())
      ensures unread == (if failing then old(unread) else []) && failing == old(failing)
    {
      if failing {
        r := None;
      } else {
        r := Some(unread);
        unread := [];
      }
    }
  }

  /**
   * A PhotonVision provider over the configured cameras. `sim` selects the
   * simulated provider, whose measurements carry the clock reading.
   */
  class Provider {
    const sim: bool
    const cfg: Config
    const cameras: seq<Camera>
    const sqrt: real -> real
    const solver: SolverFn
    const bestTarget: PipelineResult -> Option<Target>
    const tagPose: int -> Option<Pose3d>
    const fieldToRobot: (Transform3d, Pose3d, Transform3d) -> Pose2d

    ghost predicate Valid() {
      && |cameras| == |cfg.cameras|
      && (forall c :: 0 <= c < |cameras| ==> cameras[c].config == cfg.cameras[c])
      && (forall c, e :: 0 <= c < e < |cameras| ==> cameras[c] != cameras[e])
    }

    /** What a read of every camera's queue would yield, in camera order. */
    ghost function Pending(): (q: seq<Fetch>)
      reads this, cameras
      ensures |q| == |cameras|
      ensures forall c :: 0 <= c < |cameras| ==> q[c] == cameras[c].Pending()
    {
      PendingOf(cameras)
    }

    /** One camera per configuration entry, in order, each with an empty queue. */
    constructor (sim: bool, cfg: Config, sqrt: real -> real, solver: SolverFn,
                 bestTarget: PipelineResult -> Option<Target>, tagPose: int -> Option<Pose3d>,
                 fieldToRobot: (Transform3d, Pose3d, Transform3d) -> Pose2d)
      ensures Valid() && this.sim == sim && this.cfg == cfg
      ensures this.sqrt == sqrt && this.solver == solver
      ensures this.bestTarget == bestTarget && this.tagPose == tagPose && this.fieldToRobot == fieldToRobot
      ensures forall c :: 0 <= c < |cameras| ==> fresh(cameras[c]) && cameras[c].unread == [] && !cameras[c].failing
    {
      this.sim, this.cfg, this.sqrt, this.solver := sim, cfg, sqrt, solver;
      this.bestTarget, this.tagPose, this.fieldToRobot := bestTarget, tagPose, fieldToRobot;
      var list: seq<Camera> := [];
      var i := 0;
      while i < |cfg.cameras|
        invariant 0 <= i <= |cfg.cameras| && |list| == i
        invariant forall c :: 0 <= c < i ==> fresh(list[c]) && list[c].config == cfg.cameras[c]
        invariant forall c :: 0 <= c < i ==> list[c].unread == [] && !list[c].failing
        invariant forall c, e :: 0 <= c < e < i ==> list[c] != list[e]
      {
        var camera := new Camera(cfg.cameras[i]);
        list := list + [camera];
        i := i + 1;
      }
      cameras := list;
    }

    /**
     * `drainMeasurements`: read every camera's queue in order and keep the
     * measurements of its latest frame. Every queue that could be read is
     * now empty.
     */
    method DrainMeasurements(reference: Pose2d, now: real) returns (out: seq<Measurement>)
      requires Valid()
      modifies cameras
      ensures out == DrainSpec(cfg, sqrt, solver, sim, now, reference, old(Pending()), |cameras|)
      ensures forall c :: 0 <= c < |cameras| ==>
                cameras[c].failing == old(cameras[c].failing) &&
                cameras[c].unread == if cameras[c].failing then old(cameras[c].unread) else []
    {
      ghost var queues := Pending();
      out := [];
      var c := 0;
      while c < |cameras|
        invariant 0 <= c <= |cameras|
        invariant out == DrainSpec(cfg, sqrt, solver, sim, now, reference, queues, c)
        invariant forall e :: 0 <= e < |cameras| ==>
                    cameras[e].failing == old(cameras[e].failing) &&
                    cameras[e].unread == if e < c && !cameras[e].failing then [] else old(cameras[e].unread)
      {
        out := DrainAt(c, out, queues, reference, now);
        forall e | 0 <= e < |cameras| && e != c
          ensures cameras[e].failing == old(cameras[e].failing)
          ensures cameras[e].unread == if e < c && !cameras[e].failing then [] else old(cameras[e].unread)
        {
          assert if e < c then cameras[e] != cameras[c] else cameras[c] != cameras[e];
        }
        c := c + 1;
      }
    }

    /** The drain loop's pass over camera `c`: read its queue, then append what its latest frame yields. */
    method DrainAt(c: nat, before: seq<Measurement>, ghost queues: seq<Fetch>, reference: Pose2d, now: real)
      returns (out: seq<Measurement>)
      requires c < |cameras| == |queues|
      requires before == DrainSpec(cfg, sqrt, solver, sim, now, reference, queues, c)
      requires queues[c] == cameras[c].Pending()
      modifies cameras[c]
      ensures out == DrainSpec(cfg, sqrt, solver, sim, now, reference, queues, c + 1)
      ensures cameras[c].failing == old(cameras[c].failing)
      ensures cameras[c].unread == if cameras[c].failing then old(cameras[c].unread) else []
    {
      var fetched := cameras[c].GetAllUnreadResults();
      out := DrainCamera(before, c, fetched, reference, now);
    }

    /** The body of the drain loop for camera `c`: append what its latest frame yields. */
    method DrainCamera(before: seq<Measurement>, c: nat, fetched: Fetch, reference: Pose2d, now: real)
      returns (out: seq<Measurement>)
      ensures out == before + CameraOutput(cfg, sqrt, solver, sim, now, reference, c, fetched)
    {
      out := before;
      if fetched.None? || |fetched.value| == 0 {
        return;
      }
      var latest := fetched.value[|fetched.value| - 1];
      if !latest.HasTargets() {
        return;
      }
      var stamp := if sim then now else latest.timestampSeconds;
      var j := 0;
      var aborted := false;
      while j < |latest.targets| && !aborted
        invariant 0 <= j <= |latest.targets|
        invariant ScanTargets(cfg, sqrt, solver, c, reference, latest, stamp, j).aborted == aborted
        invariant out == before + ScanTargets(cfg, sqrt, solver, c, reference, latest, stamp, j).out
      {
        var target := latest.targets[j];
        if Accepted(cfg, sqrt, target) {
          match solver(c, j, reference, latest)
          case Throws =>
            aborted := true;
          case NoEstimate =>
          case Estimate(pose) =>
            out := out + [Measurement(pose, stamp)];
        }
        j := j + 1;
      }
      if aborted {
        AbortStops(cfg, sqrt, solver, c, reference, latest, stamp, j, |latest.targets|);
      }
    }

    /**
     * `bestStartPose`: read the cameras' queues in order until one yields a
     * candidate pose; the cameras after it are not read.
     */
    method BestStartPose() returns (r: Option<Pose2d>, ghost stoppedAt: nat)
      requires Valid()
      modifies cameras
      ensures r == StartPoseFrom(bestTarget, tagPose, fieldToRobot, cfg.cameras, old(Pending()), |cameras|)
      ensures stoppedAt <= |cameras|
      ensures r.None? ==> stoppedAt == |cameras|
      ensures r.Some? ==>
                && 0 < stoppedAt
                && StartPoseFrom(bestTarget, tagPose, fieldToRobot, cfg.cameras, old(Pending()), stoppedAt - 1).None?
                && StartPoseFrom(bestTarget, tagPose, fieldToRobot, cfg.cameras, old(Pending()), stoppedAt).Some?
      ensures forall c :: 0 <= c < |cameras| ==>
                cameras[c].failing == old(cameras[c].failing) &&
                cameras[c].unread == if c < stoppedAt && !cameras[c].failing then [] else old(cameras[c].unread)
    {
      ghost var queues := Pending();
      r, stoppedAt := SearchCameras(queues);
      SearchFindsFirst(bestTarget, tagPose, fieldToRobot, cfg.cameras, queues, 0);
    }

    /** The start-pose loop over the cameras, stopping at the first candidate. */
    method SearchCameras(ghost queues: seq<Fetch>) returns (r: Option<Pose2d>, ghost stoppedAt: nat)
      requires Valid() && queues == Pending()
      modifies cameras
      ensures (r, stoppedAt) == SearchFrom(bestTarget, tagPose, fieldToRobot, cfg.cameras, queues, 0)
      ensures forall c :: 0 <= c < |cameras| ==>
                cameras[c].failing == old(cameras[c].failing) &&
                cameras[c].unread == if c < stoppedAt && !cameras[c].failing then [] else old(cameras[c].unread)
    {
      r := None;
      var c := 0;
      while c < |cameras| && r.None?
        invariant 0 <= c <= |cameras|
        invariant (if r.None? then SearchFrom(bestTarget, tagPose, fieldToRobot, cfg.cameras, queues, c) else (r, c))
                  == SearchFrom(bestTarget, tagPose, fieldToRobot, cfg.cameras, queues, 0)
        invariant forall e :: 0 <= e < |cameras| ==>
                    cameras[e].failing == old(cameras[e].failing) &&
                    cameras[e].unread == if e < c && !cameras[e].failing then [] else old(cameras[e].unread)
      {
        r := StartPoseAt(c, queues);
        forall e | 0 <= e < |cameras| && e != c
          ensures cameras[e].failing == old(cameras[e].failing)
          ensures cameras[e].unread == if e < c && !cameras[e].failing then [] else old(cameras[e].unread)
        {
          assert if e < c then cameras[e] != cameras[c] else cameras[c] != cameras[e];
        }
        c := c + 1;
      }
      stoppedAt := c;
    }

    /** The start-pose loop's pass over camera `c`: read its queue and take its candidate. */
    method StartPoseAt(c: nat, ghost queues: seq<Fetch>) returns (r: Option<Pose2d>)
      requires c < |cameras| == |queues| == |cfg.cameras|
      requires queues[c] == cameras[c].Pending()
      modifies cameras[c]
      ensures r == CameraStartPose(bestTarget, tagPose, fieldToRobot, cfg.cameras[c], queues[c])
      ensures cameras[c].failing == old(cameras[c].failing)
      ensures cameras[c].unread == if cameras[c].failing then old(cameras[c].unread) else []
    {
      var fetched := cameras[c].GetAllUnreadResults();
      r := CameraCandidate(c, fetched);
    }

    /** The body of the start-pose loop for camera `c`. */
    method CameraCandidate(c: nat, fetched: Fetch) returns (r: Option<Pose2d>)
      requires c < |cfg.cameras|
      ensures r == CameraStartPose(bestTarget, tagPose, fieldToRobot, cfg.cameras[c], fetched)
    {
      if fetched.None? || |fetched.value| == 0 {
        return None;
      }
      var latest := fetched.value[|fetched.value| - 1];
      if !latest.HasTargets() {
        return None;
      }
      var target := bestTarget(latest);
      if target.None? {
        return None;
      }
      var tag := tagPose(target.value.fiducialId);
      if tag.Some? {
        return Some(fieldToRobot(target.value.cameraToTarget, tag.value, cfg.cameras[c].robotToCamera));
      }
      return None;
    }
  }

  /** What a read of each camera's queue would yield. */
  ghost function PendingOf(cams: seq<Camera>): (q: seq<Fetch>)
    reads cams
    ensures |q| == |cams|
    ensures forall c :: 0 <= c < |cams| ==> q[c] == cams[c].Pending()
  {
    if |cams| == 0 then [] else PendingOf(cams[..|cams| - 1]) + [cams[|cams| - 1].Pending()]
  }

  /** Once a start pose is found among the first `j` cameras, later cameras do not change it. */
  lemma {:induction false} StartPoseStays(bestTarget: PipelineResult -> Option<Target>, tagPose: int -> Option<Pose3d>,
                                          fieldToRobot: (Transform3d, Pose3d, Transform3d) -> Pose2d,
                                          configs: seq<CameraConfig>, fetched: seq<Fetch>, j: nat, k: nat)
    requires j <= k <= |fetched| == |configs|
    requires StartPoseFrom(bestTarget, tagPose, fieldToRobot, configs, fetched, j).Some?
    ensures StartPoseFrom(bestTarget, tagPose, fieldToRobot, configs, fetched, k)
            == StartPoseFrom(bestTarget, tagPose, fieldToRobot, configs, fetched, j)
    decreases k
  {
    if k > j {
      StartPoseStays(bestTarget, tagPose, fieldToRobot, configs, fetched, j, k - 1);
    }
  }

  /**
   * The start-pose loop from camera `c` on: the first candidate found and
   * the number of cameras read by then, or nothing after reading them all.
   */
  function SearchFrom(bestTarget: PipelineResult -> Option<Target>, tagPose: int -> Option<Pose3d>,
                      fieldToRobot: (Transform3d, Pose3d, Transform3d) -> Pose2d,
                      configs: seq<CameraConfig>, fetched: seq<Fetch>, c: nat): (Option<Pose2d>, nat)
    requires c <= |fetched| == |configs|
    decreases |fetched| - c
  {
    if c == |fetched| then (None, c)
    else
      var found := CameraStartPose(bestTarget, tagPose, fieldToRobot, configs[c], fetched[c]);
      if found.Some? then (found, c + 1) else SearchFrom(bestTarget, tagPose, fieldToRobot, configs, fetched, c + 1)
  }

  /**
   * Searching from a camera before which there is no candidate finds the
   * start pose, and stops right after the first camera that has one.
   */
  lemma {:induction false} SearchFindsFirst(bestTarget: PipelineResult -> Option<Target>, tagPose: int -> Option<Pose3d>,
                                            fieldToRobot: (Transform3d, Pose3d, Transform3d) -> Pose2d,
                                            configs: seq<CameraConfig>, fetched: seq<Fetch>, c: nat)
    requires c <= |fetched| == |configs|
    requires StartPoseFrom(bestTarget, tagPose, fieldToRobot, configs, fetched, c).None?
    ensures var search := SearchFrom(bestTarget, tagPose, fieldToRobot, configs, fetched, c);
            && c <= search.1 <= |fetched|
            && search.0 == StartPoseFrom(bestTarget, tagPose, fieldToRobot, configs, fetched, |fetched|)
            && (search.0.None? ==> search.1 == |fetched|)
            && (search.0.Some? ==>
                  && 0 < search.1
                  && StartPoseFrom(bestTarget, tagPose, fieldToRobot, configs, fetched, search.1 - 1).None?
                  && StartPoseFrom(bestTarget, tagPose, fieldToRobot, configs, fetched, search.1).Some?)
    decreases |fetched| - c
  {
    if c < |fetched| {
      if CameraStartPose(bestTarget, tagPose, fieldToRobot, configs[c], fetched[c]).Some? {
        StartPoseStays(bestTarget, tagPose, fieldToRobot, configs, fetched, c + 1, |fetched|);
      } else {
        SearchFindsFirst(bestTarget, tagPose, fieldToRobot, configs, fetched, c + 1);
      }
    }
  }
}
