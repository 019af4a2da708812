/** The per-frame decision logic of the motion detector's main loop: the
    duty-cycle phase, the reset on a phase change, the buffer flag, contour
    detection in the active phase and the debounced actuator trigger. Times
    are integer milliseconds since the recording started. */
module MotionLoop {
  import opened Contours

  /** `recording_duration`: 60 s. */
  const RecordingMs: int := 60000
  /** `cycle_duration`: 6 s paused, then 6 s active. */
  const CycleMs: int := 6000
  /** `state_change_buffer_time`: 2 s. */
  const BufferMs: int := 2000
  /** `motion_cooldown`: 2 s between triggers. */
  const CooldownMs: int := 2000
  /** Summed group area above which motion triggers the actuator. */
  const TriggerArea: real := 10000.0
  /** `depth_frame_skip`: depth is estimated on every fifth frame. */
  const DepthFrameSkip: int := 5

  /** Learning rates handed to the background models. */
  const BufferLearningRate: real := 0.3
  const ActiveLearningRate: real := 0.002
  const PauseLearningRate: real := 0.01

  /** `(elapsed mod 2C) >= C`: detection is active in the second half of
      every period. */
  predicate Active(elapsed: int) {
    elapsed % (2 * CycleMs) >= CycleMs
  }

  /** The state the loop carries from frame to frame. `activeGeneration` and
      `pauseGeneration` count how often each background model has been
      created afresh; `depthMapPresent` whether `last_depth_map` holds a map;
      `running` whether the loop has not yet broken out. */
  datatype Carry = Carry(
    running: bool,
    previousDetectionState: bool,
    stateChangeTime: int,
    lastMotionTrigger: int,
    contourGroups: seq<seq<Contour>>,
    frameCounter: nat,
    activeGeneration: nat,
    pauseGeneration: nat,
    depthMapPresent: bool)

  /** The values the loop holds before its first frame. */
  const Initial: Carry := Carry(true, false, 0, 0, [], 0, 0, 0, false)

  /** The result of contour detection on one active frame. */
  datatype Detection = Detection(
    groups: seq<seq<Contour>>,
    points: seq<MotionPoint>,
    totalArea: real,
    motionDetected: bool)

  /** What one frame did: the loop broke out, or the frame was processed. */
  datatype Outcome =
    | Finished
    | Processed(
        active: bool,
        changed: bool,
        inBuffer: bool,
        learningRate: real,
        motionDetected: bool,
        points: seq<MotionPoint>,
        totalArea: real,
        fired: bool)

  function Points(gs: seq<seq<Contour>>): (r: seq<MotionPoint>)
    requires forall k :: 0 <= k < |gs| ==> Area(gs[k]) > 0.0
    ensures |r| == |gs| && forall k :: 0 <= k < |gs| ==> r[k] == Centroid(gs[k])
  {
    seq(|gs|, k requires 0 <= k < |gs| => Centroid(gs[k]))
  }

  /** Filter, group and aggregate the frame's foreground contours. */
  function Detect(contours: seq<Contour>): (d: Detection)
    ensures GroupsOk(d.groups)
  {
    var gs := ContourGroups(Filter(Filter(contours, IsValid), HasCentroid));
    Detection(gs, Points(gs), TotalArea(gs), |gs| > 0)
  }

  /** How a processed frame stands to the duty cycle. */
  datatype Phase = Phase(active: bool, changed: bool, inBuffer: bool)

  /** The start of a processed frame: count it, maybe refresh the depth map,
      compute the phase and, when it changed, record the time, empty the
      contour groups and create the entered phase's background model afresh. */
  function Enter(midasLoaded: bool, s: Carry, elapsed: int, depthOk: bool): (Carry, Phase) {
    var counter := s.frameCounter + 1;
    var active := Active(elapsed);
    var changed := active != s.previousDetectionState;
    var s1 := s.(frameCounter := counter,
                 depthMapPresent := s.depthMapPresent || (midasLoaded && counter % DepthFrameSkip == 0 && depthOk));
    var s2 := if !changed then s1
              else s1.(stateChangeTime := elapsed,
                       contourGroups := [],
                       activeGeneration := if active then s.activeGeneration + 1 else s.activeGeneration,
                       pauseGeneration := if active then s.pauseGeneration else s.pauseGeneration + 1);
    (s2, Phase(active, changed, changed && elapsed - s2.stateChangeTime < BufferMs))
  }

  /** The rest of a processed frame: detect and maybe fire when active and
      outside the buffer period, otherwise only empty the contour groups;
      then remember the phase. */
  function Conclude(s: Carry, ph: Phase, elapsed: int, d: Detection): (Carry, Outcome) {
    if ph.active && !ph.inBuffer then
      var fired := d.motionDetected && d.totalArea > TriggerArea && elapsed - s.lastMotionTrigger > CooldownMs;
      (s.(lastMotionTrigger := if fired then elapsed else s.lastMotionTrigger,
          contourGroups := d.groups,
          previousDetectionState := ph.active),
       Processed(ph.active, ph.changed, ph.inBuffer, ActiveLearningRate, d.motionDetected, d.points, d.totalArea, fired))
    else
      (s.(contourGroups := [], previousDetectionState := ph.active),
       Processed(ph.active, ph.changed, ph.inBuffer, if ph.active then BufferLearningRate else PauseLearningRate,
                 false, [], 0.0, false))
  }

  /** One pass of the main loop on a frame: `frameRead` is whether the camera
      delivered it, `elapsed` the time since the start, `d` what contour
      detection yields on it (`Detect` of its foreground contours; it is only
      looked at on an active frame outside the buffer period), `depthOk`
      whether depth estimation would succeed on it and `quit` whether the
      'q' key is pressed while it is shown, which ends the loop after it. */
  function StepSpec(midasLoaded: bool, s: Carry, frameRead: bool, elapsed: int,
                    d: Detection, depthOk: bool, quit: bool): (Carry, Outcome)
  {
    if !s.running || !frameRead || elapsed >= RecordingMs then
      (s.(running := false), Finished)
    else
      var (s1, ph) := Enter(midasLoaded, s, elapsed, depthOk);
      var (s2, o) := Conclude(s1, ph, elapsed, d);
      (s2.(running := !quit), o)
  }

  /** Contour detection on an active frame outside the buffer period. */
  method DetectMotion(contours: seq<Contour>) returns (d: Detection)
    ensures d == Detect(contours)
  {
    var valid := FilterValid(contours);
    var centers, indexGroups := GroupNearby(valid);
    GroupingProperties(centers);
    var groups := ResolveAll(centers, indexGroups);
    assert groups == ContourGroups(centers);
    var points, totalArea, motionDetected := Aggregate(groups);
    d := Detection(groups, points, totalArea, motionDetected);
  }

  /** The main loop's state, updated frame by frame. */
  class Detector {
    /** Whether the depth model loaded (`midas is not None`). */
    const midasLoaded: bool
    var running: bool
    var previousDetectionState: bool
    var stateChangeTime: int
    var lastMotionTrigger: int
    var contourGroups: seq<seq<Contour>>
    var frameCounter: nat
    var activeGeneration: nat
    var pauseGeneration: nat
    var depthMapPresent: bool

    function State(): Carry
      reads this
    {
      Carry(running, previousDetectionState, stateChangeTime, lastMotionTrigger,
            contourGroups, frameCounter, activeGeneration, pauseGeneration, depthMapPresent)
    }

    /** Every stored contour group is a well-formed group. */
    predicate Valid()
      reads this
    {
      GroupsOk(contourGroups)
    }

    constructor(midasLoaded: bool)
      ensures this.midasLoaded == midasLoaded
      ensures State() == Initial && Valid()
    {
      this.midasLoaded := midasLoaded;
      running, previousDetectionState := true, false;
      stateChangeTime, lastMotionTrigger := 0, 0;
      contourGroups := [];
      frameCounter, activeGeneration, pauseGeneration := 0, 0, 0;
      depthMapPresent := false;
    }

    /** One iteration of the `while True` loop. */
    method Step(frameRead: bool, elapsed: int, contours: seq<Contour>, depthOk: bool, quit: bool)
      returns (outcome: Outcome)
      requires Valid()
      modifies this
      ensures Valid()
      ensures (State(), outcome) == StepSpec(midasLoaded, old(State()), frameRead, elapsed, Detect(contours), depthOk, quit)
    {
      if !running || !frameRead || elapsed >= RecordingMs {
        running := false;
        return Finished;
      }
      var phase := EnterFrame(elapsed, depthOk);
      outcome := ConcludeFrame(phase, elapsed, contours);
      if quit {
        running := false;
      }
    }

    method EnterFrame(elapsed: int, depthOk: bool) returns (phase: Phase)
      requires Valid()
      modifies this
      ensures Valid()
      ensures (State(), phase) == Enter(midasLoaded, old(State()), elapsed, depthOk)
    {
      frameCounter := frameCounter + 1;
      if midasLoaded && frameCounter % DepthFrameSkip == 0 && depthOk {
        depthMapPresent := true;
      }
      var cyclePosition := elapsed % (CycleMs * 2);
      var active := cyclePosition >= CycleMs;
      var changed := active != previousDetectionState;
      if changed {
        stateChangeTime := elapsed;
        contourGroups := [];
        if active {
          activeGeneration := activeGeneration + 1;
        } else {
          pauseGeneration := pauseGeneration + 1;
        }
      }
      var inBuffer := changed && elapsed - stateChangeTime < BufferMs;
      phase := Phase(active, changed, inBuffer);
    }

    method ConcludeFrame(phase: Phase, elapsed: int, contours: seq<Contour>) returns (outcome: Outcome)
      modifies this
      ensures Valid()
      ensures (State(), outcome) == Conclude(old(State()), phase, elapsed, Detect(contours))
    {
      var learningRate: real;
      var motionDetected, points, totalArea, fired := false, [], 0.0, false;
      if phase.active {
        if phase.inBuffer {
          learningRate := BufferLearningRate;
          contourGroups := [];
        } else {
          learningRate := ActiveLearningRate;
          var d := DetectMotion(contours);
          contourGroups, points, totalArea, motionDetected := d.groups, d.points, d.totalArea, d.motionDetected;
          if motionDetected && totalArea > TriggerArea && elapsed - lastMotionTrigger > CooldownMs {
            lastMotionTrigger := elapsed;
            fired := true;
          }
        }
      } else {
        learningRate := PauseLearningRate;
        contourGroups := [];
      }
      previousDetectionState := phase.active;
      outcome := Processed(phase.active, phase.changed, phase.inBuffer, learningRate,
                           motionDetected, points, totalArea, fired);
    }
  }
}
