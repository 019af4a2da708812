/** Properties of the motion detector's per-frame logic: the duty cycle, the
    reset on a phase change, the buffer flag, the trigger rule and the gap
    between triggers over any run of frames. */
module MotionProperties {
  import opened Contours
  import opened MotionLoop

  // ---------------------------------------------------------------------
  // Duty cycle

  /** The phase repeats every two cycles. */
  lemma ActivePeriodic(t: int)
    ensures Active(t + 2 * CycleMs) == Active(t)
  {
    assert (t + 2 * CycleMs) % (2 * CycleMs) == t % (2 * CycleMs);
  }

  /** Within every period the first cycle is paused and the second active. */
  lemma {:induction false} PhaseInPeriod(k: nat, r: int)
    requires 0 <= r < 2 * CycleMs
    ensures Active(2 * CycleMs * k + r) <==> r >= CycleMs
  {
    if k > 0 {
      PhaseInPeriod(k - 1, r);
      ActivePeriodic(2 * CycleMs * (k - 1) + r);
    }
  }

  // ---------------------------------------------------------------------
  // One frame

  /** A frame is processed exactly when the loop is running, the camera
      delivered it and the minute is not over; the loop keeps running after
      it unless, in addition, 'q' was pressed. */
  lemma ProcessedIff(midasLoaded: bool, s: Carry, frameRead: bool, elapsed: int, d: Detection, depthOk: bool, quit: bool)
    ensures StepSpec(midasLoaded, s, frameRead, elapsed, d, depthOk, quit).1.Processed?
        <==> s.running && frameRead && elapsed < RecordingMs
    ensures StepSpec(midasLoaded, s, frameRead, elapsed, d, depthOk, quit).0.running
        <==> s.running && frameRead && elapsed < RecordingMs && !quit
  {
  }

  /** Once the loop has broken out, no later frame is processed or changes
      anything. */
  lemma FinishedIsFinal(midasLoaded: bool, s: Carry, frameRead: bool, elapsed: int, d: Detection, depthOk: bool, quit: bool)
    requires !s.running
    ensures StepSpec(midasLoaded, s, frameRead, elapsed, d, depthOk, quit) == (s, Finished)
  {
  }

  /** On a processed frame the phase is `Active(elapsed)`, it counts as a
      change when it differs from the previous frame's, the frame counter
      goes up by one, and the buffer flag is exactly the change flag: the
      grace window after a phase change lasts this one frame. */
  lemma ProcessedFrame(midasLoaded: bool, s: Carry, elapsed: int, d: Detection, depthOk: bool, quit: bool)
    requires s.running && elapsed < RecordingMs
    ensures var (s', o) := StepSpec(midasLoaded, s, true, elapsed, d, depthOk, quit);
      && o.Processed?
      && o.active == Active(elapsed)
      && o.changed == (Active(elapsed) != s.previousDetectionState)
      && o.inBuffer == o.changed
      && s'.previousDetectionState == Active(elapsed)
      && s'.frameCounter == s.frameCounter + 1
  {
  }

  /** A phase change records the time, empties the contour groups and
      creates afresh the background model of the entered phase only. */
  lemma PhaseChangeResets(midasLoaded: bool, s: Carry, elapsed: int, d: Detection, depthOk: bool, quit: bool)
    requires s.running && elapsed < RecordingMs
    requires Active(elapsed) != s.previousDetectionState
    ensures var (s', o) := StepSpec(midasLoaded, s, true, elapsed, d, depthOk, quit);
      && s'.stateChangeTime == elapsed
      && s'.contourGroups == []
      && !o.motionDetected && !o.fired
      && (Active(elapsed) ==> s'.activeGeneration == s.activeGeneration + 1 && s'.pauseGeneration == s.pauseGeneration)
      && (!Active(elapsed) ==> s'.pauseGeneration == s.pauseGeneration + 1 && s'.activeGeneration == s.activeGeneration)
  {
  }

  /** Without a phase change neither background model is recreated and the
      change time stays. */
  lemma SteadyPhaseKeepsModels(midasLoaded: bool, s: Carry, elapsed: int, d: Detection, depthOk: bool, quit: bool)
    requires Active(elapsed) == s.previousDetectionState
    ensures var s' := StepSpec(midasLoaded, s, true, elapsed, d, depthOk, quit).0;
      && s'.activeGeneration == s.activeGeneration
      && s'.pauseGeneration == s.pauseGeneration
      && s'.stateChangeTime == s.stateChangeTime
  {
  }

  /** A paused frame empties the contour groups and never fires. */
  lemma PausedFrameDetectsNothing(midasLoaded: bool, s: Carry, elapsed: int, d: Detection, depthOk: bool, quit: bool)
    requires s.running && elapsed < RecordingMs && !Active(elapsed)
    ensures var (s', o) := StepSpec(midasLoaded, s, true, elapsed, d, depthOk, quit);
      && s'.contourGroups == []
      && !o.motionDetected && !o.fired
      && o.learningRate == PauseLearningRate
      && s'.lastMotionTrigger == s.lastMotionTrigger
  {
  }

  /** The trigger rule: a frame fires exactly when it is active and settled,
      detects motion, the summed area exceeds 10000 and more than the
      cooldown has passed since the last trigger; firing records the time. */
  lemma FireRule(midasLoaded: bool, s: Carry, frameRead: bool, elapsed: int, d: Detection, depthOk: bool, quit: bool)
    ensures var (s', o) := StepSpec(midasLoaded, s, frameRead, elapsed, d, depthOk, quit);
      && (o.Processed? && o.fired <==>
            && s.running && frameRead && elapsed < RecordingMs
            && Active(elapsed) && Active(elapsed) == s.previousDetectionState
            && o.motionDetected && o.totalArea > TriggerArea
            && elapsed - s.lastMotionTrigger > CooldownMs)
      && s'.lastMotionTrigger == (if o.Processed? && o.fired then elapsed else s.lastMotionTrigger)
  {
  }

  /** Motion is detected exactly when some group is kept; the total area is
      the sum of the kept groups' areas, and each kept group adds more than
      half the motion threshold to it. */
  lemma DetectionTotals(contours: seq<Contour>)
    ensures var d := Detect(contours);
      && (d.motionDetected <==> |d.groups| > 0)
      && d.totalArea == TotalArea(d.groups)
      && d.totalArea >= GroupMinArea * |d.groups| as real
      && |d.points| == |d.groups|
  {
    TotalAreaBound(Detect(contours).groups);
  }

  /** The same, for what a processed frame reports and stores. */
  lemma MotionMeansGroups(midasLoaded: bool, s: Carry, elapsed: int, contours: seq<Contour>, depthOk: bool, quit: bool)
    requires s.running && elapsed < RecordingMs
    ensures var (s', o) := StepSpec(midasLoaded, s, true, elapsed, Detect(contours), depthOk, quit);
      && (o.motionDetected <==> |s'.contourGroups| > 0)
      && o.totalArea == TotalArea(s'.contourGroups)
      && |o.points| == |s'.contourGroups|
  {
    DetectionTotals(contours);
  }

  /** The stored contour groups are always well formed. */
  lemma StepKeepsGroupsOk(midasLoaded: bool, s: Carry, frameRead: bool, elapsed: int, d: Detection, depthOk: bool, quit: bool)
    requires GroupsOk(s.contourGroups) && GroupsOk(d.groups)
    ensures GroupsOk(StepSpec(midasLoaded, s, frameRead, elapsed, d, depthOk, quit).0.contourGroups)
  {
  }

  /** Every contour of a detected group is one of the frame's contours, passes
      the validity filter and has a centroid. */
  lemma DetectedContoursAreValid(contours: seq<Contour>, a: int, k: int)
    requires 0 <= a < |Detect(contours).groups| && 0 <= k < |Detect(contours).groups[a]|
    ensures var c := Detect(contours).groups[a][k];
      c in contours && IsValid(c) && HasCentroid(c)
  {
    var centers := Filter(Filter(contours, IsValid), HasCentroid);
    GroupingProperties(centers);
    var g := GroupIndices(centers)[a];
    assert Detect(contours).groups[a] == Resolve(centers, g);
    assert Detect(contours).groups[a][k] == centers[g[k]];
  }

  // ---------------------------------------------------------------------
  // A run of frames

  /** One loop iteration's inputs. */
  datatype Frame = Frame(frameRead: bool, elapsed: int, detection: Detection, depthOk: bool, quit: bool)

  /** One frame of a run: the next state and the trigger time it adds, if
      any. */
  function Advance(midasLoaded: bool, s: Carry, f: Frame): (Carry, seq<int>) {
    var r := StepSpec(midasLoaded, s, f.frameRead, f.elapsed, f.detection, f.depthOk, f.quit);
    (r.0, if r.1.Processed? && r.1.fired then [f.elapsed] else [])
  }

  /** The loop over a sequence of frames: the final state and the times at
      which the actuator was triggered. */
  function Run(midasLoaded: bool, s: Carry, frames: seq<Frame>): (Carry, seq<int>)
    decreases |frames|
  {
    if frames == [] then (s, [])
    else
      var a := Advance(midasLoaded, s, frames[0]);
      var b := Run(midasLoaded, a.0, frames[1..]);
      (b.0, a.1 + b.1)
  }

  /** A frame that fires lies in an active phase within the recording, comes
      more than the cooldown after the last trigger and becomes the last
      trigger; any other frame leaves the last trigger alone. */
  lemma FiringStep(midasLoaded: bool, s: Carry, f: Frame)
    ensures var (s', times) := Advance(midasLoaded, s, f);
      || (times == [] && s'.lastMotionTrigger == s.lastMotionTrigger)
      || (&& times == [f.elapsed]
          && f.elapsed < RecordingMs && Active(f.elapsed)
          && f.elapsed - s.lastMotionTrigger > CooldownMs
          && s'.lastMotionTrigger == f.elapsed)
  {
  }

  /** Trigger times each more than the cooldown after `last`, and pairwise
      more than the cooldown apart. */
  predicate Spaced(times: seq<int>, last: int) {
    && (forall i :: 0 <= i < |times| ==> times[i] - last > CooldownMs)
    && (forall i, j :: 0 <= i < j < |times| ==> times[j] - times[i] > CooldownMs)
  }

  lemma SpacedCons(t: int, rest: seq<int>, last: int)
    requires t - last > CooldownMs && Spaced(rest, t)
    ensures Spaced([t] + rest, last)
  {
    var times := [t] + rest;
    forall i, j | 0 <= i < j < |times| ensures times[j] - times[i] > CooldownMs {
      assert times[j] == rest[j - 1];
      if i > 0 {
        assert times[i] == rest[i - 1];
      }
    }
  }

  /** Trigger times that fall in active phases within the recording. */
  predicate InActivePhases(times: seq<int>) {
    forall i :: 0 <= i < |times| ==> times[i] < RecordingMs && Active(times[i])
  }

  /** Over any run, whatever the frame times: each trigger comes more than
      the cooldown after the last trigger before the run, any two triggers
      are more than the cooldown apart, every trigger falls in an active
      phase within the recording, and the last trigger is what the state
      remembers. */
  lemma {:induction false} TriggersSpaced(midasLoaded: bool, s: Carry, frames: seq<Frame>)
    ensures var (s', times) := Run(midasLoaded, s, frames);
      && Spaced(times, s.lastMotionTrigger)
      && InActivePhases(times)
      && s'.lastMotionTrigger == (if times == [] then s.lastMotionTrigger else times[|times| - 1])
    decreases |frames|
  {
    if frames != [] {
      var a := Advance(midasLoaded, s, frames[0]);
      FiringStep(midasLoaded, s, frames[0]);
      TriggersSpaced(midasLoaded, a.0, frames[1..]);
      var b := Run(midasLoaded, a.0, frames[1..]);
      assert Run(midasLoaded, s, frames) == (b.0, a.1 + b.1);
      JoinTriggers(a.1, b.1, s.lastMotionTrigger, a.0.lastMotionTrigger, b.0.lastMotionTrigger, frames[0].elapsed);
    }
  }

  /** The trigger times of one frame followed by those of the rest of a run. */
  lemma JoinTriggers(first: seq<int>, rest: seq<int>, last: int, mid: int, end: int, t: int)
    requires || (first == [] && mid == last)
             || (first == [t] && t < RecordingMs && Active(t) && t - last > CooldownMs && mid == t)
    requires Spaced(rest, mid) && InActivePhases(rest)
    requires end == (if rest == [] then mid else rest[|rest| - 1])
    ensures Spaced(first + rest, last) && InActivePhases(first + rest)
    ensures end == (if first + rest == [] then last else (first + rest)[|first + rest| - 1])
  {
    if first == [] {
      assert first + rest == rest;
    } else {
      SpacedCons(t, rest, last);
      ActiveCons(t, rest);
      if rest != [] {
        assert (first + rest)[|first + rest| - 1] == rest[|rest| - 1];
      }
    }
  }

  lemma ActiveCons(t: int, rest: seq<int>)
    requires t < RecordingMs && Active(t) && InActivePhases(rest)
    ensures InActivePhases([t] + rest)
  {
    var times := [t] + rest;
    forall i | 0 <= i < |times| ensures times[i] < RecordingMs && Active(times[i]) {
      if i > 0 {
        assert times[i] == rest[i - 1];
      }
    }
  }

  /** From the start of the recording, the first trigger comes after more
      than two seconds and triggers are more than two seconds apart. */
  lemma TriggersFromStart(midasLoaded: bool, frames: seq<Frame>)
    ensures var times := Run(midasLoaded, Initial, frames).1;
      && (forall i :: 0 <= i < |times| ==> times[i] > CooldownMs)
      && (forall i, j :: 0 <= i < j < |times| ==> times[j] - times[i] > CooldownMs)
  {
    TriggersSpaced(midasLoaded, Initial, frames);
  }

  /** Without a depth model no depth map ever appears. */
  lemma NoModelNoDepth(s: Carry, frameRead: bool, elapsed: int, d: Detection, depthOk: bool, quit: bool)
    requires !s.depthMapPresent
    ensures !StepSpec(false, s, frameRead, elapsed, d, depthOk, quit).0.depthMapPresent
  {
  }
}
