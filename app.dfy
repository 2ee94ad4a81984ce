/**
 * The posture logic of `PostureDetection` (app.js): calibration from the face
 * landmarks, the head-drop check, the mouth-open timer and the notification
 * cooldown.
 */
module App {
  import opened Nullable
  import opened Numeric
  import opened Geometry
  import opened Cooldown
  import opened MouthTimer

  /** `totalFrames`: how many frames a calibration collects. */
  const TotalFrames: nat := 100
  /** Degrees below the baseline at which the head counts as dropping. */
  const HeadDropTolerance: real := 15.0
  /** Factor over the baseline distance at which the mouth counts as open. */
  const MouthOpenFactor: real := 1.5

  /**
   * The first face of `multiFaceLandmarks`, reduced to what the controller
   * derives from it: the sweep that `calculateAngle` folds for the angle at
   * the nose tip (points 33, 4, 263), and the distance between the lips
   * (points 13 and 14).
   */
  datatype FaceLandmarks = FaceLandmarks(eyeSweep: Sweep, mouthDistance: Distance)

  /** A detection result; `multiFaceLandmarks` is missing when no face was found. */
  datatype FaceResults = FaceResults(multiFaceLandmarks: Option<FaceLandmarks>)

  /** The head is dropping when its angle is more than 15 degrees below the baseline. */
  predicate HeadDropping(angle: real, baseline: real) {
    angle < baseline - HeadDropTolerance
  }

  /** The mouth counts as open when the lips are more than 1.5 times the baseline apart. */
  predicate MouthOpen(distance: real, baseline: real) {
    distance > baseline * MouthOpenFactor
  }

  /**
   * The head-drop test is a threshold: any lower angle drops too, the
   * calibrated angle itself never drops, and under a baseline of at most 15
   * degrees no angle can drop.
   */
  lemma HeadDropThreshold(angle: real, lower: real, baseline: real)
    requires 0.0 <= lower <= angle
    ensures HeadDropping(angle, baseline) ==> HeadDropping(lower, baseline)
    ensures !HeadDropping(baseline, baseline)
    ensures baseline <= HeadDropTolerance ==> !HeadDropping(lower, baseline)
  {
  }

  /**
   * The mouth-open test is a threshold: any wider distance is open too, the
   * calibrated distance itself is never open, and with a zero baseline every
   * positive distance counts as open.
   */
  lemma MouthOpenThreshold(distance: real, wider: real, baseline: real)
    requires distance <= wider
    ensures MouthOpen(distance, baseline) ==> MouthOpen(wider, baseline)
    ensures 0.0 <= baseline ==> !MouthOpen(baseline, baseline)
    ensures baseline == 0.0 ==> (MouthOpen(distance, baseline) <==> distance > 0.0)
  {
  }

  class PostureDetection {
    var calibratedAngle: Option<real>
    var calibratedMouthDistance: Option<real>
    var mouthOpenStartTime: Option<int>
    var lastResults: Option<FaceResults>
    var lastHeadNotification: int
    var lastMouthNotification: int

    // The variables the calibration interval captures: its two sample lists,
    // its frame counter, and whether the interval is still running.
    var angles: seq<real>
    var mouthDistances: seq<real>
    var currentFrame: nat
    var calibrationActive: bool

    /**
     * Both sample lists have one entry per counted frame, at most 100; the
     * two baselines are set together; angles lie in [0, 180] and distances
     * are not negative.
     */
    ghost predicate Valid()
      reads this
    {
      && |angles| == currentFrame && |mouthDistances| == currentFrame
      && currentFrame <= TotalFrames
      && AllWithin(angles, 0.0, 180.0)
      && (forall i :: 0 <= i < |mouthDistances| ==> mouthDistances[i] >= 0.0)
      && (calibratedAngle.Some? <==> calibratedMouthDistance.Some?)
      && (calibratedAngle.Some? ==> 0.0 <= calibratedAngle.value <= 180.0)
      && (calibratedMouthDistance.Some? ==> calibratedMouthDistance.value >= 0.0)
    }

    constructor ()
      ensures Valid()
      ensures calibratedAngle == None && calibratedMouthDistance == None
      ensures mouthOpenStartTime == None && lastResults == None
      ensures lastHeadNotification == 0 && lastMouthNotification == 0
      ensures !calibrationActive && currentFrame == 0
    {
      calibratedAngle, calibratedMouthDistance := None, None;
      mouthOpenStartTime := None;
      lastResults := None;
      lastHeadNotification, lastMouthNotification := 0, 0;
      angles, mouthDistances := [], [];
      currentFrame := 0;
      calibrationActive := false;
    }

    /** `currentFrame / totalFrames`, the value shown on the progress bar. */
    function Progress(): (p: real)
      reads this
      requires Valid()
      ensures 0.0 <= p <= 1.0
      ensures p == 1.0 <==> currentFrame == TotalFrames
    {
      currentFrame as real / TotalFrames as real
    }

    /**
     * `sendNotification`. Without permission nothing changes. With it, a
     * `head` or `mouth` call overwrites that category's timestamp with `now`
     * and shows the notification iff the cooldown had passed; any other
     * category compares against `undefined`, so it is always shown.
     */
    method SendNotification(category: Category, granted: bool, now: int) returns (fired: bool)
      modifies this`lastHeadNotification, this`lastMouthNotification
      ensures category == Head ==>
                var g := Gate(granted, old(lastHeadNotification), now);
                fired == g.fired && lastHeadNotification == g.last
                && lastMouthNotification == old(lastMouthNotification)
      ensures category == Mouth ==>
                var g := Gate(granted, old(lastMouthNotification), now);
                fired == g.fired && lastMouthNotification == g.last
                && lastHeadNotification == old(lastHeadNotification)
      ensures category != Head && category != Mouth ==>
                fired == granted
                && lastHeadNotification == old(lastHeadNotification)
                && lastMouthNotification == old(lastMouthNotification)
    {
      if !granted {
        return false;
      }
      if category == Head {
        var last := lastHeadNotification;
        lastHeadNotification := now;
        fired := now - last >= NotificationCooldown;
      } else if category == Mouth {
        var last := lastMouthNotification;
        lastMouthNotification := now;
        fired := now - last >= NotificationCooldown;
      } else {
        fired := true;
      }
    }

    /** The click on the calibrate button: fresh sample lists and a running interval. */
    method StartCalibration()
      requires Valid()
      modifies this`angles, this`mouthDistances, this`currentFrame, this`calibrationActive
      ensures Valid()
      ensures angles == [] && mouthDistances == [] && currentFrame == 0 && calibrationActive
    {
      angles, mouthDistances := [], [];
      currentFrame := 0;
      calibrationActive := true;
    }

    /**
     * One tick of the calibration interval. Once 100 frames are counted it
     * stops the interval and stores each mean as the baseline. Otherwise,
     * whenever the latest detection result has face landmarks, one angle and
     * one distance are appended and the frame counts; there is no
     * visibility check.
     */
    method CalibrationTick()
      requires Valid() && calibrationActive
      modifies this`angles, this`mouthDistances, this`currentFrame, this`calibrationActive,
               this`calibratedAngle, this`calibratedMouthDistance
      ensures Valid()
      ensures old(currentFrame) >= TotalFrames ==>
                && !calibrationActive
                && |angles| == TotalFrames && |mouthDistances| == TotalFrames
                && calibratedAngle == Some(Mean(angles))
                && calibratedMouthDistance == Some(Mean(mouthDistances))
                && angles == old(angles) && mouthDistances == old(mouthDistances)
                && currentFrame == old(currentFrame)
      ensures old(currentFrame) < TotalFrames && lastResults.Some? && lastResults.value.multiFaceLandmarks.Some? ==>
                var face := lastResults.value.multiFaceLandmarks.value;
                && angles == old(angles) + [CalculateAngle(face.eyeSweep)]
                && mouthDistances == old(mouthDistances) + [face.mouthDistance]
                && currentFrame == old(currentFrame) + 1
                && calibrationActive
                && calibratedAngle == old(calibratedAngle)
                && calibratedMouthDistance == old(calibratedMouthDistance)
      ensures old(currentFrame) < TotalFrames && !(lastResults.Some? && lastResults.value.multiFaceLandmarks.Some?) ==>
                && angles == old(angles) && mouthDistances == old(mouthDistances)
                && currentFrame == old(currentFrame) && calibrationActive
                && calibratedAngle == old(calibratedAngle)
                && calibratedMouthDistance == old(calibratedMouthDistance)
    {
      if currentFrame >= TotalFrames {
        calibrationActive := false;
        MeanWithin(angles, 0.0, 180.0);
        MeanWithin(mouthDistances, 0.0, UpperBound(mouthDistances));
        calibratedAngle := Some(Mean(angles));
        calibratedMouthDistance := Some(Mean(mouthDistances));
        return;
      }
      if lastResults.Some? && lastResults.value.multiFaceLandmarks.Some? {
        var face := lastResults.value.multiFaceLandmarks.value;
        var angle := CalculateAngle(face.eyeSweep);
        angles := angles + [angle];
        mouthDistances := mouthDistances + [face.mouthDistance];
        currentFrame := currentFrame + 1;
      }
    }

    /** Face landmarks are present and the head baseline is set and non-zero. */
    predicate Evaluates(results: FaceResults)
      reads this
    {
      results.multiFaceLandmarks.Some? && IsTruthy(calibratedAngle)
    }

    /**
     * `onResults`: remember the result; when it has face landmarks and the
     * head baseline is set and non-zero, attempt a `head` notification iff
     * the raw angle is more than 15 degrees below the baseline, and run the
     * mouth-open timer on whether the lips are more than 1.5 times the
     * baseline apart. Otherwise no timer or timestamp changes.
     */
    method OnResults(results: FaceResults, granted: bool, now: int) returns (attempts: seq<Attempt>)
      requires Valid()
      modifies this`lastResults, this`mouthOpenStartTime, this`lastHeadNotification, this`lastMouthNotification
      ensures Valid()
      ensures lastResults == Some(results)
      ensures !old(Evaluates(results)) ==>
                && attempts == []
                && mouthOpenStartTime == old(mouthOpenStartTime)
                && lastHeadNotification == old(lastHeadNotification)
                && lastMouthNotification == old(lastMouthNotification)
      ensures old(Evaluates(results)) ==>
                var face := results.multiFaceLandmarks.value;
                var dropping := HeadDropping(CalculateAngle(face.eyeSweep), calibratedAngle.value);
                var step := MouthStep(old(mouthOpenStartTime),
                                      MouthOpen(face.mouthDistance, calibratedMouthDistance.value), now);
                var head := Gate(granted, old(lastHeadNotification), now);
                var mouth := Gate(granted, old(lastMouthNotification), now);
                && mouthOpenStartTime == step.start
                && attempts == (if dropping then [Attempt(Head, head.fired)] else [])
                               + (if step.alert then [Attempt(Mouth, mouth.fired)] else [])
                && lastHeadNotification == (if dropping then head.last else old(lastHeadNotification))
                && lastMouthNotification == (if step.alert then mouth.last else old(lastMouthNotification))
    {
      lastResults := Some(results);
      attempts := [];
      if results.multiFaceLandmarks.Some? && IsTruthy(calibratedAngle) {
        var face := results.multiFaceLandmarks.value;
        var angle := CalculateAngle(face.eyeSweep);
        var mouthDistance := face.mouthDistance;

        if HeadDropping(angle, calibratedAngle.value) {
          var fired := SendNotification(Head, granted, now);
          attempts := attempts + [Attempt(Head, fired)];
        }

        if MouthOpen(mouthDistance, calibratedMouthDistance.value) {
          if !IsTruthyTime(mouthOpenStartTime) {
            mouthOpenStartTime := Some(now);
          } else if now - mouthOpenStartTime.value > MouthOpenLimit {
            var fired := SendNotification(Mouth, granted, now);
            attempts := attempts + [Attempt(Mouth, fired)];
          }
        } else {
          mouthOpenStartTime := None;
        }
      }
    }
  }
}
