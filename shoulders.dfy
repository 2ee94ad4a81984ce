/**
 * The posture logic of `PoseDetection` (shoulders.js): calibration from the
 * body landmarks, the smoothing buffers, shoulder and neck classification,
 * the notification cooldown and `reset`.
 */
module Shoulders {
  import opened Nullable
  import opened Numeric
  import opened Geometry
  import opened Smoothing
  import opened Cooldown
  import opened PostureFeedback

  /** `bufferSize`: how many recent angles are averaged. */
  const BufferSize: nat := 10
  /** `confidenceThreshold`: the visibility a key landmark must exceed. */
  const ConfidenceThreshold: real := 0.7
  /** `totalFrames`: how many accepted frames a calibration collects. */
  const TotalFrames: nat := 100
  /** Nose, left and right shoulder, left and right hip. */
  const KeyPoints: seq<nat> := [0, 11, 12, 23, 24]

  /** One pose landmark; `visibility` may be missing. */
  datatype Landmark = Landmark(x: real, y: real, visibility: Option<real>)

  /**
   * The `poseLandmarks` of one detection result. The two sweeps are what the
   * trigonometry of `calculateAngle` yields before its fold: for the shoulder
   * angle at the right shoulder (points 11, 12, 24), and for the neck angle at
   * the mid-shoulder point (nose, mid-shoulders, mid-hips).
   */
  datatype PoseLandmarks = PoseLandmarks(points: seq<Landmark>, shoulderSweep: Sweep, neckSweep: Sweep)

  /** A detection result; `poseLandmarks` is missing when no body was found. */
  datatype PoseResults = PoseResults(poseLandmarks: Option<PoseLandmarks>)

  /** What one posture check decided and which notifications it attempted, in order. */
  datatype PostureReport = PostureReport(
    shoulders: ShoulderPosture,
    neck: NeckPosture,
    smoothedShoulderAngle: real,
    smoothedNeckAngle: real,
    recommendation: string,
    attempts: seq<Attempt>)

  /** Landmark `k` exists and its visibility is present and above the threshold. */
  predicate IsConfident(points: seq<Landmark>, k: nat) {
    k < |points| && points[k].visibility.Some? && points[k].visibility.value > ConfidenceThreshold
  }

  /** `keys.every(...)`, checked one key at a time. */
  function AllConfident(points: seq<Landmark>, keys: seq<nat>): (ok: bool)
    ensures ok <==> forall i :: 0 <= i < |keys| ==> IsConfident(points, keys[i])
    decreases |keys|
  {
    if keys == [] then true else IsConfident(points, keys[0]) && AllConfident(points, keys[1..])
  }

  /** True iff each of landmarks 0, 11, 12, 23 and 24 exists with visibility above 0.7. */
  function CheckLandmarksVisibility(points: seq<Landmark>): (ok: bool)
    ensures ok <==> IsConfident(points, 0) && IsConfident(points, 11) && IsConfident(points, 12)
                    && IsConfident(points, 23) && IsConfident(points, 24)
  {
    var ok := AllConfident(points, KeyPoints);
    assert KeyPoints[0] == 0 && KeyPoints[1] == 11 && KeyPoints[2] == 12;
    assert KeyPoints[3] == 23 && KeyPoints[4] == 24;
    ok
  }

  /** The result has landmarks and all key landmarks are visible enough. */
  predicate Usable(results: PoseResults) {
    results.poseLandmarks.Some? && CheckLandmarksVisibility(results.poseLandmarks.value.points)
  }

  /** A calibration tick finds a latest result that it can use. */
  predicate TickAccepts(lastResults: Option<PoseResults>) {
    lastResults.Some? && Usable(lastResults.value)
  }

  /** Every value is an angle as `calculateAngle` returns them. */
  predicate AllAngles(s: seq<real>) {
    AllWithin(s, 0.0, 180.0)
  }

  /** A nullable baseline that, when set, is an angle. */
  predicate AngleOrNull(b: Option<real>) {
    b.Some? ==> 0.0 <= b.value <= 180.0
  }

  /**
   * The variables one calibration interval captures: its two sample lists,
   * its frame counter, and whether the interval is still running.
   */
  datatype Collector = Collector(shoulderAngles: seq<real>, neckAngles: seq<real>, currentFrame: nat, active: bool)

  /** The state of the interval that a click on the calibrate button starts. */
  const FreshCollector: Collector := Collector([], [], 0, true)

  /** Both sample lists have one angle per counted frame, at most 100. */
  predicate CollectorValid(c: Collector) {
    && |c.shoulderAngles| == c.currentFrame && |c.neckAngles| == c.currentFrame
    && c.currentFrame <= TotalFrames
    && AllAngles(c.shoulderAngles) && AllAngles(c.neckAngles)
  }

  /** The notification attempted for a shoulder deviation, if any. */
  function ShoulderAttempt(p: ShoulderPosture, granted: bool, last: int, now: int): seq<Attempt> {
    if p == ShouldersGood then [] else [Attempt(Shoulder, Gate(granted, last, now).fired)]
  }

  /** The notification attempted for a neck deviation, if any. */
  function NeckAttempt(p: NeckPosture, granted: bool, last: int, now: int): seq<Attempt> {
    if p == NeckGood then [] else [Attempt(Neck, Gate(granted, last, now).fired)]
  }

  class PoseDetection {
    var shoulderAngleBuffer: seq<real>
    var neckAngleBuffer: seq<real>
    /** Every angle pushed into each buffer since construction or the last `reset`. */
    ghost var shoulderHistory: seq<real>
    ghost var neckHistory: seq<real>

    var calibratedShoulderAngle: Option<real>
    var calibratedNeckAngle: Option<real>
    var lastResults: Option<PoseResults>
    var lastShoulderNotification: int
    var lastNeckNotification: int

    // Every calibration interval started so far, oldest first. Each click on
    // the calibrate button creates a new closure and a new interval; an
    // earlier one keeps ticking until it has counted its own 100 frames.
    var intervals: seq<Collector>

    /**
     * Each buffer is the last `bufferSize` angles pushed, in arrival order;
     * both sample lists have one entry per counted frame, at most 100; all
     * stored angles and baselines lie in [0, 180]; every interval's state
     * is consistent.
     */
    ghost predicate Valid()
      reads this
    {
      && shoulderAngleBuffer == LastN(shoulderHistory, BufferSize)
      && neckAngleBuffer == LastN(neckHistory, BufferSize)
      && |shoulderHistory| == |neckHistory|
      && AllAngles(shoulderHistory) && AllAngles(neckHistory)
      && IntervalsValid()
      && AngleOrNull(calibratedShoulderAngle) && AngleOrNull(calibratedNeckAngle)
    }

    /** Every interval's state is consistent. */
    ghost predicate IntervalsValid()
      reads this`intervals
    {
      forall i :: 0 <= i < |intervals| ==> CollectorValid(intervals[i])
    }

    constructor ()
      ensures Valid()
      ensures shoulderAngleBuffer == [] && neckAngleBuffer == []
      ensures calibratedShoulderAngle == None && calibratedNeckAngle == None
      ensures lastResults == None
      ensures lastShoulderNotification == 0 && lastNeckNotification == 0
      ensures intervals == []
    {
      shoulderAngleBuffer, neckAngleBuffer := [], [];
      shoulderHistory, neckHistory := [], [];
      calibratedShoulderAngle, calibratedNeckAngle := None, None;
      lastResults := None;
      lastShoulderNotification, lastNeckNotification := 0, 0;
      intervals := [];
    }

    /** `currentFrame / totalFrames` of interval `k`, the value it shows on the progress bar. */
    function Progress(k: nat): (p: real)
      reads this
      requires Valid() && k < |intervals|
      ensures 0.0 <= p <= 1.0
      ensures p == 1.0 <==> intervals[k].currentFrame == TotalFrames
    {
      intervals[k].currentFrame as real / TotalFrames as real
    }

    /**
     * `sendNotification`. Without permission nothing changes. With it, a
     * `shoulder` or `neck` call overwrites that category's timestamp with
     * `now` and shows the notification iff the cooldown had passed; any other
     * category compares against `undefined`, so it is always shown.
     */
    method SendNotification(category: Category, granted: bool, now: int) returns (fired: bool)
      modifies this`lastShoulderNotification, this`lastNeckNotification
      ensures category == Shoulder ==>
                var g := Gate(granted, old(lastShoulderNotification), now);
                fired == g.fired && lastShoulderNotification == g.last
                && lastNeckNotification == old(lastNeckNotification)
      ensures category == Neck ==>
                var g := Gate(granted, old(lastNeckNotification), now);
                fired == g.fired && lastNeckNotification == g.last
                && lastShoulderNotification == old(lastShoulderNotification)
      ensures category != Shoulder && category != Neck ==>
                fired == granted
                && lastShoulderNotification == old(lastShoulderNotification)
                && lastNeckNotification == old(lastNeckNotification)
    {
      if !granted {
        return false;
      }
      if category == Shoulder {
        var last := lastShoulderNotification;
        lastShoulderNotification := now;
        fired := now - last >= NotificationCooldown;
      } else if category == Neck {
        var last := lastNeckNotification;
        lastNeckNotification := now;
        fired := now - last >= NotificationCooldown;
      } else {
        fired := true;
      }
    }

    /**
     * The click on the calibrate button: a new interval with fresh sample
     * lists starts running. Intervals started earlier are left as they are,
     * still running if they were.
     */
    method StartCalibration()
      requires Valid()
      modifies this`intervals
      ensures Valid()
      ensures intervals == old(intervals) + [FreshCollector]
    {
      intervals := intervals + [FreshCollector];
    }

    /**
     * One tick of the running interval `k`. Once it has counted 100 frames it
     * stops and stores each of its means as the baseline. Otherwise it reads
     * the latest detection result; when that has landmarks whose key points
     * are visible enough, one angle is appended to each of its lists and the
     * frame counts; when not, the tick changes nothing. No other interval
     * changes.
     */
    method CalibrationTick(k: nat)
      requires Valid() && k < |intervals| && intervals[k].active
      modifies this`intervals, this`calibratedShoulderAngle, this`calibratedNeckAngle
      ensures Valid()
      ensures |intervals| == |old(intervals)|
      ensures forall j :: 0 <= j < |intervals| && j != k ==> intervals[j] == old(intervals)[j]
      ensures old(intervals[k].currentFrame) >= TotalFrames ==>
                var c := old(intervals[k]);
                && intervals[k] == c.(active := false)
                && |c.shoulderAngles| == TotalFrames && |c.neckAngles| == TotalFrames
                && calibratedShoulderAngle == Some(Mean(c.shoulderAngles))
                && calibratedNeckAngle == Some(Mean(c.neckAngles))
      ensures old(intervals[k].currentFrame) < TotalFrames && TickAccepts(lastResults) ==>
                var c := old(intervals[k]);
                var landmarks := lastResults.value.poseLandmarks.value;
                && intervals[k].shoulderAngles == c.shoulderAngles + [CalculateAngle(landmarks.shoulderSweep)]
                && intervals[k].neckAngles == c.neckAngles + [CalculateAngle(landmarks.neckSweep)]
                && intervals[k].currentFrame == c.currentFrame + 1
                && intervals[k].active
                && calibratedShoulderAngle == old(calibratedShoulderAngle)
                && calibratedNeckAngle == old(calibratedNeckAngle)
      ensures old(intervals[k].currentFrame) < TotalFrames && !TickAccepts(lastResults) ==>
                && intervals[k] == old(intervals[k])
                && calibratedShoulderAngle == old(calibratedShoulderAngle)
                && calibratedNeckAngle == old(calibratedNeckAngle)
    {
      var c := intervals[k];
      if c.currentFrame >= TotalFrames {
        MeanWithin(c.shoulderAngles, 0.0, 180.0);
        MeanWithin(c.neckAngles, 0.0, 180.0);
        calibratedShoulderAngle := Some(Mean(c.shoulderAngles));
        calibratedNeckAngle := Some(Mean(c.neckAngles));
        intervals := intervals[k := c.(active := false)];
        return;
      }
      if lastResults.Some? && lastResults.value.poseLandmarks.Some? {
        var landmarks := lastResults.value.poseLandmarks.value;
        if CheckLandmarksVisibility(landmarks.points) {
          var shoulderAngle := CalculateAngle(landmarks.shoulderSweep);
          var neckAngle := CalculateAngle(landmarks.neckSweep);
          c := c.(shoulderAngles := c.shoulderAngles + [shoulderAngle],
                  neckAngles := c.neckAngles + [neckAngle],
                  currentFrame := c.currentFrame + 1);
          intervals := intervals[k := c];
        }
      }
    }

    /**
     * The effect of one posture check on a usable frame, relative to the
     * histories and timestamps it started from.
     */
    ghost predicate Checked(landmarks: PoseLandmarks, granted: bool, now: int, report: PostureReport,
                            shoulderHistory0: seq<real>, neckHistory0: seq<real>,
                            lastShoulder0: int, lastNeck0: int)
      reads this
      requires calibratedShoulderAngle.Some? && calibratedNeckAngle.Some?
    {
      var shoulders := ClassifyShoulders(report.smoothedShoulderAngle, calibratedShoulderAngle.value);
      var neck := ClassifyNeck(report.smoothedNeckAngle, calibratedNeckAngle.value);
      && shoulderHistory == shoulderHistory0 + [CalculateAngle(landmarks.shoulderSweep)]
      && neckHistory == neckHistory0 + [CalculateAngle(landmarks.neckSweep)]
      && |shoulderAngleBuffer| > 0 && |neckAngleBuffer| > 0
      && report.smoothedShoulderAngle == Mean(shoulderAngleBuffer)
      && report.smoothedNeckAngle == Mean(neckAngleBuffer)
      && 0.0 <= report.smoothedShoulderAngle <= 180.0
      && 0.0 <= report.smoothedNeckAngle <= 180.0
      && report.shoulders == shoulders
      && report.neck == neck
      && (report.recommendation == GreatJob <==> shoulders == ShouldersGood && neck == NeckGood)
      && report.attempts == ShoulderAttempt(shoulders, granted, lastShoulder0, now)
                            + NeckAttempt(neck, granted, lastNeck0, now)
      && lastShoulderNotification
           == (if shoulders == ShouldersGood then lastShoulder0 else Gate(granted, lastShoulder0, now).last)
      && lastNeckNotification
           == (if neck == NeckGood then lastNeck0 else Gate(granted, lastNeck0, now).last)
    }

    /**
     * `checkPosture`. On a usable frame: push both angles into their buffers
     * (dropping the oldest beyond 10), average each buffer, classify both
     * against the baselines, attempt a notification for each deviation and
     * build the recommendation. Any other frame changes nothing.
     */
    method CheckPosture(results: PoseResults, granted: bool, now: int) returns (report: Option<PostureReport>)
      requires Valid()
      requires calibratedShoulderAngle.Some? && calibratedNeckAngle.Some?
      modifies this`shoulderAngleBuffer, this`neckAngleBuffer, this`shoulderHistory, this`neckHistory,
               this`lastShoulderNotification, this`lastNeckNotification
      ensures Valid()
      ensures report.Some? <==> Usable(results)
      ensures !Usable(results) ==>
                && shoulderHistory == old(shoulderHistory) && neckHistory == old(neckHistory)
                && shoulderAngleBuffer == old(shoulderAngleBuffer) && neckAngleBuffer == old(neckAngleBuffer)
                && lastShoulderNotification == old(lastShoulderNotification)
                && lastNeckNotification == old(lastNeckNotification)
      ensures report.Some? ==>
                Checked(results.poseLandmarks.value, granted, now, report.value,
                        old(shoulderHistory), old(neckHistory),
                        old(lastShoulderNotification), old(lastNeckNotification))
    {
      if results.poseLandmarks.None? {
        return None;
      }
      var landmarks := results.poseLandmarks.value;
      if !CheckLandmarksVisibility(landmarks.points) {
        return None;
      }
      var currentShoulderAngle := CalculateAngle(landmarks.shoulderSweep);
      var currentNeckAngle := CalculateAngle(landmarks.neckSweep);

      PushAngles(currentShoulderAngle, currentNeckAngle);
      var smoothedShoulderAngle := Mean(shoulderAngleBuffer);
      var smoothedNeckAngle := Mean(neckAngleBuffer);

      var shoulders, neck, attempts := NotifyDeviations(smoothedShoulderAngle, smoothedNeckAngle, granted, now);
      var recommendation := UpdateRecommendations(ShoulderText(shoulders), NeckText(neck));
      NamesIssueIffDeviating(shoulders, neck);
      report := Some(PostureReport(shoulders, neck, smoothedShoulderAngle, smoothedNeckAngle,
                                   recommendation, attempts));
    }

    /**
     * The classification part of `checkPosture`: classify both smoothed
     * angles and attempt a notification for each one that deviates, the
     * shoulders first.
     */
    method NotifyDeviations(smoothedShoulderAngle: real, smoothedNeckAngle: real, granted: bool, now: int)
      returns (shoulders: ShoulderPosture, neck: NeckPosture, attempts: seq<Attempt>)
      requires Valid()
      requires calibratedShoulderAngle.Some? && calibratedNeckAngle.Some?
      modifies this`lastShoulderNotification, this`lastNeckNotification
      ensures Valid()
      ensures shoulders == ClassifyShoulders(smoothedShoulderAngle, calibratedShoulderAngle.value)
      ensures neck == ClassifyNeck(smoothedNeckAngle, calibratedNeckAngle.value)
      ensures attempts == ShoulderAttempt(shoulders, granted, old(lastShoulderNotification), now)
                          + NeckAttempt(neck, granted, old(lastNeckNotification), now)
      ensures lastShoulderNotification == (if shoulders == ShouldersGood then old(lastShoulderNotification)
                                           else Gate(granted, old(lastShoulderNotification), now).last)
      ensures lastNeckNotification == (if neck == NeckGood then old(lastNeckNotification)
                                       else Gate(granted, old(lastNeckNotification), now).last)
    {
      attempts := [];
      shoulders := ClassifyShoulders(smoothedShoulderAngle, calibratedShoulderAngle.value);
      if shoulders != ShouldersGood {
        var fired := SendNotification(Shoulder, granted, now);
        attempts := attempts + [Attempt(Shoulder, fired)];
      }
      neck := ClassifyNeck(smoothedNeckAngle, calibratedNeckAngle.value);
      if neck != NeckGood {
        var fired := SendNotification(Neck, granted, now);
        attempts := attempts + [Attempt(Neck, fired)];
      }
    }

    /**
     * The buffer updates of `checkPosture`: push each angle, then shift the
     * oldest out once the buffer holds more than `bufferSize`.
     */
    method PushAngles(shoulderAngle: real, neckAngle: real)
      requires Valid()
      requires 0.0 <= shoulderAngle <= 180.0 && 0.0 <= neckAngle <= 180.0
      modifies this`shoulderAngleBuffer, this`neckAngleBuffer, this`shoulderHistory, this`neckHistory
      ensures Valid()
      ensures shoulderHistory == old(shoulderHistory) + [shoulderAngle]
      ensures neckHistory == old(neckHistory) + [neckAngle]
      ensures |shoulderAngleBuffer| > 0 && 0.0 <= Mean(shoulderAngleBuffer) <= 180.0
      ensures |neckAngleBuffer| > 0 && 0.0 <= Mean(neckAngleBuffer) <= 180.0
    {
      PushShiftKeepsWindow(shoulderHistory, shoulderAngle, BufferSize);
      shoulderAngleBuffer := shoulderAngleBuffer + [shoulderAngle];
      if |shoulderAngleBuffer| > BufferSize {
        shoulderAngleBuffer := shoulderAngleBuffer[1..];
      }
      shoulderHistory := shoulderHistory + [shoulderAngle];

      PushShiftKeepsWindow(neckHistory, neckAngle, BufferSize);
      neckAngleBuffer := neckAngleBuffer + [neckAngle];
      if |neckAngleBuffer| > BufferSize {
        neckAngleBuffer := neckAngleBuffer[1..];
      }
      neckHistory := neckHistory + [neckAngle];

      WindowWithin(shoulderHistory);
      WindowWithin(neckHistory);
    }

    /** The window of a non-empty history of angles is non-empty and averages to an angle. */
    static lemma WindowWithin(h: seq<real>)
      requires |h| > 0 && AllAngles(h)
      ensures |LastN(h, BufferSize)| > 0
      ensures 0.0 <= Mean(LastN(h, BufferSize)) <= 180.0
    {
      var w := LastN(h, BufferSize);
      assert AllAngles(w) by {
        forall i | 0 <= i < |w| ensures 0.0 <= w[i] <= 180.0 {
          WindowIsNewest(h, BufferSize, i);
        }
      }
      MeanWithin(w, 0.0, 180.0);
    }

    /**
     * `onResults`: remember the result, and check posture only when it has
     * landmarks and both baselines are set and non-zero.
     */
    method OnResults(results: PoseResults, granted: bool, now: int) returns (report: Option<PostureReport>)
      requires Valid()
      modifies this`lastResults, this`shoulderAngleBuffer, this`neckAngleBuffer,
               this`shoulderHistory, this`neckHistory,
               this`lastShoulderNotification, this`lastNeckNotification
      ensures Valid()
      ensures lastResults == Some(results)
      ensures report.Some? <==>
                IsTruthy(calibratedShoulderAngle) && IsTruthy(calibratedNeckAngle) && Usable(results)
      ensures report.None? ==>
                && shoulderHistory == old(shoulderHistory) && neckHistory == old(neckHistory)
                && shoulderAngleBuffer == old(shoulderAngleBuffer) && neckAngleBuffer == old(neckAngleBuffer)
                && lastShoulderNotification == old(lastShoulderNotification)
                && lastNeckNotification == old(lastNeckNotification)
      ensures report.Some? ==>
                Checked(results.poseLandmarks.value, granted, now, report.value,
                        old(shoulderHistory), old(neckHistory),
                        old(lastShoulderNotification), old(lastNeckNotification))
    {
      lastResults := Some(results);
      if results.poseLandmarks.Some? && IsTruthy(calibratedShoulderAngle) && IsTruthy(calibratedNeckAngle) {
        report := CheckPosture(results, granted, now);
      } else {
        report := None;
      }
    }

    /** `reset`: forget both baselines and empty both buffers. */
    method Reset()
      requires Valid()
      modifies this`calibratedShoulderAngle, this`calibratedNeckAngle,
               this`shoulderAngleBuffer, this`neckAngleBuffer, this`shoulderHistory, this`neckHistory
      ensures Valid()
      ensures calibratedShoulderAngle == None && calibratedNeckAngle == None
      ensures shoulderAngleBuffer == [] && neckAngleBuffer == []
    {
      calibratedShoulderAngle, calibratedNeckAngle := None, None;
      shoulderAngleBuffer, neckAngleBuffer := [], [];
      shoulderHistory, neckHistory := [], [];
    }
  }
}
