# Posture detection: the inference core, in Dafny

This project models the posture logic of the two browser controllers of the
posture-detection app:

- `PoseDetection` in `public/js/shoulders.js` watches body landmarks. It
  calibrates a shoulder angle and a neck angle. It smooths each live angle
  over the last 10 frames and classifies it against its baseline
  (tolerance 12° for the shoulders, 18° for the neck). It attempts a
  notification for each deviation and builds a recommendation text.
- `PostureDetection` in `public/js/app.js` watches face landmarks. It
  calibrates a head angle and a lip distance. It flags a head drop when
  the raw angle is more than 15° below the baseline. It runs a mouth-open
  timer that alerts once the lips have stayed more than 1.5 times the
  baseline apart for over 5000 ms.

Both controllers send notifications through the same per-category cooldown
of 30 000 ms. It overwrites the category's timestamp with `now` before it
tests the cooldown. So an attempt that is suppressed still restarts the
window. `Cooldown.SteadyCallsFireAtMostOnce` shows the consequence: a
deviation that is attempted at least once every 30 s produces at most one
notification, at its first attempt, and only if that attempt comes at least
30 s after the category's previous attempt.

Layout, one module per file:

| file | module | models |
|---|---|---|
| `nullable.dfy` | `Nullable` | `null` fields and JavaScript truthiness of numbers and timestamps |
| `numeric.dfy` | `Numeric` | `reduce((a, b) => a + b) / length`: sums, means and their bounds |
| `geometry.dfy` | `Geometry` | the fold at the end of `calculateAngle` |
| `smoothing.dfy` | `Smoothing` | the push-then-shift window of the smoothing buffers |
| `cooldown.dfy` | `Cooldown` | the decision inside `sendNotification`, shared by both controllers |
| `mouth_timer.dfy` | `MouthTimer` | the mouth-open duration timer of `onResults` in app.js |
| `feedback.dfy` | `PostureFeedback` | shoulder/neck classification and `updateRecommendations` |
| `shoulders.dfy` | `Shoulders` | class `PoseDetection` |
| `app.dfy` | `App` | class `PostureDetection` |

The two controllers are classes whose fields are the source's fields. The
methods update those fields and state the new state in their `ensures`
clauses. Several variables live only inside the `setInterval` closure of
`startCalibration`: the sample lists, `currentFrame`, and whether the
interval is still running. In shoulders.js every click on the calibrate
button creates a new closure and a new interval, and nothing clears an
earlier one; the calibrate button is enabled again by `startCamera` after
`stop`. So `PoseDetection` keeps a sequence `intervals` of these closure
states (`Shoulders.Collector`), and `CalibrationTick(k)` is one tick of
interval `k`. In app.js the start button is never enabled again, so only
one interval can ever run; `PostureDetection` keeps its closure state as
plain fields.
Angles and distances are `real`. Timestamps are `int` milliseconds, passed
in as `now`. Notification permission is the `granted` input. Whether a
notification is shown is the `fired` result.

The trigonometry is not modelled. `Geometry.Sweep` stands for the
magnitude `|atan2(...) - atan2(...)| * 180 / pi` in [0, 360]. A frame
carries that value as input, and `Geometry.CalculateAngle` folds it into
[0, 180]. The lip distance is a non-negative input, `Geometry.Distance`.

Behaviour kept as the code has it:

- A suppressed attempt still overwrites the category's timestamp.
- Calibration has no limit on attempts and no failed state. The tick keeps
  waiting until it has 100 accepted frames.
- Shoulder, neck and head alerts are attempted on every deviating frame.
  Only the cooldown limits them. Only the mouth alert has a duration gate.
- Once the mouth alert is due, the mouth timer is not re-armed. An alert
  is attempted on every further open frame, and the cooldown lets at most
  one through.
- app.js checks the head on the raw angle of each frame. Its smoothing
  buffer belongs to a `checkPosture` that nothing calls.

## Model

| member | source | states |
|---|---|---|
| `Numeric.Mean` | public/js/shoulders.js:169-170 | `reduce((a, b) => a + b) / length`: the left-to-right sum divided by the count, defined only for a non-empty list, as `reduce` without a seed throws on an empty one (also shoulders.js:296-297 and app.js:161-162) |
| `Numeric.MeanWithin` | public/js/shoulders.js:169-170 | the mean of values that all lie in [lo, hi] lies in [lo, hi]; so every baseline and every smoothed angle is an angle in [0, 180] |
| `Numeric.MeanOfConstant` | public/js/shoulders.js:296-297 | the mean of a buffer holding one repeated value is that value |
| `Geometry.CalculateAngle` | public/js/shoulders.js:142-147 | the folded angle lies in [0, 180]; it is the sweep or 360 minus the sweep, whichever is smaller (app.js repeats the fold at lines 130-131) |
| `Smoothing.LastN` | public/js/shoulders.js:285-293 | the window holds min(n, 10) values |
| `Smoothing.PushShift` | public/js/shoulders.js:285-293 | push the new angle, then drop the oldest once the buffer is longer than its size |
| `Smoothing.PushShiftKeepsWindow` | public/js/shoulders.js:285-293 | a buffer that holds the last 10 values pushed still does after one push and at most one shift |
| `Smoothing.WindowIsNewest` | public/js/shoulders.js:285-293 | the window holds the newest values of the history in arrival order, the newest last |
| `Cooldown.Gate` | public/js/shoulders.js:73-98 | without permission nothing changes and nothing is shown; with it the timestamp becomes `now`, shown or not, and a notification is shown iff `now − last ≥ 30000` (app.js:66-95 is the same code) |
| `Cooldown.SecondCallWithinCooldownSuppressed` | public/js/app.js:76-87 | of two permitted calls less than 30 s apart, the second is suppressed |
| `Cooldown.SpacedCallsBothFire` | public/js/app.js:76-87 | two permitted calls each at least 30 s after the previous timestamp both show a notification |
| `Cooldown.SteadyCallsWithinCooldownSilent` | public/js/shoulders.js:81-91 | a series of calls less than 30 s apart that starts within 30 s of the stored timestamp shows nothing |
| `Cooldown.SteadyCallsFireAtMostOnce` | public/js/shoulders.js:81-91 | a series of calls less than 30 s apart shows at most one notification, and shows one iff its first call is at least 30 s after the stored timestamp |
| `MouthTimer.MouthStep` | public/js/app.js:257-274 | a closed frame clears the timer; an open frame arms an unarmed timer and attempts nothing; on an armed timer an alert is attempted iff more than 5000 ms have passed, and the start time is kept |
| `MouthTimer.OpenRunStart` | public/js/app.js:270-271 | the index where the trailing run of open frames begins: every frame after it is open and the one before it is closed |
| `MouthTimer.TimerTracksOpenRun` | public/js/app.js:257-274 | after any series of frames the timer holds the time of the first frame of the current open run, and is null after a closed frame |
| `MouthTimer.MouthAlertIffOpenTooLong` | public/js/app.js:257-269 | an open frame attempts a `mouth` alert iff the mouth has been open on every frame since one more than 5000 ms earlier |
| `PostureFeedback.ClassifyShoulders` | public/js/shoulders.js:299-320 | good iff the smoothed angle is within 12° of the baseline; hunched iff more than 12° above; too far back iff more than 12° below |
| `PostureFeedback.ClassifyNeck` | public/js/shoulders.js:322-343 | good iff within 18° of the baseline; head too far forward iff more than 18° below; too far back iff more than 18° above |
| `PostureFeedback.ShoulderText` | public/js/shoulders.js:306-318 | the shoulder status line written for each posture |
| `PostureFeedback.NeckText` | public/js/shoulders.js:329-341 | the neck status line written for each posture |
| `PostureFeedback.Includes` | public/js/shoulders.js:362-372 | `String.prototype.includes`: a search for the phrase from index 0 onwards |
| `PostureFeedback.IncludesMeansOccurs` | public/js/shoulders.js:362-372 | the search succeeds iff the phrase occurs at some index of the text |
| `PostureFeedback.ShoulderPhrases` | public/js/shoulders.js:362-366 | a shoulder status line contains "hunched" iff the shoulders are hunched, and "too far back" iff they are too far back |
| `PostureFeedback.NeckPhrases` | public/js/shoulders.js:368-372 | a neck status line contains "too far forward" iff the head is too far forward, and "too far back" iff it is too far back |
| `PostureFeedback.NamesIssueIffDeviating` | public/js/shoulders.js:359-378 | the two status lines name a deviation iff the shoulders or the neck deviate |
| `PostureFeedback.UpdateRecommendations` | public/js/shoulders.js:359-381 | the text is the praise line iff neither status names a deviation; otherwise it is the shoulder advice, then the neck advice, then the closing sentence, so it ends with "Take a short break to stretch if needed." |
| `Shoulders.AllConfident` | public/js/shoulders.js:222-225 | `every` over a list of indices holds iff each listed landmark is confident |
| `Shoulders.CheckLandmarksVisibility` | public/js/shoulders.js:220-226 | true iff each of landmarks 0, 11, 12, 23 and 24 exists and has a visibility above 0.7 |
| `Shoulders.PoseDetection.constructor` | public/js/shoulders.js:19-42 | empty buffers, null baselines, zero timestamps, no calibration interval started |
| `Shoulders.PoseDetection.Progress` | public/js/shoulders.js:213 | the progress an interval shows lies in [0, 1] and is 1 exactly when it has counted 100 frames |
| `Shoulders.PoseDetection.SendNotification` | public/js/shoulders.js:73-98 | the category's timestamp and the result follow `Cooldown.Gate`; the other category's timestamp is untouched |
| `Shoulders.PoseDetection.StartCalibration` | public/js/shoulders.js:151-164 | a new running interval with empty sample lists and counter 0 is added; every interval started earlier, running or not, is kept as it was; baselines untouched |
| `Shoulders.PoseDetection.CalibrationTick` | public/js/shoulders.js:164-216 | one tick of running interval `k`: once it has counted 100 frames, it stops and stores each of its list's means as the baseline; otherwise a usable latest result appends one angle to each of its lists and counts the frame, and any other tick changes nothing; no other interval changes, and in every interval both list lengths equal its counter |
| `Shoulders.PoseDetection.PushAngles` | public/js/shoulders.js:284-297 | each buffer becomes the last 10 angles of its history extended by the new angle; both buffers are non-empty and average to an angle |
| `Shoulders.PoseDetection.WindowWithin` | public/js/shoulders.js:296-297 | the buffer of a non-empty history is non-empty and its mean is an angle |
| `Shoulders.PoseDetection.NotifyDeviations` | public/js/shoulders.js:299-343 | each smoothed angle is classified against its baseline; a notification is attempted for each deviation and only for one, shoulders first |
| `Shoulders.PoseDetection.CheckPosture` | public/js/shoulders.js:253-356 | an unusable frame changes nothing; a usable one pushes both angles, averages the buffers, classifies, attempts the deviation notifications, and gives the praise line iff both postures are good |
| `Shoulders.PoseDetection.OnResults` | public/js/shoulders.js:229-250 | stores the result; checks posture iff there are landmarks and both baselines are set and non-zero, and otherwise changes nothing else |
| `Shoulders.PoseDetection.Reset` | public/js/shoulders.js:399-403 | both baselines null and both buffers empty, so `OnResults` skips the posture check until the next calibration |
| `App.HeadDropping` | public/js/app.js:242 | the head counts as dropping iff the raw angle is more than 15° below the baseline |
| `App.HeadDropThreshold` | public/js/app.js:242 | the head-drop test is a threshold: a lower angle drops too, the baseline angle never drops, and a baseline of at most 15° never sees a drop |
| `App.MouthOpen` | public/js/app.js:257 | the mouth counts as open iff the lips are more than 1.5 times the baseline distance apart |
| `App.MouthOpenThreshold` | public/js/app.js:257 | the mouth-open test is a threshold: a wider distance is open too, the baseline distance is never open, and with a zero baseline any positive distance is open |
| `App.PostureDetection.constructor` | public/js/app.js:27-37 | null baselines and timer, zero timestamps, no calibration running |
| `App.PostureDetection.Progress` | public/js/app.js:185 | calibration progress lies in [0, 1] and is 1 exactly when 100 frames are counted |
| `App.PostureDetection.SendNotification` | public/js/app.js:66-95 | the category's timestamp and the result follow `Cooldown.Gate`; the other category's timestamp is untouched |
| `App.PostureDetection.StartCalibration` | public/js/app.js:144-157 | fresh sample lists, counter 0, interval running; baselines untouched |
| `App.PostureDetection.CalibrationTick` | public/js/app.js:157-187 | once 100 frames are counted, stops and stores each list's mean as its baseline; otherwise any latest result with face landmarks appends one angle and one distance and counts the frame, with no visibility filter |
| `App.PostureDetection.OnResults` | public/js/app.js:226-276 | stores the result; with face landmarks and a non-zero head baseline it attempts a `head` alert iff the raw angle is below baseline − 15 and steps the mouth timer (`MouthTimer.MouthStep`), attempting a `mouth` alert only when the timer says so; otherwise no timer or timestamp changes |

## Left out

- DOM, MDC and UI writes (status colours, progress-bar widget, button states) are presentation only. The status lines are kept as values because `updateRecommendations` reads them.
- Camera and MediaPipe set-up and wiring (`startCamera`, `setupPose`, `setupEventListeners`, `stop`) are I/O and foreign library calls.
- The Notification API and `requestNotificationPermission` are browser services. Permission is the `granted` input. Titles, message bodies and icons are not modelled.
- `setInterval` is scheduling. Each `CalibrationTick` call is one tick, and the 30 ms period is not modelled. A tick only runs while its interval is live; that is the `active` requirement of `Shoulders.PoseDetection.CalibrationTick` and the `calibrationActive` requirement of `App.PostureDetection.CalibrationTick`. How the ticks of several live intervals interleave is left to the caller.
- `Math.atan2`, `Math.sqrt` and `Math.pow` are floating-point trigonometry and roots. The mid-shoulder and mid-hip points exist only to feed them, so they are left out too. Their results enter as `Sweep` and `Distance` inputs.
- Floating point: the model uses exact reals. `10 * 1.2` and `15 * 1.2` evaluate to exactly 12 and 18 in doubles as well. NaN and its truthiness are not modelled.
- `checkPosture` in app.js (lines 190-222) is never called and calls an undefined method. Its `headAngleBuffer`, `bufferSize` 5, `sensitivityMultiplier` and `confidenceThreshold` are therefore dead state.
- app.js reads `Date.now()` up to three times in one `onResults`. The model uses one `now` per frame.
- A present but empty `multiFaceLandmarks` array makes the source throw a TypeError on `landmarks[33]`. The model treats present face landmarks as a first face.
- `service-worker.js` is cache, fetch and sync plumbing over browser APIs, and is not part of this model.
- `console.log` output.
- `MouthTimer.TimerTracksOpenRun`: assumes every timestamp is non-zero, as `Date.now()` is. A zero start time is falsy in the source and would be re-armed on the next open frame. `MouthStep` itself models that case.
- `MouthTimer.MouthAlertIffOpenTooLong`: makes the same non-zero timestamp assumption.
