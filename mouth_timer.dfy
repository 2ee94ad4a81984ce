/**
 * The mouth-open duration timer of `onResults` in app.js: the first "open"
 * frame arms `mouthOpenStartTime`, an alert is attempted once more than
 * 5000 ms have passed since then, and any "closed" frame disarms it.
 */
module MouthTimer {
  import opened Nullable

  /** How long, in milliseconds, the mouth may stay open before an alert. */
  const MouthOpenLimit: int := 5000

  /** One evaluated frame: whether the mouth counted as open, and `Date.now()`. */
  datatype MouthFrame = MouthFrame(open: bool, time: int)

  /** The timer after one frame, and whether a `mouth` alert is attempted. */
  datatype TimerStep = TimerStep(start: Option<int>, alert: bool)

  /**
   * One frame. A closed frame clears the timer whatever it held; an open
   * frame arms an unarmed (null or 0) timer and attempts nothing; an open
   * frame on an armed timer keeps the start time and attempts an alert iff
   * strictly more than the limit has passed.
   */
  function MouthStep(start: Option<int>, open: bool, now: int): (r: TimerStep)
    ensures !open ==> r.start == None && !r.alert
    ensures open && !IsTruthyTime(start) ==> r.start == Some(now) && !r.alert
    ensures r.alert <==> open && IsTruthyTime(start) && now - start.value > MouthOpenLimit
    ensures open && IsTruthyTime(start) ==> r.start == start
  {
    if !open then TimerStep(None, false)
    else if !IsTruthyTime(start) then TimerStep(Some(now), false)
    else TimerStep(start, now - start.value > MouthOpenLimit)
  }

  /** The timer after a series of evaluated frames, starting from `null`. */
  function TimerAfter(frames: seq<MouthFrame>): Option<int>
    decreases |frames|
  {
    if frames == [] then None
    else
      var last := frames[|frames| - 1];
      MouthStep(TimerAfter(frames[..|frames| - 1]), last.open, last.time).start
  }

  /** Where the trailing run of open frames begins; `|frames|` when the last frame is closed. */
  function OpenRunStart(frames: seq<MouthFrame>): (k: nat)
    ensures k <= |frames|
    ensures forall i :: k <= i < |frames| ==> frames[i].open
    ensures k > 0 ==> !frames[k - 1].open
    decreases |frames|
  {
    if frames == [] || !frames[|frames| - 1].open then |frames|
    else OpenRunStart(frames[..|frames| - 1])
  }

  /** `Date.now()` is never 0, so an armed timer is always truthy. */
  predicate NonzeroTimes(frames: seq<MouthFrame>) {
    forall i :: 0 <= i < |frames| ==> frames[i].time != 0
  }

  /**
   * The timer holds the time of the first frame of the current open run,
   * and is null when the latest frame was closed.
   */
  lemma {:induction false} TimerTracksOpenRun(frames: seq<MouthFrame>)
    requires NonzeroTimes(frames)
    ensures var k := OpenRunStart(frames);
            TimerAfter(frames) == if k < |frames| then Some(frames[k].time) else None
    decreases |frames|
  {
    if frames != [] {
      var init := frames[..|frames| - 1];
      assert NonzeroTimes(init) by {
        forall i | 0 <= i < |init| ensures init[i].time != 0 {
          assert init[i] == frames[i];
        }
      }
      TimerTracksOpenRun(init);
      var k := OpenRunStart(init);
      if frames[|frames| - 1].open && k < |init| {
        assert init[k] == frames[k];
      }
    }
  }

  /**
   * A `mouth` alert is attempted on an open frame iff the mouth has been
   * open on every evaluated frame since a frame more than 5000 ms earlier:
   * a run of open frames that closes before then never alerts.
   */
  lemma MouthAlertIffOpenTooLong(frames: seq<MouthFrame>, now: int)
    requires NonzeroTimes(frames)
    ensures var k := OpenRunStart(frames);
            (MouthStep(TimerAfter(frames), true, now).alert
             <==> k < |frames| && now - frames[k].time > MouthOpenLimit)
  {
    TimerTracksOpenRun(frames);
  }
}
