/**
 * The sliding-window smoothing buffer of `checkPosture`: push the newest
 * value, then `shift` the oldest once the buffer is longer than its size.
 */
module Smoothing {

  /** The last `n` values of `h` (all of `h` when it is shorter), in arrival order. */
  function LastN(h: seq<real>, n: nat): (w: seq<real>)
    ensures |w| == if |h| <= n then |h| else n
  {
    if |h| <= n then h else h[|h| - n..]
  }

  /** One push followed by at most one shift, as `checkPosture` does it. */
  function PushShift(buffer: seq<real>, v: real, n: nat): seq<real> {
    var pushed := buffer + [v];
    if |pushed| > n then pushed[1..] else pushed
  }

  /**
   * A buffer that holds the last `n` values of a history still holds the last
   * `n` values after one push-then-shift: one shift is always enough.
   */
  lemma {:induction false} PushShiftKeepsWindow(h: seq<real>, v: real, n: nat)
    ensures PushShift(LastN(h, n), v, n) == LastN(h + [v], n)
  {
    var h' := h + [v];
    if |h| < n {
      assert LastN(h, n) == h;
    } else if |h| == n {
      assert LastN(h, n) + [v] == h';
      assert h'[1..] == h'[|h'| - n..];
    } else {
      assert LastN(h, n) + [v] == h'[|h| - n..];
      assert h'[|h| - n..][1..] == h'[|h'| - n..];
    }
  }

  /** The window holds exactly the newest values of the history, newest last. */
  lemma WindowIsNewest(h: seq<real>, n: nat, i: nat)
    requires i < |LastN(h, n)|
    ensures LastN(h, n)[i] == h[|h| - |LastN(h, n)| + i]
    ensures |h| > 0 && n > 0 ==> LastN(h, n)[|LastN(h, n)| - 1] == h[|h| - 1]
  {
  }
}
