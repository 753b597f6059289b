/**
 The announcement loop: one webhook post per new clip, in order, stopping
 at the first post the webhook rejects (the exception ends the loop).
 */
module Notifier {
  import opened Clips

  /** The clips whose post the webhook accepted, and the clip whose post it
      rejected, if any. */
  datatype Delivery = Delivered(sent: seq<Clip>) | Stopped(sent: seq<Clip>, rejected: Clip)

  /** Posts each pending clip in turn and stops at the first post the
      webhook rejects; `accepts` gives the webhook's answer for each clip. */
  function NotifyAll(pending: seq<Clip>, accepts: Clip -> bool): (d: Delivery)
    ensures |d.sent| <= |pending| && d.sent == pending[..|d.sent|]
    ensures forall i :: 0 <= i < |d.sent| ==> accepts(pending[i])
    ensures d.Delivered? <==> forall i :: 0 <= i < |pending| ==> accepts(pending[i])
    ensures d.Delivered? ==> d.sent == pending
    ensures d.Stopped? ==> |d.sent| < |pending| && d.rejected == pending[|d.sent|]
                           && !accepts(d.rejected)
    decreases |pending|
  {
    if |pending| == 0 then Delivered([])
    else if !accepts(pending[0]) then Stopped([], pending[0])
    else
      match NotifyAll(pending[1..], accepts)
      case Delivered(rest) => Delivered([pending[0]] + rest)
      case Stopped(rest, bad) => Stopped([pending[0]] + rest, bad)
  }
}
