/**
 The records the clip announcer works with: a clip as returned by the clips
 endpoint, the failures that end a run, and the success/failure wrapper the
 run's steps return.
 */
module Clips {

  /** A clip: its platform-assigned identifier and the two fields the
      announcement uses. Identity is `id`. */
  datatype Clip = Clip(id: string, broadcasterName: string, url: string)

  /** Every way a run of the announcer can end early. Each is an unhandled
      exception in the program, so the process exits with an error. */
  datatype Failure =
    | TokenRejected          // raise_for_status on the token endpoint
    | LookupRejected         // raise_for_status on the users endpoint
    | NoSuchUser             // `data[0]` on an empty users list
    | FetchRejected          // raise_for_status on the clips endpoint
    | CorruptLog             // the log file exists but is not valid JSON
    | WebhookRejected(clipId: string)  // raise_for_status on the webhook post
    | LogEntryNotRecord      // `clip["id"]` evaluated on an identifier string
    | LogWriteFailed         // opening or writing the log file raises

  datatype Result<+T> = Ok(value: T) | Err(error: Failure)

  /** The identifiers of a list of clips, in list order. */
  function Ids(s: seq<Clip>): (r: seq<string>)
    ensures |r| == |s|
    ensures forall i :: 0 <= i < |s| ==> r[i] == s[i].id
    ensures forall c :: c in s ==> c.id in r
  {
    if |s| == 0 then [] else [s[0].id] + Ids(s[1..])
  }

  /** Within `s`, a clip's identifier determines the whole record: the
      platform never hands out one identifier for two different clips. */
  predicate IdsIdentify(s: seq<Clip>) {
    forall x, y :: x in s && y in s && x.id == y.id ==> x == y
  }
}
