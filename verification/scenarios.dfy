/**
 Concrete runs of the announcer on small worlds: the everyday cases, and the
 sequence of runs that shows the save step failing once the log holds a clip.
 */
module Scenarios {
  import IdOrder
  import Sorting
  import Diff
  import Notifier
  import opened Clips
  import opened ClipLog
  import opened Pipeline

  const c1 := Clip("c1", "streamer", "https://clips.example/c1")
  const c2 := Clip("c2", "streamer", "https://clips.example/c2")

  /** A world where every endpoint answers and the webhook accepts every post. */
  function Healthy(fetched: seq<Clip>, log: LogFile): World {
    World(Answered("token"), Answered(["1234"]), Answered(fetched), log, _ => true, Writable)
  }

  /** First run ever: both fetched clips are announced in fetch order and the
      log then holds both. */
  lemma FirstRunAnnouncesAll(saver: Saver)
    ensures Run(Healthy([c1, c2], Absent), saver)
            == RunResult([c1, c2], Stored([c1, c2]), Completed(LogUpdated))
  {
    var w := Healthy([c1, c2], Absent);
    Diff.NewClipsOnEmptyLog([c1, c2]);
    assert Pending(w) == [c1, c2];
    assert Notifier.NotifyAll([c1, c2], w.accepts) == Notifier.Delivered([c1, c2]);
    assert Sorting.SortById([c1, c2]) == [c1, c2] by {
      assert IdOrder.Below(c1.id, c2.id);
      Sorting.SortByIdOfSorted([c1, c2]);
    }
    assert Save(saver, [c1, c2], Absent) == Ok(SaveOutcome(Stored([c1, c2]), Written));
  }

  /** Nothing new: nothing is announced and the log is not touched. */
  lemma NothingNewIsQuiet(saver: Saver)
    ensures Run(Healthy([c1], Stored([c1])), saver)
            == RunResult([], Stored([c1]), Completed(NoNewClips))
  {
  }

  /** An empty users list ends the run before any clip is fetched or announced. */
  lemma UnknownUserAborts(saver: Saver, log: LogFile)
    ensures Run(World(Answered("token"), Answered([]), HttpError, log, _ => true, Writable), saver)
            == RunResult([], log, Aborted(NoSuchUser))
  {
  }

  /** The webhook rejects the first of two new clips: the run ends there and
      the log keeps neither, so both are retried by the next run. */
  lemma RejectedPostKeepsLog(saver: Saver)
    ensures Run(World(Answered("token"), Answered(["1234"]), Answered([c1, c2]), Absent, c => c != c1, Writable), saver)
            == RunResult([], Absent, Aborted(WebhookRejected("c1")))
  {
  }

  /** The defect as written: after a first run stores `c1`, a run that also
      fetches `c2` announces `c2`, fails in the save step and leaves the log
      holding only `c1`; the next three runs announce `c2` again. */
  lemma SecondClipAnnouncedRepeatedly()
    ensures Run(Healthy([c1], Absent), AsWritten)
            == RunResult([c1], Stored([c1]), Completed(LogUpdated))
    ensures forall i :: 0 <= i < 3 ==>
              Repeat(Healthy([c1, c2], Stored([c1])), AsWritten, 3)[i]
              == RunResult([c2], Stored([c1]), Aborted(LogEntryNotRecord))
  {
    var w := Healthy([c1, c2], Stored([c1]));
    assert Diff.NewClips([c1, c2], ["c1"]) == [c2];
    ReannouncedEveryRun(w, 3);
  }

  /** The same runs with the intended save: `c2` is announced once, the log
      then holds both clips, and the following runs are quiet. */
  lemma SecondClipAnnouncedOnce()
    ensures Run(Healthy([c1, c2], Stored([c1])), Corrected)
            == RunResult([c2], Stored([c1, c2]), Completed(LogUpdated))
    ensures forall i :: 1 <= i < 3 ==>
              Repeat(Healthy([c1, c2], Stored([c1])), Corrected, 3)[i]
              == RunResult([], Stored([c1, c2]), Completed(NoNewClips))
  {
    SecondClipStored();
    CorrectedRunSettles(Healthy([c1, c2], Stored([c1])), 3);
  }

  lemma SecondClipStored()
    ensures Run(Healthy([c1, c2], Stored([c1])), Corrected)
            == RunResult([c2], Stored([c1, c2]), Completed(LogUpdated))
  {
    var w := Healthy([c1, c2], Stored([c1]));
    assert Diff.NewClips([c1, c2], ["c1"]) == [c2];
    assert Pending(w) == [c2];
    assert Notifier.NotifyAll([c2], w.accepts) == Notifier.Delivered([c2]);
    SecondClipSaved();
  }

  lemma SecondClipSaved()
    ensures SaveIfChanged([c1, c2], Stored([c1])) == Ok(SaveOutcome(Stored([c1, c2]), Written))
  {
    assert Sorting.SortById([c1, c2]) == [c1, c2] by {
      assert IdOrder.Below(c1.id, c2.id);
      Sorting.SortByIdOfSorted([c1, c2]);
    }
    assert Sorting.SortById([c1]) == [c1];
  }
}
