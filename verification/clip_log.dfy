/**
 The clip log: a JSON file holding the clips announced by the last run that
 wrote it. `LoadSentIds` reads the identifiers back; `SaveAsWritten` is the
 save step as the program has it, and `SaveIfChanged` the write-only-if-changed
 behaviour the save step is evidently meant to have.
 */
module ClipLog {
  import opened Clips
  import opened Sorting

  /** The log file as the run finds it. A file that exists but does not hold
      a JSON list of clip records is `Unreadable`. */
  datatype LogFile = Absent | Unreadable | Stored(entries: seq<Clip>)

  /** What the save step reports: the file was rewritten, or left alone. */
  datatype Saved = Written | Unchanged

  datatype SaveOutcome = SaveOutcome(log: LogFile, status: Saved)

  /** The clip records a log file holds; a missing file holds none. */
  function Entries(log: LogFile): seq<Clip> {
    if log.Stored? then log.entries else []
  }

  /** `load_sent_clips`: no file means nothing was sent; otherwise the
      identifiers of the stored clips, in stored order. */
  function LoadSentIds(log: LogFile): (r: Result<seq<string>>)
    ensures r.Err? <==> log.Unreadable?
    ensures r.Err? ==> r.error == CorruptLog
    ensures r.Ok? ==> |r.value| == |Entries(log)|
    ensures r.Ok? ==> forall i :: 0 <= i < |r.value| ==> r.value[i] == Entries(log)[i].id
  {
    match log
    case Absent => Ok([])
    case Unreadable => Err(CorruptLog)
    case Stored(entries) => Ok(Ids(entries))
  }

  /** `save_sent_clips_if_new` as written. It reloads the log through
      `LoadSentIds`, which yields identifier strings, and then sorts those with
      the key `clip["id"]`: indexing a string with "id" raises, so any
      non-empty log ends the save in `LogEntryNotRecord`. On an empty log the
      key is never evaluated, the existing list sorts to `[]`, and the file is
      written exactly when there is something to write. */
  function SaveAsWritten(clips: seq<Clip>, log: LogFile): (r: Result<SaveOutcome>)
    ensures log.Unreadable? ==> r == Err(CorruptLog)
    ensures log.Stored? && |log.entries| > 0 ==> r == Err(LogEntryNotRecord)
    ensures r.Ok? <==> |Entries(log)| == 0 && !log.Unreadable?
    ensures r.Ok? ==> (r.value.status == Written <==> |clips| > 0)
    ensures r.Ok? && r.value.status == Written ==>
              r.value.log.Stored? && SortedById(r.value.log.entries)
              && multiset(r.value.log.entries) == multiset(clips)
    ensures r.Ok? && r.value.status == Unchanged ==> r.value.log == log
    ensures r.Ok? ==> multiset(Entries(r.value.log)) == multiset(clips)
  {
    var sorted := SortById(clips);
    match LoadSentIds(log)
    case Err(e) => Err(e)
    case Ok(existing) =>
      if |existing| > 0 then Err(LogEntryNotRecord)
      else if sorted != [] then Ok(SaveOutcome(Stored(sorted), Written))
      else Ok(SaveOutcome(log, Unchanged))
  }

  /** The save step as intended: compare the id-sorted fetched clips with the
      id-sorted stored clips and rewrite the file only when they differ. The
      file then holds a snapshot of this fetch, not a union with history. */
  function SaveIfChanged(clips: seq<Clip>, log: LogFile): (r: Result<SaveOutcome>)
    ensures r.Err? <==> log.Unreadable?
    ensures r.Err? ==> r.error == CorruptLog
    ensures r.Ok? && r.value.status == Written ==>
              r.value.log.Stored? && SortedById(r.value.log.entries)
              && multiset(r.value.log.entries) == multiset(clips)
    ensures r.Ok? && r.value.status == Unchanged ==>
              r.value.log == log && multiset(Entries(log)) == multiset(clips)
  {
    if log.Unreadable? then Err(CorruptLog)
    else
      var sorted := SortById(clips);
      if sorted != SortById(Entries(log)) then Ok(SaveOutcome(Stored(sorted), Written))
      else Ok(SaveOutcome(log, Unchanged))
  }

  /** When a clip's identifier determines the clip, the intended save writes
      exactly when the stored clips are not an arrangement of the fetched
      ones: reordering alone causes no write. */
  lemma SaveIfChangedWritesIffContentDiffers(clips: seq<Clip>, log: LogFile)
    requires !log.Unreadable?
    requires IdsIdentify(clips + Entries(log))
    ensures SaveIfChanged(clips, log).Ok?
    ensures SaveIfChanged(clips, log).value.status == Written
            <==> multiset(clips) != multiset(Entries(log))
  {
    if multiset(clips) == multiset(Entries(log)) {
      forall x, y | x in clips && y in clips && x.id == y.id
        ensures x == y
      {
        assert x in clips + Entries(log) && y in clips + Entries(log);
      }
      SortByIdIgnoresOrder(clips, Entries(log));
    }
  }

  /** Saving the same clips twice in a row writes at most once: the second
      save finds the file up to date. */
  lemma SaveIfChangedIdempotent(clips: seq<Clip>, log: LogFile)
    requires !log.Unreadable?
    ensures SaveIfChanged(clips, log).Ok?
    ensures var first := SaveIfChanged(clips, log).value;
            SaveIfChanged(clips, first.log) == Ok(SaveOutcome(first.log, Unchanged))
  {
    var first := SaveIfChanged(clips, log).value;
    if first.status == Written {
      SortByIdOfSorted(SortById(clips));
    }
  }

  /** On an empty log, the save as written does what the intended save does;
      this is the only case where it succeeds. */
  lemma SaveAsWrittenAgreesOnEmptyLog(clips: seq<Clip>, log: LogFile)
    requires !log.Unreadable?
    ensures SaveAsWritten(clips, log).Ok? <==> |Entries(log)| == 0
    ensures |Entries(log)| == 0 ==> SaveAsWritten(clips, log) == SaveIfChanged(clips, log)
  {
  }

  /** As written, the save is not idempotent: once it has written a non-empty
      file, saving the same clips again fails. */
  lemma SaveAsWrittenFailsAfterFirstWrite(clips: seq<Clip>, log: LogFile)
    requires SaveAsWritten(clips, log).Ok?
    requires SaveAsWritten(clips, log).value.status == Written
    ensures SaveAsWritten(clips, SaveAsWritten(clips, log).value.log) == Err(LogEntryNotRecord)
  {
    var written := SaveAsWritten(clips, log).value.log;
    assert |written.entries| == |multiset(clips)| > 0;
  }
}
