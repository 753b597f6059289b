/**
 One run of the clip announcer (`main`): fetch the recent clips, diff them
 against the identifiers in the clip log, stop if nothing is new, otherwise
 post each new clip to the webhook in fetch order and, once every post has
 gone through, save the fetched clips to the log.

 The network and the file system are inputs: a `World` holds the answers
 the three platform endpoints give, the log file as the run finds it, the
 webhook's answer for each clip, and how a rewrite of the log file goes.
 */
module Pipeline {
  import opened Clips
  import opened Diff
  import opened Notifier
  import opened ClipLog
  import Sorting

  /** An endpoint's answer: a body, or a non-success status that
      `raise_for_status` turns into an exception. */
  datatype Reply<+T> = Answered(body: T) | HttpError

  /** What happens when the save step rewrites the log file. `open(..., "w")`
      can raise before touching the file (a missing `./data` directory, no
      permission), or succeed, truncate the file, and `json.dump` then fail
      part way (a full disk), leaving a file that no longer parses. */
  datatype Disk = Writable | OpenFails | DumpFails

  datatype World = World(
    token: Reply<string>,          // token endpoint: the access token
    users: Reply<seq<string>>,     // users endpoint: the ids in `data`, in order
    clips: Reply<seq<Clip>>,       // clips endpoint: the clips in `data`, in order
    log: LogFile,                  // the clip log file at the start of the run
    accepts: Clip -> bool,         // whether the webhook accepts the post for a clip
    disk: Disk                     // how a rewrite of the log file goes
  )

  /** How a run ends: normally, with the status line it prints, or with the
      exception that ends the process. */
  datatype Status = NoNewClips | LogUpdated | LogUnchanged
  datatype Outcome = Completed(status: Status) | Aborted(error: Failure)

  /** The clips whose post succeeded, the log file after the run, and how
      the run ended. */
  datatype RunResult = RunResult(notified: seq<Clip>, log: LogFile, outcome: Outcome)

  /** Which save step the run ends with. */
  datatype Saver = AsWritten | Corrected

  /** Either save step leaves, when it succeeds, a readable log holding
      exactly the given clips. */
  function Save(saver: Saver, clips: seq<Clip>, log: LogFile): (r: Result<SaveOutcome>)
    ensures r.Ok? ==> !r.value.log.Unreadable?
    ensures r.Ok? ==> multiset(Entries(r.value.log)) == multiset(clips)
  {
    match saver
    case AsWritten => SaveAsWritten(clips, log)
    case Corrected => SaveIfChanged(clips, log)
  }

  /** `get_twitch_access_token` then `get_recent_clips`, which resolves the
      broadcaster through `get_broadcaster_id` before it asks for clips. */
  function Fetch(w: World): (r: Result<seq<Clip>>)
    ensures w.token.HttpError? ==> r == Err(TokenRejected)
    ensures w.token.Answered? && w.users.HttpError? ==> r == Err(LookupRejected)
    ensures w.token.Answered? && w.users == Answered([]) ==> r == Err(NoSuchUser)
    ensures (w.token.Answered? && w.users.Answered? && |w.users.body| > 0 && w.clips.HttpError?)
              ==> r == Err(FetchRejected)
    ensures r.Ok? <==> w.token.Answered? && w.users.Answered? && |w.users.body| > 0
                       && w.clips.Answered?
    ensures r.Ok? ==> r.value == w.clips.body
  {
    if w.token.HttpError? then Err(TokenRejected)
    else if w.users.HttpError? then Err(LookupRejected)
    else if |w.users.body| == 0 then Err(NoSuchUser)
    else if w.clips.HttpError? then Err(FetchRejected)
    else Ok(w.clips.body)
  }

  /** The clips a run sets out to announce: the new ones, when the fetch and
      the log load both succeed. */
  function Pending(w: World): seq<Clip> {
    match Fetch(w)
    case Err(_) => []
    case Ok(fetched) =>
      match LoadSentIds(w.log)
      case Err(_) => []
      case Ok(sent) => NewClips(fetched, sent)
  }

  /** Every clip the run sets out to announce is accepted by the webhook. */
  predicate AllAccepted(w: World) {
    forall c :: c in Pending(w) ==> w.accepts(c)
  }

  /** The log file after the save step asked to replace `log` by `written`. */
  function Rewrite(disk: Disk, log: LogFile, written: LogFile): LogFile {
    match disk
    case Writable => written
    case OpenFails => log
    case DumpFails => Unreadable
  }

  /** `main`, ending with the given save step. */
  function Run(w: World, saver: Saver): (r: RunResult)
    // what is announced: new clips only, in fetch order, all of them unless a post is rejected
    ensures |r.notified| <= |Pending(w)| && r.notified == Pending(w)[..|r.notified|]
    ensures forall c :: c in r.notified ==> w.accepts(c)
    ensures AllAccepted(w) ==> r.notified == Pending(w)
    // the early failures and the early normal exit
    ensures Fetch(w).Err? ==> r == RunResult([], w.log, Aborted(Fetch(w).error))
    ensures Fetch(w).Ok? && LoadSentIds(w.log).Err? ==> r == RunResult([], w.log, Aborted(CorruptLog))
    ensures Fetch(w).Ok? && LoadSentIds(w.log).Ok? && Pending(w) == [] ==>
              r == RunResult([], w.log, Completed(NoNewClips))
    // a rejected post ends the run at the first rejected clip, before any save
    ensures (exists i :: 0 <= i < |Pending(w)| && !w.accepts(Pending(w)[i])) ==>
              r.outcome.Aborted? && r.outcome.error.WebhookRejected? && r.log == w.log
    ensures r.outcome.Aborted? && r.outcome.error.WebhookRejected? ==>
              |r.notified| < |Pending(w)| && !w.accepts(Pending(w)[|r.notified|])
              && r.outcome.error.clipId == Pending(w)[|r.notified|].id
    // once every post went through, the run ends as the save step and the write decide
    ensures Fetch(w).Ok? && Pending(w) != [] && AllAccepted(w) ==>
              var saved := Save(saver, Fetch(w).value, w.log);
              && (saved.Err? ==> r.outcome == Aborted(saved.error) && r.log == w.log)
              && (saved.Ok? && saved.value.status == Unchanged ==>
                    r.outcome == Completed(LogUnchanged) && r.log == w.log)
              && (saved.Ok? && saved.value.status == Written ==>
                    r.log == Rewrite(w.disk, w.log, saved.value.log)
                    && r.outcome == (if w.disk == Writable then Completed(LogUpdated) else Aborted(LogWriteFailed)))
    // the log changes only after every new clip was announced
    ensures r.log != w.log ==>
              && r.notified == Pending(w)
              && (r.outcome == Completed(LogUpdated) || r.outcome == Aborted(LogWriteFailed))
    ensures r.outcome.Aborted? && r.outcome.error != LogWriteFailed ==> r.log == w.log
    ensures r.outcome == Aborted(LogWriteFailed) ==>
              && Fetch(w).Ok? && w.disk != Writable && r.notified == Pending(w)
              && (w.disk == OpenFails ==> r.log == w.log)
              && (w.disk == DumpFails ==> r.log == Unreadable)
    ensures Pending(w) == [] ==> r.notified == [] && r.log == w.log
  {
    Step(w, saver)
  }

  /** One invocation of `main`, step by step; `Run` states what it does. */
  function Step(w: World, saver: Saver): RunResult
  {
    match Fetch(w)
    case Err(e) => RunResult([], w.log, Aborted(e))
    case Ok(fetched) =>
      match LoadSentIds(w.log)
      case Err(e) => RunResult([], w.log, Aborted(e))
      case Ok(sent) =>
        var unseen := NewClips(fetched, sent);
        if |unseen| == 0 then RunResult([], w.log, Completed(NoNewClips))
        else
          match NotifyAll(unseen, w.accepts)
          case Stopped(sent, bad) => RunResult(sent, w.log, Aborted(WebhookRejected(bad.id)))
          case Delivered(sent) =>
            match Save(saver, fetched, w.log)
            case Err(e) => RunResult(sent, w.log, Aborted(e))
            case Ok(s) =>
              if s.status == Unchanged then RunResult(sent, w.log, Completed(LogUnchanged))
              else if w.disk == Writable then RunResult(sent, s.log, Completed(LogUpdated))
              else RunResult(sent, Rewrite(w.disk, w.log, s.log), Aborted(LogWriteFailed))
  }

  /** A run that updates the log stores a snapshot of this fetch: exactly
      the fetched clips, sorted by identifier, whatever was stored before. */
  lemma RunStoresSnapshot(w: World, saver: Saver)
    ensures Run(w, saver).outcome == Completed(LogUpdated) ==>
              && Fetch(w).Ok? && Run(w, saver).log.Stored?
              && Sorting.SortedById(Run(w, saver).log.entries)
              && multiset(Run(w, saver).log.entries) == multiset(Fetch(w).value)
  {
  }

  /** As written, a run that finds new clips in a non-empty log announces
      all of them and then fails in the save step, leaving the log as it was. */
  lemma StuckAfterFirstWrite(w: World)
    requires w.log.Stored? && |w.log.entries| > 0
    requires Fetch(w).Ok? && Pending(w) != []
    requires forall c :: c in Pending(w) ==> w.accepts(c)
    ensures Run(w, AsWritten) == RunResult(Pending(w), w.log, Aborted(LogEntryNotRecord))
  {
  }

  /** As written, no run ever changes a non-empty log, whatever the platform,
      the webhook and the disk do. */
  lemma AsWrittenNeverRewritesStoredLog(w: World)
    requires w.log.Stored? && |w.log.entries| > 0
    ensures Run(w, AsWritten).log == w.log
  {
  }

  /** A write that breaks part way leaves a log no later run can load: each
      of them fails before announcing anything, and none repairs the file. */
  lemma BrokenWriteBlocksLaterRuns(w: World, saver: Saver, n: nat)
    ensures Run(w, saver).outcome == Aborted(LogWriteFailed) && w.disk == DumpFails ==>
              forall i :: 1 <= i < n ==>
                Repeat(w, saver, n)[i] == RunResult([], Unreadable, Aborted(CorruptLog))
  {
    var r := Run(w, saver);
    if r.outcome == Aborted(LogWriteFailed) && w.disk == DumpFails && n > 0 {
      assert Fetch(w).Ok? && r.log == Unreadable;
      FetchIgnoresLog(w, Unreadable);
      RunOnUnreadableLog(w.(log := Unreadable), saver);
      LaterRunsSettle(w, saver, n, RunResult([], Unreadable, Aborted(CorruptLog)));
    }
  }

  /** A log that does not parse stops every run that gets past the fetch. */
  lemma RunOnUnreadableLog(w: World, saver: Saver)
    requires Fetch(w).Ok? && w.log == Unreadable
    ensures Run(w, saver) == RunResult([], Unreadable, Aborted(CorruptLog))
  {
  }

  /** The fetch does not look at the log file. */
  lemma FetchIgnoresLog(w: World, log: LogFile)
    ensures Fetch(w.(log := log)) == Fetch(w)
  {
  }

  /** When the run that follows the first one leaves the log as it finds
      it, it is what every later run does. */
  lemma LaterRunsSettle(w: World, saver: Saver, n: nat, next: RunResult)
    requires n > 0
    requires next.log == Step(w, saver).log
    requires Step(w.(log := next.log), saver) == next
    ensures forall i :: 1 <= i < n ==> Repeat(w, saver, n)[i] == next
  {
    var w' := w.(log := next.log);
    StepRepeats(w', saver, n - 1);
    RepeatStep(w, saver, n);
  }

  /** The first of `n` runs, followed by the `n - 1` runs that start from
      the log it left. */
  lemma RepeatStep(w: World, saver: Saver, n: nat)
    requires n > 0
    ensures Repeat(w, saver, n) == [Step(w, saver)] + Repeat(w.(log := Step(w, saver).log), saver, n - 1)
    ensures forall i :: 1 <= i < n ==>
              Repeat(w, saver, n)[i] == Repeat(w.(log := Step(w, saver).log), saver, n - 1)[i - 1]
  {
  }

  /** The runs of an announcer invoked `n` times against the same platform
      and webhook answers, each run finding the log the previous one left. */
  function Repeat(w: World, saver: Saver, n: nat): (rs: seq<RunResult>)
    ensures |rs| == n
    decreases n
  {
    if n == 0 then []
    else
      var r := Step(w, saver);
      [r] + Repeat(w.(log := r.log), saver, n - 1)
  }

  /** A run that leaves the log as it found it is repeated verbatim by every
      later run: same announcements, same outcome. */
  lemma UnchangedLogRepeats(w: World, saver: Saver, n: nat)
    ensures Run(w, saver).log == w.log ==>
              forall i :: 0 <= i < n ==> Repeat(w, saver, n)[i] == Run(w, saver)
  {
    StepRepeats(w, saver, n);
  }

  lemma {:induction false} StepRepeats(w: World, saver: Saver, n: nat)
    ensures Step(w, saver).log == w.log ==>
              forall i :: 0 <= i < n ==> Repeat(w, saver, n)[i] == Step(w, saver)
    decreases n
  {
    if n > 0 && Step(w, saver).log == w.log {
      var w' := w.(log := Step(w, saver).log);
      assert w' == w;
      StepRepeats(w', saver, n - 1);
    }
  }

  /** The defect, over any number of runs: once the log is non-empty, new
      clips are announced again on every run and the log never catches up. */
  lemma ReannouncedEveryRun(w: World, n: nat)
    requires w.log.Stored? && |w.log.entries| > 0
    requires Fetch(w).Ok? && Pending(w) != []
    requires forall c :: c in Pending(w) ==> w.accepts(c)
    ensures forall i :: 0 <= i < n ==>
              Repeat(w, AsWritten, n)[i] == RunResult(Pending(w), w.log, Aborted(LogEntryNotRecord))
  {
    StuckAfterFirstWrite(w);
    UnchangedLogRepeats(w, AsWritten, n);
  }

  /** After a run that completes, every fetched clip's identifier is in the
      log, so the same fetch finds nothing new. */
  lemma CompletedRunCoversFetch(w: World, saver: Saver)
    ensures Run(w, saver).outcome.Completed? ==>
              && Fetch(w).Ok? && !Run(w, saver).log.Unreadable?
              && forall c :: c in Fetch(w).value ==> c.id in Ids(Entries(Run(w, saver).log))
  {
    var r := Run(w, saver);
    if r.outcome.Completed? {
      var fetched := Fetch(w).value;
      assert LoadSentIds(w.log).Ok?;
      if Pending(w) == [] {
        assert LoadSentIds(w.log).value == Ids(Entries(w.log));
      } else {
        assert AllAccepted(w);
        assert multiset(Entries(r.log)) == multiset(fetched);
        forall c | c in fetched
          ensures c.id in Ids(Entries(r.log))
        {
          assert c in multiset(Entries(r.log));
        }
      }
    }
  }

  /** With the intended save, a completed run settles the log: every later
      run against the same fetch announces nothing and writes nothing. */
  lemma CorrectedRunSettles(w: World, n: nat)
    ensures Run(w, Corrected).outcome.Completed? ==>
              forall i :: 1 <= i < n ==>
                Repeat(w, Corrected, n)[i] == RunResult([], Run(w, Corrected).log, Completed(NoNewClips))
  {
    var r := Run(w, Corrected);
    if r.outcome.Completed? && n > 0 {
      var w' := w.(log := r.log);
      CompletedRunCoversFetch(w, Corrected);
      FetchIgnoresLog(w, r.log);
      assert Pending(w') == [];
      LaterRunsSettle(w, Corrected, n, RunResult([], r.log, Completed(NoNewClips)));
    }
  }
}
