# Clip announcer: a Dafny model of its run logic

The program polls a streaming platform for the clips created on one channel
in the last 24 hours. It posts each clip not yet announced to a chat webhook
and records the fetched clips in a JSON log file (`./data/clips_sent.json`).
It is a short script; this project models its decision logic as pure
functions over abstract inputs:

- `Clips`: the clip record (`id`, `broadcaster_name`, `url`) and the failures that end a run.
- `IdOrder`: Python's `<` on strings, the order the log is sorted by.
- `Diff`: the selection of new clips.
- `Sorting`: the stable sort by identifier.
- `ClipLog`: the log file, `load_sent_clips`, and two save steps. `SaveAsWritten` is the save as the program has it. `SaveIfChanged` is the write-only-if-changed behaviour it is evidently meant to have.
- `Notifier`: the loop that posts each new clip.
- `Pipeline`: `main` as a function from a `World` to a `RunResult`, plus repeated runs.
- `Scenarios`: concrete runs.

A `World` holds the inputs:

- the answers of the token, users and clips endpoints, each either a body or an HTTP error;
- the log file as the run finds it: absent, unreadable, or a stored list of clips;
- the webhook's answer for each clip;
- how a rewrite of the log file goes: it succeeds; `open(..., "w")` raises and leaves the file as it was; or the open truncates the file and `json.dump` then fails, leaving a file that no longer parses.

A `RunResult` holds the clips whose post succeeded, the log file after the run, and how the run ended. A run either completes, with the status line it prints, or aborts with the exception that ends the process.

The run takes the save step as a parameter (`Saver`), so the sequencing is
defined once. Every property of the sequencing is proved for both save steps.

## Model

| member | source | states |
|---|---|---|
| `IdOrder.BelowTotal` | main.py:74 | any two clip identifiers are equal or ordered one way or the other by Python's string `<` |
| `IdOrder.BelowTransitive` | main.py:74 | Python's string `<` is transitive, so sorting by identifier is well defined |
| `Diff.NewClips` | main.py:98 | a clip is new exactly when it is fetched and its id is not among the sent ids; the diff is empty exactly when every fetched id was sent |
| `Diff.NewClipsDistributes` | main.py:98 | the diff of a concatenation is the concatenation of the diffs, so new clips keep fetch order: a filter, not a reorder |
| `Diff.NewClipsOnEmptyLog` | main.py:64-65 | with no sent ids, every fetched clip is new, in fetch order |
| `Diff.NewClipsSubMultiset` | main.py:98 | every new clip is a fetched clip, and no clip appears among the new ones more often than it was fetched |
| `Sorting.SortById` | main.py:74 | the sorted list is a permutation of the clips with identifiers in ascending order |
| `Sorting.SortByIdOfSorted` | main.py:74 | sorting a list already sorted by identifier returns it unchanged |
| `Sorting.SortedPermutationsAgree` | main.py:74-79 | two id-sorted lists holding the same clips are equal when an identifier determines its clip |
| `Sorting.SortByIdIgnoresOrder` | main.py:73-79 | when an identifier determines its clip, two arrangements of the same clips sort to the same list, so their comparison sees no difference |
| `ClipLog.LoadSentIds` | main.py:63-69 | a missing log yields no ids, an unreadable one fails, a stored one yields its clips' ids in stored order |
| `ClipLog.SaveAsWritten` | main.py:72-84 | fails on an unreadable log and on any non-empty log, because line 76 indexes an id string with "id"; on an empty log it writes the sorted clips exactly when there are any |
| `ClipLog.SaveAsWrittenFailsAfterFirstWrite` | main.py:69-76 | once the save as written has written a file, saving the same clips again fails |
| `ClipLog.SaveAsWrittenAgreesOnEmptyLog` | main.py:75-79 | the save as written succeeds only on an empty log, and there it behaves as the intended save |
| `ClipLog.SaveIfChanged` | main.py:72-84 | a write stores a sorted permutation of the fetched clips (a snapshot, not a union with history); no write leaves the file as it was, and then it already held those clips |
| `ClipLog.SaveIfChangedWritesIffContentDiffers` | main.py:78-84 | when an identifier determines its clip, the intended save writes exactly when the stored clips are not a rearrangement of the fetched ones |
| `ClipLog.SaveIfChangedIdempotent` | main.py:78-84 | saving the same clips twice writes at most once; the second save reports no change |
| `Notifier.NotifyAll` | main.py:106-107 | posts go out in order and stop at the first rejected one; the clips sent are the prefix before it, and all are sent exactly when the webhook accepts every one |
| `Pipeline.Save` | main.py:79-81 | whichever save step runs, a successful save leaves a readable log holding exactly the fetched clips |
| `Pipeline.Fetch` | main.py:29-60 | the run fails at the token, users or clips endpoint in that order, each with its own failure; an empty users list fails before any clip is fetched; it succeeds exactly when all three answer and the users list is non-empty, and then yields the clips endpoint's list |
| `Pipeline.Run` | main.py:94-109 | announcements are a prefix of the new clips in fetch order, and all of them when the webhook accepts every one; a failed fetch or an unreadable log aborts with nothing announced; nothing new completes with "no new clips" and the log untouched; a rejected post aborts at that clip with the log as it was; once every post went through, the run ends as the save step decides: its failure aborts, "unchanged" completes with the log as it was, a write updates the log, or aborts when the file write fails (the log then unchanged or truncated); the log changes only after every new clip was announced |
| `Pipeline.RunStoresSnapshot` | main.py:79-81 | a run that updates the log stores exactly the fetched clips, sorted by identifier |
| `Pipeline.AsWrittenNeverRewritesStoredLog` | main.py:69-76 | as written, no run changes a non-empty log, whatever the endpoints, the webhook and the disk do |
| `Pipeline.BrokenWriteBlocksLaterRuns` | main.py:66-81 | a write that truncates the log and then fails leaves a file every later run fails to load, announcing nothing and leaving it as it is |
| `Pipeline.StuckAfterFirstWrite` | main.py:105-109 | as written, a run with new clips against a non-empty log announces all of them, then fails and leaves the log unchanged |
| `Pipeline.UnchangedLogRepeats` | main.py:94-109 | a run that leaves the log as it found it is repeated exactly by every later run |
| `Pipeline.ReannouncedEveryRun` | main.py:97-109 | as written, once the log is non-empty, the same new clips are announced again on every later run |
| `Pipeline.CompletedRunCoversFetch` | main.py:97-109 | after a run that completes, every fetched clip's id is in the log |
| `Pipeline.CorrectedRunSettles` | main.py:97-109 | with the intended save, every run after a completed one announces nothing and writes nothing |
| `Scenarios.FirstRunAnnouncesAll` | main.py:94-109 | with no log, clips c1 and c2 are announced in fetch order and the log then holds both |
| `Scenarios.NothingNewIsQuiet` | main.py:101-103 | when the log already holds the only fetched clip, nothing is announced and the log is untouched |
| `Scenarios.UnknownUserAborts` | main.py:60 | an empty users list aborts the run with nothing announced |
| `Scenarios.RejectedPostKeepsLog` | main.py:106-109 | a rejected post of the first of two clips aborts the run with the log unchanged |
| `Scenarios.SecondClipAnnouncedRepeatedly` | main.py:75-76 | as written, a first run stores c1; then each of three runs that also fetch c2 announces c2 and fails in the save step |
| `Scenarios.SecondClipAnnouncedOnce` | main.py:72-84 | with the intended save, c2 is announced once and the log then holds c1 and c2 |

## Findings

| source | as written | input that shows it | evidently intended | confidence | as-written member | corrected member |
|---|---|---|---|---|---|---|
| main.py:75-76 | `load_sent_clips` returns id strings (line 69), and line 76 sorts them with the key `clip["id"]`, which raises on a string | a log holding clip c1, and a fetch of c1 and c2 | compare the id-sorted fetched clips with the id-sorted stored clips and rewrite the file only when they differ | high; not executed | `Pipeline.ReannouncedEveryRun` (with `ClipLog.SaveAsWritten`, `Scenarios.SecondClipAnnouncedRepeatedly`) | `Pipeline.CorrectedRunSettles` (with `ClipLog.SaveIfChanged`, `Scenarios.SecondClipAnnouncedOnce`) |

Effect of the defect: once any run has written the log, every later run that finds a new clip does three things. It posts that clip, fails in the save step, and leaves the log as it was. The same clip is then announced on every following run while it stays in the 24-hour window.

## Behaviour worth noting

- `load_sent_clips` returns a list of ids in stored order, not a set. The diff tests membership in that list.
- The log rewrite is not atomic: `open(..., "w")` truncates the file before `json.dump` writes it (main.py:80-81). A dump that fails part way leaves a file `load_sent_clips` cannot parse, and every later run aborts in `json.load` until someone repairs the file. The clips of the failed run were already announced.
- An empty users list is not guarded: `data[0]` raises at main.py:60. The model reports this as the `NoSuchUser` failure. The run ends before any clip is fetched.
- "Write only if the sorted lists differ" and "saving twice writes once" hold only for the intended save (`SaveIfChanged`). As written, any save against a non-empty log fails (see Findings).

## Left out

- HTTP transport: the token exchange, the users and clips requests, and the webhook post. Their outcomes are inputs: a body or an HTTP error per endpoint, and an accept/reject answer per clip for the webhook.
- The broadcaster id is not passed to the clips request in the model. The clips endpoint's answer is an input, so the id only decides whether the run continues.
- Environment and `.env` configuration loading: process setup.
- The 24-hour window computed from the wall clock, and its ISO-8601 formatting: the fetched list is an input.
- JSON layout (`indent=4`, `ensure_ascii=False`), the message template, and the printed status lines. The status lines appear only as the `Status` a completed run reports.
- Clip fields other than `id`, `broadcaster_name` and `url`. The intended save compares whole records. A field that changes between fetches (such as a view count) would cause a rewrite, and the model cannot show that.
- A log file that parses as JSON but whose entries lack an `id` field. Only the program writes the log, and it always writes full clip records.
- How far a failed `json.dump` got before it failed. Every failed dump is modelled as a file that no longer parses. A failure after the last byte was written (on close, say) is not told apart.
- Concurrent runs and network timeouts: the program is single-threaded and sets no timeouts.
- Sorting.SortById: does not state stability (equal ids keep their input order); the insertion sort is stable, but only sortedness and permutation are proved, and stability matters only when two clips share an id.
- Pipeline.Repeat: every repeated run sees the same endpoint and webhook answers. Clips entering or leaving the 24-hour window between runs are not modelled.
