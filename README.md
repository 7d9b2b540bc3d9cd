# Song recognizer: verified model of the chunked recognition core

This project models the bookkeeping at the core of `SongRecognizer` in
`Source/Ytd01.py`, a tool that cuts a downloaded audio track into 60-second
windows, sends each window to a song-recognition service, and keeps a ledger
(`songs.json`) of the recognized songs per source URL. The model covers four parts:

- **The deduplicating ledger.** A recognized song is new for a URL unless the
  ledger already holds an entry with the same lower-cased artist, the same
  lower-cased title and exactly the same URL. The ledger only grows, by
  appending. Loading and saving are abstract effects on a persisted copy, and a
  save is gated by the `active` flag.
- **Windowing arithmetic.** The track has `ceil(duration / 60)` windows. Window
  `i` is `[60·i, min(60·(i+1), duration))`. Its samples are
  `[int(start·sr), int(end·sr))` at the fixed rate 44100.
- **One window, with retry and cleanup** (`_process_chunk`). There are at most
  two attempts. A retry happens only when the attempt raised: writing the staging
  file raised, the file was empty, or constructing the `Shazam` client raised. The
  staging file `chunk_{start}.wav` is removed after every
  attempt.
- **The driver loop** (`process_audio`). It checks `active` at the top of every
  iteration and reclaims resources at every 20th index, or when the elapsed-time
  condition holds. Each accepted match is appended to both `results` and the
  ledger. The loop saves once, at the end.

Modules, one file each:

- `Optional`, `Text`, `Ledger`, `Windows` and `Recognition` hold pure functions.
- `Pipeline` is the driver loop written as a function, `Drive`, with the lemmas
  about it.
- `Recognizer` is the `SongRecognizer` class. Its fields are the ledger, `active`,
  the current URL, the persisted store and the set of staging files. Its loop
  methods `ProcessChunk` and `ProcessAudio` are proved to compute exactly
  `ChunkResult` and `Drive`.

External effects are inputs to the model:

- Per attempt: what `sf.write` did, what the recognition service replied, and
  the clock string.
- Per window: whether another task ran `shutdown` while the loop was suspended,
  and whether 300 seconds have passed since the last reclamation.
- Per track: the decoded buffer.
- Per save: whether the write succeeded.

Two points of the code's behaviour that the model keeps:

- The ledger is saved once, at the end of `process_audio` (line 284). It is not
  saved after each appended entry.
- An error raised by `shazam.recognize` is caught inside `shazam_recognize`
  (lines 183-186), which returns `None`, so it causes no retry. Constructing the
  client (`Shazam()`, line 167) happens outside that `try`. An error there reaches
  `_process_chunk` (line 206) and causes a retry, as a failed write or an empty
  staging file does. An inactive recognizer returns before it builds the client.

## Model

| member | source | states |
|---|---|---|
| Text.LowerChar | Source/Ytd01.py:60-61 | the lowered character is never an upper-case ASCII letter; an upper-case letter becomes its lower-case form; any other character is unchanged |
| Text.Lower | Source/Ytd01.py:60-61 | `str.lower` on ASCII: same length, and each character is lowered on its own |
| Text.LowerIdempotent | Source/Ytd01.py:60-65 | lowering twice gives the same string as lowering once, so comparing lowered forms ignores case |
| Text.LowerIgnoresCase | Source/Ytd01.py:60-65 | two strings that differ only in the case of letters have the same lowered form |
| Ledger.IsNewSongForUrl | Source/Ytd01.py:58-68 | true exactly when no ledger entry has the same lowered artist, the same lowered title and the same URL (both directions) |
| Ledger.DeduplicationExample | Source/Ytd01.py:58-68 | with ("A","B","S") in the ledger, ("a","b","S") is not new but ("a","b","S2") is new |
| Ledger.AppendedWhenNewKeepsNoDuplicates | Source/Ytd01.py:269-270 | a ledger that was free of duplicates and grew only by entries that were new stays free of duplicates |
| Ledger.LoadResult | Source/Ytd01.py:34-44 | a missing file leaves the ledger as it was; a file that fails to load empties it; a readable file replaces it |
| Ledger.SaveResult | Source/Ytd01.py:46-56 | nothing is written while inactive; a successful write while active persists the whole ledger |
| Ledger.SaveThenLoad | Source/Ytd01.py:34-56 | loading after a successful save gives back the saved ledger, entries and order |
| Windows.Ceil | Source/Ytd01.py:235 | `np.ceil`: the least integer at or above its argument |
| Windows.Duration | Source/Ytd01.py:234 | the duration times the sample rate is the sample count |
| Windows.NumChunks | Source/Ytd01.py:235 | the window count `n` satisfies `60·(n-1) < duration <= 60·n`, and is 0 only for an empty track |
| Windows.WindowStart | Source/Ytd01.py:253 | `start_time = i * chunk_size`; it has no contract of its own, and `WindowEnd` and `SliceBounds` state its relation to the other bounds |
| Windows.WindowEnd | Source/Ytd01.py:253-254 | every window satisfies `start < end <= duration` and is at most 60 s long; window `i` ends where window `i+1` starts; the last window ends at the duration |
| Windows.SampleIndex | Source/Ytd01.py:259 | `int(t * sr)`, written as the floor of `t·sr`, which is what `int` truncation gives for `t >= 0`; it has no contract of its own, and `SliceBounds` states the sample ranges built from it |
| Windows.SliceBounds | Source/Ytd01.py:259 | a window's sample range is non-empty and inside the buffer; it starts at `start·sr`, ends where the next window's range starts, and the last one ends at the buffer's end |
| Windows.SlicesPartitionSamples | Source/Ytd01.py:242-259 | the windows' sample slices, concatenated in order, are exactly the decoded buffer |
| Windows.WindowsOf150Seconds | Source/Ytd01.py:235-254 | a 150 s track gives exactly [0,60), [60,120) and [120,150) |
| Recognition.Raises | Source/Ytd01.py:164-206 | an attempt reaches the `except` of `_process_chunk` exactly when `sf.write` raised, the written file was empty, or, for an active recognizer, constructing the `Shazam` client raised; it has no contract of its own, and `ChunkAttempts` and `ChunkResult` state the retry policy built on it |
| Recognition.TimeOf | Source/Ytd01.py:179 | `result.get("timestamp", 0) / 1000`: the result times 1000 is the timestamp in milliseconds, and it is 0 when the service gave none |
| Recognition.Recognize | Source/Ytd01.py:162-186 | a match is returned exactly when the recognizer is active, the file exists, the service matched and the song is new for the URL; the match carries the service's title and artist, `timestamp/1000` (0 when absent), the date and the current URL |
| Recognition.ChunkAttempts | Source/Ytd01.py:164-209 | one or two attempts, and two exactly when the first attempt raised: its write raised, its file was empty, or (while active) constructing the client raised |
| Recognition.ChunkResult | Source/Ytd01.py:193-217 | a returned match is for the current URL and was new against the ledger; conversely, when the first attempt does not raise and the service matched a new song in it, that match is returned (built from the reply, the clock and the URL); when the first attempt does not raise and finds nothing new (inactive, no match, a service error or a duplicate), the result is `None` and no retry follows; the same two cases hold for the second attempt when the first raised; when both attempts raised, the result is `None` |
| Pipeline.ToEntry | Source/Ytd01.py:262-278 | the appended record keeps the match's artist, title, date and URL, stores the match's `time` as its `timestamp`, and gets the window's start and end |
| Pipeline.ReclaimPoint | Source/Ytd01.py:247 | `i % 20 == 0 or time.time() - last_optimize > 300`, with the elapsed-time test as an input flag; it has no contract of its own |
| Pipeline.ReclaimPoints | Source/Ytd01.py:247 | the reclamation points of a range of windows, in loop order; it has no contract of its own, and `ReclaimPointsMembers` and `ReclaimPointsSorted` state what it lists |
| Pipeline.ReclaimPointsMembers | Source/Ytd01.py:247-250 | an index is listed exactly when it is in range and is a multiple of 20 (0 included) or the elapsed-time condition holds for it |
| Pipeline.ReclaimPointsSorted | Source/Ytd01.py:242-250 | the listed reclamation points come in strictly increasing order, the order in which the loop reaches them |
| Pipeline.Step | Source/Ytd01.py:246-278 | one iteration of the loop body for an active recognizer; it has no contract of its own, and its properties are `StepAppendsAtMostOne`, `StepAppendsEveryMatch` and `StepBookkeeping` |
| Pipeline.StepAppendsAtMostOne | Source/Ytd01.py:260-278 | one iteration appends at most one entry, the same entry to `results` and to the ledger; that entry is for the current URL and the current window, and was new |
| Pipeline.StepAppendsEveryMatch | Source/Ytd01.py:260-278 | an iteration appends exactly when the window's result is a match; the entry then appended to both `results` and the ledger is that match with the window's start and end; without a match both are unchanged |
| Pipeline.StepBookkeeping | Source/Ytd01.py:246-260 | one iteration advances the index by one, records a reclamation exactly at a reclamation point, and removes that window's staging file |
| Pipeline.Drive | Source/Ytd01.py:242-278 | the window loop of `process_audio`, with the outside world as inputs; it has no contract of its own, and its properties are the `Drive*` lemmas; `ProcessAudio` is proved to compute it |
| Pipeline.DriveStops | Source/Ytd01.py:242-244 | the loop never goes past the window count; it visits no window that is preceded by a shutdown; it ends with `active` false if it stopped early; an inactive recognizer processes no window and changes nothing |
| Pipeline.DriveStopsOnlyAtShutdown | Source/Ytd01.py:242-244 | the loop stops before the window count only at a window preceded by a shutdown, or at its first window for a recognizer that was already inactive |
| Pipeline.DriveCompletes | Source/Ytd01.py:242-244 | with no shutdown, an active recognizer processes every window of `range(num_chunks)` |
| Pipeline.DriveShutdown | Source/Ytd01.py:242-244 | with a shutdown before window k, the run returns exactly what the run over windows 0..k-1 returns, and `active` is off |
| Pipeline.DriveAppendsOnly | Source/Ytd01.py:262-278 | earlier ledger entries are unchanged, and the run appends to the ledger exactly the entries it adds to `results` |
| Pipeline.DriveEntriesFromWindows | Source/Ytd01.py:253-278 | every appended entry is for the current URL, and its `chunk_start` and `chunk_end` are the bounds of a window the run processed |
| Pipeline.DriveEntriesInOrder | Source/Ytd01.py:242-278 | the appended entries are in window order, with strictly increasing `chunk_start` |
| Pipeline.DriveAppendsWhenNew | Source/Ytd01.py:174-182 | each appended entry was new against the ledger as updated by the earlier windows of the same run |
| Pipeline.DriveKeepsNoDuplicates | Source/Ytd01.py:260-278 | a ledger without duplicates before the run has none after it |
| Pipeline.DriveReclaims | Source/Ytd01.py:246-251 | reclamation runs at exactly the reclamation points among the processed windows, in order |
| Pipeline.DriveCleansUp | Source/Ytd01.py:210-216 | after the run, the staging file of every processed window is gone and no other file was touched |
| Pipeline.ShutdownDuringRunSkipsSave | Source/Ytd01.py:283-284 | with a shutdown during the run, the final save of `process_audio` writes nothing |
| Pipeline.InterruptedRunIsNeverSaved | Source/Ytd01.py:284-296 | a run interrupted by a shutdown, then the save in `shutdown`, leaves the persisted copy as it was before the run, whatever the run appended in memory |
| Pipeline.ScenarioRun | Source/Ytd01.py:242-278 | on a 150 s track where only the second window is recognized (artist "X", title "Y") and no shutdown happens, one run appends the entry for [60,120) exactly when the song is new for the URL, and nothing otherwise |
| Pipeline.Scenario150Seconds | Source/Ytd01.py:242-278 | on a 150 s track where only the second window is recognized (artist "X", title "Y"), all writes succeed and no shutdown happens: exactly one entry is appended, with start 60 and end 120; re-running against the grown ledger appends nothing |
| Recognizer.SongRecognizer.constructor | Source/Ytd01.py:26-32 | starts active, with no URL, and loads the ledger from the persisted copy |
| Recognizer.SongRecognizer.LoadRecognizedSongs | Source/Ytd01.py:34-44 | the ledger becomes `LoadResult` of the persisted copy |
| Recognizer.SongRecognizer.SaveRecognizedSongs | Source/Ytd01.py:46-56 | the persisted copy becomes `SaveResult`; when inactive it is unchanged |
| Recognizer.SongRecognizer.SetCurrentUrl | Source/Ytd01.py:72 | the current URL becomes the given URL |
| Recognizer.SongRecognizer.ProcessChunk | Source/Ytd01.py:188-217 | returns exactly `ChunkResult`; makes exactly `ChunkAttempts` attempts; afterwards the window's staging file is gone and no other file changed |
| Recognizer.SongRecognizer.ProcessAudio | Source/Ytd01.py:219-291 | returns `None` and changes nothing when inactive, when the file is missing, when decoding fails or when the decoded audio is empty; otherwise the results, ledger, flag, staging files and reclamation points are exactly those of `Drive` over all windows, followed by one gated save |
| Recognizer.SongRecognizer.Shutdown | Source/Ytd01.py:293-297 | clears `active`; the persisted copy is unchanged |
| Recognizer.SongRecognizer.ShutdownSavingFirst | Source/Ytd01.py:293-297 | with the save moved before `active` is cleared, a successful write from an active recognizer persists the whole ledger |

## Findings

| source | as written | input that shows it | evidently intended | confidence | as-written member | corrected member |
|---|---|---|---|---|---|---|
| Source/Ytd01.py:293-296 | `shutdown` sets `active = False` and only then calls `_save_recognized_songs`. That method returns at once when `active` is false (lines 48-49), so the shutdown save never writes. | A run appends an entry in some window. Another task then runs `shutdown`, which the loop sees at the top of a later window. The loop stops, and the save at line 284 writes nothing because `active` is false. The save inside `shutdown` writes nothing either, so `songs.json` keeps its state from before the run, and the entry is lost. The same loss follows when an exception raised out of an `await` (`KeyboardInterrupt`, `CancelledError`) skips line 284 before `shutdown` runs. That path is not modelled, but `Shutdown` leaves the store unchanged from any state. | The save in `shutdown` persists the ledger before the recognizer goes inactive. | medium, not executed | Recognizer.SongRecognizer.Shutdown | Recognizer.SongRecognizer.ShutdownSavingFirst |

The lemmas model the first input in that row: a shutdown seen at the top of a
window. `Pipeline.ShutdownDuringRunSkipsSave` shows that the final save of such
an interrupted `process_audio` writes nothing. `Pipeline.InterruptedRunIsNeverSaved`
adds the save of `shutdown` after it: the persisted copy is the one from before
the run.

## Left out

- `download_youtube_audio`, `process_playlist` and `main` are not modelled,
  except the first statement of `download_youtube_audio` (`SetCurrentUrl`). They
  are network calls through yt_dlp, an `input()` prompt, removal of the
  downloaded file, and pacing sleeps.
- `librosa.load` and `librosa.get_duration` are not modelled beyond their
  results. The decoded buffer is an input: `None` when loading raises. The
  sample rate is the requested 44100.
- `sf.write`, `os.path.getsize` and `Shazam().recognize` are not modelled beyond
  their outcomes, which are inputs per attempt. A reply the code cannot read
  (a missing `track` key) is folded into `ServiceRaises`, which is caught inside `shazam_recognize`.
- The `os.remove` error that lines 213-216 swallow is not modelled. Removing an
  existing staging file always succeeds.
- `gc.collect`, `asyncio.sleep` and `time.time` are not modelled. The
  elapsed-time test is an input flag per window. Reclamation is recorded as the
  list of indices where it ran. The `finally: gc.collect()` of `process_audio`
  is left out.
- The outer `except Exception` of `process_audio` (lines 287-289) is not
  modelled. It catches failures of the library calls between decoding and the
  end of the loop, and with those calls given as inputs nothing is left to raise.
- Floating point is not modelled: durations, `int(start*sr)`, `int(end*sr)` and
  `timestamp/1000` are exact reals. The date is an opaque string.
- JSON encoding is not modelled. A persisted file is absent, unreadable, or a
  list of entries. A file that loads but does not hold records is not modelled.
- Text.Lower: ASCII letters only, because Python's Unicode case mapping has
  no counterpart here.
- Concurrency is not modelled beyond one point: a shutdown by another task takes
  effect at the top of a loop iteration. A flip of `active` between the two
  attempts of one window is not modelled.
- A shutdown during the last window, after the last top-of-loop check of
  `active`, is not modelled. In the code it makes the save at line 284 write
  nothing even though every window was processed; in the model a run that
  processes every window ends with `active` true and its save writes.
- The one-second wait after every failed attempt of `_process_chunk`, the last
  one included, is not modelled.
- The `results` list holds dictionaries with the keys `title`, `artist`, `time`,
  `date`, `source_url`, `start_time` and `end_time`. The model stores the same
  values as ledger `Entry` records.
- An exception raised out of the `await`s of `process_audio`
  (`KeyboardInterrupt`, `asyncio.CancelledError`, which `except Exception` at
  line 287 does not catch) is not modelled. The model has no path on which
  such an exception aborts the loop and skips the save at line 284.
- Console printing and progress output are not modelled.
