/** The `SongRecognizer` object: its in-memory ledger, its `active` flag, the URL
    being processed, and the two parts of its workspace the core touches: the
    persisted ledger `songs.json` and the staging files `chunk_{start}.wav`. */
module Recognizer {
  import opened Optional
  import opened Ledger
  import opened Windows
  import opened Recognition
  import opened Pipeline

  /** A decoded sample; its value is never inspected. */
  type Sample = real

  class SongRecognizer {
    var recognizedSongs: seq<Entry>
    var active: bool
    var currentUrl: string
    var store: Store
    var staging: set<StagingFile>

    /** `__init__`: an empty ledger, active, no URL, then `_load_recognized_songs`
        from whatever `songs.json` the workspace holds. */
    constructor (persisted: Store, files: set<StagingFile>)
      ensures recognizedSongs == LoadResult(persisted, [])
      ensures active && currentUrl == ""
      ensures store == persisted && staging == files
    {
      recognizedSongs := [];
      active := true;
      currentUrl := "";
      store := persisted;
      staging := files;
      new;
      LoadRecognizedSongs();
    }

    /** `_load_recognized_songs`. */
    method LoadRecognizedSongs()
      modifies this`recognizedSongs
      ensures recognizedSongs == LoadResult(store, old(recognizedSongs))
    {
      match store {
        case Absent =>
        case Unreadable => recognizedSongs := [];
        case Saved(entries) => recognizedSongs := entries;
      }
    }

    /** `_save_recognized_songs`: writes the whole ledger, but only while active. */
    method SaveRecognizedSongs(outcome: SaveOutcome)
      modifies this`store
      ensures store == SaveResult(active, recognizedSongs, old(store), outcome)
      ensures !active ==> store == old(store)
    {
      if !active {
        return;
      }
      match outcome {
        case WriteOk => store := Saved(recognizedSongs);
        case WriteFails(left) => store := left;
      }
    }

    /** The first statement of `download_youtube_audio`: the URL whose songs follow. */
    method SetCurrentUrl(url: string)
      modifies this`currentUrl
      ensures currentUrl == url
    {
      currentUrl := url;
    }

    /** `_process_chunk`: at most MaxRetries attempts, a retry only after an attempt
        raised, and the staging file removed after every attempt whatever happened.
        The samples `chunk` only reach `sf.write`, whose outcome each attempt in
        `tries` gives, so the method does not read them. */
    method ProcessChunk(chunk: seq<Sample>, start: int, tries: nat -> Attempt)
      returns (result: Option<Match>, ghost attempts: nat)
      modifies this`staging
      ensures result == ChunkResult(tries, active, recognizedSongs, currentUrl)
      ensures attempts == ChunkAttempts(tries, active)
      ensures staging == old(staging) - {ChunkFile(start)}
    {
      var file := ChunkFile(start);
      var attempt: nat := 0;
      while attempt < MaxRetries
        invariant attempt <= MaxRetries
        invariant forall j :: 0 <= j < attempt ==> Raises(tries(j), active)
        invariant staging - {file} == old(staging) - {file}
        invariant attempt > 0 ==> file !in staging
      {
        var t := tries(attempt);
        // try: write the chunk, check its size, recognize
        var raised := false;
        match t.write {
          case WriteRaises(leftFile) =>
            if leftFile { staging := staging + {file}; }
            raised := true;
          case Written(empty) =>
            staging := staging + {file};
            raised := empty || (active && t.reply.ClientRaises?);  // empty file, or `Shazam()` raised
        }
        var recognized: Option<Match> := None;
        if !raised {
          recognized := Recognize(active, file in staging, t.reply, t.now, recognizedSongs, currentUrl);
        }
        // finally: remove the staging file
        if file in staging {
          staging := staging - {file};
        }
        attempt := attempt + 1;
        if !raised {
          result, attempts := recognized, attempt;
          return;
        }
      }
      result, attempts := None, attempt;
    }

    /** `process_audio`: `None` without touching anything unless the recognizer is
        active, the audio exists and decodes to a non-empty buffer; otherwise the window
        loop `Drive` over all windows of the track, then one save. */
    method ProcessAudio(audioExists: bool, decoded: Option<seq<Sample>>,
                        env: nat -> WindowEnv, saveOutcome: SaveOutcome)
      returns (results: Option<seq<Entry>>, ghost processed: nat, ghost reclaimed: seq<nat>)
      modifies this`recognizedSongs, this`active, this`staging, this`store
      ensures !old(active) || !audioExists || decoded.None? || decoded == Some([]) ==>
        && results.None?
        && recognizedSongs == old(recognizedSongs) && active == old(active)
        && staging == old(staging) && store == old(store)
      ensures old(active) && audioExists && decoded.Some? && decoded.value != [] ==>
        var d := Duration(|decoded.value|);
        var r := Drive(Progress(old(recognizedSongs), [], true, 0, [], old(staging)),
                       NumChunks(d), d, currentUrl, env);
        && results == Some(r.results)
        && recognizedSongs == r.ledger && active == r.active && staging == r.staging
        && processed == r.next && reclaimed == r.reclaimed
        && store == SaveResult(r.active, r.ledger, old(store), saveOutcome)
    {
      processed, reclaimed := 0, [];
      if !active || !audioExists {
        return None, processed, reclaimed;
      }
      if decoded.None? || |decoded.value| == 0 {
        return None, processed, reclaimed;
      }
      var y := decoded.value;
      var duration := Duration(|y|);
      var numChunks := NumChunks(duration);
      var out: seq<Entry> := [];
      ghost var start := Progress(recognizedSongs, [], true, 0, [], staging);
      var i := 0;
      while i < numChunks
        invariant i <= numChunks
        invariant Drive(Progress(recognizedSongs, out, active, i, reclaimed, staging), numChunks, duration, currentUrl, env)
               == Drive(start, numChunks, duration, currentUrl, env)
        invariant active && store == old(store)
      {
        if env(i).shutdownBefore {
          active := false;  // another task ran `shutdown` while this loop was suspended
        }
        if !active {
          break;
        }
        ghost var top := Progress(recognizedSongs, out, true, i, reclaimed, staging);
        if ReclaimPoint(i, env(i)) {
          reclaimed := reclaimed + [i];
        }
        var startSec := WindowStart(i);
        var endSec := WindowEnd(i, duration);
        var bounds := SliceBounds(i, |y|);
        var chunk := y[bounds.0..bounds.1];
        var m, _ := ProcessChunk(chunk, startSec, env(i).tries);
        if m.Some? {
          var entry := ToEntry(m.value, startSec, endSec);
          out := out + [entry];
          recognizedSongs := recognizedSongs + [entry];
        }
        i := i + 1;
        assert Progress(recognizedSongs, out, active, i, reclaimed, staging) == Step(top, duration, currentUrl, env(i - 1));
      }
      processed := i;
      SaveRecognizedSongs(saveOutcome);
      results := Some(out);
    }

    /** `shutdown` as written: `active` is cleared first, so the save it then calls
        writes nothing. */
    method Shutdown(outcome: SaveOutcome)
      modifies this`active, this`store
      ensures !active
      ensures store == old(store)
    {
      active := false;
      SaveRecognizedSongs(outcome);
    }

    /** `shutdown` with the save moved before `active` is cleared: while the recognizer
        was active, the ledger as it stands is persisted when the write succeeds. */
    method ShutdownSavingFirst(outcome: SaveOutcome)
      modifies this`active, this`store
      ensures !active
      ensures store == SaveResult(old(active), recognizedSongs, old(store), outcome)
      ensures old(active) && outcome.WriteOk? ==> store == Saved(recognizedSongs)
    {
      SaveRecognizedSongs(outcome);
      active := false;
    }
  }
}
