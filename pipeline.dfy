/** The window loop of `process_audio` as a function of the outside world's
    behaviour, and what it guarantees: the ledger only grows, by new songs, in
    window order; the loop stops at the top of the first window after a shutdown;
    reclamation runs on every 20th window; every window's staging file is removed. */
module Pipeline {
  import opened Optional
  import opened Text
  import opened Ledger
  import opened Windows
  import opened Recognition

  /** What the outside world decides for window `i`: whether another task ran
      `shutdown` while the loop was suspended before this window, whether more than
      300 seconds have passed since the last reclamation, and the window's attempts. */
  datatype WindowEnv = WindowEnv(shutdownBefore: bool, reclaimDue: bool, tries: nat -> Attempt)

  /** The state the loop carries: the ledger, the `results` list, the `active` flag,
      the index of the next window, the indices where reclamation ran, and the
      staging files in the workspace. */
  datatype Progress = Progress(
    ledger: seq<Entry>,
    results: seq<Entry>,
    active: bool,
    next: nat,
    reclaimed: seq<nat>,
    staging: set<StagingFile>)

  /** `i % 20 == 0 or time.time() - last_optimize > 300`. */
  predicate ReclaimPoint(i: nat, e: WindowEnv) {
    i % 20 == 0 || e.reclaimDue
  }

  /** The record appended for a match in the window [start, end). */
  function ToEntry(m: Match, start: int, end: real): (e: Entry)
    ensures e.artist == m.artist && e.title == m.title && e.sourceUrl == m.sourceUrl
    ensures e.date == m.date && e.timestamp == m.time
    ensures e.chunkStart == start && e.chunkEnd == end
  {
    Entry(m.artist, m.title, m.date, m.sourceUrl, m.time, start, end)
  }

  /** One iteration of the loop body, for an active recognizer. */
  function Step(p: Progress, d: real, url: string, e: WindowEnv): Progress
    requires 0.0 <= d && p.next < NumChunks(d)
  {
    var i := p.next;
    var start := WindowStart(i);
    var reclaimed := if ReclaimPoint(i, e) then p.reclaimed + [i] else p.reclaimed;
    var staging := p.staging - {ChunkFile(start)};
    match ChunkResult(e.tries, true, p.ledger, url)
    case None => Progress(p.ledger, p.results, true, i + 1, reclaimed, staging)
    case Some(m) =>
      var entry := ToEntry(m, start, WindowEnd(i, d));
      Progress(p.ledger + [entry], p.results + [entry], true, i + 1, reclaimed, staging)
  }

  /** The loop over windows `p.next .. n-1` of a track of duration `d`: a shutdown
      seen at the top of an iteration, or an inactive recognizer, ends it there. */
  function Drive(p: Progress, n: nat, d: real, url: string, env: nat -> WindowEnv): Progress
    requires 0.0 <= d && n <= NumChunks(d)
    decreases n - p.next
  {
    if p.next >= n then p
    else if !p.active || env(p.next).shutdownBefore then p.(active := false)
    else Drive(Step(p, d, url, env(p.next)), n, d, url, env)
  }

  /** The indices in `lo .. hi-1` where reclamation runs, in the order the loop
      reaches them. */
  function ReclaimPoints(lo: nat, hi: nat, env: nat -> WindowEnv): seq<nat>
    decreases hi - lo
  {
    if lo >= hi then []
    else (if ReclaimPoint(lo, env(lo)) then [lo] else []) + ReclaimPoints(lo + 1, hi, env)
  }

  /** `ReclaimPoints` lists exactly the reclamation points in range. */
  lemma {:induction false} ReclaimPointsMembers(lo: nat, hi: nat, env: nat -> WindowEnv)
    ensures forall x :: x in ReclaimPoints(lo, hi, env) <==> lo <= x < hi && ReclaimPoint(x, env(x))
    decreases hi - lo
  {
    if lo < hi {
      ReclaimPointsMembers(lo + 1, hi, env);
      var here := if ReclaimPoint(lo, env(lo)) then [lo] else [];
      assert ReclaimPoints(lo, hi, env) == here + ReclaimPoints(lo + 1, hi, env);
      assert forall x :: x in here <==> x == lo && ReclaimPoint(lo, env(lo));
    }
  }

  /** Strictly increasing. */
  predicate Increasing(r: seq<nat>) {
    forall a, b :: 0 <= a < b < |r| ==> r[a] < r[b]
  }

  /** `ReclaimPoints` lists the reclamation points in increasing order. */
  lemma {:induction false} ReclaimPointsSorted(lo: nat, hi: nat, env: nat -> WindowEnv)
    ensures Increasing(ReclaimPoints(lo, hi, env))
    decreases hi - lo
  {
    if lo < hi {
      ReclaimPointsSorted(lo + 1, hi, env);
      var rest := ReclaimPoints(lo + 1, hi, env);
      var r := ReclaimPoints(lo, hi, env);
      if ReclaimPoint(lo, env(lo)) {
        ReclaimPointsMembers(lo + 1, hi, env);
        assert r == [lo] + rest;
        forall a, b | 0 <= a < b < |r|
          ensures r[a] < r[b]
        {
          assert r[b] == rest[b - 1] && rest[b - 1] in rest;
          if 0 < a {
            assert r[a] == rest[a - 1];
          }
        }
      } else {
        assert r == rest;
      }
    }
  }

  /** The staging files of windows `lo .. hi-1`. */
  function ChunkFiles(lo: nat, hi: nat): set<StagingFile> {
    set k: nat | lo <= k < hi :: ChunkFile(WindowStart(k))
  }

  /** The loop never runs past the window count, only visits windows that were not
      preceded by a shutdown, and stops before the end only with `active` false. */
  lemma {:induction false} DriveStops(p: Progress, n: nat, d: real, url: string, env: nat -> WindowEnv)
    requires 0.0 <= d && n <= NumChunks(d) && p.next <= n
    ensures var r := Drive(p, n, d, url, env);
      && p.next <= r.next <= n
      && (r.next < n ==> !r.active)
      && (r.active ==> p.active)
      && (!p.active ==> r == p)
      && forall k :: p.next <= k < r.next ==> !env(k).shutdownBefore
    decreases n - p.next
  {
    if p.next < n && p.active && !env(p.next).shutdownBefore {
      var q := Step(p, d, url, env(p.next));
      StepBookkeeping(p, d, url, env(p.next));
      DriveStops(q, n, d, url, env);
      assert Drive(p, n, d, url, env) == Drive(q, n, d, url, env);
    } else if !p.active {
      assert p.(active := false) == p;
    }
  }

  /** The loop stops before the window count only at a window preceded by a shutdown,
      or at once for a recognizer that was already inactive. */
  lemma {:induction false} DriveStopsOnlyAtShutdown(p: Progress, n: nat, d: real, url: string, env: nat -> WindowEnv)
    requires 0.0 <= d && n <= NumChunks(d)
    ensures var r := Drive(p, n, d, url, env);
      r.next < n ==> (!p.active && r.next == p.next) || env(r.next).shutdownBefore
    decreases n - p.next
  {
    if p.next < n && p.active && !env(p.next).shutdownBefore {
      DriveStopsOnlyAtShutdown(Step(p, d, url, env(p.next)), n, d, url, env);
    }
  }

  /** Without a shutdown, an active recognizer processes every window. */
  lemma DriveCompletes(p: Progress, n: nat, d: real, url: string, env: nat -> WindowEnv)
    requires 0.0 <= d && n <= NumChunks(d) && p.next <= n && p.active
    requires forall k :: p.next <= k < n ==> !env(k).shutdownBefore
    ensures Drive(p, n, d, url, env).next == n
  {
    DriveStops(p, n, d, url, env);
    DriveStopsOnlyAtShutdown(p, n, d, url, env);
  }

  /** What one iteration does to the loop index, the flag, the reclamation record and
      the staging files. */
  lemma StepBookkeeping(p: Progress, d: real, url: string, e: WindowEnv)
    requires 0.0 <= d && p.next < NumChunks(d)
    ensures var q := Step(p, d, url, e);
      && q.next == p.next + 1 && q.active
      && q.reclaimed == p.reclaimed + (if ReclaimPoint(p.next, e) then [p.next] else [])
      && q.staging == p.staging - {ChunkFile(WindowStart(p.next))}
  {
  }

  /** When a shutdown is seen before window `k`, the run returns exactly what the run
      over windows before `k` returns, with `active` off: no window from `k` on starts. */
  lemma {:induction false} DriveShutdown(p: Progress, n: nat, k: nat, d: real, url: string, env: nat -> WindowEnv)
    requires 0.0 <= d && n <= NumChunks(d) && p.next <= k < n
    requires env(k).shutdownBefore
    ensures Drive(p, n, d, url, env) == Drive(p, k, d, url, env).(active := false)
    decreases k - p.next
  {
    if p.next < k && p.active && !env(p.next).shutdownBefore {
      DriveShutdown(Step(p, d, url, env(p.next)), n, k, d, url, env);
    }
  }

  /** The ledger only grows, by appending, and what is appended is exactly what is
      added to `results`. */
  lemma {:induction false} DriveAppendsOnly(p: Progress, n: nat, d: real, url: string, env: nat -> WindowEnv)
    requires 0.0 <= d && n <= NumChunks(d)
    ensures var r := Drive(p, n, d, url, env);
      && |p.results| <= |r.results|
      && r.results[..|p.results|] == p.results
      && r.ledger == p.ledger + r.results[|p.results|..]
    decreases n - p.next
  {
    if p.next < n && p.active && !env(p.next).shutdownBefore {
      var q := Step(p, d, url, env(p.next));
      StepAppendsAtMostOne(p, d, url, env(p.next));
      DriveAppendsOnly(q, n, d, url, env);
      var r := Drive(q, n, d, url, env);
      assert Drive(p, n, d, url, env) == r;
      var k := |p.results|;
      assert r.results[..k] == r.results[..|q.results|][..k];
      assert r.results[k..] == q.results[k..] + r.results[|q.results|..];
    }
  }

  /** The entry carries the bounds of window `k` of a track of duration `d`. */
  predicate InWindow(e: Entry, k: nat, d: real) {
    0.0 <= d && k < NumChunks(d) && e.chunkStart == WindowStart(k) && e.chunkEnd == WindowEnd(k, d)
  }

  /** The entry carries the bounds of one of the windows `lo .. hi-1`. */
  predicate InWindows(e: Entry, lo: nat, hi: nat, d: real) {
    0 <= e.chunkStart && lo <= e.chunkStart / ChunkSize < hi && InWindow(e, e.chunkStart / ChunkSize, d)
  }

  /** Entries `from ..` of `results` are for `url` and each carries the bounds of one
      of the windows `lo .. hi-1`. */
  predicate FromWindows(results: seq<Entry>, from: nat, lo: nat, hi: nat, d: real, url: string) {
    forall j :: from <= j < |results| ==> results[j].sourceUrl == url && InWindows(results[j], lo, hi, d)
  }

  /** What one iteration does to the ledger and to `results`: at most one entry, for
      the current URL and the current window, appended to both. */
  lemma StepAppendsAtMostOne(p: Progress, d: real, url: string, e: WindowEnv)
    requires 0.0 <= d && p.next < NumChunks(d)
    ensures var q := Step(p, d, url, e);
      && q.next == p.next + 1 && q.active
      && |p.results| <= |q.results| <= |p.results| + 1
      && q.results[..|p.results|] == p.results
      && q.ledger == p.ledger + q.results[|p.results|..]
      && (|q.results| > |p.results| ==>
            && q.results[|p.results|].sourceUrl == url
            && InWindows(q.results[|p.results|], p.next, p.next + 1, d)
            && IsNewSongForUrl(p.ledger, q.results[|p.results|].artist, q.results[|p.results|].title, url))
  {
  }

  /** Conversely, an accepted match of the window is always appended, and the entry
      appended carries that match's fields and the window's bounds. */
  lemma StepAppendsEveryMatch(p: Progress, d: real, url: string, e: WindowEnv)
    requires 0.0 <= d && p.next < NumChunks(d)
    ensures var q := Step(p, d, url, e);
      var m := ChunkResult(e.tries, true, p.ledger, url);
      && (m.Some? <==> |q.results| == |p.results| + 1)
      && (m.Some? ==>
            q.results == p.results + [ToEntry(m.value, WindowStart(p.next), WindowEnd(p.next, d))]
            && q.ledger == p.ledger + [ToEntry(m.value, WindowStart(p.next), WindowEnd(p.next, d))])
      && (m.None? ==> q.results == p.results && q.ledger == p.ledger)
  {
  }

  /** Every appended entry is for the current URL and carries the bounds of a window
      the run processed. */
  lemma {:induction false} DriveEntriesFromWindows(p: Progress, n: nat, d: real, url: string, env: nat -> WindowEnv)
    requires 0.0 <= d && n <= NumChunks(d)
    ensures var r := Drive(p, n, d, url, env);
      FromWindows(r.results, |p.results|, p.next, r.next, d, url)
    decreases n - p.next
  {
    if p.next < n && p.active && !env(p.next).shutdownBefore {
      var q := Step(p, d, url, env(p.next));
      StepAppendsAtMostOne(p, d, url, env(p.next));
      DriveEntriesFromWindows(q, n, d, url, env);
      DriveAppendsOnly(q, n, d, url, env);
      DriveStops(q, n, d, url, env);
      var r := Drive(q, n, d, url, env);
      assert Drive(p, n, d, url, env) == r;
      assert FromWindows(r.results, |q.results|, q.next, r.next, d, url);
      forall j | |p.results| <= j < |r.results|
        ensures r.results[j].sourceUrl == url && InWindows(r.results[j], p.next, r.next, d)
      {
        if j < |q.results| {
          assert r.results[j] == q.results[..|q.results|][j] == q.results[j];
        }
      }
    }
  }

  /** The appended entries are in window order: their start times strictly increase. */
  lemma {:induction false} DriveEntriesInOrder(p: Progress, n: nat, d: real, url: string, env: nat -> WindowEnv)
    requires 0.0 <= d && n <= NumChunks(d)
    ensures var r := Drive(p, n, d, url, env);
      forall j1, j2 :: |p.results| <= j1 < j2 < |r.results| ==>
        r.results[j1].chunkStart < r.results[j2].chunkStart
    decreases n - p.next
  {
    if p.next < n && p.active && !env(p.next).shutdownBefore {
      var q := Step(p, d, url, env(p.next));
      StepAppendsAtMostOne(p, d, url, env(p.next));
      DriveEntriesInOrder(q, n, d, url, env);
      var r := Drive(q, n, d, url, env);
      assert Drive(p, n, d, url, env) == r;
      if |q.results| > |p.results| {
        var j0 := |p.results|;
        DriveAppendsOnly(q, n, d, url, env);
        DriveEntriesFromWindows(q, n, d, url, env);
        assert FromWindows(r.results, |q.results|, q.next, r.next, d, url);
        assert |q.results| == j0 + 1;
        assert r.results[j0] == q.results[..|q.results|][j0] == q.results[j0];
        assert r.results[j0].chunkStart == WindowStart(p.next);
        forall j | j0 < j < |r.results|
          ensures r.results[j0].chunkStart < r.results[j].chunkStart
        {
          assert |q.results| <= j;
          assert InWindows(r.results[j], q.next, r.next, d);
        }
      }
    }
  }

  /** Each appended entry was new for its URL against the ledger as it stood when
      its window was checked, including the entries earlier windows of the run added. */
  lemma {:induction false} DriveAppendsWhenNew(p: Progress, n: nat, d: real, url: string, env: nat -> WindowEnv)
    requires 0.0 <= d && n <= NumChunks(d)
    ensures AppendedWhenNew(Drive(p, n, d, url, env).ledger, |p.ledger|)
    decreases n - p.next
  {
    if p.next < n && p.active && !env(p.next).shutdownBefore {
      var q := Step(p, d, url, env(p.next));
      DriveAppendsWhenNew(q, n, d, url, env);
      DriveAppendsOnly(q, n, d, url, env);
      var r := Drive(q, n, d, url, env);
      if |q.ledger| > |p.ledger| {
        var j := |p.ledger|;
        assert r.ledger[..j] == p.ledger;
        assert r.ledger[j] == q.ledger[j];
      }
    }
  }

  /** The ledger invariant survives the run. */
  lemma DriveKeepsNoDuplicates(p: Progress, n: nat, d: real, url: string, env: nat -> WindowEnv)
    requires 0.0 <= d && n <= NumChunks(d)
    requires NoDuplicates(p.ledger)
    ensures NoDuplicates(Drive(p, n, d, url, env).ledger)
  {
    var r := Drive(p, n, d, url, env);
    DriveAppendsOnly(p, n, d, url, env);
    DriveAppendsWhenNew(p, n, d, url, env);
    assert r.ledger[..|p.ledger|] == p.ledger;
    AppendedWhenNewKeepsNoDuplicates(r.ledger, |p.ledger|);
  }

  /** Reclamation runs at exactly the processed indices that are multiples of 20
      (index 0 included) or where the elapsed-time condition held, in order. */
  lemma {:induction false} DriveReclaims(p: Progress, n: nat, d: real, url: string, env: nat -> WindowEnv)
    requires 0.0 <= d && n <= NumChunks(d)
    ensures var r := Drive(p, n, d, url, env);
      r.reclaimed == p.reclaimed + ReclaimPoints(p.next, r.next, env)
    decreases n - p.next
  {
    if p.next < n && p.active && !env(p.next).shutdownBefore {
      var q := Step(p, d, url, env(p.next));
      StepBookkeeping(p, d, url, env(p.next));
      DriveReclaims(q, n, d, url, env);
      DriveStops(q, n, d, url, env);
      var r := Drive(q, n, d, url, env);
      assert Drive(p, n, d, url, env) == r;
      var here := if ReclaimPoint(p.next, env(p.next)) then [p.next] else [];
      assert ReclaimPoints(p.next, r.next, env) == here + ReclaimPoints(q.next, r.next, env);
      assert r.reclaimed == (p.reclaimed + here) + ReclaimPoints(q.next, r.next, env);
    } else {
      assert Drive(p, n, d, url, env).next == p.next;
    }
  }

  /** After the run, no staging file of a processed window is left, and no other
      file was touched. */
  lemma {:induction false} DriveCleansUp(p: Progress, n: nat, d: real, url: string, env: nat -> WindowEnv)
    requires 0.0 <= d && n <= NumChunks(d)
    ensures var r := Drive(p, n, d, url, env);
      r.staging == p.staging - ChunkFiles(p.next, r.next)
    decreases n - p.next
  {
    if p.next < n && p.active && !env(p.next).shutdownBefore {
      var q := Step(p, d, url, env(p.next));
      StepBookkeeping(p, d, url, env(p.next));
      DriveCleansUp(q, n, d, url, env);
      DriveStops(q, n, d, url, env);
      var r := Drive(q, n, d, url, env);
      assert Drive(p, n, d, url, env) == r;
      assert ChunkFiles(p.next, r.next) == {ChunkFile(WindowStart(p.next))} + ChunkFiles(q.next, r.next);
    } else {
      assert Drive(p, n, d, url, env).next == p.next;
      assert ChunkFiles(p.next, p.next) == {};
    }
  }

  /** A shutdown before any window of the run leaves `active` off at the end of the
      loop, so the save that closes `process_audio` writes nothing: whatever the run
      appended stays in memory only. */
  lemma ShutdownDuringRunSkipsSave(p: Progress, n: nat, k: nat, d: real, url: string,
                                   env: nat -> WindowEnv, s: Store, outcome: SaveOutcome)
    requires 0.0 <= d && n <= NumChunks(d) && p.next <= k < n
    requires env(k).shutdownBefore
    ensures var r := Drive(p, n, d, url, env);
      r.next <= k && SaveResult(r.active, r.ledger, s, outcome) == s
  {
    DriveStops(p, n, d, url, env);
  }

  /** A run interrupted by a shutdown, followed by the save of `shutdown` (made after
      `active` is cleared), leaves the persisted copy as it was before the run, whatever
      the run appended to the ledger in memory. */
  lemma InterruptedRunIsNeverSaved(p: Progress, n: nat, k: nat, d: real, url: string,
                                   env: nat -> WindowEnv, s: Store, atEnd: SaveOutcome, atShutdown: SaveOutcome)
    requires 0.0 <= d && n <= NumChunks(d) && p.next <= k < n
    requires env(k).shutdownBefore
    ensures var r := Drive(p, n, d, url, env);
      SaveResult(false, r.ledger, SaveResult(r.active, r.ledger, s, atEnd), atShutdown) == s
  {
    ShutdownDuringRunSkipsSave(p, n, k, d, url, env, s, atEnd);
  }

  /** One run over a 150-second track whose only recognized window is the second, as
      ("X", "Y"): it appends that entry, for [60, 120), exactly when the song is new. */
  lemma ScenarioRun(ledger: seq<Entry>, url: string, files: set<StagingFile>,
                    env: nat -> WindowEnv, now: string, ts: Option<real>)
    requires forall k :: !env(k).shutdownBefore
    requires forall k :: k != 1 ==> env(k).tries(0) == Attempt(Written(false), NoMatches, now)
    requires env(1).tries(0) == Attempt(Written(false), Matched("Y", "X", ts), now)
    ensures var r := Drive(Progress(ledger, [], true, 0, [], files), NumChunks(150.0), 150.0, url, env);
      && r.results == (if IsNewSongForUrl(ledger, "X", "Y", url)
                       then [Entry("X", "Y", now, url, TimeOf(ts), 60, 120.0)] else [])
      && r.ledger == ledger + r.results
  {
    WindowsOf150Seconds();
    var p0 := Progress(ledger, [], true, 0, [], files);
    var p1 := Step(p0, 150.0, url, env(0));
    StepAppendsEveryMatch(p0, 150.0, url, env(0));
    var p2 := Step(p1, 150.0, url, env(1));
    StepAppendsEveryMatch(p1, 150.0, url, env(1));
    var p3 := Step(p2, 150.0, url, env(2));
    StepAppendsEveryMatch(p2, 150.0, url, env(2));
    assert Drive(p2, 3, 150.0, url, env) == Drive(p3, 3, 150.0, url, env) == p3;
    assert Drive(p1, 3, 150.0, url, env) == p3;
    assert Drive(p0, 3, 150.0, url, env) == p3;
  }

  /** A 150-second track whose second window is recognized as ("X", "Y") and whose
      other windows find nothing appends exactly one entry, for [60, 120); running the
      same track again against the grown ledger appends nothing. */
  lemma Scenario150Seconds(ledger0: seq<Entry>, url: string, files: set<StagingFile>,
                           env: nat -> WindowEnv, now: string, ts: Option<real>)
    requires IsNewSongForUrl(ledger0, "X", "Y", url)
    requires forall k :: !env(k).shutdownBefore
    requires forall k :: k != 1 ==> env(k).tries(0) == Attempt(Written(false), NoMatches, now)
    requires env(1).tries(0) == Attempt(Written(false), Matched("Y", "X", ts), now)
    ensures var first := Drive(Progress(ledger0, [], true, 0, [], files), NumChunks(150.0), 150.0, url, env);
      && first.results == [Entry("X", "Y", now, url, TimeOf(ts), 60, 120.0)]
      && first.ledger == ledger0 + first.results
      && Drive(Progress(first.ledger, [], true, 0, [], files), NumChunks(150.0), 150.0, url, env).results == []
  {
    ScenarioRun(ledger0, url, files, env, now, ts);
    var e := Entry("X", "Y", now, url, TimeOf(ts), 60, 120.0);
    var ledger1 := ledger0 + [e];
    assert !IsNewSongForUrl(ledger1, "X", "Y", url) by {
      assert KeyOf(ledger1[|ledger0|]) == SongKey(Lower("X"), Lower("Y"), url);
    }
    ScenarioRun(ledger1, url, files, env, now, ts);
  }
}
