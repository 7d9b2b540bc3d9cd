/** One recognition call (`shazam_recognize`) and the retry policy of one window
    (`_process_chunk`), with every external effect given as an outcome. */
module Recognition {
  import opened Optional
  import opened Ledger

  /** The staging file `chunk_{start}.wav` of the window starting at `start` seconds. */
  datatype StagingFile = ChunkFile(start: int)

  /** What the recognition service does: constructing the `Shazam` client raises
      (outside the `try` of `shazam_recognize`, so the exception reaches
      `_process_chunk`); `recognize` raises or returns a result the code cannot read
      (caught inside `shazam_recognize`); it returns a result without matches; or it
      returns a match with the track's title, its subtitle (the artist) and an
      optional timestamp in milliseconds. */
  datatype Reply =
    | ClientRaises
    | ServiceRaises
    | NoMatches
    | Matched(title: string, artist: string, timestampMs: Option<real>)

  /** What writing the staging file does: `sf.write` raises, possibly after creating
      the file, or it writes a file whose size is zero or not. */
  datatype WriteOutcome = WriteRaises(leftFile: bool) | Written(empty: bool)

  /** Everything the outside world decides during one attempt; `now` is the
      formatted `datetime.now()`. */
  datatype Attempt = Attempt(write: WriteOutcome, reply: Reply, now: string)

  /** The dictionary `shazam_recognize` returns on an accepted match. */
  datatype Match = Match(title: string, artist: string, time: real, date: string, sourceUrl: string)

  /** `max_retries`. */
  const MaxRetries: nat := 2

  /** The attempt raises inside the `try` of `_process_chunk`: the write raised, the
      written file was empty (`ValueError("Empty chunk file")`), or, for an active
      recognizer (an inactive one returns before building the client), constructing
      the `Shazam` client raised. */
  predicate Raises(a: Attempt, active: bool) {
    match a.write
    case WriteRaises(_) => true
    case Written(empty) => empty || (active && a.reply.ClientRaises?)
  }

  /** `result.get("timestamp", 0) / 1000`. */
  function TimeOf(timestampMs: Option<real>): (seconds: real)
    ensures seconds * 1000.0 == timestampMs.GetOr(0.0)
    ensures timestampMs.None? ==> seconds == 0.0
  {
    timestampMs.GetOr(0.0) / 1000.0
  }

  /** `shazam_recognize`: a match comes back exactly when the recognizer is active, the
      staging file exists, the service matched, and the song is new for this URL; it
      carries the service's title and artist and the current URL. */
  function Recognize(active: bool, fileExists: bool, reply: Reply, now: string,
                     ledger: seq<Entry>, url: string): (r: Option<Match>)
    ensures r.Some? <==>
      active && fileExists && reply.Matched? && IsNewSongForUrl(ledger, reply.artist, reply.title, url)
    ensures r.Some? ==>
      r.value == Match(reply.title, reply.artist, TimeOf(reply.timestampMs), now, url)
  {
    if !active || !fileExists then None
    else match reply
      case Matched(title, artist, ts) =>
        if IsNewSongForUrl(ledger, artist, title, url)
        then Some(Match(title, artist, TimeOf(ts), now, url))
        else None
      case _ => None
  }

  /** The number of attempts `_process_chunk` makes: a second attempt is made only
      when the first one raised, and there is never a third. */
  function ChunkAttempts(tries: nat -> Attempt, active: bool): (n: nat)
    ensures 1 <= n <= MaxRetries
    ensures n == MaxRetries <==> Raises(tries(0), active)
  {
    if Raises(tries(0), active) then 2 else 1
  }

  /** What `_process_chunk` returns: the recognition of the first attempt that did not
      raise (a `None` from recognition ends the window as a match does, without a
      retry), and `None` when both attempts raised. A match is for `url` and was new. */
  function ChunkResult(tries: nat -> Attempt, active: bool, ledger: seq<Entry>, url: string): (r: Option<Match>)
    ensures r.Some? ==> r.value.sourceUrl == url && IsNewSongForUrl(ledger, r.value.artist, r.value.title, url)
    // conversely: the first attempt that does not raise decides the result, and a new
    // song the service matched in it is returned
    ensures var a := tries(0);
      active && !Raises(a, active) && a.reply.Matched?
        && IsNewSongForUrl(ledger, a.reply.artist, a.reply.title, url) ==>
      r == Some(Match(a.reply.title, a.reply.artist, TimeOf(a.reply.timestampMs), a.now, url))
    ensures var a := tries(1);
      active && Raises(tries(0), active) && !Raises(a, active) && a.reply.Matched?
        && IsNewSongForUrl(ledger, a.reply.artist, a.reply.title, url) ==>
      r == Some(Match(a.reply.title, a.reply.artist, TimeOf(a.reply.timestampMs), a.now, url))
    // and a first attempt that does not raise but finds nothing new (inactive, no
    // match, a service error or a duplicate) ends the window with `None`, no retry
    ensures var a := tries(0);
      !Raises(a, active)
        && !(active && a.reply.Matched? && IsNewSongForUrl(ledger, a.reply.artist, a.reply.title, url)) ==>
      r.None?
    ensures var a := tries(1);
      Raises(tries(0), active) && !Raises(a, active)
        && !(active && a.reply.Matched? && IsNewSongForUrl(ledger, a.reply.artist, a.reply.title, url)) ==>
      r.None?
    ensures Raises(tries(0), active) && Raises(tries(1), active) ==> r.None?
  {
    if !Raises(tries(0), active) then Recognize(active, true, tries(0).reply, tries(0).now, ledger, url)
    else if !Raises(tries(1), active) then Recognize(active, true, tries(1).reply, tries(1).now, ledger, url)
    else None
  }
}
