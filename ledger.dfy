/** The ledger of recognized songs (`SongRecognizer.recognized_songs`), its
    deduplication check and its persisted copy in `songs.json`. */
module Ledger {
  import opened Text

  /** One ledger record: the dictionary that `process_audio` appends, with the keys
      artist, title, date, source_url, timestamp, chunk_start and chunk_end. */
  datatype Entry = Entry(
    artist: string,
    title: string,
    date: string,        // wall-clock date of the recognition, opaque
    sourceUrl: string,
    timestamp: real,     // seconds into the window where the service matched
    chunkStart: int,     // window start in seconds
    chunkEnd: real)      // window end in seconds

  /** Deduplication identity: lowered artist, lowered title, exact source URL. */
  datatype SongKey = SongKey(artist: string, title: string, url: string)

  function KeyOf(e: Entry): SongKey {
    SongKey(Lower(e.artist), Lower(e.title), e.sourceUrl)
  }

  /** The test inside the `any(...)` of `_is_new_song_for_url`. */
  predicate SameSong(e: Entry, artist: string, title: string, url: string) {
    Lower(e.artist) == Lower(artist) && Lower(e.title) == Lower(title) && e.sourceUrl == url
  }

  /** `_is_new_song_for_url`: no entry of the ledger is the same song for this URL. */
  function IsNewSongForUrl(ledger: seq<Entry>, artist: string, title: string, url: string): (r: bool)
    ensures r <==> forall i :: 0 <= i < |ledger| ==> KeyOf(ledger[i]) != SongKey(Lower(artist), Lower(title), url)
  {
    if ledger == [] then true
    else !SameSong(ledger[0], artist, title, url) && IsNewSongForUrl(ledger[1..], artist, title, url)
  }

  /** The ledger invariant: no two entries share a deduplication identity. */
  predicate NoDuplicates(ledger: seq<Entry>) {
    forall i, j :: 0 <= i < j < |ledger| ==> KeyOf(ledger[i]) != KeyOf(ledger[j])
  }

  /** Every entry of the ledger was new for its URL against the entries before it. */
  predicate AppendedWhenNew(ledger: seq<Entry>, from: nat) {
    forall j :: from <= j < |ledger| ==>
      IsNewSongForUrl(ledger[..j], ledger[j].artist, ledger[j].title, ledger[j].sourceUrl)
  }

  /** A ledger built by appending only entries that were new keeps the invariant. */
  lemma {:induction false} AppendedWhenNewKeepsNoDuplicates(ledger: seq<Entry>, from: nat)
    requires from <= |ledger|
    requires NoDuplicates(ledger[..from])
    requires AppendedWhenNew(ledger, from)
    ensures NoDuplicates(ledger)
  {
    forall i, j | 0 <= i < j < |ledger| ensures KeyOf(ledger[i]) != KeyOf(ledger[j]) {
      if j < from {
        assert ledger[..from][i] == ledger[i] && ledger[..from][j] == ledger[j];
      } else {
        assert IsNewSongForUrl(ledger[..j], ledger[j].artist, ledger[j].title, ledger[j].sourceUrl);
        assert ledger[..j][i] == ledger[i];
      }
    }
  }

  /** The persisted copy of the ledger: no file, a file that does not load, or a
      file that loads as a list of entries. */
  datatype Store = Absent | Unreadable | Saved(entries: seq<Entry>)

  /** How a write of `songs.json` ends: it succeeds, or it raises and leaves
      the file in some state. */
  datatype SaveOutcome = WriteOk | WriteFails(leftBehind: Store)

  /** `_load_recognized_songs`: the ledger after loading from `s`, given the ledger
      before. A missing file leaves it as it is; a failed load empties it. */
  function LoadResult(s: Store, current: seq<Entry>): (r: seq<Entry>)
    ensures s.Absent? ==> r == current
    ensures s.Unreadable? ==> r == []
    ensures s.Saved? ==> r == s.entries
  {
    match s
    case Absent => current
    case Unreadable => []
    case Saved(entries) => entries
  }

  /** `_save_recognized_songs`: the persisted copy after a save of `ledger`. Nothing is
      written when the recognizer is not active. */
  function SaveResult(active: bool, ledger: seq<Entry>, s: Store, outcome: SaveOutcome): (r: Store)
    ensures !active ==> r == s
    ensures active && outcome.WriteOk? ==> r == Saved(ledger)
  {
    if !active then s
    else match outcome
      case WriteOk => Saved(ledger)
      case WriteFails(left) => left
  }

  /** A successful save followed by a load reproduces the ledger, whatever the
      in-memory ledger was at load time. */
  lemma SaveThenLoad(ledger: seq<Entry>, s: Store, current: seq<Entry>)
    ensures LoadResult(SaveResult(true, ledger, s, WriteOk), current) == ledger
  {
  }

  /** Case-insensitive on artist and title, exact on the URL: a ledger holding
      ("A", "B", "S") rejects ("a", "b", "S") and accepts ("a", "b", "S2"). */
  lemma DeduplicationExample(e: Entry)
    requires e.artist == "A" && e.title == "B" && e.sourceUrl == "S"
    ensures !IsNewSongForUrl([e], "a", "b", "S")
    ensures IsNewSongForUrl([e], "a", "b", "S2")
  {
    assert Lower("A") == "a" == Lower("a");
    assert Lower("B") == "b" == Lower("b");
    assert KeyOf([e][0]) == SongKey(Lower("a"), Lower("b"), "S");
  }
}
