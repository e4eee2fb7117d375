/** Positions in a book of several files: a seek maps the book's timeline onto a file, and reading
    the position maps it back. */
module PlayerPositions {
  import opened Prelude
  import opened PlayerTypes
  import opened PlayerSpec

  /** Files that follow each other without a gap from the start of the book to its end. Where the length
      of the book is not known, that of its last file is not either. */
  ghost predicate Contiguous(tracks: seq<Track>, duration: real) {
    && tracks != []
    && tracks[0].offset == 0.0
    && (forall i | 0 <= i < |tracks| :: tracks[i].duration >= 0.0)
    && (forall i | 0 <= i < |tracks| - 1 :: tracks[i + 1].offset == tracks[i].offset + tracks[i].duration)
    && (if duration <= 0.0 then tracks[|tracks| - 1].duration == 0.0 else duration == tracks[|tracks| - 1].offset + tracks[|tracks| - 1].duration)
  }

  lemma {:induction false} LastStartedIsLast(tracks: seq<Track>, at: real)
    requires tracks != []
    ensures var i := LastStarted(tracks, at);
            && (i > 0 ==> tracks[i].offset <= at + 0.000001)
            && forall j | i < j < |tracks| :: tracks[j].offset > at + 0.000001
  {
    var n := |tracks| - 1;
    if tracks[n].offset > at + 0.000001 && n > 0 {
      LastStartedIsLast(tracks[..n], at);
      assert forall j | 0 <= j < n :: tracks[..n][j] == tracks[j];
    }
  }

  lemma {:induction false} OffsetsNotNegative(tracks: seq<Track>, duration: real, i: nat)
    requires Contiguous(tracks, duration) && i < |tracks|
    ensures tracks[i].offset >= 0.0
  {
    if i > 0 {
      OffsetsNotNegative(tracks, duration, i - 1);
      assert tracks[i - 1 + 1].offset == tracks[i - 1].offset + tracks[i - 1].duration;
    }
  }

  /** A position maps to a file that reaches it: inside that file, or at the book's end. */
  lemma LocateTrackReaches(tracks: seq<Track>, duration: real, at: real)
    requires Contiguous(tracks, duration) && 0.0 <= at && (duration > 0.0 ==> at <= duration)
    ensures var (i, within) := LocateTrack(tracks, at);
            && i < |tracks|
            && (tracks[i].duration > 0.0 ==> within <= tracks[i].duration)
            && Abs(tracks[i].offset + within - at) <= 0.000001
  {
    LastStartedIsLast(tracks, at);
    var i := LastStarted(tracks, at);
    OffsetsNotNegative(tracks, duration, |tracks| - 1);
    if i + 1 < |tracks| {
      assert tracks[i + 1].offset > at + 0.000001;
    }
  }

  /** The position in the current file that is reported: the target of a seek that has not landed,
      otherwise what the backend reads, or the last position known when it reads nothing; but not past
      the length of the file, where that is known. */
  function ReportedWithin(np: NowPlaying, reading: Option<real>): real {
    var within := if np.seek.pending || reading.None? then np.seek.known else reading.value;
    if np.currentTrack < |np.tracks| && 0.0 < np.tracks[np.currentTrack].duration < within then np.tracks[np.currentTrack].duration else within
  }

  function ReportedPosition(np: NowPlaying, reading: Option<real>): real {
    (if np.currentTrack < |np.tracks| then np.tracks[np.currentTrack].offset else 0.0) + ReportedWithin(np, reading)
  }

  lemma PositionInFile(np: NowPlaying, reading: Option<real>)
    ensures WithinTrack(np, reading) == ReportedWithin(np, reading)
  {
  }

  lemma PositionIsReported(d: Deck, reading: Option<real>)
    requires d.nowPlaying.Some?
    ensures BookPosition(d, reading) == ReportedPosition(d.nowPlaying.value, reading)
  {
  }

  lemma SoughtBook(d: Deck, np: NowPlaying, track: nat, within: real, now: Time)
    ensures SeekDeck(d, np, track, within, now).pendingStart == d.pendingStart
    ensures var e := SeekDeck(d, np, track, within, now).nowPlaying;
            e.Some? && e.value == np.(currentTrack := track, seek := e.value.seek, loadingTrack := e.value.loadingTrack) && e.value.seek.pending && (e.value.seek.known == within)
  {
  }

  /** Where a seek to `seconds` goes: to that position, but not before the start of the book and not
      into its last second, so that playback does not end at once. */
  function Sought(seconds: real, duration: real): real {
    if seconds < 0.0 then 0.0
    else if duration > 1.0 && seconds > duration - 1.0 then duration - 1.0
    else if 0.0 < duration <= 1.0 && seconds > duration then duration
    else seconds
  }

  /** Right after a seek, and whatever the backend reports, the position reported is the one asked for,
      from the start of the book to a second before its end; before the start it is the start, and
      beyond it is a second before the end, or the end of a book of at most a second. A book of unknown
      length has no end. (A file that starts up to a microsecond later counts as already started, so
      the two may differ by that much.) */
  lemma SeekIsReportedBack(s: State, seconds: real, env: Env, reading: Option<real>)
    requires s.deck.nowPlaying.Some? && Contiguous(s.deck.nowPlaying.value.tracks, s.deck.nowPlaying.value.duration)
    ensures var before, after := s.deck.nowPlaying.value, SeekTo(s, seconds, env).deck.nowPlaying;
            && after.Some? && after.value.book == before.book && after.value.tracks == before.tracks
            && after.value.isPlaying == before.isPlaying && !after.value.ended
            && -0.000001 <= ReportedPosition(after.value, reading) - Sought(seconds, before.duration) <= 0.000001
  {
    hide SeekDeck, ChapterEndAt, LocateTrack, ClampToBook, Contiguous;
    var before := s.deck.nowPlaying.value;
    var target := ClampToBook(seconds, before.duration);
    SoughtIsClamped(seconds, before.duration);
    LocateTrackReaches(before.tracks, before.duration, target);
    var np := Retargeted(before, target);
    var (track, within) := LocateTrack(np.tracks, target);
    SoughtBook(s.deck, np, track, within, env.now);
    assert before.tracks != [] by { SomeFile(before.tracks, before.duration); }
  }

  lemma SoughtIsClamped(seconds: real, duration: real)
    ensures ClampToBook(seconds, duration) == Sought(seconds, duration) >= 0.0
    ensures duration > 0.0 ==> Sought(seconds, duration) <= duration
  {
  }

  lemma SomeFile(tracks: seq<Track>, duration: real)
    requires Contiguous(tracks, duration)
    ensures tracks != []
  {
  }
}
