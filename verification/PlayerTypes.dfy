/** The data of the player: books, tracks, the book held or being started, the suspended
    asynchronous tasks, and the arithmetic on positions that every operation shares. Positions
    are seconds as reals, clock readings are milliseconds. */
module PlayerTypes {
  import opened Prelude

  type Time = nat

  const SEEK_REISSUE_AFTER: Time := 2000
  const MAX_SEEK_REISSUES: nat := 3
  const SEEK_LANDED_TOLERANCE: real := 1.5
  const RESUME_RECONCILE_AFTER: Time := 60_000
  const ADOPT_MIN_DELTA: real := 5.0
  const PREMATURE_EOS_MIN_GAP: real := 60.0
  const PAUSE_CONFIRM_ATTEMPTS: nat := 10
  const SPURIOUS_UNPLUG_TOGGLE_WINDOW: Time := 1500
  const PREROLL_WAIT_ATTEMPTS: nat := 150
  const AUTO_RECOVER_WINDOW: Time := 60_000
  const STALE_CONNECTION_AFTER: Time := 300_000
  const LOCAL_PROGRESS_WRITE_INTERVAL: Time := 5000
  const SEEK_END_MARGIN: real := 1.0
  const MIN_SPEED: real := 0.8
  const MAX_SPEED: real := 3.0
  const EPSILON: real := 1.0 / 4503599627370496.0

  datatype Book = Book(item: string, server: string, account: string)

  datatype Track = Track(ino: string, offset: real, duration: real)

  datatype Chapter = Chapter(start: real, end: real)

  /** What resolving a book yields: its files in order, its length and its chapters. */
  datatype Target = Target(tracks: seq<Track>, duration: real, chapters: seq<Chapter>)

  datatype SleepTimer = Off | WallClock(at: Time) | AtPosition(end: real)

  datatype Intent = ResetProgress | MarkFinished

  datatype PlayerEvent = EndOfStream | StreamError

  /** An event taken off the backend's bus and kept for the tick. The player keeps the event alone;
      the load generation it was read under, and how many commands the backend had been given by
      then, are history. */
  datatype KeptEvent = KeptEvent(event: PlayerEvent, generation: nat, at: nat)

  /** A book asked for that has not been loaded yet. */
  datatype PendingStart = PendingStart(
    generation: nat,
    book: Book,
    wantsPlay: bool,
    startChapter: Option<nat>,
    intent: Option<Intent>)

  /** The position inside the current file the player last knew, which while a seek is pending is
      that seek's target; when the seek was handed to the backend, how often it was asked again, and
      whether the file was already reloaded for it. */
  datatype SeekState = SeekState(known: real, pending: bool, issuedAt: Option<Time>, retries: nat, reloadUsed: bool)

  /** The loaded (or failed) book. `retryRequest` holds the speed to start again with when the
      start failed before any track was resolved. */
  datatype NowPlaying = NowPlaying(
    book: Book,
    duration: real,
    tracks: seq<Track>,
    currentTrack: nat,
    sourceIsLocal: bool,
    isPlaying: bool,
    chapters: seq<Chapter>,
    speed: real,
    sleepTimer: SleepTimer,
    hasError: bool,
    seek: SeekState,
    needsReload: bool,
    retryRequest: Option<real>,
    prematureEosAt: Option<(nat, real)>,
    loadingTrack: Option<nat>,
    ended: bool,
    speedUnapplied: Option<real>)

  datatype StartStage =
    | Resolving
    | Placing(target: Target, chapterStart: Option<real>)
    | StartPreroll(target: Target, track: nat, within: real, loadGeneration: nat, isLocal: bool, polls: nat)

  datatype LoadStage =
    | Spawned
    | Connecting(track: nat)
    | LoadPreroll(loadedTrack: nat, isLocal: bool, polls: nat)

  /** A suspended asynchronous task: what it will read when it is resumed. */
  datatype Task =
    | StartTask(generation: nat, book: Book, speed: real, startStage: StartStage)
    | LoadTask(book: Book, generation: nat, loadStage: LoadStage)
    | PauseConfirmation(generation: nat, seekCount: nat, attempt: nat)
    | LocalFileCheck(book: Book, track: nat, generation: nat)
    | Recovery(book: Book, track: nat, within: real, generation: nat)
    | Reconcile(book: Book, from: real, session: nat, seekCount: nat)
    | ReplugTimer(seqNo: nat)
    | PausedSeekTimer(seekGeneration: nat)
    | PendingSync(book: Book, session: nat)

  /** Every call the player makes on the audio backend that changes it. */
  datatype Command =
    | LoadAccepted(book: Book, track: nat)
    | LoadRefused(book: Book, track: nat)
    | ResetCommand
    | PlayCommand(accepted: bool)
    | PauseCommand(accepted: bool)
    | SeekCommand(at: real)
    | SpeedCommand(speed: real, at: real)

  /** One progress value handed to the progress writer, with what was true of the book then. */
  datatype WriteAsk = WriteAsk(book: Book, position: real, finished: bool, force: bool, duration: real, whileEnded: bool)

  /** What the listener, the headphones and the phone did, and what the player did for them. The book
      that is starting can be asked for again, or be marked finished before it is loaded. */
  datatype Happening =
    | PauseAsked | PlayAsked | MarkedFinished | EndedBook | SleepPaused | Switched | Interrupted | Retired
    | AskedAgain | FinishNoted
    | RouteSeen
    | UnplugPaused | ReplugResumed
    | CallPaused | CallPickedUp | CallOver | CallResumed

  /** What the backend holds after `command`: the last file it accepted since it was last released. */
  function HeldAfter(held: Option<(Book, nat)>, command: Command): Option<(Book, nat)> {
    match command
    case LoadAccepted(book, track) => Some((book, track))
    case ResetCommand => None
    case _ => held
  }

  function Max(x: real, y: real): real { if x < y then y else x }

  function Min(x: real, y: real): real { if x < y then x else y }

  function Abs(x: real): real { if x < 0.0 then -x else x }

  function Clamp(x: real, low: real, high: real): real { Min(Max(x, low), high) }

  function UsableSpeed(speed: real): real { Clamp(speed, MIN_SPEED, MAX_SPEED) }

  function ClampToBook(seconds: real, duration: real): real {
    if duration > SEEK_END_MARGIN then Clamp(seconds, 0.0, duration - SEEK_END_MARGIN)
    else if duration > 0.0 then Clamp(seconds, 0.0, duration)
    else Max(seconds, 0.0)
  }

  /** The last track that has started by `at`; the first one when none has. */
  function LastStarted(tracks: seq<Track>, at: real): (index: nat)
    ensures tracks != [] ==> index < |tracks|
  {
    if |tracks| == 0 then 0
    else if tracks[|tracks| - 1].offset <= at + 0.000001 then |tracks| - 1
    else LastStarted(tracks[..|tracks| - 1], at)
  }

  function LocateTrack(tracks: seq<Track>, at: real): (nat, real) {
    if tracks == [] then (0, 0.0)
    else
      var index := LastStarted(tracks, at);
      (index, Max(at - tracks[index].offset, 0.0))
  }

  function ChapterEndAt(chapters: seq<Chapter>, position: real): Option<real> {
    if chapters == [] then None
    else if chapters[0].start <= position < chapters[0].end then Some(chapters[0].end)
    else ChapterEndAt(chapters[1..], position)
  }

  /** Where a start resumes from the saved progress. */
  function ResumePosition(saved: real, finished: bool, duration: real): Option<real> {
    if finished || saved <= 0.0 then None
    else if duration > 0.0 && saved >= duration then
      var inside := Max(duration - 1.0, 0.0);
      if inside > 0.0 then Some(inside) else None
    else Some(saved)
  }

  function TrackOffset(np: NowPlaying): real {
    if np.currentTrack < |np.tracks| then np.tracks[np.currentTrack].offset else 0.0
  }

  /** A pending seek's target, otherwise the backend's reading when it has one. */
  function Within(seek: SeekState, reading: Option<real>): real {
    if seek.pending then seek.known else reading.GetOr(seek.known)
  }

  /** The position inside the current file that is reported: the pinned target while a seek is
      pending, otherwise the backend's reading, never past the file's length. */
  function WithinTrack(np: NowPlaying, reading: Option<real>): real {
    var within := Within(np.seek, reading);
    if np.currentTrack < |np.tracks| && np.tracks[np.currentTrack].duration > 0.0
    then Min(within, np.tracks[np.currentTrack].duration) else within
  }

  predicate HoldsTrack(np: NowPlaying) {
    !np.needsReload && np.loadingTrack.None? && np.tracks != []
  }

  predicate WallClockArmed(np: NowPlaying) { np.sleepTimer.WallClock? }

  predicate SpeedChanged(a: real, b: real) { Abs(a - b) > EPSILON }
}
