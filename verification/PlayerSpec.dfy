/** The player as a state machine: one function per operation of the controller and per stretch
    of code an asynchronous task runs between two suspensions. `Env` is everything the outside
    world answers during one stretch, so the backend and the clock are adversaries. */
module PlayerSpec {
  import opened Prelude
  import opened PlayerTypes

  /** The book, the backend, and the tasks that may still act on them. */
  datatype Deck = Deck(
    nowPlaying: Option<NowPlaying>,
    pendingStart: Option<PendingStart>,
    sessionGeneration: nat,
    loadGeneration: nat,
    seekCount: nat,
    tasks: multiset<Task>,
    commands: seq<Command>,
    held: Option<(Book, nat)>)

  /** Why playback is paused, and everything that has happened to it. */
  datatype Marks = Marks(
    pauseOnUnplug: bool,
    resumeOnReplug: bool,
    pausedByUnplug: bool,
    unplugPausedAt: Option<Time>,
    routeEventSeq: nat,
    pausedByCall: bool,
    log: seq<Happening>)

  /** When progress was last written, what holds it back, and every value asked to be written. */
  datatype Saving = Saving(
    lastProgressWrite: Time,
    lastPlayedAt: Time,
    holdingWrites: Option<nat>,
    pausedSeekGeneration: nat,
    writes: seq<WriteAsk>)

  datatype State = State(
    deck: Deck,
    marks: Marks,
    saving: Saving,
    lastAutoRecoverAt: Option<Time>,
    deferredEvent: Option<KeptEvent>,
    ticking: bool)

  /** What the backend, the clock and the session answer during one stretch. `observed` is the
      position the observation reads, `reading` the one read afterwards, `readingAfter` the one
      read once the backend may have been released. `accepted` answers a load, and a play or a pause
      whose answer is looked at; `plays` and `pauses` answer those whose answer is not. */
  datatype Env = Env(
    now: Time,
    observed: Option<real>,
    reading: Option<real>,
    readingAfter: Option<real>,
    fileLength: Option<real>,
    accepted: bool,
    speedAccepted: bool,
    plays: bool,
    pauses: bool,
    paused: bool,
    polled: Option<PlayerEvent>,
    errorWaiting: bool,
    offline: bool)

  /** What a suspended task finds when it is resumed. */
  datatype Outcome =
    | Waiting
    | Failed
    | Resolved(target: Target)
    | Placed(saved: Option<(real, bool)>, startIsLocal: bool)
    | Answered(isLocal: bool)
    | Reconciled(ok: bool, after: Option<(real, bool, bool)>)

  datatype SeekVerdict = Quiet | Reissue(target: real) | Reload(target: real) | Stop

  datatype EndVerdict = RealEnd | Unclear(within: real) | Premature

  /** What a reading leaves of a seek, and what has to be done about it. */
  datatype Observation = Observation(seek: SeekState, verdict: SeekVerdict)

  /** The book as an end-of-stream leaves it, and what that end means. */
  datatype Judgement = Judgement(book: NowPlaying, verdict: EndVerdict)

  function Initial(now: Time): State {
    State(Deck(None, None, 0, 0, 0, multiset{}, [], None),
          Marks(false, false, false, None, 0, false, []),
          Saving(now, now, None, 0, []),
          None, None, false)
  }

  // ---------------------------------------------------------------- the deck

  function Commanded(d: Deck, command: Command): Deck {
    d.(commands := d.commands + [command], held := HeldAfter(d.held, command))
  }

  function Spawn(d: Deck, task: Task): Deck { d.(tasks := d.tasks + multiset{task}) }

  function WithBook(d: Deck, np: NowPlaying): Deck { d.(nowPlaying := Some(np)) }

  predicate PendingIs(d: Deck, generation: nat) {
    d.pendingStart.Some? && d.pendingStart.value.generation == generation
  }

  function PlayingIntent(d: Deck): Option<bool> {
    if d.pendingStart.Some? then Some(d.pendingStart.value.wantsPlay)
    else if d.nowPlaying.Some? then Some(d.nowPlaying.value.isPlaying)
    else None
  }

  function BookPosition(d: Deck, reading: Option<real>): real {
    if d.nowPlaying.None? then 0.0 else TrackOffset(d.nowPlaying.value) + WithinTrack(d.nowPlaying.value, reading)
  }

  function ResetBackend(d: Deck): Deck {
    Commanded(d, ResetCommand).(
      loadGeneration := d.loadGeneration + 1,
      nowPlaying := if d.nowPlaying.Some? then Some(d.nowPlaying.value.(loadingTrack := None)) else None)
  }

  /** Releases the backend and leaves the loaded book as `np`. */
  function Released(d: Deck, np: NowPlaying): Deck { WithBook(ResetBackend(d), np.(loadingTrack := None)) }

  function PauseBackendIfLoaded(d: Deck, accepted: bool): Deck {
    if d.nowPlaying.Some? && HoldsTrack(d.nowPlaying.value) then Commanded(d, PauseCommand(accepted)) else d
  }

  /** Switches to `track` of the book `np`, releases the old file, pins the position to `within`
      and starts the task that loads it. */
  function LoadTrackAt(d: Deck, np: NowPlaying, track: nat, within: real): Deck {
    var generation := d.loadGeneration + 2;
    var loading := np.(currentTrack := track, seek := SeekState(within, true, None, 0, np.seek.reloadUsed), loadingTrack := Some(generation));
    Spawn(WithBook(ResetBackend(d), loading).(loadGeneration := generation), LoadTask(np.book, generation, Spawned))
  }

  // ---------------------------------------------------------------- marks and writes

  /** Marks belong to one pause; whatever else happens to playback takes them away. */
  function ClearMarks(m: Marks, why: Happening): Marks {
    m.(log := m.log + [why], pausedByUnplug := false, pausedByCall := false)
  }

  /** What happens to a book that is still starting is only noted: the marks stay. */
  function Noted(m: Marks, what: Happening): Marks { m.(log := m.log + [what]) }

  function WriteProgressAt(v: Saving, d: Deck, position: real, finished: bool, force: bool, now: Time): Saving {
    if d.nowPlaying.None? || d.nowPlaying.value.tracks == [] then v
    else
      var np := d.nowPlaying.value;
      v.(lastProgressWrite := now,
         writes := v.writes + [WriteAsk(np.book, position, finished, force, np.duration, np.ended)])
  }

  function WriteProgressNow(v: Saving, d: Deck, reading: Option<real>, now: Time): Saving {
    if d.nowPlaying.None? then v
    else if d.nowPlaying.value.ended then WriteProgressAt(v, d, d.nowPlaying.value.duration, true, true, now)
    else WriteProgressAt(v, d, BookPosition(d, reading), false, true, now)
  }

  function WriteProgress(v: Saving, d: Deck, reading: Option<real>, now: Time): Saving {
    if v.holdingWrites.Some? then v else WriteProgressNow(v, d, reading, now)
  }

  /** An end-of-stream waiting on the bus is dropped; the first error there is kept for the tick. */
  function AfterDroppingEndOfStream(deferred: Option<KeptEvent>, error: KeptEvent, errorWaiting: bool): Option<KeptEvent> {
    if deferred.None? && errorWaiting then Some(error) else deferred
  }

  function Keep(d: Deck, event: PlayerEvent): KeptEvent { KeptEvent(event, d.loadGeneration, |d.commands|) }

  /** What a tick handles: the event that was kept, otherwise the next one on the bus. */
  function NextEvent(kept: Option<KeptEvent>, polled: Option<PlayerEvent>): Option<PlayerEvent> {
    if kept.Some? then Some(kept.value.event) else polled
  }

  // ---------------------------------------------------------------- observing the position

  predicate Landed(target: real, within: real, fileLength: Option<real>) {
    var clampedAtEnd := fileLength.Some? && fileLength.value > 0.0 && target > fileLength.value
                        && Abs(within - fileLength.value) <= SEEK_LANDED_TOLERANCE;
    var stillAtStart := within == 0.0 && target > 0.25;
    clampedAtEnd || (Abs(within - target) <= SEEK_LANDED_TOLERANCE && !stillAtStart)
  }

  function ObserveSeek(k: SeekState, within: real, fileLength: Option<real>, now: Time): Observation {
    if !k.pending then Observation(k.(known := within), Quiet)
    else if Landed(k.known, within, fileLength) then Observation(SeekState(within, false, None, 0, false), Quiet)
    else if k.issuedAt.None? || now < k.issuedAt.value + SEEK_REISSUE_AFTER then Observation(k, Quiet)
    else if k.retries < MAX_SEEK_REISSUES then Observation(k.(retries := k.retries + 1, issuedAt := Some(now)), Reissue(k.known))
    else if k.reloadUsed then Observation(k.(issuedAt := None), Stop)
    else Observation(k.(reloadUsed := true), Reload(k.known))
  }

  /** Once per tick: a reading is adopted, or confirms a seek; a seek that does not land is asked
      again, then the file is reloaded at the target once, then playback stops there. Nothing is
      read into a file that is still being loaded. */
  function ObservePosition(s: State, env: Env): State {
    if env.observed.None? || s.deck.nowPlaying.None? || s.deck.nowPlaying.value.loadingTrack.Some? then s
    else
      var Observation(k, verdict) := ObserveSeek(s.deck.nowPlaying.value.seek, env.observed.value, env.fileLength, env.now);
      var np := s.deck.nowPlaying.value.(seek := k);
      match verdict
      case Quiet => s.(deck := WithBook(s.deck, np))
      case Reissue(target) =>
        s.(deck := Commanded(WithBook(s.deck, np), SeekCommand(target)),
           deferredEvent := AfterDroppingEndOfStream(s.deferredEvent, Keep(s.deck, StreamError), env.errorWaiting))
      case Reload(target) => s.(deck := LoadTrackAt(s.deck, np, np.currentTrack, target))
      case Stop => s.(deck := Released(s.deck, np.(isPlaying := false, needsReload := true, hasError := true)))
  }

  // ---------------------------------------------------------------- starting a book

  predicate IsPending(d: Deck, book: Book) { d.pendingStart.Some? && d.pendingStart.value.book == book }

  /** The previous book is dropped, whatever was loading is invalidated, and the new book waits to
      be resolved. */
  function BeginStart(d: Deck, book: Book, speed: real, chapter: Option<nat>): Deck {
    var generation := d.sessionGeneration + 1;
    Spawn(ResetBackend(d).(
            sessionGeneration := generation,
            nowPlaying := None,
            pendingStart := Some(PendingStart(generation, book, true, chapter, None))),
          StartTask(generation, book, UsableSpeed(speed), Resolving))
  }

  /** A start of a book that is not the loaded one. */
  function StartNew(s: State, book: Book, speed: real, chapter: Option<nat>, env: Env): State {
    if IsPending(s.deck, book) then
      var p := s.deck.pendingStart.value;
      s.(deck := s.deck.(pendingStart := Some(p.(wantsPlay := true, startChapter := if chapter.Some? then chapter else p.startChapter))),
         marks := Noted(s.marks, AskedAgain))
    else
      s.(deck := BeginStart(s.deck, book, speed, chapter),
         marks := ClearMarks(s.marks, Switched),
         saving := WriteProgressNow(s.saving, s.deck, env.reading, env.now).(holdingWrites := None))
  }

  predicate IsLoaded(d: Deck, book: Book) {
    d.nowPlaying.Some? && d.nowPlaying.value.book == book && d.nowPlaying.value.tracks != [] && d.nowPlaying.value.retryRequest.None?
  }

  function StartWith(s: State, book: Book, speed: real, chapter: Option<nat>, env: Env): State {
    if !IsLoaded(s.deck, book) then StartNew(s, book, speed, chapter, env)
    else
      var chapters := s.deck.nowPlaying.value.chapters;
      if chapter.Some? && chapter.value < |chapters|
      then Play(SeekTo(s, Max(chapters[chapter.value].start, 0.0), env), env)
      else Play(s, env)
  }

  // ---------------------------------------------------------------- play and pause

  /** A long pause ends: the server is asked, in parallel, whether another device moved on. */
  predicate ReconcileDue(s: State, env: Env) {
    s.deck.nowPlaying.Some? && !env.offline && !s.deck.nowPlaying.value.isPlaying && s.deck.nowPlaying.value.tracks != []
    && env.now >= s.saving.lastPlayedAt + RESUME_RECONCILE_AFTER && s.saving.holdingWrites.None?
  }

  function ReconcileBeforeResuming(s: State, env: Env): State {
    if !ReconcileDue(s, env) then s
    else
      s.(deck := Spawn(s.deck, Reconcile(s.deck.nowPlaying.value.book, BookPosition(s.deck, env.reading),
                                         s.deck.sessionGeneration, s.deck.seekCount)),
         saving := s.saving.(holdingWrites := Some(s.deck.sessionGeneration)))
  }

  /** A stream that failed while paused, or whose connection went stale, is released and marked
      for a reload; an end-of-stream found there is kept for the tick. */
  function PrepareToResume(s: State, env: Env): State {
    if s.deck.nowPlaying.None? || !HoldsTrack(s.deck.nowPlaying.value) || s.deck.nowPlaying.value.isPlaying then s
    else if env.polled == Some(EndOfStream) then s.(deferredEvent := Some(Keep(s.deck, EndOfStream)))
    else
      var np := s.deck.nowPlaying.value;
      var stale := !np.sourceIsLocal && env.now >= s.saving.lastPlayedAt + STALE_CONNECTION_AFTER;
      if env.polled.None? && !stale then s
      else s.(deck := Released(s.deck, np.(needsReload := true, seek := np.seek.(known := Within(np.seek, env.reading)))))
  }

  /** Hands the backend a speed picked while paused, right before it plays. */
  function ApplyDeferredSpeed(s: State, env: Env): State {
    if s.deck.nowPlaying.None? || s.deck.nowPlaying.value.speedUnapplied.None? then s
    else
      var np := s.deck.nowPlaying.value;
      var settled := np.(speedUnapplied := None, speed := if env.speedAccepted then np.speed else np.speedUnapplied.value);
      s.(deck := WithBook(Commanded(s.deck, SpeedCommand(np.speed, Within(np.seek, env.reading))), settled).(seekCount := s.deck.seekCount + 1),
         deferredEvent := AfterDroppingEndOfStream(s.deferredEvent, Keep(s.deck, StreamError), env.errorWaiting))
  }

  function RestartFinished(s: State, env: Env): State
    requires s.deck.nowPlaying.Some?
  {
    var np := s.deck.nowPlaying.value.(ended := false, isPlaying := true, hasError := false);
    var d := LoadTrackAt(s.deck, np, 0, 0.0);
    s.(deck := d,
       saving := WriteProgressAt(s.saving, d, 0.0, false, true, env.now).(lastPlayedAt := env.now),
       ticking := true)
  }

  /** What `play` does with the backend once the book is known to be loaded and not finished. */
  function ResumeBackend(s: State, env: Env): State
    requires s.deck.nowPlaying.Some?
  {
    var np := s.deck.nowPlaying.value;
    if np.loadingTrack.Some? then
      s.(deck := WithBook(s.deck, np.(isPlaying := true)), ticking := true)
    else if np.needsReload then
      s.(deck := LoadTrackAt(s.deck, np.(isPlaying := true, hasError := false), np.currentTrack, np.seek.known), ticking := true)
    else
      PlayBackend(ApplyDeferredSpeed(s, env), env.accepted)
  }

  function PlayBackend(s: State, accepted: bool): State {
    if s.deck.nowPlaying.None? then s
    else
      var np := s.deck.nowPlaying.value;
      var d := Commanded(s.deck, PlayCommand(accepted));
      if accepted then s.(deck := WithBook(d, np.(isPlaying := true, hasError := false)), ticking := true)
      else s.(deck := Released(d, np.(hasError := true, needsReload := true)))
  }

  function Resume(s: State, env: Env): State {
    var t := PrepareToResume(ReconcileBeforeResuming(s, env), env);
    if t.deck.nowPlaying.None? then t else ResumeBackend(t, env)
  }

  function Play(s: State, env: Env): State {
    PlayMarked(s.(marks := ClearMarks(s.marks, PlayAsked)), env)
  }

  function PlayMarked(s: State, env: Env): State {
    var d := s.deck;
    if d.pendingStart.Some? then s.(deck := d.(pendingStart := Some(d.pendingStart.value.(wantsPlay := true))))
    else if d.nowPlaying.Some? && d.nowPlaying.value.retryRequest.Some? then
      StartNew(s, d.nowPlaying.value.book, d.nowPlaying.value.retryRequest.value, None, env)
    else if d.nowPlaying.Some? && d.nowPlaying.value.ended && d.nowPlaying.value.tracks != [] then RestartFinished(s, env)
    else Resume(s, env)
  }

  function PauseBackend(d: Deck, accepted: bool): Deck {
    if d.nowPlaying.None? then
      var c := Commanded(d, PauseCommand(accepted));
      if accepted then Spawn(c, PauseConfirmation(c.loadGeneration, c.seekCount, 0)) else ResetBackend(c)
    else
      var np := d.nowPlaying.value.(isPlaying := false);
      if np.needsReload || np.loadingTrack.Some? then WithBook(d, np)
      else if accepted then Spawn(WithBook(Commanded(d, PauseCommand(accepted)), np), PauseConfirmation(d.loadGeneration, d.seekCount, 0))
      else Released(Commanded(d, PauseCommand(accepted)), np.(hasError := true, needsReload := true))
  }

  function Pause(s: State, env: Env): State {
    var m := ClearMarks(s.marks, PauseAsked);
    if s.deck.pendingStart.Some? then
      s.(marks := m, deck := s.deck.(pendingStart := Some(s.deck.pendingStart.value.(wantsPlay := false))))
    else
      var d := PauseBackend(s.deck, env.accepted);
      s.(marks := m, deck := d, saving := WriteProgress(s.saving, d, env.readingAfter, env.now))
  }

  function TogglePlayPause(s: State, env: Env): State {
    if PlayingIntent(s.deck) == Some(true) then Pause(s, env) else Play(s, env)
  }

  /** A media key pressed right after an unplug's own pause is the plug shorting the button. */
  predicate SpuriousToggle(s: State, now: Time) {
    PlayingIntent(s.deck) == Some(false) && s.marks.pausedByUnplug && s.marks.unplugPausedAt.Some?
    && now < s.marks.unplugPausedAt.value + SPURIOUS_UNPLUG_TOGGLE_WINDOW
  }

  function ExternalPlayPause(s: State, env: Env): State {
    if SpuriousToggle(s, env.now) then s else TogglePlayPause(s, env)
  }

  // ---------------------------------------------------------------- seeking and speed

  function SeekTo(s: State, seconds: real, env: Env): State {
    if s.deck.nowPlaying.None? || s.deck.nowPlaying.value.tracks == [] then s
    else SavePausedSeekLater(SeekLoaded(s, ClampToBook(seconds, s.deck.nowPlaying.value.duration), env))
  }

  /** The book as a seek to `target` leaves it, before the backend is told. */
  function Retargeted(np: NowPlaying, target: real): NowPlaying {
    np.(ended := false,
        sleepTimer := if np.sleepTimer.AtPosition? then AtPosition(ChapterEndAt(np.chapters, target).GetOr(np.duration)) else np.sleepTimer,
        seek := np.seek.(known := LocateTrack(np.tracks, target).1, reloadUsed := false))
  }

  /** What a seek to `within` of `track` does to the backend: a reload for another file, nothing
      while nothing usable is loaded, otherwise the seek itself. */
  function SeekDeck(d: Deck, np: NowPlaying, track: nat, within: real, now: Time): Deck {
    var c := d.(seekCount := d.seekCount + 1);
    var pinned := SeekState(within, true, None, 0, np.seek.reloadUsed);
    if track != np.currentTrack then LoadTrackAt(c, np, track, within)
    else if np.loadingTrack.Some? || np.needsReload then WithBook(c, np.(seek := pinned))
    else
      var sent := WithBook(Commanded(c, SeekCommand(within)), np.(seek := pinned.(issuedAt := Some(now))));
      if np.sourceIsLocal then sent else Spawn(sent, LocalFileCheck(np.book, track, d.loadGeneration))
  }

  function SeekLoaded(s: State, target: real, env: Env): State
    requires s.deck.nowPlaying.Some?
  {
    var np := Retargeted(s.deck.nowPlaying.value, target);
    var (track, within) := LocateTrack(np.tracks, target);
    var reachesBackend := track == np.currentTrack && np.loadingTrack.None? && !np.needsReload;
    s.(deck := SeekDeck(s.deck, np, track, within, env.now),
       deferredEvent := if reachesBackend then AfterDroppingEndOfStream(s.deferredEvent, Keep(s.deck, StreamError), env.errorWaiting) else s.deferredEvent)
  }

  function SavePausedSeekLater(s: State): State {
    if s.deck.nowPlaying.None? || s.deck.nowPlaying.value.isPlaying then s
    else
      var generation := s.saving.pausedSeekGeneration + 1;
      s.(deck := Spawn(s.deck, PausedSeekTimer(generation)), saving := s.saving.(pausedSeekGeneration := generation))
  }

  function SetSpeed(s: State, wanted: real, env: Env): State {
    if s.deck.nowPlaying.None? then s
    else
      var np := s.deck.nowPlaying.value;
      var speed := UsableSpeed(wanted);
      if Abs(np.speed - speed) < EPSILON then s
      else if !HoldsTrack(np) then
        s.(deck := WithBook(s.deck, np.(speed := speed, speedUnapplied := None)).(seekCount := s.deck.seekCount + 1))
      else if !np.isPlaying && !np.sourceIsLocal then
        var applied := np.speedUnapplied.GetOr(np.speed);
        s.(deck := WithBook(s.deck, np.(speed := speed, speedUnapplied := if Abs(applied - speed) < EPSILON then None else Some(applied))))
      else
        var told := Commanded(s.deck, SpeedCommand(speed, Within(np.seek, env.reading))).(seekCount := s.deck.seekCount + 1);
        s.(deck := if env.speedAccepted then WithBook(told, np.(speed := speed, speedUnapplied := None)) else told,
           deferredEvent := AfterDroppingEndOfStream(s.deferredEvent, Keep(s.deck, StreamError), env.errorWaiting))
  }

  // ---------------------------------------------------------------- sleep timer, finishing, resetting

  function SleepInMinutes(s: State, minutes: nat, env: Env): State {
    if s.deck.nowPlaying.None? then s
    else s.(deck := WithBook(s.deck, s.deck.nowPlaying.value.(sleepTimer := WallClock(env.now + minutes * 60_000))), ticking := true)
  }

  function SleepAtEndOfChapter(s: State, env: Env): State {
    if s.deck.nowPlaying.None? || s.deck.nowPlaying.value.tracks == [] then s
    else
      var np := s.deck.nowPlaying.value;
      var end := ChapterEndAt(np.chapters, BookPosition(s.deck, env.reading)).GetOr(np.duration);
      s.(deck := WithBook(s.deck, np.(sleepTimer := AtPosition(end))))
  }

  function CancelSleepTimer(s: State): State {
    if s.deck.nowPlaying.None? then s else s.(deck := WithBook(s.deck, s.deck.nowPlaying.value.(sleepTimer := Off)))
  }

  function WithIntent(d: Deck, intent: Intent): Deck
    requires d.pendingStart.Some?
  {
    d.(pendingStart := Some(d.pendingStart.value.(intent := Some(intent))))
  }

  /** Stops playback and makes the book a finished one. */
  function EndBook(d: Deck, accepted: bool): Deck
    requires d.nowPlaying.Some?
  {
    WithBook(PauseBackendIfLoaded(d, accepted), d.nowPlaying.value.(isPlaying := false, ended := true))
  }

  function MarkAsFinished(s: State, env: Env): State {
    if s.deck.pendingStart.Some? then s.(deck := WithIntent(s.deck, MarkFinished), marks := Noted(s.marks, FinishNoted))
    else if s.deck.nowPlaying.None? then s
    else
      var d := EndBook(s.deck, env.pauses);
      s.(deck := d, marks := ClearMarks(s.marks, MarkedFinished),
         saving := WriteProgressAt(s.saving, d, d.nowPlaying.value.duration, true, true, env.now))
  }

  function ResetBookProgress(s: State, env: Env): State {
    if s.deck.pendingStart.Some? then s.(deck := WithIntent(s.deck, ResetProgress))
    else
      var t := SeekTo(s, 0.0, env);
      t.(saving := WriteProgressAt(t.saving, t.deck, 0.0, false, true, env.now))
  }

  function SaveProgressNow(s: State, env: Env): State {
    s.(saving := WriteProgress(s.saving, s.deck, env.reading, env.now))
  }

  function SyncPendingProgress(s: State, env: Env): State {
    if s.deck.nowPlaying.None? || env.offline then s
    else s.(deck := Spawn(s.deck, PendingSync(s.deck.nowPlaying.value.book, s.deck.sessionGeneration)))
  }

  function Retire(s: State, env: Env): State {
    s.(deck := ResetBackend(s.deck).(
         sessionGeneration := s.deck.sessionGeneration + 1, nowPlaying := None, pendingStart := None),
       marks := Noted(s.marks, Retired),
       saving := WriteProgressNow(s.saving, s.deck, env.reading, env.now),
       ticking := false)
  }

  // ---------------------------------------------------------------- headphones and calls

  function RouteChanged(m: Marks): Marks { m.(routeEventSeq := m.routeEventSeq + 1, log := m.log + [RouteSeen]) }

  function Unplugged(s: State, env: Env): State {
    var t := s.(marks := RouteChanged(s.marks));
    if !t.marks.pauseOnUnplug || PlayingIntent(t.deck) != Some(true) then t
    else
      var p := Pause(t, env);
      p.(marks := p.marks.(pausedByUnplug := true, unplugPausedAt := Some(env.now), log := p.marks.log + [UnplugPaused]))
  }

  function Replugged(s: State): State {
    var t := s.(marks := RouteChanged(s.marks));
    if t.marks.resumeOnReplug && t.marks.pausedByUnplug && PlayingIntent(t.deck) == Some(false)
    then t.(deck := Spawn(t.deck, ReplugTimer(t.marks.routeEventSeq))) else t
  }

  function CallStarted(s: State, env: Env): State {
    if PlayingIntent(s.deck) != Some(true) then s
    else
      var p := Pause(s, env);
      p.(marks := p.marks.(pausedByCall := true, log := p.marks.log + [CallPaused]))
  }

  function CallAnswered(s: State): State {
    s.(marks := s.marks.(pausedByCall := false, log := s.marks.log + [CallPickedUp]))
  }

  predicate CallResumes(s: State, answered: bool, outgoing: bool) {
    !answered && !outgoing && s.marks.pausedByCall && PlayingIntent(s.deck) == Some(false)
  }

  function CallEnded(s: State, answered: bool, outgoing: bool, env: Env): State {
    if CallResumes(s, answered, outgoing)
    then Play(s.(marks := s.marks.(pausedByCall := false, log := s.marks.log + [CallResumed])), env)
    else s.(marks := s.marks.(pausedByCall := false, log := s.marks.log + [CallOver]))
  }

  // ---------------------------------------------------------------- the tick

  function JudgeEndOfStream(np: NowPlaying, reading: Option<real>, fileLength: Option<real>): Judgement {
    var within := reading.GetOr(np.seek.known);
    var serverDuration := if np.currentTrack < |np.tracks| then np.tracks[np.currentTrack].duration else 0.0;
    var duration := if serverDuration > 0.0 then serverDuration else fileLength.GetOr(0.0);
    var shortBy := duration - within;
    if duration <= 0.0 || shortBy < PREMATURE_EOS_MIN_GAP then Judgement(np, RealEnd)
    else
      var isLast := np.currentTrack + 1 >= |np.tracks|;
      if shortBy < duration * 0.1 && !isLast then Judgement(np, RealEnd)
      else if np.prematureEosAt.Some? && np.prematureEosAt.value.0 == np.currentTrack && Abs(np.prematureEosAt.value.1 - within) < 5.0 then
        Judgement(np.(prematureEosAt := None), RealEnd)
      else
        Judgement(np.(prematureEosAt := Some((np.currentTrack, within))), if shortBy < duration * 0.1 then Unclear(within) else Premature)
  }

  function StopUnclear(s: State, np: NowPlaying, within: real, env: Env): State {
    var stopped := np.(isPlaying := false, needsReload := true, seek := np.seek.(known := within, pending := false));
    var d := Released(s.deck, stopped);
    s.(deck := d, marks := ClearMarks(s.marks, Interrupted),
       saving := WriteProgress(s.saving, d, env.readingAfter, env.now), ticking := WallClockArmed(np))
  }

  function FinishBook(s: State, env: Env): State
    requires s.deck.nowPlaying.Some?
  {
    var d := EndBook(s.deck, env.pauses);
    s.(deck := d, marks := ClearMarks(s.marks, EndedBook), saving := WriteProgressNow(s.saving, d, env.readingAfter, env.now))
  }

  /** A stream error releases the backend where it stopped. A downloaded file has nothing to fall
      back on; a stream is recovered asynchronously. */
  function HandleStreamError(s: State, np: NowPlaying, env: Env): State {
    var within := Max(WithinTrack(np, env.reading), 0.0);
    var stopped := np.(needsReload := true, seek := np.seek.(known := within),
                       isPlaying := np.isPlaying && !np.sourceIsLocal, hasError := np.hasError || np.sourceIsLocal);
    var d := Released(s.deck, stopped);
    s.(deck := if np.sourceIsLocal then d else Spawn(d, Recovery(np.book, np.currentTrack, within, d.loadGeneration)),
       marks := ClearMarks(s.marks, Interrupted),
       saving := WriteProgress(s.saving, d, env.readingAfter, env.now))
  }

  predicate SleepTimerReached(d: Deck, env: Env) {
    d.nowPlaying.Some?
    && match d.nowPlaying.value.sleepTimer
       case Off => false
       case WallClock(at) => env.now >= at
       case AtPosition(end) => BookPosition(d, env.readingAfter) >= end
  }

  function SleepNow(s: State, env: Env): State
    requires s.deck.nowPlaying.Some?
  {
    var d := WithBook(PauseBackendIfLoaded(s.deck, env.pauses), s.deck.nowPlaying.value.(isPlaying := false, sleepTimer := Off));
    s.(deck := d, marks := ClearMarks(s.marks, SleepPaused), saving := WriteProgressNow(s.saving, d, env.readingAfter, env.now))
  }

  /** The heartbeat write, and whether the timer goes on. */
  function KeepTicking(s: State, env: Env): State {
    if s.deck.nowPlaying.None? then s.(ticking := false)
    else
      var np := s.deck.nowPlaying.value;
      var v := if np.isPlaying then s.saving.(lastPlayedAt := env.now) else s.saving;
      var due := np.isPlaying && v.holdingWrites.None? && env.now >= v.lastProgressWrite + LOCAL_PROGRESS_WRITE_INTERVAL;
      s.(saving := if due then WriteProgressAt(v, s.deck, BookPosition(s.deck, env.readingAfter), false, false, env.now) else v,
         ticking := np.isPlaying || WallClockArmed(np))
  }

  function EndTick(s: State, env: Env): State {
    KeepTicking(if SleepTimerReached(s.deck, env) then SleepNow(s, env) else s, env)
  }

  function HandleEndOfStream(s: State, env: Env): State
    requires s.deck.nowPlaying.Some?
  {
    var Judgement(np, verdict) := JudgeEndOfStream(s.deck.nowPlaying.value, env.reading, env.fileLength);
    match verdict
    case Unclear(within) => StopUnclear(s, np, within, env)
    case Premature => EndTick(HandleStreamError(s, np, env), env)
    case RealEnd =>
      if np.currentTrack + 1 < |np.tracks| then s.(deck := LoadTrackAt(s.deck, np, np.currentTrack + 1, 0.0))
      else EndTick(FinishBook(s.(deck := WithBook(s.deck, np)), env), env)
  }

  function HandleEvent(s: State, event: Option<PlayerEvent>, env: Env): State {
    if s.deck.nowPlaying.None? || event.None? then EndTick(s, env)
    else if event.value.StreamError? then EndTick(HandleStreamError(s, s.deck.nowPlaying.value, env), env)
    else HandleEndOfStream(s, env)
  }

  function Tick(s: State, env: Env): State {
    if s.deck.nowPlaying.None? then s.(ticking := false)
    else
      var o := ObservePosition(s, env);
      HandleEvent(o.(deferredEvent := None), NextEvent(o.deferredEvent, env.polled), env)
  }

  // ---------------------------------------------------------------- resuming suspended starts

  function FailedBook(book: Book, speed: real): NowPlaying {
    NowPlaying(book, 0.0, [], 0, false, false, [], 1.0, Off, true, SeekState(0.0, false, None, 0, false), false, Some(speed), None, None, false, None)
  }

  function FailStart(d: Deck, task: Task): Deck
    requires task.StartTask?
  {
    if !PendingIs(d, task.generation) then d
    else ResetBackend(d).(pendingStart := None, nowPlaying := Some(FailedBook(task.book, task.speed)))
  }

  /** Where the chapter asked for starts, once the book is resolved. */
  function ChapterStart(chapter: Option<nat>, chapters: seq<Chapter>): Option<real> {
    if chapter.Some? && chapter.value < |chapters| then Some(Max(chapters[chapter.value].start, 0.0)) else None
  }

  /** Where a start begins: at the chapter asked for, or at the saved progress. */
  function StartPosition(chapterStart: Option<real>, saved: Option<(real, bool)>, duration: real): Option<real> {
    if chapterStart.Some? then (if chapterStart.value > 0.0 then chapterStart else None)
    else if saved.Some? then ResumePosition(saved.value.0, saved.value.1, duration)
    else None
  }

  /** The book a finished start leaves loaded. */
  function StartedBook(book: Book, prepared: StartStage, loaded: bool, wantsPlay: bool, speed: real, now: Time): NowPlaying
    requires prepared.StartPreroll?
  {
    var seeking := loaded && prepared.within > 0.0;
    NowPlaying(book, prepared.target.duration, prepared.target.tracks, prepared.track, prepared.isLocal, loaded && wantsPlay,
               prepared.target.chapters, speed, Off, !loaded,
               SeekState(prepared.within, seeking, if seeking then Some(now) else None, 0, false), !loaded, None, None, None, false, None)
  }

  /** The last stretch of a start: the book becomes the loaded one, and what was asked for it
      meanwhile is done. */
  function FinishStart(s: State, task: Task, prepared: StartStage, loaded: bool, speed: real, env: Env): State
    requires task.StartTask? && prepared.StartPreroll? && s.deck.pendingStart.Some?
  {
    var np := StartedBook(task.book, prepared, loaded, s.deck.pendingStart.value.wantsPlay, speed, env.now);
    var d := if np.isPlaying then Commanded(s.deck, PlayCommand(env.plays)) else s.deck;
    var r := s.(deck := d.(pendingStart := None, nowPlaying := Some(np)),
                saving := s.saving.(lastProgressWrite := env.now, lastPlayedAt := env.now),
                ticking := s.ticking || np.isPlaying);
    match s.deck.pendingStart.value.intent
    case None => r
    case Some(ResetProgress) => ResetBookProgress(r, env)
    case Some(MarkFinished) => MarkAsFinished(r, env)
  }

  /** Seeks the freshly loaded book to where it starts, at the asked speed, and finishes. */
  function SettleStart(s: State, task: Task, env: Env): State
    requires task.StartTask? && task.startStage.StartPreroll? && s.deck.pendingStart.Some?
  {
    var within := task.startStage.within;
    if SpeedChanged(task.speed, 1.0) then
      FinishStart(s.(deck := Commanded(s.deck, SpeedCommand(task.speed, within))), task, task.startStage, true,
                  if env.speedAccepted then task.speed else 1.0, env)
    else
      FinishStart(if within > 0.0 then s.(deck := Commanded(s.deck, SeekCommand(within))) else s, task, task.startStage, true, 1.0, env)
  }

  /** One poll of the wait for the pipeline to preroll. */
  function PollStart(s: State, task: Task, env: Env): State
    requires task.StartTask? && task.startStage.StartPreroll?
  {
    var stage := task.startStage;
    var needsSeek := stage.within > 0.0 || SpeedChanged(task.speed, 1.0);
    if !PendingIs(s.deck, task.generation) || s.deck.loadGeneration != stage.loadGeneration then s
    else if !needsSeek || env.reading.Some? || stage.polls >= PREROLL_WAIT_ATTEMPTS then SettleStart(s, task, env)
    else s.(deck := Spawn(s.deck, task.(startStage := stage.(polls := stage.polls + 1))))
  }

  /** The book is resolved: the chapter asked for is read now, the saved progress and the file to
      start in are looked up next. */
  function PlaceStart(d: Deck, task: Task, target: Target): Deck
    requires task.StartTask? && PendingIs(d, task.generation)
  {
    Spawn(d, task.(startStage := Placing(target, ChapterStart(d.pendingStart.value.startChapter, target.chapters))))
  }

  function LoadStart(s: State, task: Task, saved: Option<(real, bool)>, isLocal: bool, env: Env): State
    requires task.StartTask? && task.startStage.Placing? && PendingIs(s.deck, task.generation)
  {
    var target := task.startStage.target;
    var at := StartPosition(task.startStage.chapterStart, saved, target.duration);
    var (track, within) := if at.Some? then LocateTrack(target.tracks, at.value) else (0, 0.0);
    var d := s.deck.(loadGeneration := s.deck.loadGeneration + 1);
    var prepared := StartPreroll(target, track, within, d.loadGeneration, isLocal, 0);
    if env.accepted then
      PollStart(s.(deck := Commanded(Commanded(d, LoadAccepted(task.book, track)), PauseCommand(env.pauses))), task.(startStage := prepared), env)
    else
      FinishStart(s.(deck := ResetBackend(Commanded(d, LoadRefused(task.book, track)))), task, prepared, false, 1.0, env)
  }

  /** A book that resolves to no file at all is reported by the resolver as a failure. */
  function ResumeStart(s: State, task: Task, outcome: Outcome, env: Env): State
    requires task.StartTask?
  {
    if task.startStage.StartPreroll? then PollStart(s, task, env)
    else if !PendingIs(s.deck, task.generation) then s
    else if task.startStage.Placing? && outcome.Placed? then LoadStart(s, task, outcome.saved, outcome.startIsLocal, env)
    else if task.startStage.Resolving? && outcome.Resolved? && outcome.target.tracks != [] then s.(deck := PlaceStart(s.deck, task, outcome.target))
    else if task.startStage.Resolving? && (outcome.Failed? || outcome.Resolved?) then s.(deck := FailStart(s.deck, task))
    else s.(deck := Spawn(s.deck, task))
  }

  // ---------------------------------------------------------------- resuming suspended track loads

  predicate LoadIsCurrent(d: Deck, task: Task)
    requires task.LoadTask?
  {
    d.loadGeneration == task.generation && d.nowPlaying.Some? && d.nowPlaying.value.book.item == task.book.item
    && d.nowPlaying.value.loadingTrack == Some(task.generation)
  }

  function FailLoad(d: Deck): Deck
    requires d.nowPlaying.Some?
  {
    Released(d, d.nowPlaying.value.(isPlaying := false, needsReload := true, hasError := true))
  }

  /** The file is in the backend: seek to the position asked for, at the speed asked for, and play
      if playback is still wanted. */
  function SettleLoad(d: Deck, isLocal: bool, plays: bool, now: Time): Deck
    requires d.nowPlaying.Some?
  {
    var np := d.nowPlaying.value;
    var within := np.seek.known;
    var seeking := within > 0.0;
    var sought := if SpeedChanged(np.speed, 1.0) then Commanded(d, SpeedCommand(np.speed, within))
                  else if seeking then Commanded(d, SeekCommand(within)) else d;
    var loaded := np.(hasError := false, needsReload := false, loadingTrack := None, speedUnapplied := None, sourceIsLocal := isLocal,
                      seek := SeekState(within, seeking, if seeking then Some(now) else None, 0, np.seek.reloadUsed));
    WithBook(if np.isPlaying then Commanded(sought, PlayCommand(plays)) else sought, loaded)
  }

  function PollLoad(d: Deck, task: Task, needsSeek: bool, env: Env): Deck
    requires task.LoadTask? && task.loadStage.LoadPreroll?
  {
    if !LoadIsCurrent(d, task) then d
    else if !needsSeek || env.reading.Some? || task.loadStage.polls >= PREROLL_WAIT_ATTEMPTS then SettleLoad(d, task.loadStage.isLocal, env.plays, env.now)
    else Spawn(d, task.(loadStage := task.loadStage.(polls := task.loadStage.polls + 1)))
  }

  /** The connection and the source of the file are known: hand it to the backend. */
  function ConnectLoad(d: Deck, task: Task, track: nat, isLocal: bool, env: Env): Deck
    requires task.LoadTask? && d.nowPlaying.Some?
  {
    var np := d.nowPlaying.value;
    if env.offline && !isLocal then FailLoad(d)
    else if !env.accepted then FailLoad(Commanded(d, LoadRefused(task.book, track)))
    else
      var l := Commanded(d, LoadAccepted(task.book, track));
      var needsSeek := np.seek.known > 0.0 || SpeedChanged(np.speed, 1.0);
      PollLoad(if needsSeek then Commanded(l, PauseCommand(env.pauses)) else l, task.(loadStage := LoadPreroll(track, isLocal, 0)), needsSeek, env)
  }

  function ResumeLoad(d: Deck, task: Task, outcome: Outcome, env: Env): Deck
    requires task.LoadTask?
  {
    if !LoadIsCurrent(d, task) then d
    else
      match task.loadStage
      case LoadPreroll(_, _, _) => PollLoad(d, task, true, env)
      case Spawned =>
        if d.nowPlaying.value.currentTrack >= |d.nowPlaying.value.tracks| then d
        else Spawn(d, task.(loadStage := Connecting(d.nowPlaying.value.currentTrack)))
      case Connecting(track) =>
        match outcome
        case Failed => FailLoad(d)
        case Answered(isLocal) => ConnectLoad(d, task, track, isLocal, env)
        case _ => Spawn(d, task)
  }

  // ---------------------------------------------------------------- resuming the other tasks

  function ResumePauseConfirmation(d: Deck, task: Task, paused: bool): Deck
    requires task.PauseConfirmation?
  {
    if d.loadGeneration != task.generation || d.seekCount != task.seekCount || d.nowPlaying.None? then d
    else
      var np := d.nowPlaying.value;
      if np.isPlaying || np.needsReload || paused then d
      else if task.attempt + 1 >= PAUSE_CONFIRM_ATTEMPTS then Released(d, np.(hasError := true, needsReload := true))
      else Spawn(d, task.(attempt := task.attempt + 1))
  }

  function ResumeLocalFileCheck(d: Deck, task: Task, outcome: Outcome): Deck
    requires task.LocalFileCheck?
  {
    if !outcome.Answered? then Spawn(d, task)
    else if d.loadGeneration == task.generation && d.nowPlaying.Some? && d.nowPlaying.value.book.item == task.book.item
            && d.nowPlaying.value.currentTrack == task.track && outcome.isLocal
    then LoadTrackAt(d, d.nowPlaying.value, task.track, d.nowPlaying.value.seek.known)
    else d
  }

  function ResumeRecovery(s: State, task: Task, outcome: Outcome, now: Time): State
    requires task.Recovery?
  {
    var d := s.deck;
    if !outcome.Answered? then s.(deck := Spawn(d, task))
    else if d.loadGeneration != task.generation || d.nowPlaying.None? || d.nowPlaying.value.book.item != task.book.item then s
    else
      var np := d.nowPlaying.value;
      var recent := s.lastAutoRecoverAt.Some? && now < s.lastAutoRecoverAt.value + AUTO_RECOVER_WINDOW;
      if outcome.isLocal then s.(deck := LoadTrackAt(d, np, task.track, task.within))
      else if !recent then s.(deck := LoadTrackAt(d, np, task.track, task.within), lastAutoRecoverAt := Some(now))
      else s.(deck := WithBook(d, np.(isPlaying := false, hasError := true)))
  }

  /** Whether the server's position is another device's, far enough from this one's, and nothing
      was sought meanwhile. */
  predicate AdoptsServerPosition(task: Task, outcome: Outcome, seekCount: nat)
    requires task.Reconcile? && outcome.Reconciled?
  {
    outcome.ok && outcome.after.Some? && !outcome.after.value.1 && !outcome.after.value.2
    && seekCount == task.seekCount && Abs(outcome.after.value.0 - task.from) > ADOPT_MIN_DELTA
  }

  function ResumeReconcile(s: State, task: Task, outcome: Outcome, env: Env): State
    requires task.Reconcile?
  {
    if !outcome.Reconciled? then s.(deck := Spawn(s.deck, task))
    else
      var t := if s.saving.holdingWrites == Some(task.session) then s.(saving := s.saving.(holdingWrites := None)) else s;
      if t.deck.sessionGeneration != task.session || t.deck.nowPlaying.None? || t.deck.nowPlaying.value.book.item != task.book.item then t
      else if AdoptsServerPosition(task, outcome, t.deck.seekCount) then SeekTo(t, outcome.after.value.0, env)
      else if !t.deck.nowPlaying.value.isPlaying then SaveProgressNow(t, env)
      else t
  }

  predicate ReplugResumes(s: State, task: Task)
    requires task.ReplugTimer?
  {
    s.marks.routeEventSeq == task.seqNo && s.marks.pausedByUnplug && PlayingIntent(s.deck) == Some(false)
  }

  function ResumeReplugTimer(s: State, task: Task, env: Env): State
    requires task.ReplugTimer?
  {
    if ReplugResumes(s, task)
    then Play(s.(marks := s.marks.(pausedByUnplug := false, log := s.marks.log + [ReplugResumed])), env)
    else s
  }

  function ResumePausedSeekTimer(s: State, task: Task, env: Env): State
    requires task.PausedSeekTimer?
  {
    if s.deck.nowPlaying.Some? && !s.deck.nowPlaying.value.isPlaying && s.saving.pausedSeekGeneration == task.seekGeneration
    then SaveProgressNow(s, env) else s
  }

  function ResumePendingSync(s: State, task: Task, outcome: Outcome, env: Env): State
    requires task.PendingSync?
  {
    match outcome
    case Waiting => s.(deck := Spawn(s.deck, task))
    case Answered(serverHadNewer) =>
      if !serverHadNewer && s.deck.sessionGeneration == task.session && s.deck.nowPlaying.Some?
         && s.deck.nowPlaying.value.book.item == task.book.item
      then SaveProgressNow(s, env) else s
    case _ => s
  }

  /** Runs the next stretch of `task`, which has been taken out of the suspended ones. */
  function Continue(s: State, task: Task, outcome: Outcome, env: Env): State {
    match task
    case StartTask(_, _, _, _) => ResumeStart(s, task, outcome, env)
    case LoadTask(_, _, _) => s.(deck := ResumeLoad(s.deck, task, outcome, env))
    case PauseConfirmation(_, _, _) => s.(deck := ResumePauseConfirmation(s.deck, task, env.paused))
    case LocalFileCheck(_, _, _) => s.(deck := ResumeLocalFileCheck(s.deck, task, outcome))
    case Recovery(_, _, _, _) => ResumeRecovery(s, task, outcome, env.now)
    case Reconcile(_, _, _, _) => ResumeReconcile(s, task, outcome, env)
    case ReplugTimer(_) => ResumeReplugTimer(s, task, env)
    case PausedSeekTimer(_) => ResumePausedSeekTimer(s, task, env)
    case PendingSync(_, _) => ResumePendingSync(s, task, outcome, env)
  }

  function Taken(d: Deck, task: Task): Deck { d.(tasks := d.tasks - multiset{task}) }

  function ResumeTask(s: State, task: Task, outcome: Outcome, env: Env): State {
    if task in s.deck.tasks then Continue(s.(deck := Taken(s.deck, task)), task, outcome, env) else s
  }

  // ---------------------------------------------------------------- runs

  datatype Event =
    | DoStart(book: Book, speed: real, chapter: Option<nat>)
    | DoPlay | DoPause | DoToggle | DoExternalToggle
    | DoSeek(seconds: real)
    | DoSetSpeed(speed: real)
    | DoSleepMinutes(minutes: nat) | DoSleepChapter | DoCancelSleep
    | DoMarkFinished | DoReset | DoSaveNow | DoSyncPending | DoRetire
    | DoHeadphoneSettings(pauseOnUnplug: bool, resumeOnReplug: bool)
    | DoUnplug | DoReplug
    | DoCallStart | DoCallAnswered | DoCallEnd(answered: bool, outgoing: bool)
    | DoTick
    | DoResume(task: Task, outcome: Outcome)

  function Step(s: State, event: Event, env: Env): State {
    match event
    case DoStart(book, speed, chapter) => StartWith(s, book, speed, chapter, env)
    case DoPlay => Play(s, env)
    case DoPause => Pause(s, env)
    case DoToggle => TogglePlayPause(s, env)
    case DoExternalToggle => ExternalPlayPause(s, env)
    case DoSeek(seconds) => SeekTo(s, seconds, env)
    case DoSetSpeed(speed) => SetSpeed(s, speed, env)
    case DoSleepMinutes(minutes) => SleepInMinutes(s, minutes, env)
    case DoSleepChapter => SleepAtEndOfChapter(s, env)
    case DoCancelSleep => CancelSleepTimer(s)
    case DoMarkFinished => MarkAsFinished(s, env)
    case DoReset => ResetBookProgress(s, env)
    case DoSaveNow => SaveProgressNow(s, env)
    case DoSyncPending => SyncPendingProgress(s, env)
    case DoRetire => Retire(s, env)
    case DoHeadphoneSettings(p, r) => s.(marks := s.marks.(pauseOnUnplug := p, resumeOnReplug := r))
    case DoUnplug => Unplugged(s, env)
    case DoReplug => Replugged(s)
    case DoCallStart => CallStarted(s, env)
    case DoCallAnswered => CallAnswered(s)
    case DoCallEnd(answered, outgoing) => CallEnded(s, answered, outgoing, env)
    case DoTick => if s.ticking then Tick(s, env) else s
    case DoResume(task, outcome) => ResumeTask(s, task, outcome, env)
  }

  function Run(s: State, events: seq<(Event, Env)>): State
    decreases |events|
  {
    if events == [] then s else Run(Step(s, events[0].0, events[0].1), events[1..])
  }

  lemma {:induction false} RunsOn(s: State, first: seq<(Event, Env)>, rest: seq<(Event, Env)>)
    ensures Run(s, first + rest) == Run(Run(s, first), rest)
    decreases |first|
  {
    hide Step;
    if first == [] {
      assert first + rest == rest;
    } else {
      assert (first + rest)[1..] == first[1..] + rest;
      RunsOn(Step(s, first[0].0, first[0].1), first[1..], rest);
    }
  }
}
