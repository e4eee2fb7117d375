/** What every run of the player keeps about a finished book, the progress it writes, and the tick
    timer that watches over playback. One invariant, `AllKept`, carries all three through every
    operation, tick and resumed task: a finished book is silent, a value is written as finished
    exactly while the book is and then at its full length, and what plays or counts down by the clock
    is watched by the timer. Beside it, `Ending` follows the book and whether it is finished through
    each operation: only a mark, a start that carries one, or a tick that takes an end-of-stream for the end of the last file
    finishes a book. `PlayerFinished` goes on from there to what un-finishes one. */
module PlayerFinishing {
  import opened Prelude
  import opened PlayerTypes
  import opened PlayerSpec
  import opened PlayerSafety
  import opened PlayerPositions

  /** A finished book is not playing, a failed start cannot play, and whatever is playing or
      counting down by the clock has the tick timer installed. */
  ghost predicate BookKept(d: Deck, ticking: bool) {
    d.nowPlaying.Some? ==> Kept(d.nowPlaying.value, ticking)
  }

  ghost predicate Kept(np: NowPlaying, ticking: bool) {
    && (np.ended ==> !np.isPlaying)
    && (np.retryRequest.Some? <==> np.tracks == [])
    && (np.tracks == [] ==> !np.isPlaying)
    && (np.isPlaying || WallClockArmed(np) ==> ticking)
  }

  /** A value written for a finished book records it finished at its full length, and no other
      value does. */
  predicate WriteOk(w: WriteAsk) {
    (w.finished <==> w.whileEnded) && (w.whileEnded ==> w.position == w.duration)
  }

  predicate WritesOk(writes: seq<WriteAsk>) { forall w | w in writes :: WriteOk(w) }

  ghost predicate AllKept(s: State) { BookKept(s.deck, s.ticking) && WritesOk(s.saving.writes) }

  // ---------------------------------------------------------------- writes

  lemma WriteProgressAtOk(v: Saving, d: Deck, position: real, finished: bool, force: bool, now: Time)
    requires WritesOk(v.writes)
    requires d.nowPlaying.Some? && d.nowPlaying.value.tracks != [] ==>
               finished == d.nowPlaying.value.ended && (finished ==> position == d.nowPlaying.value.duration)
    ensures WritesOk(WriteProgressAt(v, d, position, finished, force, now).writes)
  {
  }

  lemma WriteProgressOk(v: Saving, d: Deck, reading: Option<real>, now: Time)
    requires WritesOk(v.writes)
    ensures WritesOk(WriteProgressNow(v, d, reading, now).writes)
    ensures WritesOk(WriteProgress(v, d, reading, now).writes)
  {
    hide BookPosition;
  }

  // ---------------------------------------------------------------- the controller's operations

  lemma StartNewKept(s: State, book: Book, speed: real, chapter: Option<nat>, env: Env)
    requires AllKept(s)
    ensures AllKept(StartNew(s, book, speed, chapter, env))
  {
    hide WriteProgressNow, UsableSpeed;
    WriteProgressOk(s.saving, s.deck, env.reading, env.now);
  }

  lemma SeekDeckKept(d: Deck, np: NowPlaying, track: nat, within: real, now: Time, ticking: bool)
    requires Kept(np, ticking)
    ensures BookKept(SeekDeck(d, np, track, within, now), ticking)
    ensures SeekDeck(d, np, track, within, now).nowPlaying.Some?
    ensures SeekDeck(d, np, track, within, now).nowPlaying.value.ended == np.ended
  {
  }

  lemma SeekToKept(s: State, seconds: real, env: Env)
    requires AllKept(s)
    ensures AllKept(SeekTo(s, seconds, env))
    ensures var d := SeekTo(s, seconds, env).deck; d.nowPlaying.Some? && d.nowPlaying.value.tracks != [] ==> !d.nowPlaying.value.ended
  {
    hide SeekDeck, LocateTrack, ClampToBook, ChapterEndAt;
    if s.deck.nowPlaying.Some? && s.deck.nowPlaying.value.tracks != [] {
      var np := Retargeted(s.deck.nowPlaying.value, ClampToBook(seconds, s.deck.nowPlaying.value.duration));
      var (track, within) := LocateTrack(np.tracks, ClampToBook(seconds, s.deck.nowPlaying.value.duration));
      SeekDeckKept(s.deck, np, track, within, env.now, s.ticking);
    }
  }

  lemma PrepareToResumeKept(s: State, env: Env)
    requires AllKept(s)
    ensures AllKept(PrepareToResume(ReconcileBeforeResuming(s, env), env))
    ensures var d := PrepareToResume(ReconcileBeforeResuming(s, env), env).deck;
            d.nowPlaying.Some? == s.deck.nowPlaying.Some?
            && (d.nowPlaying.Some? ==> d.nowPlaying.value.ended == s.deck.nowPlaying.value.ended && d.nowPlaying.value.tracks == s.deck.nowPlaying.value.tracks)
  {
    hide BookPosition, WritesOk;
  }

  lemma ResumeBackendKept(s: State, env: Env)
    requires AllKept(s) && s.deck.nowPlaying.Some? && !s.deck.nowPlaying.value.ended && s.deck.nowPlaying.value.tracks != []
    ensures AllKept(ResumeBackend(s, env))
  {
    hide WritesOk, Within;
  }

  lemma PlayKept(s: State, env: Env)
    requires AllKept(s)
    ensures AllKept(Play(s, env))
  {
    hide AllKept, StartNew, PrepareToResume, ReconcileBeforeResuming, ResumeBackend, RestartFinished;
    var t := s.(marks := ClearMarks(s.marks, PlayAsked));
    var d := s.deck;
    PendingKept(s);
    if d.pendingStart.Some? {
    } else if d.nowPlaying.Some? && d.nowPlaying.value.retryRequest.Some? {
      StartNewKept(t, d.nowPlaying.value.book, d.nowPlaying.value.retryRequest.value, None, env);
    } else if d.nowPlaying.Some? && d.nowPlaying.value.ended && d.nowPlaying.value.tracks != [] {
      RestartFinishedKept(t, env);
    } else {
      PrepareToResumeKept(t, env);
      if d.nowPlaying.Some? { ResumeBackendKept(PrepareToResume(ReconcileBeforeResuming(t, env), env), env); }
    }
  }

  /** Nothing outside the loaded book, the timer and the writes matters here. */
  lemma PendingKept(s: State)
    requires AllKept(s)
    ensures forall m: Marks, p: Option<PendingStart> :: AllKept(s.(marks := m, deck := s.deck.(pendingStart := p)))
    ensures forall m: Marks :: AllKept(s.(marks := m))
    ensures s.deck.nowPlaying.Some? ==> (s.deck.nowPlaying.value.retryRequest.Some? <==> s.deck.nowPlaying.value.tracks == [])
  {
  }

  lemma RestartFinishedKept(s: State, env: Env)
    requires AllKept(s) && s.deck.nowPlaying.Some? && s.deck.nowPlaying.value.tracks != []
    ensures AllKept(RestartFinished(s, env))
  {
    var np := s.deck.nowPlaying.value.(ended := false, isPlaying := true, hasError := false);
    WriteProgressAtOk(s.saving, LoadTrackAt(s.deck, np, 0, 0.0), 0.0, false, true, env.now);
  }

  lemma StartWithKept(s: State, book: Book, speed: real, chapter: Option<nat>, env: Env)
    requires AllKept(s)
    ensures AllKept(StartWith(s, book, speed, chapter, env))
  {
    hide AllKept, Play, SeekTo, StartNew;
    if !IsLoaded(s.deck, book) {
      StartNewKept(s, book, speed, chapter, env);
    } else {
      var chapters := s.deck.nowPlaying.value.chapters;
      if chapter.Some? && chapter.value < |chapters| {
        SeekToKept(s, Max(chapters[chapter.value].start, 0.0), env);
        PlayKept(SeekTo(s, Max(chapters[chapter.value].start, 0.0), env), env);
      } else {
        PlayKept(s, env);
      }
    }
  }

  lemma PauseKept(s: State, env: Env)
    requires AllKept(s)
    ensures AllKept(Pause(s, env))
  {
    hide WriteProgress, WritesOk;
    WriteProgressOk(s.saving, PauseBackend(s.deck, env.accepted), env.readingAfter, env.now);
  }

  lemma MarkAsFinishedKept(s: State, env: Env)
    requires AllKept(s)
    ensures AllKept(MarkAsFinished(s, env))
  {
    hide WritesOk, WriteProgressAt;
    if s.deck.pendingStart.None? && s.deck.nowPlaying.Some? {
      WriteProgressAtOk(s.saving, EndBook(s.deck, env.pauses), s.deck.nowPlaying.value.duration, true, true, env.now);
    }
  }

  lemma ResetBookProgressKept(s: State, env: Env)
    requires AllKept(s)
    ensures AllKept(ResetBookProgress(s, env))
  {
    hide SeekTo, WritesOk, WriteProgressAt;
    if s.deck.pendingStart.None? {
      SeekToKept(s, 0.0, env);
      var t := SeekTo(s, 0.0, env);
      WriteProgressAtOk(t.saving, t.deck, 0.0, false, true, env.now);
    }
  }

  lemma SetSpeedKept(s: State, speed: real, env: Env)
    requires AllKept(s)
    ensures AllKept(SetSpeed(s, speed, env))
  {
    hide WritesOk, Within, UsableSpeed, Abs;
  }

  lemma SleepTimerKept(s: State, minutes: nat, env: Env)
    requires AllKept(s)
    ensures AllKept(SleepInMinutes(s, minutes, env))
    ensures AllKept(SleepAtEndOfChapter(s, env))
    ensures AllKept(CancelSleepTimer(s))
  {
    hide WritesOk, BookPosition, ChapterEndAt;
  }

  lemma SaveProgressNowKept(s: State, env: Env)
    requires AllKept(s)
    ensures AllKept(SaveProgressNow(s, env))
  {
    hide WritesOk, WriteProgress;
    WriteProgressOk(s.saving, s.deck, env.reading, env.now);
  }

  // ---------------------------------------------------------------- the tick

  lemma SoughtKept(d: Deck, np: NowPlaying, k: SeekState, track: nat, within: real, ticking: bool)
    requires Kept(np, ticking)
    ensures Kept(np.(seek := k), ticking)
    ensures BookKept(LoadTrackAt(d, np.(seek := k), track, within), ticking)
    ensures BookKept(Released(d, np.(seek := k, isPlaying := false, needsReload := true, hasError := true)), ticking)
  {
  }

  lemma ObservePositionKept(s: State, env: Env)
    requires AllKept(s)
    ensures AllKept(ObservePosition(s, env))
  {
    hide WritesOk, ObserveSeek, Kept, LoadTrackAt, Released;
    if env.observed.Some? && s.deck.nowPlaying.Some? {
      var np := s.deck.nowPlaying.value;
      var Observation(k, verdict) := ObserveSeek(np.seek, env.observed.value, env.fileLength, env.now);
      SoughtKept(s.deck, np, k, np.currentTrack, if verdict.Reload? then verdict.target else 0.0, s.ticking);
    }
  }

  lemma HandleStreamErrorKept(s: State, np: NowPlaying, env: Env)
    requires WritesOk(s.saving.writes) && Kept(np, s.ticking)
    ensures AllKept(HandleStreamError(s, np, env))
  {
    hide WritesOk, WriteProgress, WithinTrack;
    var within := Max(WithinTrack(np, env.reading), 0.0);
    var stopped := np.(needsReload := true, seek := np.seek.(known := within),
                       isPlaying := np.isPlaying && !np.sourceIsLocal, hasError := np.hasError || np.sourceIsLocal);
    WriteProgressOk(s.saving, Released(s.deck, stopped), env.readingAfter, env.now);
  }

  /** Something the tick timer has to watch: playback, or a countdown by the clock. */
  predicate Watched(d: Deck) {
    d.nowPlaying.Some? && (d.nowPlaying.value.isPlaying || WallClockArmed(d.nowPlaying.value))
  }

  lemma SleepNowKept(s: State, env: Env)
    requires BookKept(s.deck, true) && WritesOk(s.saving.writes) && s.deck.nowPlaying.Some?
    ensures BookKept(SleepNow(s, env).deck, true) && WritesOk(SleepNow(s, env).saving.writes)
  {
    hide WritesOk, WriteProgressNow;
    WriteProgressOk(s.saving, SleepNow(s, env).deck, env.readingAfter, env.now);
  }

  lemma KeepTickingKept(s: State, env: Env)
    requires BookKept(s.deck, true) && WritesOk(s.saving.writes)
    ensures AllKept(KeepTicking(s, env))
    ensures KeepTicking(s, env).ticking <==> Watched(KeepTicking(s, env).deck)
  {
    hide WritesOk, WriteProgressAt, BookPosition;
    if s.deck.nowPlaying.Some? && s.deck.nowPlaying.value.isPlaying {
      WriteProgressAtOk(s.saving.(lastPlayedAt := env.now), s.deck, BookPosition(s.deck, env.readingAfter), false, false, env.now);
    }
  }

  lemma EndTickKept(s: State, env: Env)
    requires BookKept(s.deck, true) && WritesOk(s.saving.writes)
    ensures AllKept(EndTick(s, env))
    ensures EndTick(s, env).ticking <==> Watched(EndTick(s, env).deck)
  {
    hide WritesOk, SleepNow, KeepTicking, BookKept, AllKept, Watched, BookPosition;
    if SleepTimerReached(s.deck, env) { SleepNowKept(s, env); }
    KeepTickingKept(if SleepTimerReached(s.deck, env) then SleepNow(s, env) else s, env);
  }

  /** Where in its file a stream ended: what the backend reads, or the last position known. */
  function EndedAt(np: NowPlaying, reading: Option<real>): real { if reading.Some? then reading.value else np.seek.known }

  /** The length of the current file as the server gives it, otherwise as the backend does; not positive
      when neither knows it. */
  function LengthOf(np: NowPlaying, fileLength: Option<real>): real {
    if np.currentTrack < |np.tracks| && np.tracks[np.currentTrack].duration > 0.0 then np.tracks[np.currentTrack].duration
    else if fileLength.Some? then fileLength.value
    else 0.0
  }

  predicate LastFile(np: NowPlaying) { np.currentTrack + 1 >= |np.tracks| }

  /** An end-of-stream is the end of the file: the length is not known; or it comes less than a minute
      early, or, except in the last file, less than a tenth of the length; or the same file ended within
      five seconds of there before. */
  predicate EndIsReal(np: NowPlaying, reading: Option<real>, fileLength: Option<real>) {
    var at, length := EndedAt(np, reading), LengthOf(np, fileLength);
    || length <= 0.0
    || length - at < 60.0
    || (!LastFile(np) && at > 0.9 * length)
    || (np.prematureEosAt.Some? && np.prematureEosAt.value.0 == np.currentTrack && -5.0 < np.prematureEosAt.value.1 - at < 5.0)
  }

  /** Otherwise it is unclear in the last tenth, and a lost connection before. Where the file ended is
      then remembered, and forgotten again with a second end there. */
  lemma EndIsJudged(np: NowPlaying, reading: Option<real>, fileLength: Option<real>)
    ensures var j, at := JudgeEndOfStream(np, reading, fileLength), EndedAt(np, reading);
            if EndIsReal(np, reading, fileLength) then j.verdict == RealEnd && j.book.(prematureEosAt := None) == np.(prematureEosAt := None)
            else
              && j.verdict == (if at > 0.9 * LengthOf(np, fileLength) then Unclear(at) else Premature)
              && j.book == np.(prematureEosAt := Some((np.currentTrack, at)))
  {
    Tenth(LengthOf(np, fileLength), EndedAt(np, reading));
  }

  lemma Tenth(length: real, at: real)
    ensures length - at < length * 0.1 <==> at > 0.9 * length
  {
  }

  /** Whether an end-of-stream moves on to another file of the book. */
  predicate MovesOn(s: State, env: Env) {
    s.deck.nowPlaying.Some? && EndIsReal(s.deck.nowPlaying.value, env.reading, env.fileLength) && !LastFile(s.deck.nowPlaying.value)
  }

  lemma JudgeEndOfStreamKept(np: NowPlaying, reading: Option<real>, fileLength: Option<real>, ticking: bool)
    requires Kept(np, ticking)
    ensures Kept(JudgeEndOfStream(np, reading, fileLength).book, ticking)
  {
  }

  lemma StopUnclearKept(s: State, np: NowPlaying, within: real, env: Env)
    requires WritesOk(s.saving.writes) && Kept(np, s.ticking)
    ensures AllKept(StopUnclear(s, np, within, env))
    ensures StopUnclear(s, np, within, env).ticking <==> Watched(StopUnclear(s, np, within, env).deck)
  {
    hide WritesOk, WriteProgress;
    var stopped := np.(isPlaying := false, needsReload := true, seek := np.seek.(known := within, pending := false));
    WriteProgressOk(s.saving, Released(s.deck, stopped), env.readingAfter, env.now);
  }

  lemma FinishBookKept(s: State, env: Env)
    requires AllKept(s) && s.deck.nowPlaying.Some?
    ensures AllKept(FinishBook(s, env))
  {
    hide WritesOk, WriteProgressNow;
    WriteProgressOk(s.saving, EndBook(s.deck, env.pauses), env.readingAfter, env.now);
  }

  lemma BookKeptTicking(s: State)
    requires AllKept(s)
    ensures BookKept(s.deck, true) && WritesOk(s.saving.writes)
  {
  }

  lemma HandleEndOfStreamKept(s: State, env: Env)
    requires AllKept(s) && s.deck.nowPlaying.Some?
    ensures AllKept(HandleEndOfStream(s, env))
    ensures !MovesOn(s, env) ==> (HandleEndOfStream(s, env).ticking <==> Watched(HandleEndOfStream(s, env).deck))
  {
    hide WritesOk, JudgeEndOfStream, HandleStreamError, EndTick, FinishBook, StopUnclear, EndIsReal;
    var Judgement(np, verdict) := JudgeEndOfStream(s.deck.nowPlaying.value, env.reading, env.fileLength);
    EndIsJudged(s.deck.nowPlaying.value, env.reading, env.fileLength);
    JudgeEndOfStreamKept(s.deck.nowPlaying.value, env.reading, env.fileLength, s.ticking);
    match verdict
    case Unclear(within) => StopUnclearKept(s, np, within, env);
    case Premature =>
      HandleStreamErrorKept(s, np, env);
      BookKeptTicking(HandleStreamError(s, np, env));
      EndTickKept(HandleStreamError(s, np, env), env);
    case RealEnd =>
      if np.currentTrack + 1 >= |np.tracks| {
        var t := s.(deck := WithBook(s.deck, np));
        FinishBookKept(t, env);
        BookKeptTicking(FinishBook(t, env));
        EndTickKept(FinishBook(t, env), env);
      }
  }

  /** The event a tick handles, once the position has been observed. */
  function HandledEvent(s: State, env: Env): Option<PlayerEvent> {
    var o := ObservePosition(s, env);
    NextEvent(o.deferredEvent, env.polled)
  }

  lemma HandleEventKept(s: State, event: Option<PlayerEvent>, env: Env)
    requires AllKept(s)
    ensures AllKept(HandleEvent(s, event, env))
    ensures event != Some(EndOfStream) || !MovesOn(s, env) ==> (HandleEvent(s, event, env).ticking <==> Watched(HandleEvent(s, event, env).deck))
  {
    hide AllKept, HandleEndOfStream, HandleStreamError, EndTick, MovesOn, Watched;
    BookKeptTicking(s);
    if s.deck.nowPlaying.None? || event.None? {
      EndTickKept(s, env);
    } else if event.value.StreamError? {
      LoadedKept(s);
      HandleStreamErrorKept(s, s.deck.nowPlaying.value, env);
      BookKeptTicking(HandleStreamError(s, s.deck.nowPlaying.value, env));
      EndTickKept(HandleStreamError(s, s.deck.nowPlaying.value, env), env);
    } else {
      HandleEndOfStreamKept(s, env);
    }
  }

  lemma LoadedKept(s: State)
    requires AllKept(s) && s.deck.nowPlaying.Some?
    ensures Kept(s.deck.nowPlaying.value, s.ticking)
  {
  }

  lemma TickKept(s: State, env: Env)
    requires AllKept(s)
    ensures AllKept(Tick(s, env))
  {
    hide ObservePosition, HandleEvent, WritesOk;
    ObservePositionKept(s, env);
    HandleEventKept(ObservePosition(s, env).(deferredEvent := None), HandledEvent(s, env), env);
  }

  /** A tick leaves the timer installed exactly when playback goes on or a countdown is running,
      except that moving on to the next file keeps it whatever the state. */
  lemma TickStopsItself(s: State, env: Env)
    requires AllKept(s)
    requires HandledEvent(s, env) != Some(EndOfStream) || !MovesOn(ObservePosition(s, env), env)
    ensures Tick(s, env).ticking <==> Watched(Tick(s, env).deck)
  {
    hide ObservePosition, HandleEvent, WritesOk, Kept, JudgeEndOfStream;
    ObservePositionKept(s, env);
    HandleEventKept(ObservePosition(s, env).(deferredEvent := None), HandledEvent(s, env), env);
  }

  // ---------------------------------------------------------------- resumed tasks

  lemma LoadResultKept(d: Deck, task: Task, outcome: Outcome, env: Env, ticking: bool)
    requires task.LoadTask? && BookKept(d, ticking)
    ensures BookKept(ResumeLoad(d, task, outcome, env), ticking)
    ensures Ending(ResumeLoad(d, task, outcome, env)) == Ending(d)
  {
    hide PollLoad, FailLoad, BookKept, ConnectLoad;
    if LoadIsCurrent(d, task) {
      FailLoadKept(d, ticking);
      DeckOnlyKept(d, ticking);
      match task.loadStage
      case LoadPreroll(_, _, _) => PollLoadKept(d, task, true, env, ticking);
      case Spawned =>
      case Connecting(track) => if outcome.Answered? { ConnectLoadKept(d, task, track, outcome.isLocal, env, ticking); }
    }
  }

  /** Tasks and commands do not matter here. */
  lemma DeckOnlyKept(d: Deck, ticking: bool)
    requires BookKept(d, ticking)
    ensures forall t: Task :: BookKept(Spawn(d, t), ticking) && Ending(Spawn(d, t)) == Ending(d)
    ensures forall c: Command :: BookKept(Commanded(d, c), ticking) && Ending(Commanded(d, c)) == Ending(d)
  {
  }

  lemma FailLoadKept(d: Deck, ticking: bool)
    requires BookKept(d, ticking) && d.nowPlaying.Some?
    ensures BookKept(FailLoad(d), ticking)
    ensures Ending(FailLoad(d)) == Ending(d)
  {
  }

  lemma SettleLoadKept(d: Deck, isLocal: bool, plays: bool, now: Time, ticking: bool)
    requires BookKept(d, ticking) && d.nowPlaying.Some?
    ensures BookKept(SettleLoad(d, isLocal, plays, now), ticking)
    ensures Ending(SettleLoad(d, isLocal, plays, now)) == Ending(d)
  {
    hide SpeedChanged;
  }

  lemma PollLoadKept(d: Deck, task: Task, needsSeek: bool, env: Env, ticking: bool)
    requires task.LoadTask? && task.loadStage.LoadPreroll? && BookKept(d, ticking)
    ensures BookKept(PollLoad(d, task, needsSeek, env), ticking)
    ensures Ending(PollLoad(d, task, needsSeek, env)) == Ending(d)
  {
    hide SettleLoad, BookKept;
    DeckOnlyKept(d, ticking);
    if LoadIsCurrent(d, task) { SettleLoadKept(d, task.loadStage.isLocal, env.plays, env.now, ticking); }
  }

  lemma ConnectLoadKept(d: Deck, task: Task, track: nat, isLocal: bool, env: Env, ticking: bool)
    requires task.LoadTask? && d.nowPlaying.Some? && BookKept(d, ticking)
    ensures BookKept(ConnectLoad(d, task, track, isLocal, env), ticking)
    ensures Ending(ConnectLoad(d, task, track, isLocal, env)) == Ending(d)
  {
    hide PollLoad, FailLoad, BookKept, SpeedChanged;
    var np := d.nowPlaying.value;
    DeckOnlyKept(d, ticking);
    FailLoadKept(d, ticking);
    FailLoadKept(Commanded(d, LoadRefused(task.book, track)), ticking);
    var l := Commanded(d, LoadAccepted(task.book, track));
    DeckOnlyKept(l, ticking);
    var needsSeek := np.seek.known > 0.0 || SpeedChanged(np.speed, 1.0);
    PollLoadKept(if needsSeek then Commanded(l, PauseCommand(env.pauses)) else l, task.(loadStage := LoadPreroll(track, isLocal, 0)), needsSeek, env, ticking);
  }

  lemma FinishStartKept(s: State, task: Task, prepared: StartStage, loaded: bool, speed: real, env: Env)
    requires AllKept(s) && task.StartTask? && prepared.StartPreroll? && s.deck.pendingStart.Some? && prepared.target.tracks != []
    ensures AllKept(FinishStart(s, task, prepared, loaded, speed, env))
  {
    hide MarkAsFinished, ResetBookProgress, WritesOk;
    var np := StartedBook(task.book, prepared, loaded, s.deck.pendingStart.value.wantsPlay, speed, env.now);
    var d := if np.isPlaying then Commanded(s.deck, PlayCommand(env.plays)) else s.deck;
    var r := s.(deck := d.(pendingStart := None, nowPlaying := Some(np)),
                saving := s.saving.(lastProgressWrite := env.now, lastPlayedAt := env.now),
                ticking := s.ticking || np.isPlaying);
    MarkAsFinishedKept(r, env);
    ResetBookProgressKept(r, env);
  }

  lemma PollStartKept(s: State, task: Task, env: Env)
    requires AllKept(s) && task.StartTask? && task.startStage.StartPreroll? && task.startStage.target.tracks != []
    ensures AllKept(PollStart(s, task, env))
  {
    hide FinishStart, WritesOk;
    if PendingIs(s.deck, task.generation) {
      var stage := task.startStage;
      var sped := s.(deck := Commanded(s.deck, SpeedCommand(task.speed, stage.within)));
      FinishStartKept(sped, task, stage, true, if env.speedAccepted then task.speed else 1.0, env);
      FinishStartKept(if stage.within > 0.0 then s.(deck := Commanded(s.deck, SeekCommand(stage.within))) else s, task, stage, true, 1.0, env);
    }
  }

  lemma LoadStartKept(s: State, task: Task, saved: Option<(real, bool)>, isLocal: bool, env: Env)
    requires AllKept(s) && task.StartTask? && task.startStage.Placing? && task.startStage.target.tracks != [] && PendingIs(s.deck, task.generation)
    ensures AllKept(LoadStart(s, task, saved, isLocal, env))
  {
    hide FinishStart, PollStart, WritesOk, StartPosition, LocateTrack;
    var target := task.startStage.target;
    var at := StartPosition(task.startStage.chapterStart, saved, target.duration);
    var (track, within) := if at.Some? then LocateTrack(target.tracks, at.value) else (0, 0.0);
    var d := s.deck.(loadGeneration := s.deck.loadGeneration + 1);
    var prepared := StartPreroll(target, track, within, d.loadGeneration, isLocal, 0);
    PollStartKept(s.(deck := Commanded(Commanded(d, LoadAccepted(task.book, track)), PauseCommand(env.pauses))), task.(startStage := prepared), env);
    FinishStartKept(s.(deck := ResetBackend(Commanded(d, LoadRefused(task.book, track)))), task, prepared, false, 1.0, env);
  }

  lemma ResumeStartKept(asked: Option<Book>, s: State, task: Task, outcome: Outcome, env: Env)
    requires AllKept(s) && task.StartTask? && Safe(asked, s.deck) && task in s.deck.tasks
    ensures AllKept(ResumeStart(s.(deck := Taken(s.deck, task)), task, outcome, env))
    ensures !PendingIs(s.deck, task.generation) ==> ResumeStart(s.(deck := Taken(s.deck, task)), task, outcome, env).deck == Taken(s.deck, task)
  {
    hide PollStart, LoadStart, WritesOk;
    assert TaskOk(s.deck, task);
    var t := s.(deck := Taken(s.deck, task));
    if PendingIs(t.deck, task.generation) {
      if task.startStage.StartPreroll? { PollStartKept(t, task, env); }
      else if task.startStage.Placing? && outcome.Placed? { LoadStartKept(t, task, outcome.saved, outcome.startIsLocal, env); }
    } else if task.startStage.StartPreroll? {
      SupersededPoll(t, task, env);
    }
  }

  lemma ResumeRecoveryKept(s: State, task: Task, outcome: Outcome, now: Time)
    requires AllKept(s) && task.Recovery?
    ensures AllKept(ResumeRecovery(s, task, outcome, now))
    ensures Ending(ResumeRecovery(s, task, outcome, now).deck) == Ending(s.deck)
  {
    hide WritesOk, LoadTrackAt, Kept;
    if s.deck.nowPlaying.Some? {
      var np := s.deck.nowPlaying.value;
      MovedKept(s, np, task.track, task.within);
      MoveEnding(s.deck, np, task.track, task.within);
      SilencedKept(np, s.ticking);
    }
  }

  lemma MovedKept(s: State, np: NowPlaying, track: nat, within: real)
    requires Kept(np, s.ticking)
    ensures BookKept(LoadTrackAt(s.deck, np, track, within), s.ticking)
  {
  }

  lemma SilencedKept(np: NowPlaying, ticking: bool)
    requires Kept(np, ticking)
    ensures Kept(np.(isPlaying := false, hasError := true), ticking)
  {
  }

  lemma ResumeReconcileKept(s: State, task: Task, outcome: Outcome, env: Env)
    requires AllKept(s) && task.Reconcile?
    ensures AllKept(ResumeReconcile(s, task, outcome, env))
  {
    hide AllKept, SeekTo, SaveProgressNow;
    var t := if s.saving.holdingWrites == Some(task.session) then s.(saving := s.saving.(holdingWrites := None)) else s;
    HoldingKept(s);
    SaveProgressNowKept(t, env);
    if outcome.Reconciled? && outcome.after.Some? { SeekToKept(t, outcome.after.value.0, env); }
  }

  lemma HoldingKept(s: State)
    requires AllKept(s)
    ensures forall t: Task :: AllKept(s.(deck := Spawn(s.deck, t))) && AllKept(s.(deck := Taken(s.deck, t)))
    ensures forall h: Option<nat> :: AllKept(s.(saving := s.saving.(holdingWrites := h)))
  {
  }

  lemma ResumeTaskKept(asked: Option<Book>, s: State, task: Task, outcome: Outcome, env: Env)
    requires AllKept(s) && Safe(asked, s.deck)
    ensures AllKept(ResumeTask(s, task, outcome, env))
  {
    hide ResumeStart, ResumeLoad, ResumeRecovery, ResumeReconcile, Play, SaveProgressNow, WritesOk, Safe, Kept;
    if task in s.deck.tasks {
      var t := s.(deck := Taken(s.deck, task));
      match task
      case StartTask(_, _, _, _) => ResumeStartKept(asked, s, task, outcome, env);
      case LoadTask(_, _, _) => LoadResultKept(t.deck, task, outcome, env, s.ticking);
      case PauseConfirmation(_, _, _) => ReloadKept(t, task, task.generation, 0.0);
      case LocalFileCheck(_, _, _) => ReloadKept(t, task, task.track, if t.deck.nowPlaying.Some? then t.deck.nowPlaying.value.seek.known else 0.0);
      case Recovery(_, _, _, _) => ResumeRecoveryKept(t, task, outcome, env.now);
      case Reconcile(_, _, _, _) => ResumeReconcileKept(t, task, outcome, env);
      case ReplugTimer(_) => PlayKept(t.(marks := t.marks.(pausedByUnplug := false, log := t.marks.log + [ReplugResumed])), env);
      case PausedSeekTimer(_) => SaveProgressNowKept(t, env);
      case PendingSync(_, _) => SaveProgressNowKept(t, env);
    }
  }

  lemma ReloadKept(s: State, task: Task, track: nat, within: real)
    requires AllKept(s)
    ensures s.deck.nowPlaying.Some? ==>
              && BookKept(LoadTrackAt(s.deck, s.deck.nowPlaying.value, track, within), s.ticking)
              && BookKept(Released(s.deck, s.deck.nowPlaying.value.(hasError := true, needsReload := true)), s.ticking)
              && Ending(LoadTrackAt(s.deck, s.deck.nowPlaying.value, track, within)) == Ending(s.deck)
              && Ending(Released(s.deck, s.deck.nowPlaying.value.(hasError := true, needsReload := true))) == Ending(s.deck)
  {
  }

  // ---------------------------------------------------------------- every step and every run

  lemma StepKept(asked: Option<Book>, s: State, event: Event, env: Env)
    requires AllKept(s) && Safe(asked, s.deck)
    ensures AllKept(Step(s, event, env))
  {
    hide StartWith, Play, Pause, SeekTo, SetSpeed, MarkAsFinished, ResetBookProgress, Tick, ResumeTask, SleepInMinutes,
         SleepAtEndOfChapter, CancelSleepTimer, SaveProgressNow, WritesOk, Safe, WriteProgressNow;
    match event
    case DoStart(book, speed, chapter) => StartWithKept(s, book, speed, chapter, env);
    case DoPlay => PlayKept(s, env);
    case DoPause => PauseKept(s, env);
    case DoToggle => PlayKept(s, env); PauseKept(s, env);
    case DoExternalToggle => PlayKept(s, env); PauseKept(s, env);
    case DoSeek(seconds) => SeekToKept(s, seconds, env);
    case DoSetSpeed(speed) => SetSpeedKept(s, speed, env);
    case DoSleepMinutes(minutes) => SleepTimerKept(s, minutes, env);
    case DoSleepChapter => SleepTimerKept(s, 0, env);
    case DoCancelSleep => SleepTimerKept(s, 0, env);
    case DoMarkFinished => MarkAsFinishedKept(s, env);
    case DoReset => ResetBookProgressKept(s, env);
    case DoSaveNow => SaveProgressNowKept(s, env);
    case DoSyncPending =>
    case DoRetire => WriteProgressOk(s.saving, s.deck, env.reading, env.now);
    case DoHeadphoneSettings(p, r) =>
    case DoUnplug => PauseKept(s.(marks := RouteChanged(s.marks)), env);
    case DoReplug =>
    case DoCallStart => PauseKept(s, env);
    case DoCallAnswered =>
    case DoCallEnd(answered, outgoing) =>
      PlayKept(s.(marks := s.marks.(pausedByCall := false, log := s.marks.log + [CallResumed])), env);
    case DoTick => TickKept(s, env);
    case DoResume(task, outcome) => ResumeTaskKept(asked, s, task, outcome, env);
  }

  lemma {:induction false} RunKept(asked: Option<Book>, s: State, events: seq<(Event, Env)>)
    requires AllKept(s) && Safe(asked, s.deck)
    ensures AllKept(Run(s, events))
    decreases |events|
  {
    hide AllKept, Safe, Step;
    if events != [] {
      StepKept(asked, s, events[0].0, events[0].1);
      StepSafe(asked, s, events[0].0, events[0].1);
      RunKept(AskedAfter(asked, events[0].0), Step(s, events[0].0, events[0].1), events[1..]);
    }
  }

  /** In every run: a finished book is not playing, and whatever plays or counts down by the clock
      has the tick timer installed. */
  lemma {:induction false} FinishedNeverPlays(now: Time, events: seq<(Event, Env)>)
    ensures var s := Run(Initial(now), events);
            s.deck.nowPlaying.Some? ==>
              && (s.deck.nowPlaying.value.ended ==> !s.deck.nowPlaying.value.isPlaying)
              && (s.deck.nowPlaying.value.isPlaying || WallClockArmed(s.deck.nowPlaying.value) ==> s.ticking)
  {
    hide Run;
    InitialSafe(now);
    RunKept(None, Initial(now), events);
  }

  /** In every run: a progress value is written as finished exactly when the book was finished then,
      and always at the book's full length. */
  lemma {:induction false} FinishedIsWrittenFinished(now: Time, events: seq<(Event, Env)>)
    ensures forall w | w in Run(Initial(now), events).saving.writes ::
              (w.finished <==> w.whileEnded) && (w.whileEnded ==> w.position == w.duration)
  {
    hide Run;
    InitialSafe(now);
    RunKept(None, Initial(now), events);
  }

  // ---------------------------------------------------------------- what finishes a book, and what un-finishes it

  /** The book on the deck, and whether it is finished. */
  function Ending(d: Deck): Option<(Book, bool)> {
    if d.nowPlaying.Some? then Some((d.nowPlaying.value.book, d.nowPlaying.value.ended)) else None
  }

  predicate EndedNow(d: Deck) { d.nowPlaying.Some? && d.nowPlaying.value.ended }

  /** The tick handles an end-of-stream that is the real end of the book's last file. Which file posted
      the event is not looked at: one that was kept may be another's. */
  predicate FinishesNow(s: State, env: Env) {
    var o := ObservePosition(s, env);
    && o.deck.nowPlaying.Some?
    && HandledEvent(s, env) == Some(EndOfStream)
    && EndIsReal(o.deck.nowPlaying.value, env.reading, env.fileLength) && LastFile(o.deck.nowPlaying.value)
  }

  lemma PauseEnding(s: State, env: Env)
    ensures Ending(Pause(s, env).deck) == Ending(s.deck)
  {
    hide WriteProgress;
  }

  lemma SettingsEnding(s: State, speed: real, minutes: nat, env: Env)
    ensures Ending(SetSpeed(s, speed, env).deck) == Ending(s.deck)
    ensures Ending(SleepInMinutes(s, minutes, env).deck) == Ending(s.deck)
    ensures Ending(SleepAtEndOfChapter(s, env).deck) == Ending(s.deck)
    ensures Ending(CancelSleepTimer(s).deck) == Ending(s.deck)
  {
    hide Within, UsableSpeed, Abs, BookPosition, ChapterEndAt;
  }

  lemma ObservePositionEnding(s: State, env: Env)
    ensures Ending(ObservePosition(s, env).deck) == Ending(s.deck)
  {
    hide ObserveSeek, LoadTrackAt, Released;
    if env.observed.Some? && s.deck.nowPlaying.Some? {
      var np := s.deck.nowPlaying.value;
      var Observation(k, verdict) := ObserveSeek(np.seek, env.observed.value, env.fileLength, env.now);
      MoveEnding(s.deck, np.(seek := k), np.currentTrack, if verdict.Reload? then verdict.target else 0.0);
      MoveEnding(s.deck, np.(seek := k, isPlaying := false, needsReload := true, hasError := true), 0, 0.0);
    }
  }

  lemma MoveEnding(d: Deck, np: NowPlaying, track: nat, within: real)
    ensures Ending(LoadTrackAt(d, np, track, within)) == Some((np.book, np.ended))
    ensures Ending(Released(d, np)) == Some((np.book, np.ended))
  {
  }

  lemma EndTickEnding(s: State, env: Env)
    ensures Ending(EndTick(s, env).deck) == Ending(s.deck)
  {
    hide WriteProgressNow, WriteProgressAt, BookPosition;
  }

  lemma StopEnding(s: State, np: NowPlaying, within: real, env: Env)
    ensures Ending(StopUnclear(s, np, within, env).deck) == Some((np.book, np.ended))
    ensures Ending(HandleStreamError(s, np, env).deck) == Some((np.book, np.ended))
  {
    hide WriteProgress, WithinTrack;
  }

  lemma JudgeEndOfStreamEnding(np: NowPlaying, reading: Option<real>, fileLength: Option<real>)
    ensures JudgeEndOfStream(np, reading, fileLength).book.ended == np.ended
    ensures JudgeEndOfStream(np, reading, fileLength).book.book == np.book
  {
  }

  lemma TickEnding(s: State, env: Env)
    requires s.deck.nowPlaying.Some?
    ensures Ending(Tick(s, env).deck) == if FinishesNow(s, env) then Some((s.deck.nowPlaying.value.book, true)) else Ending(s.deck)
  {
    hide ObservePosition, EndTick, StopUnclear, HandleStreamError, JudgeEndOfStream, LoadTrackAt, FinishBook, EndIsReal;
    ObservePositionEnding(s, env);
    var o := ObservePosition(s, env);
    var t := o.(deferredEvent := None);
    var np := t.deck.nowPlaying.value;
    if HandledEvent(s, env).None? {
      EndTickEnding(t, env);
    } else if HandledEvent(s, env).value.StreamError? {
      StopEnding(t, np, 0.0, env);
      EndTickEnding(HandleStreamError(t, np, env), env);
    } else {
      var Judgement(judged, verdict) := JudgeEndOfStream(np, env.reading, env.fileLength);
      JudgeEndOfStreamEnding(np, env.reading, env.fileLength);
      EndIsJudged(np, env.reading, env.fileLength);
      match verdict
      case Unclear(within) => StopEnding(t, judged, within, env);
      case Premature =>
        StopEnding(t, judged, 0.0, env);
        EndTickEnding(HandleStreamError(t, judged, env), env);
      case RealEnd =>
        MoveEnding(t.deck, judged, judged.currentTrack + 1, 0.0);
        FinishBookEnding(t.(deck := WithBook(t.deck, judged)), env);
        EndTickEnding(FinishBook(t.(deck := WithBook(t.deck, judged)), env), env);
    }
  }

  /** What else a tick does with an end-of-stream. The real end of any other file moves on to the start of
      the next one; an unclear one stops there, unfinished; and what came too early is a lost connection:
      a downloaded file stops with an error, a stream is recovered where it stopped. */
  lemma TickHandlesEnd(s: State, env: Env)
    requires s.deck.nowPlaying.Some? && HandledEvent(s, env) == Some(EndOfStream)
    ensures ObservePosition(s, env).deck.nowPlaying.Some? && Tick(s, env).deck.nowPlaying.Some?
    ensures var np, t := ObservePosition(s, env).deck.nowPlaying.value, Tick(s, env).deck;
            var next, at := t.nowPlaying.value, EndedAt(np, env.reading);
            if EndIsReal(np, env.reading, env.fileLength) then
              !LastFile(np) ==> next.currentTrack == np.currentTrack + 1 && next.loadingTrack.Some? && next.seek.pending && next.seek.known == 0.0
                                && next.isPlaying == np.isPlaying
            else if at > 0.9 * LengthOf(np, env.fileLength) then
              !next.isPlaying && next.needsReload && next.hasError == np.hasError && next.currentTrack == np.currentTrack && next.seek.known == at
            else
              && next.needsReload && next.currentTrack == np.currentTrack
              && (np.sourceIsLocal ==> !next.isPlaying && next.hasError)
              && next.seek.known == Max(ReportedWithin(np, env.reading), 0.0)
              && (!np.sourceIsLocal ==> Recovery(np.book, np.currentTrack, next.seek.known, t.loadGeneration) in t.tasks)
  {
    hide ObservePosition, EndTick, StopUnclear, HandleStreamError, JudgeEndOfStream, EndIsReal, FinishBook;
    ObservePositionEnding(s, env);
    var t := ObservePosition(s, env).(deferredEvent := None);
    var np := t.deck.nowPlaying.value;
    EndIsJudged(np, env.reading, env.fileLength);
    TickEnding(s, env);
    var j := JudgeEndOfStream(np, env.reading, env.fileLength);
    EndStops(t, j.book, EndedAt(np, env.reading), env);
    EndTickDeck(HandleStreamError(t, j.book, env), env);
  }

  lemma EndStops(s: State, np: NowPlaying, within: real, env: Env)
    ensures var d := StopUnclear(s, np, within, env).deck;
            d.nowPlaying == Some(np.(isPlaying := false, needsReload := true, seek := np.seek.(known := within, pending := false), loadingTrack := None))
    ensures var d := HandleStreamError(s, np, env).deck;
            && d.nowPlaying.Some? && d.nowPlaying.value.needsReload && d.nowPlaying.value.currentTrack == np.currentTrack
            && d.nowPlaying.value.seek.known == Max(ReportedWithin(np, env.reading), 0.0)
            && (np.sourceIsLocal ==> !d.nowPlaying.value.isPlaying && d.nowPlaying.value.hasError)
            && (!np.sourceIsLocal ==> Recovery(np.book, np.currentTrack, d.nowPlaying.value.seek.known, d.loadGeneration) in d.tasks)
  {
    hide WriteProgress, WithinTrack;
    PositionInFile(np, env.reading);
  }

  /** The end of a tick may pause at a sleep timer, and nothing else. */
  lemma EndTickDeck(s: State, env: Env)
    ensures var d, e := s.deck, EndTick(s, env).deck;
            && e.tasks == d.tasks && e.loadGeneration == d.loadGeneration
            && (d.nowPlaying.None? ==> e.nowPlaying.None?)
            && (d.nowPlaying.Some? ==>
                  e.nowPlaying.Some? && e.nowPlaying.value.(isPlaying := false, sleepTimer := Off) == d.nowPlaying.value.(isPlaying := false, sleepTimer := Off)
                  && (e.nowPlaying.value.isPlaying ==> d.nowPlaying.value.isPlaying))
  {
    hide WriteProgressNow, WriteProgressAt, BookPosition;
  }

  lemma FinishBookEnding(s: State, env: Env)
    requires s.deck.nowPlaying.Some?
    ensures Ending(FinishBook(s, env).deck) == Some((s.deck.nowPlaying.value.book, true))
  {
    hide WriteProgressNow;
  }

  lemma SeekToEnding(s: State, seconds: real, env: Env)
    ensures EndedNow(SeekTo(s, seconds, env).deck) ==> EndedNow(s.deck)
  {
    hide LocateTrack, ClampToBook, ChapterEndAt;
  }

  lemma PlayEnding(s: State, env: Env)
    ensures EndedNow(Play(s, env).deck) ==> EndedNow(s.deck)
  {
    hide ResumeBackend, ReconcileBeforeResuming, PrepareToResume, WriteProgressNow, UsableSpeed, WriteProgressAt;
    var t := s.(marks := ClearMarks(s.marks, PlayAsked));
    ResumeEnding(t, env);
    ResumeBackendEnding(PrepareToResume(ReconcileBeforeResuming(t, env), env), env);
  }

  lemma ResumeEnding(s: State, env: Env)
    ensures Ending(PrepareToResume(ReconcileBeforeResuming(s, env), env).deck) == Ending(s.deck)
  {
    hide BookPosition;
  }

  lemma ResumeBackendEnding(s: State, env: Env)
    ensures s.deck.nowPlaying.Some? ==> Ending(ResumeBackend(s, env).deck) == Ending(s.deck)
  {
    hide ApplyDeferredSpeed, PlayBackend;
    ApplyDeferredSpeedEnding(s, env);
    PlayBackendEnding(ApplyDeferredSpeed(s, env), env.accepted);
  }

  lemma ApplyDeferredSpeedEnding(s: State, env: Env)
    ensures Ending(ApplyDeferredSpeed(s, env).deck) == Ending(s.deck)
  {
    hide Within;
  }

  lemma PlayBackendEnding(s: State, accepted: bool)
    ensures Ending(PlayBackend(s, accepted).deck) == Ending(s.deck)
  {
  }

  lemma ResetBookProgressEnding(s: State, env: Env)
    ensures EndedNow(ResetBookProgress(s, env).deck) ==> EndedNow(s.deck)
  {
    hide SeekTo, WriteProgressAt;
    SeekToEnding(s, 0.0, env);
  }

  lemma FinishStartEnding(s: State, task: Task, prepared: StartStage, loaded: bool, speed: real, env: Env)
    requires task.StartTask? && prepared.StartPreroll? && s.deck.pendingStart.Some?
    ensures EndedNow(FinishStart(s, task, prepared, loaded, speed, env).deck) ==> s.deck.pendingStart.value.intent == Some(MarkFinished)
  {
    hide MarkAsFinished, ResetBookProgress;
    var np := StartedBook(task.book, prepared, loaded, s.deck.pendingStart.value.wantsPlay, speed, env.now);
    var d := if np.isPlaying then Commanded(s.deck, PlayCommand(env.plays)) else s.deck;
    ResetBookProgressEnding(s.(deck := d.(pendingStart := None, nowPlaying := Some(np)),
                               saving := s.saving.(lastProgressWrite := env.now, lastPlayedAt := env.now),
                               ticking := s.ticking || np.isPlaying), env);
  }

  lemma PollStartEnding(s: State, task: Task, env: Env)
    requires task.StartTask? && task.startStage.StartPreroll? && s.deck.nowPlaying.None?
    ensures EndedNow(PollStart(s, task, env).deck) ==> s.deck.pendingStart.Some? && s.deck.pendingStart.value.intent == Some(MarkFinished)
  {
    hide FinishStart;
    if PendingIs(s.deck, task.generation) {
      var stage := task.startStage;
      var sped := s.(deck := Commanded(s.deck, SpeedCommand(task.speed, stage.within)));
      FinishStartEnding(sped, task, stage, true, if env.speedAccepted then task.speed else 1.0, env);
      FinishStartEnding(if stage.within > 0.0 then s.(deck := Commanded(s.deck, SeekCommand(stage.within))) else s, task, stage, true, 1.0, env);
    }
  }

  lemma ResumeStartEnding(s: State, task: Task, outcome: Outcome, env: Env)
    requires task.StartTask? && s.deck.nowPlaying.None?
    ensures EndedNow(ResumeStart(s, task, outcome, env).deck) ==> s.deck.pendingStart.Some? && s.deck.pendingStart.value.intent == Some(MarkFinished)
  {
    hide FinishStart, PollStart, StartPosition, LocateTrack;
    if task.startStage.StartPreroll? {
      PollStartEnding(s, task, env);
    } else if PendingIs(s.deck, task.generation) && task.startStage.Placing? && outcome.Placed? {
      var target := task.startStage.target;
      var at := StartPosition(task.startStage.chapterStart, outcome.saved, target.duration);
      var (track, within) := if at.Some? then LocateTrack(target.tracks, at.value) else (0, 0.0);
      var d := s.deck.(loadGeneration := s.deck.loadGeneration + 1);
      var prepared := StartPreroll(target, track, within, d.loadGeneration, outcome.startIsLocal, 0);
      PollStartEnding(s.(deck := Commanded(Commanded(d, LoadAccepted(task.book, track)), PauseCommand(env.pauses))), task.(startStage := prepared), env);
      FinishStartEnding(s.(deck := ResetBackend(Commanded(d, LoadRefused(task.book, track)))), task, prepared, false, 1.0, env);
    }
  }

  lemma ResumePauseConfirmationEnding(d: Deck, task: Task, paused: bool)
    requires task.PauseConfirmation?
    ensures Ending(ResumePauseConfirmation(d, task, paused)) == Ending(d)
  {
    hide Released;
    if d.nowPlaying.Some? { MoveEnding(d, d.nowPlaying.value.(hasError := true, needsReload := true), 0, 0.0); }
  }

  lemma ResumeLocalFileCheckEnding(d: Deck, task: Task, outcome: Outcome)
    requires task.LocalFileCheck?
    ensures Ending(ResumeLocalFileCheck(d, task, outcome)) == Ending(d)
  {
    hide LoadTrackAt;
    if d.nowPlaying.Some? { MoveEnding(d, d.nowPlaying.value, task.track, d.nowPlaying.value.seek.known); }
  }

  lemma ResumeReconcileEnding(s: State, task: Task, outcome: Outcome, env: Env)
    requires task.Reconcile?
    ensures EndedNow(ResumeReconcile(s, task, outcome, env).deck) ==> EndedNow(s.deck)
  {
    hide SeekTo, WriteProgress;
    var t := if s.saving.holdingWrites == Some(task.session) then s.(saving := s.saving.(holdingWrites := None)) else s;
    if outcome.Reconciled? && outcome.after.Some? { SeekToEnding(t, outcome.after.value.0, env); }
  }

  lemma SavedEnding(s: State, task: Task, outcome: Outcome, env: Env)
    requires task.PausedSeekTimer? || task.PendingSync?
    ensures Ending(Continue(s, task, outcome, env).deck) == Ending(s.deck)
  {
    hide WriteProgress;
  }

  lemma ContinueEnding(s: State, task: Task, outcome: Outcome, env: Env)
    requires AllKept(s) && !task.StartTask?
    ensures EndedNow(Continue(s, task, outcome, env).deck) ==> EndedNow(s.deck)
    ensures !task.Reconcile? && !task.ReplugTimer? ==> Ending(Continue(s, task, outcome, env).deck) == Ending(s.deck)
  {
    hide ResumeLoad, ResumePauseConfirmation, ResumeLocalFileCheck, ResumeRecovery, ResumeReconcile, Play, WriteProgress, AllKept, ReplugResumes;
    match task
    case LoadTask(_, _, _) => LoadEnding(s, task, outcome, env);
    case PauseConfirmation(_, _, _) => ResumePauseConfirmationEnding(s.deck, task, env.paused);
    case LocalFileCheck(_, _, _) => ResumeLocalFileCheckEnding(s.deck, task, outcome);
    case Recovery(_, _, _, _) => ResumeRecoveryKept(s, task, outcome, env.now);
    case Reconcile(_, _, _, _) => ResumeReconcileEnding(s, task, outcome, env);
    case ReplugTimer(_) => PlayEnding(s.(marks := s.marks.(pausedByUnplug := false, log := s.marks.log + [ReplugResumed])), env);
    case _ => SavedEnding(s, task, outcome, env);
  }

  lemma LoadEnding(s: State, task: Task, outcome: Outcome, env: Env)
    requires AllKept(s) && task.LoadTask?
    ensures Ending(ResumeLoad(s.deck, task, outcome, env)) == Ending(s.deck)
  {
    hide ResumeLoad, Kept, WritesOk;
    LoadResultKept(s.deck, task, outcome, env, s.ticking);
  }

  /** A start whose book is loaded already changes nothing; one that ends while none is loaded gives
      the book asked for. */
  lemma StartEnding(asked: Option<Book>, s: State, task: Task, outcome: Outcome, env: Env)
    requires AllKept(s) && Safe(asked, s.deck) && task.StartTask? && task in s.deck.tasks
    ensures var d := ResumeStart(s.(deck := Taken(s.deck, task)), task, outcome, env).deck;
            && (EndedNow(d) && !EndedNow(s.deck) ==> s.deck.pendingStart.Some? && s.deck.pendingStart.value.intent == Some(MarkFinished))
            && (EndedNow(s.deck) ==> Ending(d) == Ending(s.deck))
  {
    hide ResumeStart, Safe, AllKept;
    OneOrTheOther(asked, s.deck);
    var t := s.(deck := Taken(s.deck, task));
    if s.deck.nowPlaying.None? { ResumeStartEnding(t, task, outcome, env); } else { StartSuperseded(t, task, outcome, env); }
  }

  lemma StartSuperseded(s: State, task: Task, outcome: Outcome, env: Env)
    requires task.StartTask? && s.deck.pendingStart.None?
    ensures ResumeStart(s, task, outcome, env) == s
  {
  }

  lemma ResumeTaskEnding(asked: Option<Book>, s: State, task: Task, outcome: Outcome, env: Env)
    requires AllKept(s) && Safe(asked, s.deck)
    ensures var d := ResumeTask(s, task, outcome, env).deck;
            && (EndedNow(d) && !EndedNow(s.deck) ==>
                  task.StartTask? && s.deck.pendingStart.Some? && s.deck.pendingStart.value.intent == Some(MarkFinished))
            && (EndedNow(s.deck) && !task.Reconcile? && !task.ReplugTimer? ==> Ending(d) == Ending(s.deck))
  {
    hide ResumeStart, Safe, Kept, WritesOk;
    if task in s.deck.tasks {
      if task.StartTask? {
        StartEnding(asked, s, task, outcome, env);
      } else {
        hide Continue;
        ContinueEnding(s.(deck := Taken(s.deck, task)), task, outcome, env);
      }
    }
  }

  lemma OneOrTheOther(asked: Option<Book>, d: Deck)
    requires Safe(asked, d)
    ensures d.nowPlaying.Some? ==> d.pendingStart.None?
  {
  }

  lemma StartWithEnding(s: State, book: Book, speed: real, chapter: Option<nat>, env: Env)
    ensures EndedNow(StartWith(s, book, speed, chapter, env).deck) ==> EndedNow(s.deck)
  {
    hide Play, SeekTo, WriteProgressNow, UsableSpeed;
    PlayEnding(s, env);
    if IsLoaded(s.deck, book) && chapter.Some? && chapter.value < |s.deck.nowPlaying.value.chapters| {
      var at := Max(s.deck.nowPlaying.value.chapters[chapter.value].start, 0.0);
      SeekToEnding(s, at, env);
      PlayEnding(SeekTo(s, at, env), env);
    }
  }

  /** A book becomes finished only by being marked so (possibly while it was still starting) or by
      an end-of-stream that a tick judges to be the real end of its last file. */
  lemma OnlyTheEndFinishes(asked: Option<Book>, s: State, event: Event, env: Env)
    requires AllKept(s) && Safe(asked, s.deck)
    requires EndedNow(Step(s, event, env).deck) && !EndedNow(s.deck)
    ensures || event.DoMarkFinished?
            || (event.DoTick? && FinishesNow(s, env))
            || (event.DoResume? && event.task.StartTask? && s.deck.pendingStart.Some? && s.deck.pendingStart.value.intent == Some(MarkFinished))
  {
    hide StartWith, Play, Pause, SeekTo, SetSpeed, MarkAsFinished, ResetBookProgress, Tick, ResumeTask, SleepInMinutes,
         SleepAtEndOfChapter, CancelSleepTimer, WriteProgress, WritesOk, Safe, Kept, WriteProgressNow, FinishesNow;
    match event
    case DoStart(book, speed, chapter) => StartWithEnding(s, book, speed, chapter, env);
    case DoPlay => PlayEnding(s, env);
    case DoPause => PauseEnding(s, env);
    case DoToggle => PlayEnding(s, env); PauseEnding(s, env);
    case DoExternalToggle => PlayEnding(s, env); PauseEnding(s, env);
    case DoSeek(seconds) => SeekToEnding(s, seconds, env);
    case DoSetSpeed(speed) => SettingsEnding(s, speed, 0, env);
    case DoSleepMinutes(minutes) => SettingsEnding(s, 1.0, minutes, env);
    case DoSleepChapter => SettingsEnding(s, 1.0, 0, env);
    case DoCancelSleep => SettingsEnding(s, 1.0, 0, env);
    case DoReset => ResetBookProgressEnding(s, env);
    case DoUnplug => PauseEnding(s.(marks := RouteChanged(s.marks)), env);
    case DoCallStart => PauseEnding(s, env);
    case DoCallEnd(answered, outgoing) =>
      PlayEnding(s.(marks := s.marks.(pausedByCall := false, log := s.marks.log + [CallResumed])), env);
    case DoTick => if s.ticking && s.deck.nowPlaying.Some? { TickEnding(s, env); } else { NoBookTick(s, env); }
    case DoResume(task, outcome) => ResumeTaskEnding(asked, s, task, outcome, env);
    case _ =>
  }

  lemma NoBookTick(s: State, env: Env)
    requires s.deck.nowPlaying.None?
    ensures Tick(s, env).deck == s.deck
  {
  }
}
