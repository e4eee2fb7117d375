/** When the player says it is playing, it has something to play: a file it can use, a load on its way,
    or a recovery of the stream that failed. One step breaks this, and exactly when is proved: a refused
    request to play on a pipeline that is already playing, by `play` or by a start of the loaded
    book. The lemmas follow the controller: its operations, the tick, the resumed tasks, and then
    every step and every run. Many operations are no livelier after than before (`NoLivelier`): they
    stop playback, or leave what it plays alone, losing no task. Whether the backend then really does
    what it is asked is the matter of `PlayerBackend`. */
module PlayerAlive {
  import opened Prelude
  import opened PlayerTypes
  import opened PlayerSpec
  import opened PlayerSafety

  /** A recovery of the last stream error is still to run. */
  ghost predicate Recovering(d: Deck) {
    exists t :: t in d.tasks && t.Recovery? && t.generation == d.loadGeneration
  }

  ghost predicate Alive(d: Deck) {
    d.nowPlaying.Some? && d.nowPlaying.value.isPlaying ==>
      !d.nowPlaying.value.needsReload || d.nowPlaying.value.loadingTrack.Some? || Recovering(d)
  }

  /** A refused `play` on a pipeline that is already playing. */
  predicate RefusedWhilePlaying(d: Deck, env: Env) {
    d.pendingStart.None? && d.nowPlaying.Some? && d.nowPlaying.value.isPlaying && HoldsTrack(d.nowPlaying.value)
    && d.nowPlaying.value.retryRequest.None? && !d.nowPlaying.value.ended && !env.accepted
  }

  /** `e` plays no more than `d` and lost nothing that keeps it alive. */
  ghost predicate NoLivelier(d: Deck, e: Deck) {
    && e.loadGeneration == d.loadGeneration && d.tasks <= e.tasks
    && (e.nowPlaying.Some? ==>
          && d.nowPlaying.Some?
          && (e.nowPlaying.value.isPlaying ==> d.nowPlaying.value.isPlaying)
          && (e.nowPlaying.value.needsReload ==> d.nowPlaying.value.needsReload)
          && e.nowPlaying.value.loadingTrack == d.nowPlaying.value.loadingTrack)
  }

  lemma NoLivelierAlive(d: Deck, e: Deck)
    requires Alive(d) && NoLivelier(d, e)
    ensures Alive(e)
  {
    if Recovering(d) {
      var t :| t in d.tasks && t.Recovery? && t.generation == d.loadGeneration;
      assert t in e.tasks;
    }
  }

  lemma LoadingAlive(d: Deck, np: NowPlaying, track: nat, within: real)
    ensures Alive(LoadTrackAt(d, np, track, within))
  {
  }

  lemma StoppedAlive(d: Deck, np: NowPlaying)
    requires !np.isPlaying
    ensures Alive(Released(d, np))
  {
  }

  // ---------------------------------------------------------------- the controller's operations

  lemma SeekToAlive(s: State, seconds: real, env: Env)
    requires Alive(s.deck)
    ensures Alive(SeekTo(s, seconds, env).deck)
  {
    hide Alive, SeekDeck, LocateTrack, ClampToBook, ChapterEndAt;
    if s.deck.nowPlaying.Some? && s.deck.nowPlaying.value.tracks != [] {
      var np := Retargeted(s.deck.nowPlaying.value, ClampToBook(seconds, s.deck.nowPlaying.value.duration));
      var (track, within) := LocateTrack(np.tracks, ClampToBook(seconds, s.deck.nowPlaying.value.duration));
      SeekDeckAlive(s.deck, np, track, within, env.now);
      var d := SeekDeck(s.deck, np, track, within, env.now);
      NoLivelierAlive(d, Spawn(d, PausedSeekTimer(s.saving.pausedSeekGeneration + 1)));
    }
  }

  lemma SeekDeckAlive(d: Deck, np: NowPlaying, track: nat, within: real, now: Time)
    requires Alive(d) && d.nowPlaying.Some? && np.isPlaying == d.nowPlaying.value.isPlaying
    requires np.needsReload == d.nowPlaying.value.needsReload && np.loadingTrack == d.nowPlaying.value.loadingTrack
    ensures Alive(SeekDeck(d, np, track, within, now))
  {
    hide Alive;
    var c := d.(seekCount := d.seekCount + 1);
    if track != np.currentTrack { LoadingAlive(c, np, track, within); } else { NoLivelierAlive(d, SeekDeck(d, np, track, within, now)); }
  }

  lemma PrepareToResumeAlive(s: State, env: Env)
    requires Alive(s.deck)
    ensures Alive(PrepareToResume(ReconcileBeforeResuming(s, env), env).deck)
    ensures s.deck.nowPlaying.Some? && s.deck.nowPlaying.value.isPlaying ==>
              PrepareToResume(ReconcileBeforeResuming(s, env), env).deck == s.deck
    ensures s.deck.nowPlaying.Some? && !s.deck.nowPlaying.value.isPlaying ==>
              PrepareToResume(ReconcileBeforeResuming(s, env), env).deck.nowPlaying.Some?
              && !PrepareToResume(ReconcileBeforeResuming(s, env), env).deck.nowPlaying.value.isPlaying
    ensures s.deck.nowPlaying.None? ==> PrepareToResume(ReconcileBeforeResuming(s, env), env).deck.nowPlaying.None?
  {
    hide BookPosition, Recovering;
    NoLivelierAlive(s.deck, ReconcileBeforeResuming(s, env).deck);
  }

  lemma PlayBackendAlive(s: State, accepted: bool)
    requires s.deck.nowPlaying.Some? && HoldsTrack(s.deck.nowPlaying.value) && (accepted || !s.deck.nowPlaying.value.isPlaying)
    ensures Alive(PlayBackend(s, accepted).deck)
  {
    hide Recovering;
  }

  lemma ResumeBackendAlive(s: State, env: Env)
    requires Alive(s.deck) && s.deck.nowPlaying.Some? && s.deck.nowPlaying.value.tracks != []
    requires env.accepted || !s.deck.nowPlaying.value.isPlaying || !HoldsTrack(s.deck.nowPlaying.value)
    ensures Alive(ResumeBackend(s, env).deck)
  {
    hide Recovering, PlayBackend, Within;
    var np := s.deck.nowPlaying.value;
    if HoldsTrack(np) { PlayBackendAlive(ApplyDeferredSpeed(s, env), env.accepted); }
  }

  lemma PlayAlive(asked: Option<Book>, s: State, env: Env)
    requires Alive(s.deck) && Safe(asked, s.deck) && !RefusedWhilePlaying(s.deck, env)
    ensures Alive(Play(s, env).deck)
  {
    hide Alive, PrepareToResume, ReconcileBeforeResuming, ResumeBackend, LoadTrackAt, WriteProgressNow, WriteProgressAt, Safe;
    var t := s.(marks := ClearMarks(s.marks, PlayAsked));
    BookInOrder(asked, s.deck);
    if s.deck.pendingStart.Some? {
      NoLivelierAlive(s.deck, Play(s, env).deck);
    } else if s.deck.nowPlaying.Some? && s.deck.nowPlaying.value.retryRequest.Some? {
      EmptyAlive(BeginStart(s.deck, s.deck.nowPlaying.value.book, s.deck.nowPlaying.value.retryRequest.value, None));
    } else if s.deck.nowPlaying.Some? && s.deck.nowPlaying.value.ended {
      LoadingAlive(s.deck, s.deck.nowPlaying.value.(ended := false, isPlaying := true, hasError := false), 0, 0.0);
    } else {
      PrepareToResumeAlive(t, env);
      var u := PrepareToResume(ReconcileBeforeResuming(t, env), env);
      if u.deck.nowPlaying.Some? {
        ResumeSafe0(asked, t, env);
        ResumeBackendAlive(u, env);
      }
    }
  }

  lemma BookInOrder(asked: Option<Book>, d: Deck)
    requires Safe(asked, d)
    ensures d.nowPlaying.Some? ==>
              && d.pendingStart.None?
              && (d.nowPlaying.value.retryRequest.None? <==> d.nowPlaying.value.tracks != [])
  {
  }

  lemma EmptyAlive(d: Deck)
    requires d.nowPlaying.None?
    ensures Alive(d)
  {
  }

  lemma ResumeSafe0(asked: Option<Book>, s: State, env: Env)
    requires s.deck.nowPlaying.Some? && s.deck.nowPlaying.value.tracks != []
    ensures var u := PrepareToResume(ReconcileBeforeResuming(s, env), env); u.deck.nowPlaying.Some? && u.deck.nowPlaying.value.tracks != []
  {
    hide BookPosition;
  }

  /** What `play` finds when a start asks it to play: the book that is loaded already, after the seek
      to the chapter asked for. */
  function PlayedFrom(s: State, chapter: Option<nat>, env: Env): State
    requires s.deck.nowPlaying.Some?
  {
    var chapters := s.deck.nowPlaying.value.chapters;
    if chapter.Some? && chapter.value < |chapters| then SeekTo(s, Max(chapters[chapter.value].start, 0.0), env) else s
  }

  lemma PlayedFromAlive(asked: Option<Book>, s: State, chapter: Option<nat>, env: Env)
    requires Alive(s.deck) && Safe(asked, s.deck) && s.deck.nowPlaying.Some?
    ensures Alive(PlayedFrom(s, chapter, env).deck) && Safe(asked, PlayedFrom(s, chapter, env).deck)
  {
    hide Alive, Safe, SeekTo;
    var chapters := s.deck.nowPlaying.value.chapters;
    if chapter.Some? && chapter.value < |chapters| {
      SeekToAlive(s, Max(chapters[chapter.value].start, 0.0), env);
      SeekToSafe(asked, s, Max(chapters[chapter.value].start, 0.0), env);
    }
  }

  lemma StartWithAliveIff(asked: Option<Book>, s: State, book: Book, speed: real, chapter: Option<nat>, env: Env)
    requires Alive(s.deck) && Safe(asked, s.deck)
    ensures Alive(StartWith(s, book, speed, chapter, env).deck) <==>
            !(IsLoaded(s.deck, book) && RefusedWhilePlaying(PlayedFrom(s, chapter, env).deck, env))
  {
    hide Alive, Play, SeekTo, Safe, WriteProgressNow, RefusedWhilePlaying;
    if IsLoaded(s.deck, book) {
      PlayedFromAlive(asked, s, chapter, env);
      PlayIsAliveUnlessRefused(asked, PlayedFrom(s, chapter, env), env);
    } else if IsPending(s.deck, book) {
      NoLivelierAlive(s.deck, StartWith(s, book, speed, chapter, env).deck);
    } else {
      EmptyAlive(BeginStart(s.deck, book, speed, chapter));
    }
  }

  /** A pause may be refused too: the backend is then released and nothing is said to play. */
  lemma PauseAlive(s: State, env: Env)
    requires Alive(s.deck)
    ensures Alive(Pause(s, env).deck)
  {
    hide WriteProgress, Recovering;
    if s.deck.pendingStart.Some? { NoLivelierAlive(s.deck, Pause(s, env).deck); }
  }

  lemma SettingsAlive(s: State, speed: real, minutes: nat, env: Env)
    requires Alive(s.deck)
    ensures Alive(SetSpeed(s, speed, env).deck)
    ensures Alive(SleepInMinutes(s, minutes, env).deck)
    ensures Alive(SleepAtEndOfChapter(s, env).deck)
    ensures Alive(CancelSleepTimer(s).deck)
  {
    hide Alive, Within, UsableSpeed, Abs, BookPosition, ChapterEndAt;
    NoLivelierAlive(s.deck, SetSpeed(s, speed, env).deck);
    NoLivelierAlive(s.deck, SleepInMinutes(s, minutes, env).deck);
    NoLivelierAlive(s.deck, SleepAtEndOfChapter(s, env).deck);
    NoLivelierAlive(s.deck, CancelSleepTimer(s).deck);
  }

  lemma FinishingAlive(s: State, env: Env)
    requires Alive(s.deck)
    ensures Alive(MarkAsFinished(s, env).deck)
    ensures Alive(ResetBookProgress(s, env).deck)
  {
    hide Alive, SeekTo, WriteProgressAt;
    NoLivelierAlive(s.deck, MarkAsFinished(s, env).deck);
    if s.deck.pendingStart.Some? { NoLivelierAlive(s.deck, ResetBookProgress(s, env).deck); } else { SeekToAlive(s, 0.0, env); }
  }

  // ---------------------------------------------------------------- the tick

  lemma ObservePositionAlive(s: State, env: Env)
    requires Alive(s.deck)
    ensures Alive(ObservePosition(s, env).deck)
  {
    hide Alive, ObserveSeek, LoadTrackAt, Released;
    if env.observed.Some? && s.deck.nowPlaying.Some? && s.deck.nowPlaying.value.loadingTrack.None? {
      var Observation(k, verdict) := ObserveSeek(s.deck.nowPlaying.value.seek, env.observed.value, env.fileLength, env.now);
      var np := s.deck.nowPlaying.value.(seek := k);
      match verdict
      case Reload(target) => LoadingAlive(s.deck, np, np.currentTrack, target);
      case Stop => StoppedAlive(s.deck, np.(isPlaying := false, needsReload := true, hasError := true));
      case _ => NoLivelierAlive(s.deck, ObservePosition(s, env).deck);
    }
  }

  lemma HandleStreamErrorAlive(s: State, np: NowPlaying, env: Env)
    ensures Alive(HandleStreamError(s, np, env).deck)
  {
    hide WithinTrack, WriteProgress;
    if !np.sourceIsLocal {
      var e := HandleStreamError(s, np, env).deck;
      var t := Recovery(np.book, np.currentTrack, Max(WithinTrack(np, env.reading), 0.0), e.loadGeneration);
      assert t in e.tasks;
    }
  }

  lemma EndTickAlive(s: State, env: Env)
    requires Alive(s.deck)
    ensures Alive(EndTick(s, env).deck)
  {
    hide Alive, WriteProgressNow, WriteProgressAt, BookPosition;
    NoLivelierAlive(s.deck, EndTick(s, env).deck);
  }

  lemma JudgedAlive(np: NowPlaying, reading: Option<real>, fileLength: Option<real>)
    ensures var j := JudgeEndOfStream(np, reading, fileLength).book;
            j.isPlaying == np.isPlaying && j.needsReload == np.needsReload && j.loadingTrack == np.loadingTrack
  {
  }

  lemma StopUnclearAlive(s: State, np: NowPlaying, within: real, env: Env)
    ensures Alive(StopUnclear(s, np, within, env).deck)
  {
    hide Recovering, WriteProgress;
  }

  lemma FinishBookAlive(s: State, np: NowPlaying, env: Env)
    requires Alive(s.deck) && s.deck.nowPlaying.Some? && np.isPlaying == s.deck.nowPlaying.value.isPlaying
    ensures Alive(FinishBook(s.(deck := WithBook(s.deck, np)), env).deck)
  {
    hide Recovering, WriteProgressNow;
  }

  lemma HandleEndOfStreamAlive(s: State, env: Env)
    requires Alive(s.deck) && s.deck.nowPlaying.Some?
    ensures Alive(HandleEndOfStream(s, env).deck)
  {
    hide Alive, EndTick, HandleStreamError, JudgeEndOfStream, LoadTrackAt, FinishBook, StopUnclear;
    var Judgement(np, verdict) := JudgeEndOfStream(s.deck.nowPlaying.value, env.reading, env.fileLength);
    JudgedAlive(s.deck.nowPlaying.value, env.reading, env.fileLength);
    match verdict
    case Unclear(within) => StopUnclearAlive(s, np, within, env);
    case Premature =>
      HandleStreamErrorAlive(s, np, env);
      EndTickAlive(HandleStreamError(s, np, env), env);
    case RealEnd =>
      if np.currentTrack + 1 < |np.tracks| {
        LoadingAlive(s.deck, np, np.currentTrack + 1, 0.0);
      } else {
        FinishBookAlive(s, np, env);
        EndTickAlive(FinishBook(s.(deck := WithBook(s.deck, np)), env), env);
      }
  }

  lemma TickAlive(s: State, env: Env)
    requires Alive(s.deck)
    ensures Alive(Tick(s, env).deck)
  {
    hide Alive, ObservePosition, EndTick, HandleStreamError, HandleEndOfStream;
    if s.deck.nowPlaying.Some? {
      ObservePositionAlive(s, env);
      var t := ObservePosition(s, env).(deferredEvent := None);
      EndTickAlive(t, env);
      if t.deck.nowPlaying.Some? {
        HandleStreamErrorAlive(t, t.deck.nowPlaying.value, env);
        EndTickAlive(HandleStreamError(t, t.deck.nowPlaying.value, env), env);
        HandleEndOfStreamAlive(t, env);
      }
    }
  }

  // ---------------------------------------------------------------- resumed tasks

  lemma ResumeLoadAlive(d: Deck, task: Task, outcome: Outcome, env: Env)
    requires Alive(d) && task.LoadTask?
    ensures Alive(ResumeLoad(d, task, outcome, env))
  {
    hide Alive, PollLoad, FailLoad, ConnectLoad;
    if LoadIsCurrent(d, task) {
      StoppedAlive(d, d.nowPlaying.value.(isPlaying := false, needsReload := true, hasError := true));
      FailLoadAlive(d);
      match task.loadStage
      case LoadPreroll(_, _, _) => PollLoadAlive(d, task, true, env);
      case Spawned => if d.nowPlaying.value.currentTrack < |d.nowPlaying.value.tracks| {
        NoLivelierAlive(d, Spawn(d, task.(loadStage := Connecting(d.nowPlaying.value.currentTrack))));
      }
      case Connecting(track) =>
        NoLivelierAlive(d, Spawn(d, task));
        if outcome.Answered? { ConnectLoadAlive(d, task, track, outcome.isLocal, env); }
    }
  }

  lemma FailLoadAlive(d: Deck)
    requires d.nowPlaying.Some?
    ensures Alive(FailLoad(d))
  {
  }

  lemma PollLoadAlive(d: Deck, task: Task, needsSeek: bool, env: Env)
    requires Alive(d) && task.LoadTask? && task.loadStage.LoadPreroll?
    ensures Alive(PollLoad(d, task, needsSeek, env))
  {
    hide Recovering, SpeedChanged;
  }

  lemma ConnectLoadAlive(d: Deck, task: Task, track: nat, isLocal: bool, env: Env)
    requires Alive(d) && task.LoadTask? && d.nowPlaying.Some?
    ensures Alive(ConnectLoad(d, task, track, isLocal, env))
  {
    hide Alive, PollLoad, FailLoad, SpeedChanged;
    var np := d.nowPlaying.value;
    FailLoadAlive(d);
    FailLoadAlive(Commanded(d, LoadRefused(task.book, track)));
    var l := Commanded(d, LoadAccepted(task.book, track));
    var needsSeek := np.seek.known > 0.0 || SpeedChanged(np.speed, 1.0);
    var p := if needsSeek then Commanded(l, PauseCommand(env.pauses)) else l;
    NoLivelierAlive(d, p);
    PollLoadAlive(p, task.(loadStage := LoadPreroll(track, isLocal, 0)), needsSeek, env);
  }

  lemma FinishStartAlive(s: State, task: Task, prepared: StartStage, loaded: bool, speed: real, env: Env)
    requires task.StartTask? && prepared.StartPreroll? && s.deck.pendingStart.Some?
    ensures Alive(FinishStart(s, task, prepared, loaded, speed, env).deck)
  {
    hide MarkAsFinished, ResetBookProgress;
    var np := StartedBook(task.book, prepared, loaded, s.deck.pendingStart.value.wantsPlay, speed, env.now);
    var d := if np.isPlaying then Commanded(s.deck, PlayCommand(env.plays)) else s.deck;
    FinishingAlive(s.(deck := d.(pendingStart := None, nowPlaying := Some(np)),
                      saving := s.saving.(lastProgressWrite := env.now, lastPlayedAt := env.now),
                      ticking := s.ticking || np.isPlaying), env);
  }

  lemma PollStartAlive(s: State, task: Task, env: Env)
    requires task.StartTask? && task.startStage.StartPreroll? && s.deck.nowPlaying.None?
    ensures Alive(PollStart(s, task, env).deck)
  {
    hide FinishStart, Recovering;
    if PendingIs(s.deck, task.generation) {
      var stage := task.startStage;
      var sped := s.(deck := Commanded(s.deck, SpeedCommand(task.speed, stage.within)));
      FinishStartAlive(sped, task, stage, true, if env.speedAccepted then task.speed else 1.0, env);
      FinishStartAlive(if stage.within > 0.0 then s.(deck := Commanded(s.deck, SeekCommand(stage.within))) else s, task, stage, true, 1.0, env);
    }
  }

  lemma ResumeStartAlive(s: State, task: Task, outcome: Outcome, env: Env)
    requires task.StartTask? && s.deck.nowPlaying.None?
    ensures Alive(ResumeStart(s, task, outcome, env).deck)
  {
    hide FinishStart, PollStart, StartPosition, LocateTrack, Recovering;
    if task.startStage.StartPreroll? {
      PollStartAlive(s, task, env);
    } else if PendingIs(s.deck, task.generation) && task.startStage.Placing? && outcome.Placed? {
      var target := task.startStage.target;
      var at := StartPosition(task.startStage.chapterStart, outcome.saved, target.duration);
      var (track, within) := if at.Some? then LocateTrack(target.tracks, at.value) else (0, 0.0);
      var d := s.deck.(loadGeneration := s.deck.loadGeneration + 1);
      var prepared := StartPreroll(target, track, within, d.loadGeneration, outcome.startIsLocal, 0);
      PollStartAlive(s.(deck := Commanded(Commanded(d, LoadAccepted(task.book, track)), PauseCommand(env.pauses))), task.(startStage := prepared), env);
      FinishStartAlive(s.(deck := ResetBackend(Commanded(d, LoadRefused(task.book, track)))), task, prepared, false, 1.0, env);
    }
  }

  /** With a book loaded, a start that is no longer pending changes nothing. */
  lemma SupersededStart(s: State, task: Task, outcome: Outcome, env: Env)
    requires task.StartTask? && s.deck.pendingStart.None?
    ensures ResumeStart(s, task, outcome, env) == s
  {
  }

  lemma TakenAlive(d: Deck, task: Task)
    requires Alive(d) && task in d.tasks && !task.Recovery?
    ensures Alive(Taken(d, task))
  {
    if Recovering(d) {
      var t :| t in d.tasks && t.Recovery? && t.generation == d.loadGeneration;
      assert t in Taken(d, task).tasks;
    }
  }

  lemma TakenBook(d: Deck, task: Task)
    ensures Taken(d, task).nowPlaying == d.nowPlaying && Taken(d, task).pendingStart == d.pendingStart
  {
  }

  /** A recovery that is still current finds the book it was started for. */
  lemma RecoveryIsAimed(asked: Option<Book>, d: Deck, task: Task)
    requires Safe(asked, d) && task in d.tasks && task.Recovery?
    ensures task.generation == d.loadGeneration && d.nowPlaying.Some? ==> d.nowPlaying.value.book == task.book
  {
    assert TaskOk(d, task);
  }

  lemma OvertakenAlive(d: Deck, task: Task)
    requires Alive(d) && task.Recovery? && task.generation != d.loadGeneration
    ensures Alive(Taken(d, task))
  {
    if Recovering(d) {
      var t :| t in d.tasks && t.Recovery? && t.generation == d.loadGeneration;
      assert t in Taken(d, task).tasks;
    }
  }

  /** A recovery that runs either loads, stops playback, or was overtaken by what keeps it alive. */
  lemma ResumeRecoveryAlive(asked: Option<Book>, s: State, task: Task, outcome: Outcome, now: Time)
    requires Alive(s.deck) && Safe(asked, s.deck) && task in s.deck.tasks && task.Recovery?
    ensures Alive(ResumeRecovery(s.(deck := Taken(s.deck, task)), task, outcome, now).deck)
  {
    hide Alive, Safe, LoadTrackAt;
    RecoveryIsAimed(asked, s.deck, task);
    var d := Taken(s.deck, task);
    if !outcome.Answered? {
      assert Spawn(d, task) == s.deck;
    } else if d.nowPlaying.None? {
      EmptyAlive(d);
    } else if d.loadGeneration != task.generation {
      OvertakenAlive(s.deck, task);
    } else {
      LoadingAlive(d, d.nowPlaying.value, task.track, task.within);
      SilentAlive(WithBook(d, d.nowPlaying.value.(isPlaying := false, hasError := true)));
    }
  }

  lemma SilentAlive(d: Deck)
    requires d.nowPlaying.Some? && !d.nowPlaying.value.isPlaying
    ensures Alive(d)
  {
  }

  lemma ResumePauseConfirmationAlive(d: Deck, task: Task, paused: bool)
    requires Alive(d) && task.PauseConfirmation?
    ensures Alive(ResumePauseConfirmation(d, task, paused))
  {
    hide Alive, Released;
    NoLivelierAlive(d, Spawn(d, task.(attempt := task.attempt + 1)));
    if d.nowPlaying.Some? && !d.nowPlaying.value.isPlaying { StoppedAlive(d, d.nowPlaying.value.(hasError := true, needsReload := true)); }
  }

  lemma ResumeLocalFileCheckAlive(d: Deck, task: Task, outcome: Outcome)
    requires Alive(d) && task.LocalFileCheck?
    ensures Alive(ResumeLocalFileCheck(d, task, outcome))
  {
    hide Alive, LoadTrackAt;
    NoLivelierAlive(d, Spawn(d, task));
    if d.nowPlaying.Some? { LoadingAlive(d, d.nowPlaying.value, task.track, d.nowPlaying.value.seek.known); }
  }

  lemma ResumeReconcileAlive(s: State, task: Task, outcome: Outcome, env: Env)
    requires Alive(s.deck) && task.Reconcile?
    ensures Alive(ResumeReconcile(s, task, outcome, env).deck)
  {
    hide Alive, SeekTo, WriteProgress;
    NoLivelierAlive(s.deck, Spawn(s.deck, task));
    var t := if s.saving.holdingWrites == Some(task.session) then s.(saving := s.saving.(holdingWrites := None)) else s;
    if outcome.Reconciled? && outcome.after.Some? { SeekToAlive(t, outcome.after.value.0, env); }
  }

  lemma SavedAlive(s: State, task: Task, outcome: Outcome, env: Env)
    requires Alive(s.deck) && (task.PausedSeekTimer? || task.PendingSync?)
    ensures Alive(Continue(s, task, outcome, env).deck)
  {
    hide Alive, WriteProgress;
    NoLivelierAlive(s.deck, Spawn(s.deck, task));
  }

  lemma ContinueAlive(asked: Option<Book>, s: State, task: Task, outcome: Outcome, env: Env)
    requires Alive(s.deck) && !task.Recovery? && (s.deck.pendingStart.None? || s.deck.nowPlaying.None?)
    requires task.ReplugTimer? ==> Safe(asked, s.deck)
    ensures Alive(Continue(s, task, outcome, env).deck)
  {
    hide Alive, Safe, ResumeStart, ResumeLoad, ResumePauseConfirmation, ResumeLocalFileCheck, ResumeReconcile, Play;
    match task
    case StartTask(_, _, _, _) =>
      if s.deck.nowPlaying.Some? { SupersededStart(s, task, outcome, env); } else { ResumeStartAlive(s, task, outcome, env); }
    case LoadTask(_, _, _) => ResumeLoadAlive(s.deck, task, outcome, env);
    case PauseConfirmation(_, _, _) => ResumePauseConfirmationAlive(s.deck, task, env.paused);
    case LocalFileCheck(_, _, _) => ResumeLocalFileCheckAlive(s.deck, task, outcome);
    case Reconcile(_, _, _, _) => ResumeReconcileAlive(s, task, outcome, env);
    case ReplugTimer(_) => if ReplugResumes(s, task) { PausedPlayAlive(asked, s.(marks := s.marks.(pausedByUnplug := false, log := s.marks.log + [ReplugResumed])), env); }
    case _ => SavedAlive(s, task, outcome, env);
  }

  /** What is paused can be asked to play, whether the backend then does or not. */
  lemma PausedPlayAlive(asked: Option<Book>, s: State, env: Env)
    requires Alive(s.deck) && Safe(asked, s.deck) && PlayingIntent(s.deck) != Some(true)
    ensures Alive(Play(s, env).deck)
  {
    hide Alive, Safe, Play;
    PlayAlive(asked, s, env);
  }

  lemma RecoveryContinues(s: State, task: Task, outcome: Outcome, env: Env)
    requires task.Recovery?
    ensures Continue(s, task, outcome, env) == ResumeRecovery(s, task, outcome, env.now)
  {
  }

  lemma ResumeTaskAlive(asked: Option<Book>, s: State, task: Task, outcome: Outcome, env: Env)
    requires Alive(s.deck) && Safe(asked, s.deck)
    ensures Alive(ResumeTask(s, task, outcome, env).deck)
  {
    hide Alive, Safe, Taken, Continue, ResumeRecovery;
    if task in s.deck.tasks {
      if task.Recovery? {
        ResumeRecoveryAlive(asked, s, task, outcome, env.now);
        RecoveryContinues(s.(deck := Taken(s.deck, task)), task, outcome, env);
      } else {
        TakenAlive(s.deck, task);
        BookInOrder(asked, s.deck);
        TakenBook(s.deck, task);
        if task.ReplugTimer? { ResumeAimedSafe(asked, s.deck, task); }
        ContinueAlive(asked, s.(deck := Taken(s.deck, task)), task, outcome, env);
      }
    }
  }

  // ---------------------------------------------------------------- every step

  /** The step asks a pipeline that is already playing to play, and the backend refuses. Toggles, calls
      and headphones never ask that, as they play only what is paused. */
  predicate RefusedStep(s: State, event: Event, env: Env) {
    match event
    case DoPlay => RefusedWhilePlaying(s.deck, env)
    case DoStart(book, _, chapter) => IsLoaded(s.deck, book) && RefusedWhilePlaying(PlayedFrom(s, chapter, env).deck, env)
    case _ => false
  }

  /** Every step keeps a player that says it is playing alive, whatever the backend refuses, except
      exactly that one. */
  lemma StepAliveIff(asked: Option<Book>, s: State, event: Event, env: Env)
    requires Alive(s.deck) && Safe(asked, s.deck)
    ensures Alive(Step(s, event, env).deck) <==> !RefusedStep(s, event, env)
  {
    hide Alive, Safe, StartWith, Play, Pause, SeekTo, SetSpeed, MarkAsFinished, ResetBookProgress, Tick, ResumeTask, SleepInMinutes,
         SleepAtEndOfChapter, CancelSleepTimer, WriteProgress, WriteProgressNow, RefusedWhilePlaying, PlayedFrom, IsLoaded;
    match event
    case DoStart(book, speed, chapter) => StartWithAliveIff(asked, s, book, speed, chapter, env);
    case DoPlay => PlayIsAliveUnlessRefused(asked, s, env);
    case DoPause => PauseAlive(s, env);
    case DoToggle => ToggleAlive(asked, s, env);
    case DoExternalToggle => ToggleAlive(asked, s, env);
    case DoSeek(seconds) => SeekToAlive(s, seconds, env);
    case DoSetSpeed(speed) => SettingsAlive(s, speed, 0, env);
    case DoSleepMinutes(minutes) => SettingsAlive(s, 1.0, minutes, env);
    case DoSleepChapter => SettingsAlive(s, 1.0, 0, env);
    case DoCancelSleep => SettingsAlive(s, 1.0, 0, env);
    case DoMarkFinished => FinishingAlive(s, env);
    case DoReset => FinishingAlive(s, env);
    case DoSyncPending => if s.deck.nowPlaying.Some? {
      NoLivelierAlive(s.deck, Spawn(s.deck, PendingSync(s.deck.nowPlaying.value.book, s.deck.sessionGeneration)));
    }
    case DoRetire => EmptyAlive(Step(s, event, env).deck);
    case DoUnplug => PauseAlive(s.(marks := RouteChanged(s.marks)), env);
    case DoReplug => NoLivelierAlive(s.deck, Spawn(s.deck, ReplugTimer(RouteChanged(s.marks).routeEventSeq)));
    case DoCallStart => PauseAlive(s, env);
    case DoCallEnd(answered, outgoing) => if CallResumes(s, answered, outgoing) {
      PausedPlayAlive(asked, s.(marks := s.marks.(pausedByCall := false, log := s.marks.log + [CallResumed])), env);
    }
    case DoTick => TickAlive(s, env);
    case DoResume(task, outcome) => ResumeTaskAlive(asked, s, task, outcome, env);
    case _ =>
  }

  lemma ToggleAlive(asked: Option<Book>, s: State, env: Env)
    requires Alive(s.deck) && Safe(asked, s.deck)
    ensures Alive(TogglePlayPause(s, env).deck)
  {
    hide Alive, Safe, Play, Pause;
    PauseAlive(s, env);
    if PlayingIntent(s.deck) != Some(true) { PausedPlayAlive(asked, s, env); }
  }

  predicate RefusedDuring(s: State, events: seq<(Event, Env)>)
    decreases |events|
  {
    events != [] && (RefusedStep(s, events[0].0, events[0].1) || RefusedDuring(Step(s, events[0].0, events[0].1), events[1..]))
  }

  lemma {:induction false} RunAlive(asked: Option<Book>, s: State, events: seq<(Event, Env)>)
    requires Alive(s.deck) && Safe(asked, s.deck) && !RefusedDuring(s, events)
    ensures Alive(Run(s, events).deck)
    decreases |events|
  {
    hide Alive, Safe, Step, RefusedStep;
    if events != [] {
      StepAliveIff(asked, s, events[0].0, events[0].1);
      StepSafe(asked, s, events[0].0, events[0].1);
      RunAlive(AskedAfter(asked, events[0].0), Step(s, events[0].0, events[0].1), events[1..]);
    }
  }

  /** In every run, whatever else the backend refuses, in which it does not refuse to play what is
      already playing: a player that says it is playing has a file it can use, a load on its way, or
      a recovery still to run. */
  lemma {:induction false} PlayingHasSomethingToPlay(now: Time, events: seq<(Event, Env)>)
    requires !RefusedDuring(Initial(now), events)
    ensures Alive(Run(Initial(now), events).deck)
  {
    hide Run, RefusedDuring;
    InitialSafe(now);
    RunAlive(None, Initial(now), events);
  }

  /** `play` keeps the player alive in every state and for every answer except one: the backend
      refuses to play a pipeline that is playing. The book then still shows as playing, nothing is
      loaded, loading or recovering, and only another pause and play brings it back. */
  lemma PlayIsAliveUnlessRefused(asked: Option<Book>, s: State, env: Env)
    requires Alive(s.deck) && Safe(asked, s.deck)
    ensures Alive(Play(s, env).deck) <==> !RefusedWhilePlaying(s.deck, env)
  {
    hide Play, Alive, Safe, RefusedWhilePlaying;
    if RefusedWhilePlaying(s.deck, env) {
      PlayRefused(asked, s, env);
    } else {
      PlayAlive(asked, s, env);
    }
  }

  lemma PlayRefused(asked: Option<Book>, s: State, env: Env)
    requires Safe(asked, s.deck) && RefusedWhilePlaying(s.deck, env)
    ensures !Alive(Play(s, env).deck)
  {
    hide PrepareToResume, ReconcileBeforeResuming, Within, PlayBackend;
    var t := s.(marks := ClearMarks(s.marks, PlayAsked));
    Untouched(t, env);
    RefusedBackend(asked, ApplyDeferredSpeed(t, env), s.deck);
  }

  lemma Untouched(s: State, env: Env)
    requires s.deck.nowPlaying.Some? && s.deck.nowPlaying.value.isPlaying
    ensures PrepareToResume(ReconcileBeforeResuming(s, env), env) == s
  {
  }

  lemma RefusedBackend(asked: Option<Book>, s: State, before: Deck)
    requires Safe(asked, before) && s.deck.tasks == before.tasks && s.deck.loadGeneration == before.loadGeneration
    requires s.deck.nowPlaying.Some? && s.deck.nowPlaying.value.isPlaying
    ensures !Alive(PlayBackend(s, false).deck)
  {
    var e := PlayBackend(s, false).deck;
    forall t | t in e.tasks && t.Recovery? ensures t.generation != e.loadGeneration { assert TaskOk(before, t); }
  }
}
