/** What every run of the player keeps about its backend: which file it holds, which suspended
    task may still act on it, and which book ends up loaded. */
module PlayerSafety {
  import opened Prelude
  import opened PlayerTypes
  import opened PlayerSpec

  /** A book that failed to start has no files and can only be started again; any other one has a
      current file. A load in flight is always the newest thing asked of the backend. */
  ghost predicate BookOk(d: Deck) {
    d.nowPlaying.Some? ==>
      var np := d.nowPlaying.value;
      && (np.tracks == [] <==> np.retryRequest.Some?)
      && (np.tracks == [] ==> !np.isPlaying)
      && (np.tracks != [] ==> np.currentTrack < |np.tracks|)
      && (np.loadingTrack.Some? ==> np.loadingTrack.value == d.loadGeneration)
  }

  /** What a suspended task may rely on when it is resumed. */
  ghost predicate TaskOk(d: Deck, t: Task) {
    match t
    case StartTask(generation, book, _, stage) =>
      && generation <= d.sessionGeneration
      && d.tasks[t] == 1
      && (PendingIs(d, generation) ==>
            && d.pendingStart.value.book == book
            && (stage.Placing? ==> stage.target.tracks != [])
            && (stage.StartPreroll? ==>
                  && stage.target.tracks != [] && stage.track < |stage.target.tracks|
                  && stage.loadGeneration == d.loadGeneration
                  && d.held == Some((book, stage.track))))
    case LoadTask(book, generation, stage) =>
      && generation <= d.loadGeneration
      && (d.nowPlaying.Some? && d.nowPlaying.value.loadingTrack == Some(generation) ==>
            && d.nowPlaying.value.book == book
            && (stage.Connecting? ==> stage.track == d.nowPlaying.value.currentTrack)
            && (stage.LoadPreroll? ==>
                  && stage.loadedTrack == d.nowPlaying.value.currentTrack
                  && d.held == Some((book, stage.loadedTrack))))
    case LocalFileCheck(book, track, generation) => AimOk(d, book, track, generation)
    case Recovery(book, track, _, generation) =>
      && AimOk(d, book, track, generation)
      && (d.loadGeneration == generation && d.nowPlaying.Some? ==> d.nowPlaying.value.needsReload && d.nowPlaying.value.loadingTrack.None?)
    case _ => true
  }

  ghost predicate AimOk(d: Deck, book: Book, track: nat, generation: nat) {
    && generation <= d.loadGeneration
    && (d.pendingStart.Some? ==> generation < d.loadGeneration)
    && (d.loadGeneration == generation && d.nowPlaying.Some? ==>
          && d.nowPlaying.value.book == book && d.nowPlaying.value.currentTrack == track)
  }

  ghost predicate TasksOk(d: Deck) {
    && (forall t | t in d.tasks :: TaskOk(d, t))
    && (forall t, u | t in d.tasks && u in d.tasks && t.StartTask? && u.StartTask? && t.generation == u.generation :: t == u)
  }

  ghost predicate StartAttended(d: Deck) {
    d.pendingStart.Some? ==>
      && d.pendingStart.value.generation == d.sessionGeneration
      && exists t :: t in d.tasks && t.StartTask? && t.generation == d.pendingStart.value.generation
  }

  ghost predicate LoadAttended(d: Deck) {
    d.nowPlaying.Some? && d.nowPlaying.value.loadingTrack.Some? && d.nowPlaying.value.tracks != [] ==>
      exists t :: t in d.tasks && t.LoadTask? && Some(t.generation) == d.nowPlaying.value.loadingTrack
  }

  /** The book held, or being started, is the one last asked for. */
  ghost predicate AskedOk(asked: Option<Book>, d: Deck) {
    && !(d.nowPlaying.Some? && d.pendingStart.Some?)
    && (d.pendingStart.Some? ==> asked == Some(d.pendingStart.value.book))
    && (d.nowPlaying.Some? ==> asked == Some(d.nowPlaying.value.book))
    && (d.pendingStart.None? && d.nowPlaying.None? ==> asked.None?)
  }

  /** Everything but the last two attendances, which a task taken out to run leaves open. */
  ghost predicate Loose(asked: Option<Book>, d: Deck) { BookOk(d) && TasksOk(d) && AskedOk(asked, d) }

  ghost predicate Core(asked: Option<Book>, d: Deck) { Loose(asked, d) && StartAttended(d) && LoadAttended(d) }

  /** Whenever the player believes the backend usable, the last file it accepted since it was last
      released is the current file of the current book. */
  ghost predicate BackendOk(d: Deck) {
    d.nowPlaying.Some? && HoldsTrack(d.nowPlaying.value) ==>
      d.held == Some((d.nowPlaying.value.book, d.nowPlaying.value.currentTrack))
  }

  ghost predicate Safe(asked: Option<Book>, d: Deck) { Core(asked, d) && BackendOk(d) }

  // ---------------------------------------------------------------- what does not matter

  /** `e` differs from `d` in nothing the load protocol depends on. */
  ghost predicate SameAim(d: Deck, e: Deck) {
    && e.sessionGeneration == d.sessionGeneration && e.loadGeneration == d.loadGeneration
    && e.held == d.held && e.tasks == d.tasks
    && e.pendingStart.Some? == d.pendingStart.Some?
    && (d.pendingStart.Some? ==>
          && e.pendingStart.value.generation == d.pendingStart.value.generation
          && e.pendingStart.value.book == d.pendingStart.value.book)
    && e.nowPlaying.Some? == d.nowPlaying.Some?
    && (d.nowPlaying.Some? ==> SameFile(d.nowPlaying.value, e.nowPlaying.value))
  }

  /** The same file of the same book, trusted no more than before. */
  ghost predicate SameFile(a: NowPlaying, b: NowPlaying) {
    && b.book == a.book && b.tracks == a.tracks && b.currentTrack == a.currentTrack
    && b.loadingTrack == a.loadingTrack && b.retryRequest == a.retryRequest
    && (a.needsReload ==> b.needsReload)
    && (b.tracks == [] ==> !b.isPlaying)
  }

  lemma SameAimKeeps(asked: Option<Book>, d: Deck, e: Deck)
    requires SameAim(d, e)
    ensures Core(asked, d) ==> Core(asked, e)
    ensures Safe(asked, d) ==> Safe(asked, e)
  {
    if Core(asked, d) {
      forall t | t in e.tasks ensures TaskOk(e, t) { assert TaskOk(d, t); }
    }
  }

  lemma SpawnKeeps(asked: Option<Book>, d: Deck, t: Task)
    requires !t.StartTask? && TaskOk(Spawn(d, t), t)
    ensures Core(asked, d) ==> Core(asked, Spawn(d, t))
    ensures Safe(asked, d) ==> Safe(asked, Spawn(d, t))
  {
    var e := Spawn(d, t);
    if Core(asked, d) {
      forall x | x in e.tasks ensures TaskOk(e, x) { if x in d.tasks { assert TaskOk(d, x); } }
      assert forall x :: x in d.tasks ==> x in e.tasks;
    }
  }

  // ---------------------------------------------------------------- releasing and loading

  /** Releasing the backend with no start in flight invalidates whatever was about to act on it. */
  lemma ReleasedSafe(asked: Option<Book>, d: Deck, np: NowPlaying)
    requires Loose(asked, d) && d.pendingStart.None? && d.nowPlaying.Some?
    requires SameFile(d.nowPlaying.value, np.(loadingTrack := d.nowPlaying.value.loadingTrack)) && (np.needsReload || np.tracks == [])
    ensures Safe(asked, Released(d, np))
  {
    var e := Released(d, np);
    forall t | t in e.tasks ensures TaskOk(e, t) { assert TaskOk(d, t); }
  }

  lemma ReleasedEmptySafe(asked: Option<Book>, d: Deck)
    requires Core(asked, d) && d.pendingStart.None? && d.nowPlaying.None?
    ensures Safe(asked, ResetBackend(d))
  {
    var e := ResetBackend(d);
    forall t | t in e.tasks ensures TaskOk(e, t) { assert TaskOk(d, t); }
  }

  lemma LoadTrackAtSafe(asked: Option<Book>, d: Deck, np: NowPlaying, track: nat, within: real)
    requires Loose(asked, d) && d.nowPlaying.Some?
    requires np.book == d.nowPlaying.value.book && np.tracks == d.nowPlaying.value.tracks && np.retryRequest == d.nowPlaying.value.retryRequest
    requires np.tracks == [] ==> !np.isPlaying
    requires np.tracks != [] ==> track < |np.tracks|
    ensures Safe(asked, LoadTrackAt(d, np, track, within))
  {
    var e := LoadTrackAt(d, np, track, within);
    var spawned := LoadTask(np.book, e.loadGeneration, Spawned);
    assert spawned in e.tasks;
    forall t | t in e.tasks ensures TaskOk(e, t) { if t != spawned { assert TaskOk(d, t); } }
  }

  lemma BeginStartSafe(asked: Option<Book>, d: Deck, book: Book, speed: real, chapter: Option<nat>)
    requires Loose(asked, d)
    ensures Safe(Some(book), BeginStart(d, book, speed, chapter))
  {
    var e := BeginStart(d, book, speed, chapter);
    var spawned := StartTask(d.sessionGeneration + 1, book, UsableSpeed(speed), Resolving);
    assert spawned in e.tasks;
    forall t | t in d.tasks ensures t != spawned { assert TaskOk(d, t); }
    forall t | t in e.tasks ensures TaskOk(e, t) { if t != spawned { assert TaskOk(d, t); } }
    forall t, u | t in e.tasks && u in e.tasks && t.StartTask? && u.StartTask? && t.generation == u.generation ensures t == u {
      if t != spawned { assert TaskOk(d, t); }
      if u != spawned { assert TaskOk(d, u); }
    }
  }

  // ---------------------------------------------------------------- the controller's operations

  lemma StartNewSafe(asked: Option<Book>, s: State, book: Book, speed: real, chapter: Option<nat>, env: Env)
    requires Safe(asked, s.deck)
    ensures Safe(Some(book), StartNew(s, book, speed, chapter, env).deck)
  {
    if IsPending(s.deck, book) {
      SameAimKeeps(asked, s.deck, StartNew(s, book, speed, chapter, env).deck);
    } else {
      BeginStartSafe(asked, s.deck, book, speed, chapter);
    }
  }

  lemma SeekDeckSafe(asked: Option<Book>, d: Deck, np: NowPlaying, track: nat, within: real, now: Time)
    requires Safe(asked, d) && d.nowPlaying.Some? && SameFile(d.nowPlaying.value, np) && track < |np.tracks|
    ensures Safe(asked, SeekDeck(d, np, track, within, now))
  {
    hide TasksOk;
    var c := d.(seekCount := d.seekCount + 1);
    SameAimKeeps(asked, d, c);
    if track != np.currentTrack {
      LoadTrackAtSafe(asked, c, np, track, within);
    } else if np.loadingTrack.Some? || np.needsReload {
      SameAimKeeps(asked, c, SeekDeck(d, np, track, within, now));
    } else {
      var issued := np.(seek := SeekState(within, true, Some(now), 0, np.seek.reloadUsed));
      var sent := WithBook(Commanded(c, SeekCommand(within)), issued);
      SameAimKeeps(asked, c, sent);
      SpawnKeeps(asked, sent, LocalFileCheck(np.book, track, d.loadGeneration));
    }
  }

  lemma SavePausedSeekLaterSafe(asked: Option<Book>, s: State)
    requires Safe(asked, s.deck)
    ensures Safe(asked, SavePausedSeekLater(s).deck)
  {
    hide Safe;
    SpawnKeeps(asked, s.deck, PausedSeekTimer(s.saving.pausedSeekGeneration + 1));
  }

  lemma SeekLoadedSafe(asked: Option<Book>, s: State, target: real, env: Env)
    requires Safe(asked, s.deck) && s.deck.nowPlaying.Some? && s.deck.nowPlaying.value.tracks != []
    ensures Safe(asked, SeekLoaded(s, target, env).deck)
  {
    var np := Retargeted(s.deck.nowPlaying.value, target);
    var (track, within) := LocateTrack(np.tracks, target);
    SeekDeckSafe(asked, s.deck, np, track, within, env.now);
  }

  lemma SeekToSafe(asked: Option<Book>, s: State, seconds: real, env: Env)
    requires Safe(asked, s.deck)
    ensures Safe(asked, SeekTo(s, seconds, env).deck)
  {
    if s.deck.nowPlaying.Some? && s.deck.nowPlaying.value.tracks != [] {
      var target := ClampToBook(seconds, s.deck.nowPlaying.value.duration);
      SeekLoadedSafe(asked, s, target, env);
      SavePausedSeekLaterSafe(asked, SeekLoaded(s, target, env));
    }
  }

  lemma ReconcileBeforeResumingSafe(asked: Option<Book>, s: State, env: Env)
    requires Safe(asked, s.deck)
    ensures Safe(asked, ReconcileBeforeResuming(s, env).deck)
  {
    if ReconcileDue(s, env) {
      SpawnKeeps(asked, s.deck, Reconcile(s.deck.nowPlaying.value.book, BookPosition(s.deck, env.reading), s.deck.sessionGeneration, s.deck.seekCount));
    }
  }

  lemma PrepareToResumeSafe(asked: Option<Book>, s: State, env: Env)
    requires Safe(asked, s.deck) && s.deck.pendingStart.None?
    ensures Safe(asked, PrepareToResume(s, env).deck)
  {
    if PrepareToResume(s, env).deck != s.deck {
      var np := s.deck.nowPlaying.value;
      ReleasedSafe(asked, s.deck, np.(needsReload := true, seek := np.seek.(known := Within(np.seek, env.reading))));
    }
  }

  lemma ApplyDeferredSpeedSafe(asked: Option<Book>, s: State, env: Env)
    requires Safe(asked, s.deck)
    ensures Safe(asked, ApplyDeferredSpeed(s, env).deck)
  {
    SameAimKeeps(asked, s.deck, ApplyDeferredSpeed(s, env).deck);
  }

  lemma PlayBackendSafe(asked: Option<Book>, s: State, accepted: bool)
    requires Safe(asked, s.deck) && s.deck.pendingStart.None? && s.deck.nowPlaying.Some? && s.deck.nowPlaying.value.tracks != []
    ensures Safe(asked, PlayBackend(s, accepted).deck)
  {
    hide TasksOk;
    var np := s.deck.nowPlaying.value;
    var d := Commanded(s.deck, PlayCommand(accepted));
    SameAimKeeps(asked, s.deck, d);
    if accepted { SameAimKeeps(asked, d, PlayBackend(s, accepted).deck); }
    else { ReleasedSafe(asked, d, np.(hasError := true, needsReload := true)); }
  }

  lemma ResumeBackendSafe(asked: Option<Book>, s: State, env: Env)
    requires Safe(asked, s.deck) && s.deck.pendingStart.None? && s.deck.nowPlaying.Some? && s.deck.nowPlaying.value.tracks != []
    ensures Safe(asked, ResumeBackend(s, env).deck)
  {
    hide TasksOk;
    var np := s.deck.nowPlaying.value;
    if np.loadingTrack.Some? {
      SameAimKeeps(asked, s.deck, ResumeBackend(s, env).deck);
    } else if np.needsReload {
      LoadTrackAtSafe(asked, s.deck, np.(isPlaying := true, hasError := false), np.currentTrack, np.seek.known);
    } else {
      ApplyDeferredSpeedSafe(asked, s, env);
      PlayBackendSafe(asked, ApplyDeferredSpeed(s, env), env.accepted);
    }
  }

  lemma ResumeSafe(asked: Option<Book>, s: State, env: Env)
    requires Safe(asked, s.deck) && s.deck.pendingStart.None?
    requires s.deck.nowPlaying.Some? ==> s.deck.nowPlaying.value.tracks != []
    ensures Safe(asked, Resume(s, env).deck)
  {
    ReconcileBeforeResumingSafe(asked, s, env);
    var t := ReconcileBeforeResuming(s, env);
    PrepareToResumeSafe(asked, t, env);
    var u := PrepareToResume(t, env);
    if u.deck.nowPlaying.Some? { ResumeBackendSafe(asked, u, env); }
  }

  lemma PlaySafe(asked: Option<Book>, s: State, env: Env)
    requires Safe(asked, s.deck)
    ensures Safe(asked, Play(s, env).deck)
  {
    var t := s.(marks := ClearMarks(s.marks, PlayAsked));
    var d := s.deck;
    if d.pendingStart.Some? {
      SameAimKeeps(asked, d, PlayMarked(t, env).deck);
    } else if d.nowPlaying.Some? && d.nowPlaying.value.retryRequest.Some? {
      StartNewSafe(asked, t, d.nowPlaying.value.book, d.nowPlaying.value.retryRequest.value, None, env);
    } else if d.nowPlaying.Some? && d.nowPlaying.value.ended && d.nowPlaying.value.tracks != [] {
      LoadTrackAtSafe(asked, d, d.nowPlaying.value.(ended := false, isPlaying := true, hasError := false), 0, 0.0);
    } else {
      ResumeSafe(asked, t, env);
    }
  }

  lemma StartWithSafe(asked: Option<Book>, s: State, book: Book, speed: real, chapter: Option<nat>, env: Env)
    requires Safe(asked, s.deck)
    ensures Safe(Some(book), StartWith(s, book, speed, chapter, env).deck)
  {
    if !IsLoaded(s.deck, book) {
      StartNewSafe(asked, s, book, speed, chapter, env);
    } else {
      var chapters := s.deck.nowPlaying.value.chapters;
      if chapter.Some? && chapter.value < |chapters| {
        var at := Max(chapters[chapter.value].start, 0.0);
        SeekToSafe(asked, s, at, env);
        PlaySafe(asked, SeekTo(s, at, env), env);
      } else {
        PlaySafe(asked, s, env);
      }
    }
  }

  lemma PauseBackendSafe(asked: Option<Book>, d: Deck, accepted: bool)
    requires Safe(asked, d) && d.pendingStart.None?
    ensures Safe(asked, PauseBackend(d, accepted))
  {
    var c := Commanded(d, PauseCommand(accepted));
    SameAimKeeps(asked, d, c);
    if d.nowPlaying.None? {
      if accepted { SpawnKeeps(asked, c, PauseConfirmation(c.loadGeneration, c.seekCount, 0)); } else { ReleasedEmptySafe(asked, c); }
    } else {
      var np := d.nowPlaying.value.(isPlaying := false);
      if np.needsReload || np.loadingTrack.Some? {
        SameAimKeeps(asked, d, WithBook(d, np));
      } else if accepted {
        SameAimKeeps(asked, c, WithBook(c, np));
        SpawnKeeps(asked, WithBook(c, np), PauseConfirmation(d.loadGeneration, d.seekCount, 0));
      } else {
        ReleasedSafe(asked, c, np.(hasError := true, needsReload := true));
      }
    }
  }

  lemma PauseSafe(asked: Option<Book>, s: State, env: Env)
    requires Safe(asked, s.deck)
    ensures Safe(asked, Pause(s, env).deck)
  {
    if s.deck.pendingStart.Some? { SameAimKeeps(asked, s.deck, Pause(s, env).deck); } else { PauseBackendSafe(asked, s.deck, env.accepted); }
  }

  lemma MarkAsFinishedSafe(asked: Option<Book>, s: State, env: Env)
    requires Safe(asked, s.deck)
    ensures Safe(asked, MarkAsFinished(s, env).deck)
  {
    SameAimKeeps(asked, s.deck, MarkAsFinished(s, env).deck);
  }

  lemma ResetBookProgressSafe(asked: Option<Book>, s: State, env: Env)
    requires Safe(asked, s.deck)
    ensures Safe(asked, ResetBookProgress(s, env).deck)
  {
    if s.deck.pendingStart.Some? { SameAimKeeps(asked, s.deck, ResetBookProgress(s, env).deck); } else { SeekToSafe(asked, s, 0.0, env); }
  }

  lemma SetSpeedSafe(asked: Option<Book>, s: State, speed: real, env: Env)
    requires Safe(asked, s.deck)
    ensures Safe(asked, SetSpeed(s, speed, env).deck)
  {
    SameAimKeeps(asked, s.deck, SetSpeed(s, speed, env).deck);
  }

  lemma RetireSafe(asked: Option<Book>, s: State, env: Env)
    requires Safe(asked, s.deck)
    ensures Safe(None, Retire(s, env).deck)
  {
    var e := Retire(s, env).deck;
    forall t | t in e.tasks ensures TaskOk(e, t) { assert TaskOk(s.deck, t); }
  }

  // ---------------------------------------------------------------- the tick

  lemma JudgeEndOfStreamFile(np: NowPlaying, reading: Option<real>, fileLength: Option<real>)
    requires np.tracks == [] ==> !np.isPlaying
    ensures SameFile(np, JudgeEndOfStream(np, reading, fileLength).book)
  {
  }

  lemma ObservePositionSafe(asked: Option<Book>, s: State, env: Env)
    requires Safe(asked, s.deck)
    ensures Safe(asked, ObservePosition(s, env).deck)
  {
    hide TasksOk, ObserveSeek, LoadTrackAt, Released;
    if env.observed.Some? && s.deck.nowPlaying.Some? && s.deck.nowPlaying.value.loadingTrack.None? {
      var Observation(k, verdict) := ObserveSeek(s.deck.nowPlaying.value.seek, env.observed.value, env.fileLength, env.now);
      var np := s.deck.nowPlaying.value.(seek := k);
      match verdict
      case Quiet => SameAimKeeps(asked, s.deck, WithBook(s.deck, np));
      case Reissue(target) => SameAimKeeps(asked, s.deck, Commanded(WithBook(s.deck, np), SeekCommand(target)));
      case Reload(target) => LoadTrackAtSafe(asked, s.deck, np, np.currentTrack, target);
      case Stop => ReleasedSafe(asked, s.deck, np.(isPlaying := false, needsReload := true, hasError := true));
    }
  }

  lemma HandleStreamErrorSafe(asked: Option<Book>, s: State, np: NowPlaying, env: Env)
    requires Safe(asked, s.deck) && s.deck.nowPlaying.Some? && SameFile(s.deck.nowPlaying.value, np)
    ensures Safe(asked, HandleStreamError(s, np, env).deck)
  {
    hide TasksOk, WithinTrack;
    var within := Max(WithinTrack(np, env.reading), 0.0);
    var stopped := np.(needsReload := true, seek := np.seek.(known := within),
                       isPlaying := np.isPlaying && !np.sourceIsLocal, hasError := np.hasError || np.sourceIsLocal);
    ReleasedSafe(asked, s.deck, stopped);
    var d := Released(s.deck, stopped);
    SpawnKeeps(asked, d, Recovery(np.book, np.currentTrack, within, d.loadGeneration));
  }

  lemma EndTickSafe(asked: Option<Book>, s: State, env: Env)
    requires Safe(asked, s.deck)
    ensures Safe(asked, EndTick(s, env).deck)
  {
    hide TasksOk;
    if SleepTimerReached(s.deck, env) { SameAimKeeps(asked, s.deck, SleepNow(s, env).deck); }
  }

  lemma StopUnclearSafe(asked: Option<Book>, s: State, np: NowPlaying, within: real, env: Env)
    requires Safe(asked, s.deck) && s.deck.nowPlaying.Some? && SameFile(s.deck.nowPlaying.value, np)
    ensures Safe(asked, StopUnclear(s, np, within, env).deck)
  {
    hide TasksOk, WriteProgress;
    ReleasedSafe(asked, s.deck, np.(isPlaying := false, needsReload := true, seek := np.seek.(known := within, pending := false)));
  }

  lemma FinishBookSafe(asked: Option<Book>, s: State, np: NowPlaying, env: Env)
    requires Safe(asked, s.deck) && s.deck.nowPlaying.Some? && SameFile(s.deck.nowPlaying.value, np)
    ensures Safe(asked, FinishBook(s.(deck := WithBook(s.deck, np)), env).deck)
  {
    hide Safe, WriteProgressNow;
    SameAimKeeps(asked, s.deck, FinishBook(s.(deck := WithBook(s.deck, np)), env).deck);
  }

  lemma MovedOnSafe(asked: Option<Book>, d: Deck, np: NowPlaying, track: nat)
    requires Safe(asked, d) && d.nowPlaying.Some? && SameFile(d.nowPlaying.value, np) && track < |np.tracks|
    ensures Safe(asked, LoadTrackAt(d, np, track, 0.0))
  {
    hide TasksOk, LoadTrackAt;
    LoadTrackAtSafe(asked, d, np, track, 0.0);
  }

  lemma PlaylessBook(asked: Option<Book>, d: Deck)
    requires Safe(asked, d)
    ensures d.nowPlaying.Some? && d.nowPlaying.value.tracks == [] ==> !d.nowPlaying.value.isPlaying
  {
  }

  lemma HandleEndOfStreamSafe(asked: Option<Book>, s: State, env: Env)
    requires Safe(asked, s.deck) && s.deck.nowPlaying.Some?
    ensures Safe(asked, HandleEndOfStream(s, env).deck)
  {
    hide Safe, SameFile, JudgeEndOfStream, HandleStreamError, StopUnclear, FinishBook, LoadTrackAt, EndTick;
    var Judgement(np, verdict) := JudgeEndOfStream(s.deck.nowPlaying.value, env.reading, env.fileLength);
    PlaylessBook(asked, s.deck);
    JudgeEndOfStreamFile(s.deck.nowPlaying.value, env.reading, env.fileLength);
    match verdict
    case Unclear(within) => StopUnclearSafe(asked, s, np, within, env);
    case Premature =>
      HandleStreamErrorSafe(asked, s, np, env);
      EndTickSafe(asked, HandleStreamError(s, np, env), env);
    case RealEnd =>
      if np.currentTrack + 1 < |np.tracks| {
        MovedOnSafe(asked, s.deck, np, np.currentTrack + 1);
      } else {
        FinishBookSafe(asked, s, np, env);
        EndTickSafe(asked, FinishBook(s.(deck := WithBook(s.deck, np)), env), env);
      }
  }

  lemma TickSafe(asked: Option<Book>, s: State, env: Env)
    requires Safe(asked, s.deck)
    ensures Safe(asked, Tick(s, env).deck)
  {
    hide Safe, HandleEndOfStream, ObservePosition, HandleStreamError;
    if s.deck.nowPlaying.Some? {
      ObservePositionSafe(asked, s, env);
      var o := ObservePosition(s, env);
      var t := o.(deferredEvent := None);
      var event := NextEvent(o.deferredEvent, env.polled);
      if t.deck.nowPlaying.None? || event.None? {
        EndTickSafe(asked, t, env);
      } else if event.value.StreamError? {
        SameFileItself(asked, t.deck);
        HandleStreamErrorSafe(asked, t, t.deck.nowPlaying.value, env);
        EndTickSafe(asked, HandleStreamError(t, t.deck.nowPlaying.value, env), env);
      } else {
        HandleEndOfStreamSafe(asked, t, env);
      }
    }
  }

  lemma SameFileItself(asked: Option<Book>, d: Deck)
    requires Safe(asked, d) && d.nowPlaying.Some?
    ensures SameFile(d.nowPlaying.value, d.nowPlaying.value)
  {
  }

  // ---------------------------------------------------------------- tasks taken out to run

  /** Taking a task out leaves the rest in order, and open only what the task itself attends. */
  lemma TakenLoose(asked: Option<Book>, d: Deck, task: Task)
    requires Core(asked, d) && task in d.tasks
    ensures Loose(asked, Taken(d, task))
    ensures !task.StartTask? || !PendingIs(d, task.generation) ==> StartAttended(Taken(d, task))
    ensures !task.LoadTask? || d.nowPlaying.None? || d.nowPlaying.value.loadingTrack != Some(task.generation) ==> LoadAttended(Taken(d, task))
    ensures task.StartTask? ==> forall t | t in Taken(d, task).tasks && t.StartTask? :: t.generation != task.generation
  {
    hide TaskOk, BookOk;
    TakenTasks(asked, d, task);
    StillAttended(d, task);
  }

  lemma TakenTasks(asked: Option<Book>, d: Deck, task: Task)
    requires Loose(asked, d) && task in d.tasks
    ensures Loose(asked, Taken(d, task))
    ensures task.StartTask? ==> forall t | t in Taken(d, task).tasks && t.StartTask? :: t.generation != task.generation
  {
    var e := Taken(d, task);
    assert TaskOk(d, task);
    forall t | t in e.tasks ensures TaskOk(e, t) { assert TaskOk(d, t); }
  }

  lemma StillAttended(d: Deck, task: Task)
    requires StartAttended(d) && LoadAttended(d)
    ensures !task.StartTask? || !PendingIs(d, task.generation) ==> StartAttended(Taken(d, task))
    ensures !task.LoadTask? || d.nowPlaying.None? || d.nowPlaying.value.loadingTrack != Some(task.generation) ==> LoadAttended(Taken(d, task))
  {
    var e := Taken(d, task);
    if d.pendingStart.Some? && (!task.StartTask? || !PendingIs(d, task.generation)) {
      var t :| t in d.tasks && t.StartTask? && t.generation == d.pendingStart.value.generation;
      assert t in e.tasks;
    }
    if d.nowPlaying.Some? && d.nowPlaying.value.loadingTrack.Some? && d.nowPlaying.value.tracks != []
       && (!task.LoadTask? || d.nowPlaying.value.loadingTrack != Some(task.generation)) {
      var t :| t in d.tasks && t.LoadTask? && Some(t.generation) == d.nowPlaying.value.loadingTrack;
      assert t in e.tasks;
    }
  }

  lemma RespawnLoad(asked: Option<Book>, d: Deck, task: Task)
    requires Loose(asked, d) && task.LoadTask? && d.nowPlaying.Some? && d.nowPlaying.value.loadingTrack == Some(task.generation)
    requires TaskOk(d, task)
    ensures Safe(asked, Spawn(d, task))
  {
    var e := Spawn(d, task);
    assert task in e.tasks;
    forall t | t in e.tasks ensures TaskOk(e, t) { if t != task { assert TaskOk(d, t); } }
  }

  lemma RespawnStart(asked: Option<Book>, d: Deck, task: Task)
    requires Loose(asked, d) && task.StartTask? && PendingIs(d, task.generation) && task.generation == d.sessionGeneration
    requires TaskOk(d.(tasks := multiset{task}), task)
    requires forall t | t in d.tasks && t.StartTask? :: t.generation != task.generation
    ensures Safe(asked, Spawn(d, task))
  {
    var e := Spawn(d, task);
    assert task in e.tasks;
    forall t | t in e.tasks ensures TaskOk(e, t) { if t != task { assert TaskOk(d, t); } }
  }

  lemma SettleLoadSafe(asked: Option<Book>, d: Deck, isLocal: bool, plays: bool, now: Time)
    requires Loose(asked, d) && d.nowPlaying.Some? && d.nowPlaying.value.loadingTrack.Some?
    requires d.held == Some((d.nowPlaying.value.book, d.nowPlaying.value.currentTrack))
    ensures Safe(asked, SettleLoad(d, isLocal, plays, now))
  {
    var e := SettleLoad(d, isLocal, plays, now);
    forall t | t in e.tasks ensures TaskOk(e, t) { assert TaskOk(d, t); }
  }

  lemma PollLoadSafe(asked: Option<Book>, d: Deck, task: Task, needsSeek: bool, env: Env)
    requires Loose(asked, d) && task.LoadTask? && task.loadStage.LoadPreroll? && LoadIsCurrent(d, task) && TaskOk(d, task)
    ensures Safe(asked, PollLoad(d, task, needsSeek, env))
  {
    hide TasksOk;
    if !needsSeek || env.reading.Some? || task.loadStage.polls >= PREROLL_WAIT_ATTEMPTS {
      SettleLoadSafe(asked, d, task.loadStage.isLocal, env.plays, env.now);
    } else {
      RespawnLoad(asked, d, task.(loadStage := task.loadStage.(polls := task.loadStage.polls + 1)));
    }
  }

  /** The backend accepted the current file of the load in flight. */
  lemma AcceptedLoose(asked: Option<Book>, d: Deck, track: nat)
    requires Loose(asked, d) && d.nowPlaying.Some? && d.nowPlaying.value.currentTrack == track && d.nowPlaying.value.loadingTrack.Some?
    ensures Loose(asked, Commanded(d, LoadAccepted(d.nowPlaying.value.book, track)))
  {
    var e := Commanded(d, LoadAccepted(d.nowPlaying.value.book, track));
    forall t | t in e.tasks ensures TaskOk(e, t) { assert TaskOk(d, t); }
  }

  lemma CommandedLoose(asked: Option<Book>, d: Deck, command: Command)
    requires Loose(asked, d) && !command.LoadAccepted? && !command.ResetCommand?
    ensures Loose(asked, Commanded(d, command))
  {
    var e := Commanded(d, command);
    forall t | t in e.tasks ensures TaskOk(e, t) { assert TaskOk(d, t); }
  }

  lemma FailLoadSafe(asked: Option<Book>, d: Deck)
    requires Loose(asked, d) && d.nowPlaying.Some?
    ensures Safe(asked, FailLoad(d))
  {
    ReleasedSafe(asked, d, d.nowPlaying.value.(isPlaying := false, needsReload := true, hasError := true));
  }

  lemma ConnectLoadSafe(asked: Option<Book>, d: Deck, task: Task, track: nat, isLocal: bool, env: Env)
    requires Loose(asked, d) && task.LoadTask? && LoadIsCurrent(d, task) && TaskOk(d, task) && task.loadStage == Connecting(track)
    ensures Safe(asked, ConnectLoad(d, task, track, isLocal, env))
  {
    hide TasksOk, FailLoad, PollLoad;
    var np := d.nowPlaying.value;
    if env.offline && !isLocal {
      FailLoadSafe(asked, d);
    } else if !env.accepted {
      CommandedLoose(asked, d, LoadRefused(task.book, track));
      FailLoadSafe(asked, Commanded(d, LoadRefused(task.book, track)));
    } else {
      AcceptedLoose(asked, d, track);
      var l := Commanded(d, LoadAccepted(task.book, track));
      CommandedLoose(asked, l, PauseCommand(env.pauses));
      var needsSeek := np.seek.known > 0.0 || SpeedChanged(np.speed, 1.0);
      PollLoadSafe(asked, if needsSeek then Commanded(l, PauseCommand(env.pauses)) else l, task.(loadStage := LoadPreroll(track, isLocal, 0)), needsSeek, env);
    }
  }

  lemma ResumeLoadSafe(asked: Option<Book>, d: Deck, task: Task, outcome: Outcome, env: Env)
    requires Safe(asked, d) && task in d.tasks && task.LoadTask?
    ensures Safe(asked, ResumeLoad(Taken(d, task), task, outcome, env))
  {
    hide ConnectLoad, PollLoad, FailLoad;
    TakenLoose(asked, d, task);
    assert TaskOk(d, task);
    var e := Taken(d, task);
    if LoadIsCurrent(e, task) {
      match task.loadStage
      case LoadPreroll(_, _, _) => PollLoadSafe(asked, e, task, true, env);
      case Spawned =>
        if e.nowPlaying.value.tracks != [] { RespawnLoad(asked, e, task.(loadStage := Connecting(e.nowPlaying.value.currentTrack))); }
      case Connecting(track) =>
        match outcome
        case Failed => FailLoadSafe(asked, e);
        case Answered(isLocal) => ConnectLoadSafe(asked, e, task, track, isLocal, env);
        case _ => RespawnLoad(asked, e, task);
    }
  }

  // ---------------------------------------------------------------- the last stretches of a start

  lemma FailStartSafe(asked: Option<Book>, d: Deck, task: Task)
    requires Loose(asked, d) && task.StartTask? && PendingIs(d, task.generation) && d.pendingStart.value.book == task.book
    ensures Safe(asked, FailStart(d, task))
  {
    var e := FailStart(d, task);
    forall t | t in e.tasks ensures TaskOk(e, t) { assert TaskOk(d, t); }
  }

  /** The deck once a start has put its book on it. */
  function Installed(d: Deck, np: NowPlaying, plays: bool): Deck {
    (if np.isPlaying then Commanded(d, PlayCommand(plays)) else d).(pendingStart := None, nowPlaying := Some(np))
  }

  lemma InstalledSafe(asked: Option<Book>, d: Deck, np: NowPlaying, plays: bool)
    requires Loose(asked, d) && d.pendingStart.Some? && d.pendingStart.value.book == np.book
    requires np.tracks != [] && np.retryRequest.None? && np.currentTrack < |np.tracks| && np.loadingTrack.None?
    requires np.needsReload || d.held == Some((np.book, np.currentTrack))
    ensures Safe(asked, Installed(d, np, plays))
  {
    var e := Installed(d, np, plays);
    forall t | t in e.tasks ensures TaskOk(e, t) { assert TaskOk(d, t); }
  }

  lemma FinishStartSafe(asked: Option<Book>, s: State, task: Task, prepared: StartStage, loaded: bool, speed: real, env: Env)
    requires Loose(asked, s.deck) && task.StartTask? && prepared.StartPreroll?
    requires s.deck.pendingStart.Some? && s.deck.pendingStart.value.book == task.book
    requires prepared.target.tracks != [] && prepared.track < |prepared.target.tracks|
    requires !loaded || s.deck.held == Some((task.book, prepared.track))
    ensures Safe(asked, FinishStart(s, task, prepared, loaded, speed, env).deck)
  {
    hide Safe, Loose, ResetBookProgress, MarkAsFinished;
    var np := StartedBook(task.book, prepared, loaded, s.deck.pendingStart.value.wantsPlay, speed, env.now);
    InstalledSafe(asked, s.deck, np, env.plays);
    var r := s.(deck := Installed(s.deck, np, env.plays),
                saving := s.saving.(lastProgressWrite := env.now, lastPlayedAt := env.now),
                ticking := s.ticking || np.isPlaying);
    match s.deck.pendingStart.value.intent
    case None =>
    case Some(ResetProgress) => ResetBookProgressSafe(asked, r, env);
    case Some(MarkFinished) => MarkAsFinishedSafe(asked, r, env);
  }

  ghost predicate StartReady(asked: Option<Book>, d: Deck, task: Task)
    requires task.StartTask? && task.startStage.StartPreroll?
  {
    && Loose(asked, d)
    && d.pendingStart.Some? && d.pendingStart.value.generation == task.generation == d.sessionGeneration
    && d.pendingStart.value.book == task.book
    && task.startStage.target.tracks != [] && task.startStage.track < |task.startStage.target.tracks|
    && task.startStage.loadGeneration == d.loadGeneration
    && d.held == Some((task.book, task.startStage.track))
    && (forall t | t in d.tasks && t.StartTask? :: t.generation != task.generation)
  }

  lemma SettleStartSafe(asked: Option<Book>, s: State, task: Task, env: Env)
    requires task.StartTask? && task.startStage.StartPreroll? && StartReady(asked, s.deck, task)
    ensures Safe(asked, SettleStart(s, task, env).deck)
  {
    hide TasksOk, FinishStart;
    var stage := task.startStage;
    var sought := if SpeedChanged(task.speed, 1.0) then Commanded(s.deck, SpeedCommand(task.speed, stage.within))
                 else if stage.within > 0.0 then Commanded(s.deck, SeekCommand(stage.within)) else s.deck;
    CommandedLoose(asked, s.deck, SpeedCommand(task.speed, stage.within));
    CommandedLoose(asked, s.deck, SeekCommand(stage.within));
    FinishStartSafe(asked, s.(deck := sought), task, stage, true, if SpeedChanged(task.speed, 1.0) && env.speedAccepted then task.speed else 1.0, env);
  }

  lemma PollStartSafe(asked: Option<Book>, s: State, task: Task, env: Env)
    requires task.StartTask? && task.startStage.StartPreroll? && StartReady(asked, s.deck, task)
    ensures Safe(asked, PollStart(s, task, env).deck)
  {
    hide SettleStart;
    var stage := task.startStage;
    if !(stage.within > 0.0 || SpeedChanged(task.speed, 1.0)) || env.reading.Some? || stage.polls >= PREROLL_WAIT_ATTEMPTS {
      SettleStartSafe(asked, s, task, env);
    } else {
      RespawnStart(asked, s.deck, task.(startStage := stage.(polls := stage.polls + 1)));
    }
  }

  /** With no book loaded, a new load generation leaves nothing aimed at it. */
  lemma NewGenerationLoose(asked: Option<Book>, d: Deck, book: Book, track: nat, pending: PendingStart, accepted: bool, pauses: bool)
    requires Loose(asked, d) && d.pendingStart == Some(pending)
    requires forall t | t in d.tasks && t.StartTask? :: t.generation != pending.generation
    ensures var c := d.(loadGeneration := d.loadGeneration + 1);
            var l := if accepted then Commanded(Commanded(c, LoadAccepted(book, track)), PauseCommand(pauses))
                     else ResetBackend(Commanded(c, LoadRefused(book, track)));
            Loose(asked, l) && l.pendingStart == d.pendingStart && l.tasks == d.tasks && l.sessionGeneration == d.sessionGeneration
  {
    var c := d.(loadGeneration := d.loadGeneration + 1);
    var l := if accepted then Commanded(Commanded(c, LoadAccepted(book, track)), PauseCommand(pauses))
             else ResetBackend(Commanded(c, LoadRefused(book, track)));
    forall t | t in l.tasks ensures TaskOk(l, t) { assert TaskOk(d, t); }
  }

  lemma LoadStartSafe(asked: Option<Book>, s: State, task: Task, saved: Option<(real, bool)>, isLocal: bool, env: Env)
    requires Loose(asked, s.deck) && task.StartTask? && task.startStage.Placing? && task.startStage.target.tracks != []
    requires s.deck.pendingStart.Some? && s.deck.pendingStart.value.generation == task.generation == s.deck.sessionGeneration
    requires s.deck.pendingStart.value.book == task.book
    requires forall t | t in s.deck.tasks && t.StartTask? :: t.generation != task.generation
    ensures Safe(asked, LoadStart(s, task, saved, isLocal, env).deck)
  {
    hide Loose, PollStart, FinishStart, StartPosition;
    var target := task.startStage.target;
    var at := StartPosition(task.startStage.chapterStart, saved, target.duration);
    var (track, within) := if at.Some? then LocateTrack(target.tracks, at.value) else (0, 0.0);
    var d := s.deck.(loadGeneration := s.deck.loadGeneration + 1);
    var prepared := StartPreroll(target, track, within, d.loadGeneration, isLocal, 0);
    NewGenerationLoose(asked, s.deck, task.book, track, s.deck.pendingStart.value, env.accepted, env.pauses);
    if env.accepted {
      PollStartSafe(asked, s.(deck := Commanded(Commanded(d, LoadAccepted(task.book, track)), PauseCommand(env.pauses))), task.(startStage := prepared), env);
    } else {
      FinishStartSafe(asked, s.(deck := ResetBackend(Commanded(d, LoadRefused(task.book, track)))), task, prepared, false, 1.0, env);
    }
  }

  lemma ResumeStartSafe(asked: Option<Book>, s: State, task: Task, outcome: Outcome, env: Env)
    requires Safe(asked, s.deck) && task in s.deck.tasks && task.StartTask?
    ensures Safe(asked, ResumeStart(s.(deck := Taken(s.deck, task)), task, outcome, env).deck)
  {
    hide PollStart, LoadStart, FailStart;
    TakenLoose(asked, s.deck, task);
    assert TaskOk(s.deck, task);
    var t := s.(deck := Taken(s.deck, task));
    if PendingIs(t.deck, task.generation) {
      if task.startStage.StartPreroll? {
        PollStartSafe(asked, t, task, env);
      } else if task.startStage.Placing? && outcome.Placed? {
        LoadStartSafe(asked, t, task, outcome.saved, outcome.startIsLocal, env);
      } else if task.startStage.Resolving? && outcome.Resolved? && outcome.target.tracks != [] {
        RespawnStart(asked, t.deck, task.(startStage := Placing(outcome.target, ChapterStart(t.deck.pendingStart.value.startChapter, outcome.target.chapters))));
      } else if task.startStage.Resolving? && (outcome.Failed? || outcome.Resolved?) {
        FailStartSafe(asked, t.deck, task);
      } else {
        RespawnStart(asked, t.deck, task);
      }
    } else {
      if task.startStage.StartPreroll? { SupersededPoll(t, task, env); }
      assert Core(asked, t.deck);
    }
  }

  lemma SupersededPoll(s: State, task: Task, env: Env)
    requires task.StartTask? && task.startStage.StartPreroll? && !PendingIs(s.deck, task.generation)
    ensures PollStart(s, task, env) == s
  {
  }

  // ---------------------------------------------------------------- the other tasks

  lemma ResumeAimedSafe(asked: Option<Book>, d: Deck, task: Task)
    requires Safe(asked, d) && task in d.tasks && !task.StartTask? && !task.LoadTask?
    ensures Safe(asked, Taken(d, task)) && TaskOk(Taken(d, task), task)
  {
    TakenLoose(asked, d, task);
    assert TaskOk(d, task);
  }

  lemma ResumePauseConfirmationSafe(asked: Option<Book>, d: Deck, task: Task, paused: bool)
    requires Safe(asked, d) && task.PauseConfirmation?
    ensures Safe(asked, ResumePauseConfirmation(d, task, paused))
  {
    hide TasksOk;
    SpawnKeeps(asked, d, task.(attempt := task.attempt + 1));
    if d.nowPlaying.Some? { ReleasedSafe(asked, d, d.nowPlaying.value.(hasError := true, needsReload := true)); }
  }

  lemma ResumeLocalFileCheckSafe(asked: Option<Book>, d: Deck, task: Task, outcome: Outcome)
    requires Safe(asked, d) && task.LocalFileCheck? && TaskOk(d, task)
    ensures Safe(asked, ResumeLocalFileCheck(d, task, outcome))
  {
    hide TasksOk;
    SpawnKeeps(asked, d, task);
    if d.nowPlaying.Some? && d.loadGeneration == task.generation {
      LoadTrackAtSafe(asked, d, d.nowPlaying.value, task.track, d.nowPlaying.value.seek.known);
    }
  }

  lemma ResumeRecoverySafe(asked: Option<Book>, s: State, task: Task, outcome: Outcome, now: Time)
    requires Safe(asked, s.deck) && task.Recovery? && TaskOk(s.deck, task)
    ensures Safe(asked, ResumeRecovery(s, task, outcome, now).deck)
  {
    hide TasksOk;
    var d := s.deck;
    SpawnKeeps(asked, d, task);
    if d.nowPlaying.Some? && d.loadGeneration == task.generation {
      LoadTrackAtSafe(asked, d, d.nowPlaying.value, task.track, task.within);
      SameAimKeeps(asked, d, WithBook(d, d.nowPlaying.value.(isPlaying := false, hasError := true)));
    }
  }

  lemma ResumeReconcileSafe(asked: Option<Book>, s: State, task: Task, outcome: Outcome, env: Env)
    requires Safe(asked, s.deck) && task.Reconcile?
    ensures Safe(asked, ResumeReconcile(s, task, outcome, env).deck)
  {
    hide Safe, SeekTo;
    assert TaskOk(Spawn(s.deck, task), task);
    SpawnKeeps(asked, s.deck, task);
    if outcome.Reconciled? && outcome.after.Some? {
      var t := if s.saving.holdingWrites == Some(task.session) then s.(saving := s.saving.(holdingWrites := None)) else s;
      SeekToSafe(asked, t, outcome.after.value.0, env);
    }
  }

  lemma ResumeTaskSafe(asked: Option<Book>, s: State, task: Task, outcome: Outcome, env: Env)
    requires Safe(asked, s.deck)
    ensures Safe(asked, ResumeTask(s, task, outcome, env).deck)
  {
    hide Safe, ResumeStart, ResumeLoad, ResumePauseConfirmation, ResumeLocalFileCheck, ResumeRecovery, ResumeReconcile, Play;
    if task in s.deck.tasks {
      var d := Taken(s.deck, task);
      var t := s.(deck := d);
      if task.StartTask? {
        ResumeStartSafe(asked, s, task, outcome, env);
      } else if task.LoadTask? {
        ResumeLoadSafe(asked, s.deck, task, outcome, env);
      } else {
        ResumeAimedSafe(asked, s.deck, task);
        match task
        case PauseConfirmation(_, _, _) => ResumePauseConfirmationSafe(asked, d, task, env.paused);
        case LocalFileCheck(_, _, _) => ResumeLocalFileCheckSafe(asked, d, task, outcome);
        case Recovery(_, _, _, _) => ResumeRecoverySafe(asked, t, task, outcome, env.now);
        case Reconcile(_, _, _, _) => ResumeReconcileSafe(asked, t, task, outcome, env);
        case ReplugTimer(_) => PlaySafe(asked, t.(marks := t.marks.(pausedByUnplug := false, log := t.marks.log + [ReplugResumed])), env);
        case PausedSeekTimer(_) =>
        case PendingSync(_, _) => SpawnKeeps(asked, d, task);
      }
    }
  }

  // ---------------------------------------------------------------- every step and every run

  /** The book last asked for, and not taken out of service since. */
  function AskedAfter(asked: Option<Book>, event: Event): Option<Book> {
    match event
    case DoStart(book, _, _) => Some(book)
    case DoRetire => None
    case _ => asked
  }

  lemma StepSafe(asked: Option<Book>, s: State, event: Event, env: Env)
    requires Safe(asked, s.deck)
    ensures Safe(AskedAfter(asked, event), Step(s, event, env).deck)
  {
    hide Safe, StartWith, Play, Pause, SeekTo, SetSpeed, MarkAsFinished, ResetBookProgress, Retire, Tick, ResumeTask, SleepInMinutes, SleepAtEndOfChapter;
    match event
    case DoStart(book, speed, chapter) => StartWithSafe(asked, s, book, speed, chapter, env);
    case DoPlay => PlaySafe(asked, s, env);
    case DoPause => PauseSafe(asked, s, env);
    case DoToggle => PlaySafe(asked, s, env); PauseSafe(asked, s, env);
    case DoExternalToggle => PlaySafe(asked, s, env); PauseSafe(asked, s, env);
    case DoSeek(seconds) => SeekToSafe(asked, s, seconds, env);
    case DoSetSpeed(speed) => SetSpeedSafe(asked, s, speed, env);
    case DoSleepMinutes(minutes) => SleepTimerSafe(asked, s, minutes, env);
    case DoSleepChapter => SleepTimerSafe(asked, s, 0, env);
    case DoCancelSleep => SleepTimerSafe(asked, s, 0, env);
    case DoMarkFinished => MarkAsFinishedSafe(asked, s, env);
    case DoReset => ResetBookProgressSafe(asked, s, env);
    case DoSaveNow =>
    case DoSyncPending => SyncPendingSafe(asked, s, env);
    case DoRetire => RetireSafe(asked, s, env);
    case DoHeadphoneSettings(p, r) =>
    case DoUnplug => PauseSafe(asked, s.(marks := RouteChanged(s.marks)), env);
    case DoReplug => ReplugTimerSafe(asked, s);
    case DoCallStart => PauseSafe(asked, s, env);
    case DoCallAnswered =>
    case DoCallEnd(answered, outgoing) =>
      PlaySafe(asked, s.(marks := s.marks.(pausedByCall := false, log := s.marks.log + [CallResumed])), env);
    case DoTick => TickSafe(asked, s, env);
    case DoResume(task, outcome) => ResumeTaskSafe(asked, s, task, outcome, env);
  }

  lemma SleepTimerSafe(asked: Option<Book>, s: State, minutes: nat, env: Env)
    requires Safe(asked, s.deck)
    ensures Safe(asked, SleepInMinutes(s, minutes, env).deck)
    ensures Safe(asked, SleepAtEndOfChapter(s, env).deck)
    ensures Safe(asked, CancelSleepTimer(s).deck)
  {
    hide TasksOk, BookPosition, ChapterEndAt;
    if s.deck.nowPlaying.Some? {
      SameAimKeeps(asked, s.deck, SleepInMinutes(s, minutes, env).deck);
      SameAimKeeps(asked, s.deck, SleepAtEndOfChapter(s, env).deck);
      SameAimKeeps(asked, s.deck, CancelSleepTimer(s).deck);
    }
  }

  lemma SyncPendingSafe(asked: Option<Book>, s: State, env: Env)
    requires Safe(asked, s.deck)
    ensures Safe(asked, SyncPendingProgress(s, env).deck)
  {
    hide Safe;
    if s.deck.nowPlaying.Some? && !env.offline {
      var task := PendingSync(s.deck.nowPlaying.value.book, s.deck.sessionGeneration);
      assert TaskOk(Spawn(s.deck, task), task);
      SpawnKeeps(asked, s.deck, task);
    }
  }

  lemma ReplugTimerSafe(asked: Option<Book>, s: State)
    requires Safe(asked, s.deck)
    ensures Safe(asked, Replugged(s).deck)
  {
    hide Safe;
    var task := ReplugTimer(RouteChanged(s.marks).routeEventSeq);
    assert TaskOk(Spawn(s.deck, task), task);
    SpawnKeeps(asked, s.deck, task);
  }

  function AskedBy(asked: Option<Book>, events: seq<(Event, Env)>): Option<Book>
    decreases |events|
  {
    if events == [] then asked else AskedBy(AskedAfter(asked, events[0].0), events[1..])
  }

  lemma {:induction false} RunSafe(asked: Option<Book>, s: State, events: seq<(Event, Env)>)
    requires Safe(asked, s.deck)
    ensures Safe(AskedBy(asked, events), Run(s, events).deck)
    decreases |events|
  {
    hide Safe, Step;
    if events != [] {
      StepSafe(asked, s, events[0].0, events[0].1);
      RunSafe(AskedAfter(asked, events[0].0), Step(s, events[0].0, events[0].1), events[1..]);
    }
  }

  lemma InitialSafe(now: Time)
    ensures Safe(None, Initial(now).deck)
  {
  }

  /** However user actions, ticks and suspended tasks interleave, and whatever the backend answers,
      a backend the player relies on holds the current file of the current book. */
  lemma {:induction false} BackendHoldsTheCurrentFile(now: Time, events: seq<(Event, Env)>)
    ensures var d := Run(Initial(now), events).deck;
            d.nowPlaying.Some? && HoldsTrack(d.nowPlaying.value) ==>
              d.held == Some((d.nowPlaying.value.book, d.nowPlaying.value.currentTrack))
  {
    hide Run;
    InitialSafe(now);
    RunSafe(None, Initial(now), events);
  }

  /** A start in flight and a loaded book exclude each other. Once every start task has run, in
      whatever order and with whatever result, the book that is loaded, or failed to load, is the
      one last asked for; with none asked for since the player was retired, none is. */
  lemma {:induction false} LastAskedWins(now: Time, events: seq<(Event, Env)>)
    ensures var d := Run(Initial(now), events).deck;
            && !(d.nowPlaying.Some? && d.pendingStart.Some?)
            && ((forall t | t in d.tasks :: !t.StartTask?) ==>
                  && d.pendingStart.None?
                  && AskedBy(None, events) == if d.nowPlaying.Some? then Some(d.nowPlaying.value.book) else None)
  {
    hide Run;
    InitialSafe(now);
    RunSafe(None, Initial(now), events);
  }

  /** No load is ever left hanging: once every load task has run, no book with files is loading. */
  lemma {:induction false} NoLoadIsLeftHanging(now: Time, events: seq<(Event, Env)>)
    ensures var d := Run(Initial(now), events).deck;
            d.nowPlaying.Some? && d.nowPlaying.value.tracks != [] && (forall t | t in d.tasks :: !t.LoadTask?) ==>
              d.nowPlaying.value.loadingTrack.None?
  {
    hide Run;
    InitialSafe(now);
    RunSafe(None, Initial(now), events);
  }

  /** A player taken out of service stays empty: no start, load, seek or recovery still on its way
      puts a book into it again unless a book is asked for again. */
  lemma {:induction false} RetiredStaysEmpty(now: Time, events: seq<(Event, Env)>)
    requires AskedBy(None, events).None?
    ensures Run(Initial(now), events).deck.nowPlaying.None? && Run(Initial(now), events).deck.pendingStart.None?
  {
    hide Run;
    InitialSafe(now);
    RunSafe(None, Initial(now), events);
  }
}
