/** What the backend has been told, read back from the history of commands: which file it holds,
    whether it was last asked to play or to pause it, and whether an event kept for the tick is still
    about that file. */
module PlayerBackend {
  import opened Prelude
  import opened PlayerTypes
  import opened PlayerSpec
  import opened PlayerSafety

  /** The backend is released or handed a file. */
  predicate Replaces(c: Command) { c.ResetCommand? || c.LoadAccepted? || c.LoadRefused? }

  function HeldBy(commands: seq<Command>): Option<(Book, nat)> {
    if commands == [] then None else HeldAfter(HeldBy(commands[..|commands| - 1]), commands[|commands| - 1])
  }

  /** What the backend was last asked since it was given its file: to play, or else not. */
  function AskedToPlay(commands: seq<Command>): bool {
    commands != []
    && var c := commands[|commands| - 1];
       c.PlayCommand? || (!c.PauseCommand? && !Replaces(c) && AskedToPlay(commands[..|commands| - 1]))
  }

  /** What it does: the last such request that it accepted. A file that was just handed over is paused.
      An accepted pause counts as landed at once; the player makes sure of it later, and releases a
      pipeline that never pauses (`PlayerSpec.ResumePauseConfirmation`), which may sound until then. */
  function Sounding(commands: seq<Command>): bool {
    commands != []
    && var c := commands[|commands| - 1];
       (c.PlayCommand? && c.accepted)
       || (!(c.PauseCommand? && c.accepted) && !Replaces(c) && Sounding(commands[..|commands| - 1]))
  }

  /** Nothing after the first `at` commands replaced the file. */
  predicate SameFileSince(commands: seq<Command>, at: nat) { forall i | at <= i < |commands| :: !Replaces(commands[i]) }

  predicate Idle(d: Deck) { d.nowPlaying.Some? ==> d.nowPlaying.value.loadingTrack.None? }

  /** What is shown as playing is what the backend was last asked to do with the file; one that is on
      its way has not been asked to play. */
  predicate Told(d: Deck) {
    && (d.pendingStart.Some? ==> !AskedToPlay(d.commands))
    && (d.nowPlaying.Some? && d.nowPlaying.value.loadingTrack.Some? ==> !AskedToPlay(d.commands))
    && (d.nowPlaying.Some? && HoldsTrack(d.nowPlaying.value) ==> d.nowPlaying.value.isPlaying == AskedToPlay(d.commands))
  }

  /** The history only grows. Unless a load is under way, the load generation stays the same exactly
      as long as the file does. */
  ghost predicate GoesOn(d: Deck, e: Deck) {
    && d.commands <= e.commands && d.loadGeneration <= e.loadGeneration
    && (Idle(d) ==> (e.loadGeneration == d.loadGeneration <==> SameFileSince(e.commands, |d.commands|)))
    && (Idle(d) && e.loadGeneration == d.loadGeneration ==> Idle(e))
    && (d.held == HeldBy(d.commands) ==> e.held == HeldBy(e.commands))
    && (Told(d) ==> Told(e))
  }

  /** An event kept for the tick is of the current load generation exactly while the file it was
      posted by is still held. */
  ghost predicate KeptOk(s: State) {
    s.deferredEvent.Some? ==>
      var k := s.deferredEvent.value;
      && k.at <= |s.deck.commands| && k.generation <= s.deck.loadGeneration
      && (k.generation == s.deck.loadGeneration <==> SameFileSince(s.deck.commands, k.at))
      && (k.generation == s.deck.loadGeneration ==> Idle(s.deck))
  }

  ghost predicate Carries(s: State, t: State) { GoesOn(s.deck, t.deck) && (KeptOk(s) ==> KeptOk(t)) }

  lemma CarriesOn(a: State, b: State, c: State)
    requires Carries(a, b) && Carries(b, c)
    ensures Carries(a, c)
  {
    hide Told, Idle, HeldBy, KeptOk;
    GoesOnOn(a.deck, b.deck, c.deck);
  }

  lemma GoesOnOn(a: Deck, b: Deck, c: Deck)
    requires GoesOn(a, b) && GoesOn(b, c)
    ensures GoesOn(a, c)
  {
    hide Told, Idle, HeldBy;
    assert forall i | |a.commands| <= i < |b.commands| :: c.commands[i] == b.commands[i];
    if Idle(a) && c.loadGeneration == a.loadGeneration {
      assert SameFileSince(c.commands, |a.commands|);
    } else if Idle(a) && b.loadGeneration != a.loadGeneration {
      var i :| |a.commands| <= i < |b.commands| && Replaces(b.commands[i]);
      assert Replaces(c.commands[i]);
    } else if Idle(a) {
      var i :| |b.commands| <= i < |c.commands| && Replaces(c.commands[i]);
      assert Replaces(c.commands[i]);
    }
  }

  /** A step that keeps, drops or takes up an event carries the history on. */
  lemma DeckCarries(s: State, t: State)
    requires GoesOn(s.deck, t.deck)
    requires t.deferredEvent == s.deferredEvent || t.deferredEvent.None?
             || (Idle(s.deck) && t.deferredEvent.value.generation == s.deck.loadGeneration && t.deferredEvent.value.at == |s.deck.commands|)
    ensures Carries(s, t)
  {
    hide Told, HeldBy, Idle;
    if t.deferredEvent.Some? && KeptOk(s) && t.deferredEvent == s.deferredEvent {
      var k := t.deferredEvent.value;
      assert forall i | k.at <= i < |s.deck.commands| :: t.deck.commands[i] == s.deck.commands[i];
      if k.generation != s.deck.loadGeneration {
        var i :| k.at <= i < |s.deck.commands| && Replaces(s.deck.commands[i]);
        assert Replaces(t.deck.commands[i]);
      } else if t.deck.loadGeneration == s.deck.loadGeneration {
        assert SameFileSince(t.deck.commands, k.at);
      } else {
        var i :| |s.deck.commands| <= i < |t.deck.commands| && Replaces(t.deck.commands[i]);
        assert Replaces(t.deck.commands[i]);
      }
    }
  }

  // ---------------------------------------------------------------- the history

  lemma Appended(commands: seq<Command>, c: Command)
    ensures HeldBy(commands + [c]) == HeldAfter(HeldBy(commands), c)
    ensures AskedToPlay(commands + [c]) == (c.PlayCommand? || (!c.PauseCommand? && !Replaces(c) && AskedToPlay(commands)))
    ensures forall at: nat | at <= |commands| :: SameFileSince(commands + [c], at) <==> SameFileSince(commands, at) && !Replaces(c)
  {
    var all := commands + [c];
    assert all[..|commands|] == commands && all[|commands|] == c;
    forall at: nat | at <= |commands| ensures SameFileSince(all, at) <==> SameFileSince(commands, at) && !Replaces(c) {
      if SameFileSince(all, at) { assert forall i | at <= i < |commands| :: all[i] == commands[i]; }
    }
  }

  /** Nothing is told to the backend, and nothing is trusted more than before. */
  predicate Alike(d: Deck, e: Deck) {
    && e.commands == d.commands && e.loadGeneration == d.loadGeneration && e.held == d.held
    && (e.pendingStart.Some? ==> d.pendingStart.Some?)
    && (e.nowPlaying.Some? ==>
          && d.nowPlaying.Some?
          && e.nowPlaying.value.loadingTrack == d.nowPlaying.value.loadingTrack
          && (HoldsTrack(e.nowPlaying.value) ==>
                HoldsTrack(d.nowPlaying.value) && e.nowPlaying.value.isPlaying == d.nowPlaying.value.isPlaying))
  }

  lemma AlikeGoesOn(d: Deck, e: Deck)
    requires Alike(d, e)
    ensures GoesOn(d, e)
  {
  }

  lemma AlikeCarries(s: State, t: State)
    requires Alike(s.deck, t.deck) && t.deferredEvent == s.deferredEvent
    ensures Carries(s, t)
  {
    hide Alike, GoesOn;
    AlikeGoesOn(s.deck, t.deck);
    DeckCarries(s, t);
  }

  /** A command about position or speed. */
  lemma SoughtGoesOn(d: Deck, c: Command)
    requires c.SeekCommand? || c.SpeedCommand?
    ensures GoesOn(d, Commanded(d, c))
  {
    Appended(d.commands, c);
  }

  lemma ReleasedGoesOn(d: Deck, np: NowPlaying)
    requires np.needsReload || np.tracks == []
    ensures GoesOn(d, Released(d, np))
  {
    Appended(d.commands, ResetCommand);
  }

  lemma ResetGoesOn(d: Deck, e: Deck)
    requires e.commands == d.commands + [ResetCommand] && e.loadGeneration > d.loadGeneration && e.held.None?
    requires e.nowPlaying.Some? ==> !HoldsTrack(e.nowPlaying.value)
    ensures GoesOn(d, e)
  {
    Appended(d.commands, ResetCommand);
  }

  lemma LoadTrackAtGoesOn(d: Deck, np: NowPlaying, track: nat, within: real)
    ensures GoesOn(d, LoadTrackAt(d, np, track, within))
  {
    hide GoesOn;
    ResetGoesOn(d, LoadTrackAt(d, np, track, within));
  }

  // ---------------------------------------------------------------- the controller's operations

  /** The backend is told to play or to pause the file it holds, and the book is shown so. */
  lemma ToldGoesOn(d: Deck, np: NowPlaying, c: Command)
    requires d.nowPlaying.Some? && np.loadingTrack == d.nowPlaying.value.loadingTrack
    requires c.PlayCommand? || c.PauseCommand?
    requires HoldsTrack(d.nowPlaying.value) && np.isPlaying == c.PlayCommand? && d.pendingStart.None?
    ensures GoesOn(d, WithBook(Commanded(d, c), np))
  {
    Appended(d.commands, c);
  }

  lemma SpawnGoesOn(d: Deck, e: Deck, task: Task)
    requires GoesOn(d, e)
    ensures GoesOn(d, Spawn(e, task))
  {
    hide Told, HeldBy;
    AlikeGoesOn(e, Spawn(e, task));
    assert Told(e) ==> Told(Spawn(e, task)) by { SpawnTold(e, task); }
  }

  lemma SpawnTold(d: Deck, task: Task)
    ensures Told(Spawn(d, task)) == Told(d)
  {
  }

  lemma BeginStartGoesOn(d: Deck, book: Book, speed: real, chapter: Option<nat>)
    ensures GoesOn(d, BeginStart(d, book, speed, chapter))
  {
    hide GoesOn, UsableSpeed;
    ResetGoesOn(d, BeginStart(d, book, speed, chapter));
  }

  lemma StartNewCarries(s: State, book: Book, speed: real, chapter: Option<nat>, env: Env)
    ensures Carries(s, StartNew(s, book, speed, chapter, env))
  {
    hide Carries, GoesOn, BeginStart, WriteProgressNow;
    BeginStartGoesOn(s.deck, book, speed, chapter);
    AlikeGoesOn(s.deck, if IsPending(s.deck, book) then StartNew(s, book, speed, chapter, env).deck else s.deck);
    DeckCarries(s, StartNew(s, book, speed, chapter, env));
  }

  lemma SeekDeckGoesOn(d: Deck, np: NowPlaying, track: nat, within: real, now: Time)
    requires d.nowPlaying.Some? && SameFile(d.nowPlaying.value, np) && np.isPlaying == d.nowPlaying.value.isPlaying
    requires np.needsReload == d.nowPlaying.value.needsReload
    ensures GoesOn(d, SeekDeck(d, np, track, within, now))
  {
    hide GoesOn, LoadTrackAt;
    var c := d.(seekCount := d.seekCount + 1);
    AlikeGoesOn(d, c);
    if track != np.currentTrack {
      LoadTrackAtGoesOn(c, np, track, within);
      GoesOnOn(d, c, LoadTrackAt(c, np, track, within));
    } else if np.loadingTrack.Some? || np.needsReload {
      AlikeGoesOn(d, SeekDeck(d, np, track, within, now));
    } else {
      var sent := Commanded(c, SeekCommand(within));
      SoughtGoesOn(c, SeekCommand(within));
      AlikeGoesOn(sent, SeekDeck(d, np, track, within, now));
      GoesOnOn(d, c, sent);
      GoesOnOn(d, sent, SeekDeck(d, np, track, within, now));
    }
  }

  lemma SeekLoadedCarries(s: State, target: real, env: Env)
    requires s.deck.nowPlaying.Some? && (s.deck.nowPlaying.value.tracks == [] ==> !s.deck.nowPlaying.value.isPlaying)
    ensures Carries(s, SeekLoaded(s, target, env))
  {
    hide Carries, GoesOn, SeekDeck, LocateTrack, ChapterEndAt;
    var np := Retargeted(s.deck.nowPlaying.value, target);
    var (track, within) := LocateTrack(np.tracks, target);
    SeekDeckGoesOn(s.deck, np, track, within, env.now);
    DeckCarries(s, SeekLoaded(s, target, env));
  }

  lemma SeekToCarries(s: State, seconds: real, env: Env)
    ensures Carries(s, SeekTo(s, seconds, env))
  {
    hide Carries, SeekLoaded, ClampToBook;
    AlikeCarries(s, s);
    if s.deck.nowPlaying.Some? && s.deck.nowPlaying.value.tracks != [] {
      var t := SeekLoaded(s, ClampToBook(seconds, s.deck.nowPlaying.value.duration), env);
      SeekLoadedCarries(s, ClampToBook(seconds, s.deck.nowPlaying.value.duration), env);
      AlikeCarries(t, SavePausedSeekLater(t));
      CarriesOn(s, t, SavePausedSeekLater(t));
    }
  }

  lemma PrepareToResumeCarries(s: State, env: Env)
    ensures Carries(s, PrepareToResume(ReconcileBeforeResuming(s, env), env))
  {
    hide Carries, GoesOn, BookPosition;
    var t := ReconcileBeforeResuming(s, env);
    AlikeCarries(s, t);
    PreparedCarries(t, env);
    CarriesOn(s, t, PrepareToResume(t, env));
  }

  lemma PreparedCarries(s: State, env: Env)
    ensures Carries(s, PrepareToResume(s, env))
  {
    hide Carries, GoesOn, Released;
    AlikeGoesOn(s.deck, s.deck);
    if s.deck.nowPlaying.Some? {
      var np := s.deck.nowPlaying.value;
      ReleasedGoesOn(s.deck, np.(needsReload := true, seek := np.seek.(known := Within(np.seek, env.reading))));
    }
    DeckCarries(s, PrepareToResume(s, env));
  }

  lemma ApplyDeferredSpeedCarries(s: State, env: Env)
    requires s.deck.nowPlaying.Some? && s.deck.nowPlaying.value.loadingTrack.None?
    ensures Carries(s, ApplyDeferredSpeed(s, env))
    ensures ApplyDeferredSpeed(s, env).deck.pendingStart == s.deck.pendingStart
    ensures var np := ApplyDeferredSpeed(s, env).deck.nowPlaying; np.Some? && (HoldsTrack(np.value) <==> HoldsTrack(s.deck.nowPlaying.value))
  {
    hide Carries, GoesOn, Within;
    var np := s.deck.nowPlaying.value;
    AlikeGoesOn(s.deck, s.deck);
    var c := SpeedCommand(np.speed, Within(np.seek, env.reading));
    SoughtGoesOn(s.deck, c);
    var t := ApplyDeferredSpeed(s, env);
    if np.speedUnapplied.Some? {
      AlikeGoesOn(Commanded(s.deck, c), t.deck);
      GoesOnOn(s.deck, Commanded(s.deck, c), t.deck);
    }
    DeckCarries(s, t);
  }

  lemma PlayBackendCarries(s: State, accepted: bool)
    requires s.deck.nowPlaying.Some? && HoldsTrack(s.deck.nowPlaying.value) && s.deck.pendingStart.None?
    ensures Carries(s, PlayBackend(s, accepted))
  {
    hide Carries, GoesOn, Released;
    var np := s.deck.nowPlaying.value;
    var d := Commanded(s.deck, PlayCommand(accepted));
    if accepted {
      ToldGoesOn(s.deck, np.(isPlaying := true, hasError := false), PlayCommand(accepted));
    } else {
      ToldGoesOn(s.deck, np.(isPlaying := true), PlayCommand(accepted));
      var told := WithBook(d, np.(isPlaying := true));
      ReleasedGoesOn(told, np.(hasError := true, needsReload := true));
      ReleasedAlike(told, d, np.(hasError := true, needsReload := true));
      GoesOnOn(s.deck, told, Released(d, np.(hasError := true, needsReload := true)));
    }
    DeckCarries(s, PlayBackend(s, accepted));
  }

  /** A release does not look at the book it replaces. */
  lemma ReleasedAlike(d: Deck, e: Deck, np: NowPlaying)
    requires d.(nowPlaying := None) == e.(nowPlaying := None)
    ensures Released(d, np) == Released(e, np)
  {
  }

  lemma ResumeBackendCarries(s: State, env: Env)
    requires s.deck.nowPlaying.Some? && s.deck.nowPlaying.value.tracks != [] && s.deck.pendingStart.None?
    ensures Carries(s, ResumeBackend(s, env))
  {
    hide Carries, GoesOn, ApplyDeferredSpeed, PlayBackend, LoadTrackAt;
    var np := s.deck.nowPlaying.value;
    if np.loadingTrack.Some? {
      AlikeCarries(s, ResumeBackend(s, env));
    } else if np.needsReload {
      LoadTrackAtGoesOn(s.deck, np.(isPlaying := true, hasError := false), np.currentTrack, np.seek.known);
      DeckCarries(s, ResumeBackend(s, env));
    } else {
      var t := ApplyDeferredSpeed(s, env);
      ApplyDeferredSpeedCarries(s, env);
      PlayBackendCarries(t, env.accepted);
      CarriesOn(s, t, PlayBackend(t, env.accepted));
    }
  }

  lemma PlayCarries(asked: Option<Book>, s: State, env: Env)
    requires Safe(asked, s.deck)
    ensures Carries(s, Play(s, env))
  {
    hide Carries, GoesOn, Safe, StartNew, PrepareToResume, ReconcileBeforeResuming, ResumeBackend, RestartFinished;
    var t := s.(marks := ClearMarks(s.marks, PlayAsked));
    var d := s.deck;
    LoadedBook(asked, d);
    AlikeCarries(s, t);
    if d.pendingStart.Some? {
      AlikeCarries(s, Play(s, env));
    } else if d.nowPlaying.Some? && d.nowPlaying.value.retryRequest.Some? {
      StartNewCarries(t, d.nowPlaying.value.book, d.nowPlaying.value.retryRequest.value, None, env);
      CarriesOn(s, t, Play(s, env));
    } else if d.nowPlaying.Some? && d.nowPlaying.value.ended && d.nowPlaying.value.tracks != [] {
      RestartFinishedCarries(t, env);
      CarriesOn(s, t, Play(s, env));
    } else {
      var u := PrepareToResume(ReconcileBeforeResuming(t, env), env);
      PrepareToResumeCarries(t, env);
      CarriesOn(s, t, u);
      PreparedBook(t, env);
      if u.deck.nowPlaying.Some? {
        ResumeBackendCarries(u, env);
        CarriesOn(s, u, ResumeBackend(u, env));
      }
    }
  }

  lemma LoadedBook(asked: Option<Book>, d: Deck)
    requires Safe(asked, d)
    ensures d.nowPlaying.Some? ==>
              && d.pendingStart.None?
              && (d.nowPlaying.value.retryRequest.None? <==> d.nowPlaying.value.tracks != [])
              && (d.nowPlaying.value.tracks == [] ==> !d.nowPlaying.value.isPlaying)
  {
  }

  lemma PreparedBook(s: State, env: Env)
    ensures var u := PrepareToResume(ReconcileBeforeResuming(s, env), env);
            && u.deck.pendingStart == s.deck.pendingStart && u.deck.nowPlaying.Some? == s.deck.nowPlaying.Some?
            && (s.deck.nowPlaying.Some? ==> u.deck.nowPlaying.value.tracks == s.deck.nowPlaying.value.tracks)
  {
    hide BookPosition;
  }

  lemma RestartFinishedCarries(s: State, env: Env)
    requires s.deck.nowPlaying.Some?
    ensures Carries(s, RestartFinished(s, env))
  {
    hide Carries, GoesOn, LoadTrackAt, WriteProgressAt;
    LoadTrackAtGoesOn(s.deck, s.deck.nowPlaying.value.(ended := false, isPlaying := true, hasError := false), 0, 0.0);
    DeckCarries(s, RestartFinished(s, env));
  }

  lemma StartWithCarries(asked: Option<Book>, s: State, book: Book, speed: real, chapter: Option<nat>, env: Env)
    requires Safe(asked, s.deck)
    ensures Carries(s, StartWith(s, book, speed, chapter, env))
  {
    hide Carries, Safe, Play, SeekTo, StartNew;
    if !IsLoaded(s.deck, book) {
      StartNewCarries(s, book, speed, chapter, env);
    } else {
      var chapters := s.deck.nowPlaying.value.chapters;
      if chapter.Some? && chapter.value < |chapters| {
        var t := SeekTo(s, Max(chapters[chapter.value].start, 0.0), env);
        SeekToCarries(s, Max(chapters[chapter.value].start, 0.0), env);
        SeekToSafe(asked, s, Max(chapters[chapter.value].start, 0.0), env);
        PlayCarries(asked, t, env);
        CarriesOn(s, t, Play(t, env));
      } else {
        PlayCarries(asked, s, env);
      }
    }
  }

  lemma PauseBackendGoesOn(d: Deck, accepted: bool)
    requires d.pendingStart.None? && (d.nowPlaying.Some? && d.nowPlaying.value.tracks == [] ==> !d.nowPlaying.value.isPlaying)
    ensures GoesOn(d, PauseBackend(d, accepted))
  {
    hide GoesOn, Released;
    var c := Commanded(d, PauseCommand(accepted));
    if d.nowPlaying.None? {
      SilencedGoesOn(d, PauseCommand(accepted));
      AlikeGoesOn(c, PauseBackend(d, accepted).(commands := c.commands, held := c.held, loadGeneration := c.loadGeneration));
      if accepted { SpawnGoesOn(d, c, PauseConfirmation(c.loadGeneration, c.seekCount, 0)); }
      else { ResetGoesOn(c, ResetBackend(c)); GoesOnOn(d, c, ResetBackend(c)); }
    } else {
      var np := d.nowPlaying.value.(isPlaying := false);
      if np.needsReload || np.loadingTrack.Some? {
        AlikeGoesOn(d, PauseBackend(d, accepted));
      } else {
        PausedGoesOn(d, np, PauseCommand(accepted));
        var told := WithBook(c, np);
        if accepted {
          SpawnGoesOn(d, told, PauseConfirmation(d.loadGeneration, d.seekCount, 0));
        } else {
          ReleasedGoesOn(told, np.(hasError := true, needsReload := true));
          ReleasedAlike(told, c, np.(hasError := true, needsReload := true));
          GoesOnOn(d, told, PauseBackend(d, accepted));
        }
      }
    }
  }

  lemma SilencedGoesOn(d: Deck, c: Command)
    requires c.PauseCommand? && d.nowPlaying.None?
    ensures GoesOn(d, Commanded(d, c))
  {
    Appended(d.commands, c);
  }

  /** A pause is asked of what is loaded; a book that never loaded is not playing anyway. */
  lemma PausedGoesOn(d: Deck, np: NowPlaying, c: Command)
    requires d.nowPlaying.Some? && np.loadingTrack == d.nowPlaying.value.loadingTrack && np.loadingTrack.None? && !np.isPlaying
    requires c.PauseCommand? && d.pendingStart.None?
    ensures GoesOn(d, WithBook(Commanded(d, c), np))
  {
    Appended(d.commands, c);
  }

  lemma PauseCarries(asked: Option<Book>, s: State, env: Env)
    requires Safe(asked, s.deck)
    ensures Carries(s, Pause(s, env))
  {
    hide Carries, GoesOn, Safe, PauseBackend, WriteProgress;
    LoadedBook(asked, s.deck);
    if s.deck.pendingStart.Some? {
      AlikeCarries(s, Pause(s, env));
    } else {
      PauseBackendGoesOn(s.deck, env.accepted);
      DeckCarries(s, Pause(s, env));
    }
  }

  lemma SetSpeedCarries(s: State, wanted: real, env: Env)
    ensures Carries(s, SetSpeed(s, wanted, env))
  {
    hide Carries, GoesOn, Within, UsableSpeed, Abs;
    AlikeGoesOn(s.deck, s.deck);
    var c := SpeedCommand(UsableSpeed(wanted), if s.deck.nowPlaying.Some? then Within(s.deck.nowPlaying.value.seek, env.reading) else 0.0);
    var t := SetSpeed(s, wanted, env);
    if t.deck.commands == s.deck.commands {
      AlikeGoesOn(s.deck, t.deck);
    } else {
      SoughtGoesOn(s.deck, c);
      AlikeGoesOn(Commanded(s.deck, c), t.deck);
      GoesOnOn(s.deck, Commanded(s.deck, c), t.deck);
    }
    DeckCarries(s, t);
  }

  lemma SleepTimerCarries(s: State, minutes: nat, env: Env)
    ensures Carries(s, SleepInMinutes(s, minutes, env))
    ensures Carries(s, SleepAtEndOfChapter(s, env))
    ensures Carries(s, CancelSleepTimer(s))
  {
    hide Carries, BookPosition, ChapterEndAt;
    AlikeCarries(s, SleepInMinutes(s, minutes, env));
    AlikeCarries(s, SleepAtEndOfChapter(s, env));
    AlikeCarries(s, CancelSleepTimer(s));
  }

  /** The book is stopped where it is: what holds a track is paused, and it is shown as not playing. */
  lemma StoppedGoesOn(d: Deck, np: NowPlaying, accepted: bool)
    requires d.nowPlaying.Some? && np.loadingTrack == d.nowPlaying.value.loadingTrack && np.needsReload == d.nowPlaying.value.needsReload
    requires np.tracks == d.nowPlaying.value.tracks && !np.isPlaying && d.pendingStart.None?
    ensures GoesOn(d, WithBook(PauseBackendIfLoaded(d, accepted), np))
  {
    hide GoesOn;
    if HoldsTrack(d.nowPlaying.value) { ToldGoesOn(d, np, PauseCommand(accepted)); } else { AlikeGoesOn(d, WithBook(d, np)); }
  }

  lemma MarkAsFinishedCarries(s: State, env: Env)
    ensures Carries(s, MarkAsFinished(s, env))
  {
    hide Carries, GoesOn, WriteProgressAt, PauseBackendIfLoaded;
    if s.deck.pendingStart.Some? || s.deck.nowPlaying.None? {
      AlikeCarries(s, MarkAsFinished(s, env));
    } else {
      StoppedGoesOn(s.deck, s.deck.nowPlaying.value.(isPlaying := false, ended := true), env.pauses);
      DeckCarries(s, MarkAsFinished(s, env));
    }
  }

  lemma ResetBookProgressCarries(s: State, env: Env)
    ensures Carries(s, ResetBookProgress(s, env))
  {
    hide Carries, SeekTo, WriteProgressAt;
    if s.deck.pendingStart.Some? {
      AlikeCarries(s, ResetBookProgress(s, env));
    } else {
      var t := SeekTo(s, 0.0, env);
      SeekToCarries(s, 0.0, env);
      AlikeCarries(t, ResetBookProgress(s, env));
      CarriesOn(s, t, ResetBookProgress(s, env));
    }
  }

  lemma RetireCarries(s: State, env: Env)
    ensures Carries(s, Retire(s, env))
  {
    hide Carries, GoesOn, WriteProgressNow;
    ResetGoesOn(s.deck, Retire(s, env).deck);
    DeckCarries(s, Retire(s, env));
  }

  // ---------------------------------------------------------------- the tick

  lemma ObservePositionCarries(s: State, env: Env)
    requires s.deck.nowPlaying.Some?
    ensures Carries(s, ObservePosition(s, env))
  {
    hide Carries, GoesOn, ObserveSeek, LoadTrackAt, Released;
    AlikeCarries(s, s);
    if env.observed.Some? && s.deck.nowPlaying.value.loadingTrack.None? {
      var Observation(k, verdict) := ObserveSeek(s.deck.nowPlaying.value.seek, env.observed.value, env.fileLength, env.now);
      var np := s.deck.nowPlaying.value.(seek := k);
      AlikeGoesOn(s.deck, WithBook(s.deck, np));
      match verdict {
        case Quiet =>
        case Reissue(target) =>
          SoughtGoesOn(WithBook(s.deck, np), SeekCommand(target));
          GoesOnOn(s.deck, WithBook(s.deck, np), Commanded(WithBook(s.deck, np), SeekCommand(target)));
        case Reload(target) => LoadTrackAtGoesOn(s.deck, np, np.currentTrack, target);
        case Stop => ReleasedGoesOn(s.deck, np.(isPlaying := false, needsReload := true, hasError := true));
      }
      DeckCarries(s, ObservePosition(s, env));
    }
  }

  lemma HandleStreamErrorCarries(s: State, np: NowPlaying, env: Env)
    ensures Carries(s, HandleStreamError(s, np, env))
  {
    hide Carries, GoesOn, Released, WithinTrack, WriteProgress;
    var within := Max(WithinTrack(np, env.reading), 0.0);
    var stopped := np.(needsReload := true, seek := np.seek.(known := within),
                       isPlaying := np.isPlaying && !np.sourceIsLocal, hasError := np.hasError || np.sourceIsLocal);
    ReleasedGoesOn(s.deck, stopped);
    var d := Released(s.deck, stopped);
    SpawnGoesOn(s.deck, d, Recovery(np.book, np.currentTrack, within, d.loadGeneration));
    DeckCarries(s, HandleStreamError(s, np, env));
  }

  lemma StopUnclearCarries(s: State, np: NowPlaying, within: real, env: Env)
    ensures Carries(s, StopUnclear(s, np, within, env))
  {
    hide Carries, GoesOn, Released, WriteProgress;
    ReleasedGoesOn(s.deck, np.(isPlaying := false, needsReload := true, seek := np.seek.(known := within, pending := false)));
    DeckCarries(s, StopUnclear(s, np, within, env));
  }

  /** The book `np` that the end-of-stream was judged for is the one on the deck, as far as the backend
      is concerned. */
  predicate SameTrust(a: NowPlaying, b: NowPlaying) {
    b.loadingTrack == a.loadingTrack && b.needsReload == a.needsReload && b.tracks == a.tracks && b.isPlaying == a.isPlaying
  }

  lemma JudgedTrust(np: NowPlaying, reading: Option<real>, fileLength: Option<real>)
    ensures SameTrust(np, JudgeEndOfStream(np, reading, fileLength).book)
  {
  }

  lemma FinishBookCarries(s: State, np: NowPlaying, env: Env)
    requires s.deck.nowPlaying.Some? && s.deck.pendingStart.None? && SameTrust(s.deck.nowPlaying.value, np)
    ensures Carries(s, FinishBook(s.(deck := WithBook(s.deck, np)), env))
  {
    hide Carries, GoesOn, PauseBackendIfLoaded, WriteProgressNow;
    var d := WithBook(s.deck, np);
    AlikeGoesOn(s.deck, d);
    StoppedGoesOn(d, np.(isPlaying := false, ended := true), env.pauses);
    GoesOnOn(s.deck, d, EndBook(d, env.pauses));
    DeckCarries(s, FinishBook(s.(deck := d), env));
  }

  lemma EndTickCarries(s: State, env: Env)
    requires s.deck.pendingStart.None? || s.deck.nowPlaying.None?
    ensures Carries(s, EndTick(s, env))
  {
    hide Carries, GoesOn, PauseBackendIfLoaded, WriteProgressNow, WriteProgressAt, BookPosition;
    AlikeCarries(s, s);
    var t := if SleepTimerReached(s.deck, env) then SleepNow(s, env) else s;
    if SleepTimerReached(s.deck, env) {
      StoppedGoesOn(s.deck, s.deck.nowPlaying.value.(isPlaying := false, sleepTimer := Off), env.pauses);
      DeckCarries(s, t);
    }
    AlikeCarries(t, KeepTicking(t, env));
    CarriesOn(s, t, KeepTicking(t, env));
  }

  lemma NoStart(s: State, np: NowPlaying, env: Env)
    ensures HandleStreamError(s, np, env).deck.pendingStart == s.deck.pendingStart
    ensures s.deck.nowPlaying.Some? ==> FinishBook(s, env).deck.pendingStart == s.deck.pendingStart
  {
    hide WithinTrack, WriteProgress, WriteProgressNow;
  }

  lemma HandleEndOfStreamCarries(s: State, env: Env)
    requires s.deck.nowPlaying.Some? && s.deck.pendingStart.None?
    ensures Carries(s, HandleEndOfStream(s, env))
  {
    hide Carries, GoesOn, JudgeEndOfStream, HandleStreamError, StopUnclear, FinishBook, LoadTrackAt, EndTick, SameTrust;
    var Judgement(np, verdict) := JudgeEndOfStream(s.deck.nowPlaying.value, env.reading, env.fileLength);
    JudgedTrust(s.deck.nowPlaying.value, env.reading, env.fileLength);
    match verdict
    case Unclear(within) => StopUnclearCarries(s, np, within, env);
    case Premature =>
      var t := HandleStreamError(s, np, env);
      HandleStreamErrorCarries(s, np, env);
      NoStart(s, np, env);
      EndTickCarries(t, env);
      CarriesOn(s, t, EndTick(t, env));
    case RealEnd =>
      if np.currentTrack + 1 < |np.tracks| {
        LoadTrackAtGoesOn(s.deck, np, np.currentTrack + 1, 0.0);
        DeckCarries(s, HandleEndOfStream(s, env));
      } else {
        var j := s.(deck := WithBook(s.deck, np));
        FinishBookCarries(s, np, env);
        NoStart(j, np, env);
        EndTickCarries(FinishBook(j, env), env);
        CarriesOn(s, FinishBook(j, env), EndTick(FinishBook(j, env), env));
      }
  }

  lemma HandleEventCarries(s: State, event: Option<PlayerEvent>, env: Env)
    requires s.deck.pendingStart.None? || s.deck.nowPlaying.None?
    ensures Carries(s, HandleEvent(s, event, env))
  {
    hide Carries, HandleStreamError, HandleEndOfStream, EndTick;
    if s.deck.nowPlaying.None? || event.None? {
      EndTickCarries(s, env);
    } else if event.value.StreamError? {
      var t := HandleStreamError(s, s.deck.nowPlaying.value, env);
      HandleStreamErrorCarries(s, s.deck.nowPlaying.value, env);
      NoStart(s, s.deck.nowPlaying.value, env);
      EndTickCarries(t, env);
      CarriesOn(s, t, EndTick(t, env));
    } else {
      HandleEndOfStreamCarries(s, env);
    }
  }

  lemma TickCarries(asked: Option<Book>, s: State, env: Env)
    requires Safe(asked, s.deck)
    ensures Carries(s, Tick(s, env))
  {
    hide Carries, GoesOn, Safe, ObservePosition, HandleEvent;
    if s.deck.nowPlaying.None? {
      AlikeCarries(s, Tick(s, env));
    } else {
      var o := ObservePosition(s, env);
      ObservePositionCarries(s, env);
      ObservePositionSafe(asked, s, env);
      LoadedBook(asked, o.deck);
      var t := o.(deferredEvent := None);
      AlikeGoesOn(o.deck, t.deck);
      DeckCarries(o, t);
      CarriesOn(s, o, t);
      HandleEventCarries(t, NextEvent(o.deferredEvent, env.polled), env);
      CarriesOn(s, t, Tick(s, env));
    }
  }

  // ---------------------------------------------------------------- resumed tasks

  lemma FailStartGoesOn(d: Deck, task: Task)
    requires task.StartTask?
    ensures GoesOn(d, FailStart(d, task))
  {
    hide GoesOn;
    if PendingIs(d, task.generation) { ResetGoesOn(d, FailStart(d, task)); } else { AlikeGoesOn(d, d); }
  }

  /** The started book is installed, and the backend told to play it if that is wanted. */
  lemma InstalledGoesOn(d: Deck, np: NowPlaying, plays: bool)
    requires d.pendingStart.Some? && np.loadingTrack.None? && (np.needsReload ==> !np.isPlaying)
    ensures GoesOn(d, Installed(d, np, plays))
  {
    Appended(d.commands, PlayCommand(plays));
  }

  lemma FinishStartCarries(s: State, task: Task, prepared: StartStage, loaded: bool, speed: real, env: Env)
    requires task.StartTask? && prepared.StartPreroll? && s.deck.pendingStart.Some?
    ensures Carries(s, FinishStart(s, task, prepared, loaded, speed, env))
  {
    hide Carries, GoesOn, ResetBookProgress, MarkAsFinished;
    var np := StartedBook(task.book, prepared, loaded, s.deck.pendingStart.value.wantsPlay, speed, env.now);
    InstalledGoesOn(s.deck, np, env.plays);
    var r := s.(deck := Installed(s.deck, np, env.plays),
                saving := s.saving.(lastProgressWrite := env.now, lastPlayedAt := env.now),
                ticking := s.ticking || np.isPlaying);
    DeckCarries(s, r);
    MarkAsFinishedCarries(r, env);
    ResetBookProgressCarries(r, env);
    match s.deck.pendingStart.value.intent
    case None =>
    case Some(ResetProgress) => CarriesOn(s, r, ResetBookProgress(r, env));
    case Some(MarkFinished) => CarriesOn(s, r, MarkAsFinished(r, env));
  }

  lemma SoughtCarries(s: State, c: Command)
    requires c.SeekCommand? || c.SpeedCommand?
    ensures Carries(s, s.(deck := Commanded(s.deck, c)))
  {
    hide Carries, GoesOn;
    SoughtGoesOn(s.deck, c);
    DeckCarries(s, s.(deck := Commanded(s.deck, c)));
  }

  lemma SettleStartCarries(s: State, task: Task, env: Env)
    requires task.StartTask? && task.startStage.StartPreroll? && s.deck.pendingStart.Some?
    ensures Carries(s, SettleStart(s, task, env))
  {
    hide Carries, FinishStart, SpeedChanged;
    var within := task.startStage.within;
    var c := if SpeedChanged(task.speed, 1.0) then SpeedCommand(task.speed, within) else SeekCommand(within);
    var t := s.(deck := Commanded(s.deck, c));
    SoughtCarries(s, c);
    var speed := if SpeedChanged(task.speed, 1.0) && env.speedAccepted then task.speed else 1.0;
    FinishStartCarries(t, task, task.startStage, true, speed, env);
    CarriesOn(s, t, FinishStart(t, task, task.startStage, true, speed, env));
    FinishStartCarries(s, task, task.startStage, true, 1.0, env);
  }

  lemma PollStartCarries(s: State, task: Task, env: Env)
    requires task.StartTask? && task.startStage.StartPreroll?
    ensures Carries(s, PollStart(s, task, env))
  {
    hide Carries, SettleStart, SpeedChanged;
    AlikeCarries(s, s);
    var stage := task.startStage;
    AlikeCarries(s, s.(deck := Spawn(s.deck, task.(startStage := stage.(polls := stage.polls + 1)))));
    if PendingIs(s.deck, task.generation) { SettleStartCarries(s, task, env); }
  }

  /** A file is handed over, or refused, under a new load generation while the start goes on. */
  lemma HandedOverGoesOn(d: Deck, c: Command, pauses: bool)
    requires d.pendingStart.Some? && d.nowPlaying.None? && (c.LoadAccepted? || c.LoadRefused?)
    ensures var n := d.(loadGeneration := d.loadGeneration + 1);
            GoesOn(d, Commanded(Commanded(n, c), PauseCommand(pauses))) && GoesOn(d, ResetBackend(Commanded(n, c)))
  {
    Appended(d.commands, c);
    Appended(d.commands + [c], PauseCommand(pauses));
    Appended(d.commands + [c], ResetCommand);
  }

  lemma LoadStartCarries(s: State, task: Task, saved: Option<(real, bool)>, isLocal: bool, env: Env)
    requires task.StartTask? && task.startStage.Placing? && PendingIs(s.deck, task.generation) && s.deck.nowPlaying.None?
    ensures Carries(s, LoadStart(s, task, saved, isLocal, env))
  {
    hide Carries, GoesOn, PollStart, FinishStart, StartPosition, LocateTrack;
    var target := task.startStage.target;
    var at := StartPosition(task.startStage.chapterStart, saved, target.duration);
    var (track, within) := if at.Some? then LocateTrack(target.tracks, at.value) else (0, 0.0);
    var n := s.deck.(loadGeneration := s.deck.loadGeneration + 1);
    var prepared := StartPreroll(target, track, within, n.loadGeneration, isLocal, 0);
    if env.accepted {
      var t := s.(deck := Commanded(Commanded(n, LoadAccepted(task.book, track)), PauseCommand(env.pauses)));
      HandedOverGoesOn(s.deck, LoadAccepted(task.book, track), env.pauses);
      DeckCarries(s, t);
      PollStartCarries(t, task.(startStage := prepared), env);
      CarriesOn(s, t, PollStart(t, task.(startStage := prepared), env));
    } else {
      var t := s.(deck := ResetBackend(Commanded(n, LoadRefused(task.book, track))));
      HandedOverGoesOn(s.deck, LoadRefused(task.book, track), env.pauses);
      DeckCarries(s, t);
      FinishStartCarries(t, task, prepared, false, 1.0, env);
      CarriesOn(s, t, FinishStart(t, task, prepared, false, 1.0, env));
    }
  }

  lemma ResumeStartCarries(s: State, task: Task, outcome: Outcome, env: Env)
    requires task.StartTask? && (s.deck.pendingStart.Some? ==> s.deck.nowPlaying.None?)
    ensures Carries(s, ResumeStart(s, task, outcome, env))
  {
    hide Carries, GoesOn, PollStart, LoadStart, FailStart;
    AlikeCarries(s, s);
    AlikeCarries(s, s.(deck := Spawn(s.deck, task)));
    if task.startStage.StartPreroll? {
      PollStartCarries(s, task, env);
    } else if PendingIs(s.deck, task.generation) {
      FailStartGoesOn(s.deck, task);
      DeckCarries(s, s.(deck := FailStart(s.deck, task)));
      if task.startStage.Placing? && outcome.Placed? { LoadStartCarries(s, task, outcome.saved, outcome.startIsLocal, env); }
      if outcome.Resolved? { AlikeCarries(s, s.(deck := PlaceStart(s.deck, task, outcome.target))); }
    }
  }

  lemma FailLoadGoesOn(d: Deck)
    requires d.nowPlaying.Some?
    ensures GoesOn(d, FailLoad(d))
  {
    ReleasedGoesOn(d, d.nowPlaying.value.(isPlaying := false, needsReload := true, hasError := true));
  }

  /** The file that was loading is the book's current one, and is played if that is wanted. */
  lemma SettledGoesOn(d: Deck, np: NowPlaying, plays: bool)
    requires d.nowPlaying.Some? && d.nowPlaying.value.loadingTrack.Some? && d.pendingStart.None? && np.loadingTrack.None?
    ensures GoesOn(d, WithBook(if np.isPlaying then Commanded(d, PlayCommand(plays)) else d, np))
  {
    Appended(d.commands, PlayCommand(plays));
  }

  lemma SettleLoadGoesOn(d: Deck, isLocal: bool, plays: bool, now: Time)
    requires d.nowPlaying.Some? && d.nowPlaying.value.loadingTrack.Some? && d.pendingStart.None?
    ensures GoesOn(d, SettleLoad(d, isLocal, plays, now))
  {
    hide GoesOn, SpeedChanged;
    var np := d.nowPlaying.value;
    var within := np.seek.known;
    var seeking := within > 0.0;
    var c := if SpeedChanged(np.speed, 1.0) then SpeedCommand(np.speed, within) else SeekCommand(within);
    var sought := if SpeedChanged(np.speed, 1.0) || seeking then Commanded(d, c) else d;
    AlikeGoesOn(d, d);
    SoughtGoesOn(d, c);
    SettledGoesOn(sought, np.(hasError := false, needsReload := false, loadingTrack := None, speedUnapplied := None, sourceIsLocal := isLocal,
                              seek := SeekState(within, seeking, if seeking then Some(now) else None, 0, np.seek.reloadUsed)), plays);
    GoesOnOn(d, sought, SettleLoad(d, isLocal, plays, now));
  }

  lemma PollLoadGoesOn(d: Deck, task: Task, needsSeek: bool, env: Env)
    requires task.LoadTask? && task.loadStage.LoadPreroll? && (d.pendingStart.Some? ==> d.nowPlaying.None?)
    ensures GoesOn(d, PollLoad(d, task, needsSeek, env))
  {
    hide GoesOn, SettleLoad;
    AlikeGoesOn(d, d);
    if LoadIsCurrent(d, task) {
      SettleLoadGoesOn(d, task.loadStage.isLocal, env.plays, env.now);
      AlikeGoesOn(d, Spawn(d, task.(loadStage := task.loadStage.(polls := task.loadStage.polls + 1))));
    }
  }

  lemma ReceivedGoesOn(d: Deck, c: Command)
    requires d.nowPlaying.Some? && d.nowPlaying.value.loadingTrack.Some? && (c.LoadAccepted? || c.LoadRefused? || c.PauseCommand?)
    ensures GoesOn(d, Commanded(d, c))
  {
    Appended(d.commands, c);
  }

  lemma ConnectLoadGoesOn(d: Deck, task: Task, track: nat, isLocal: bool, env: Env)
    requires task.LoadTask? && LoadIsCurrent(d, task) && d.pendingStart.None?
    ensures GoesOn(d, ConnectLoad(d, task, track, isLocal, env))
  {
    hide GoesOn, PollLoad, FailLoad, SpeedChanged;
    var np := d.nowPlaying.value;
    if env.offline && !isLocal {
      FailLoadGoesOn(d);
    } else if !env.accepted {
      var l := Commanded(d, LoadRefused(task.book, track));
      ReceivedGoesOn(d, LoadRefused(task.book, track));
      FailLoadGoesOn(l);
      GoesOnOn(d, l, FailLoad(l));
    } else {
      var l := Commanded(d, LoadAccepted(task.book, track));
      ReceivedGoesOn(d, LoadAccepted(task.book, track));
      ReceivedGoesOn(l, PauseCommand(env.pauses));
      var needsSeek := np.seek.known > 0.0 || SpeedChanged(np.speed, 1.0);
      var p := if needsSeek then Commanded(l, PauseCommand(env.pauses)) else l;
      if needsSeek { GoesOnOn(d, l, p); }
      var polling := task.(loadStage := LoadPreroll(track, isLocal, 0));
      PollLoadGoesOn(p, polling, needsSeek, env);
      GoesOnOn(d, p, PollLoad(p, polling, needsSeek, env));
    }
  }

  lemma ResumeLoadGoesOn(d: Deck, task: Task, outcome: Outcome, env: Env)
    requires task.LoadTask? && (d.pendingStart.Some? ==> d.nowPlaying.None?)
    ensures GoesOn(d, ResumeLoad(d, task, outcome, env))
  {
    hide GoesOn, PollLoad, FailLoad, ConnectLoad;
    AlikeGoesOn(d, d);
    AlikeGoesOn(d, Spawn(d, task));
    if LoadIsCurrent(d, task) {
      FailLoadGoesOn(d);
      AlikeGoesOn(d, Spawn(d, task.(loadStage := Connecting(d.nowPlaying.value.currentTrack))));
      match task.loadStage
      case LoadPreroll(_, _, _) => PollLoadGoesOn(d, task, true, env);
      case Spawned =>
      case Connecting(track) => if outcome.Answered? { ConnectLoadGoesOn(d, task, track, outcome.isLocal, env); }
    }
  }

  lemma ResumePauseConfirmationGoesOn(d: Deck, task: Task, paused: bool)
    requires task.PauseConfirmation?
    ensures GoesOn(d, ResumePauseConfirmation(d, task, paused))
  {
    hide GoesOn, Released;
    AlikeGoesOn(d, d);
    AlikeGoesOn(d, Spawn(d, task.(attempt := task.attempt + 1)));
    if d.nowPlaying.Some? { ReleasedGoesOn(d, d.nowPlaying.value.(hasError := true, needsReload := true)); }
  }

  lemma ResumeLocalFileCheckGoesOn(d: Deck, task: Task, outcome: Outcome)
    requires task.LocalFileCheck?
    ensures GoesOn(d, ResumeLocalFileCheck(d, task, outcome))
  {
    hide GoesOn, LoadTrackAt;
    AlikeGoesOn(d, d);
    AlikeGoesOn(d, Spawn(d, task));
    if d.nowPlaying.Some? { LoadTrackAtGoesOn(d, d.nowPlaying.value, task.track, d.nowPlaying.value.seek.known); }
  }

  /** A recovery that gives up silences a book whose stream is released already. */
  lemma ResumeRecoveryCarries(s: State, task: Task, outcome: Outcome, now: Time)
    requires task.Recovery? && TaskOk(s.deck, task)
    ensures Carries(s, ResumeRecovery(s, task, outcome, now))
  {
    hide Carries, GoesOn, LoadTrackAt;
    var d := s.deck;
    AlikeGoesOn(d, d);
    AlikeGoesOn(d, Spawn(d, task));
    if d.nowPlaying.Some? {
      LoadTrackAtGoesOn(d, d.nowPlaying.value, task.track, task.within);
      if d.loadGeneration == task.generation { AlikeGoesOn(d, WithBook(d, d.nowPlaying.value.(isPlaying := false, hasError := true))); }
    }
    DeckCarries(s, ResumeRecovery(s, task, outcome, now));
  }

  lemma ResumeReconcileCarries(s: State, task: Task, outcome: Outcome, env: Env)
    requires task.Reconcile?
    ensures Carries(s, ResumeReconcile(s, task, outcome, env))
  {
    hide Carries, SeekTo, WriteProgress;
    var t := if s.saving.holdingWrites == Some(task.session) then s.(saving := s.saving.(holdingWrites := None)) else s;
    AlikeCarries(s, s.(deck := Spawn(s.deck, task)));
    AlikeCarries(s, t);
    AlikeCarries(t, SaveProgressNow(t, env));
    CarriesOn(s, t, SaveProgressNow(t, env));
    if outcome.Reconciled? && outcome.after.Some? {
      SeekToCarries(t, outcome.after.value.0, env);
      CarriesOn(s, t, SeekTo(t, outcome.after.value.0, env));
    }
  }

  lemma SavedCarries(s: State, task: Task, outcome: Outcome, env: Env)
    requires task.PausedSeekTimer? || task.PendingSync?
    ensures Carries(s, Continue(s, task, outcome, env))
  {
    hide Carries, WriteProgress;
    AlikeCarries(s, Continue(s, task, outcome, env));
  }

  lemma ReplugTimerCarries(asked: Option<Book>, s: State, task: Task, env: Env)
    requires task.ReplugTimer? && Safe(asked, s.deck)
    ensures Carries(s, ResumeReplugTimer(s, task, env))
  {
    hide Carries, Play, Safe, ReplugResumes;
    var t := s.(marks := s.marks.(pausedByUnplug := false, log := s.marks.log + [ReplugResumed]));
    AlikeCarries(s, s);
    AlikeCarries(s, t);
    PlayCarries(asked, t, env);
    CarriesOn(s, t, Play(t, env));
  }

  lemma ContinueCarries(asked: Option<Book>, s: State, task: Task, outcome: Outcome, env: Env)
    requires s.deck.pendingStart.Some? ==> s.deck.nowPlaying.None?
    requires !task.StartTask? && !task.LoadTask? ==> Safe(asked, s.deck) && TaskOk(s.deck, task)
    ensures Carries(s, Continue(s, task, outcome, env))
  {
    hide Carries, GoesOn, Safe, TaskOk, ResumeStart, ResumeLoad, ResumePauseConfirmation, ResumeLocalFileCheck, ResumeRecovery, ResumeReconcile,
         ResumeReplugTimer;
    match task
    case StartTask(_, _, _, _) => ResumeStartCarries(s, task, outcome, env);
    case LoadTask(_, _, _) =>
      ResumeLoadGoesOn(s.deck, task, outcome, env);
      DeckCarries(s, Continue(s, task, outcome, env));
    case PauseConfirmation(_, _, _) =>
      ResumePauseConfirmationGoesOn(s.deck, task, env.paused);
      DeckCarries(s, Continue(s, task, outcome, env));
    case LocalFileCheck(_, _, _) =>
      ResumeLocalFileCheckGoesOn(s.deck, task, outcome);
      DeckCarries(s, Continue(s, task, outcome, env));
    case Recovery(_, _, _, _) => ResumeRecoveryCarries(s, task, outcome, env.now);
    case Reconcile(_, _, _, _) => ResumeReconcileCarries(s, task, outcome, env);
    case ReplugTimer(_) => ReplugTimerCarries(asked, s, task, env);
    case _ => SavedCarries(s, task, outcome, env);
  }

  lemma ResumeTaskCarries(asked: Option<Book>, s: State, task: Task, outcome: Outcome, env: Env)
    requires Safe(asked, s.deck)
    ensures Carries(s, ResumeTask(s, task, outcome, env))
  {
    hide Carries, Safe, TaskOk, Continue, Taken;
    AlikeCarries(s, s);
    if task in s.deck.tasks {
      var t := s.(deck := Taken(s.deck, task));
      LoadedBook(asked, s.deck);
      TakenAlike(s.deck, task);
      AlikeCarries(s, t);
      if !task.StartTask? && !task.LoadTask? { ResumeAimedSafe(asked, s.deck, task); }
      ContinueCarries(asked, t, task, outcome, env);
      CarriesOn(s, t, Continue(t, task, outcome, env));
    }
  }

  lemma TakenAlike(d: Deck, task: Task)
    ensures Alike(d, Taken(d, task)) && Taken(d, task).pendingStart == d.pendingStart && Taken(d, task).nowPlaying == d.nowPlaying
  {
  }

  // ---------------------------------------------------------------- every step and every run

  lemma PausingCarries(asked: Option<Book>, s: State, env: Env)
    requires Safe(asked, s.deck)
    ensures Carries(s, Unplugged(s, env)) && Carries(s, CallStarted(s, env))
  {
    hide Carries, Safe, Pause;
    var t := s.(marks := RouteChanged(s.marks));
    AlikeCarries(s, s);
    AlikeCarries(s, t);
    PauseCarries(asked, t, env);
    PauseCarries(asked, s, env);
    var p, q := Pause(t, env), Pause(s, env);
    CarriesOn(s, t, p);
    AlikeCarries(p, p.(marks := p.marks.(pausedByUnplug := true, unplugPausedAt := Some(env.now), log := p.marks.log + [UnplugPaused])));
    CarriesOn(s, p, p.(marks := p.marks.(pausedByUnplug := true, unplugPausedAt := Some(env.now), log := p.marks.log + [UnplugPaused])));
    AlikeCarries(q, q.(marks := q.marks.(pausedByCall := true, log := q.marks.log + [CallPaused])));
    CarriesOn(s, q, q.(marks := q.marks.(pausedByCall := true, log := q.marks.log + [CallPaused])));
  }

  lemma CallEndedCarries(asked: Option<Book>, s: State, answered: bool, outgoing: bool, env: Env)
    requires Safe(asked, s.deck)
    ensures Carries(s, CallEnded(s, answered, outgoing, env))
  {
    hide Carries, Safe, Play, CallResumes;
    var t := s.(marks := s.marks.(pausedByCall := false, log := s.marks.log + [CallResumed]));
    AlikeCarries(s, t);
    AlikeCarries(s, s.(marks := s.marks.(pausedByCall := false, log := s.marks.log + [CallOver])));
    PlayCarries(asked, t, env);
    CarriesOn(s, t, Play(t, env));
  }

  lemma StepCarries(asked: Option<Book>, s: State, event: Event, env: Env)
    requires Safe(asked, s.deck)
    ensures Carries(s, Step(s, event, env))
  {
    hide Carries, Safe, StartWith, Play, Pause, SeekTo, SetSpeed, MarkAsFinished, ResetBookProgress, Tick, ResumeTask, SleepInMinutes,
         SleepAtEndOfChapter, CancelSleepTimer, WriteProgress, Retire, Unplugged, CallStarted, CallEnded;
    AlikeCarries(s, s);
    match event
    case DoStart(book, speed, chapter) => StartWithCarries(asked, s, book, speed, chapter, env);
    case DoPlay => PlayCarries(asked, s, env);
    case DoPause => PauseCarries(asked, s, env);
    case DoToggle => PlayCarries(asked, s, env); PauseCarries(asked, s, env);
    case DoExternalToggle => PlayCarries(asked, s, env); PauseCarries(asked, s, env);
    case DoSeek(seconds) => SeekToCarries(s, seconds, env);
    case DoSetSpeed(speed) => SetSpeedCarries(s, speed, env);
    case DoSleepMinutes(minutes) => SleepTimerCarries(s, minutes, env);
    case DoSleepChapter => SleepTimerCarries(s, 0, env);
    case DoCancelSleep => SleepTimerCarries(s, 0, env);
    case DoMarkFinished => MarkAsFinishedCarries(s, env);
    case DoReset => ResetBookProgressCarries(s, env);
    case DoSaveNow => AlikeCarries(s, Step(s, event, env));
    case DoSyncPending => AlikeCarries(s, Step(s, event, env));
    case DoRetire => RetireCarries(s, env);
    case DoHeadphoneSettings(_, _) => AlikeCarries(s, Step(s, event, env));
    case DoUnplug => PausingCarries(asked, s, env);
    case DoReplug => AlikeCarries(s, Step(s, event, env));
    case DoCallStart => PausingCarries(asked, s, env);
    case DoCallAnswered => AlikeCarries(s, Step(s, event, env));
    case DoCallEnd(answered, outgoing) => CallEndedCarries(asked, s, answered, outgoing, env);
    case DoTick => TickCarries(asked, s, env);
    case DoResume(task, outcome) => ResumeTaskCarries(asked, s, task, outcome, env);
  }

  lemma {:induction false} RunCarries(asked: Option<Book>, s: State, events: seq<(Event, Env)>)
    requires Safe(asked, s.deck)
    ensures Carries(s, Run(s, events)) && Safe(AskedBy(asked, events), Run(s, events).deck)
    decreases |events|
  {
    hide Carries, Safe, Step;
    AlikeCarries(s, s);
    if events != [] {
      var t := Step(s, events[0].0, events[0].1);
      StepCarries(asked, s, events[0].0, events[0].1);
      StepSafe(asked, s, events[0].0, events[0].1);
      RunCarries(AskedAfter(asked, events[0].0), t, events[1..]);
      CarriesOn(s, t, Run(t, events[1..]));
    }
  }

  lemma InitialTold(now: Time)
    ensures Told(Initial(now).deck) && KeptOk(Initial(now)) && Initial(now).deck.held == HeldBy(Initial(now).deck.commands)
  {
  }

  lemma {:induction false} RunFromTheStart(now: Time, events: seq<(Event, Env)>)
    ensures var s := Run(Initial(now), events);
            Told(s.deck) && KeptOk(s) && s.deck.held == HeldBy(s.deck.commands) && Safe(AskedBy(None, events), s.deck)
  {
    hide Run, Told, KeptOk, HeldBy, Safe;
    InitialSafe(now);
    InitialTold(now);
    RunCarries(None, Initial(now), events);
  }

  // ---------------------------------------------------------------- what is shown and what sounds

  /** The last request to play or to pause the file was accepted, or asked for what the backend was
      doing anyway. */
  predicate Obeyed(commands: seq<Command>) {
    commands == []
    || var c, before := commands[|commands| - 1], commands[..|commands| - 1];
       if c.PlayCommand? || c.PauseCommand? then c.accepted || Sounding(before) == c.PlayCommand?
       else Replaces(c) || Obeyed(before)
  }

  lemma {:induction false} SoundsAsAskedIff(commands: seq<Command>)
    ensures Sounding(commands) == AskedToPlay(commands) <==> Obeyed(commands)
  {
    if commands != [] { SoundsAsAskedIff(commands[..|commands| - 1]); }
  }

  /** In every run, while the backend holds the book's file: the book is shown as playing exactly when
      the backend was last asked to play that file, and so the backend does what is shown exactly when
      it obeyed that last request. */
  lemma {:induction false} SoundsAsShownIff(now: Time, events: seq<(Event, Env)>)
    ensures var d := Run(Initial(now), events).deck;
            d.nowPlaying.Some? && HoldsTrack(d.nowPlaying.value) ==>
              && d.nowPlaying.value.isPlaying == AskedToPlay(d.commands)
              && (Sounding(d.commands) == d.nowPlaying.value.isPlaying <==> Obeyed(d.commands))
  {
    hide Run, KeptOk, HeldBy, Safe;
    RunFromTheStart(now, events);
    SoundsAsAskedIff(Run(Initial(now), events).deck.commands);
  }

  // ---------------------------------------------------------------- kept events

  lemma {:induction false} SameFileHeld(commands: seq<Command>, at: nat)
    requires at <= |commands| && SameFileSince(commands, at)
    ensures HeldBy(commands) == HeldBy(commands[..at])
  {
    if at < |commands| {
      var init := commands[..|commands| - 1];
      assert !Replaces(commands[|commands| - 1]);
      assert forall i | at <= i < |init| :: init[i] == commands[i];
      SameFileHeld(init, at);
      assert init[..at] == commands[..at];
    } else {
      assert commands[..at] == commands;
    }
  }

  /** In every run, an event that was kept is about the file the backend holds when the tick takes it
      up if and only if the load generation is the one it was kept under: then no start, release or
      load came between, and the backend still holds the file that posted it. The player looks at
      neither. */
  lemma {:induction false} KeptEventIsOfTheFileHeldIff(now: Time, events: seq<(Event, Env)>, env: Env)
    requires Run(Initial(now), events).deck.nowPlaying.Some?
    ensures var o := ObservePosition(Run(Initial(now), events), env);
            o.deferredEvent.Some? ==>
              var k := o.deferredEvent.value;
              && k.at <= |o.deck.commands|
              && (k.generation == o.deck.loadGeneration <==> SameFileSince(o.deck.commands, k.at))
              && (k.generation == o.deck.loadGeneration ==> o.deck.held == HeldBy(o.deck.commands[..k.at]))
  {
    hide Run, ObservePosition, Told, HeldBy, Safe;
    var s := Run(Initial(now), events);
    RunFromTheStart(now, events);
    ObservePositionCarries(s, env);
    var o := ObservePosition(s, env);
    if o.deferredEvent.Some? && o.deferredEvent.value.generation == o.deck.loadGeneration {
      SameFileHeld(o.deck.commands, o.deferredEvent.value.at);
    }
  }
}
