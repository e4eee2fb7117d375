/** The player controller in its own form: fields updated in place by one method per operation and
    per stretch of an asynchronous task. Every method leaves exactly the state the state machine of
    `PlayerSpec` gives, and `RunAll` carries that over whole runs. */
module Player {
  import opened Prelude
  import opened PlayerTypes
  import opened PlayerSpec
  import Spec = PlayerSpec

  class PlayerController {
    var deck: Deck
    var marks: Marks
    var saving: Saving
    var lastAutoRecoverAt: Option<Time>
    var deferredEvent: Option<KeptEvent>
    var ticking: bool

    function View(): State
      reads this
    {
      State(deck, marks, saving, lastAutoRecoverAt, deferredEvent, ticking)
    }

    constructor (now: Time)
      ensures View() == Spec.Initial(now)
    {
      deck := Deck(None, None, 0, 0, 0, multiset{}, [], None);
      marks := Marks(false, false, false, None, 0, false, []);
      saving := Saving(now, now, None, 0, []);
      lastAutoRecoverAt, deferredEvent, ticking := None, None, false;
    }

    // -------------------------------------------------------------- the backend and the tasks

    method Tell(command: Command)
      modifies this`deck
      ensures deck == Spec.Commanded(old(deck), command)
    {
      deck := deck.(commands := deck.commands + [command]);
      match command {
        case LoadAccepted(book, track) => deck := deck.(held := Some((book, track)));
        case ResetCommand => deck := deck.(held := None);
        case _ =>
      }
    }

    method Spawn(task: Task)
      modifies this`deck
      ensures deck == Spec.Spawn(old(deck), task)
    {
      deck := deck.(tasks := deck.tasks + multiset{task});
    }

    method ResetBackend()
      modifies this`deck
      ensures deck == Spec.ResetBackend(old(deck))
    {
      Tell(ResetCommand);
      deck := deck.(loadGeneration := deck.loadGeneration + 1);
      if deck.nowPlaying.Some? {
        deck := deck.(nowPlaying := Some(deck.nowPlaying.value.(loadingTrack := None)));
      }
    }

    method PauseBackendIfLoaded(accepted: bool)
      modifies this`deck
      ensures deck == Spec.PauseBackendIfLoaded(old(deck), accepted)
    {
      if deck.nowPlaying.Some? && HoldsTrack(deck.nowPlaying.value) {
        Tell(PauseCommand(accepted));
      }
    }

    /** Releases the backend and leaves the loaded book as `np`. */
    method Release(np: NowPlaying)
      modifies this`deck
      ensures deck == Spec.Released(old(deck), np)
    {
      ResetBackend();
      deck := deck.(nowPlaying := Some(np.(loadingTrack := None)));
    }

    /** Switches the book, as `np` has it, to `track`: the old file is released at once and the
        position pinned, then the load is left to a task. */
    method LoadTrackAt(np: NowPlaying, track: nat, within: real)
      modifies this`deck
      ensures deck == Spec.LoadTrackAt(old(deck), np, track, within)
    {
      ResetBackend();
      deck := deck.(loadGeneration := deck.loadGeneration + 1);
      var seek := np.seek.(known := within, pending := true, issuedAt := None, retries := 0);
      deck := deck.(nowPlaying := Some(np.(currentTrack := track, seek := seek, loadingTrack := Some(deck.loadGeneration))));
      Spawn(LoadTask(np.book, deck.loadGeneration, Spawned));
    }

    // -------------------------------------------------------------- marks and writes

    method ClearMarks(why: Happening)
      modifies this`marks
      ensures marks == Spec.ClearMarks(old(marks), why)
    {
      marks := marks.(pausedByUnplug := false);
      marks := marks.(pausedByCall := false);
      marks := marks.(log := marks.log + [why]);
    }

    method Note(what: Happening)
      modifies this`marks
      ensures marks == Spec.Noted(old(marks), what)
    {
      marks := marks.(log := marks.log + [what]);
    }

    method WriteProgressAt(position: real, finished: bool, force: bool, now: Time)
      modifies this`saving
      ensures saving == Spec.WriteProgressAt(old(saving), deck, position, finished, force, now)
    {
      if deck.nowPlaying.None? || deck.nowPlaying.value.tracks == [] {
        return;
      }
      var np := deck.nowPlaying.value;
      saving := saving.(lastProgressWrite := now);
      saving := saving.(writes := saving.writes + [WriteAsk(np.book, position, finished, force, np.duration, np.ended)]);
    }

    method WriteProgressNow(reading: Option<real>, now: Time)
      modifies this`saving
      ensures saving == Spec.WriteProgressNow(old(saving), deck, reading, now)
    {
      if deck.nowPlaying.None? {
        return;
      }
      if deck.nowPlaying.value.ended {
        WriteProgressAt(deck.nowPlaying.value.duration, true, true, now);
      } else {
        var position := BookPosition(reading);
        WriteProgressAt(position, false, true, now);
      }
    }

    method WriteProgress(reading: Option<real>, now: Time)
      modifies this`saving
      ensures saving == Spec.WriteProgress(old(saving), deck, reading, now)
    {
      if saving.holdingWrites.Some? {
        return;
      }
      WriteProgressNow(reading, now);
    }

    method BookPosition(reading: Option<real>) returns (position: real)
      ensures position == Spec.BookPosition(deck, reading)
    {
      if deck.nowPlaying.None? {
        return 0.0;
      }
      var np := deck.nowPlaying.value;
      var within := np.seek.known;
      if !np.seek.pending && reading.Some? {
        within := reading.value;
      }
      if np.currentTrack >= |np.tracks| {
        return within;
      }
      var track := np.tracks[np.currentTrack];
      if track.duration > 0.0 && track.duration < within {
        within := track.duration;
      }
      return track.offset + within;
    }

    method DropStaleEndOfStream(errorWaiting: bool)
      modifies this`deferredEvent
      ensures deferredEvent == Spec.AfterDroppingEndOfStream(old(deferredEvent), Keep(deck, StreamError), errorWaiting)
    {
      if deferredEvent.None? && errorWaiting {
        deferredEvent := Some(Keep(deck, StreamError));
      }
    }

    // -------------------------------------------------------------- observing the position

    /** Compares a reading with the seek it should have reached: the seek as the reading leaves it,
        and what is to be done. */
    method CheckSeek(before: SeekState, within: real, fileLength: Option<real>, now: Time) returns (seek: SeekState, verdict: SeekVerdict)
      ensures Observation(seek, verdict) == Spec.ObserveSeek(before, within, fileLength, now)
    {
      seek, verdict := before, Quiet;
      if seek.pending {
        if !Landed(seek.known, within, fileLength) {
          if seek.issuedAt.None? || now < seek.issuedAt.value + SEEK_REISSUE_AFTER {
            return;
          }
          if seek.retries < MAX_SEEK_REISSUES {
            seek := seek.(retries := seek.retries + 1, issuedAt := Some(now));
            return seek, Reissue(seek.known);
          }
          if seek.reloadUsed {
            return seek.(issuedAt := None), Stop;
          }
          return seek.(reloadUsed := true), Reload(seek.known);
        }
        seek := seek.(pending := false, issuedAt := None, retries := 0, reloadUsed := false);
      }
      seek := seek.(known := within);
    }

    method ObservePosition(env: Env)
      modifies this
      ensures View() == Spec.ObservePosition(old(View()), env)
    {
      hide Spec.LoadTrackAt, Spec.Released, Spec.ObserveSeek, Spec.AfterDroppingEndOfStream, Spec.Commanded;
      if env.observed.None? || deck.nowPlaying.None? || deck.nowPlaying.value.loadingTrack.Some? {
        return;
      }
      var seek, verdict := CheckSeek(deck.nowPlaying.value.seek, env.observed.value, env.fileLength, env.now);
      var np := deck.nowPlaying.value.(seek := seek);
      match verdict {
        case Quiet =>
          deck := deck.(nowPlaying := Some(np));
          return;
        case Reissue(target) =>
          deck := deck.(nowPlaying := Some(np));
          DropStaleEndOfStream(env.errorWaiting);
          Tell(SeekCommand(target));
          return;
        case Reload(target) =>
          LoadTrackAt(np, np.currentTrack, target);
          return;
        case Stop =>
          Release(np.(isPlaying := false, needsReload := true, hasError := true));
      }
    }

    // -------------------------------------------------------------- starting a book

    method BeginStart(book: Book, speed: real, chapter: Option<nat>)
      modifies this`deck
      ensures deck == Spec.BeginStart(old(deck), book, speed, chapter)
    {
      deck := deck.(sessionGeneration := deck.sessionGeneration + 1);
      ResetBackend();
      deck := deck.(nowPlaying := None);
      deck := deck.(pendingStart := Some(PendingStart(deck.sessionGeneration, book, true, chapter, None)));
      Spawn(StartTask(deck.sessionGeneration, book, UsableSpeed(speed), Resolving));
    }

    method StartNew(book: Book, speed: real, chapter: Option<nat>, env: Env)
      modifies this
      ensures View() == Spec.StartNew(old(View()), book, speed, chapter, env)
    {
      hide Spec.BeginStart, Spec.WriteProgressNow;
      if IsPending(deck, book) {
        var pending := deck.pendingStart.value.(wantsPlay := true);
        if chapter.Some? {
          pending := pending.(startChapter := chapter);
        }
        deck := deck.(pendingStart := Some(pending));
        Note(AskedAgain);
        return;
      }
      WriteProgressNow(env.reading, env.now);
      BeginStart(book, speed, chapter);
      ClearMarks(Switched);
      saving := saving.(holdingWrites := None);
    }

    method StartWith(book: Book, speed: real, chapter: Option<nat>, env: Env)
      modifies this
      ensures View() == Spec.StartWith(old(View()), book, speed, chapter, env)
    {
      hide Spec.StartNew, Spec.Play, Spec.SeekTo;
      if !IsLoaded(deck, book) {
        StartNew(book, speed, chapter, env);
        return;
      }
      if chapter.Some? && chapter.value < |deck.nowPlaying.value.chapters| {
        SeekTo(Max(deck.nowPlaying.value.chapters[chapter.value].start, 0.0), env);
      }
      Play(env);
    }

    // -------------------------------------------------------------- play and pause

    method ReconcileBeforeResuming(env: Env)
      modifies this`deck, this`saving
      ensures View() == Spec.ReconcileBeforeResuming(old(View()), env)
    {
      hide Spec.BookPosition;
      var due := env.now >= saving.lastPlayedAt + RESUME_RECONCILE_AFTER;
      var from := BookPosition(env.reading);
      if deck.nowPlaying.None? || env.offline || deck.nowPlaying.value.isPlaying || deck.nowPlaying.value.tracks == [] || !due || saving.holdingWrites.Some? {
        return;
      }
      saving := saving.(holdingWrites := Some(deck.sessionGeneration));
      Spawn(Reconcile(deck.nowPlaying.value.book, from, deck.sessionGeneration, deck.seekCount));
    }

    method PrepareToResume(env: Env)
      modifies this
      ensures View() == Spec.PrepareToResume(old(View()), env)
    {
      hide Spec.Released;
      if deck.nowPlaying.None? || !HoldsTrack(deck.nowPlaying.value) || deck.nowPlaying.value.isPlaying {
        return;
      }
      if env.polled == Some(EndOfStream) {
        deferredEvent := Some(Keep(deck, EndOfStream));
        return;
      }
      var np := deck.nowPlaying.value;
      var stale := !np.sourceIsLocal && env.now >= saving.lastPlayedAt + STALE_CONNECTION_AFTER;
      if env.polled.None? && !stale {
        return;
      }
      Release(np.(needsReload := true, seek := np.seek.(known := Within(np.seek, env.reading))));
    }

    method ApplyDeferredSpeed(env: Env)
      modifies this
      ensures View() == Spec.ApplyDeferredSpeed(old(View()), env)
    {
      if deck.nowPlaying.None? || deck.nowPlaying.value.speedUnapplied.None? {
        return;
      }
      var np := deck.nowPlaying.value;
      deck := deck.(seekCount := deck.seekCount + 1);
      DropStaleEndOfStream(env.errorWaiting);
      Tell(SpeedCommand(np.speed, Within(np.seek, env.reading)));
      deck := deck.(nowPlaying := Some(np.(speedUnapplied := None, speed := if env.speedAccepted then np.speed else np.speedUnapplied.value)));
    }

    method PlayBackend(accepted: bool)
      modifies this
      ensures View() == Spec.PlayBackend(old(View()), accepted)
    {
      hide Spec.Released;
      if deck.nowPlaying.None? {
        return;
      }
      Tell(PlayCommand(accepted));
      if accepted {
        deck := deck.(nowPlaying := Some(deck.nowPlaying.value.(isPlaying := true, hasError := false)));
        ticking := true;
        return;
      }
      Release(deck.nowPlaying.value.(hasError := true, needsReload := true));
    }

    method ResumeBackend(env: Env)
      requires deck.nowPlaying.Some?
      modifies this
      ensures View() == Spec.ResumeBackend(old(View()), env)
    {
      hide Spec.LoadTrackAt, Spec.PlayBackend, Spec.ApplyDeferredSpeed;
      var np := deck.nowPlaying.value;
      if np.loadingTrack.Some? {
        deck := deck.(nowPlaying := Some(np.(isPlaying := true)));
        ticking := true;
        return;
      }
      if np.needsReload {
        LoadTrackAt(np.(isPlaying := true, hasError := false), np.currentTrack, np.seek.known);
        ticking := true;
        return;
      }
      ApplyDeferredSpeed(env);
      PlayBackend(env.accepted);
    }

    method RestartFinished(env: Env)
      requires deck.nowPlaying.Some?
      modifies this
      ensures View() == Spec.RestartFinished(old(View()), env)
    {
      hide Spec.LoadTrackAt, Spec.WriteProgressAt;
      LoadTrackAt(deck.nowPlaying.value.(ended := false, isPlaying := true, hasError := false), 0, 0.0);
      WriteProgressAt(0.0, false, true, env.now);
      saving := saving.(lastPlayedAt := env.now);
      ticking := true;
    }

    method Play(env: Env)
      modifies this
      ensures View() == Spec.Play(old(View()), env)
    {
      hide Spec.StartNew, Spec.RestartFinished, Spec.ReconcileBeforeResuming, Spec.PrepareToResume, Spec.ResumeBackend;
      ClearMarks(PlayAsked);
      if deck.pendingStart.Some? {
        deck := deck.(pendingStart := Some(deck.pendingStart.value.(wantsPlay := true)));
        return;
      }
      if deck.nowPlaying.Some? && deck.nowPlaying.value.retryRequest.Some? {
        StartNew(deck.nowPlaying.value.book, deck.nowPlaying.value.retryRequest.value, None, env);
        return;
      }
      if deck.nowPlaying.Some? && deck.nowPlaying.value.ended && deck.nowPlaying.value.tracks != [] {
        RestartFinished(env);
        return;
      }
      ReconcileBeforeResuming(env);
      PrepareToResume(env);
      if deck.nowPlaying.Some? {
        ResumeBackend(env);
      }
    }

    method PauseBackend(accepted: bool)
      modifies this
      ensures View() == old(View()).(deck := Spec.PauseBackend(old(deck), accepted))
    {
      hide Spec.Released, Spec.ResetBackend;
      if deck.nowPlaying.Some? && (deck.nowPlaying.value.needsReload || deck.nowPlaying.value.loadingTrack.Some?) {
        deck := deck.(nowPlaying := Some(deck.nowPlaying.value.(isPlaying := false)));
        return;
      }
      Tell(PauseCommand(accepted));
      if accepted {
        if deck.nowPlaying.Some? {
          deck := deck.(nowPlaying := Some(deck.nowPlaying.value.(isPlaying := false)));
        }
        Spawn(PauseConfirmation(deck.loadGeneration, deck.seekCount, 0));
        return;
      }
      if deck.nowPlaying.Some? {
        Release(deck.nowPlaying.value.(isPlaying := false, hasError := true, needsReload := true));
        return;
      }
      ResetBackend();
    }

    method Pause(env: Env)
      modifies this
      ensures View() == Spec.Pause(old(View()), env)
    {
      hide Spec.PauseBackend, Spec.WriteProgress;
      ClearMarks(PauseAsked);
      if deck.pendingStart.Some? {
        deck := deck.(pendingStart := Some(deck.pendingStart.value.(wantsPlay := false)));
        return;
      }
      PauseBackend(env.accepted);
      WriteProgress(env.readingAfter, env.now);
    }

    method TogglePlayPause(env: Env)
      modifies this
      ensures View() == Spec.TogglePlayPause(old(View()), env)
    {
      hide Spec.Play, Spec.Pause;
      if PlayingIntent(deck) == Some(true) {
        Pause(env);
        return;
      }
      Play(env);
    }

    method ExternalPlayPause(env: Env)
      modifies this
      ensures View() == Spec.ExternalPlayPause(old(View()), env)
    {
      hide Spec.TogglePlayPause;
      if !SpuriousToggle(View(), env.now) {
        TogglePlayPause(env);
      }
    }

    // -------------------------------------------------------------- seeking and speed

    method SeekTo(seconds: real, env: Env)
      modifies this
      ensures View() == Spec.SeekTo(old(View()), seconds, env)
    {
      hide Spec.SeekLoaded, Spec.SavePausedSeekLater, ClampToBook;
      if deck.nowPlaying.None? || deck.nowPlaying.value.tracks == [] {
        return;
      }
      SeekLoaded(ClampToBook(seconds, deck.nowPlaying.value.duration), env);
      SavePausedSeekLater();
    }

    method Retarget(np: NowPlaying, target: real) returns (retargeted: NowPlaying, track: nat, within: real)
      ensures retargeted == Spec.Retargeted(np, target) && (track, within) == LocateTrack(np.tracks, target)
    {
      retargeted := np.(ended := false);
      track, within := LocateTrack(np.tracks, target).0, LocateTrack(np.tracks, target).1;
      if np.sleepTimer.AtPosition? {
        retargeted := retargeted.(sleepTimer := AtPosition(ChapterEndAt(np.chapters, target).GetOr(np.duration)));
      }
      retargeted := retargeted.(seek := np.seek.(known := within, reloadUsed := false));
    }

    method SeekLoaded(target: real, env: Env)
      requires deck.nowPlaying.Some?
      modifies this
      ensures View() == Spec.SeekLoaded(old(View()), target, env)
    {
      hide Spec.LoadTrackAt, LocateTrack, ChapterEndAt, Spec.AfterDroppingEndOfStream, HeldAfter;
      var np, track, within := Retarget(deck.nowPlaying.value, target);
      deck := deck.(seekCount := deck.seekCount + 1);
      if track != np.currentTrack {
        LoadTrackAt(np, track, within);
        return;
      }
      np := np.(seek := np.seek.(known := within, pending := true, retries := 0));
      if np.loadingTrack.Some? || np.needsReload {
        deck := deck.(nowPlaying := Some(np.(seek := np.seek.(issuedAt := None))));
        return;
      }
      DropStaleEndOfStream(env.errorWaiting);
      Tell(SeekCommand(within));
      deck := deck.(nowPlaying := Some(np.(seek := np.seek.(issuedAt := Some(env.now)))));
      if !np.sourceIsLocal {
        Spawn(LocalFileCheck(np.book, track, deck.loadGeneration));
      }
    }

    method SavePausedSeekLater()
      modifies this
      ensures View() == Spec.SavePausedSeekLater(old(View()))
    {
      if deck.nowPlaying.None? || deck.nowPlaying.value.isPlaying {
        return;
      }
      saving := saving.(pausedSeekGeneration := saving.pausedSeekGeneration + 1);
      Spawn(PausedSeekTimer(saving.pausedSeekGeneration));
    }

    method SetSpeed(wanted: real, env: Env)
      modifies this
      ensures View() == Spec.SetSpeed(old(View()), wanted, env)
    {
      hide UsableSpeed, Within, Spec.AfterDroppingEndOfStream, HeldAfter;
      if deck.nowPlaying.None? {
        return;
      }
      var np := deck.nowPlaying.value;
      var speed := UsableSpeed(wanted);
      if Abs(np.speed - speed) < EPSILON {
        return;
      }
      if HoldsTrack(np) && !np.isPlaying && !np.sourceIsLocal {
        var applied := np.speedUnapplied.GetOr(np.speed);
        np := np.(speed := speed, speedUnapplied := Some(applied));
        if Abs(applied - speed) < EPSILON {
          np := np.(speedUnapplied := None);
        }
        deck := deck.(nowPlaying := Some(np));
        return;
      }
      deck := deck.(seekCount := deck.seekCount + 1);
      var accepted := true;
      if HoldsTrack(np) {
        DropStaleEndOfStream(env.errorWaiting);
        Tell(SpeedCommand(speed, Within(np.seek, env.reading)));
        accepted := env.speedAccepted;
      }
      if accepted {
        deck := deck.(nowPlaying := Some(np.(speed := speed, speedUnapplied := None)));
      }
    }

    // -------------------------------------------------------------- sleep timer, finishing, resetting

    method SleepInMinutes(minutes: nat, env: Env)
      modifies this
      ensures View() == Spec.SleepInMinutes(old(View()), minutes, env)
    {
      if deck.nowPlaying.Some? {
        deck := deck.(nowPlaying := Some(deck.nowPlaying.value.(sleepTimer := WallClock(env.now + minutes * 60_000))));
        ticking := true;
      }
    }

    method SleepAtEndOfChapter(env: Env)
      modifies this
      ensures View() == Spec.SleepAtEndOfChapter(old(View()), env)
    {
      hide Spec.BookPosition;
      var position := BookPosition(env.reading);
      if deck.nowPlaying.None? || deck.nowPlaying.value.tracks == [] {
        return;
      }
      var np := deck.nowPlaying.value;
      deck := deck.(nowPlaying := Some(np.(sleepTimer := AtPosition(ChapterEndAt(np.chapters, position).GetOr(np.duration)))));
    }

    method CancelSleepTimer()
      modifies this
      ensures View() == Spec.CancelSleepTimer(old(View()))
    {
      if deck.nowPlaying.Some? {
        deck := deck.(nowPlaying := Some(deck.nowPlaying.value.(sleepTimer := Off)));
      }
    }

    method MarkAsFinished(env: Env)
      modifies this
      ensures View() == Spec.MarkAsFinished(old(View()), env)
    {
      hide Spec.PauseBackendIfLoaded, Spec.WriteProgressAt;
      if deck.pendingStart.Some? {
        deck := deck.(pendingStart := Some(deck.pendingStart.value.(intent := Some(MarkFinished))));
        Note(FinishNoted);
        return;
      }
      if deck.nowPlaying.None? {
        return;
      }
      EndBook(env.pauses);
      ClearMarks(MarkedFinished);
      WriteProgressAt(deck.nowPlaying.value.duration, true, true, env.now);
    }

    method EndBook(accepted: bool)
      requires deck.nowPlaying.Some?
      modifies this`deck
      ensures deck == Spec.EndBook(old(deck), accepted)
    {
      PauseBackendIfLoaded(accepted);
      deck := deck.(nowPlaying := Some(deck.nowPlaying.value.(isPlaying := false, ended := true)));
    }

    method ResetBookProgress(env: Env)
      modifies this
      ensures View() == Spec.ResetBookProgress(old(View()), env)
    {
      hide Spec.SeekTo, Spec.WriteProgressAt;
      if deck.pendingStart.Some? {
        deck := deck.(pendingStart := Some(deck.pendingStart.value.(intent := Some(ResetProgress))));
        return;
      }
      SeekTo(0.0, env);
      WriteProgressAt(0.0, false, true, env.now);
    }

    method SyncPendingProgress(env: Env)
      modifies this
      ensures View() == Spec.SyncPendingProgress(old(View()), env)
    {
      if deck.nowPlaying.Some? && !env.offline {
        Spawn(PendingSync(deck.nowPlaying.value.book, deck.sessionGeneration));
      }
    }

    method Retire(env: Env)
      modifies this
      ensures View() == Spec.Retire(old(View()), env)
    {
      hide Spec.WriteProgressNow;
      WriteProgressNow(env.reading, env.now);
      deck := deck.(sessionGeneration := deck.sessionGeneration + 1);
      ResetBackend();
      deck := deck.(nowPlaying := None, pendingStart := None);
      Note(Retired);
      ticking := false;
    }

    // -------------------------------------------------------------- headphones and calls

    method RouteChanged()
      modifies this`marks
      ensures marks == Spec.RouteChanged(old(marks))
    {
      marks := marks.(routeEventSeq := marks.routeEventSeq + 1);
      marks := marks.(log := marks.log + [RouteSeen]);
    }

    method Unplugged(env: Env)
      modifies this
      ensures View() == Spec.Unplugged(old(View()), env)
    {
      hide Spec.Pause;
      RouteChanged();
      if !marks.pauseOnUnplug || PlayingIntent(deck) != Some(true) {
        return;
      }
      Pause(env);
      marks := marks.(pausedByUnplug := true);
      marks := marks.(unplugPausedAt := Some(env.now));
      marks := marks.(log := marks.log + [UnplugPaused]);
    }

    method Replugged()
      modifies this
      ensures View() == Spec.Replugged(old(View()))
    {
      RouteChanged();
      if marks.resumeOnReplug && marks.pausedByUnplug && PlayingIntent(deck) == Some(false) {
        Spawn(ReplugTimer(marks.routeEventSeq));
      }
    }

    method CallStarted(env: Env)
      modifies this
      ensures View() == Spec.CallStarted(old(View()), env)
    {
      hide Spec.Pause;
      if PlayingIntent(deck) != Some(true) {
        return;
      }
      Pause(env);
      marks := marks.(pausedByCall := true);
      marks := marks.(log := marks.log + [CallPaused]);
    }

    method CallAnswered()
      modifies this
      ensures View() == Spec.CallAnswered(old(View()))
    {
      marks := marks.(pausedByCall := false);
      marks := marks.(log := marks.log + [CallPickedUp]);
    }

    method CallEnded(answered: bool, outgoing: bool, env: Env)
      modifies this
      ensures View() == Spec.CallEnded(old(View()), answered, outgoing, env)
    {
      hide Spec.Play;
      var paused := PlayingIntent(deck) == Some(false);
      var marked := marks.pausedByCall;
      marks := marks.(pausedByCall := false);
      if answered || outgoing || !marked || !paused {
        marks := marks.(log := marks.log + [CallOver]);
        return;
      }
      marks := marks.(log := marks.log + [CallResumed]);
      Play(env);
    }

    // -------------------------------------------------------------- the tick

    /** What an end-of-stream means, and the book with the spot it came at remembered. */
    method JudgeEndOfStream(book: NowPlaying, reading: Option<real>, fileLength: Option<real>) returns (np: NowPlaying, verdict: EndVerdict)
      ensures Judgement(np, verdict) == Spec.JudgeEndOfStream(book, reading, fileLength)
    {
      np := book;
      var within := reading.GetOr(np.seek.known);
      var duration := 0.0;
      if np.currentTrack < |np.tracks| {
        duration := np.tracks[np.currentTrack].duration;
      }
      if duration <= 0.0 {
        duration := fileLength.GetOr(0.0);
      }
      if duration <= 0.0 {
        return np, RealEnd;
      }
      var isLast := np.currentTrack + 1 >= |np.tracks|;
      var shortBy := duration - within;
      verdict := Premature;
      if shortBy < PREMATURE_EOS_MIN_GAP {
        verdict := RealEnd;
      } else if shortBy < duration * 0.1 {
        verdict := if isLast then Unclear(within) else RealEnd;
      }
      if verdict == RealEnd {
        return;
      }
      if np.prematureEosAt.Some? && np.prematureEosAt.value.0 == np.currentTrack && Abs(np.prematureEosAt.value.1 - within) < 5.0 {
        return np.(prematureEosAt := None), RealEnd;
      }
      np := np.(prematureEosAt := Some((np.currentTrack, within)));
    }

    method StopUnclear(np: NowPlaying, within: real, env: Env)
      modifies this
      ensures View() == Spec.StopUnclear(old(View()), np, within, env)
    {
      hide Spec.Released, Spec.WriteProgress;
      Release(np.(isPlaying := false, needsReload := true, seek := np.seek.(known := within, pending := false)));
      ClearMarks(Interrupted);
      WriteProgress(env.readingAfter, env.now);
      ticking := WallClockArmed(np);
    }

    method FinishBook(env: Env)
      requires deck.nowPlaying.Some?
      modifies this
      ensures View() == Spec.FinishBook(old(View()), env)
    {
      hide Spec.EndBook, Spec.WriteProgressNow;
      EndBook(env.pauses);
      ClearMarks(EndedBook);
      WriteProgressNow(env.readingAfter, env.now);
    }

    method HandleStreamError(np: NowPlaying, env: Env)
      modifies this
      ensures View() == Spec.HandleStreamError(old(View()), np, env)
    {
      hide Spec.Released, Spec.WriteProgress, WithinTrack;
      var within := Max(WithinTrack(np, env.reading), 0.0);
      var stopped := np.(needsReload := true, seek := np.seek.(known := within));
      if np.sourceIsLocal {
        stopped := stopped.(isPlaying := false, hasError := true);
      }
      Release(stopped);
      ClearMarks(Interrupted);
      WriteProgress(env.readingAfter, env.now);
      if !np.sourceIsLocal {
        Spawn(Recovery(np.book, np.currentTrack, within, deck.loadGeneration));
      }
    }

    method SleepNow(env: Env)
      requires deck.nowPlaying.Some?
      modifies this
      ensures View() == Spec.SleepNow(old(View()), env)
    {
      hide Spec.WriteProgressNow;
      PauseBackendIfLoaded(env.pauses);
      deck := deck.(nowPlaying := Some(deck.nowPlaying.value.(isPlaying := false, sleepTimer := Off)));
      ClearMarks(SleepPaused);
      WriteProgressNow(env.readingAfter, env.now);
    }

    method SleepTimerReached(env: Env) returns (reached: bool)
      ensures reached == Spec.SleepTimerReached(deck, env)
    {
      hide Spec.BookPosition;
      reached := false;
      if deck.nowPlaying.Some? {
        match deck.nowPlaying.value.sleepTimer {
          case Off =>
          case WallClock(at) => reached := env.now >= at;
          case AtPosition(end) =>
            var position := BookPosition(env.readingAfter);
            reached := position >= end;
        }
      }
    }

    method KeepTicking(env: Env)
      modifies this
      ensures View() == Spec.KeepTicking(old(View()), env)
    {
      hide Spec.WriteProgressAt, Spec.BookPosition;
      if deck.nowPlaying.None? {
        ticking := false;
        return;
      }
      var np := deck.nowPlaying.value;
      if np.isPlaying {
        saving := saving.(lastPlayedAt := env.now);
      }
      if np.isPlaying && saving.holdingWrites.None? && env.now >= saving.lastProgressWrite + LOCAL_PROGRESS_WRITE_INTERVAL {
        var position := BookPosition(env.readingAfter);
        WriteProgressAt(position, false, false, env.now);
      }
      ticking := np.isPlaying || WallClockArmed(np);
    }

    method EndTick(env: Env)
      modifies this
      ensures View() == Spec.EndTick(old(View()), env)
    {
      hide Spec.SleepNow, Spec.KeepTicking;
      var reached := SleepTimerReached(env);
      if reached {
        SleepNow(env);
      }
      KeepTicking(env);
    }

    method HandleEndOfStream(env: Env)
      requires deck.nowPlaying.Some?
      modifies this
      ensures View() == Spec.HandleEndOfStream(old(View()), env)
    {
      hide Spec.JudgeEndOfStream, Spec.StopUnclear, Spec.HandleStreamError, Spec.LoadTrackAt, Spec.FinishBook, Spec.EndTick;
      var np, verdict := JudgeEndOfStream(deck.nowPlaying.value, env.reading, env.fileLength);
      match verdict {
        case Unclear(within) =>
          StopUnclear(np, within, env);
          return;
        case Premature =>
          HandleStreamError(np, env);
          EndTick(env);
          return;
        case RealEnd =>
          if np.currentTrack + 1 < |np.tracks| {
            LoadTrackAt(np, np.currentTrack + 1, 0.0);
            return;
          }
          deck := deck.(nowPlaying := Some(np));
          FinishBook(env);
          EndTick(env);
      }
    }

    method Tick(env: Env)
      modifies this
      ensures View() == Spec.Tick(old(View()), env)
    {
      hide Spec.ObservePosition, Spec.HandleStreamError, Spec.HandleEndOfStream, Spec.EndTick;
      if deck.nowPlaying.None? {
        ticking := false;
        return;
      }
      ObservePosition(env);
      var event := env.polled;
      if deferredEvent.Some? {
        event := Some(deferredEvent.value.event);
      }
      deferredEvent := None;
      if deck.nowPlaying.Some? && event == Some(EndOfStream) {
        HandleEndOfStream(env);
        return;
      }
      if deck.nowPlaying.Some? && event == Some(StreamError) {
        HandleStreamError(deck.nowPlaying.value, env);
      }
      EndTick(env);
    }

    // -------------------------------------------------------------- resuming suspended starts

    method FailStart(task: Task)
      requires task.StartTask?
      modifies this`deck
      ensures deck == Spec.FailStart(old(deck), task)
    {
      if !PendingIs(deck, task.generation) {
        return;
      }
      ResetBackend();
      deck := deck.(pendingStart := None, nowPlaying := Some(FailedBook(task.book, task.speed)));
    }

    method FinishStart(task: Task, prepared: StartStage, loaded: bool, speed: real, env: Env)
      requires task.StartTask? && prepared.StartPreroll? && deck.pendingStart.Some?
      modifies this
      ensures View() == Spec.FinishStart(old(View()), task, prepared, loaded, speed, env)
    {
      hide Spec.ResetBookProgress, Spec.MarkAsFinished, Spec.StartedBook, HeldAfter;
      var pending := deck.pendingStart.value;
      deck := deck.(pendingStart := None);
      var np := StartedBook(task.book, prepared, loaded, pending.wantsPlay, speed, env.now);
      if np.isPlaying {
        Tell(PlayCommand(env.plays));
      }
      deck := deck.(nowPlaying := Some(np));
      saving := saving.(lastProgressWrite := env.now, lastPlayedAt := env.now);
      if np.isPlaying {
        ticking := true;
      }
      match pending.intent {
        case None =>
        case Some(ResetProgress) => ResetBookProgress(env);
        case Some(MarkFinished) => MarkAsFinished(env);
      }
    }

    method SettleStart(task: Task, env: Env)
      requires task.StartTask? && task.startStage.StartPreroll? && deck.pendingStart.Some?
      modifies this
      ensures View() == Spec.SettleStart(old(View()), task, env)
    {
      hide Spec.FinishStart, SpeedChanged, HeldAfter;
      var within := task.startStage.within;
      var speed := 1.0;
      if SpeedChanged(task.speed, 1.0) {
        Tell(SpeedCommand(task.speed, within));
        if env.speedAccepted {
          speed := task.speed;
        }
      } else if within > 0.0 {
        Tell(SeekCommand(within));
      }
      FinishStart(task, task.startStage, true, speed, env);
    }

    method PollStart(task: Task, env: Env)
      requires task.StartTask? && task.startStage.StartPreroll?
      modifies this
      ensures View() == Spec.PollStart(old(View()), task, env)
    {
      hide Spec.SettleStart, SpeedChanged;
      var stage := task.startStage;
      if !PendingIs(deck, task.generation) || deck.loadGeneration != stage.loadGeneration {
        return;
      }
      var needsSeek := stage.within > 0.0 || SpeedChanged(task.speed, 1.0);
      if needsSeek && env.reading.None? && stage.polls < PREROLL_WAIT_ATTEMPTS {
        Spawn(task.(startStage := stage.(polls := stage.polls + 1)));
        return;
      }
      SettleStart(task, env);
    }

    method PlaceStart(task: Task, target: Target)
      requires task.StartTask? && PendingIs(deck, task.generation)
      modifies this`deck
      ensures deck == Spec.PlaceStart(old(deck), task, target)
    {
      Spawn(task.(startStage := Placing(target, ChapterStart(deck.pendingStart.value.startChapter, target.chapters))));
    }

    method LoadStart(task: Task, saved: Option<(real, bool)>, isLocal: bool, env: Env)
      requires task.StartTask? && task.startStage.Placing? && PendingIs(deck, task.generation)
      modifies this
      ensures View() == Spec.LoadStart(old(View()), task, saved, isLocal, env)
    {
      hide Spec.PollStart, Spec.FinishStart, StartPosition, LocateTrack;
      var target := task.startStage.target;
      var at := StartPosition(task.startStage.chapterStart, saved, target.duration);
      var track, within := 0, 0.0;
      if at.Some? {
        var found := LocateTrack(target.tracks, at.value);
        track, within := found.0, found.1;
      }
      deck := deck.(loadGeneration := deck.loadGeneration + 1);
      var prepared := StartPreroll(target, track, within, deck.loadGeneration, isLocal, 0);
      if !env.accepted {
        Tell(LoadRefused(task.book, track));
        ResetBackend();
        FinishStart(task, prepared, false, 1.0, env);
        return;
      }
      Tell(LoadAccepted(task.book, track));
      Tell(PauseCommand(env.pauses));
      PollStart(task.(startStage := prepared), env);
    }

    method ResumeStart(task: Task, outcome: Outcome, env: Env)
      requires task.StartTask?
      modifies this
      ensures View() == Spec.ResumeStart(old(View()), task, outcome, env)
    {
      hide Spec.PollStart, Spec.LoadStart, Spec.FailStart;
      if task.startStage.StartPreroll? {
        PollStart(task, env);
        return;
      }
      if !PendingIs(deck, task.generation) {
        return;
      }
      if task.startStage.Placing? {
        match outcome {
          case Placed(saved, isLocal) => LoadStart(task, saved, isLocal, env);
          case _ => Spawn(task);
        }
        return;
      }
      match outcome {
        case Resolved(target) =>
          if target.tracks != [] {
            PlaceStart(task, target);
          } else {
            FailStart(task);
          }
        case Failed => FailStart(task);
        case _ => Spawn(task);
      }
    }

    // -------------------------------------------------------------- resuming suspended track loads

    method FailLoad()
      requires deck.nowPlaying.Some?
      modifies this`deck
      ensures deck == Spec.FailLoad(old(deck))
    {
      Release(deck.nowPlaying.value.(isPlaying := false, needsReload := true, hasError := true));
    }

    method SettleLoad(isLocal: bool, plays: bool, now: Time)
      requires deck.nowPlaying.Some?
      modifies this`deck
      ensures deck == Spec.SettleLoad(old(deck), isLocal, plays, now)
    {
      hide SpeedChanged, HeldAfter;
      var np := deck.nowPlaying.value;
      var within := np.seek.known;
      if SpeedChanged(np.speed, 1.0) {
        Tell(SpeedCommand(np.speed, within));
      } else if within > 0.0 {
        Tell(SeekCommand(within));
      }
      np := np.(hasError := false, needsReload := false, loadingTrack := None, speedUnapplied := None, sourceIsLocal := isLocal);
      np := np.(seek := np.seek.(pending := within > 0.0, issuedAt := if within > 0.0 then Some(now) else None, retries := 0));
      if np.isPlaying {
        Tell(PlayCommand(plays));
      }
      deck := deck.(nowPlaying := Some(np));
    }

    method PollLoad(task: Task, needsSeek: bool, env: Env)
      requires task.LoadTask? && task.loadStage.LoadPreroll?
      modifies this`deck
      ensures deck == Spec.PollLoad(old(deck), task, needsSeek, env)
    {
      hide Spec.SettleLoad;
      if !LoadIsCurrent(deck, task) {
        return;
      }
      if needsSeek && env.reading.None? && task.loadStage.polls < PREROLL_WAIT_ATTEMPTS {
        Spawn(task.(loadStage := task.loadStage.(polls := task.loadStage.polls + 1)));
        return;
      }
      SettleLoad(task.loadStage.isLocal, env.plays, env.now);
    }

    method ConnectLoad(task: Task, track: nat, isLocal: bool, env: Env)
      requires task.LoadTask? && deck.nowPlaying.Some?
      modifies this`deck
      ensures deck == Spec.ConnectLoad(old(deck), task, track, isLocal, env)
    {
      hide Spec.PollLoad, Spec.FailLoad, SpeedChanged, HeldAfter;
      var np := deck.nowPlaying.value;
      if env.offline && !isLocal {
        FailLoad();
        return;
      }
      if !env.accepted {
        Tell(LoadRefused(task.book, track));
        FailLoad();
        return;
      }
      Tell(LoadAccepted(task.book, track));
      var needsSeek := np.seek.known > 0.0 || SpeedChanged(np.speed, 1.0);
      if needsSeek {
        Tell(PauseCommand(env.pauses));
      }
      PollLoad(task.(loadStage := LoadPreroll(track, isLocal, 0)), needsSeek, env);
    }

    method ResumeLoad(task: Task, outcome: Outcome, env: Env)
      requires task.LoadTask?
      modifies this`deck
      ensures deck == Spec.ResumeLoad(old(deck), task, outcome, env)
    {
      hide Spec.PollLoad, Spec.FailLoad, Spec.ConnectLoad;
      if !LoadIsCurrent(deck, task) {
        return;
      }
      match task.loadStage {
        case LoadPreroll(_, _, _) => PollLoad(task, true, env);
        case Spawned =>
          var np := deck.nowPlaying.value;
          if np.currentTrack < |np.tracks| {
            Spawn(task.(loadStage := Connecting(np.currentTrack)));
          }
        case Connecting(track) =>
          match outcome {
            case Failed => FailLoad();
            case Answered(isLocal) => ConnectLoad(task, track, isLocal, env);
            case _ => Spawn(task);
          }
      }
    }

    // -------------------------------------------------------------- resuming the other tasks

    method ResumePauseConfirmation(task: Task, paused: bool)
      requires task.PauseConfirmation?
      modifies this`deck
      ensures deck == Spec.ResumePauseConfirmation(old(deck), task, paused)
    {
      hide Spec.Released;
      if deck.loadGeneration != task.generation || deck.seekCount != task.seekCount || deck.nowPlaying.None? {
        return;
      }
      var np := deck.nowPlaying.value;
      if np.isPlaying || np.needsReload || paused {
        return;
      }
      if task.attempt + 1 < PAUSE_CONFIRM_ATTEMPTS {
        Spawn(task.(attempt := task.attempt + 1));
        return;
      }
      Release(np.(hasError := true, needsReload := true));
    }

    method ResumeLocalFileCheck(task: Task, outcome: Outcome)
      requires task.LocalFileCheck?
      modifies this`deck
      ensures deck == Spec.ResumeLocalFileCheck(old(deck), task, outcome)
    {
      hide Spec.LoadTrackAt;
      if !outcome.Answered? {
        Spawn(task);
        return;
      }
      if deck.loadGeneration != task.generation || deck.nowPlaying.None? {
        return;
      }
      var np := deck.nowPlaying.value;
      if np.book.item == task.book.item && np.currentTrack == task.track && outcome.isLocal {
        LoadTrackAt(np, task.track, np.seek.known);
      }
    }

    method ResumeRecovery(task: Task, outcome: Outcome, now: Time)
      requires task.Recovery?
      modifies this
      ensures View() == Spec.ResumeRecovery(old(View()), task, outcome, now)
    {
      hide Spec.LoadTrackAt;
      if !outcome.Answered? {
        Spawn(task);
        return;
      }
      if deck.loadGeneration != task.generation || deck.nowPlaying.None? || deck.nowPlaying.value.book.item != task.book.item {
        return;
      }
      var np := deck.nowPlaying.value;
      var reload := !outcome.isLocal && (lastAutoRecoverAt.None? || now >= lastAutoRecoverAt.value + AUTO_RECOVER_WINDOW);
      if outcome.isLocal || reload {
        if reload {
          lastAutoRecoverAt := Some(now);
        }
        LoadTrackAt(np, task.track, task.within);
        return;
      }
      deck := deck.(nowPlaying := Some(np.(isPlaying := false, hasError := true)));
    }

    method ResumeReconcile(task: Task, outcome: Outcome, env: Env)
      requires task.Reconcile?
      modifies this
      ensures View() == Spec.ResumeReconcile(old(View()), task, outcome, env)
    {
      hide Spec.SeekTo, Spec.WriteProgress;
      if !outcome.Reconciled? {
        Spawn(task);
        return;
      }
      if saving.holdingWrites == Some(task.session) {
        saving := saving.(holdingWrites := None);
      }
      if deck.sessionGeneration != task.session || deck.nowPlaying.None? || deck.nowPlaying.value.book.item != task.book.item {
        return;
      }
      if AdoptsServerPosition(task, outcome, deck.seekCount) {
        SeekTo(outcome.after.value.0, env);
        return;
      }
      if !deck.nowPlaying.value.isPlaying {
        WriteProgress(env.reading, env.now);
      }
    }

    method ResumeReplugTimer(task: Task, env: Env)
      requires task.ReplugTimer?
      modifies this
      ensures View() == Spec.ResumeReplugTimer(old(View()), task, env)
    {
      hide Spec.Play;
      if ReplugResumes(View(), task) {
        marks := marks.(pausedByUnplug := false);
        marks := marks.(log := marks.log + [ReplugResumed]);
        Play(env);
      }
    }

    method ResumePausedSeekTimer(task: Task, env: Env)
      requires task.PausedSeekTimer?
      modifies this
      ensures View() == Spec.ResumePausedSeekTimer(old(View()), task, env)
    {
      hide Spec.WriteProgress;
      if deck.nowPlaying.Some? && !deck.nowPlaying.value.isPlaying && saving.pausedSeekGeneration == task.seekGeneration {
        WriteProgress(env.reading, env.now);
      }
    }

    method ResumePendingSync(task: Task, outcome: Outcome, env: Env)
      requires task.PendingSync?
      modifies this
      ensures View() == Spec.ResumePendingSync(old(View()), task, outcome, env)
    {
      hide Spec.WriteProgress;
      match outcome {
        case Waiting => Spawn(task);
        case Answered(serverHadNewer) =>
          if serverHadNewer || deck.sessionGeneration != task.session {
            return;
          }
          if deck.nowPlaying.Some? && deck.nowPlaying.value.book.item == task.book.item {
            WriteProgress(env.reading, env.now);
          }
        case _ =>
      }
    }

    method Continue(task: Task, outcome: Outcome, env: Env)
      modifies this
      ensures View() == Spec.Continue(old(View()), task, outcome, env)
    {
      hide Spec.ResumeStart, Spec.ResumeLoad, Spec.ResumePauseConfirmation, Spec.ResumeLocalFileCheck, Spec.ResumeRecovery,
           Spec.ResumeReconcile, Spec.ResumeReplugTimer, Spec.ResumePausedSeekTimer, Spec.ResumePendingSync;
      match task {
        case StartTask(_, _, _, _) => ResumeStart(task, outcome, env);
        case LoadTask(_, _, _) => ResumeLoad(task, outcome, env);
        case PauseConfirmation(_, _, _) => ResumePauseConfirmation(task, env.paused);
        case LocalFileCheck(_, _, _) => ResumeLocalFileCheck(task, outcome);
        case Recovery(_, _, _, _) => ResumeRecovery(task, outcome, env.now);
        case Reconcile(_, _, _, _) => ResumeReconcile(task, outcome, env);
        case ReplugTimer(_) => ResumeReplugTimer(task, env);
        case PausedSeekTimer(_) => ResumePausedSeekTimer(task, env);
        case PendingSync(_, _) => ResumePendingSync(task, outcome, env);
      }
    }

    method ResumeTask(task: Task, outcome: Outcome, env: Env)
      modifies this
      ensures View() == Spec.ResumeTask(old(View()), task, outcome, env)
    {
      hide Spec.Continue;
      if task in deck.tasks {
        deck := deck.(tasks := deck.tasks - multiset{task});
        Continue(task, outcome, env);
      }
    }

    // -------------------------------------------------------------- every step

    /** One step of a run. */
    method Step(event: Event, env: Env)
      modifies this
      ensures View() == Spec.Step(old(View()), event, env)
    {
      hide Spec.StartWith, Spec.Play, Spec.Pause, Spec.TogglePlayPause, Spec.ExternalPlayPause, Spec.SeekTo, Spec.SetSpeed, Spec.SleepInMinutes,
           Spec.SleepAtEndOfChapter, Spec.CancelSleepTimer, Spec.MarkAsFinished, Spec.ResetBookProgress, Spec.WriteProgress,
           Spec.SyncPendingProgress, Spec.Retire, Spec.Unplugged, Spec.Replugged, Spec.CallStarted, Spec.CallAnswered, Spec.CallEnded,
           Spec.Tick, Spec.ResumeTask;
      match event {
        case DoStart(book, speed, chapter) => StartWith(book, speed, chapter, env);
        case DoPlay => Play(env);
        case DoPause => Pause(env);
        case DoToggle => TogglePlayPause(env);
        case DoExternalToggle => ExternalPlayPause(env);
        case DoSeek(seconds) => SeekTo(seconds, env);
        case DoSetSpeed(speed) => SetSpeed(speed, env);
        case DoSleepMinutes(minutes) => SleepInMinutes(minutes, env);
        case DoSleepChapter => SleepAtEndOfChapter(env);
        case DoCancelSleep => CancelSleepTimer();
        case DoMarkFinished => MarkAsFinished(env);
        case DoReset => ResetBookProgress(env);
        case DoSaveNow => WriteProgress(env.reading, env.now);
        case DoSyncPending => SyncPendingProgress(env);
        case DoRetire => Retire(env);
        case DoHeadphoneSettings(onUnplug, onReplug) => marks := marks.(pauseOnUnplug := onUnplug, resumeOnReplug := onReplug);
        case DoUnplug => Unplugged(env);
        case DoReplug => Replugged();
        case DoCallStart => CallStarted(env);
        case DoCallAnswered => CallAnswered();
        case DoCallEnd(answered, outgoing) => CallEnded(answered, outgoing, env);
        case DoTick =>
          if ticking {
            Tick(env);
          }
        case DoResume(task, outcome) => ResumeTask(task, outcome, env);
      }
    }

    /** A whole run: the events one after the other, whatever the outside world answers to each. */
    method RunAll(events: seq<(Event, Env)>)
      modifies this
      ensures View() == Spec.Run(old(View()), events)
    {
      hide Spec.Step;
      for i := 0 to |events|
        invariant View() == Spec.Run(old(View()), events[..i])
      {
        RunsOn(old(View()), events[..i], [events[i]]);
        OneStep(Spec.Run(old(View()), events[..i]), events[i]);
        assert events[..i + 1] == events[..i] + [events[i]];
        Step(events[i].0, events[i].1);
      }
      assert events[..|events|] == events;
    }
  }

  lemma OneStep(s: State, e: (Event, Env))
    ensures Spec.Run(s, [e]) == Spec.Step(s, e.0, e.1)
  {
    hide Spec.Step;
    assert [e][1..] == [];
  }
}
