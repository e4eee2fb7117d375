/** Why playback is paused: the marks an unplug and a call leave, and when they may resume it. The
    history tells the pause that touched a mark last from the last decision about playback; they
    differ by what is asked of a book that is still starting. */
module PlayerMarks {
  import opened Prelude
  import opened PlayerTypes
  import opened PlayerSpec
  import opened PlayerSafety

  /** What is looked for in the log: every decision about playback, what takes an unplug's mark away
      or leaves one, the same two for a call, and what replaces the book. */
  datatype Sight = Decisions | UnplugMarks | CallDecisions | CallMarks | Sessions

  /** Asking again for the book that is starting, or marking it finished, before it is loaded. */
  predicate Meddling(h: Happening) { h.AskedAgain? || h.FinishNoted? }

  /** Headphones being moved and a call going on neither start nor stop playback. */
  predicate AboutPlayback(h: Happening) { !h.RouteSeen? && !h.CallPickedUp? && !h.CallOver? }

  predicate Counts(sight: Sight, h: Happening) {
    match sight
    case Decisions => AboutPlayback(h)
    case UnplugMarks => AboutPlayback(h) && !Meddling(h) && !h.Retired?
    case CallDecisions => !h.RouteSeen?
    case CallMarks => !h.RouteSeen? && !Meddling(h) && !h.Retired?
    case Sessions => h.Switched? || h.Retired?
  }

  function Latest(log: seq<Happening>, sight: Sight): Option<Happening> {
    if log == [] then None
    else if Counts(sight, log[|log| - 1]) then Some(log[|log| - 1])
    else Latest(log[..|log| - 1], sight)
  }

  function RouteCount(log: seq<Happening>): nat {
    if log == [] then 0 else RouteCount(log[..|log| - 1]) + if log[|log| - 1].RouteSeen? then 1 else 0
  }

  /** What happened after the last `pause`. */
  function Since(log: seq<Happening>, pause: Happening): seq<Happening> {
    if log == [] || log[|log| - 1] == pause then [] else Since(log[..|log| - 1], pause) + [log[|log| - 1]]
  }

  /** Something was asked of the book that is starting since that pause. */
  predicate Meddled(log: seq<Happening>, pause: Happening) { exists h :: h in Since(log, pause) && Meddling(h) }

  /** What may be resumed now: the pause is the last thing that touched its mark, and the player was
      not retired since. */
  ghost predicate Resumable(log: seq<Happening>, sight: Sight, pause: Happening) {
    Latest(log, sight) == Some(pause) && Latest(log, Sessions) != Some(Retired)
  }

  ghost predicate ResumesOk(log: seq<Happening>) {
    forall i | 0 <= i < |log| ::
      && (log[i].ReplugResumed? ==> Resumable(log[..i], UnplugMarks, UnplugPaused))
      && (log[i].CallResumed? ==> Resumable(log[..i], CallMarks, CallPaused))
  }

  /** The marks say what the log says. */
  ghost predicate MarksOk(m: Marks) {
    && (m.pausedByUnplug <==> Latest(m.log, UnplugMarks) == Some(UnplugPaused))
    && (m.pausedByCall <==> Latest(m.log, CallMarks) == Some(CallPaused))
    && RouteCount(m.log) == m.routeEventSeq
    && ResumesOk(m.log)
  }

  /** After a retirement, and until another book is asked for, none is. */
  ghost predicate SessionOk(asked: Option<Book>, log: seq<Happening>) { Latest(log, Sessions) == Some(Retired) ==> asked.None? }

  /** No mark that was not there. */
  predicate NoNewMark(m: Marks, n: Marks) { (n.pausedByUnplug ==> m.pausedByUnplug) && (n.pausedByCall ==> m.pausedByCall) }

  /** The log goes on, with nothing asked of a starting book and no retirement. */
  ghost predicate GoesOn(log: seq<Happening>, further: seq<Happening>) {
    log <= further && forall i | |log| <= i < |further| :: !Meddling(further[i]) && !further[i].Retired?
  }

  ghost predicate Keeps(m: Marks, n: Marks) { (MarksOk(m) ==> MarksOk(n)) && NoNewMark(m, n) && GoesOn(m.log, n.log) }

  lemma KeepsItself(m: Marks)
    ensures Keeps(m, m)
  {
  }

  lemma KeepsOn(a: Marks, b: Marks, c: Marks)
    requires Keeps(a, b) && Keeps(b, c)
    ensures Keeps(a, c)
  {
    hide MarksOk;
  }

  lemma Logged(log: seq<Happening>, h: Happening)
    ensures forall sight :: Latest(log + [h], sight) == if Counts(sight, h) then Some(h) else Latest(log, sight)
    ensures RouteCount(log + [h]) == RouteCount(log) + if h.RouteSeen? then 1 else 0
    ensures ResumesOk(log)
            && (h.ReplugResumed? ==> Resumable(log, UnplugMarks, UnplugPaused))
            && (h.CallResumed? ==> Resumable(log, CallMarks, CallPaused))
            ==> ResumesOk(log + [h])
  {
    hide Resumable;
    assert (log + [h])[..|log|] == log;
    assert forall i | 0 <= i < |log| :: (log + [h])[..i] == log[..i];
  }

  /** A call's own pause is also the last thing that touched an unplug's mark. */
  lemma {:induction false} CallTookOver(log: seq<Happening>)
    requires Latest(log, CallMarks) == Some(CallPaused)
    ensures Latest(log, UnplugMarks) == Some(CallPaused)
  {
    if !Counts(CallMarks, log[|log| - 1]) { CallTookOver(log[..|log| - 1]); }
  }

  predicate Clearing(h: Happening) {
    h in {PauseAsked, PlayAsked, MarkedFinished, EndedBook, SleepPaused, Switched, Interrupted}
  }

  lemma ClearKeeps(m: Marks, why: Happening)
    requires Clearing(why)
    ensures Keeps(m, ClearMarks(m, why))
  {
    hide ResumesOk, Latest, RouteCount;
    Logged(m.log, why);
  }

  lemma ClearsKeep(m: Marks)
    ensures forall why | Clearing(why) :: Keeps(m, ClearMarks(m, why))
  {
    forall why | Clearing(why) ensures Keeps(m, ClearMarks(m, why)) { ClearKeeps(m, why); }
  }

  lemma NotedMarks(m: Marks, what: Happening)
    requires MarksOk(m) && (Meddling(what) || what.Retired?)
    ensures MarksOk(Noted(m, what))
  {
    hide ResumesOk, Latest, RouteCount;
    Logged(m.log, what);
  }

  // ---------------------------------------------------------------- the operations

  lemma PlayMarks(s: State, env: Env)
    ensures Keeps(s.marks, Play(s, env).marks)
  {
    hide Keeps, BeginStart, WriteProgressNow, WriteProgressAt, ResumeBackend, PrepareToResume, ReconcileBeforeResuming, LoadTrackAt;
    var m := ClearMarks(s.marks, PlayAsked);
    ClearsKeep(s.marks);
    ClearsKeep(m);
    KeepsOn(s.marks, m, ClearMarks(m, Switched));
    ResumeMarks(s.(marks := m), env);
  }

  lemma ResumeMarks(s: State, env: Env)
    ensures Resume(s, env).marks == s.marks
  {
    hide ResumeBackend;
    var t := PrepareToResume(ReconcileBeforeResuming(s, env), env);
    if t.deck.nowPlaying.Some? { ResumeBackendMarks(t, env); }
  }

  lemma ResumeBackendMarks(s: State, env: Env)
    requires s.deck.nowPlaying.Some?
    ensures ResumeBackend(s, env).marks == s.marks
  {
  }

  lemma PauseMarks(s: State, env: Env)
    ensures Pause(s, env).marks == ClearMarks(s.marks, PauseAsked) && Keeps(s.marks, Pause(s, env).marks)
  {
    hide Keeps, PauseBackend, WriteProgress;
    ClearsKeep(s.marks);
  }

  lemma SeekToMarks(s: State, seconds: real, env: Env)
    ensures SeekTo(s, seconds, env).marks == s.marks
  {
    hide SeekDeck, LocateTrack, ClampToBook, ChapterEndAt;
  }

  /** Asking for the book that is starting only notes it; asking for any other one when none is
      loaded replaces the session. */
  lemma StartWithMarks(s: State, book: Book, speed: real, chapter: Option<nat>, env: Env)
    ensures var n := StartWith(s, book, speed, chapter, env).marks;
            if !IsLoaded(s.deck, book) && IsPending(s.deck, book) then n == Noted(s.marks, AskedAgain) else Keeps(s.marks, n)
    ensures s.deck.nowPlaying.None? && s.deck.pendingStart.None? ==>
              StartWith(s, book, speed, chapter, env).marks == ClearMarks(s.marks, Switched)
  {
    hide Keeps, Play, SeekTo, BeginStart, WriteProgressNow;
    ClearsKeep(s.marks);
    PlayMarks(s, env);
    if IsLoaded(s.deck, book) && chapter.Some? && chapter.value < |s.deck.nowPlaying.value.chapters| {
      var at := Max(s.deck.nowPlaying.value.chapters[chapter.value].start, 0.0);
      SeekToMarks(s, at, env);
      PlayMarks(SeekTo(s, at, env), env);
    }
  }

  lemma FinishingMarks(s: State, env: Env)
    ensures var n := MarkAsFinished(s, env).marks;
            if s.deck.pendingStart.Some? then n == Noted(s.marks, FinishNoted) else Keeps(s.marks, n)
    ensures ResetBookProgress(s, env).marks == s.marks
  {
    hide Keeps, SeekTo, WriteProgressAt, EndBook;
    ClearsKeep(s.marks);
    KeepsItself(s.marks);
    SeekToMarks(s, 0.0, env);
  }

  lemma EndTickMarks(s: State, env: Env)
    ensures Keeps(s.marks, EndTick(s, env).marks)
  {
    hide Keeps, WriteProgressNow, WriteProgressAt, BookPosition;
    ClearsKeep(s.marks);
    KeepsItself(s.marks);
  }

  lemma InterruptedMarks(s: State, np: NowPlaying, within: real, env: Env)
    ensures Keeps(s.marks, StopUnclear(s, np, within, env).marks)
    ensures Keeps(s.marks, HandleStreamError(s, np, env).marks)
    ensures s.deck.nowPlaying.Some? ==> FinishBook(s, env).marks == ClearMarks(s.marks, EndedBook) && Keeps(s.marks, FinishBook(s, env).marks)
  {
    hide Keeps, WriteProgress, WriteProgressNow, Released, EndBook, WithinTrack;
    ClearsKeep(s.marks);
  }

  /** What ends a tick after `event` has been handled. */
  lemma EndedTickMarks(m: Marks, s: State, env: Env)
    requires Keeps(m, s.marks)
    ensures Keeps(m, EndTick(s, env).marks)
  {
    hide Keeps, EndTick;
    EndTickMarks(s, env);
    KeepsOn(m, s.marks, EndTick(s, env).marks);
  }

  lemma ObservePositionMarks(s: State, env: Env)
    ensures ObservePosition(s, env).marks == s.marks
  {
    hide ObserveSeek, LoadTrackAt, Released;
  }

  lemma TickMarks(s: State, env: Env)
    ensures Keeps(s.marks, Tick(s, env).marks)
  {
    hide Keeps, ObservePosition, EndTick, StopUnclear, HandleStreamError, FinishBook, JudgeEndOfStream, LoadTrackAt;
    KeepsItself(s.marks);
    if s.deck.nowPlaying.Some? {
      ObservePositionMarks(s, env);
      var t := ObservePosition(s, env).(deferredEvent := None);
      EndTickMarks(t, env);
      if t.deck.nowPlaying.Some? {
        var Judgement(np, verdict) := JudgeEndOfStream(t.deck.nowPlaying.value, env.reading, env.fileLength);
        InterruptedMarks(t, t.deck.nowPlaying.value, 0.0, env);
        EndedTickMarks(t.marks, HandleStreamError(t, t.deck.nowPlaying.value, env), env);
        InterruptedMarks(t, np, if verdict.Unclear? then verdict.within else 0.0, env);
        EndedTickMarks(t.marks, HandleStreamError(t, np, env), env);
        var j := t.(deck := WithBook(t.deck, np));
        InterruptedMarks(j, np, 0.0, env);
        EndedTickMarks(t.marks, FinishBook(j, env), env);
      }
    }
  }

  // ---------------------------------------------------------------- resumed tasks

  lemma FinishStartMarks(s: State, task: Task, prepared: StartStage, loaded: bool, speed: real, env: Env)
    requires task.StartTask? && prepared.StartPreroll? && s.deck.pendingStart.Some?
    ensures Keeps(s.marks, FinishStart(s, task, prepared, loaded, speed, env).marks)
  {
    hide Keeps, MarkAsFinished, ResetBookProgress;
    KeepsItself(s.marks);
    var np := StartedBook(task.book, prepared, loaded, s.deck.pendingStart.value.wantsPlay, speed, env.now);
    var d := if np.isPlaying then Commanded(s.deck, PlayCommand(env.plays)) else s.deck;
    FinishingMarks(s.(deck := d.(pendingStart := None, nowPlaying := Some(np)),
                      saving := s.saving.(lastProgressWrite := env.now, lastPlayedAt := env.now),
                      ticking := s.ticking || np.isPlaying), env);
  }

  lemma PollStartMarks(s: State, task: Task, env: Env)
    requires task.StartTask? && task.startStage.StartPreroll?
    ensures Keeps(s.marks, PollStart(s, task, env).marks)
  {
    hide Keeps, FinishStart;
    KeepsItself(s.marks);
    if PendingIs(s.deck, task.generation) {
      var stage := task.startStage;
      var sped := s.(deck := Commanded(s.deck, SpeedCommand(task.speed, stage.within)));
      FinishStartMarks(sped, task, stage, true, if env.speedAccepted then task.speed else 1.0, env);
      FinishStartMarks(if stage.within > 0.0 then s.(deck := Commanded(s.deck, SeekCommand(stage.within))) else s, task, stage, true, 1.0, env);
    }
  }

  lemma ResumeStartMarks(s: State, task: Task, outcome: Outcome, env: Env)
    requires task.StartTask?
    ensures Keeps(s.marks, ResumeStart(s, task, outcome, env).marks)
  {
    hide Keeps, FinishStart, PollStart, StartPosition, LocateTrack;
    KeepsItself(s.marks);
    if task.startStage.StartPreroll? {
      PollStartMarks(s, task, env);
    } else if PendingIs(s.deck, task.generation) && task.startStage.Placing? && outcome.Placed? {
      var target := task.startStage.target;
      var at := StartPosition(task.startStage.chapterStart, outcome.saved, target.duration);
      var (track, within) := if at.Some? then LocateTrack(target.tracks, at.value) else (0, 0.0);
      var d := s.deck.(loadGeneration := s.deck.loadGeneration + 1);
      var prepared := StartPreroll(target, track, within, d.loadGeneration, outcome.startIsLocal, 0);
      PollStartMarks(s.(deck := Commanded(Commanded(d, LoadAccepted(task.book, track)), PauseCommand(env.pauses))), task.(startStage := prepared), env);
      FinishStartMarks(s.(deck := ResetBackend(Commanded(d, LoadRefused(task.book, track)))), task, prepared, false, 1.0, env);
    }
  }

  lemma ResumeReconcileMarks(s: State, task: Task, outcome: Outcome, env: Env)
    requires task.Reconcile?
    ensures ResumeReconcile(s, task, outcome, env).marks == s.marks
  {
    hide SeekTo, WriteProgress;
    var u := if s.saving.holdingWrites == Some(task.session) then s.(saving := s.saving.(holdingWrites := None)) else s;
    if outcome.Reconciled? && outcome.after.Some? { SeekToMarks(u, outcome.after.value.0, env); }
  }

  lemma ResumeTaskMarks(s: State, task: Task, outcome: Outcome, env: Env)
    requires MarksOk(s.marks)
    requires task.ReplugTimer? && task in s.deck.tasks && ReplugResumes(s, task) ==> Latest(s.marks.log, Sessions) != Some(Retired)
    ensures Keeps(s.marks, ResumeTask(s, task, outcome, env).marks)
  {
    hide Keeps, MarksOk, ResumeStart, ResumeLoad, Play, ResumeReconcile, WriteProgress, ResumePauseConfirmation, ResumeLocalFileCheck, LoadTrackAt;
    KeepsItself(s.marks);
    if task in s.deck.tasks {
      var t := s.(deck := Taken(s.deck, task));
      if task.StartTask? {
        ResumeStartMarks(t, task, outcome, env);
      } else if task.Reconcile? {
        ResumeReconcileMarks(t, task, outcome, env);
      } else if task.ReplugTimer? && ReplugResumes(t, task) {
        ReplugMarks(t, task, env);
      }
    }
  }

  lemma ReplugMarks(s: State, task: Task, env: Env)
    requires MarksOk(s.marks) && task.ReplugTimer? && ReplugResumes(s, task) && Latest(s.marks.log, Sessions) != Some(Retired)
    ensures Keeps(s.marks, ResumeReplugTimer(s, task, env).marks)
    ensures s.marks.log + [ReplugResumed] <= ResumeReplugTimer(s, task, env).marks.log
  {
    hide Play, Latest, RouteCount, ResumesOk;
    var m := s.marks.(pausedByUnplug := false, log := s.marks.log + [ReplugResumed]);
    Logged(s.marks.log, ReplugResumed);
    if s.marks.pausedByCall { CallTookOver(s.marks.log); }
    PlayMarks(s.(marks := m), env);
    KeepsOn(s.marks, m, Play(s.(marks := m), env).marks);
  }

  /** A mark can be left only by the pause just made, and taken by what just resumed. */
  lemma HeadphonesMarks(s: State, env: Env)
    requires MarksOk(s.marks)
    ensures MarksOk(Unplugged(s, env).marks) && GoesOn(s.marks.log, Unplugged(s, env).marks.log)
    ensures Keeps(s.marks, Replugged(s).marks)
  {
    hide Pause, Latest, RouteCount, ResumesOk;
    Logged(s.marks.log, RouteSeen);
    var t := s.(marks := RouteChanged(s.marks));
    PauseMarks(t, env);
    Logged(Pause(t, env).marks.log, UnplugPaused);
  }

  lemma CallsMarks(s: State, env: Env)
    requires MarksOk(s.marks)
    ensures MarksOk(CallStarted(s, env).marks) && GoesOn(s.marks.log, CallStarted(s, env).marks.log)
    ensures Keeps(s.marks, CallAnswered(s).marks)
  {
    hide Pause, Latest, RouteCount, ResumesOk;
    PauseMarks(s, env);
    Logged(Pause(s, env).marks.log, CallPaused);
    Logged(s.marks.log, CallPickedUp);
  }

  lemma CallEndedMarks(s: State, answered: bool, outgoing: bool, env: Env)
    requires MarksOk(s.marks) && (CallResumes(s, answered, outgoing) ==> Latest(s.marks.log, Sessions) != Some(Retired))
    ensures Keeps(s.marks, CallEnded(s, answered, outgoing, env).marks)
    ensures CallResumes(s, answered, outgoing) ==> s.marks.log + [CallResumed] <= CallEnded(s, answered, outgoing, env).marks.log
  {
    hide Play, Latest, RouteCount, ResumesOk;
    Logged(s.marks.log, CallOver);
    if CallResumes(s, answered, outgoing) {
      var m := s.marks.(pausedByCall := false, log := s.marks.log + [CallResumed]);
      Logged(s.marks.log, CallResumed);
      CallTookOver(s.marks.log);
      PlayMarks(s.(marks := m), env);
      KeepsOn(s.marks, m, Play(s.(marks := m), env).marks);
    }
  }

  // ---------------------------------------------------------------- every step and every run

  /** The step asks something of a book that is still starting. */
  predicate Meddles(s: State, event: Event) {
    match event
    case DoStart(book, _, _) => !IsLoaded(s.deck, book) && IsPending(s.deck, book)
    case DoMarkFinished => s.deck.pendingStart.Some?
    case _ => false
  }

  /** A player with something to play or pause has not been retired since it was asked for. */
  lemma IntentIsAsked(asked: Option<Book>, s: State)
    requires Safe(asked, s.deck) && SessionOk(asked, s.marks.log) && PlayingIntent(s.deck).Some?
    ensures Latest(s.marks.log, Sessions) != Some(Retired)
  {
    hide Latest;
  }

  lemma SettingsMarks(m: Marks, p: bool, r: bool)
    ensures Keeps(m, m.(pauseOnUnplug := p, resumeOnReplug := r))
  {
  }

  lemma StepKeeps(asked: Option<Book>, s: State, event: Event, env: Env)
    requires MarksOk(s.marks) && Safe(asked, s.deck) && SessionOk(asked, s.marks.log)
    requires !Meddles(s, event) && !event.DoRetire? && !event.DoUnplug? && !event.DoCallStart?
    ensures Keeps(s.marks, Step(s, event, env).marks)
  {
    hide Keeps, MarksOk, StartWith, Play, Pause, SeekTo, MarkAsFinished, ResetBookProgress, Tick, ResumeTask, WriteProgress, SetSpeed,
         Replugged, CallAnswered, CallEnded, BookPosition, Safe, IsLoaded, SessionOk, Latest;
    KeepsItself(s.marks);
    if PlayingIntent(s.deck).Some? { IntentIsAsked(asked, s); }
    match event
    case DoStart(book, speed, chapter) => StartWithMarks(s, book, speed, chapter, env);
    case DoPlay => PlayMarks(s, env);
    case DoPause => PauseMarks(s, env);
    case DoToggle => PlayMarks(s, env); PauseMarks(s, env);
    case DoExternalToggle => PlayMarks(s, env); PauseMarks(s, env);
    case DoSeek(seconds) => SeekToMarks(s, seconds, env);
    case DoSetSpeed(speed) => SetSpeedMarks(s, speed, env);
    case DoMarkFinished => FinishingMarks(s, env);
    case DoReset => FinishingMarks(s, env);
    case DoHeadphoneSettings(p, r) => SettingsMarks(s.marks, p, r);
    case DoReplug => HeadphonesMarks(s, env);
    case DoCallAnswered => CallsMarks(s, env);
    case DoCallEnd(answered, outgoing) => CallEndedMarks(s, answered, outgoing, env);
    case DoTick => TickMarks(s, env);
    case DoResume(task, outcome) => ResumeTaskMarks(s, task, outcome, env);
    case _ =>
  }

  lemma SetSpeedMarks(s: State, speed: real, env: Env)
    ensures SetSpeed(s, speed, env).marks == s.marks
  {
    hide Within, UsableSpeed, Abs;
  }

  /** What the log notes of a starting book is exactly what was asked of it. */
  lemma MeddlesMarks(s: State, event: Event, env: Env)
    requires Meddles(s, event)
    ensures Step(s, event, env).marks == Noted(s.marks, if event.DoStart? then AskedAgain else FinishNoted)
  {
    hide StartWith, MarkAsFinished, IsLoaded;
    match event
    case DoStart(book, speed, chapter) => StartWithMarks(s, book, speed, chapter, env);
    case DoMarkFinished => FinishingMarks(s, env);
  }

  lemma {:induction false} GoneOn(log: seq<Happening>, further: seq<Happening>)
    requires GoesOn(log, further)
    ensures Latest(further, Sessions) == Some(Retired) ==> Latest(log, Sessions) == Some(Retired)
  {
    if |further| > |log| {
      GoneOn(log, further[..|further| - 1]);
    } else {
      assert further == log;
    }
  }

  /** A book asked for when there is none starts a session. */
  lemma StartedSession(asked: Option<Book>, s: State, event: Event, env: Env)
    requires Safe(asked, s.deck) && SessionOk(asked, s.marks.log) && event.DoStart?
    requires GoesOn(s.marks.log, Step(s, event, env).marks.log)
    ensures Latest(Step(s, event, env).marks.log, Sessions) != Some(Retired)
  {
    hide StartWith, GoesOn, Latest;
    GoneOn(s.marks.log, Step(s, event, env).marks.log);
    if asked.None? {
      StartWithMarks(s, event.book, event.speed, event.chapter, env);
      Logged(s.marks.log, Switched);
    }
  }

  /** Every step keeps the marks in step with the log; only an unplug and the start of a call leave
      one, and only `Meddles` is noted as such. */
  lemma StepMarks(asked: Option<Book>, s: State, event: Event, env: Env)
    requires MarksOk(s.marks) && Safe(asked, s.deck) && SessionOk(asked, s.marks.log)
    ensures var n := Step(s, event, env).marks;
            && MarksOk(n) && SessionOk(AskedAfter(asked, event), n.log)
            && (event.DoUnplug? || event.DoCallStart? || NoNewMark(s.marks, n))
            && if Meddles(s, event) then n == Noted(s.marks, if event.DoStart? then AskedAgain else FinishNoted)
               else event.DoRetire? || GoesOn(s.marks.log, n.log)
  {
    hide MarksOk, Step, Safe, Latest, IsLoaded, GoesOn;
    var m, n := s.marks, Step(s, event, env).marks;
    if Meddles(s, event) {
      var what := if event.DoStart? then AskedAgain else FinishNoted;
      MeddlesMarks(s, event, env);
      NotedMarks(m, what);
      Logged(m.log, what);
      if event.DoStart? { PendingIsAsked(asked, s); }
    } else if event.DoRetire? {
      RetiredMarks(s, env);
    } else {
      if event.DoUnplug? || event.DoCallStart? { PausingMarks(s, event, env); } else { StepKeeps(asked, s, event, env); }
      GoneOn(m.log, n.log);
      if event.DoStart? { StartedSession(asked, s, event, env); }
    }
  }

  lemma PendingIsAsked(asked: Option<Book>, s: State)
    requires Safe(asked, s.deck) && SessionOk(asked, s.marks.log) && s.deck.pendingStart.Some?
    ensures Latest(s.marks.log, Sessions) != Some(Retired)
  {
    hide Latest;
  }

  lemma RetiredMarks(s: State, env: Env)
    requires MarksOk(s.marks)
    ensures MarksOk(Step(s, DoRetire, env).marks) && NoNewMark(s.marks, Step(s, DoRetire, env).marks)
  {
    hide MarksOk, WriteProgressNow;
    NotedMarks(s.marks, Retired);
  }

  lemma PausingMarks(s: State, event: Event, env: Env)
    requires MarksOk(s.marks) && (event.DoUnplug? || event.DoCallStart?)
    ensures MarksOk(Step(s, event, env).marks) && GoesOn(s.marks.log, Step(s, event, env).marks.log)
  {
    hide MarksOk, GoesOn, Unplugged, CallStarted;
    HeadphonesMarks(s, env);
    CallsMarks(s, env);
  }

  lemma {:induction false} RunMarks(asked: Option<Book>, s: State, events: seq<(Event, Env)>)
    requires MarksOk(s.marks) && Safe(asked, s.deck) && SessionOk(asked, s.marks.log)
    ensures MarksOk(Run(s, events).marks) && Safe(AskedBy(asked, events), Run(s, events).deck)
    ensures SessionOk(AskedBy(asked, events), Run(s, events).marks.log)
    decreases |events|
  {
    hide MarksOk, Safe, Step, SessionOk;
    if events != [] {
      var (event, env) := events[0];
      StepMarks(asked, s, event, env);
      StepSafe(asked, s, event, env);
      RunMarks(AskedAfter(asked, event), Step(s, event, env), events[1..]);
    }
  }

  lemma {:induction false} RunFromTheStart(now: Time, events: seq<(Event, Env)>)
    ensures var s := Run(Initial(now), events);
            MarksOk(s.marks) && Safe(AskedBy(None, events), s.deck) && SessionOk(AskedBy(None, events), s.marks.log)
  {
    hide Run;
    InitialSafe(now);
    RunMarks(None, Initial(now), events);
  }

  // ---------------------------------------------------------------- what is resumed

  /** The pause that touched its mark last is also the last decision exactly when nothing was asked
      of a starting book since. */
  lemma {:induction false} UntouchedIff(log: seq<Happening>, marks: Sight, decisions: Sight, pause: Happening)
    requires (marks == UnplugMarks && decisions == Decisions && pause == UnplugPaused)
             || (marks == CallMarks && decisions == CallDecisions && pause == CallPaused)
    requires Latest(log, marks) == Some(pause) && Latest(log, Sessions) != Some(Retired)
    ensures Latest(log, decisions) == Some(pause) <==> !Meddled(log, pause)
    ensures forall h | h in Since(log, pause) :: !Counts(decisions, h) || Meddling(h)
  {
    var h := log[|log| - 1];
    if h != pause {
      assert !h.Retired?;
      UntouchedIff(log[..|log| - 1], marks, decisions, pause);
      var since := Since(log[..|log| - 1], pause);
      assert forall g :: g in Since(log, pause) <==> g in since || g == h;
    }
  }

  /** In every run: an unplug's and a call's mark are never both set, each is set exactly while its
      pause is the last thing to have touched it, and whatever a replug or the end of a call resumed
      was that pause. Nothing had been decided about playback since if and only if the book was not,
      while still starting, asked for again or marked finished. */
  lemma {:induction false} ResumesItsOwnPauseIff(now: Time, events: seq<(Event, Env)>)
    ensures var m := Run(Initial(now), events).marks;
            && !(m.pausedByUnplug && m.pausedByCall)
            && (m.pausedByUnplug <==> Latest(m.log, UnplugMarks) == Some(UnplugPaused))
            && (m.pausedByCall <==> Latest(m.log, CallMarks) == Some(CallPaused))
            && forall i | 0 <= i < |m.log| ::
                 && (m.log[i].ReplugResumed? ==>
                       && Latest(m.log[..i], UnplugMarks) == Some(UnplugPaused)
                       && (Latest(m.log[..i], Decisions) == Some(UnplugPaused) <==> !Meddled(m.log[..i], UnplugPaused)))
                 && (m.log[i].CallResumed? ==>
                       && Latest(m.log[..i], CallMarks) == Some(CallPaused)
                       && (Latest(m.log[..i], CallDecisions) == Some(CallPaused) <==> !Meddled(m.log[..i], CallPaused)))
  {
    hide Run, Latest, Since, Meddled, SessionOk, Safe, RouteCount;
    RunFromTheStart(now, events);
    var m := Run(Initial(now), events).marks;
    if m.pausedByCall { CallTookOver(m.log); }
    forall i | 0 <= i < |m.log|
      ensures m.log[i].ReplugResumed? ==> (Latest(m.log[..i], Decisions) == Some(UnplugPaused) <==> !Meddled(m.log[..i], UnplugPaused))
      ensures m.log[i].CallResumed? ==> (Latest(m.log[..i], CallDecisions) == Some(CallPaused) <==> !Meddled(m.log[..i], CallPaused))
    {
      if m.log[i].ReplugResumed? { UntouchedIff(m.log[..i], UnplugMarks, Decisions, UnplugPaused); }
      if m.log[i].CallResumed? { UntouchedIff(m.log[..i], CallMarks, CallDecisions, CallPaused); }
    }
  }

  lemma InitialMarks(now: Time)
    ensures MarksOk(Initial(now).marks) && SessionOk(None, Initial(now).marks.log) && NothingNoted(Initial(now).marks.log)
  {
  }

  predicate MeddlesDuring(s: State, events: seq<(Event, Env)>)
    decreases |events|
  {
    events != [] && (Meddles(s, events[0].0) || MeddlesDuring(Step(s, events[0].0, events[0].1), events[1..]))
  }

  predicate NothingNoted(log: seq<Happening>) { forall h | h in log :: !Meddling(h) }

  lemma {:induction false} RunNotesNothing(asked: Option<Book>, s: State, events: seq<(Event, Env)>)
    requires MarksOk(s.marks) && Safe(asked, s.deck) && SessionOk(asked, s.marks.log)
    requires NothingNoted(s.marks.log) && !MeddlesDuring(s, events)
    ensures NothingNoted(Run(s, events).marks.log)
    decreases |events|
  {
    hide MarksOk, Safe, Step, SessionOk, Meddles;
    if events != [] {
      var (event, env) := events[0];
      var t := Step(s, event, env);
      StepMarks(asked, s, event, env);
      StepSafe(asked, s, event, env);
      if event.DoRetire? { RetiredLog(s, env); } else { assert forall h | h in t.marks.log :: h in s.marks.log || !Meddling(h); }
      RunNotesNothing(AskedAfter(asked, event), t, events[1..]);
    }
  }

  lemma RetiredLog(s: State, env: Env)
    ensures Step(s, DoRetire, env).marks.log == s.marks.log + [Retired]
  {
  }

  lemma {:induction false} SinceIsLogged(log: seq<Happening>, pause: Happening)
    ensures forall h | h in Since(log, pause) :: h in log
  {
    if log != [] && log[|log| - 1] != pause { SinceIsLogged(log[..|log| - 1], pause); }
  }

  /** So in a run in which nothing is asked of a book that is still starting, every resumption by a
      replug or by the end of a call lifts its own pause with nothing decided since. */
  lemma {:induction false} UnmeddledRunsResumeUntouched(now: Time, events: seq<(Event, Env)>)
    requires !MeddlesDuring(Initial(now), events)
    ensures var log := Run(Initial(now), events).marks.log;
            forall i | 0 <= i < |log| ::
              && (log[i].ReplugResumed? ==> Latest(log[..i], Decisions) == Some(UnplugPaused))
              && (log[i].CallResumed? ==> Latest(log[..i], CallDecisions) == Some(CallPaused))
  {
    hide Run, MeddlesDuring, Latest;
    InitialSafe(now);
    InitialMarks(now);
    RunNotesNothing(None, Initial(now), events);
    ResumesItsOwnPauseIff(now, events);
    var log := Run(Initial(now), events).marks.log;
    forall i | 0 <= i < |log| ensures !Meddled(log[..i], UnplugPaused) && !Meddled(log[..i], CallPaused) {
      SinceIsLogged(log[..i], UnplugPaused);
      SinceIsLogged(log[..i], CallPaused);
    }
  }

  /** At the end of its settling time a replug resumes exactly when no other headphone event came in
      since it was seen, its unplug's pause is the last thing to have touched the mark, and playback
      is paused. */
  lemma {:induction false} ReplugResumesOnlyWhenSettled(now: Time, events: seq<(Event, Env)>, n: nat, outcome: Outcome, env: Env)
    ensures var s := Run(Initial(now), events);
            ReplugTimer(n) in s.deck.tasks ==>
              (s.marks.log + [ReplugResumed] <= Step(s, DoResume(ReplugTimer(n), outcome), env).marks.log <==>
                 && RouteCount(s.marks.log) == n
                 && Latest(s.marks.log, UnplugMarks) == Some(UnplugPaused)
                 && PlayingIntent(s.deck) == Some(false))
  {
    hide Run, Play, SessionOk, Safe, RouteCount, Latest;
    RunFromTheStart(now, events);
    var s := Run(Initial(now), events);
    if ReplugTimer(n) in s.deck.tasks {
      var t := s.(deck := Taken(s.deck, ReplugTimer(n)));
      if ReplugResumes(t, ReplugTimer(n)) {
        IntentIsAsked(AskedBy(None, events), s);
        ReplugMarks(t, ReplugTimer(n), env);
      }
    }
  }

  /** The end of a call resumes exactly when the call was incoming, nobody picked it up, its pause is
      the last thing to have touched the mark, and playback is paused; else it leaves the book and
      the backend alone. */
  lemma {:induction false} CallEndResumesOnlyUnanswered(now: Time, events: seq<(Event, Env)>, answered: bool, outgoing: bool, env: Env)
    ensures var s := Run(Initial(now), events);
            var t := Step(s, DoCallEnd(answered, outgoing), env);
            && (s.marks.log + [CallResumed] <= t.marks.log <==>
                  && !answered && !outgoing
                  && Latest(s.marks.log, CallMarks) == Some(CallPaused)
                  && PlayingIntent(s.deck) == Some(false))
            && (s.marks.log + [CallResumed] <= t.marks.log || t.deck == s.deck)
  {
    hide Run, Play, SessionOk, Safe, RouteCount, Latest;
    RunFromTheStart(now, events);
    var s := Run(Initial(now), events);
    if CallResumes(s, answered, outgoing) {
      IntentIsAsked(AskedBy(None, events), s);
      CallEndedMarks(s, answered, outgoing, env);
    } else {
      assert (s.marks.log + [CallOver])[|s.marks.log|] == CallOver;
    }
  }
}
