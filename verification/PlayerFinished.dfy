/** What every run keeps about a finished book: nothing is left that could resume it, so it stays the
    same finished book until it is sought in, played again, or replaced. */
module PlayerFinished {
  import opened Prelude
  import opened PlayerTypes
  import opened PlayerSpec
  import opened PlayerSafety
  import opened PlayerFinishing
  import opened PlayerMarks

  /** Neither a replug nor the end of a call has a mark to resume a finished book by. */
  predicate Unmarked(m: Marks) { !m.pausedByUnplug && !m.pausedByCall }

  ghost predicate EndedUnmarked(s: State) { EndedNow(s.deck) ==> Unmarked(s.marks) }

  /** Everything the other theorems keep in every run. */
  ghost predicate InOrder(asked: Option<Book>, s: State) {
    Safe(asked, s.deck) && AllKept(s) && MarksOk(s.marks) && SessionOk(asked, s.marks.log)
  }

  // ---------------------------------------------------------------- what finishes a book clears the marks

  lemma FinishStartUnmarked(s: State, task: Task, prepared: StartStage, loaded: bool, speed: real, env: Env)
    requires task.StartTask? && prepared.StartPreroll? && s.deck.pendingStart.Some?
    ensures EndedNow(FinishStart(s, task, prepared, loaded, speed, env).deck) ==> Unmarked(FinishStart(s, task, prepared, loaded, speed, env).marks)
  {
    hide WriteProgressAt, ResetBookProgress, EndBook;
    FinishStartEnding(s, task, prepared, loaded, speed, env);
  }

  lemma PollStartUnmarked(s: State, task: Task, env: Env)
    requires task.StartTask? && task.startStage.StartPreroll? && s.deck.nowPlaying.None?
    ensures EndedNow(PollStart(s, task, env).deck) ==> Unmarked(PollStart(s, task, env).marks)
  {
    hide FinishStart;
    if PendingIs(s.deck, task.generation) {
      var stage := task.startStage;
      var sped := s.(deck := Commanded(s.deck, SpeedCommand(task.speed, stage.within)));
      FinishStartUnmarked(sped, task, stage, true, if env.speedAccepted then task.speed else 1.0, env);
      FinishStartUnmarked(if stage.within > 0.0 then s.(deck := Commanded(s.deck, SeekCommand(stage.within))) else s, task, stage, true, 1.0, env);
    }
  }

  lemma ResumeStartUnmarked(s: State, task: Task, outcome: Outcome, env: Env)
    requires task.StartTask? && s.deck.nowPlaying.None?
    ensures EndedNow(ResumeStart(s, task, outcome, env).deck) ==> Unmarked(ResumeStart(s, task, outcome, env).marks)
  {
    hide FinishStart, PollStart, StartPosition, LocateTrack;
    if task.startStage.StartPreroll? {
      PollStartUnmarked(s, task, env);
    } else if PendingIs(s.deck, task.generation) && task.startStage.Placing? && outcome.Placed? {
      var target := task.startStage.target;
      var at := StartPosition(task.startStage.chapterStart, outcome.saved, target.duration);
      var (track, within) := if at.Some? then LocateTrack(target.tracks, at.value) else (0, 0.0);
      var d := s.deck.(loadGeneration := s.deck.loadGeneration + 1);
      var prepared := StartPreroll(target, track, within, d.loadGeneration, outcome.startIsLocal, 0);
      PollStartUnmarked(s.(deck := Commanded(Commanded(d, LoadAccepted(task.book, track)), PauseCommand(env.pauses))), task.(startStage := prepared), env);
      FinishStartUnmarked(s.(deck := ResetBackend(Commanded(d, LoadRefused(task.book, track)))), task, prepared, false, 1.0, env);
    }
  }

  lemma FinishingTickUnmarked(s: State, env: Env)
    requires s.deck.nowPlaying.Some? && FinishesNow(s, env)
    ensures Unmarked(Tick(s, env).marks)
  {
    hide ObservePosition, EndTick, FinishBook, JudgeEndOfStream, EndIsReal;
    var t := ObservePosition(s, env).(deferredEvent := None);
    var np := JudgeEndOfStream(t.deck.nowPlaying.value, env.reading, env.fileLength).book;
    var j := t.(deck := WithBook(t.deck, np));
    EndIsJudged(t.deck.nowPlaying.value, env.reading, env.fileLength);
    InterruptedMarks(j, np, 0.0, env);
    EndTickMarks(FinishBook(j, env), env);
  }

  /** Finishing the book leaves no mark behind. */
  lemma FinishingUnmarks(asked: Option<Book>, s: State, event: Event, env: Env)
    requires InOrder(asked, s) && EndedNow(Step(s, event, env).deck) && !EndedNow(s.deck)
    ensures Unmarked(Step(s, event, env).marks)
  {
    hide Safe, AllKept, MarksOk, SessionOk, Tick, ResumeTask, FinishesNow, Continue;
    OnlyTheEndFinishes(asked, s, event, env);
    if event.DoTick? {
      NothingLoadedTick(s, env);
      FinishingTickUnmarked(s, env);
    } else if event.DoResume? {
      OneOrTheOther(asked, s.deck);
      if event.task in s.deck.tasks { ResumedStartUnmarked(s, event.task, event.outcome, env); } else { NotSuspended(s, event.task, event.outcome, env); }
    } else {
      MarkedUnmarked(s, env);
    }
  }

  lemma NothingLoadedTick(s: State, env: Env)
    requires FinishesNow(s, env)
    ensures s.deck.nowPlaying.Some?
  {
    ObservePositionEnding(s, env);
  }

  lemma NotSuspended(s: State, task: Task, outcome: Outcome, env: Env)
    requires task !in s.deck.tasks
    ensures ResumeTask(s, task, outcome, env) == s
  {
  }

  lemma MarkedUnmarked(s: State, env: Env)
    requires EndedNow(MarkAsFinished(s, env).deck) && !EndedNow(s.deck)
    ensures Unmarked(MarkAsFinished(s, env).marks)
  {
    hide WriteProgressAt;
  }

  lemma ResumedStartUnmarked(s: State, task: Task, outcome: Outcome, env: Env)
    requires task.StartTask? && task in s.deck.tasks && s.deck.nowPlaying.None?
    ensures var r := ResumeTask(s, task, outcome, env); EndedNow(r.deck) ==> Unmarked(r.marks)
  {
    hide ResumeStart;
    ResumeStartUnmarked(s.(deck := Taken(s.deck, task)), task, outcome, env);
  }

  lemma PausedIsNotMarked(asked: Option<Book>, s: State, event: Event, env: Env)
    requires InOrder(asked, s) && EndedNow(s.deck) && Unmarked(s.marks) && (event.DoUnplug? || event.DoCallStart?)
    ensures Unmarked(Step(s, event, env).marks)
  {
    hide Pause, MarksOk, SessionOk;
  }

  lemma StepUnmarked(asked: Option<Book>, s: State, event: Event, env: Env)
    requires InOrder(asked, s) && EndedUnmarked(s)
    ensures EndedUnmarked(Step(s, event, env))
  {
    hide Step, EndedNow, InOrder;
    if EndedNow(Step(s, event, env).deck) {
      if !EndedNow(s.deck) {
        FinishingUnmarks(asked, s, event, env);
      } else if event.DoUnplug? || event.DoCallStart? {
        PausedIsNotMarked(asked, s, event, env);
      } else {
        StepOrder(asked, s, event, env);
      }
    }
  }

  lemma StepOrder(asked: Option<Book>, s: State, event: Event, env: Env)
    requires InOrder(asked, s)
    ensures InOrder(AskedAfter(asked, event), Step(s, event, env))
    ensures event.DoUnplug? || event.DoCallStart? || NoNewMark(s.marks, Step(s, event, env).marks)
  {
    hide Step, Safe, AllKept, MarksOk, SessionOk;
    StepSafe(asked, s, event, env);
    StepKept(asked, s, event, env);
    StepMarks(asked, s, event, env);
  }

  lemma {:induction false} RunUnmarked(asked: Option<Book>, s: State, events: seq<(Event, Env)>)
    requires InOrder(asked, s) && EndedUnmarked(s)
    ensures InOrder(AskedBy(asked, events), Run(s, events)) && EndedUnmarked(Run(s, events))
    decreases |events|
  {
    hide Step, InOrder, EndedUnmarked;
    if events != [] {
      StepUnmarked(asked, s, events[0].0, events[0].1);
      StepOrder(asked, s, events[0].0, events[0].1);
      RunUnmarked(AskedAfter(asked, events[0].0), Step(s, events[0].0, events[0].1), events[1..]);
    }
  }

  lemma InitialOrder(now: Time)
    ensures InOrder(None, Initial(now)) && EndedUnmarked(Initial(now))
  {
  }

  lemma {:induction false} RunOrder(now: Time, events: seq<(Event, Env)>)
    ensures InOrder(AskedBy(None, events), Run(Initial(now), events)) && EndedUnmarked(Run(Initial(now), events))
  {
    hide Run, InOrder, EndedUnmarked;
    InitialOrder(now);
    RunUnmarked(None, Initial(now), events);
  }

  /** In every run, a finished book carries no mark: neither a replug nor the end of a call can start
      it again. */
  lemma {:induction false} FinishedHasNoMark(now: Time, events: seq<(Event, Env)>)
    ensures var s := Run(Initial(now), events);
            EndedNow(s.deck) ==> !s.marks.pausedByUnplug && !s.marks.pausedByCall
  {
    hide Run, InOrder, EndedNow;
    RunOrder(now, events);
  }

  // ---------------------------------------------------------------- what un-finishes a book

  /** What seeks in, restarts or replaces a finished book: the listener, or another device's position
      that is adopted after a long pause. */
  predicate Unfinishes(s: State, event: Event) {
    s.deck.nowPlaying.Some?
    && match event
       case DoStart(_, _, _) => true
       case DoPlay => true
       case DoToggle => true
       case DoExternalToggle => true
       case DoRetire => true
       case DoSeek(_) => s.deck.nowPlaying.value.tracks != []
       case DoReset => s.deck.nowPlaying.value.tracks != []
       case DoResume(task, outcome) =>
         && task in s.deck.tasks && task.Reconcile? && outcome.Reconciled? && s.deck.nowPlaying.value.tracks != []
         && s.deck.sessionGeneration == task.session && s.deck.nowPlaying.value.book.item == task.book.item
         && AdoptsServerPosition(task, outcome, s.deck.seekCount)
       case _ => false
  }

  lemma SeekUnfinishes(s: State, seconds: real, env: Env)
    requires s.deck.nowPlaying.Some?
    ensures if s.deck.nowPlaying.value.tracks == [] then SeekTo(s, seconds, env) == s else !EndedNow(SeekTo(s, seconds, env).deck)
  {
    hide LocateTrack, ClampToBook, ChapterEndAt, SeekDeck;
    if s.deck.nowPlaying.value.tracks != [] {
      var target := ClampToBook(seconds, s.deck.nowPlaying.value.duration);
      var np := Retargeted(s.deck.nowPlaying.value, target);
      var (track, within) := LocateTrack(np.tracks, target);
      SeekDeckUnfinishes(s.deck, np, track, within, env.now);
    }
  }

  lemma SeekDeckUnfinishes(d: Deck, np: NowPlaying, track: nat, within: real, now: Time)
    requires !np.ended
    ensures !EndedNow(SeekDeck(d, np, track, within, now))
  {
  }

  /** Playing a finished book starts it over, or starts it again when it never loaded. */
  lemma PlayUnfinishes(asked: Option<Book>, s: State, env: Env)
    requires Safe(asked, s.deck) && EndedNow(s.deck)
    ensures !EndedNow(Play(s, env).deck)
  {
    hide Resume, WriteProgressNow, WriteProgressAt, UsableSpeed;
  }

  lemma StartUnfinishes(asked: Option<Book>, s: State, book: Book, speed: real, chapter: Option<nat>, env: Env)
    requires Safe(asked, s.deck) && EndedNow(s.deck)
    ensures !EndedNow(StartWith(s, book, speed, chapter, env).deck)
  {
    hide Play, SeekTo, WriteProgressNow, UsableSpeed, Safe;
    OneOrTheOther(asked, s.deck);
    if IsLoaded(s.deck, book) {
      PlayUnfinishes(asked, s, env);
      if chapter.Some? && chapter.value < |s.deck.nowPlaying.value.chapters| {
        var at := Max(s.deck.nowPlaying.value.chapters[chapter.value].start, 0.0);
        SeekUnfinishes(s, at, env);
        PlayEnding(SeekTo(s, at, env), env);
      }
    }
  }

  lemma ResetUnfinishes(s: State, env: Env)
    requires s.deck.nowPlaying.Some? && s.deck.pendingStart.None?
    ensures if s.deck.nowPlaying.value.tracks == [] then ResetBookProgress(s, env).deck == s.deck else !EndedNow(ResetBookProgress(s, env).deck)
  {
    hide SeekTo, WriteProgressAt;
    SeekUnfinishes(s, 0.0, env);
  }

  lemma ReconcileUnfinishes(s: State, task: Task, outcome: Outcome, env: Env)
    requires EndedNow(s.deck) && task in s.deck.tasks && task.Reconcile?
    ensures var r := ResumeTask(s, task, outcome, env).deck;
            if Unfinishes(s, DoResume(task, outcome)) then !EndedNow(r) else Ending(r) == Ending(s.deck)
  {
    hide SeekTo, WriteProgress, AdoptsServerPosition;
    var d := s.(deck := Taken(s.deck, task));
    var t := if d.saving.holdingWrites == Some(task.session) then d.(saving := d.saving.(holdingWrites := None)) else d;
    if outcome.Reconciled? && outcome.after.Some? { SeekUnfinishes(t, outcome.after.value.0, env); }
    if outcome.Reconciled? && AdoptsServerPosition(task, outcome, t.deck.seekCount) { AdoptedIsKnown(task, outcome, t.deck.seekCount); }
  }

  lemma AdoptedIsKnown(task: Task, outcome: Outcome, seekCount: nat)
    requires task.Reconcile? && outcome.Reconciled? && AdoptsServerPosition(task, outcome, seekCount)
    ensures outcome.after.Some?
  {
  }

  /** A resumed task other than that leaves a finished, unmarked book as it is. */
  lemma TaskLeavesFinished(asked: Option<Book>, s: State, task: Task, outcome: Outcome, env: Env)
    requires InOrder(asked, s) && EndedNow(s.deck) && Unmarked(s.marks) && !task.Reconcile?
    ensures Ending(ResumeTask(s, task, outcome, env).deck) == Ending(s.deck)
  {
    hide ResumeTask, Safe, AllKept, MarksOk, SessionOk;
    ResumeTaskEnding(asked, s, task, outcome, env);
    if task.ReplugTimer? { NotReplugged(s, task, outcome, env); }
  }

  lemma NotReplugged(s: State, task: Task, outcome: Outcome, env: Env)
    requires task.ReplugTimer? && !s.marks.pausedByUnplug
    ensures Ending(ResumeTask(s, task, outcome, env).deck) == Ending(s.deck)
  {
  }

  /** In a state of a run, a step leaves a finished book the same finished book if and only if it is
      not one that seeks in it, restarts it or replaces it. */
  lemma FinishedUnlessIff(asked: Option<Book>, s: State, event: Event, env: Env)
    requires InOrder(asked, s) && EndedNow(s.deck) && Unmarked(s.marks)
    ensures Ending(Step(s, event, env).deck) == Ending(s.deck) <==> !Unfinishes(s, event)
  {
    hide Play, Pause, SetSpeed, Tick, ResumeTask, SleepInMinutes, SleepAtEndOfChapter, CancelSleepTimer, WriteProgress, WritesOk, Safe, Kept,
         WriteProgressAt, FinishesNow, SeekTo, StartWith, ResetBookProgress, MarksOk, SessionOk, WriteProgressNow;
    OneOrTheOther(asked, s.deck);
    match event
    case DoStart(book, speed, chapter) => StartUnfinishes(asked, s, book, speed, chapter, env);
    case DoPlay => PlayUnfinishes(asked, s, env);
    case DoToggle => PlayUnfinishes(asked, s, env); NotPlaying(s);
    case DoExternalToggle => PlayUnfinishes(asked, s, env); NotPlaying(s);
    case DoSeek(seconds) => SeekUnfinishes(s, seconds, env);
    case DoReset => ResetUnfinishes(s, env);
    case DoPause => PauseEnding(s, env);
    case DoSetSpeed(speed) => SettingsEnding(s, speed, 0, env);
    case DoSleepMinutes(minutes) => SettingsEnding(s, 1.0, minutes, env);
    case DoSleepChapter => SettingsEnding(s, 1.0, 0, env);
    case DoCancelSleep => SettingsEnding(s, 1.0, 0, env);
    case DoUnplug => PauseEnding(s.(marks := RouteChanged(s.marks)), env);
    case DoCallStart => PauseEnding(s, env);
    case DoTick => if s.ticking { StillFinished(s, env); }
    case DoResume(task, outcome) =>
      if task in s.deck.tasks && task.Reconcile? { ReconcileUnfinishes(s, task, outcome, env); }
      else if task in s.deck.tasks { TaskLeavesFinished(asked, s, task, outcome, env); }
      else { NotSuspended(s, task, outcome, env); }
    case _ =>
  }

  lemma NotPlaying(s: State)
    requires AllKept(s) && EndedNow(s.deck)
    ensures !s.deck.nowPlaying.value.isPlaying
  {
  }

  lemma StillFinished(s: State, env: Env)
    requires EndedNow(s.deck)
    ensures Ending(Tick(s, env).deck) == Ending(s.deck)
  {
    hide Tick, FinishesNow;
    TickEnding(s, env);
  }

  predicate UnfinishesDuring(s: State, events: seq<(Event, Env)>)
    decreases |events|
  {
    events != [] && (Unfinishes(s, events[0].0) || UnfinishesDuring(Step(s, events[0].0, events[0].1), events[1..]))
  }

  lemma {:induction false} RunFinished(asked: Option<Book>, s: State, events: seq<(Event, Env)>)
    requires InOrder(asked, s) && EndedUnmarked(s) && EndedNow(s.deck) && !UnfinishesDuring(s, events)
    ensures Ending(Run(s, events).deck) == Ending(s.deck)
    decreases |events|
  {
    hide Step, InOrder, Unfinishes, Unmarked;
    if events != [] {
      var (event, env) := events[0];
      FinishedUnlessIff(asked, s, event, env);
      StepUnmarked(asked, s, event, env);
      StepOrder(asked, s, event, env);
      RunFinished(AskedAfter(asked, event), Step(s, event, env), events[1..]);
    }
  }

  /** Once a run has finished a book, it stays that finished book through any further events, the ends
      of calls and replugs among them, until it is sought in, restarted or replaced. */
  lemma {:induction false} FinishedStaysFinished(now: Time, events: seq<(Event, Env)>, further: seq<(Event, Env)>)
    requires EndedNow(Run(Initial(now), events).deck) && !UnfinishesDuring(Run(Initial(now), events), further)
    ensures Ending(Run(Initial(now), events + further).deck) == Ending(Run(Initial(now), events).deck)
  {
    hide Run, InOrder, UnfinishesDuring, EndedUnmarked;
    RunOrder(now, events);
    RunFinished(AskedBy(None, events), Run(Initial(now), events), further);
    RunsOn(Initial(now), events, further);
  }
}
