/** What the player does after how long, and how often it tries: pauses that never land, files that never
    come, long pauses, lost connections, sleep timers, and the button pressed by an unplug. Every number
    here is one the listener could measure. */
module PlayerDeadlines {
  import opened Prelude
  import opened PlayerTypes
  import opened PlayerSpec
  import opened PlayerPositions

  // ---------------------------------------------------------------- a pause that never lands

  /** The task resumed once for each answer, as it goes on. */
  function Confirming(task: Task, envs: seq<Env>): seq<(Event, Env)>
    requires task.PauseConfirmation?
    decreases |envs|
  {
    if envs == [] then [] else [(DoResume(task, Waiting), envs[0])] + Confirming(task.(attempt := task.attempt + 1), envs[1..])
  }

  /** Nothing has happened since the pause that the task is about. */
  predicate PauseStands(d: Deck, task: Task)
    requires task.PauseConfirmation?
  {
    d.loadGeneration == task.generation && d.seekCount == task.seekCount && d.nowPlaying.Some?
    && !d.nowPlaying.value.isPlaying && !d.nowPlaying.value.needsReload
  }

  /** The pipeline is released and the book marked for a reload. */
  predicate GivenUp(d: Deck, e: Deck) {
    && d.nowPlaying.Some? && e.nowPlaying == Some(d.nowPlaying.value.(hasError := true, needsReload := true, loadingTrack := None))
    && e.commands == d.commands + [ResetCommand] && e.held.None? && e.loadGeneration == d.loadGeneration + 1
  }

  lemma StepIs(s: State, event: Event, env: Env, rest: seq<(Event, Env)>)
    ensures Run(s, [(event, env)] + rest) == Run(Step(s, event, env), rest)
  {
    hide Step;
    assert ([(event, env)] + rest)[1..] == rest;
  }

  lemma ConfirmationGoesOn(s: State, task: Task, env: Env)
    requires task.PauseConfirmation? && task in s.deck.tasks && PauseStands(s.deck, task) && !env.paused
    ensures var t := Step(s, DoResume(task, Waiting), env);
            if task.attempt < 9 then t == Instead(s, task, task.(attempt := task.attempt + 1))
            else GivenUp(s.deck, t.deck) && t == s.(deck := t.deck)
  {
  }

  lemma PauseStandsInstead(s: State, task: Task, next: Task)
    requires task.PauseConfirmation? && PauseStands(s.deck, task) && next.PauseConfirmation? && next == task.(attempt := next.attempt)
    ensures var t := Instead(s, task, next).deck; PauseStands(t, next) && forall e :: GivenUp(t, e) ==> GivenUp(s.deck, e)
  {
  }

  /** A pause that was accepted and not touched since: as long as the pipeline is not paused, nine looks
      change nothing, and the tenth releases it. */
  lemma {:induction false} PauseLandsOrIsReleased(s: State, task: Task, envs: seq<Env>)
    requires task.PauseConfirmation? && task in s.deck.tasks && PauseStands(s.deck, task)
    requires task.attempt + |envs| <= 10 && forall env | env in envs :: !env.paused
    ensures var t := Run(s, Confirming(task, envs));
            if task.attempt + |envs| < 10 then t == Instead(s, task, task.(attempt := task.attempt + |envs|))
            else envs != [] ==> GivenUp(s.deck, t.deck)
    decreases |envs|
  {
    hide Step, Run, Instead;
    if envs == [] {
      InsteadOf(s, task, task, task);
      RunsNothing(s);
    } else {
      assert envs[0] in envs && forall env | env in envs[1..] :: env in envs;
      var next := task.(attempt := task.attempt + 1);
      StepIs(s, DoResume(task, Waiting), envs[0], Confirming(next, envs[1..]));
      ConfirmationGoesOn(s, task, envs[0]);
      if task.attempt < 9 {
        var t := Instead(s, task, next);
        InsteadOf(s, task, next, task.(attempt := task.attempt + |envs|));
        PauseStandsInstead(s, task, next);
        PauseLandsOrIsReleased(t, next, envs[1..]);
      } else {
        assert envs[1..] == [];
        RunsNothing(Step(s, DoResume(task, Waiting), envs[0]));
      }
    }
  }

  /** The state with another task in place of one that was resumed. */
  function Instead(s: State, task: Task, next: Task): State { s.(deck := Spawn(Taken(s.deck, task), next)) }

  lemma InsteadOf(s: State, task: Task, next: Task, last: Task)
    requires task in s.deck.tasks
    ensures next in Instead(s, task, next).deck.tasks && Instead(Instead(s, task, next), next, last) == Instead(s, task, last)
    ensures Instead(s, task, task) == s
  {
    var t := Instead(s, task, next);
    assert t.deck.tasks - multiset{next} == s.deck.tasks - multiset{task};
    assert s.deck.tasks - multiset{task} + multiset{task} == s.deck.tasks;
  }

  lemma RunsNothing(s: State)
    ensures Run(s, []) == s
  {
  }

  /** Every accepted pause of a held file is looked after like that. */
  lemma PauseIsLookedAfter(s: State, env: Env)
    requires s.deck.pendingStart.None? && s.deck.nowPlaying.Some? && HoldsTrack(s.deck.nowPlaying.value) && env.accepted
    ensures var d := Pause(s, env).deck;
            var task := PauseConfirmation(d.loadGeneration, d.seekCount, 0);
            task in d.tasks && PauseStands(d, task) && d.commands == s.deck.commands + [PauseCommand(true)]
  {
    hide WriteProgress;
  }

  // ---------------------------------------------------------------- a file that never comes

  function Polling(task: Task, envs: seq<Env>): seq<(Event, Env)>
    requires task.LoadTask? && task.loadStage.LoadPreroll?
    decreases |envs|
  {
    if envs == [] then []
    else [(DoResume(task, Waiting), envs[0])] + Polling(task.(loadStage := task.loadStage.(polls := task.loadStage.polls + 1)), envs[1..])
  }

  lemma PollGoesOn(s: State, task: Task, env: Env)
    requires task.LoadTask? && task.loadStage.LoadPreroll? && task in s.deck.tasks && LoadIsCurrent(s.deck, task)
    ensures var t := Step(s, DoResume(task, Waiting), env);
            if env.reading.None? && task.loadStage.polls < 150
            then t == Instead(s, task, task.(loadStage := task.loadStage.(polls := task.loadStage.polls + 1)))
            else t.deck.nowPlaying.Some? && t.deck.nowPlaying.value.loadingTrack.None? && !t.deck.nowPlaying.value.needsReload
                 && t.deck.nowPlaying.value.seek.known == s.deck.nowPlaying.value.seek.known
  {
    hide SpeedChanged;
  }

  lemma CurrentInstead(s: State, task: Task, next: Task)
    requires task.LoadTask? && LoadIsCurrent(s.deck, task) && next.LoadTask? && next == task.(loadStage := next.loadStage)
    ensures var t := Instead(s, task, next).deck; LoadIsCurrent(t, next) && t.nowPlaying == s.deck.nowPlaying
  {
  }

  /** A file that was handed over is waited for as long as it tells no position, but for no more than 150
      looks; with the next one it is taken as it is, at the position asked for. */
  lemma {:induction false} FileIsAwaited(s: State, task: Task, envs: seq<Env>)
    requires task.LoadTask? && task.loadStage.LoadPreroll? && task in s.deck.tasks && LoadIsCurrent(s.deck, task)
    requires task.loadStage.polls + |envs| <= 151 && forall env | env in envs :: env.reading.None?
    ensures var t := Run(s, Polling(task, envs));
            if task.loadStage.polls + |envs| < 151
            then t == Instead(s, task, task.(loadStage := task.loadStage.(polls := task.loadStage.polls + |envs|)))
            else envs != [] ==> t.deck.nowPlaying.Some? && t.deck.nowPlaying.value.loadingTrack.None? && t.deck.nowPlaying.value.seek.known == s.deck.nowPlaying.value.seek.known
    decreases |envs|
  {
    hide Step, Run, Instead, LoadIsCurrent;
    if envs == [] {
      InsteadOf(s, task, task, task);
      RunsNothing(s);
    } else {
      assert envs[0] in envs && forall env | env in envs[1..] :: env in envs;
      var next := task.(loadStage := task.loadStage.(polls := task.loadStage.polls + 1));
      StepIs(s, DoResume(task, Waiting), envs[0], Polling(next, envs[1..]));
      PollGoesOn(s, task, envs[0]);
      if task.loadStage.polls < 150 {
        InsteadOf(s, task, next, task.(loadStage := task.loadStage.(polls := task.loadStage.polls + |envs|)));
        CurrentInstead(s, task, next);
        FileIsAwaited(Instead(s, task, next), next, envs[1..]);
      } else {
        assert envs[1..] == [];
        RunsNothing(Step(s, DoResume(task, Waiting), envs[0]));
      }
    }
  }

  /** A start waits in the same way, if it has anywhere to seek to. */
  lemma StartIsAwaitedIff(s: State, task: Task, env: Env)
    requires task.StartTask? && task.startStage.StartPreroll? && PendingIs(s.deck, task.generation)
    requires s.deck.loadGeneration == task.startStage.loadGeneration
    ensures var stage, t := task.startStage, PollStart(s, task, env);
            && (t.deck.pendingStart.Some? <==> env.reading.None? && stage.polls < 150 && (stage.within > 0.0 || SpeedChanged(task.speed, 1.0)))
            && (t.deck.pendingStart.Some? ==> t == s.(deck := Spawn(s.deck, task.(startStage := stage.(polls := stage.polls + 1)))))
  {
    hide FinishStart, SpeedChanged;
    var stage := task.startStage;
    var sped := s.(deck := Commanded(s.deck, SpeedCommand(task.speed, stage.within)));
    StartEnds(sped, task, stage, true, if env.speedAccepted then task.speed else 1.0, env);
    StartEnds(if stage.within > 0.0 then s.(deck := Commanded(s.deck, SeekCommand(stage.within))) else s, task, stage, true, 1.0, env);
  }

  lemma StartEnds(s: State, task: Task, prepared: StartStage, loaded: bool, speed: real, env: Env)
    requires task.StartTask? && prepared.StartPreroll? && s.deck.pendingStart.Some?
    ensures FinishStart(s, task, prepared, loaded, speed, env).deck.pendingStart.None?
  {
    hide StartedBook, SeekDeck, ChapterEndAt, LocateTrack, ClampToBook, WriteProgressAt;
    var np := StartedBook(task.book, prepared, loaded, s.deck.pendingStart.value.wantsPlay, speed, env.now);
    if np.tracks != [] {
      var d := (if np.isPlaying then Commanded(s.deck, PlayCommand(env.plays)) else s.deck).(pendingStart := None, nowPlaying := Some(np));
      var target := ClampToBook(0.0, np.duration);
      var (track, within) := LocateTrack(np.tracks, target);
      SoughtBook(d, Retargeted(np, target), track, within, env.now);
    }
  }

  // ---------------------------------------------------------------- resuming after a while

  /** A loaded book that is paused and can be played on. */
  predicate PausedBook(s: State) {
    s.deck.pendingStart.None? && s.deck.nowPlaying.Some? && s.deck.nowPlaying.value.tracks != []
    && !s.deck.nowPlaying.value.isPlaying && !s.deck.nowPlaying.value.ended && s.deck.nowPlaying.value.retryRequest.None?
  }

  /** Played again after a minute or more and online, unless it is being asked already, the server is asked
      whether another device went on meanwhile; what is written until it answers is held back. */
  lemma LongPauseAsksTheServerIff(s: State, env: Env)
    requires PausedBook(s)
    ensures var t, np := Play(s, env), s.deck.nowPlaying.value;
            var asks := !env.offline && env.now >= s.saving.lastPlayedAt + 60_000 && s.saving.holdingWrites.None?;
            && t.saving.holdingWrites == (if asks then Some(s.deck.sessionGeneration) else s.saving.holdingWrites)
            && (asks ==> Reconcile(np.book, ReportedPosition(np, env.reading), s.deck.sessionGeneration, s.deck.seekCount) in t.deck.tasks)
  {
    hide BookPosition, ReportedPosition, PrepareToResume, ResumeBackend;
    PositionIsReported(s.deck, env.reading);
    var m := s.(marks := ClearMarks(s.marks, PlayAsked));
    PreparedKeeps(ReconcileBeforeResuming(m, env), env);
    ResumedKeeps(PrepareToResume(ReconcileBeforeResuming(m, env), env), env);
  }

  lemma PreparedKeeps(s: State, env: Env)
    ensures var t := PrepareToResume(s, env); t.saving == s.saving && s.deck.tasks <= t.deck.tasks && t.deck.nowPlaying.Some? == s.deck.nowPlaying.Some?
  {
    hide Within;
  }

  lemma ResumedKeeps(s: State, env: Env)
    ensures s.deck.nowPlaying.Some? ==> var t := ResumeBackend(s, env); t.saving == s.saving && s.deck.tasks <= t.deck.tasks
  {
    hide Within;
  }

  /** Another device's position is adopted exactly if the server has one, of a book not finished there and not
      written by this device, more than five seconds from here, and nothing was sought meanwhile. Then it is
      the position reported; otherwise nothing moves. Either way writes are no longer held back. */
  lemma ServerPositionIsAdoptedIff(s: State, task: Task, ok: bool, after: Option<(real, bool, bool)>, env: Env, reading: Option<real>)
    requires task.Reconcile? && s.deck.sessionGeneration == task.session && s.deck.nowPlaying.Some? && s.deck.nowPlaying.value.book == task.book
    requires Contiguous(s.deck.nowPlaying.value.tracks, s.deck.nowPlaying.value.duration) && s.saving.holdingWrites == Some(task.session)
    ensures var t := ResumeReconcile(s, task, Reconciled(ok, after), env);
            var adopts := ok && after.Some? && !after.value.1 && !after.value.2 && s.deck.seekCount == task.seekCount
                          && (after.value.0 - task.from > 5.0 || task.from - after.value.0 > 5.0);
            && t.saving.holdingWrites.None? && t.deck.nowPlaying.Some?
            && if adopts then -0.000001 <= ReportedPosition(t.deck.nowPlaying.value, reading) - Sought(after.value.0, s.deck.nowPlaying.value.duration) <= 0.000001
               else t.deck == s.deck
  {
    hide SeekTo, ReportedPosition, Contiguous, Sought;
    var m := s.(saving := s.saving.(holdingWrites := None));
    if after.Some? {
      SeekIsReportedBack(m, after.value.0, env, reading);
      SeekHoldsNothing(m, after.value.0, env);
    }
  }

  lemma SeekHoldsNothing(s: State, seconds: real, env: Env)
    ensures SeekTo(s, seconds, env).saving.holdingWrites == s.saving.holdingWrites
  {
    hide SeekDeck, LocateTrack, ClampToBook, ChapterEndAt;
  }

  /** A paused file the backend holds is played on where it stands, unless the stream reported an error or has
      been paused for five minutes and more: then the backend is released and the file loaded again, at the
      position reported before. */
  lemma PausedStreamIsReloadedIff(s: State, env: Env)
    requires PausedBook(s) && HoldsTrack(s.deck.nowPlaying.value) && env.polled != Some(EndOfStream)
    ensures var t, np := Play(s, env).deck, s.deck.nowPlaying.value;
            var reload := env.polled.Some? || (!np.sourceIsLocal && env.now >= s.saving.lastPlayedAt + 300_000);
            && t.nowPlaying.Some?
            && if reload then
                 && t.commands == s.deck.commands + [ResetCommand, ResetCommand] && t.nowPlaying.value.loadingTrack == Some(t.loadGeneration)
                 && t.nowPlaying.value.isPlaying && t.nowPlaying.value.currentTrack == np.currentTrack && t.nowPlaying.value.seek.pending
                 && t.nowPlaying.value.seek.known == if np.seek.pending || env.reading.None? then np.seek.known else env.reading.value
               else if env.accepted then t.nowPlaying.value.isPlaying && t.nowPlaying.value.loadingTrack.None? && |t.commands| > |s.deck.commands| && t.commands[|t.commands| - 1] == PlayCommand(true)
               else !t.nowPlaying.value.isPlaying && t.nowPlaying.value.needsReload && t.nowPlaying.value.hasError && |t.commands| > 0 && t.commands[|t.commands| - 1] == ResetCommand
  {
    hide BookPosition, ApplyDeferredSpeed, PrepareToResume, ResumeBackend, LoadTrackAt;
    var m := ReconcileBeforeResuming(s.(marks := ClearMarks(s.marks, PlayAsked)), env);
    StreamIsPrepared(m, env);
    PreparedIsResumed(PrepareToResume(m, env), env);
    assert s.deck.commands + [ResetCommand] + [ResetCommand] == s.deck.commands + [ResetCommand, ResetCommand];
  }

  /** A stream that is not fit to be resumed is released and marked. */
  lemma StreamIsPrepared(s: State, env: Env)
    requires s.deck.nowPlaying.Some? && HoldsTrack(s.deck.nowPlaying.value) && !s.deck.nowPlaying.value.isPlaying && env.polled != Some(EndOfStream)
    ensures var t, np := PrepareToResume(s, env).deck, s.deck.nowPlaying.value;
            var reload := env.polled.Some? || (!np.sourceIsLocal && env.now >= s.saving.lastPlayedAt + 300_000);
            var within := if np.seek.pending || env.reading.None? then np.seek.known else env.reading.value;
            if reload then t.nowPlaying == Some(np.(needsReload := true, seek := np.seek.(known := within))) && t.commands == s.deck.commands + [ResetCommand]
            else t == s.deck
  {
  }

  lemma PreparedIsResumed(s: State, env: Env)
    requires s.deck.nowPlaying.Some? && s.deck.nowPlaying.value.loadingTrack.None?
    ensures var t, np := ResumeBackend(s, env).deck, s.deck.nowPlaying.value;
            && t.nowPlaying.Some?
            && if np.needsReload then
                 && t.commands == s.deck.commands + [ResetCommand] && t.nowPlaying.value.loadingTrack == Some(t.loadGeneration)
                 && t.nowPlaying.value.isPlaying && t.nowPlaying.value.currentTrack == np.currentTrack
                 && t.nowPlaying.value.seek.pending && t.nowPlaying.value.seek.known == np.seek.known
               else if env.accepted then t.nowPlaying.value.isPlaying && t.nowPlaying.value.loadingTrack.None? && |t.commands| > |s.deck.commands| && t.commands[|t.commands| - 1] == PlayCommand(true)
               else t.nowPlaying.value.isPlaying == np.isPlaying && t.nowPlaying.value.needsReload && t.nowPlaying.value.hasError && |t.commands| > 0 && t.commands[|t.commands| - 1] == ResetCommand
  {
    hide ApplyDeferredSpeed;
    SpeedApplied(s, env);
  }

  lemma SpeedApplied(s: State, env: Env)
    requires s.deck.nowPlaying.Some?
    ensures var t := ApplyDeferredSpeed(s, env);
            && t.deck.nowPlaying.Some?
            && t.deck.nowPlaying.value == s.deck.nowPlaying.value.(speed := t.deck.nowPlaying.value.speed, speedUnapplied := t.deck.nowPlaying.value.speedUnapplied)
            && s.deck.commands <= t.deck.commands
  {
  }

  // ---------------------------------------------------------------- lost connections

  /** A lost connection is made up for by the downloaded file, or else by loading the stream again, but for that
      only once a minute; where it was lost. */
  lemma StreamIsRecoveredIff(s: State, task: Task, isLocal: bool, now: Time)
    requires task.Recovery? && s.deck.loadGeneration == task.generation && s.deck.nowPlaying.Some? && s.deck.nowPlaying.value.book == task.book
    ensures var t, np := ResumeRecovery(s, task, Answered(isLocal), now), s.deck.nowPlaying.value;
            var recovers := isLocal || s.lastAutoRecoverAt.None? || now >= s.lastAutoRecoverAt.value + 60_000;
            && t.deck.nowPlaying.Some?
            && t.lastAutoRecoverAt == (if !isLocal && recovers then Some(now) else s.lastAutoRecoverAt)
            && var after := t.deck.nowPlaying.value;
            if recovers then
              && after.loadingTrack == Some(t.deck.loadGeneration) && after.currentTrack == task.track && after.isPlaying == np.isPlaying
              && after.seek.pending && after.seek.known == task.within && LoadTask(np.book, t.deck.loadGeneration, Spawned) in t.deck.tasks
            else after == np.(isPlaying := false, hasError := true)
  {
  }

  /** A file that turns out to be downloaded takes over where the stream is, unless another load came
      between. */
  lemma DownloadedFileTakesOverIff(d: Deck, task: Task, isLocal: bool)
    requires task.LocalFileCheck? && d.nowPlaying.Some? && d.nowPlaying.value.book == task.book
    ensures var e, np := ResumeLocalFileCheck(d, task, Answered(isLocal)), d.nowPlaying.value;
            if isLocal && d.loadGeneration == task.generation && np.currentTrack == task.track then
              && e.nowPlaying.Some? && e.nowPlaying.value.loadingTrack == Some(e.loadGeneration) && e.nowPlaying.value.currentTrack == np.currentTrack
              && e.nowPlaying.value.seek.pending && e.nowPlaying.value.seek.known == np.seek.known && e.nowPlaying.value.isPlaying == np.isPlaying
              && LoadTask(np.book, e.loadGeneration, Spawned) in e.tasks
            else e == d
  {
  }

  // ---------------------------------------------------------------- the button an unplug presses

  /** After an unplug that paused, the media key is ignored for a second and a half, and works as ever from
      then on. */
  lemma SpuriousToggleIsIgnoredIff(s: State, env: Env, later: Env)
    requires s.marks.pauseOnUnplug && PlayingIntent(s.deck) == Some(true)
    requires PlayingIntent(Unplugged(s, env).deck) == Some(false)
    ensures var t := Unplugged(s, env);
            ExternalPlayPause(t, later) == if later.now < env.now + 1500 then t else Play(t, later)
  {
    hide Play, Pause;
  }

  // ---------------------------------------------------------------- sleep timers

  /** The end of the chapter that holds the position: the first that does, or the end of the book. */
  function ChapterEnds(chapters: seq<Chapter>, position: real, duration: real): real {
    if chapters == [] then duration
    else if chapters[0].start <= position && position < chapters[0].end then chapters[0].end
    else ChapterEnds(chapters[1..], position, duration)
  }

  lemma {:induction false} ChapterEndIs(chapters: seq<Chapter>, position: real, duration: real)
    ensures ChapterEndAt(chapters, position).GetOr(duration) == ChapterEnds(chapters, position, duration)
  {
    if chapters != [] { ChapterEndIs(chapters[1..], position, duration); }
  }

  /** At the end of a tick, playback pauses and the timer is off exactly if the time set is over or the
      chapter is; otherwise nothing changes on the deck. */
  predicate Sleeps(s: State, t: State, reached: bool)
    requires s.deck.nowPlaying.Some?
  {
    var np := s.deck.nowPlaying.value;
    if reached then
      t.deck.nowPlaying == Some(np.(isPlaying := false, sleepTimer := Off))
      && (HoldsTrack(np) ==> |t.deck.commands| == |s.deck.commands| + 1 && t.deck.commands[|s.deck.commands|].PauseCommand?)
    else t.deck == s.deck
  }

  lemma MinutesAreOver(s: State, minutes: nat, env: Env, later: Env)
    requires s.deck.nowPlaying.Some?
    ensures var t := SleepInMinutes(s, minutes, env);
            t.ticking && t.deck.nowPlaying.Some? && Sleeps(t, EndTick(t, later), later.now >= env.now + minutes * 60 * 1000)
  {
    hide WriteProgressNow, WriteProgressAt, BookPosition;
  }

  lemma ChapterIsOver(s: State, env: Env, later: Env)
    requires s.deck.nowPlaying.Some? && s.deck.nowPlaying.value.tracks != []
    ensures var t, np := SleepAtEndOfChapter(s, env), s.deck.nowPlaying.value;
            var end := ChapterEnds(np.chapters, ReportedPosition(np, env.reading), np.duration);
            t.deck.nowPlaying.Some? && Sleeps(t, EndTick(t, later), ReportedPosition(np, later.readingAfter) >= end)
  {
    hide WriteProgressNow, WriteProgressAt, BookPosition, ChapterEndAt;
    var t, np := SleepAtEndOfChapter(s, env), s.deck.nowPlaying.value;
    PositionIsReported(s.deck, env.reading);
    PositionIsReported(t.deck, later.readingAfter);
    ChapterEndIs(np.chapters, BookPosition(s.deck, env.reading), np.duration);
    assert ReportedPosition(t.deck.nowPlaying.value, later.readingAfter) == ReportedPosition(np, later.readingAfter);
  }

  // ---------------------------------------------------------------- speeds

  /** The speeds there are, from 0.8 to 3. */
  function Usable(speed: real): real { if speed < 0.8 then 0.8 else if speed > 3.0 then 3.0 else speed }

  /** Another speed is the book's from now on. While it plays, or from a downloaded file, the backend is told
      at the position reported, and may refuse; while a stream is paused that waits until it plays. */
  lemma SpeedIsSet(s: State, speed: real, env: Env)
    requires s.deck.nowPlaying.Some? && (Usable(speed) - s.deck.nowPlaying.value.speed >= 0.001 || s.deck.nowPlaying.value.speed - Usable(speed) >= 0.001)
    ensures var t, np := SetSpeed(s, speed, env).deck, s.deck.nowPlaying.value;
            var told := HoldsTrack(np) && (np.isPlaying || np.sourceIsLocal);
            && t.nowPlaying.Some?
            && t.nowPlaying.value.speed == (if told && !env.speedAccepted then np.speed else Usable(speed))
            && t.commands == s.deck.commands + (if told then [SpeedCommand(Usable(speed), if np.seek.pending || env.reading.None? then np.seek.known else env.reading.value)] else [])
            && (HoldsTrack(np) && !told && np.speedUnapplied.None? ==> t.nowPlaying.value.speedUnapplied == Some(np.speed))
  {
    hide UsableSpeed, Abs, Usable;
    SpeedDiffers(speed, s.deck.nowPlaying.value.speed);
    assert s.deck.commands + [] == s.deck.commands;
  }

  lemma SpeedDiffers(speed: real, now: real)
    requires Usable(speed) - now >= 0.001 || now - Usable(speed) >= 0.001
    ensures UsableSpeed(speed) == Usable(speed) && !(Abs(now - UsableSpeed(speed)) < EPSILON)
  {
  }

  /** A speed that waits is told right before the backend is asked to play. */
  lemma WaitingSpeedIsTold(s: State, env: Env)
    requires s.deck.nowPlaying.Some? && s.deck.nowPlaying.value.speedUnapplied.Some?
    ensures var t, np := ApplyDeferredSpeed(s, env).deck, s.deck.nowPlaying.value;
            && t.nowPlaying == Some(np.(speedUnapplied := None, speed := if env.speedAccepted then np.speed else np.speedUnapplied.value))
            && t.commands == s.deck.commands + [SpeedCommand(np.speed, if np.seek.pending || env.reading.None? then np.seek.known else env.reading.value)]
  {
  }

  /** A start is made at a usable speed. */
  lemma StartIsAtUsableSpeed(s: State, book: Book, speed: real, chapter: Option<nat>, env: Env)
    requires !IsPending(s.deck, book)
    ensures var d := StartNew(s, book, speed, chapter, env).deck;
            StartTask(d.sessionGeneration, book, Usable(speed), Resolving) in d.tasks && d.sessionGeneration == s.deck.sessionGeneration + 1
  {
    hide WriteProgressNow;
  }

  // ---------------------------------------------------------------- where a start begins

  /** At the chapter asked for; otherwise where the book was left, unless it was finished, and a second before
      its end if it was left there; otherwise at the start. */
  function BeginsAt(chapterStart: Option<real>, saved: Option<(real, bool)>, duration: real): real {
    if chapterStart.Some? then (if chapterStart.value > 0.0 then chapterStart.value else 0.0)
    else if saved.None? || saved.value.1 || saved.value.0 <= 0.0 then 0.0
    else if duration <= 0.0 || saved.value.0 < duration then saved.value.0
    else if duration > 1.0 then duration - 1.0
    else 0.0
  }

  lemma StartsThere(chapterStart: Option<real>, saved: Option<(real, bool)>, duration: real)
    ensures StartPosition(chapterStart, saved, duration).GetOr(0.0) == BeginsAt(chapterStart, saved, duration)
  {
  }

  /** Once its file has come, a started book reports that position until the backend reads one; and while a
      seek there is awaited, whatever it reads. */
  lemma StartIsReported(s: State, task: Task, saved: Option<(real, bool)>, isLocal: bool, env: Env, reading: Option<real>)
    requires task.StartTask? && task.startStage.Placing? && PendingIs(s.deck, task.generation) && s.deck.pendingStart.value.intent.None?
    requires env.accepted && env.reading.Some?
    requires Contiguous(task.startStage.target.tracks, task.startStage.target.duration)
    requires var at := BeginsAt(task.startStage.chapterStart, saved, task.startStage.target.duration);
             task.startStage.target.duration > 0.0 ==> at <= task.startStage.target.duration
    ensures var d := LoadStart(s, task, saved, isLocal, env).deck;
            var at := BeginsAt(task.startStage.chapterStart, saved, task.startStage.target.duration);
            && d.nowPlaying.Some? && d.nowPlaying.value.book == task.book && d.nowPlaying.value.isPlaying == s.deck.pendingStart.value.wantsPlay
            && d.held == Some((task.book, d.nowPlaying.value.currentTrack))
            && (d.nowPlaying.value.seek.pending || reading.None? ==> -0.000001 <= ReportedPosition(d.nowPlaying.value, reading) - at <= 0.000001)
  {
    hide StartPosition, LocateTrack, SpeedChanged, FinishStart, Contiguous;
    var target := task.startStage.target;
    var at := BeginsAt(task.startStage.chapterStart, saved, target.duration);
    StartsThere(task.startStage.chapterStart, saved, target.duration);
    SomeFile(target.tracks, target.duration);
    var sought := StartPosition(task.startStage.chapterStart, saved, target.duration);
    var (track, within) := if sought.Some? then LocateTrack(target.tracks, sought.value) else (0, 0.0);
    StartReaches(target, at, sought, track, within);
    StartSettles(s, task, saved, isLocal, env, track, within, reading);
  }

  lemma StartSettles(s: State, task: Task, saved: Option<(real, bool)>, isLocal: bool, env: Env, track: nat, within: real, reading: Option<real>)
    requires task.StartTask? && task.startStage.Placing? && PendingIs(s.deck, task.generation) && s.deck.pendingStart.value.intent.None?
    requires env.accepted && env.reading.Some?
    requires var target := task.startStage.target;
             var at := StartPosition(task.startStage.chapterStart, saved, target.duration);
             && (track, within) == (if at.Some? then LocateTrack(target.tracks, at.value) else (0, 0.0))
             && track < |target.tracks| && within >= 0.0 && (target.tracks[track].duration > 0.0 ==> within <= target.tracks[track].duration)
    ensures var d := LoadStart(s, task, saved, isLocal, env).deck;
            && d.nowPlaying.Some? && d.nowPlaying.value.book == task.book && d.nowPlaying.value.isPlaying == s.deck.pendingStart.value.wantsPlay
            && d.nowPlaying.value.currentTrack == track && d.held == Some((task.book, track))
            && (d.nowPlaying.value.seek.pending || reading.None? ==>
                  ReportedPosition(d.nowPlaying.value, reading) == task.startStage.target.tracks[track].offset + within)
  {
    hide StartPosition, LocateTrack, SpeedChanged, FinishStart, ReportedPosition;
    var d := s.deck.(loadGeneration := s.deck.loadGeneration + 1);
    var prepared := StartPreroll(task.startStage.target, track, within, d.loadGeneration, isLocal, 0);
    var m := s.(deck := Commanded(Commanded(d, LoadAccepted(task.book, track)), PauseCommand(env.pauses)));
    var sped := m.(deck := Commanded(m.deck, SpeedCommand(task.speed, within)));
    var t := task.(startStage := prepared);
    assert LoadStart(s, task, saved, isLocal, env) == PollStart(m, t, env);
    assert PollStart(m, t, env) == SettleStart(m, t, env);
    StartLeaves(sped, t, prepared, if env.speedAccepted then task.speed else 1.0, env, reading);
    StartLeaves(if within > 0.0 then m.(deck := Commanded(m.deck, SeekCommand(within))) else m, t, prepared, 1.0, env, reading);
  }

  /** The file and the offset it starts at are that position. */
  lemma StartReaches(target: Target, at: real, sought: Option<real>, track: nat, within: real)
    requires Contiguous(target.tracks, target.duration) && sought.GetOr(0.0) == at >= 0.0 && (target.duration > 0.0 ==> at <= target.duration)
    requires (track, within) == if sought.Some? then LocateTrack(target.tracks, sought.value) else (0, 0.0)
    ensures track < |target.tracks| && within >= 0.0 && (target.tracks[track].duration > 0.0 ==> within <= target.tracks[track].duration)
    ensures -0.000001 <= target.tracks[track].offset + within - at <= 0.000001
  {
    if sought.Some? { LocateTrackReaches(target.tracks, target.duration, at); }
  }

  lemma StartLeaves(s: State, task: Task, prepared: StartStage, speed: real, env: Env, reading: Option<real>)
    requires task.StartTask? && prepared.StartPreroll? && s.deck.pendingStart.Some? && s.deck.pendingStart.value.intent.None?
    requires prepared.track < |prepared.target.tracks| && prepared.within >= 0.0
    requires prepared.target.tracks[prepared.track].duration > 0.0 ==> prepared.within <= prepared.target.tracks[prepared.track].duration
    ensures var d := FinishStart(s, task, prepared, true, speed, env).deck;
            && d.nowPlaying.Some? && d.nowPlaying.value.book == task.book && d.nowPlaying.value.isPlaying == s.deck.pendingStart.value.wantsPlay
            && d.nowPlaying.value.currentTrack == prepared.track && d.held == s.deck.held
            && (d.nowPlaying.value.seek.pending || reading.None? ==>
                  ReportedPosition(d.nowPlaying.value, reading) == prepared.target.tracks[prepared.track].offset + prepared.within)
  {
  }

  // ---------------------------------------------------------------- an error waiting on the bus

  /** What was kept stays kept; otherwise an error that was waiting is, and nothing else. */
  predicate KeepsError(before: Option<KeptEvent>, after: Option<KeptEvent>, waiting: bool) {
    if before.Some? then after == before
    else if waiting then after.Some? && after.value.event == StreamError
    else after.None?
  }

  /** Whatever asks the backend for another position drops an end-of-stream that is waiting, but not an
      error: a seek in the held file, the seek asked again, and a speed that is told. */
  lemma WaitingErrorIsKept(s: State, seconds: real, speed: real, env: Env)
    requires s.deck.nowPlaying.Some? && HoldsTrack(s.deck.nowPlaying.value)
    ensures var t := SeekTo(s, seconds, env);
            t.deck.nowPlaying.Some? && t.deck.nowPlaying.value.loadingTrack.None? ==> KeepsError(s.deferredEvent, t.deferredEvent, env.errorWaiting)
    ensures var t := ObservePosition(s, env);
            |t.deck.commands| > |s.deck.commands| && t.deck.commands[|s.deck.commands|].SeekCommand? ==> KeepsError(s.deferredEvent, t.deferredEvent, env.errorWaiting)
    ensures var t := SetSpeed(s, speed, env); t.deck.commands != s.deck.commands ==> KeepsError(s.deferredEvent, t.deferredEvent, env.errorWaiting)
    ensures var t := ApplyDeferredSpeed(s, env); t.deck.commands != s.deck.commands ==> KeepsError(s.deferredEvent, t.deferredEvent, env.errorWaiting)
  {
    hide KeepsError;
    SeekKeepsError(s, seconds, env);
    AskingAgainKeepsError(s, env);
    SpeedKeepsError(s, speed, env);
  }

  lemma SeekKeepsError(s: State, seconds: real, env: Env)
    requires s.deck.nowPlaying.Some? && HoldsTrack(s.deck.nowPlaying.value)
    ensures var t := SeekTo(s, seconds, env);
            t.deck.nowPlaying.Some? && t.deck.nowPlaying.value.loadingTrack.None? ==> KeepsError(s.deferredEvent, t.deferredEvent, env.errorWaiting)
  {
    hide LocateTrack, ClampToBook, ChapterEndAt, SeekDeck;
    var before := s.deck.nowPlaying.value;
    var np := Retargeted(before, ClampToBook(seconds, before.duration));
    var (track, within) := LocateTrack(np.tracks, ClampToBook(seconds, before.duration));
    if track != np.currentTrack { OtherFileLoads(s.deck, np, track, within, env.now); }
  }

  lemma OtherFileLoads(d: Deck, np: NowPlaying, track: nat, within: real, now: Time)
    requires track != np.currentTrack
    ensures var e := SeekDeck(d, np, track, within, now).nowPlaying; e.Some? && e.value.loadingTrack.Some?
  {
  }

  lemma AskingAgainKeepsError(s: State, env: Env)
    ensures var t := ObservePosition(s, env);
            |t.deck.commands| > |s.deck.commands| && t.deck.commands[|s.deck.commands|].SeekCommand? ==> KeepsError(s.deferredEvent, t.deferredEvent, env.errorWaiting)
  {
    hide ObserveSeek;
  }

  lemma SpeedKeepsError(s: State, speed: real, env: Env)
    ensures var t := SetSpeed(s, speed, env); t.deck.commands != s.deck.commands ==> KeepsError(s.deferredEvent, t.deferredEvent, env.errorWaiting)
    ensures var t := ApplyDeferredSpeed(s, env); t.deck.commands != s.deck.commands ==> KeepsError(s.deferredEvent, t.deferredEvent, env.errorWaiting)
  {
    hide UsableSpeed, Abs, Within;
  }

  /** The next tick takes up the error that was kept, whatever else is on the bus: a downloaded file stops with
      it, and a stream is recovered. */
  lemma KeptErrorIsHandled(s: State, env: Env)
    requires s.deck.nowPlaying.Some? && s.deferredEvent.Some? && s.deferredEvent.value.event == StreamError
    requires env.observed.None? || s.deck.nowPlaying.value.loadingTrack.Some?
    ensures var t, np := Tick(s, env).deck, s.deck.nowPlaying.value;
            && t.nowPlaying.Some? && t.nowPlaying.value.needsReload && Tick(s, env).deferredEvent.None?
            && (np.sourceIsLocal ==> !t.nowPlaying.value.isPlaying && t.nowPlaying.value.hasError)
            && (!np.sourceIsLocal ==> Recovery(np.book, np.currentTrack, t.nowPlaying.value.seek.known, t.loadGeneration) in t.tasks)
  {
    hide EndTick, HandleStreamError;
    var m := s.(deferredEvent := None);
    ErrorReleases(m, s.deck.nowPlaying.value, env);
    EndsQuietly(HandleStreamError(m, s.deck.nowPlaying.value, env), env);
  }

  lemma ErrorReleases(s: State, np: NowPlaying, env: Env)
    ensures var t := HandleStreamError(s, np, env);
            && t.deck.nowPlaying.Some? && t.deck.nowPlaying.value.needsReload && t.deferredEvent == s.deferredEvent
            && (np.sourceIsLocal ==> !t.deck.nowPlaying.value.isPlaying && t.deck.nowPlaying.value.hasError)
            && (!np.sourceIsLocal ==> Recovery(np.book, np.currentTrack, t.deck.nowPlaying.value.seek.known, t.deck.loadGeneration) in t.deck.tasks)
  {
    hide WriteProgress, WithinTrack;
  }

  lemma EndsQuietly(s: State, env: Env)
    requires s.deck.nowPlaying.Some?
    ensures var t := EndTick(s, env);
            && t.deferredEvent == s.deferredEvent && t.deck.tasks == s.deck.tasks && t.deck.loadGeneration == s.deck.loadGeneration
            && t.deck.nowPlaying.Some? && t.deck.nowPlaying.value.needsReload == s.deck.nowPlaying.value.needsReload
            && t.deck.nowPlaying.value.hasError == s.deck.nowPlaying.value.hasError && t.deck.nowPlaying.value.seek == s.deck.nowPlaying.value.seek
            && (t.deck.nowPlaying.value.isPlaying ==> s.deck.nowPlaying.value.isPlaying)
  {
    hide WriteProgressNow, WriteProgressAt, BookPosition;
  }
}
