/** The progress that is asked to be written. Every value of a book that is not finished is the
    position reported at that moment, unless the book is restarted or reset; and each operation that
    is to save progress asks for exactly one value. */
module PlayerWrites {
  import opened Prelude
  import opened PlayerTypes
  import opened PlayerSpec
  import opened PlayerPositions

  /** The value of the book `np`: where it is, or its end once it is finished. */
  function Asked(np: NowPlaying, reading: Option<real>, force: bool): WriteAsk {
    WriteAsk(np.book, if np.ended then np.duration else ReportedPosition(np, reading), np.ended, force, np.duration, np.ended)
  }

  /** A book without files has no progress. */
  function AskedOf(d: Deck, reading: Option<real>, force: bool): seq<WriteAsk> {
    if d.nowPlaying.None? || d.nowPlaying.value.tracks == [] then [] else [Asked(d.nowPlaying.value, reading, force)]
  }

  /** What the operations that save progress ask for, unless writes are being held back. */
  function Saved(s: State, d: Deck, reading: Option<real>): seq<WriteAsk> {
    if s.saving.holdingWrites.Some? then [] else AskedOf(d, reading, true)
  }

  // ---------------------------------------------------------------- one value each

  lemma WriteAsks(v: Saving, d: Deck, reading: Option<real>, now: Time)
    ensures WriteProgressNow(v, d, reading, now).writes == v.writes + AskedOf(d, reading, true)
    ensures WriteProgress(v, d, reading, now).writes == v.writes + if v.holdingWrites.Some? then [] else AskedOf(d, reading, true)
  {
    hide BookPosition, ReportedPosition;
    if d.nowPlaying.Some? { PositionIsReported(d, reading); }
    assert v.writes + [] == v.writes;
  }

  /** A pause saves the position it stopped at. */
  lemma PauseAsks(s: State, env: Env)
    ensures var t := Pause(s, env);
            t.saving.writes == s.saving.writes + if s.deck.pendingStart.Some? then [] else Saved(s, t.deck, env.readingAfter)
  {
    hide PauseBackend, WriteProgress, AskedOf;
    WriteAsks(s.saving, PauseBackend(s.deck, env.accepted), env.readingAfter, env.now);
    assert s.saving.writes + [] == s.saving.writes;
  }

  /** Another book is started: the position of the one before is saved, held back or not. */
  lemma SwitchAsks(s: State, book: Book, speed: real, chapter: Option<nat>, env: Env)
    ensures StartNew(s, book, speed, chapter, env).saving.writes ==
            s.saving.writes + if IsPending(s.deck, book) then [] else AskedOf(s.deck, env.reading, true)
  {
    hide WriteProgressNow, AskedOf;
    WriteAsks(s.saving, s.deck, env.reading, env.now);
    assert s.saving.writes + [] == s.saving.writes;
  }

  lemma RetireAsks(s: State, env: Env)
    ensures Retire(s, env).saving.writes == s.saving.writes + AskedOf(s.deck, env.reading, true)
  {
    hide WriteProgressNow, AskedOf;
    WriteAsks(s.saving, s.deck, env.reading, env.now);
  }

  lemma SaveAsks(s: State, env: Env)
    ensures SaveProgressNow(s, env).saving.writes == s.saving.writes + Saved(s, s.deck, env.reading)
    ensures SaveProgressNow(s, env).deck == s.deck
  {
    hide WriteProgress, AskedOf;
    WriteAsks(s.saving, s.deck, env.reading, env.now);
  }

  /** A sleep timer that is reached saves the position it paused at, held back or not. */
  lemma SleepAsks(s: State, env: Env)
    requires s.deck.nowPlaying.Some?
    ensures var t := SleepNow(s, env); t.saving.writes == s.saving.writes + AskedOf(t.deck, env.readingAfter, true)
  {
    hide WriteProgressNow, AskedOf;
    WriteAsks(s.saving, SleepNow(s, env).deck, env.readingAfter, env.now);
  }

  /** An unclear end and a stream error save the position playback stopped at. */
  lemma StopAsks(s: State, np: NowPlaying, within: real, env: Env)
    ensures var t := StopUnclear(s, np, within, env); t.saving.writes == s.saving.writes + Saved(s, t.deck, env.readingAfter)
    ensures var t := HandleStreamError(s, np, env); t.saving.writes == s.saving.writes + Saved(s, t.deck, env.readingAfter)
  {
    hide WriteProgress, WithinTrack;
    WriteAsks(s.saving, StopUnclear(s, np, within, env).deck, env.readingAfter, env.now);
    var within := Max(WithinTrack(np, env.reading), 0.0);
    var stopped := np.(needsReload := true, seek := np.seek.(known := within),
                       isPlaying := np.isPlaying && !np.sourceIsLocal, hasError := np.hasError || np.sourceIsLocal);
    WriteAsks(s.saving, Released(s.deck, stopped), env.readingAfter, env.now);
  }

  lemma FinishAsks(s: State, env: Env)
    requires s.deck.nowPlaying.Some?
    ensures var t := FinishBook(s, env); t.saving.writes == s.saving.writes + AskedOf(t.deck, env.readingAfter, true)
  {
    hide WriteProgressNow;
    WriteAsks(s.saving, EndBook(s.deck, env.pauses), env.readingAfter, env.now);
  }

  /** While a book plays and no write is held back, its position is saved when five seconds have passed
      since the last one. */
  lemma HeartbeatAsks(s: State, env: Env)
    requires s.deck.nowPlaying.Some? ==> s.deck.nowPlaying.value.isPlaying ==> !s.deck.nowPlaying.value.ended
    ensures var t := KeepTicking(s, env);
            && t.deck == s.deck
            && t.saving.lastProgressWrite == (if |t.saving.writes| > |s.saving.writes| then env.now else s.saving.lastProgressWrite)
            && var due := s.deck.nowPlaying.Some? && s.deck.nowPlaying.value.isPlaying && s.saving.holdingWrites.None? && env.now >= s.saving.lastProgressWrite + 5000;
               t.saving.writes == s.saving.writes + if due then AskedOf(s.deck, env.readingAfter, false) else []
  {
    hide BookPosition, ReportedPosition;
    if s.deck.nowPlaying.Some? { PositionIsReported(s.deck, env.readingAfter); }
    assert s.saving.writes + [] == s.saving.writes;
  }

  /** A finished book that is played again is saved at its start. */
  function RestartAsked(np: NowPlaying): WriteAsk { WriteAsk(np.book, 0.0, false, true, np.duration, false) }

  lemma PlayAsks(s: State, env: Env)
    ensures Play(s, env).saving.writes == s.saving.writes +
            if s.deck.pendingStart.Some? || s.deck.nowPlaying.None? then []
            else if s.deck.nowPlaying.value.retryRequest.Some? then AskedOf(s.deck, env.reading, true)
            else if s.deck.nowPlaying.value.ended && s.deck.nowPlaying.value.tracks != [] then [RestartAsked(s.deck.nowPlaying.value)]
            else []
  {
    hide StartNew, Resume, AskedOf, LoadTrackAt;
    var t := s.(marks := ClearMarks(s.marks, PlayAsked));
    if s.deck.nowPlaying.Some? && s.deck.nowPlaying.value.retryRequest.Some? {
      SwitchAsks(t, s.deck.nowPlaying.value.book, s.deck.nowPlaying.value.retryRequest.value, None, env);
    } else if s.deck.nowPlaying.Some? && s.deck.nowPlaying.value.ended && s.deck.nowPlaying.value.tracks != [] {
      RestartAsks(t, env);
    }
    ResumeAsksNothing(t, env);
    assert s.saving.writes + [] == s.saving.writes;
  }

  lemma RestartAsks(s: State, env: Env)
    requires s.deck.nowPlaying.Some? && s.deck.nowPlaying.value.tracks != []
    ensures RestartFinished(s, env).saving.writes == s.saving.writes + [RestartAsked(s.deck.nowPlaying.value)]
  {
  }

  lemma ResumeAsksNothing(s: State, env: Env)
    ensures Resume(s, env).saving.writes == s.saving.writes
  {
    hide ReconcileBeforeResuming, PrepareToResume, ResumeBackend;
    PreparingAsksNothing(s, env);
    PlayingAsksNothing(PrepareToResume(ReconcileBeforeResuming(s, env), env), env);
  }

  lemma PreparingAsksNothing(s: State, env: Env)
    ensures PrepareToResume(ReconcileBeforeResuming(s, env), env).saving.writes == s.saving.writes
  {
    hide BookPosition, Within, Released;
  }

  lemma PlayingAsksNothing(s: State, env: Env)
    ensures s.deck.nowPlaying.Some? ==> ResumeBackend(s, env).saving == s.saving
  {
    hide Within, LoadTrackAt, Released, Commanded;
  }

  lemma SeekAsksNothing(s: State, seconds: real, env: Env)
    ensures SeekTo(s, seconds, env).saving.writes == s.saving.writes
    ensures var d := SeekTo(s, seconds, env).deck;
            && d.pendingStart == s.deck.pendingStart && d.nowPlaying.Some? == s.deck.nowPlaying.Some?
            && (d.nowPlaying.Some? ==>
                  && d.nowPlaying.value.book == s.deck.nowPlaying.value.book && d.nowPlaying.value.tracks == s.deck.nowPlaying.value.tracks
                  && d.nowPlaying.value.retryRequest == s.deck.nowPlaying.value.retryRequest
                  && (s.deck.nowPlaying.value.tracks != [] ==> !d.nowPlaying.value.ended))
  {
    hide LocateTrack, ClampToBook, ChapterEndAt, SeekDeck;
    if s.deck.nowPlaying.Some? {
      var before := s.deck.nowPlaying.value;
      var np := Retargeted(before, ClampToBook(seconds, before.duration));
      var (track, within) := LocateTrack(np.tracks, ClampToBook(seconds, before.duration));
      SoughtBook(s.deck, np, track, within, env.now);
    }
  }

  // ---------------------------------------------------------------- every step

  /** A value of the book `np`, where it was reported to be. */
  ghost predicate CarriedBy(w: WriteAsk, np: Option<NowPlaying>, reading: Option<real>) {
    np.Some? && w.book == np.value.book && w.duration == np.value.duration && w.position == ReportedPosition(np.value, reading)
  }

  /** A finished value, a reset, or the position reported before the step or after it. */
  ghost predicate Explained(w: WriteAsk, before: Option<NowPlaying>, after: Option<NowPlaying>, env: Env, restarts: bool) {
    w.finished || (restarts && w.position == 0.0)
    || CarriedBy(w, before, env.reading) || CarriedBy(w, after, env.reading) || CarriedBy(w, after, env.readingAfter)
  }

  /** Values are only added, and each one added is explained. */
  ghost predicate Follows(s: State, t: State, env: Env, restarts: bool) {
    s.saving.writes <= t.saving.writes
    && forall i | |s.saving.writes| <= i < |t.saving.writes| ::
         Explained(t.saving.writes[i], s.deck.nowPlaying, t.deck.nowPlaying, env, restarts)
  }

  /** The listener starts the book over: by a reset, now or while it was starting, or by playing it when it
      is finished. */
  predicate Restarts(s: State, event: Event) {
    match event
    case DoReset => true
    case DoStart(_, _, _) => Ended(s.deck)
    case DoPlay => Ended(s.deck)
    case DoToggle => Ended(s.deck)
    case DoExternalToggle => Ended(s.deck)
    case DoCallEnd(_, _) => Ended(s.deck)
    case DoResume(task, _) => (task.ReplugTimer? && Ended(s.deck)) || (task.StartTask? && StartResets(s.deck))
    case _ => false
  }

  predicate Ended(d: Deck) { d.nowPlaying.Some? && d.nowPlaying.value.ended }

  predicate StartResets(d: Deck) { d.pendingStart.Some? && d.pendingStart.value.intent == Some(ResetProgress) }

  lemma NothingFollows(s: State, t: State, env: Env, restarts: bool)
    requires t.saving.writes == s.saving.writes
    ensures Follows(s, t, env, restarts)
  {
  }

  lemma AskedFollows(s: State, t: State, d: Deck, reading: Option<real>, force: bool, env: Env, restarts: bool)
    requires t.saving.writes == s.saving.writes + AskedOf(d, reading, force)
    requires (d.nowPlaying == s.deck.nowPlaying && reading == env.reading) || (d.nowPlaying == t.deck.nowPlaying && reading in {env.reading, env.readingAfter})
    ensures Follows(s, t, env, restarts)
  {
    hide ReportedPosition;
  }

  lemma OneFollows(s: State, t: State, w: WriteAsk, env: Env, restarts: bool)
    requires t.saving.writes == s.saving.writes + [w] && (w.finished || (restarts && w.position == 0.0))
    ensures Follows(s, t, env, restarts)
  {
    hide ReportedPosition;
  }

  lemma PlayFollows(s: State, env: Env)
    ensures Follows(s, Play(s, env), env, Ended(s.deck))
  {
    hide Play, Follows, AskedOf;
    PlayAsks(s, env);
    var t := Play(s, env);
    if s.deck.pendingStart.None? && s.deck.nowPlaying.Some? && s.deck.nowPlaying.value.retryRequest.Some? {
      AskedFollows(s, t, s.deck, env.reading, true, env, Ended(s.deck));
    } else if s.deck.pendingStart.None? && s.deck.nowPlaying.Some? && s.deck.nowPlaying.value.ended && s.deck.nowPlaying.value.tracks != [] {
      OneFollows(s, t, RestartAsked(s.deck.nowPlaying.value), env, true);
    } else {
      assert s.saving.writes + [] == s.saving.writes;
      NothingFollows(s, t, env, Ended(s.deck));
    }
  }

  lemma SavedFollows(s: State, t: State, d: Deck, reading: Option<real>, env: Env)
    requires t.saving.writes == s.saving.writes + Saved(s, d, reading)
    requires (d.nowPlaying == s.deck.nowPlaying && reading == env.reading) || (d.nowPlaying == t.deck.nowPlaying && reading in {env.reading, env.readingAfter})
    ensures Follows(s, t, env, false)
  {
    hide Follows, AskedOf;
    if s.saving.holdingWrites.Some? {
      assert s.saving.writes + [] == s.saving.writes;
      NothingFollows(s, t, env, false);
    } else {
      AskedFollows(s, t, d, reading, true, env, false);
    }
  }

  lemma PauseFollows(s: State, env: Env)
    ensures Follows(s, Pause(s, env), env, false)
  {
    hide Pause, Follows, Saved;
    PauseAsks(s, env);
    if s.deck.pendingStart.Some? {
      assert s.saving.writes + [] == s.saving.writes;
      NothingFollows(s, Pause(s, env), env, false);
    } else {
      SavedFollows(s, Pause(s, env), Pause(s, env).deck, env.readingAfter, env);
    }
  }

  lemma StartWithFollows(s: State, book: Book, speed: real, chapter: Option<nat>, env: Env)
    ensures Follows(s, StartWith(s, book, speed, chapter, env), env, Ended(s.deck))
  {
    hide StartNew, SeekTo, Play, Follows, AskedOf;
    var t := StartWith(s, book, speed, chapter, env);
    if !IsLoaded(s.deck, book) {
      SwitchAsks(s, book, speed, chapter, env);
      if IsPending(s.deck, book) {
        assert s.saving.writes + [] == s.saving.writes;
        NothingFollows(s, t, env, Ended(s.deck));
      } else {
        AskedFollows(s, t, s.deck, env.reading, true, env, Ended(s.deck));
      }
    } else {
      var chapters := s.deck.nowPlaying.value.chapters;
      if chapter.Some? && chapter.value < |chapters| {
        var at := Max(chapters[chapter.value].start, 0.0);
        SeekAsksNothing(s, at, env);
        PlayAsks(SeekTo(s, at, env), env);
        assert s.saving.writes + [] == s.saving.writes;
        NothingFollows(s, t, env, Ended(s.deck));
      } else {
        PlayFollows(s, env);
      }
    }
  }

  lemma MarkFollows(s: State, env: Env)
    ensures Follows(s, MarkAsFinished(s, env), env, false)
  {
    hide Follows;
    var t := MarkAsFinished(s, env);
    if s.deck.pendingStart.None? && s.deck.nowPlaying.Some? && s.deck.nowPlaying.value.tracks != [] {
      OneFollows(s, t, WriteAsk(s.deck.nowPlaying.value.book, s.deck.nowPlaying.value.duration, true, true, s.deck.nowPlaying.value.duration, true), env, false);
    } else {
      NothingFollows(s, t, env, false);
    }
  }

  lemma ResetFollows(s: State, env: Env)
    ensures Follows(s, ResetBookProgress(s, env), env, true)
  {
    hide Follows, SeekTo;
    var t := ResetBookProgress(s, env);
    SeekAsksNothing(s, 0.0, env);
    if s.deck.pendingStart.None? && SeekTo(s, 0.0, env).deck.nowPlaying.Some? && SeekTo(s, 0.0, env).deck.nowPlaying.value.tracks != [] {
      var np := SeekTo(s, 0.0, env).deck.nowPlaying.value;
      OneFollows(s, t, WriteAsk(np.book, 0.0, false, true, np.duration, np.ended), env, true);
    } else {
      NothingFollows(s, t, env, true);
    }
  }

  // ---------------------------------------------------------------- the tick

  /** Nothing that a position depends on. */
  predicate SamePlace(a: Option<NowPlaying>, b: Option<NowPlaying>) {
    a.Some? == b.Some? && (a.Some? ==> a.value.(isPlaying := false, sleepTimer := Off) == b.value.(isPlaying := false, sleepTimer := Off))
  }

  /** Every value added is finished, or the position reported afterwards. */
  ghost predicate EndsAt(s: State, t: State, env: Env) {
    s.saving.writes <= t.saving.writes
    && forall i | |s.saving.writes| <= i < |t.saving.writes| ::
         t.saving.writes[i].finished || CarriedBy(t.saving.writes[i], t.deck.nowPlaying, env.readingAfter)
  }

  lemma EndsOn(s: State, m: State, t: State, env: Env)
    requires EndsAt(s, m, env) && EndsAt(m, t, env) && SamePlace(m.deck.nowPlaying, t.deck.nowPlaying)
    ensures EndsAt(s, t, env)
  {
    hide ReportedPosition;
    if m.deck.nowPlaying.Some? { PlacedAlike(m.deck.nowPlaying.value, t.deck.nowPlaying.value, env.readingAfter); }
    forall i | |s.saving.writes| <= i < |t.saving.writes|
      ensures t.saving.writes[i].finished || CarriedBy(t.saving.writes[i], t.deck.nowPlaying, env.readingAfter)
    {
      if i < |m.saving.writes| { assert t.saving.writes[i] == m.saving.writes[i]; }
    }
  }

  lemma PlacedAlike(a: NowPlaying, b: NowPlaying, reading: Option<real>)
    requires SamePlace(Some(a), Some(b))
    ensures ReportedPosition(a, reading) == ReportedPosition(b, reading) && a.book == b.book && a.duration == b.duration
  {
    assert a.(isPlaying := false, sleepTimer := Off).seek == a.seek && a.(isPlaying := false, sleepTimer := Off).tracks == a.tracks
      && a.(isPlaying := false, sleepTimer := Off).currentTrack == a.currentTrack && a.(isPlaying := false, sleepTimer := Off).book == a.book
      && a.(isPlaying := false, sleepTimer := Off).duration == a.duration;
  }

  lemma AskedEnds(s: State, t: State, force: bool, env: Env)
    requires t.saving.writes == s.saving.writes + AskedOf(t.deck, env.readingAfter, force) || t.saving.writes == s.saving.writes
    ensures EndsAt(s, t, env)
  {
    hide ReportedPosition;
  }

  lemma EndTickEnds(s: State, env: Env)
    ensures EndsAt(s, EndTick(s, env), env) && SamePlace(s.deck.nowPlaying, EndTick(s, env).deck.nowPlaying)
  {
    hide SleepNow, KeepTicking, BookPosition, EndsAt, SamePlace;
    if SleepTimerReached(s.deck, env) {
      SleepAsks(s, env);
      AskedEnds(s, SleepNow(s, env), true, env);
      SleepStays(s, env);
    } else {
      AskedEnds(s, s, true, env);
    }
    var m := if SleepTimerReached(s.deck, env) then SleepNow(s, env) else s;
    KeepTickingEnds(m, env);
    SameStays(s.deck.nowPlaying, m.deck.nowPlaying);
    EndsOn(s, m, KeepTicking(m, env), env);
  }

  lemma SameStays(a: Option<NowPlaying>, b: Option<NowPlaying>)
    ensures SamePlace(a, a) && SamePlace(b, b)
  {
  }

  lemma SleepStays(s: State, env: Env)
    requires s.deck.nowPlaying.Some?
    ensures SamePlace(s.deck.nowPlaying, SleepNow(s, env).deck.nowPlaying)
  {
    hide WriteProgressNow;
  }

  lemma KeepTickingEnds(s: State, env: Env)
    ensures EndsAt(s, KeepTicking(s, env), env) && KeepTicking(s, env).deck == s.deck
  {
    hide BookPosition, ReportedPosition;
    if s.deck.nowPlaying.Some? { PositionIsReported(s.deck, env.readingAfter); }
  }

  lemma StopEnds(s: State, np: NowPlaying, within: real, env: Env)
    ensures EndsAt(s, StopUnclear(s, np, within, env), env) && EndsAt(s, HandleStreamError(s, np, env), env)
  {
    hide StopUnclear, HandleStreamError, EndsAt, AskedOf;
    StopAsks(s, np, within, env);
    assert s.saving.writes + [] == s.saving.writes;
    AskedEnds(s, StopUnclear(s, np, within, env), true, env);
    AskedEnds(s, HandleStreamError(s, np, env), true, env);
  }

  lemma ObserveAsksNothing(s: State, env: Env)
    ensures ObservePosition(s, env).saving == s.saving
  {
    hide ObserveSeek, LoadTrackAt, Released;
  }

  lemma ErrorEnds(s: State, np: NowPlaying, env: Env)
    ensures EndsAt(s, EndTick(HandleStreamError(s, np, env), env), env)
  {
    hide HandleStreamError, EndTick, EndsAt, SamePlace;
    StopEnds(s, np, 0.0, env);
    EndTickEnds(HandleStreamError(s, np, env), env);
    EndsOn(s, HandleStreamError(s, np, env), EndTick(HandleStreamError(s, np, env), env), env);
  }

  lemma FinishEnds(s: State, env: Env)
    requires s.deck.nowPlaying.Some?
    ensures EndsAt(s, EndTick(FinishBook(s, env), env), env)
  {
    hide FinishBook, EndTick, EndsAt, SamePlace, AskedOf;
    FinishAsks(s, env);
    AskedEnds(s, FinishBook(s, env), true, env);
    EndTickEnds(FinishBook(s, env), env);
    EndsOn(s, FinishBook(s, env), EndTick(FinishBook(s, env), env), env);
  }

  lemma HandleEndOfStreamEnds(s: State, env: Env)
    requires s.deck.nowPlaying.Some?
    ensures EndsAt(s, HandleEndOfStream(s, env), env)
  {
    hide JudgeEndOfStream, StopUnclear, HandleStreamError, EndTick, FinishBook, LoadTrackAt, EndsAt;
    var Judgement(np, verdict) := JudgeEndOfStream(s.deck.nowPlaying.value, env.reading, env.fileLength);
    match verdict
    case Unclear(within) => StopEnds(s, np, within, env);
    case Premature => ErrorEnds(s, np, env);
    case RealEnd =>
      if np.currentTrack + 1 < |np.tracks| {
        AskedEnds(s, HandleEndOfStream(s, env), true, env);
      } else {
        var t := s.(deck := WithBook(s.deck, np));
        FinishEnds(t, env);
        SameWrites(s, t, EndTick(FinishBook(t, env), env), env);
      }
  }

  lemma SameWrites(s: State, m: State, t: State, env: Env)
    requires s.saving == m.saving && EndsAt(m, t, env)
    ensures EndsAt(s, t, env)
  {
    hide CarriedBy;
  }

  lemma TickEnds(s: State, env: Env)
    ensures EndsAt(s, Tick(s, env), env)
  {
    hide ObservePosition, HandleStreamError, HandleEndOfStream, EndTick, EndsAt;
    if s.deck.nowPlaying.None? {
      AskedEnds(s, Tick(s, env), true, env);
    } else {
      ObserveAsksNothing(s, env);
      var o := ObservePosition(s, env);
      var m, event := o.(deferredEvent := None), NextEvent(o.deferredEvent, env.polled);
      if m.deck.nowPlaying.None? || event.None? {
        EndTickEnds(m, env);
      } else if event.value.StreamError? {
        ErrorEnds(m, m.deck.nowPlaying.value, env);
      } else {
        HandleEndOfStreamEnds(m, env);
      }
      SameWrites(s, m, Tick(s, env), env);
    }
  }

  lemma TickFollows(s: State, env: Env)
    ensures Follows(s, Tick(s, env), env, false)
  {
    hide Tick, CarriedBy;
    TickEnds(s, env);
  }

  // ---------------------------------------------------------------- resumed tasks

  /** A start saves nothing but what was asked for the book meanwhile: a reset or a finished mark. */
  ghost predicate StartsWith(s: State, t: State, restarts: bool) {
    s.saving.writes <= t.saving.writes
    && forall i | |s.saving.writes| <= i < |t.saving.writes| :: t.saving.writes[i].finished || (restarts && t.saving.writes[i].position == 0.0)
  }

  lemma FinishStartWrites(s: State, task: Task, prepared: StartStage, loaded: bool, speed: real, env: Env)
    requires task.StartTask? && prepared.StartPreroll? && s.deck.pendingStart.Some?
    ensures StartsWith(s, FinishStart(s, task, prepared, loaded, speed, env), StartResets(s.deck))
  {
    hide SeekTo, StartedBook;
    var np := StartedBook(task.book, prepared, loaded, s.deck.pendingStart.value.wantsPlay, speed, env.now);
    var d := if np.isPlaying then Commanded(s.deck, PlayCommand(env.plays)) else s.deck;
    var r := s.(deck := d.(pendingStart := None, nowPlaying := Some(np)),
                saving := s.saving.(lastProgressWrite := env.now, lastPlayedAt := env.now),
                ticking := s.ticking || np.isPlaying);
    SeekAsksNothing(r, 0.0, env);
  }

  lemma PollStartWrites(s: State, task: Task, env: Env)
    requires task.StartTask? && task.startStage.StartPreroll?
    ensures StartsWith(s, PollStart(s, task, env), StartResets(s.deck))
  {
    hide FinishStart;
    if PendingIs(s.deck, task.generation) {
      var stage := task.startStage;
      var sped := s.(deck := Commanded(s.deck, SpeedCommand(task.speed, stage.within)));
      FinishStartWrites(sped, task, stage, true, if env.speedAccepted then task.speed else 1.0, env);
      FinishStartWrites(if stage.within > 0.0 then s.(deck := Commanded(s.deck, SeekCommand(stage.within))) else s, task, stage, true, 1.0, env);
    }
  }

  lemma ResumeStartWrites(s: State, task: Task, outcome: Outcome, env: Env)
    requires task.StartTask?
    ensures StartsWith(s, ResumeStart(s, task, outcome, env), StartResets(s.deck))
  {
    hide FinishStart, PollStart, StartPosition, LocateTrack;
    if task.startStage.StartPreroll? {
      PollStartWrites(s, task, env);
    } else if PendingIs(s.deck, task.generation) && task.startStage.Placing? && outcome.Placed? {
      var target := task.startStage.target;
      var at := StartPosition(task.startStage.chapterStart, outcome.saved, target.duration);
      var (track, within) := if at.Some? then LocateTrack(target.tracks, at.value) else (0, 0.0);
      var d := s.deck.(loadGeneration := s.deck.loadGeneration + 1);
      var prepared := StartPreroll(target, track, within, d.loadGeneration, outcome.startIsLocal, 0);
      PollStartWrites(s.(deck := Commanded(Commanded(d, LoadAccepted(task.book, track)), PauseCommand(env.pauses))), task.(startStage := prepared), env);
      FinishStartWrites(s.(deck := ResetBackend(Commanded(d, LoadRefused(task.book, track)))), task, prepared, false, 1.0, env);
    }
  }

  lemma StartFollows(s: State, task: Task, outcome: Outcome, env: Env)
    requires task.StartTask?
    ensures Follows(s, ResumeStart(s, task, outcome, env), env, StartResets(s.deck))
  {
    hide ResumeStart, CarriedBy;
    ResumeStartWrites(s, task, outcome, env);
  }

  lemma ReconcileFollows(s: State, task: Task, outcome: Outcome, env: Env)
    requires task.Reconcile?
    ensures Follows(s, ResumeReconcile(s, task, outcome, env), env, false)
  {
    hide SeekTo, SaveProgressNow, Follows, Saved;
    var t := if s.saving.holdingWrites == Some(task.session) then s.(saving := s.saving.(holdingWrites := None)) else s;
    var r := ResumeReconcile(s, task, outcome, env);
    if outcome.Reconciled? && outcome.after.Some? { SeekAsksNothing(t, outcome.after.value.0, env); }
    SaveAsks(t, env);
    if r.saving.writes == s.saving.writes {
      NothingFollows(s, r, env, false);
    } else {
      SavedFollows(t, r, r.deck, env.reading, env);
      SameFollows(s, t, r, env);
    }
  }

  lemma SameFollows(s: State, m: State, t: State, env: Env)
    requires m.saving.writes == s.saving.writes && m.deck == s.deck && Follows(m, t, env, false)
    ensures Follows(s, t, env, false)
  {
    hide CarriedBy;
  }

  lemma SaveFollows(s: State, env: Env)
    ensures Follows(s, SaveProgressNow(s, env), env, false)
  {
    hide SaveProgressNow, Follows, Saved;
    SaveAsks(s, env);
    SavedFollows(s, SaveProgressNow(s, env), s.deck, env.reading, env);
  }

  lemma ContinueFollows(s: State, task: Task, outcome: Outcome, env: Env)
    ensures Follows(s, Continue(s, task, outcome, env), env, Restarts(s, DoResume(task, outcome)))
  {
    hide Follows, ResumeStart, ResumeLoad, ResumePauseConfirmation, ResumeLocalFileCheck, ResumeReconcile, Play, SaveProgressNow, LoadTrackAt;
    var t := Continue(s, task, outcome, env);
    match task
    case StartTask(_, _, _, _) => StartFollows(s, task, outcome, env);
    case Reconcile(_, _, _, _) => ReconcileFollows(s, task, outcome, env);
    case ReplugTimer(_) =>
      var m := s.(marks := s.marks.(pausedByUnplug := false, log := s.marks.log + [ReplugResumed]));
      PlayFollows(m, env);
      if ReplugResumes(s, task) { SameDeckFollows(s, m, t, env, Ended(s.deck)); } else { NothingFollows(s, t, env, Ended(s.deck)); }
    case PausedSeekTimer(_) =>
      SaveFollows(s, env);
      if t == s { NothingFollows(s, t, env, false); }
    case PendingSync(_, _) =>
      SaveFollows(s, env);
      if t.saving == s.saving { NothingFollows(s, t, env, false); }
    case _ => NothingFollows(s, t, env, false);
  }

  lemma SameDeckFollows(s: State, m: State, t: State, env: Env, restarts: bool)
    requires m.saving == s.saving && m.deck.nowPlaying == s.deck.nowPlaying && Follows(m, t, env, restarts)
    ensures Follows(s, t, env, restarts)
  {
    hide CarriedBy;
  }

  lemma ResumeTaskFollows(s: State, task: Task, outcome: Outcome, env: Env)
    ensures Follows(s, ResumeTask(s, task, outcome, env), env, Restarts(s, DoResume(task, outcome)))
  {
    hide Follows, Continue;
    if task in s.deck.tasks {
      var m := s.(deck := Taken(s.deck, task));
      ContinueFollows(m, task, outcome, env);
      SameDeckFollows(s, m, ResumeTask(s, task, outcome, env), env, Restarts(s, DoResume(task, outcome)));
    } else {
      NothingFollows(s, s, env, Restarts(s, DoResume(task, outcome)));
    }
  }

  // ---------------------------------------------------------------- every run

  /** In any state, a step only adds values, and every unfinished one is the position reported then, unless
      the listener starts the book over. */
  lemma StepFollows(s: State, event: Event, env: Env)
    ensures Follows(s, Step(s, event, env), env, Restarts(s, event))
  {
    hide Follows, StartWith, Play, Pause, SeekTo, SetSpeed, MarkAsFinished, ResetBookProgress, Tick, ResumeTask, SaveProgressNow, WriteProgressNow, AskedOf, BookPosition;
    var t := Step(s, event, env);
    match event
    case DoStart(book, speed, chapter) => StartWithFollows(s, book, speed, chapter, env);
    case DoPlay => PlayFollows(s, env);
    case DoPause => PauseFollows(s, env);
    case DoToggle => ToggleFollows(s, env);
    case DoExternalToggle =>
      ToggleFollows(s, env);
      NothingFollows(s, s, env, Ended(s.deck));
    case DoSeek(seconds) =>
      SeekAsksNothing(s, seconds, env);
      NothingFollows(s, t, env, false);
    case DoSetSpeed(speed) =>
      SpeedAsksNothing(s, speed, env);
      NothingFollows(s, t, env, false);
    case DoMarkFinished => MarkFollows(s, env);
    case DoReset => ResetFollows(s, env);
    case DoSaveNow => SaveFollows(s, env);
    case DoRetire =>
      RetireAsks(s, env);
      AskedFollows(s, t, s.deck, env.reading, true, env, false);
    case DoUnplug => InterruptedFollows(s, s.(marks := RouteChanged(s.marks)), t, env);
    case DoCallStart => InterruptedFollows(s, s, t, env);
    case DoCallEnd(answered, outgoing) =>
      var m := s.(marks := s.marks.(pausedByCall := false, log := s.marks.log + [CallResumed]));
      PlayFollows(m, env);
      if CallResumes(s, answered, outgoing) { SameDeckFollows(s, m, t, env, Ended(s.deck)); } else { NothingFollows(s, t, env, Ended(s.deck)); }
    case DoTick =>
      TickFollows(s, env);
      NothingFollows(s, s, env, false);
    case DoResume(task, outcome) => ResumeTaskFollows(s, task, outcome, env);
    case _ => NothingFollows(s, t, env, false);
  }

  lemma SpeedAsksNothing(s: State, speed: real, env: Env)
    ensures SetSpeed(s, speed, env).saving == s.saving
  {
    hide Within, UsableSpeed, Abs;
  }

  lemma InterruptedFollows(s: State, m: State, t: State, env: Env)
    requires m.deck == s.deck && m.saving == s.saving
    requires (t.deck == Pause(m, env).deck && t.saving == Pause(m, env).saving) || t.saving == s.saving
    ensures Follows(s, t, env, false)
  {
    hide Pause, CarriedBy;
    PauseFollows(m, env);
  }

  lemma ToggleFollows(s: State, env: Env)
    ensures Follows(s, TogglePlayPause(s, env), env, Ended(s.deck))
  {
    hide Play, Pause, CarriedBy;
    PlayFollows(s, env);
    PauseFollows(s, env);
  }

  /** One step of the run asked for the value: finished, or the position reported at that step, or the start of a book the
      listener starts over. */
  ghost predicate AskedIn(w: WriteAsk, s: State, event: Event, env: Env) {
    Explained(w, s.deck.nowPlaying, Step(s, event, env).deck.nowPlaying, env, Restarts(s, event))
  }

  /** In every run, each unfinished value was asked for by a step of it, with the position reported at that
      step: where the file starts and in it the pinned target or the reading, not past the file's length.
      Only a book that the listener starts over is written at its start. */
  lemma {:induction false} UnfinishedIsWhereItWas(now: Time, events: seq<(Event, Env)>)
    ensures forall w | w in Run(Initial(now), events).saving.writes ::
              exists i | 0 <= i < |events| :: AskedIn(w, Run(Initial(now), events[..i]), events[i].0, events[i].1)
    decreases |events|
  {
    hide Step, AskedIn;
    if events != [] {
      var n := |events| - 1;
      var before, last := events[..n], events[n];
      assert events == before + [last];
      RunsOn(Initial(now), before, [last]);
      var s := Run(Initial(now), before);
      OneStep(s, last);
      UnfinishedIsWhereItWas(now, before);
      var t := Run(Initial(now), events);
      forall w | w in t.saving.writes ensures exists i | 0 <= i < |events| :: AskedIn(w, Run(Initial(now), events[..i]), events[i].0, events[i].1) {
        AskedBefore(s, last, w);
        if w in s.saving.writes {
          var i :| 0 <= i < |before| && AskedIn(w, Run(Initial(now), before[..i]), before[i].0, before[i].1);
          assert before[..i] == events[..i] && before[i] == events[i];
        } else {
          assert events[..n] == before;
        }
      }
    }
  }

  lemma OneStep(s: State, e: (Event, Env))
    ensures Run(s, [e]) == Step(s, e.0, e.1)
  {
    hide Step;
    assert [e][1..] == [];
  }

  lemma AskedBefore(s: State, e: (Event, Env), w: WriteAsk)
    requires w in Step(s, e.0, e.1).saving.writes
    ensures w in s.saving.writes || AskedIn(w, s, e.0, e.1)
  {
    hide Step, Explained;
    StepFollows(s, e.0, e.1);
    var t := Step(s, e.0, e.1);
    var i :| 0 <= i < |t.saving.writes| && t.saving.writes[i] == w;
    if i < |s.saving.writes| { assert s.saving.writes[i] == t.saving.writes[i]; }
  }
}
