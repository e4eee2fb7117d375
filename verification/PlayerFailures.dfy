/** Runs from a new player in which a promise fails, event by event. The theorem beside each says
    exactly when the promise holds; these show that the code can get to where it does not. */
module PlayerFailures {
  import opened Prelude
  import opened PlayerTypes
  import opened PlayerSpec
  import opened PlayerMarks
  import opened PlayerAlive
  import opened SeekLanding
  import opened PlayerBackend

  const BOOK := Book("item", "server", "account")
  const TARGET := Target([Track("file", 0.0, 100.0)], 100.0, [])

  /** The backend takes whatever it is told and reads `observed`. */
  function Answers(now: Time, observed: Option<real>): Env {
    Env(now, observed, observed, observed, None, true, true, true, true, true, None, false, false)
  }

  function Refuses(now: Time): Env { Answers(now, None).(accepted := false) }

  lemma One(s: State, a: (Event, Env))
    ensures Run(s, [a]) == Step(s, a.0, a.1)
  {
    hide Step;
    assert [a][1..] == [];
  }

  lemma Two(s: State, a: (Event, Env), b: (Event, Env))
    ensures Run(s, [a, b]) == Step(Step(s, a.0, a.1), b.0, b.1)
  {
    hide Step;
    var t := Step(s, a.0, a.1);
    assert [a, b][1..] == [b] && [b][1..] == [];
    assert Run(t, [b]) == Run(Step(t, b.0, b.1), []);
  }

  lemma Three(s: State, a: (Event, Env), b: (Event, Env), c: (Event, Env))
    ensures Run(s, [a, b, c]) == Step(Step(Step(s, a.0, a.1), b.0, b.1), c.0, c.1)
  {
    hide Step;
    assert [a, b, c][1..] == [b, c];
    Two(Step(s, a.0, a.1), b, c);
  }

  lemma Four(s: State, a: (Event, Env), b: (Event, Env), c: (Event, Env), d: (Event, Env))
    ensures Run(s, [a, b, c, d]) == Step(Step(Step(Step(s, a.0, a.1), b.0, b.1), c.0, c.1), d.0, d.1)
  {
    hide Step;
    assert [a, b, c, d][1..] == [b, c, d];
    Three(Step(s, a.0, a.1), b, c, d);
  }

  // ---------------------------------------------------------------- the marks

  function Asked(generation: nat): Task { StartTask(generation, BOOK, 1.0, Resolving) }

  function Pending(wantsPlay: bool, intent: Option<Intent>): PendingStart { PendingStart(1, BOOK, wantsPlay, None, intent) }

  /** The book has been asked for and nothing has come of it yet. */
  lemma AskedFor(s: State, now: Time)
    requires s.deck == Initial(0).deck && s.saving == Initial(0).saving
    ensures var t := Step(s, DoStart(BOOK, 1.0, None), Answers(now, None));
            && t.deck == Deck(None, Some(Pending(true, None)), 1, 1, 0, multiset{Asked(1)}, [ResetCommand], None)
            && t.marks == ClearMarks(s.marks, Switched) && t.saving == s.saving
            && t.deferredEvent == s.deferredEvent && t.ticking == s.ticking && t.lastAutoRecoverAt == s.lastAutoRecoverAt
  {
  }

  /** An unplug keeps the book that is starting from playing, and marks that pause as its own. */
  lemma UnpluggedWhileStarting(s: State, env: Env)
    requires s.deck.pendingStart == Some(Pending(true, None)) && s.marks.pauseOnUnplug
    ensures var t := Step(s, DoUnplug, env);
            && t.deck == s.deck.(pendingStart := Some(Pending(false, None)))
            && t.marks.pausedByUnplug && t.marks.resumeOnReplug == s.marks.resumeOnReplug
            && t.marks.routeEventSeq == s.marks.routeEventSeq + 1
            && t.marks.log == s.marks.log + [RouteSeen] + [PauseAsked] + [UnplugPaused]
  {
  }

  /** A replug then leaves its settling timer, and the timer resumes. */
  lemma ReplugGoesThrough(s: State, env: Env)
    requires s.marks.pausedByUnplug && s.marks.resumeOnReplug && PlayingIntent(s.deck) == Some(false)
    ensures var timer := ReplugTimer(s.marks.routeEventSeq + 1);
            var t := Step(s, DoReplug, env);
            var u := Step(t, DoResume(timer, Waiting), env);
            && t.marks.log == s.marks.log + [RouteSeen] && t.marks.log + [ReplugResumed] <= u.marks.log
            && (s.deck.pendingStart.Some? ==> u.deck == s.deck.(pendingStart := Some(s.deck.pendingStart.value.(wantsPlay := true))))
  {
    var t := Step(s, DoReplug, env);
    ReplugLeavesTimer(s, env);
    TimerGoesThrough(t, s.marks.routeEventSeq + 1, env);
    assert s.deck.tasks + multiset{ReplugTimer(s.marks.routeEventSeq + 1)} - multiset{ReplugTimer(s.marks.routeEventSeq + 1)} == s.deck.tasks;
  }

  lemma ReplugLeavesTimer(s: State, env: Env)
    requires s.marks.pausedByUnplug && s.marks.resumeOnReplug && PlayingIntent(s.deck) == Some(false)
    ensures Step(s, DoReplug, env) == s.(marks := RouteChanged(s.marks), deck := Spawn(s.deck, ReplugTimer(s.marks.routeEventSeq + 1)))
  {
  }

  lemma TimerGoesThrough(s: State, n: nat, env: Env)
    requires ReplugTimer(n) in s.deck.tasks && s.marks.routeEventSeq == n && s.marks.pausedByUnplug && PlayingIntent(s.deck) == Some(false)
    ensures var u := Step(s, DoResume(ReplugTimer(n), Waiting), env);
            && s.marks.log + [ReplugResumed] <= u.marks.log
            && (s.deck.pendingStart.Some? ==>
                  u.deck == Taken(s.deck, ReplugTimer(n)).(pendingStart := Some(s.deck.pendingStart.value.(wantsPlay := true))))
  {
    hide PlayMarked;
    var d := Taken(s.deck, ReplugTimer(n));
    var w := s.(deck := d, marks := s.marks.(pausedByUnplug := false, log := s.marks.log + [ReplugResumed]));
    assert Step(s, DoResume(ReplugTimer(n), Waiting), env) == Play(w, env);
    PlayMarks(w, env);
    if w.deck.pendingStart.Some? { PendingPlay(w, env); }
  }

  lemma PendingPlay(s: State, env: Env)
    requires s.deck.pendingStart.Some?
    ensures Play(s, env).deck == s.deck.(pendingStart := Some(s.deck.pendingStart.value.(wantsPlay := true)))
  {
  }

  /** After the pause something was noted; the resumption that follows is not of an untouched pause. */
  lemma NotedSince(log: seq<Happening>, noted: Happening)
    requires noted.AskedAgain? || noted.FinishNoted?
    ensures Latest(log + [UnplugPaused] + [noted] + [RouteSeen], Decisions) == Some(noted)
  {
    hide Latest;
    Logged(log + [UnplugPaused], noted);
    Logged(log + [UnplugPaused] + [noted], RouteSeen);
  }

  const ENV := Answers(0, None)
  const ASK := (DoStart(BOOK, 1.0, None), ENV)
  const REPLUG := (DoReplug, ENV)
  const SETTLED := (DoResume(ReplugTimer(2), Waiting), ENV)

  /** The switches are on, the book is asked for and the headphones are unplugged. */
  function Stopped(): State { Run(Initial(0), [(DoHeadphoneSettings(true, true), ENV), ASK, (DoUnplug, ENV)]) }

  lemma StoppedByTheUnplug()
    ensures var s := Stopped();
            && s.deck == Deck(None, Some(Pending(false, None)), 1, 1, 0, multiset{Asked(1)}, [ResetCommand], None)
            && s.marks.pausedByUnplug && s.marks.resumeOnReplug && s.marks.routeEventSeq == 1
            && s.marks.log == [Switched, RouteSeen, PauseAsked] + [UnplugPaused]
  {
    hide Step, Run;
    Three(Initial(0), (DoHeadphoneSettings(true, true), ENV), ASK, (DoUnplug, ENV));
    var on := Step(Initial(0), DoHeadphoneSettings(true, true), ENV);
    SwitchesOn(ENV);
    AskedFor(on, 0);
    UnpluggedWhileStarting(Step(on, DoStart(BOOK, 1.0, None), ENV), ENV);
    assert [Switched] + [RouteSeen] + [PauseAsked] == [Switched, RouteSeen, PauseAsked];
    assert [] + [Switched] == [Switched];
  }

  lemma SwitchesOn(env: Env)
    ensures Step(Initial(0), DoHeadphoneSettings(true, true), env) == Initial(0).(marks := Initial(0).marks.(pauseOnUnplug := true, resumeOnReplug := true))
  {
  }

  /** A replug resumes, and the last decision about playback before it was `noted`. */
  ghost predicate ResumedAfter(log: seq<Happening>, noted: Happening) {
    exists i | 0 <= i < |log| :: log[i].ReplugResumed? && Latest(log[..i], Decisions) == Some(noted)
  }

  lemma ResumedAfterNoting(s: State, noted: Happening)
    requires s.marks.pausedByUnplug && s.marks.resumeOnReplug && PlayingIntent(s.deck) == Some(false) && s.marks.routeEventSeq == 1
    requires s.marks.log == [Switched, RouteSeen, PauseAsked] + [UnplugPaused] + [noted] && (noted.AskedAgain? || noted.FinishNoted?)
    ensures ResumedAfter(Step(Step(s, DoReplug, ENV), DoResume(ReplugTimer(2), Waiting), ENV).marks.log, noted)
  {
    hide Step, Latest;
    ReplugGoesThrough(s, ENV);
    NotedSince([Switched, RouteSeen, PauseAsked], noted);
    var t := Step(s, DoReplug, ENV);
    var log := Step(t, DoResume(ReplugTimer(2), Waiting), ENV).marks.log;
    assert log[..|t.marks.log|] == t.marks.log && log[|t.marks.log|] == ReplugResumed;
  }

  lemma AskedAgainAndFailed(s: State)
    requires s.deck == Deck(None, Some(Pending(false, None)), 1, 1, 0, multiset{Asked(1)}, [ResetCommand], None)
    ensures var again := Step(s, DoStart(BOOK, 1.0, None), ENV);
            var failed := Step(again, DoResume(Asked(1), Failed), ENV);
            && failed.marks == Noted(s.marks, AskedAgain)
            && PlayingIntent(again.deck) == Some(true) && PlayingIntent(failed.deck) == Some(false)
  {
    hide FailStart;
    var again := Step(s, DoStart(BOOK, 1.0, None), ENV);
    assert again.deck == s.deck.(pendingStart := Some(Pending(true, None)));
    FailedStart(again);
  }

  lemma FailedStart(s: State)
    requires PendingIs(s.deck, 1) && Asked(1) in s.deck.tasks
    ensures var t := Step(s, DoResume(Asked(1), Failed), ENV);
            t.marks == s.marks && t.deck.pendingStart.None? && t.deck.nowPlaying == Some(FailedBook(BOOK, 1.0))
  {
  }

  /** The book is asked for, the headphones are unplugged, the book is asked for again, it fails to
      start, and the headphones come back: the replug starts it once more, though what had stopped it
      was the failure and not the unplug. */
  lemma ReplugResumesWhatWasAskedAgain()
    ensures ResumedAfter(Run(Stopped(), [ASK, (DoResume(Asked(1), Failed), ENV), REPLUG, SETTLED]).marks.log, AskedAgain)
  {
    hide Stopped, ResumedAfter, Step, Run;
    StoppedByTheUnplug();
    AskedAgainAndFailed(Stopped());
    Four(Stopped(), ASK, (DoResume(Asked(1), Failed), ENV), REPLUG, SETTLED);
    ResumedAfterNoting(Step(Step(Stopped(), ASK.0, ENV), DoResume(Asked(1), Failed), ENV), AskedAgain);
  }

  const MARK := (DoMarkFinished, ENV)
  const RESOLVED := (DoResume(Asked(1), Resolved(TARGET)), ENV)
  const PLACED := (DoResume(PLACING, Placed(None, true)), ENV)

  lemma FinishNotedOnly(s: State)
    requires s.deck.pendingStart.Some?
    ensures var t := Step(s, DoMarkFinished, ENV);
            && t.marks == Noted(s.marks, FinishNoted) && PlayingIntent(t.deck) == PlayingIntent(s.deck)
            && t.deck == s.deck.(pendingStart := Some(s.deck.pendingStart.value.(intent := Some(MarkFinished))))
  {
  }

  /** Where the book is marked finished and wanted to play, or not, and nothing is resolved yet. */
  function Marked(wantsPlay: bool): Deck {
    Deck(None, Some(Pending(wantsPlay, Some(MarkFinished))), 1, 1, 0, multiset{Asked(1)}, [ResetCommand], None)
  }

  /** A start that ends with a finished mark waiting always leaves a finished book that is not playing;
      if it was wanted to play, the backend is asked to play it first. */
  lemma MarkWins(s: State, task: Task, prepared: StartStage, loaded: bool, speed: real, env: Env)
    requires task.StartTask? && prepared.StartPreroll? && s.deck.pendingStart.Some?
    requires s.deck.pendingStart.value.intent == Some(MarkFinished)
    ensures var d := FinishStart(s, task, prepared, loaded, speed, env).deck;
            && d.nowPlaying.Some? && d.nowPlaying.value.ended && !d.nowPlaying.value.isPlaying
            && d.commands == s.deck.commands
                             + (if loaded && s.deck.pendingStart.value.wantsPlay then [PlayCommand(env.plays)] else [])
                             + (if loaded && prepared.target.tracks != [] then [PauseCommand(env.pauses)] else [])
  {
    hide WriteProgressAt;
  }

  /** The rest of such a start: resolved, placed, loaded. */
  lemma MarkedStartEnds(s: State, wantsPlay: bool)
    requires s.deck == Marked(wantsPlay)
    ensures var d := Run(s, [RESOLVED, PLACED]).deck;
            && d.nowPlaying.Some? && d.nowPlaying.value.ended && !d.nowPlaying.value.isPlaying
            && d.commands == [ResetCommand, LoadAccepted(BOOK, 0), PauseCommand(true)]
                             + (if wantsPlay then [PlayCommand(true)] else []) + [PauseCommand(true)]
  {
    hide Run, Step, FinishStart;
    Two(s, RESOLVED, PLACED);
    var t := s.(deck := s.deck.(tasks := multiset{PLACING}));
    MarkedStartResolves(s, wantsPlay);
    var prepared := StartPreroll(TARGET, 0, 0.0, 2, true, 0);
    var d := t.deck.(tasks := multiset{}, loadGeneration := 2);
    var l := t.(deck := Commanded(Commanded(d, LoadAccepted(BOOK, 0)), PauseCommand(true)));
    assert Taken(t.deck, PLACING).tasks == multiset{};
    LoadsFromTheStart(t, d, l, prepared);
    MarkWins(l, PLACING.(startStage := prepared), prepared, true, 1.0, ENV);
  }

  lemma MarkedStartResolves(s: State, wantsPlay: bool)
    requires s.deck == Marked(wantsPlay)
    ensures Step(s, RESOLVED.0, ENV) == s.(deck := s.deck.(tasks := multiset{PLACING}))
  {
    assert multiset{Asked(1)} - multiset{Asked(1)} + multiset{PLACING} == multiset{PLACING};
  }

  lemma LoadsFromTheStart(s: State, d: Deck, l: State, prepared: StartStage)
    requires PLACING in s.deck.tasks && PendingIs(s.deck, 1) && prepared == StartPreroll(TARGET, 0, 0.0, d.loadGeneration, true, 0)
    requires d == Taken(s.deck, PLACING).(loadGeneration := s.deck.loadGeneration + 1)
    requires l == s.(deck := Commanded(Commanded(d, LoadAccepted(BOOK, 0)), PauseCommand(true)))
    ensures Step(s, PLACED.0, ENV) == FinishStart(l, PLACING.(startStage := prepared), prepared, true, 1.0, ENV)
  {
    hide FinishStart;
    var t := s.(deck := Taken(s.deck, PLACING));
    var task := PLACING.(startStage := prepared);
    assert Step(s, PLACED.0, ENV) == LoadStart(t, PLACING, None, true, ENV);
    assert LoadStart(t, PLACING, None, true, ENV) == PollStart(l, task, ENV);
  }

  /** A book is marked finished while it is starting and kept from playing by an unplug. The replug asks
      to play it again: once loaded it is played, for a moment, before the mark stops it for good. With
      no replug it is never played. */
  lemma ReplugResumesWhatWasFinished()
    ensures var replugged := Run(Stopped(), [MARK, REPLUG, SETTLED]);
            var plain := Run(Stopped(), [MARK]);
            var d, e := Run(replugged, [RESOLVED, PLACED]).deck, Run(plain, [RESOLVED, PLACED]).deck;
            && ResumedAfter(replugged.marks.log, FinishNoted)
            && PlayCommand(true) in d.commands && PlayCommand(true) !in e.commands
            && d.nowPlaying.Some? && d.nowPlaying.value.ended && !d.nowPlaying.value.isPlaying
            && e.nowPlaying.Some? && e.nowPlaying.value.ended && !e.nowPlaying.value.isPlaying
  {
    hide Stopped, ResumedAfter, Step, Run;
    StoppedByTheUnplug();
    FinishNotedOnly(Stopped());
    One(Stopped(), MARK);
    Three(Stopped(), MARK, REPLUG, SETTLED);
    var marked := Step(Stopped(), DoMarkFinished, ENV);
    ResumedAfterNoting(marked, FinishNoted);
    ReplugGoesThrough(marked, ENV);
    MarkedStartEnds(Run(Stopped(), [MARK]), false);
    MarkedStartEnds(Run(Stopped(), [MARK, REPLUG, SETTLED]), true);
  }

  /** A call that starts to ring keeps the book that is starting from playing. */
  lemma CalledWhileStarting(s: State)
    requires s.deck.pendingStart == Some(Pending(true, None))
    ensures var t := Step(s, DoCallStart, ENV);
            && t.deck == s.deck.(pendingStart := Some(Pending(false, None))) && t.marks.pausedByCall
            && t.marks.log == s.marks.log + [PauseAsked] + [CallPaused]
  {
  }

  lemma CallEndGoesThrough(s: State)
    requires s.marks.pausedByCall && PlayingIntent(s.deck) == Some(false) && s.deck.pendingStart.Some?
    ensures var t := Step(s, DoCallEnd(false, false), ENV);
            && s.marks.log + [CallResumed] <= t.marks.log
            && t.deck == s.deck.(pendingStart := Some(s.deck.pendingStart.value.(wantsPlay := true)))
  {
    hide PlayMarked;
    var w := s.(marks := s.marks.(pausedByCall := false, log := s.marks.log + [CallResumed]));
    PlayMarks(w, ENV);
    PendingPlay(w, ENV);
  }

  /** The end of a call does the same to a book marked finished while the call kept it from playing. */
  lemma CallEndResumesWhatWasFinished()
    ensures var ended := Run(Initial(0), [ASK, (DoCallStart, ENV), MARK, (DoCallEnd(false, false), ENV)]);
            var d := Run(ended, [RESOLVED, PLACED]).deck;
            && [Switched, PauseAsked, CallPaused, FinishNoted, CallResumed] <= ended.marks.log
            && PlayCommand(true) in d.commands
            && d.nowPlaying.Some? && d.nowPlaying.value.ended && !d.nowPlaying.value.isPlaying
  {
    hide Step, Run;
    Four(Initial(0), ASK, (DoCallStart, ENV), MARK, (DoCallEnd(false, false), ENV));
    AskedFor(Initial(0), 0);
    var asked := Step(Initial(0), ASK.0, ENV);
    CalledWhileStarting(asked);
    var called := Step(asked, DoCallStart, ENV);
    FinishNotedOnly(called);
    CallEndGoesThrough(Step(called, DoMarkFinished, ENV));
    MarkedStartEnds(Run(Initial(0), [ASK, (DoCallStart, ENV), MARK, (DoCallEnd(false, false), ENV)]), true);
    assert ([] + [Switched]) + [PauseAsked] + [CallPaused] + [FinishNoted] + [CallResumed] == [Switched, PauseAsked, CallPaused, FinishNoted, CallResumed];
  }

  // ---------------------------------------------------------------- a refused play

  function Loaded(seek: SeekState): NowPlaying {
    NowPlaying(BOOK, 100.0, TARGET.tracks, 0, true, true, [], 1.0, Off, false, seek, false, None, None, None, false, None)
  }

  const PLACING := StartTask(1, BOOK, 1.0, Placing(TARGET, None))

  const LOADED := [ResetCommand, LoadAccepted(BOOK, 0), PauseCommand(true), PlayCommand(true)]

  /** A downloaded book of one file has been asked for, resolved and loaded, and plays. */
  function Playing(): State { Run(Initial(0), [ASK, RESOLVED, PLACED]) }

  lemma ResolvedStart(s: State)
    requires s.deck == Deck(None, Some(Pending(true, None)), 1, 1, 0, multiset{Asked(1)}, [ResetCommand], None)
    ensures Step(s, RESOLVED.0, ENV) == s.(deck := s.deck.(tasks := multiset{PLACING}))
  {
    assert multiset{Asked(1)} - multiset{Asked(1)} + multiset{PLACING} == multiset{PLACING};
  }

  lemma LoadedStart(s: State)
    requires s.deck == Deck(None, Some(Pending(true, None)), 1, 1, 0, multiset{PLACING}, [ResetCommand], None)
    ensures var t := Step(s, PLACED.0, ENV);
            && t.deck.(commands := []) == Deck(Some(Loaded(SeekState(0.0, false, None, 0, false))), None, 1, 2, 0, multiset{}, [], Some((BOOK, 0)))
            && t.deck.commands == LOADED && t.ticking && t.deferredEvent == s.deferredEvent
  {
    var prepared := StartPreroll(TARGET, 0, 0.0, 2, true, 0);
    var d := Taken(s.deck, PLACING).(loadGeneration := 2);
    assert d.tasks == multiset{};
    LoadsFromTheStart(s, d, s.(deck := Commanded(Commanded(d, LoadAccepted(BOOK, 0)), PauseCommand(true))), prepared);
  }

  lemma PlayingFromTheStart()
    ensures var s := Playing();
            && s.deck.(commands := []) == Deck(Some(Loaded(SeekState(0.0, false, None, 0, false))), None, 1, 2, 0, multiset{}, [], Some((BOOK, 0)))
            && s.deck.commands == LOADED && s.ticking && s.deferredEvent.None?
  {
    hide Step, Run;
    Three(Initial(0), ASK, RESOLVED, PLACED);
    AskedFor(Initial(0), 0);
    ResolvedStart(Step(Initial(0), ASK.0, ENV));
    LoadedStart(Step(Initial(0), ASK.0, ENV).(deck := Step(Initial(0), ASK.0, ENV).deck.(tasks := multiset{PLACING})));
  }

  lemma RefusedPlay(s: State)
    requires s.deck.(commands := []) == Deck(Some(Loaded(SeekState(0.0, false, None, 0, false))), None, 1, 2, 0, multiset{}, [], Some((BOOK, 0)))
    ensures var t := Step(s, DoPlay, Refuses(0));
            && t.deck.nowPlaying == Some(Loaded(SeekState(0.0, false, None, 0, false)).(needsReload := true, hasError := true))
            && t.deck.tasks == multiset{} && t.deck.held.None?
  {
  }

  /** The listener asks to play what is playing and the backend refuses: the book is left shown as
      playing with nothing loaded, on its way or to be recovered. */
  lemma RefusedPlayIsSilent()
    ensures var s := Run(Playing(), [(DoPlay, Refuses(0))]);
            && RefusedWhilePlaying(Playing().deck, Refuses(0))
            && !Alive(s.deck) && s.deck.held.None?
  {
    hide Playing, Step;
    PlayingFromTheStart();
    RefusedPlay(Playing());
    assert [(DoPlay, Refuses(0))][1..] == [];
  }

  // ---------------------------------------------------------------- a seek to the very start

  /** Everything about a playing deck but the commands it gave. */
  ghost predicate Plays(s: State, np: NowPlaying, loadGeneration: nat, seekCount: nat, tasks: multiset<Task>, held: Option<(Book, nat)>) {
    s.deck.(commands := []) == Deck(Some(np), None, 1, loadGeneration, seekCount, tasks, [], held) && s.ticking && s.deferredEvent.None?
  }

  lemma SeekToTheStart(s: State)
    requires Plays(s, Loaded(SeekState(0.0, false, None, 0, false)), 2, 0, multiset{}, Some((BOOK, 0)))
    ensures Plays(Step(s, DoSeek(0.0), ENV), Loaded(SeekState(0.0, true, Some(0), 0, false)), 2, 1, multiset{}, Some((BOOK, 0)))
  {
    assert LocateTrack(TARGET.tracks, 0.0) == (0, 0.0);
  }

  /** A tick with nothing on the bus and no sleep timer does to the deck what its observation does. */
  lemma QuietTick(s: State, env: Env)
    requires s.ticking && s.deferredEvent.None? && env.polled.None? && !env.errorWaiting && s.deck.nowPlaying.Some?
    requires var o := ObservePosition(s, env).deck.nowPlaying; o.Some? && o.value.isPlaying && o.value.sleepTimer == Off
    ensures var t := Step(s, DoTick, env); t.deck == ObservePosition(s, env).deck && t.ticking && t.deferredEvent.None?
  {
    hide ObserveSeek, LoadTrackAt, Released, WriteProgressAt, BookPosition;
  }

  function Elsewhere(now: Time): Env { Answers(now, Some(10.0)) }

  lemma AskedAgainAtTheStart(s: State, issued: Time, n: nat)
    requires Plays(s, Loaded(SeekState(0.0, true, Some(issued), n, false)), 2, 1, multiset{}, Some((BOOK, 0))) && n < MAX_SEEK_REISSUES
    ensures Plays(Step(s, DoTick, Elsewhere(issued + 2000)), Loaded(SeekState(0.0, true, Some(issued + 2000), n + 1, false)), 2, 1, multiset{}, Some((BOOK, 0)))
  {
    QuietTick(s, Elsewhere(issued + 2000));
  }

  const RELOAD := LoadTask(BOOK, 4, Spawned)
  const CONNECTING := LoadTask(BOOK, 4, Connecting(0))

  lemma ReloadedAtTheStart(s: State, issued: Time)
    requires Plays(s, Loaded(SeekState(0.0, true, Some(issued), 3, false)), 2, 1, multiset{}, Some((BOOK, 0)))
    ensures Plays(Step(s, DoTick, Elsewhere(issued + 2000)), Loaded(SeekState(0.0, true, None, 0, true)).(loadingTrack := Some(4)), 4, 1, multiset{RELOAD}, None)
  {
    QuietTick(s, Elsewhere(issued + 2000));
    assert multiset{} + multiset{RELOAD} == multiset{RELOAD};
  }

  lemma ReloadConnects(s: State)
    requires Plays(s, Loaded(SeekState(0.0, true, None, 0, true)).(loadingTrack := Some(4)), 4, 1, multiset{RELOAD}, None)
    ensures Plays(Step(s, DoResume(RELOAD, Waiting), ENV), Loaded(SeekState(0.0, true, None, 0, true)).(loadingTrack := Some(4)), 4, 1, multiset{CONNECTING}, None)
  {
    assert multiset{RELOAD} - multiset{RELOAD} + multiset{CONNECTING} == multiset{CONNECTING};
  }

  lemma ReloadSettles(s: State)
    requires Plays(s, Loaded(SeekState(0.0, true, None, 0, true)).(loadingTrack := Some(4)), 4, 1, multiset{CONNECTING}, None)
    ensures Plays(Step(s, DoResume(CONNECTING, Answered(true)), ENV), Loaded(SeekState(0.0, false, None, 0, true)), 4, 1, multiset{}, Some((BOOK, 0)))
  {
    var d := Taken(s.deck, CONNECTING);
    assert d.tasks == multiset{};
    var l := Commanded(d, LoadAccepted(BOOK, 0));
    assert ConnectLoad(d, CONNECTING, 0, true, ENV) == PollLoad(l, LoadTask(BOOK, 4, LoadPreroll(0, true, 0)), false, ENV);
  }

  lemma Believed(s: State)
    requires Plays(s, Loaded(SeekState(0.0, false, None, 0, true)), 4, 1, multiset{}, Some((BOOK, 0)))
    ensures Plays(Step(s, DoTick, Elsewhere(10_000)), Loaded(SeekState(10.0, false, None, 0, true)), 4, 1, multiset{}, Some((BOOK, 0)))
  {
    QuietTick(s, Elsewhere(10_000));
  }

  /** The listener seeks to the very start of the playing file; the pipeline reads ten seconds all
      along. Three re-issues and the reload later that reading is taken for the truth, though none
      ever landed: the player reports ten seconds and waits for nothing. */
  lemma SeekToTheStartIsLost()
    ensures var sought := Run(Playing(), [(DoSeek(0.0), ENV)]);
            var reloading := Run(sought, [(DoTick, Elsewhere(2000)), (DoTick, Elsewhere(4000)), (DoTick, Elsewhere(6000)), (DoTick, Elsewhere(8000))]);
            var s := Run(reloading, [(DoResume(RELOAD, Waiting), ENV), (DoResume(CONNECTING, Answered(true)), ENV), (DoTick, Elsewhere(10_000))]);
            && JustSought(sought, 0.0)
            && !Landed(0.0, 10.0, None)
            && s.deck.nowPlaying.Some? && s.deck.nowPlaying.value.seek.known == 10.0 && !s.deck.nowPlaying.value.seek.pending
            && WithinTrack(s.deck.nowPlaying.value, Some(10.0)) == 10.0
  {
    hide Playing, Step, Run;
    PlayingFromTheStart();
    One(Playing(), (DoSeek(0.0), ENV));
    SeekToTheStart(Playing());
    var s0 := Step(Playing(), DoSeek(0.0), ENV);
    Four(s0, (DoTick, Elsewhere(2000)), (DoTick, Elsewhere(4000)), (DoTick, Elsewhere(6000)), (DoTick, Elsewhere(8000)));
    AskedAgainAtTheStart(s0, 0, 0);
    var s1 := Step(s0, DoTick, Elsewhere(2000));
    AskedAgainAtTheStart(s1, 2000, 1);
    var s2 := Step(s1, DoTick, Elsewhere(4000));
    AskedAgainAtTheStart(s2, 4000, 2);
    var s3 := Step(s2, DoTick, Elsewhere(6000));
    ReloadedAtTheStart(s3, 6000);
    var s4 := Step(s3, DoTick, Elsewhere(8000));
    Three(s4, (DoResume(RELOAD, Waiting), ENV), (DoResume(CONNECTING, Answered(true)), ENV), (DoTick, Elsewhere(10_000)));
    ReloadConnects(s4);
    var s5 := Step(s4, DoResume(RELOAD, Waiting), ENV);
    ReloadSettles(s5);
    Believed(Step(s5, DoResume(CONNECTING, Answered(true)), ENV));
  }

  // ---------------------------------------------------------------- answers nobody looks at

  lemma SoundsAfter(commands: seq<Command>, c: Command)
    ensures Sounding(commands + [c]) == ((c.PlayCommand? && c.accepted)
                                         || (!(c.PauseCommand? && c.accepted) && !Replaces(c) && Sounding(commands)))
  {
    assert (commands + [c])[..|commands|] == commands;
  }

  lemma UnplayedStart(s: State, env: Env)
    requires s.deck == Deck(None, Some(Pending(true, None)), 1, 1, 0, multiset{PLACING}, [ResetCommand], None)
    requires env == ENV.(plays := false)
    ensures var d := Step(s, PLACED.0, env).deck;
            && d.nowPlaying == Some(Loaded(SeekState(0.0, false, None, 0, false)))
            && d.commands == [ResetCommand, LoadAccepted(BOOK, 0), PauseCommand(true)] + [PlayCommand(false)]
  {
    var t := s.(deck := Taken(s.deck, PLACING));
    var task := PLACING.(startStage := StartPreroll(TARGET, 0, 0.0, 2, true, 0));
    assert Step(s, PLACED.0, env) == LoadStart(t, PLACING, None, true, env);
    var l := t.(deck := Commanded(Commanded(t.deck.(loadGeneration := 2), LoadAccepted(BOOK, 0)), PauseCommand(true)));
    assert LoadStart(t, PLACING, None, true, env) == PollStart(l, task, env);
    assert PollStart(l, task, env) == FinishStart(l, task, task.startStage, true, 1.0, env);
  }

  /** The backend refuses to play at the end of a start, whose answer nobody looks at: the book is
      loaded and shown as playing while its pipeline is paused. */
  lemma UnplayedStartIsShownPlaying()
    ensures var d := Run(Initial(0), [ASK, RESOLVED, (PLACED.0, ENV.(plays := false))]).deck;
            && d.nowPlaying.Some? && HoldsTrack(d.nowPlaying.value) && d.nowPlaying.value.isPlaying
            && !Sounding(d.commands) && !Obeyed(d.commands)
  {
    hide Step, Run, Sounding;
    Three(Initial(0), ASK, RESOLVED, (PLACED.0, ENV.(plays := false)));
    AskedFor(Initial(0), 0);
    var asked := Step(Initial(0), ASK.0, ENV);
    ResolvedStart(asked);
    UnplayedStart(asked.(deck := asked.deck.(tasks := multiset{PLACING})), ENV.(plays := false));
    var before := [ResetCommand, LoadAccepted(BOOK, 0), PauseCommand(true)];
    SoundsAfter([ResetCommand, LoadAccepted(BOOK, 0)], PauseCommand(true));
    assert [ResetCommand, LoadAccepted(BOOK, 0)] + [PauseCommand(true)] == before;
    SoundsAfter(before, PlayCommand(false));
    assert (before + [PlayCommand(false)])[..3] == before;
  }

  lemma UnpausedMark(s: State, env: Env)
    requires s.deck.pendingStart.None? && s.deck.nowPlaying.Some? && HoldsTrack(s.deck.nowPlaying.value) && !env.pauses
    ensures var d := Step(s, DoMarkFinished, env).deck;
            && d.nowPlaying.Some? && HoldsTrack(d.nowPlaying.value) && d.nowPlaying.value.ended && !d.nowPlaying.value.isPlaying
            && d.commands == s.deck.commands + [PauseCommand(false)]
  {
    hide WriteProgressAt;
  }

  /** The backend refuses the pause of a finished mark, whose answer nobody looks at either: the book is
      finished and shown as stopped while it goes on sounding. */
  lemma UnpausedMarkGoesOnSounding()
    ensures var d := Run(Playing(), [(DoMarkFinished, ENV.(pauses := false))]).deck;
            && d.nowPlaying.Some? && HoldsTrack(d.nowPlaying.value) && d.nowPlaying.value.ended && !d.nowPlaying.value.isPlaying
            && Sounding(d.commands) && !Obeyed(d.commands)
  {
    hide Playing, Step, Run, Sounding;
    PlayingFromTheStart();
    One(Playing(), (DoMarkFinished, ENV.(pauses := false)));
    UnpausedMark(Playing(), ENV.(pauses := false));
    var before := [ResetCommand, LoadAccepted(BOOK, 0), PauseCommand(true)];
    SoundsAfter(before, PlayCommand(true));
    assert before + [PlayCommand(true)] == LOADED;
    SoundsAfter(LOADED, PauseCommand(false));
    assert (LOADED + [PauseCommand(false)])[..4] == LOADED;
  }

  // ---------------------------------------------------------------- another book's end-of-stream

  const OTHER := Book("other", "server", "account")
  const OTHER_ASKED := StartTask(2, OTHER, 1.0, Resolving)
  const OTHER_PLACING := StartTask(2, OTHER, 1.0, Placing(TARGET, None))

  /** Paused, and an end-of-stream that was on the bus is kept as playback resumes. */
  lemma EndKept(s: State)
    requires Plays(s, Loaded(SeekState(0.0, false, None, 0, false)), 2, 0, multiset{}, Some((BOOK, 0)))
    ensures var p := Step(s, DoPause, ENV);
            var t := Step(p, DoPlay, ENV.(polled := Some(EndOfStream)));
            && t.deferredEvent.Some? && t.deferredEvent.value.event == EndOfStream && t.deferredEvent.value.generation == 2
            && t.deck.nowPlaying == Some(Loaded(SeekState(0.0, false, None, 0, false))) && t.deck.pendingStart.None?
            && t.deck.sessionGeneration == 1 && t.deck.loadGeneration == 2
  {
    hide WriteProgress, ReconcileBeforeResuming;
    var np := Loaded(SeekState(0.0, false, None, 0, false));
    var p := Step(s, DoPause, ENV);
    assert p.deck.nowPlaying == Some(np.(isPlaying := false)) && p.deferredEvent.None? && p.deck.loadGeneration == 2;
    ReconciledAlone(p.(marks := ClearMarks(p.marks, PlayAsked)), ENV.(polled := Some(EndOfStream)));
  }

  lemma ReconciledAlone(s: State, env: Env)
    ensures var t := ReconcileBeforeResuming(s, env);
            t == s.(deck := s.deck.(tasks := t.deck.tasks), saving := t.saving)
  {
    hide BookPosition;
  }

  lemma OtherAsked(s: State)
    requires s.deck.nowPlaying == Some(Loaded(SeekState(0.0, false, None, 0, false))) && s.deck.pendingStart.None?
    requires s.deck.sessionGeneration == 1 && s.deck.loadGeneration == 2
    ensures var t := Step(s, DoStart(OTHER, 1.0, None), ENV);
            && t.deck.pendingStart == Some(PendingStart(2, OTHER, true, None, None)) && t.deck.nowPlaying.None?
            && t.deck.loadGeneration == 3 && OTHER_ASKED in t.deck.tasks && t.deferredEvent == s.deferredEvent
  {
    hide WriteProgressNow;
  }

  lemma OtherResolved(s: State)
    requires s.deck.pendingStart == Some(PendingStart(2, OTHER, true, None, None)) && OTHER_ASKED in s.deck.tasks
    ensures var t := Step(s, DoResume(OTHER_ASKED, Resolved(TARGET)), ENV);
            && t.deck == s.deck.(tasks := t.deck.tasks) && OTHER_PLACING in t.deck.tasks && t.deferredEvent == s.deferredEvent
  {
  }

  /** Half-way into its only file, by the saved progress. */
  function HalfWay(): NowPlaying {
    Loaded(SeekState(50.0, true, Some(0), 0, false)).(book := OTHER)
  }

  lemma OtherPlaced(s: State)
    requires s.deck.pendingStart == Some(PendingStart(2, OTHER, true, None, None)) && OTHER_PLACING in s.deck.tasks
    requires s.deck.nowPlaying.None? && s.deck.loadGeneration == 3
    ensures var t := Step(s, DoResume(OTHER_PLACING, Placed(Some((50.0, false)), true)), Answers(0, Some(50.0)));
            && t.deck.nowPlaying == Some(HalfWay()) && t.deck.loadGeneration == 4 && t.deck.pendingStart.None?
            && t.ticking && t.deferredEvent == s.deferredEvent
  {
    var env := Answers(0, Some(50.0));
    var taken := s.(deck := Taken(s.deck, OTHER_PLACING));
    assert LocateTrack(TARGET.tracks, 50.0) == (0, 50.0);
    var prepared := StartPreroll(TARGET, 0, 50.0, 4, true, 0);
    var task := OTHER_PLACING.(startStage := prepared);
    var l := taken.(deck := Commanded(Commanded(taken.deck.(loadGeneration := 4), LoadAccepted(OTHER, 0)), PauseCommand(true)));
    assert StartPosition(None, Some((50.0, false)), 100.0) == Some(50.0);
    assert LoadStart(taken, OTHER_PLACING, Some((50.0, false)), true, env) == PollStart(l, task, env);
    assert PollStart(l, task, env) == SettleStart(l, task, env);
    assert SettleStart(l, task, env) == FinishStart(l.(deck := Commanded(l.deck, SeekCommand(50.0))), task, prepared, true, 1.0, env);
  }

  lemma EndHandled(s: State)
    requires s.deck.nowPlaying == Some(HalfWay()) && s.ticking && s.deferredEvent.Some? && s.deferredEvent.value.event == EndOfStream
    ensures var t := Step(s, DoTick, ENV);
            && t.deck.nowPlaying == Some(HalfWay().(isPlaying := false, ended := true))
            && t.saving.writes == s.saving.writes + [WriteAsk(OTHER, 100.0, true, true, 100.0, true)]
  {
    var o := s.(deferredEvent := None);
    assert JudgeEndOfStream(HalfWay(), None, None) == Judgement(HalfWay(), RealEnd);
    assert Step(s, DoTick, ENV) == EndTick(FinishBook(o.(deck := WithBook(o.deck, HalfWay())), ENV), ENV);
  }

  /** A book ends while paused and the end-of-stream is kept as playback resumes; before the next tick
      another book is asked for and loaded, in the middle of its only file. The tick takes the kept
      event for that file's end: the other book is finished, and written finished at its full length. */
  lemma AnotherBookIsFinished()
    ensures var kept := Run(Playing(), [(DoPause, ENV), (DoPlay, ENV.(polled := Some(EndOfStream)))]);
            var s := Run(kept, [(DoStart(OTHER, 1.0, None), ENV), (DoResume(OTHER_ASKED, Resolved(TARGET)), ENV),
                                (DoResume(OTHER_PLACING, Placed(Some((50.0, false)), true)), Answers(0, Some(50.0)))]);
            var t := Run(s, [(DoTick, ENV)]);
            && s.deck.nowPlaying == Some(HalfWay()) && !HalfWay().ended
            && s.deferredEvent.Some? && s.deferredEvent.value.generation < s.deck.loadGeneration
            && t.deck.nowPlaying == Some(HalfWay().(isPlaying := false, ended := true))
            && WriteAsk(OTHER, 100.0, true, true, 100.0, true) in t.saving.writes
  {
    hide Playing, Step, Run;
    PlayingFromTheStart();
    Two(Playing(), (DoPause, ENV), (DoPlay, ENV.(polled := Some(EndOfStream))));
    EndKept(Playing());
    var kept := Run(Playing(), [(DoPause, ENV), (DoPlay, ENV.(polled := Some(EndOfStream)))]);
    Three(kept, (DoStart(OTHER, 1.0, None), ENV), (DoResume(OTHER_ASKED, Resolved(TARGET)), ENV),
          (DoResume(OTHER_PLACING, Placed(Some((50.0, false)), true)), Answers(0, Some(50.0))));
    OtherAsked(kept);
    var asked := Step(kept, DoStart(OTHER, 1.0, None), ENV);
    OtherResolved(asked);
    var resolved := Step(asked, DoResume(OTHER_ASKED, Resolved(TARGET)), ENV);
    OtherPlaced(resolved);
    var s := Step(resolved, DoResume(OTHER_PLACING, Placed(Some((50.0, false)), true)), Answers(0, Some(50.0)));
    One(s, (DoTick, ENV));
    EndHandled(s);
  }
}
