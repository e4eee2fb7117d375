/** A seek that was handed to the backend: what is reported until a reading confirms it, and how
    often it is asked again before playback gives up. */
module SeekLanding {
  import opened Prelude
  import opened PlayerTypes
  import opened PlayerSpec

  /** One observation of the backend, or the end of the reload an observation asked for: the file is
      loaded, or it could not be had, perhaps because the backend refused it. The answer to being asked
      to play at the end of a load is not looked at, so it is taken as given. */
  datatype SeekEvent = Reading(env: Env) | Reloaded(isLocal: bool, now: Time) | ReloadFailed(refused: bool)

  function SeekStep(s: State, e: SeekEvent): State {
    match e
    case Reading(env) => ObservePosition(s, env)
    case Reloaded(isLocal, now) =>
      if s.deck.nowPlaying.Some? && s.deck.nowPlaying.value.loadingTrack.Some? then s.(deck := SettleLoad(s.deck, isLocal, true, now)) else s
    case ReloadFailed(refused) =>
      if s.deck.nowPlaying.Some? && s.deck.nowPlaying.value.loadingTrack.Some? then s.(deck := FailedReload(s.deck, refused)) else s
  }

  function FailedReload(d: Deck, refused: bool): Deck
    requires d.nowPlaying.Some?
  {
    FailLoad(if refused then Commanded(d, LoadRefused(d.nowPlaying.value.book, d.nowPlaying.value.currentTrack)) else d)
  }

  function SeekRun(s: State, events: seq<SeekEvent>): State
    decreases |events|
  {
    if events == [] then s else SeekRun(SeekStep(s, events[0]), events[1..])
  }

  /** The reading is where a seek to `target` went: within a second and a half of it, unless it is the
      very start of the file, which a pipeline may still report, and the target is not; or as near to the
      end of the file, for a target past it. */
  predicate Confirms(target: real, within: real, fileLength: Option<real>) {
    || (-1.5 <= within - target <= 1.5 && (within == 0.0 ==> target <= 0.25))
    || (fileLength.Some? && 0.0 < fileLength.value < target && -1.5 <= within - fileLength.value <= 1.5)
  }

  lemma LandedIff(target: real, within: real, fileLength: Option<real>)
    ensures Landed(target, within, fileLength) <==> Confirms(target, within, fileLength)
  {
  }

  /** The event is a reading that confirms the pending seek. */
  predicate Lands(s: State, e: SeekEvent) {
    e.Reading? && e.env.observed.Some? && s.deck.nowPlaying.Some? && s.deck.nowPlaying.value.loadingTrack.None?
    && s.deck.nowPlaying.value.seek.pending
    && Confirms(s.deck.nowPlaying.value.seek.known, e.env.observed.value, e.env.fileLength)
  }

  predicate LandsDuring(s: State, events: seq<SeekEvent>)
    decreases |events|
  {
    events != [] && (Lands(s, events[0]) || LandsDuring(SeekStep(s, events[0]), events[1..]))
  }

  function SeekCount(commands: seq<Command>): nat {
    if commands == [] then 0 else SeekCount(commands[..|commands| - 1]) + if commands[|commands| - 1].SeekCommand? then 1 else 0
  }

  function ResetCount(commands: seq<Command>): nat {
    if commands == [] then 0 else ResetCount(commands[..|commands| - 1]) + if commands[|commands| - 1].ResetCommand? then 1 else 0
  }

  lemma Counted(commands: seq<Command>, c: Command)
    ensures SeekCount(commands + [c]) == SeekCount(commands) + if c.SeekCommand? then 1 else 0
    ensures ResetCount(commands + [c]) == ResetCount(commands) + if c.ResetCommand? then 1 else 0
  {
    assert (commands + [c])[..|commands|] == commands;
  }

  /** A seek to `target` within the current file has just been handed to the backend. */
  predicate JustSought(s: State, target: real) {
    s.deck.nowPlaying.Some?
    && var np := s.deck.nowPlaying.value;
       np.loadingTrack.None? && np.seek.pending && np.seek.known == target && np.seek.issuedAt.Some?
       && np.seek.retries == 0 && !np.seek.reloadUsed
  }

  /** A seek within the file the backend holds leaves it so, and one into another file releases the
      backend and loads that file. */
  lemma SeekHandsOver(s: State, seconds: real, env: Env)
    requires s.deck.nowPlaying.Some? && HoldsTrack(s.deck.nowPlaying.value)
    ensures var t := SeekTo(s, seconds, env);
            && t.deck.nowPlaying.Some?
            && var np := t.deck.nowPlaying.value;
            if np.currentTrack == s.deck.nowPlaying.value.currentTrack
            then JustSought(t, np.seek.known) && np.seek.issuedAt == Some(env.now) && t.deck.commands == s.deck.commands + [SeekCommand(np.seek.known)]
            else np.seek.pending && np.loadingTrack == Some(t.deck.loadGeneration) && t.deck.commands == s.deck.commands + [ResetCommand]
                 && LoadTask(np.book, t.deck.loadGeneration, Spawned) in t.deck.tasks
  {
    hide LocateTrack, ClampToBook, ChapterEndAt, SeekDeck;
    var before := s.deck.nowPlaying.value;
    var target := ClampToBook(seconds, before.duration);
    var np := Retargeted(before, target);
    var (track, within) := LocateTrack(np.tracks, target);
    SeekReaches(s.deck, np, track, within, env.now);
  }

  lemma SeekReaches(d: Deck, np: NowPlaying, track: nat, within: real, now: Time)
    requires HoldsTrack(np) && !np.seek.reloadUsed
    ensures var e := SeekDeck(d, np, track, within, now);
            && e.nowPlaying.Some? && e.nowPlaying.value.currentTrack == track && e.nowPlaying.value.book == np.book
            && (if track == np.currentTrack
                then e.nowPlaying.value == np.(seek := SeekState(within, true, Some(now), 0, false)) && e.commands == d.commands + [SeekCommand(within)]
                else e.nowPlaying.value.seek.pending && e.nowPlaying.value.loadingTrack == Some(e.loadGeneration) && e.commands == d.commands + [ResetCommand]
                     && LoadTask(np.book, e.loadGeneration, Spawned) in e.tasks)
  {
  }

  /** A reading that confirms the seek is the position from then on; so is any reading while no seek is
      pending. Nothing is asked of the backend. */
  lemma ReadingIsBelieved(s: State, env: Env)
    requires env.observed.Some? && s.deck.nowPlaying.Some? && s.deck.nowPlaying.value.loadingTrack.None?
    requires s.deck.nowPlaying.value.seek.pending ==> Lands(s, Reading(env))
    ensures var np, t := s.deck.nowPlaying.value, ObservePosition(s, env);
            && t.deck.commands == s.deck.commands
            && t.deck.nowPlaying == Some(np.(seek := if np.seek.pending then SeekState(env.observed.value, false, None, 0, false)
                                                     else np.seek.(known := env.observed.value)))
  {
    hide Landed;
    LandedIff(s.deck.nowPlaying.value.seek.known, env.observed.value, env.fileLength);
  }

  /** How many more times a pending seek can be asked of the backend: three times from here, and,
      if the file was not reloaded yet, once by the reload and three times after it. */
  function AsksLeft(np: NowPlaying): int {
    if np.loadingTrack.Some? then 1 + MAX_SEEK_REISSUES
    else MAX_SEEK_REISSUES - np.seek.retries + if np.seek.reloadUsed then 0 else 1 + MAX_SEEK_REISSUES
  }

  /** How many more times the backend can be released for it: by the reload, and to give up. */
  function ReleasesLeft(np: NowPlaying): int {
    if np.seek.issuedAt.None? && np.loadingTrack.None? then 0 else if np.seek.reloadUsed then 1 else 2
  }

  ghost predicate Pinned(s: State, target: real, seeks: nat, resets: nat) {
    s.deck.nowPlaying.Some?
    && var np := s.deck.nowPlaying.value;
    && np.seek.pending && np.seek.known == target && np.seek.retries <= MAX_SEEK_REISSUES
    && (np.loadingTrack.Some? ==> np.seek.reloadUsed && np.seek.issuedAt.None?)
    && SeekCount(s.deck.commands) + AsksLeft(np) <= seeks
    && ResetCount(s.deck.commands) + ReleasesLeft(np) <= resets
  }

  /** What an observation does to the seek and asks of the backend, verdict by verdict. */
  lemma ObservationEffect(s: State, env: Env)
    requires env.observed.Some? && s.deck.nowPlaying.Some? && s.deck.nowPlaying.value.loadingTrack.None?
    ensures var o := ObserveSeek(s.deck.nowPlaying.value.seek, env.observed.value, env.fileLength, env.now);
            var d := ObservePosition(s, env).deck;
            && d.nowPlaying.Some?
            && d.nowPlaying.value.loadingTrack.Some? == o.verdict.Reload?
            && d.nowPlaying.value.seek == (if o.verdict.Reload? then SeekState(o.verdict.target, true, None, 0, o.seek.reloadUsed) else o.seek)
            && d.commands == s.deck.commands + match o.verdict
                                               case Quiet => []
                                               case Reissue(target) => [SeekCommand(target)]
                                               case _ => [ResetCommand]
  {
    hide ObserveSeek, LoadTrackAt, Released;
    var np := s.deck.nowPlaying.value;
    var o := ObserveSeek(np.seek, env.observed.value, env.fileLength, env.now);
    LoadEffect(s.deck, np.(seek := o.seek), np.currentTrack, if o.verdict.Reload? then o.verdict.target else 0.0);
    ReleaseEffect(s.deck, np.(seek := o.seek, isPlaying := false, needsReload := true, hasError := true));
    assert s.deck.commands + [] == s.deck.commands;
  }

  /** Only giving up stops playback. */
  lemma ObservedBook(s: State, env: Env)
    requires env.observed.Some? && s.deck.nowPlaying.Some? && s.deck.nowPlaying.value.loadingTrack.None?
    ensures var o := ObserveSeek(s.deck.nowPlaying.value.seek, env.observed.value, env.fileLength, env.now);
            var d := ObservePosition(s, env).deck;
            && d.nowPlaying.Some?
            && if o.verdict.Stop? then !d.nowPlaying.value.isPlaying && d.nowPlaying.value.needsReload && d.nowPlaying.value.hasError
               else d.nowPlaying.value.isPlaying == s.deck.nowPlaying.value.isPlaying && d.nowPlaying.value.speed == s.deck.nowPlaying.value.speed
  {
    hide ObserveSeek, LoadTrackAt, Released;
    var np := s.deck.nowPlaying.value;
    var o := ObserveSeek(np.seek, env.observed.value, env.fileLength, env.now);
    LoadEffect(s.deck, np.(seek := o.seek), np.currentTrack, if o.verdict.Reload? then o.verdict.target else 0.0);
    ReleaseEffect(s.deck, np.(seek := o.seek, isPlaying := false, needsReload := true, hasError := true));
  }

  lemma LoadEffect(d: Deck, np: NowPlaying, track: nat, within: real)
    ensures var e := LoadTrackAt(d, np, track, within);
            && e.nowPlaying.Some? && e.nowPlaying.value.loadingTrack.Some?
            && e.nowPlaying.value.seek == SeekState(within, true, None, 0, np.seek.reloadUsed)
            && e.nowPlaying.value.isPlaying == np.isPlaying && e.nowPlaying.value.speed == np.speed
            && e.commands == d.commands + [ResetCommand]
  {
  }

  lemma ReleaseEffect(d: Deck, np: NowPlaying)
    ensures var e := Released(d, np);
            && e.nowPlaying == Some(np.(loadingTrack := None))
            && e.commands == d.commands + [ResetCommand]
  {
  }

  /** What is left to be tried after an observation, and what it told the backend. */
  lemma ObservedPins(np: NowPlaying, within: real, length: Option<real>, now: Time, o: Observation, e: NowPlaying, target: real)
    requires np.loadingTrack.None? && np.seek.pending && np.seek.known == target && np.seek.retries <= MAX_SEEK_REISSUES
    requires o == ObserveSeek(np.seek, within, length, now) && !Landed(target, within, length)
    requires e.loadingTrack.Some? == o.verdict.Reload?
    requires e.seek == if o.verdict.Reload? then SeekState(o.verdict.target, true, None, 0, o.seek.reloadUsed) else o.seek
    ensures e.seek.pending && e.seek.known == target && e.seek.retries <= MAX_SEEK_REISSUES
    ensures e.loadingTrack.Some? ==> e.seek.reloadUsed && e.seek.issuedAt.None?
    ensures AsksLeft(e) + (if o.verdict.Reissue? then 1 else 0) <= AsksLeft(np)
    ensures ReleasesLeft(e) + (if o.verdict.Reload? || o.verdict.Stop? then 1 else 0) <= ReleasesLeft(np)
    ensures o.verdict.Reissue? ==> o.verdict.target == target
  {
    hide Landed;
  }

  lemma ReadingPins(s: State, env: Env, target: real, seeks: nat, resets: nat)
    requires Pinned(s, target, seeks, resets) && !Lands(s, Reading(env))
    ensures Pinned(ObservePosition(s, env), target, seeks, resets)
  {
    if env.observed.Some? && s.deck.nowPlaying.value.loadingTrack.None? {
      hide ObservePosition, ObserveSeek, Landed, Confirms, SeekCount, ResetCount, AsksLeft, ReleasesLeft;
      var np := s.deck.nowPlaying.value;
      var o := ObserveSeek(np.seek, env.observed.value, env.fileLength, env.now);
      ObservationEffect(s, env);
      LandedIff(np.seek.known, env.observed.value, env.fileLength);
      ObservedPins(np, env.observed.value, env.fileLength, env.now, o, ObservePosition(s, env).deck.nowPlaying.value, target);
      Counted(s.deck.commands, SeekCommand(target));
      Counted(s.deck.commands, ResetCommand);
      assert s.deck.commands + [] == s.deck.commands;
    }
  }

  lemma ReloadEffect(d: Deck, isLocal: bool, now: Time)
    requires d.nowPlaying.Some? && d.nowPlaying.value.seek.known > 0.0
    ensures var np := d.nowPlaying.value;
            var e := SettleLoad(d, isLocal, true, now);
            && e.nowPlaying.Some? && e.nowPlaying.value.loadingTrack.None?
            && e.nowPlaying.value.seek == SeekState(np.seek.known, true, Some(now), 0, np.seek.reloadUsed)
            && e.nowPlaying.value.isPlaying == np.isPlaying && e.nowPlaying.value.speed == np.speed
            && var c := if SpeedChanged(np.speed, 1.0) then SpeedCommand(np.speed, np.seek.known) else SeekCommand(np.seek.known);
               e.commands == if np.isPlaying then d.commands + [c] + [PlayCommand(true)] else d.commands + [c]
  {
    hide SpeedChanged;
  }

  lemma ReloadPins(s: State, isLocal: bool, now: Time, target: real, seeks: nat, resets: nat)
    requires Pinned(s, target, seeks, resets) && target > 0.0 && s.deck.nowPlaying.value.loadingTrack.Some?
    ensures Pinned(s.(deck := SettleLoad(s.deck, isLocal, true, now)), target, seeks, resets)
  {
    hide SpeedChanged, SettleLoad, SeekCount, ResetCount;
    var np := s.deck.nowPlaying.value;
    var c := if SpeedChanged(np.speed, 1.0) then SpeedCommand(np.speed, target) else SeekCommand(target);
    ReloadEffect(s.deck, isLocal, now);
    Counted(s.deck.commands, c);
    Counted(s.deck.commands + [c], PlayCommand(true));
  }

  lemma FailureEffect(d: Deck, refused: bool)
    requires d.nowPlaying.Some?
    ensures var e := FailedReload(d, refused);
            && e.nowPlaying.Some? && e.nowPlaying.value.loadingTrack.None? && e.nowPlaying.value.seek == d.nowPlaying.value.seek
            && !e.nowPlaying.value.isPlaying
            && e.commands == d.commands + (if refused then [LoadRefused(d.nowPlaying.value.book, d.nowPlaying.value.currentTrack)] else []) + [ResetCommand]
  {
  }

  lemma FailurePins(s: State, refused: bool, target: real, seeks: nat, resets: nat)
    requires Pinned(s, target, seeks, resets) && s.deck.nowPlaying.value.loadingTrack.Some?
    requires s.deck.nowPlaying.value.seek.issuedAt.None?
    ensures Pinned(s.(deck := FailedReload(s.deck, refused)), target, seeks, resets)
  {
    hide FailedReload, SeekCount, ResetCount;
    FailureEffect(s.deck, refused);
    var c := LoadRefused(s.deck.nowPlaying.value.book, s.deck.nowPlaying.value.currentTrack);
    Counted(s.deck.commands, c);
    Counted(s.deck.commands, ResetCommand);
    Counted(s.deck.commands + [c], ResetCommand);
    assert s.deck.commands + [] == s.deck.commands;
  }

  lemma {:induction false} RunPins(s: State, events: seq<SeekEvent>, target: real, seeks: nat, resets: nat)
    requires Pinned(s, target, seeks, resets) && target > 0.0 && !LandsDuring(s, events)
    ensures Pinned(SeekRun(s, events), target, seeks, resets)
    decreases |events|
  {
    hide ObservePosition, SettleLoad, Lands, FailedReload, SeekCount, ResetCount;
    if events != [] {
      match events[0] {
        case Reading(env) => ReadingPins(s, env, target, seeks, resets);
        case Reloaded(isLocal, now) =>
          if s.deck.nowPlaying.Some? && s.deck.nowPlaying.value.loadingTrack.Some? { ReloadPins(s, isLocal, now, target, seeks, resets); }
        case ReloadFailed(refused) =>
          if s.deck.nowPlaying.Some? && s.deck.nowPlaying.value.loadingTrack.Some? { FailurePins(s, refused, target, seeks, resets); }
      }
      RunPins(SeekStep(s, events[0]), events[1..], target, seeks, resets);
    }
  }

  /** Whatever the backend reports and however long it takes, until a reading confirms the seek the
      position reported is its target, capped at the file's length; on the way there it is asked of
      the backend at most seven more times (three re-issues, the reload's own seek, three more) and
      the backend is released at most twice (for one reload, and to stop). */
  lemma TargetIsReportedUntilItLands(s: State, events: seq<SeekEvent>, target: real, reading: Option<real>)
    requires JustSought(s, target) && target > 0.0 && !LandsDuring(s, events)
    ensures var r := SeekRun(s, events);
            && r.deck.nowPlaying.Some?
            && WithinTrack(r.deck.nowPlaying.value, reading) == Capped(r.deck.nowPlaying.value, target)
            && SeekCount(r.deck.commands) <= SeekCount(s.deck.commands) + 7
            && ResetCount(r.deck.commands) <= ResetCount(s.deck.commands) + 2
  {
    hide SeekRun, LandsDuring, SeekCount, ResetCount;
    RunPins(s, events, target, SeekCount(s.deck.commands) + 7, ResetCount(s.deck.commands) + 2);
  }

  function Capped(np: NowPlaying, target: real): real {
    if np.currentTrack < |np.tracks| && np.tracks[np.currentTrack].duration > 0.0 then Min(target, np.tracks[np.currentTrack].duration) else target
  }

  // ---------------------------------------------------------------- giving up

  /** The same seek asked of the backend `n` times. */
  function Again(target: real, n: nat): seq<Command> { seq(n, _ => SeekCommand(target)) }

  /** What the end of the reload asks: the seek at the book's speed, and to play if it was playing. */
  function ReloadAsks(from: NowPlaying, target: real): seq<Command> {
    [if SpeedChanged(from.speed, 1.0) then SpeedCommand(from.speed, target) else SeekCommand(target)]
    + if from.isPlaying then [PlayCommand(true)] else []
  }

  /** Everything a seek can cost before playback gives up: three re-issues, the reload, and three
      more. */
  function Everything(from: NowPlaying, target: real): seq<Command> {
    Again(target, 3) + [ResetCommand] + ReloadAsks(from, target) + Again(target, 3)
  }

  /** What has been asked of the backend since the book `from` was sought in, while the seek is still
      being waited for. */
  function AskedSoFar(from: NowPlaying, np: NowPlaying, target: real): seq<Command> {
    if !np.seek.reloadUsed then Again(target, np.seek.retries)
    else if np.loadingTrack.Some? then Again(target, MAX_SEEK_REISSUES) + [ResetCommand]
    else Again(target, MAX_SEEK_REISSUES) + [ResetCommand] + ReloadAsks(from, target) + Again(target, np.seek.retries)
  }

  /** A seek that no longer is waited for: playback gave up, or the reload failed. */
  predicate Abandoned(np: NowPlaying) { np.loadingTrack.None? && np.seek.issuedAt.None? }

  ghost predicate Accounted(s: State, from: NowPlaying, target: real, before: seq<Command>) {
    s.deck.nowPlaying.Some?
    && var np := s.deck.nowPlaying.value;
    && np.seek.pending && np.seek.known == target && np.seek.retries <= MAX_SEEK_REISSUES
    && (np.loadingTrack.Some? ==> np.seek.reloadUsed && np.seek.issuedAt.None?)
    && (!Abandoned(np) ==>
          && np.isPlaying == from.isPlaying && np.speed == from.speed
          && s.deck.commands == before + AskedSoFar(from, np, target))
  }

  lemma OnceMore(target: real, n: nat)
    ensures Again(target, n) + [SeekCommand(target)] == Again(target, n + 1)
    ensures Again(target, 0) == []
  {
  }

  lemma ReadingAccounts(s: State, env: Env, from: NowPlaying, target: real, before: seq<Command>)
    requires Accounted(s, from, target, before) && !Lands(s, Reading(env))
    ensures Accounted(ObservePosition(s, env), from, target, before)
  {
    var np := s.deck.nowPlaying.value;
    if env.observed.Some? && np.loadingTrack.None? {
      hide ObservePosition, Landed, ReloadAsks;
      LandedIff(np.seek.known, env.observed.value, env.fileLength);
      ObservationEffect(s, env);
      ObservedBook(s, env);
      OnceMore(target, np.seek.retries);
      assert s.deck.commands + [] == s.deck.commands;
      var e := ObservePosition(s, env).deck.nowPlaying.value;
      if ObserveSeek(np.seek, env.observed.value, env.fileLength, env.now).verdict.Reissue? {
        assert AskedSoFar(from, e, target) == AskedSoFar(from, np, target) + [SeekCommand(target)];
      }
    }
  }

  lemma ReloadAccounts(s: State, isLocal: bool, now: Time, from: NowPlaying, target: real, before: seq<Command>)
    requires Accounted(s, from, target, before) && target > 0.0 && s.deck.nowPlaying.value.loadingTrack.Some?
    ensures Accounted(s.(deck := SettleLoad(s.deck, isLocal, true, now)), from, target, before)
  {
    hide SettleLoad, SpeedChanged;
    ReloadEffect(s.deck, isLocal, now);
    OnceMore(target, 0);
    var e := SettleLoad(s.deck, isLocal, true, now);
    assert e.commands == s.deck.commands + ReloadAsks(from, target);
    assert AskedSoFar(from, e.nowPlaying.value, target) == AskedSoFar(from, s.deck.nowPlaying.value, target) + ReloadAsks(from, target);
  }

  lemma {:induction false} RunAccounts(s: State, events: seq<SeekEvent>, from: NowPlaying, target: real, before: seq<Command>)
    requires Accounted(s, from, target, before) && target > 0.0 && !LandsDuring(s, events)
    ensures Accounted(SeekRun(s, events), from, target, before)
    decreases |events|
  {
    hide ObservePosition, SettleLoad, Lands, FailedReload, AskedSoFar;
    if events != [] {
      match events[0] {
        case Reading(env) => ReadingAccounts(s, env, from, target, before);
        case Reloaded(isLocal, now) =>
          if s.deck.nowPlaying.Some? && s.deck.nowPlaying.value.loadingTrack.Some? { ReloadAccounts(s, isLocal, now, from, target, before); }
        case ReloadFailed(refused) =>
          if s.deck.nowPlaying.Some? && s.deck.nowPlaying.value.loadingTrack.Some? { FailureEffect(s.deck, refused); }
      }
      RunAccounts(SeekStep(s, events[0]), events[1..], from, target, before);
    }
  }

  /** The next reading gives up: it does not land, and its verdict is to stop. */
  predicate GivesUp(s: State, env: Env) {
    env.observed.Some? && s.deck.nowPlaying.Some? && s.deck.nowPlaying.value.loadingTrack.None?
    && ObserveSeek(s.deck.nowPlaying.value.seek, env.observed.value, env.fileLength, env.now).verdict.Stop?
  }

  /** Over every run that follows a seek and has not landed: a reading gives up if and only if it does
      not land, comes at least two seconds after the last request, and by then the backend was asked
      for exactly three re-issues, the reload and its own seek, and three more, and nothing else. */
  lemma GivesUpIffEverythingWasTried(s: State, events: seq<SeekEvent>, target: real, env: Env)
    requires JustSought(s, target) && target > 0.0 && !LandsDuring(s, events)
    ensures var r := SeekRun(s, events);
            && r.deck.nowPlaying.Some?
            && var np := r.deck.nowPlaying.value;
            (GivesUp(r, env) <==>
               && env.observed.Some? && !Lands(r, Reading(env))
               && np.seek.issuedAt.Some? && env.now >= np.seek.issuedAt.value + 2000
               && r.deck.commands == s.deck.commands + Everything(s.deck.nowPlaying.value, target))
  {
    hide SeekRun, LandsDuring, ReloadAsks;
    var from, before := s.deck.nowPlaying.value, s.deck.commands;
    assert before + AskedSoFar(from, from, target) == before;
    RunAccounts(s, events, from, target, before);
    var r := SeekRun(s, events);
    var np := r.deck.nowPlaying.value;
    if env.observed.Some? { LandedIff(np.seek.known, env.observed.value, env.fileLength); }
    if np.seek.issuedAt.Some? {
      assert |Everything(from, target)| == 7 + |ReloadAsks(from, target)|;
      if np.seek.reloadUsed && np.seek.retries == MAX_SEEK_REISSUES {
        assert AskedSoFar(from, np, target) == Everything(from, target);
      } else {
        assert |AskedSoFar(from, np, target)| < |Everything(from, target)|;
      }
    }
  }

  /** Giving up keeps the target for the next play: it stays pinned, playback stops, and the backend
      is released to be loaded again. */
  lemma GivingUpKeepsTheTarget(s: State, events: seq<SeekEvent>, target: real, env: Env)
    requires JustSought(s, target) && target > 0.0 && !LandsDuring(s, events) && GivesUp(SeekRun(s, events), env)
    ensures var after := SeekRun(s, events + [Reading(env)]);
            && after.deck.nowPlaying.Some?
            && after.deck.nowPlaying.value.seek.pending && after.deck.nowPlaying.value.seek.known == target
            && !after.deck.nowPlaying.value.isPlaying && after.deck.nowPlaying.value.needsReload && after.deck.nowPlaying.value.hasError
            && after.deck.held.None?
            && after.deck.commands == s.deck.commands + Everything(s.deck.nowPlaying.value, target) + [ResetCommand]
  {
    hide SeekRun, LandsDuring, Everything, JustSought;
    GivesUpIffEverythingWasTried(s, events, target, env);
    SeekRunsOn(s, events, Reading(env));
    var r := SeekRun(s, events);
    ObservationEffect(r, env);
    ObservedBook(r, env);
    StopReleases(r, env);
    KeptTarget(s, events, target);
  }

  lemma KeptTarget(s: State, events: seq<SeekEvent>, target: real)
    requires JustSought(s, target) && target > 0.0 && !LandsDuring(s, events)
    ensures var r := SeekRun(s, events);
            r.deck.nowPlaying.Some? && r.deck.nowPlaying.value.seek.pending && r.deck.nowPlaying.value.seek.known == target
  {
    hide SeekRun, LandsDuring, AskedSoFar;
    var from, before := s.deck.nowPlaying.value, s.deck.commands;
    assert before + AskedSoFar(from, from, target) == before by { OnceMore(target, 0); SoughtNothing(from, target); }
    RunAccounts(s, events, from, target, before);
  }

  lemma SoughtNothing(np: NowPlaying, target: real)
    requires !np.seek.reloadUsed && np.seek.retries == 0
    ensures AskedSoFar(np, np, target) == []
  {
  }

  lemma StopReleases(s: State, env: Env)
    requires GivesUp(s, env)
    ensures ObservePosition(s, env).deck.held.None?
  {
    hide ObserveSeek;
  }

  lemma {:induction false} SeekRunsOn(s: State, events: seq<SeekEvent>, e: SeekEvent)
    ensures SeekRun(s, events + [e]) == SeekStep(SeekRun(s, events), e)
    decreases |events|
  {
    hide SeekStep;
    if events == [] {
      assert [e][1..] == [];
    } else {
      assert (events + [e])[1..] == events[1..] + [e];
      SeekRunsOn(SeekStep(s, events[0]), events[1..], e);
    }
  }

  // ---------------------------------------------------------------- a seek to the very start

  /** A reading ten seconds in, two seconds after the last time the seek was asked for. */
  function Elsewhere(at: Time): SeekEvent {
    Reading(Env(at, Some(10.0), None, None, None, true, true, true, true, true, None, false, false))
  }

  function LosingRun(asked: Time): seq<SeekEvent> {
    [Elsewhere(asked + 2000), Elsewhere(asked + 4000), Elsewhere(asked + 6000), Elsewhere(asked + 8000),
     Reloaded(false, asked + 9000), Elsewhere(asked + 10_000)]
  }

  lemma Unfold(s: State, e: SeekEvent, rest: seq<SeekEvent>)
    ensures SeekRun(s, [e] + rest) == SeekRun(SeekStep(s, e), rest)
    ensures LandsDuring(s, [e] + rest) <==> Lands(s, e) || LandsDuring(SeekStep(s, e), rest)
  {
    assert ([e] + rest)[1..] == rest;
  }

  lemma EmptyRun(s: State)
    ensures SeekRun(s, []) == s && !LandsDuring(s, [])
  {
  }

  lemma ReloadFromTheStart(d: Deck, isLocal: bool, now: Time)
    requires d.nowPlaying.Some? && d.nowPlaying.value.seek.known == 0.0
    ensures var e := SettleLoad(d, isLocal, true, now);
            && e.nowPlaying.Some? && e.nowPlaying.value.loadingTrack.None?
            && e.nowPlaying.value.seek == SeekState(0.0, false, None, 0, d.nowPlaying.value.seek.reloadUsed)
  {
  }

  /** The reload a seek to the very start ends in is taken to have landed without a reading: a
      pipeline that then reports ten seconds is believed. */
  lemma StartTargetIsLost(s: State)
    requires JustSought(s, 0.0)
    ensures var events := LosingRun(s.deck.nowPlaying.value.seek.issuedAt.value);
            && !LandsDuring(s, events)
            && SeekRun(s, events).deck.nowPlaying.Some?
            && SeekRun(s, events).deck.nowPlaying.value.seek.known == 10.0
            && !SeekRun(s, events).deck.nowPlaying.value.seek.pending
  {
    hide ObservePosition, SettleLoad, SeekRun, LandsDuring;
    var t := s.deck.nowPlaying.value.seek.issuedAt.value;
    var events := LosingRun(t);
    var s1 := SeekStep(s, events[0]);
    ObservationEffect(s, events[0].env);
    var s2 := SeekStep(s1, events[1]);
    ObservationEffect(s1, events[1].env);
    var s3 := SeekStep(s2, events[2]);
    ObservationEffect(s2, events[2].env);
    var s4 := SeekStep(s3, events[3]);
    ObservationEffect(s3, events[3].env);
    var s5 := SeekStep(s4, events[4]);
    ReloadFromTheStart(s4.deck, false, t + 9000);
    var s6 := SeekStep(s5, events[5]);
    ObservationEffect(s5, events[5].env);
    assert SeekRun(s6, []) == s6 && !LandsDuring(s6, []) by { EmptyRun(s6); }
    assert events == [events[0]] + ([events[1]] + ([events[2]] + ([events[3]] + ([events[4]] + ([events[5]] + [])))));
    Unfold(s, events[0], [events[1]] + ([events[2]] + ([events[3]] + ([events[4]] + ([events[5]] + [])))));
    Unfold(s1, events[1], [events[2]] + ([events[3]] + ([events[4]] + ([events[5]] + []))));
    Unfold(s2, events[2], [events[3]] + ([events[4]] + ([events[5]] + [])));
    Unfold(s3, events[3], [events[4]] + ([events[5]] + []));
    Unfold(s4, events[4], [events[5]] + []);
    Unfold(s5, events[5], []);
  }

  /** The pinned target survives every run without a landing exactly when it is not the file's very
      start. */
  lemma TargetIsKeptIffNotTheStart(s: State, target: real)
    requires JustSought(s, target) && target >= 0.0
    ensures target > 0.0 <==>
            forall events :: !LandsDuring(s, events) ==>
              SeekRun(s, events).deck.nowPlaying.Some? && SeekRun(s, events).deck.nowPlaying.value.seek.pending
              && SeekRun(s, events).deck.nowPlaying.value.seek.known == target
  {
    hide SeekRun, LandsDuring, SeekCount, ResetCount;
    if target > 0.0 {
      forall events | !LandsDuring(s, events)
        ensures SeekRun(s, events).deck.nowPlaying.Some? && SeekRun(s, events).deck.nowPlaying.value.seek.pending
                && SeekRun(s, events).deck.nowPlaying.value.seek.known == target
      {
        RunPins(s, events, target, SeekCount(s.deck.commands) + 7, ResetCount(s.deck.commands) + 2);
      }
    } else {
      StartTargetIsLost(s);
    }
  }
}
