/** What the theorems about runs say of the controller itself: an object built afresh and driven
    through any events keeps every promise the state machine keeps. */
module PlayerSession {
  import opened Prelude
  import opened PlayerTypes
  import opened PlayerSpec
  import opened PlayerSafety
  import opened PlayerFinishing
  import opened PlayerMarks
  import opened PlayerFinished
  import opened PlayerAlive
  import opened PlayerBackend
  import opened Player

  /** A controller driven through `events`. It relies on the backend only when that holds the current
      file of its book; a start and a loaded book exclude each other, and once no start is left to
      run the book is the one last asked for; a finished book is silent, bears no mark, and was only
      ever written as finished at its full length; what plays is watched by the timer, and plays
      something unless the backend refused to play what was playing; what it shows as playing is what
      it last asked the backend to do; and what a replug or the end of a call resumed was its own
      pause. */
  method Live(now: Time, events: seq<(Event, Env)>) returns (c: PlayerController)
    ensures fresh(c) && c.View() == Run(Initial(now), events)
    ensures c.deck.nowPlaying.Some? && HoldsTrack(c.deck.nowPlaying.value) ==>
              c.deck.held == Some((c.deck.nowPlaying.value.book, c.deck.nowPlaying.value.currentTrack))
    ensures !(c.deck.nowPlaying.Some? && c.deck.pendingStart.Some?)
    ensures (forall t | t in c.deck.tasks :: !t.StartTask?) ==>
              c.deck.pendingStart.None?
              && AskedBy(None, events) == if c.deck.nowPlaying.Some? then Some(c.deck.nowPlaying.value.book) else None
    ensures EndedNow(c.deck) ==> !c.deck.nowPlaying.value.isPlaying && !c.marks.pausedByUnplug && !c.marks.pausedByCall
    ensures c.deck.nowPlaying.Some? && (c.deck.nowPlaying.value.isPlaying || WallClockArmed(c.deck.nowPlaying.value)) ==> c.ticking
    ensures forall w | w in c.saving.writes :: (w.finished <==> w.whileEnded) && (w.whileEnded ==> w.position == w.duration)
    ensures !RefusedDuring(Initial(now), events) ==> Alive(c.deck)
    ensures c.deck.nowPlaying.Some? && HoldsTrack(c.deck.nowPlaying.value) ==>
              c.deck.nowPlaying.value.isPlaying == AskedToPlay(c.deck.commands)
    ensures forall i | 0 <= i < |c.marks.log| ::
              && (c.marks.log[i].ReplugResumed? ==> Latest(c.marks.log[..i], UnplugMarks) == Some(UnplugPaused))
              && (c.marks.log[i].CallResumed? ==> Latest(c.marks.log[..i], CallMarks) == Some(CallPaused))
  {
    hide Run, RefusedDuring, Alive, Latest, AskedToPlay, Sounding, Obeyed;
    c := new PlayerController(now);
    c.RunAll(events);
    BackendHoldsTheCurrentFile(now, events);
    LastAskedWins(now, events);
    FinishedNeverPlays(now, events);
    FinishedHasNoMark(now, events);
    FinishedIsWrittenFinished(now, events);
    ResumesItsOwnPauseIff(now, events);
    SoundsAsShownIff(now, events);
    if !RefusedDuring(Initial(now), events) { PlayingHasSomethingToPlay(now, events); }
  }
}
