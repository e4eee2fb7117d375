# A Dafny model of the audiobook client's stateful and text-processing cores

The client plays audiobooks streamed from a server or downloaded to the device. This project models
the parts of it whose correctness is hard to see from the code, and proves what they promise.

## What is modelled

**The player** (`PlayerTypes`, `PlayerSpec`, `Player` and the files of proofs beside them). The
controller runs on one thread, but its asynchronous tasks suspend at every await while the listener,
the tick timer, headphones, phone calls and other tasks change the state. `PlayerSpec` is a state
machine whose step is one uninterrupted stretch of code: an operation, a tick, or what a suspended
task runs when it is resumed. Suspended tasks are records in a multiset, resumed in any order. What
the backend, the clock, the network and the database answer during a stretch is the step's `Env` and
`Outcome`, so they are adversaries. Positions are reals; clock readings are milliseconds. `Player`
is the controller as an object updated in place: every method is proved to leave exactly the state
the machine gives. `PlayerSession.Live` drives such an object through any events and states the
theorems about runs of it. The state carries its own history (`commands`, `held`, `log`, `writes`),
which is what the theorems speak of.

- `PlayerSafety`: no stale continuation leaves another book's or file's audio loaded; the book last
  asked for wins; a retired player stays empty.
- `PlayerFinishing`, `PlayerFinished`: what finishes a book and what un-finishes it; a finished book
  is written finished, and the tick timer is installed exactly while it is needed.
- `PlayerMarks`: a replug or the end of a call resumes only the pause it made, and exactly when that
  pause was the last thing decided.
- `SeekLanding`: until a seek lands, its target is what is reported; everything that is tried before
  playback gives up.
- `PlayerPositions`: a book-level position maps to a file and back; a seek is reported back in seconds.
- `PlayerWrites`: what progress is asked to be written when, and that it is where the book was.
- `PlayerDeadlines`: what happens after how long, and how often it is tried.
- `PlayerAlive`: what says it is playing has something to play, and the one step that breaks it.
- `PlayerBackend`: what is shown as playing is what the backend was last asked; whose event a tick handles.
- `PlayerFailures`: runs from a new player in which a promise fails.

**Progress writes** (`ProgressQueues`, `ProgressWriter`). Two queues with coalescing, each emptied by
an asynchronous runner. `asked`, `ran` and `started` are the history of requests, local halves that
have run and pushes that have started; `LocalLine` and `PushLine` lay a writer's work out in one
line, which every step but a request leaves as it is.

**HTML to Pango markup** (`RichText`, `RichTextMarkup`, `RichTextMeaning`, `RichTextTrees`,
`RichTextDocuments`, `RichTextPieces`, `RichTextScanner`). The scanner with its output buffer and its stack of open tags and positions, an
independent reader of the markup that is promised, and the proof that every input gives it. Three
grammars of HTML (styled trees, documents, and text with references and markup that is dropped) say
what a description is shown as, apart from the scanner. Positions are character indices.

**The source rewriter for string extraction** (`Xgettext`, `XgettextStrings`, `XgettextRust`,
`XgettextValues`, `XgettextFailures`). The rewriter's pass; a C lexer, which stands for the extractor; a
lexer of Rust, written from the language and not from the rewriter, which says what the strings of the
source are; and what the strings mean to either language.

**Log scrubbing** (`LogPrivacy`), **download batches** (`DownloadBatches`, `Downloads`), **placeholder substitution** (`I18n`) and
**startup-sync claims** (`SyncCoordinator`, in which a completion under way is a frame on a stack, so
that its waiters may call back in).

## Where the code does not do what is promised of it

Each of these is a lemma with the input or the run, beside one that says exactly when the promise
holds.

- A replug or the end of a call resumes a book that was asked for again while it was still starting,
  after it failed to start (`ReplugResumesWhatWasAskedAgain`); one that was marked finished meanwhile is
  played for a moment, and the mark then wins (`ReplugResumesWhatWasFinished`,
  `CallEndResumesWhatWasFinished`). Neither touches the pause marks (`ResumesItsOwnPauseIff`).
- An event kept for the tick outlives a start, a release or a load, and is then taken for one of the new
  file's: it can finish another book (`AnotherBookIsFinished`, `KeptEventIsOfTheFileHeldIff`).
- The answers to being asked to play at the end of a load or a start, and to pause at a finished mark, the
  end of a book or a sleep timer, are not looked at, so that a refusal leaves the backend doing something
  else than is shown (`UnplayedStartIsShownPlaying`, `UnpausedMarkGoesOnSounding`, `SoundsAsShownIff`).
- A `play` while already playing, refused by the backend, leaves the book shown as playing with
  nothing loaded (`RefusedPlayIsSilent`, `PlayIsAliveUnlessRefused`, `StepAliveIff`).
- A seek to the very start of a file whose reload ends before it lands is taken to have landed
  (`StartTargetIsLost`, `SeekToTheStartIsLost`, `TargetIsKeptIffNotTheStart`).
- A position returned to while an older one's row is being made is asked to be pushed alone, and the older
  one's push then replaces it (`OvertakenPushIsLost`, `DirectPushKeepsOrderIff`).
- A second download start of an item whose batch is live can report success for tracks that then fail
  (`SecondStartLosesAFailure`, `StartIsAccountedIff`).
- Converting the output for tag-free input again changes it when entities put two blanks side by side
  (`EncodedBlanksAreNotAFixpoint`, `TagFreeOutputIsAFixpointIff`).
- The rewriter loses the newlines inside a `'\…'` literal or a `\u{…}` escape and gains one for each
  escape that names a newline (`LiteralLosesALine`, `EscapeGainsALine`); it keeps the number of lines
  exactly when these are as many (`LineCountIsKeptIff`).
- The escaped quote is read only up to its backslash's quote, and what follows may be taken for another
  literal (`EscapedQuoteIsMisread`, `CharLiteralIsReadIff`, `EscapedQuoteIsReadIff`).
  The extractor can then find a string where the program has none (`MisreadStringIsFound`).
- An escape that names a quote or a backslash is written as it is, and the extractor reads another string
  than the program (`NamedQuoteIsLost`, `StringsAreFoundIff`).
- The rewriter's own comment says that `br"…"` becomes `""`. The code, which is followed, does not treat it
  as raw, because the `b` before it is a name character: it is found unless it is empty
  (`RawByteStringIsFound`, `StringsAreFoundIff`), escapes are read in it (`RawBackslashEscapes`), and a quote
  in it may hide its end and the strings behind it (`RawCommentHidesAString`).
- A string found as it is spelled may mean something else to the extractor, since C reads on where an escape
  in digits ends in Rust (`ThirdDigitIsSwallowed`, `SameValueIff`, `MessagesAreFoundIff`).

## Model

| member | source | states |
|---|---|---|
| PlayerSafety.BackendHoldsTheCurrentFile | app/src/player.rs:899-945 | In every run from a new player, a backend that counts as holding the track last accepted, since its last release, exactly the current track of the current book. |
| PlayerSafety.LastAskedWins | app/src/player.rs:1898-2062 | In every run, a pending start and a loaded book exclude each other; once every start task has run, in any order and with any result, the loaded or failed book is the one last asked for. |
| PlayerSafety.RetiredStaysEmpty | app/src/player.rs:1690-1714 | Unless a book is asked for after the last retirement, no task still suspended makes a book pending or loaded. |
| PlayerSafety.NoLoadIsLeftHanging | app/src/player.rs:1269-1425 | In every run, once no load task is suspended, no book with files is marked as loading. |
| PlayerSafety.StepSafe | app/src/player.rs:742-790 | Every operation, tick and resumed stretch keeps the load protocol: generations bound every suspended task, and a task that is still current agrees with the book, the track and what the backend holds. |
| PlayerFinishing.FinishedNeverPlays | app/src/player.rs:1655-1678 | In every run, a finished book is not playing, and whatever plays or counts down by the clock has the tick timer installed. |
| PlayerFinishing.FinishedIsWrittenFinished | app/src/player.rs:1108-1135 | In every run, a progress value is recorded finished exactly when the book was finished at that moment, and then at its full duration. |
| PlayerFinishing.OnlyTheEndFinishes | app/src/player.rs:3403-3417 | A step that makes a book finished is a finished mark, a start carrying that mark, or a tick handling an end-of-stream judged real on the last track. |
| PlayerFinished.FinishedHasNoMark | app/src/player.rs:3404-3417 | In every run, a finished book carries neither pause mark, so neither a replug nor a call's end can start it again. |
| PlayerFinished.FinishedUnlessIff | app/src/player.rs:3122-3125 | In a state of a run, a step leaves a finished book the same finished book if and only if it does not seek in it, restart it or replace it, by the listener or by adopting another device's position. |
| PlayerFinished.FinishedStaysFinished | app/src/player.rs:3403-3417 | Once a run has finished a book, it stays that finished book through any further events, calls and replugs included, until such a step. |
| PlayerFinishing.TickEnding | app/src/player.rs:3338-3417 | After a tick the book is finished if and only if it was before, or the tick took an end-of-stream, kept or just posted, in the last file that came less than 60 s before the file's known length, or within 5 s of where the same file ended before, or with no length known. |
| PlayerFinishing.EndIsJudged | app/src/player.rs:1202-1241 | With a known length an end is real if and only if it comes less than 60 s early, or less than a tenth early in a file that is not the last, or within 5 s of the spot remembered for the file; otherwise it is unclear in the last tenth and premature before, and its spot is remembered. |
| PlayerFinishing.TickHandlesEnd | app/src/player.rs:3350-3470 | The real end of a file that is not the last moves on to the start of the next; an unclear one stops there; a premature one stops a downloaded file with an error and recovers a stream at the position reported. |
| PlayerBackend.KeptEventIsOfTheFileHeldIff | app/src/player.rs:929-932 | In every run, an event kept for the tick is about the file the backend holds if and only if the load generation is still the one it was kept under: no start, release or load came between. |
| PlayerFailures.AnotherBookIsFinished | app/src/player.rs:3341-3344 | A run: an end-of-stream is kept as a paused book resumes, another book is asked for and loaded half-way, and the next tick finishes that book and writes it finished. |
| PlayerBackend.SoundsAsShownIff | app/src/player.rs:1403-1425 | In every run, while the backend holds the file, the book is shown as playing exactly when the backend was last asked to play that file; the backend does what is shown if and only if it obeyed that last request, or was doing so anyway. |
| PlayerBackend.StepCarries | app/src/player.rs:899-945 | Every step keeps what is shown in line with what the backend was asked, and moves to a new load generation exactly when it releases or hands over a file. |
| PlayerFailures.UnplayedStartIsShownPlaying | app/src/player.rs:2331-2336 | A run: the play at the end of a start is refused, nobody looks, and the book is shown as playing while paused. |
| PlayerFailures.UnpausedMarkGoesOnSounding | app/src/player.rs:921-927 | A run: the pause of a finished mark is refused, nobody looks, and the finished book goes on sounding. |
| PlayerFinishing.TickStopsItself | app/src/player.rs:3548-3573 | After a tick that does not move on to the next file, the timer stays installed if and only if something plays or a wall-clock sleep timer is armed. |
| PlayerMarks.ResumesItsOwnPauseIff | app/src/player.rs:2880-3026 | In every run a pause is never marked as both the unplug's and the call's, each mark is set exactly while its pause is the last thing to have touched it, and what a replug or a call's end resumed was that pause; nothing was decided since if and only if the book was not, while still starting, asked for again or marked finished. |
| PlayerMarks.UnmeddledRunsResumeUntouched | app/src/player.rs:2880-2885 | In a run that asks nothing of a book while it is starting, every resumption lifts its own pause with nothing decided since. |
| PlayerMarks.StepMarks | app/src/player.rs:1826-1851 | Every step keeps the marks in step with the history; only an unplug and a call's start leave one, and asking again for the starting book or marking it finished touches none. |
| PlayerFailures.ReplugResumesWhatWasAskedAgain | app/src/player.rs:1919-1930 | A run: the book is asked for, unplugged, asked for again and fails; the replug then starts it once more. |
| PlayerFailures.ReplugResumesWhatWasFinished | app/src/player.rs:1831-1837 | A run: the starting book is unplugged and marked finished; the replug asks to play it, so that once loaded it is played for a moment before the mark stops it, finished; without the replug it is never played. |
| PlayerFailures.MarkWins | app/src/player.rs:2328-2391 | A start that ends with a finished mark waiting leaves a finished book that is not playing, asked to play first if it was wanted to. |
| PlayerFailures.CallEndResumesWhatWasFinished | app/src/player.rs:3000-3026 | A run: the same with the end of an unanswered call. |
| PlayerMarks.ReplugResumesOnlyWhenSettled | app/src/player.rs:2940-2962 | In every run, a replug resumes after its settling time if and only if no other headphone event came since, its unplug's pause is the last thing to have touched the mark, and playback is paused. |
| PlayerMarks.CallEndResumesOnlyUnanswered | app/src/player.rs:3000-3026 | In every run, a call's end resumes if and only if the call was incoming and unanswered, its pause is the last thing to have touched the mark, and playback is paused; else book and backend are left as they are. |
| SeekLanding.SeekHandsOver | app/src/player.rs:3121-3160 | A seek within the file the backend holds is handed over and waited for, with nothing asked again yet; one into another file releases the backend and loads that file. |
| SeekLanding.ReadingIsBelieved | app/src/player.rs:986-1014 | A reading within a second and a half of the target, not the very start for a target past a quarter second, or as near to the file's end for a target past it, confirms the seek and is the position from then on. |
| SeekLanding.TargetIsReportedUntilItLands | app/src/player.rs:986-1085 | Over any readings, completions and failures of the reload, until a reading confirms the seek the position reported is its target, capped at the file's length; at most seven further seeks and two releases are made. |
| SeekLanding.GivesUpIffEverythingWasTried | app/src/player.rs:1015-1053 | In every such run, a reading gives up if and only if it does not land, comes two seconds or more after the last request, and the backend was asked since the seek for exactly three re-issues, the reload with its own seek, and three more. |
| SeekLanding.GivingUpKeepsTheTarget | app/src/player.rs:1066-1083 | After giving up the target is still pinned, playback has stopped, and the backend is released to be loaded again. |
| SeekLanding.StartTargetIsLost | app/src/player.rs:1411-1417 | After any seek to 0, readings elsewhere end in a reload that is taken as landed without a reading, and a reading of ten seconds is then believed. |
| PlayerFailures.SeekToTheStartIsLost | app/src/player.rs:1403-1417 | The same as one run from a new player: start, seek to 0, four ticks, the reload's stretches, and a tick. |
| SeekLanding.TargetIsKeptIffNotTheStart | app/src/player.rs:1403-1417 | The target survives every run without a landing if and only if it is not 0. |
| PlayerPositions.LocateTrackReaches | app/src/player.rs:3126 | For contiguous files, a position within the book maps to a file and an offset inside it that denote that position, to a microsecond. |
| PlayerPositions.SeekIsReportedBack | app/src/player.rs:3105-3158 | Right after a seek, whatever the backend reads, the position reported is the one asked for, from 0 to one second before the end; 0 below that, one second before the end beyond it, the end of a book of at most a second, and anything in a book of unknown length. |
| PlayerWrites.UnfinishedIsWhereItWas | app/src/player.rs:1116-1135 | In every run, every unfinished value asked for is the position reported at the step that asked for it: the file's offset plus the pinned target, or plus the reading, not past the file's length; or 0 when the listener resets the book or plays it again from its end. |
| PlayerWrites.StepFollows | app/src/player.rs:1151-1190 | Any step in any state only adds values, each of them finished, the position reported before or after the step, or the start of a book started over. |
| PlayerWrites.PauseAsks | app/src/player.rs:2710-2760 | A pause asks for exactly one forced value, the position reported where it stopped, unless writes are held back or the book is still starting. |
| PlayerWrites.SwitchAsks | app/src/player.rs:1926-1940 | Starting another book asks for exactly one value of the one before, held back or not. |
| PlayerWrites.RetireAsks | app/src/player.rs:1690-1714 | Retiring asks for exactly one value of the loaded book. |
| PlayerWrites.SleepAsks | app/src/player.rs:3528-3548 | A sleep timer that is reached asks for exactly one value, held back or not. |
| PlayerWrites.StopAsks | app/src/player.rs:3350-3470 | An unclear end and a stream error ask for exactly one value, the position playback stopped at. |
| PlayerWrites.HeartbeatAsks | app/src/player.rs:3551-3562 | While a book plays and no write is held back, a tick asks for its position, unforced, exactly when five seconds have passed since the last value. |
| PlayerWrites.PlayAsks | app/src/player.rs:2424-2480 | Playing asks for nothing, but for the start of a finished book that is started over. |
| PlayerDeadlines.PauseLandsOrIsReleased | app/src/player.rs:1525-1572 | An accepted pause that is not touched: while the pipeline is not paused nine looks change nothing and the tenth releases it and marks the book for a reload. |
| PlayerDeadlines.PauseIsLookedAfter | app/src/player.rs:2710-2760 | Every accepted pause of a held file leaves such a confirmation behind. |
| PlayerDeadlines.FileIsAwaited | app/src/player.rs:1374-1393 | A file handed over is waited for over any 150 looks that read no position, and with the next is taken at the position asked for. |
| PlayerDeadlines.StartIsAwaitedIff | app/src/player.rs:2284-2300 | A start waits for its file if and only if it has a position or a speed to set, no position is read and it has looked fewer than 150 times. |
| PlayerDeadlines.LongPauseAsksTheServerIff | app/src/player.rs:2557-2583 | Playing after a pause asks the server, and holds writes back, if and only if it has lasted a minute, the session is online and nothing is being asked already. |
| PlayerDeadlines.ServerPositionIsAdoptedIff | app/src/player.rs:2600-2634 | Another device's unfinished position more than five seconds away is adopted, and reported, if and only if nothing was sought meanwhile; otherwise nothing moves. |
| PlayerDeadlines.PausedStreamIsReloadedIff | app/src/player.rs:1452-1489 | Playing a paused file reloads it at the position reported if and only if its stream failed or has been paused for five minutes; otherwise the backend is asked to play it. |
| PlayerDeadlines.StreamIsRecoveredIff | app/src/player.rs:3498-3520 | A lost stream is loaded again where it was lost if and only if the file is downloaded or no stream was reloaded within the last minute; otherwise it stops with an error. |
| PlayerDeadlines.DownloadedFileTakesOverIff | app/src/player.rs:3160-3200 | A file found downloaded takes over at the position known if and only if no other load came between. |
| PlayerDeadlines.WaitingErrorIsKept | app/src/player.rs:1183-1200 | A seek in the held file, the seek asked again and a speed that is told drop a waiting end-of-stream but keep a waiting error for the tick. |
| PlayerDeadlines.KeptErrorIsHandled | app/src/player.rs:3341-3344 | The next tick takes up the kept error: a downloaded file stops with it, a stream is recovered. |
| PlayerDeadlines.SpuriousToggleIsIgnoredIff | app/src/player.rs:3042-3062 | After an unplug that paused, the media key does nothing for 1.5 seconds and plays from then on. |
| PlayerDeadlines.MinutesAreOver | app/src/player.rs:3279-3299 | A sleep timer of some minutes pauses at the end of the first tick at which they are over, and not before. |
| PlayerDeadlines.ChapterIsOver | app/src/player.rs:3301-3311 | A sleep timer at the end of the chapter pauses when the position reported reaches the end of the chapter that held it when it was set, or of the book. |
| PlayerDeadlines.SpeedIsSet | app/src/player.rs:3230-3277 | Another speed, between 0.8 and 3, is the book's; the backend is told, and may refuse, unless a stream is paused, where it waits. |
| PlayerDeadlines.WaitingSpeedIsTold | app/src/player.rs:1429-1450 | A speed that waits is told at the position reported before the backend plays; if refused, the old one stays. |
| PlayerDeadlines.StartIsAtUsableSpeed | app/src/player.rs:1898-1960 | A start is made at a speed between 0.8 and 3. |
| PlayerDeadlines.StartIsReported | app/src/player.rs:43-51 | Once its file has come, a started book reports where it was to begin: the chapter asked for, the position it was left at unless finished, a second before the end if left there, or the start. |
| PlayerAlive.PlayingHasSomethingToPlay | app/src/player.rs:2482-2545 | In every run in which the backend never refuses to play what is already playing, whatever else it refuses, a player that says it is playing has a usable file, a load on its way or a recovery still to run. |
| PlayerAlive.PlayIsAliveUnlessRefused | app/src/player.rs:2518-2544 | `play` keeps that if and only if it is not a refused `play` on a pipeline that is already playing. |
| PlayerAlive.StepAliveIff | app/src/player.rs:3443-3525 | Every step keeps it, refused plays from pause, refused pauses, stream errors and their recovery included, if and only if it is not such a refusal to a play or to a start of the loaded book. |
| PlayerFailures.RefusedPlayIsSilent | app/src/player.rs:2518-2544 | A run from a new player to that refusal: the book is left shown as playing with nothing loaded. |
| Player.PlayerController.LoadTrackAt | app/src/player.rs:929-945 | Releases the old file at once, pins the position to the target under a new load generation and leaves the load to a task. |
| Player.PlayerController.WriteProgressAt | app/src/player.rs:1151-1181 | Queues the position with the book's state, unless no track was ever resolved. |
| Player.PlayerController.BookPosition | app/src/player.rs:947-984 | The track's offset plus the pinned target, or the reading capped at the file's length. |
| Player.PlayerController.DropStaleEndOfStream | app/src/player.rs:1183-1200 | An end-of-stream from before a seek is dropped, an error waiting there is kept for the tick. |
| Player.PlayerController.CheckSeek | app/src/player.rs:1015-1053 | Whether a reading confirms the pending seek, and otherwise whether to wait, ask again, reload or stop. |
| Player.PlayerController.ObservePosition | app/src/player.rs:986-1085 | Adopts a reading, confirms a seek, asks again, reloads the file at the target once, or stops there. |
| Player.PlayerController.StartNew | app/src/player.rs:1924-1967 | Starting the pending book only updates it; starting another writes the outgoing position first. |
| Player.PlayerController.StartWith | app/src/player.rs:1886-1968 | Starting the loaded book seeks to the chapter and plays; any other book is started. |
| Player.PlayerController.ReconcileBeforeResuming | app/src/player.rs:2557-2585 | After a long pause, holds writes and asks the server, in parallel, where other devices are. |
| Player.PlayerController.PrepareToResume | app/src/player.rs:1445-1485 | A stream that failed or went stale while paused is released for a reload; an end-of-stream is kept for the tick. |
| Player.PlayerController.PlayBackend | app/src/player.rs:2518-2544 | Plays, or releases a pipeline that refuses and marks the book for a reload. |
| Player.PlayerController.ResumeBackend | app/src/player.rs:2486-2544 | A load in flight will play; a released book is loaded again at its position; otherwise the backend plays. |
| Player.PlayerController.Play | app/src/player.rs:2424-2545 | Clears the marks; a pending book will play, a failed start is retried, a finished book restarts, otherwise playback resumes. |
| Player.PlayerController.PauseBackend | app/src/player.rs:2724-2759 | Records the pause; a loaded pipeline is paused and the pause confirmed later, or released when it refuses. |
| Player.PlayerController.Pause | app/src/player.rs:2710-2763 | Clears the marks, pauses, or keeps a pending book from playing, and writes the position. |
| Player.PlayerController.ExternalPlayPause | app/src/player.rs:3042-3060 | A toggle right after an unplug's own pause is ignored. |
| Player.PlayerController.SeekTo | app/src/player.rs:3105-3197 | Brings the position into the book and seeks there, unless no track was ever resolved. |
| Player.PlayerController.Retarget | app/src/player.rs:3121-3147 | The book with the target pinned, unfinished, and an end-of-chapter timer moved to the target's chapter. |
| Player.PlayerController.SeekLoaded | app/src/player.rs:3126-3179 | Another file is loaded; the same file is sought now, or by the load under way; a streamed one is checked for a download. |
| Player.PlayerController.SetSpeed | app/src/player.rs:3221-3275 | While paused on a stream the speed is only recorded; otherwise it is handed over and recorded when accepted. |
| Player.PlayerController.MarkAsFinished | app/src/player.rs:1826-1851 | Finishes the loaded book now and a pending one once it is loaded. |
| Player.PlayerController.Unplugged | app/src/player.rs:2896-2925 | Pauses, when enabled and playing, and marks the pause as the unplug's. |
| Player.PlayerController.Replugged | app/src/player.rs:2926-2947 | Leaves a timer for the settle time when the unplug's pause is to be lifted. |
| Player.PlayerController.CallEnded | app/src/player.rs:3000-3026 | Resumes only after an incoming, unanswered call whose mark survives. |
| Player.PlayerController.JudgeEndOfStream | app/src/player.rs:1202-1241 | The real end, unclear or premature, by how far before the file's end it came; the same spot twice is the real end. |
| Player.PlayerController.HandleStreamError | app/src/player.rs:3418-3479 | Releases the backend where it stopped; a downloaded file stops with the error, a stream is left to a recovery. |
| Player.PlayerController.KeepTicking | app/src/player.rs:3549-3573 | Writes the heartbeat when due and decides whether the timer goes on. |
| Player.PlayerController.HandleEndOfStream | app/src/player.rs:3346-3417 | Stops, recovers, moves on to the next file or finishes the book, as the end is judged. |
| Player.PlayerController.Tick | app/src/player.rs:3331-3573 | Observes the position, handles the kept or the next event, the sleep timer and the heartbeat. |
| Player.PlayerController.FinishStart | app/src/player.rs:2328-2391 | The book is loaded, plays if that is still wanted, and what was asked for meanwhile is done. |
| Player.PlayerController.SettleStart | app/src/player.rs:2297-2315 | One seek for position and speed before the start finishes. |
| Player.PlayerController.PollStart | app/src/player.rs:2280-2302 | Waits for the pipeline to be ready, and gives up when anything newer has started or loaded. |
| Player.PlayerController.PlaceStart | app/src/player.rs:2199-2203 | The chapter asked for is read as soon as the book is resolved, before the saved position and the file are looked up. |
| Player.PlayerController.LoadStart | app/src/player.rs:2204-2327 | Begins at that chapter or at the saved position, in the file that holds it. |
| Player.PlayerController.ResumeStart | app/src/player.rs:1969-2198 | A superseded start changes nothing; a resolved one is placed and then loaded, a failed one leaves the error. |
| Player.PlayerController.SettleLoad | app/src/player.rs:1392-1424 | Seeks to the newest target at the newest speed, and plays if still wanted. |
| Player.PlayerController.PollLoad | app/src/player.rs:1376-1396 | Waits for the pipeline to be ready, and gives up when the load is no longer current. |
| Player.PlayerController.ConnectLoad | app/src/player.rs:1337-1374 | Hands the file to the backend, or stops when it cannot be had or is refused. |
| Player.PlayerController.ResumeLoad | app/src/player.rs:1282-1425 | One stretch of a track load; a superseded one changes nothing. |
| Player.PlayerController.ResumePauseConfirmation | app/src/player.rs:1496-1572 | A pause that never lands releases the pipeline; a seek, a load or playing again ends the wait. |
| Player.PlayerController.ResumeLocalFileCheck | app/src/player.rs:3191-3224 | A file downloaded meanwhile is switched to, at the newest target, if the pipeline is still the same. |
| Player.PlayerController.ResumeRecovery | app/src/player.rs:3480-3525 | Switches to a downloaded file, or reloads the stream once per window, or stops with the error. |
| Player.PlayerController.ResumeReconcile | app/src/player.rs:2586-2635 | Releases the hold, then jumps to another device's position or writes what was held back. |
| Player.PlayerController.Step | app/src/player.rs:1597-3575 | Any one step, the operations too small for a row of their own included, leaves exactly the state the machine's step gives. |
| Player.PlayerController.RunAll | app/src/player.rs:1597-3575 | Any sequence of events leaves the object in exactly the state the machine's run gives. |
| PlayerSession.Live | app/src/player.rs:742-790 | A controller built afresh and driven through any events: relies on the backend only when that holds its current file, ends up with the book last asked for, keeps a finished book silent, unmarked and written finished, ticks while it plays, plays something unless refused while playing, and resumed only its own pauses. |
| ProgressQueues.QueuesAreServedInOrder | app/src/player.rs:523-682 | In every run: at most one local write and one push at a time, one queued write per item, no queue without a runner (so the shutdown takes none itself), local rows in ask order, and no push before its own local half. |
| ProgressQueues.LocalRowsEndAtTheLastAsked | app/src/player.rs:589-608 | Once no runner is left, the row last written for an item is the one last asked for. |
| ProgressQueues.NoPushIsLost | app/src/player.rs:610-627 | In an orderly run every push asked for has started, or a later one of its item has, or is on its way; pushes of an item start in ask order and end at the last. |
| ProgressQueues.NoPushIsInvented | app/src/player.rs:600-660 | In every run a push that starts has the value of a request, and a push of its item was asked for. |
| ProgressQueues.CoalescedDuties | app/src/player.rs:551-563 | The coalesced write has the newest value and exactly the duties of the writes it stands for; writes of other items stay. |
| ProgressQueues.DirectPushKeepsOrderIff | app/src/player.rs:590-593 | A push asked for without a local write keeps the pushes in ask order if and only if no older write of its item that will push is still waiting for its row. |
| ProgressQueues.OvertakenPushIsLost | app/src/player.rs:664-675 | A run of requests as the player makes them: 20 has landed, 10 is being written, and 20 is asked for again, pushed alone because the last row made is 20; 10's push replaces it and 20 is never pushed. |
| ProgressQueues.HandedOver | app/src/player.rs:549-563 | Coalescing a write into a queue keeps the line in order and every request it covered covered. |
| ProgressWriting.CoalesceInto | app/src/player.rs:549-563 | The newest write goes last in place of a queued one of its item, doing what both were to do. |
| ProgressWriting.ProgressWriter.Ask | app/src/player.rs:589-608 | A request for a local write or a push is queued, and a runner is spawned when none is active. |
| ProgressWriting.ProgressWriter.Enqueue | app/src/player.rs:589-608 | Without a local half it goes to the push queue at once. |
| ProgressWriting.ProgressWriter.EnqueuePush | app/src/player.rs:610-627 | Only a write that is to be pushed is queued for it. |
| ProgressWriting.ProgressWriter.ResumeLocal | app/src/player.rs:599-607 | The runner finishes its write, hands its push over and takes the next write or ends. |
| ProgressWriting.ProgressWriter.ResumePush | app/src/player.rs:619-626 | The runner finishes its push, remembers a confirmed value and takes the next or ends. |
| ProgressWriting.ProgressWriter.ForgetPushed | app/src/player.rs:582-587 | The next write pushes again whatever the server has. |
| ProgressWriting.ProgressWriter.Drain | app/src/player.rs:633-659 | A queue that a runner serves is never taken from; with the queues of any run nothing is taken. |
| RichTextMarkup.OutputIsAlwaysValid | app/src/rich_text.rs:22-166 | For every input the output nests `<b>`, `<i>` and `<s>` properly, has no other `<` or `>`, and every `&` starts `&amp;`, `&lt;` or `&gt;`. |
| RichTextMarkup.ScanNested | app/src/rich_text.rs:22-145 | Through every truncation, close and rollback each open tag points at its own opening markup, and everything around it is valid markup. |
| RichTextMarkup.RolledBackIsValid | app/src/rich_text.rs:220-232 | Rolling every open tag back leaves valid markup. |
| RichTextMarkup.EndTagKeepsText | app/src/rich_text.rs:207-233 | Closing, closing across other elements and rolling back leave the text shown so far as it was. |
| RichTextMarkup.StartTagKeepsText | app/src/rich_text.rs:118-129 | Opening an element adds no text. |
| RichTextMarkup.FinishIsValid | app/src/rich_text.rs:147-166 | Collapsing newlines and trimming the edges keeps the markup valid. |
| RichTextMeaning.DecodeUndoesEscape | app/src/rich_text.rs:281-375 | Decoding an escaped text gives the text, for every text. |
| RichTextMeaning.EscapedTextIsKept | app/src/rich_text.rs:259-313 | Escaped text with single blanks and none at the edges comes back as it is. |
| RichTextMeaning.TagFreeIsShown | app/src/rich_text.rs:43-46 | Text without tags is shown collapsed, decoded, trimmed and escaped. |
| RichTextMeaning.TagFreeOutputIsAFixpointIff | app/src/rich_text.rs:261-313 | The output for text without tags converts to itself if and only if the text it shows has no two adjacent blanks. |
| RichTextMeaning.EncodedBlanksAreNotAFixpoint | app/src/rich_text.rs:323-353 | Two encoded blanks are shown, and collapse in a second conversion. |
| RichTextDocuments.DocumentsAreShown | app/src/rich_text.rs:12-21 | For every description of paragraphs, line breaks (however many there are in a row), and bulleted and numbered lists of styled lines: blocks are shown in order, paragraphs one blank line apart, each item on its own line behind its bullet or number, counting on only from a numbered item right before. |
| RichTextDocuments.NumberIsRead | app/src/rich_text.rs:246-253 | A line that begins with a number, white space around it and a full stop tells that number to the item after it. |
| RichTextPieces.PiecesAreShown | app/src/rich_text.rs:37-145 | For every sequence of text, comments, tags of elements that are not rendered (quoted attributes may hold anything), script and style elements, and brackets around anything else, ended properly or not: white space is one blank, references are the characters they mean, dropped markup sets words apart, raw elements leave nothing, and the rest is text. |
| RichTextPieces.GlyphShows | app/src/rich_text.rs:323-380 | Each of the six named entities, and each decimal or hexadecimal reference to a visible character, is that character; any other reference stands as it is spelled, and a known name without semicolon gets one. |
| RichTextPieces.PiecesScan | app/src/rich_text.rs:37-145 | Reading the print of the pieces writes what each of them adds to what is shown so far. |
| RichTextPieces.RawElementTurn | app/src/rich_text.rs:186-206 | A script or style element is skipped up to its own end tag, whatever looks like one inside. |
| RichTextDocuments.DocumentScan | app/src/rich_text.rs:37-145 | Reading the print of a description writes it block by block, whatever stands before. |
| RichTextDocuments.MarkerStands | app/src/rich_text.rs:108-122 | The next item's marker starts a line, and its number is the one read off the item before. |
| RichTextTrees.TreesAreKept | app/src/rich_text.rs:16-36 | For every well-formed tree of bold, italic and struck-through elements, under any of the names HTML has for each, and single-spaced texts, converting its HTML gives `<b>`, `<i>` and `<s>` around the same texts, up to blanks at the edges; attributes do not survive. |
| RichTextTrees.ForestScan | app/src/rich_text.rs:37-145 | Reading the print of a forest writes the print of the same forest and leaves the open tags and lists as they were. |
| RichTextScanner.Convert | app/src/rich_text.rs:22-166 | The scanning loop computes the conversion, and its result is valid markup. |
| RichTextScanner.TakeTurn | app/src/rich_text.rs:38-69 | Comments, text up to the next tag, tags, and the unterminated ends of each. |
| RichTextScanner.ReadElement | app/src/rich_text.rs:66-140 | What each start and end tag does. |
| RichTextScanner.PushTextInto | app/src/rich_text.rs:259-313 | White space collapsed, no doubled separator, entities decoded, markup characters escaped. |
| RichTextScanner.FindTagEnd | app/src/rich_text.rs:168-184 | The `>` outside quoted values that ends the tag. |
| RichTextScanner.SkipRawElement | app/src/rich_text.rs:186-205 | What is left after a script or style element. |
| RichTextScanner.ClosePangoTag | app/src/rich_text.rs:207-233 | Closes a tag with what was opened inside it, or rolls every open tag back. |
| RichTextScanner.RollBack | app/src/rich_text.rs:220-232 | One pass from left to right removes exactly the opening markup of the open tags. |
| RichTextScanner.FinishOutput | app/src/rich_text.rs:147-166 | At most two newlines in a row, trimmed edges, no trailing paragraph break. |
| LogPrivacy.NoUrlIsLeft | app/src/log_privacy.rs:213-251 | Nothing in the output is a separator with a scheme before it and more than punctuation after it. |
| LogPrivacy.ScrubIsIdempotent | app/src/log_privacy.rs:213-251 | Scrubbing twice is scrubbing once. |
| LogPrivacy.UnchangedIffNoUrl | app/src/log_privacy.rs:213-251 | Text is left alone if and only if it holds no URL. |
| LogPrivacy.OnlyUrlsAreReplaced | app/src/log_privacy.rs:222-250 | Every text splits into stretches logged as they are and URLs replaced whole: before each URL the scheme characters hold no letter, and behind it stands only sentence punctuation up to a terminator or the end. |
| LogPrivacy.ScrubsLineByLine | app/src/log_privacy.rs:209-211 | A text up to a newline and what follows it are scrubbed independently. |
| LogPrivacy.ChunksDoNotMatter | app/src/log_privacy.rs:396-440 | However a stream is cut into writes before one final flush, what is delivered is the whole stream scrubbed, and no newline is ever held back. |
| LogPrivacy.ScrubText | app/src/log_privacy.rs:213-251 | The index-driven rewriter computes the scrubbed text. |
| LogPrivacy.WalkBackToScheme | app/src/log_privacy.rs:226-233 | The scheme before the separator, not reaching into what is already copied. |
| LogPrivacy.WalkBackOverPunctuation | app/src/log_privacy.rs:234-239 | The end of the URL, without trailing sentence punctuation. |
| LogPrivacy.RedactingWriter.Write | app/src/log_privacy.rs:425-434 | Everything up to the last newline is delivered scrubbed, the rest is held back. |
| LogPrivacy.RedactingWriter.Flush | app/src/log_privacy.rs:436-440 | The tail held back is delivered scrubbed. |
| Xgettext.EveryStepAccounts | scripts/rs-for-xgettext.py:20-149 | At every step, newlines written and held back are those read, less those read inside `'\…'` literals and `\u{…}` escapes of the source, plus the escapes read that name one. |
| Xgettext.LinesRealignAtEveryNewline | scripts/rs-for-xgettext.py:139-143 | After every newline outside all constructs nothing is held back, and output and source are on the same line if and only if the literals and escapes read so far hold as many newlines as they name. |
| Xgettext.LineCountIsKeptIff | scripts/rs-for-xgettext.py:20-149 | The number of lines is kept if and only if the source's `'\…'` literals and `\u{…}` escapes hold as many newlines as its escapes name. |
| Xgettext.LinesStayInStep | scripts/rs-for-xgettext.py:20-149 | When none of them holds or names a newline, newlines written and held back are those read at every step, and the output is on the source's line after every newline outside all constructs. |
| Xgettext.LiteralLosesALine | scripts/rs-for-xgettext.py:124-130 | A character literal that spans a newline becomes 0 and loses the line. |
| Xgettext.EscapeGainsALine | scripts/rs-for-xgettext.py:102-106 | An escape that names a newline adds a line. |
| Xgettext.CharLiteralIsReadIff | scripts/rs-for-xgettext.py:124-134 | A character literal is read whole and becomes 0 if and only if it is not the escaped quote. |
| Xgettext.EscapedQuoteIsReadIff | scripts/rs-for-xgettext.py:124-137 | The escaped quote becomes 0, in two turns, if and only if what follows it is not taken for another literal. |
| Xgettext.EscapedQuoteIsMisread | scripts/rs-for-xgettext.py:124-134 | An escaped quote, a comma and a quoted double quote: the comma is taken for a literal, and the double quote opens a string. |
| Xgettext.PlainIsUntouched | scripts/rs-for-xgettext.py:145-146 | Source without strings, character literals and comments is copied as it is. |
| Xgettext.StringIsKept | scripts/rs-for-xgettext.py:85-121 | A string without escapes that stays on its line is written as it is. |
| XgettextRust.StringsAreFoundIff | scripts/rs-for-xgettext.py:1-17 | While the rewriter stays in step with Rust, a C lexer finds in the output exactly the strings a lexer of Rust finds in the source, in order and spelled the same, raw ones as empty, if and only if none of them holds a bare quote, backslash or newline and every `br` or `cr` string reads as an empty one. |
| XgettextRust.TokenAligned | scripts/rs-for-xgettext.py:31-147 | From the start of any token of Rust, in step, the pass comes to that token's end and has read the strings the token holds, nested comments, literals, labels and raw strings of all prefixes included. |
| XgettextRust.SeenIsRustIff | scripts/rs-for-xgettext.py:67-83 | The strings read token by token are those of Rust if and only if every raw string with a prefix is seen as one empty string. |
| XgettextFailures.MisreadStringIsFound | scripts/rs-for-xgettext.py:124-134 | Two character literals and no string, of which the extractor finds one. |
| XgettextFailures.MisreadMayBeHarmless | scripts/rs-for-xgettext.py:124-134 | A misread escaped quote that does no harm: being in step is sufficient, not necessary. |
| XgettextFailures.RawByteStringIsFound | scripts/rs-for-xgettext.py:67-83 | `br"a"` is copied, and the extractor finds its letter. |
| XgettextFailures.RawBackslashEscapes | scripts/rs-for-xgettext.py:67-83 | In a raw byte string of one backslash the closing quote is taken for an escaped one, which the extractor finds. |
| XgettextFailures.RawCommentHidesAString | scripts/rs-for-xgettext.py:67-83 | A raw byte string that holds a quote and two slashes hides the string behind it. |
| XgettextFailures.RawNamedIsFound | scripts/rs-for-xgettext.py:102-106 | A raw byte string with an escape that names a quote is found as an empty one by accident. |
| XgettextFailures.SlashLabelHidesAString | scripts/rs-for-xgettext.py:135-137 | A label between two slashes leaves a comment behind that hides a string. |
| XgettextFailures.LabelMakesRaw | scripts/rs-for-xgettext.py:135-137 | A label `r` right before a string makes that string a raw one, which is found empty. |
| XgettextValues.SameValueIff | scripts/rs-for-xgettext.py:107-109 | A string spelled alike denotes the same characters in Rust and in C if and only if no hexadecimal escape has a third digit behind it and no null an octal digit. |
| XgettextValues.MessagesAreFoundIff | scripts/rs-for-xgettext.py:2-3 | Of a source whose strings are all found, the extracted messages have the values the program looks up if and only if no string has such a digit. |
| XgettextValues.ThirdDigitIsSwallowed | scripts/rs-for-xgettext.py:107-109 | `"\x41b"` is kept as it is spelled, two characters to the program and one to the extractor. |
| XgettextStrings.RewrittenStringsAreFoundIff | scripts/rs-for-xgettext.py:20-149 | A C lexer finds in the output exactly the strings the rewriter read, in order and spelled the same, raw ones as empty, if and only if no escape in them names a quote, a backslash or a newline, nor does the source break off behind a backslash. |
| XgettextStrings.OutputRead | scripts/rs-for-xgettext.py:20-149 | Construct by construct as the rewriter reads them, comments stay comments and strings stay strings for a C lexer. |
| XgettextStrings.NamedQuoteIsLost | scripts/rs-for-xgettext.py:102-106 | A string of one escape that names a quote is found as two empty strings. |
| Xgettext.ConvertSource | scripts/rs-for-xgettext.py:20-149 | The pass with its index and its count of held-back newlines computes the conversion. |
| Xgettext.ReadBlockComment | scripts/rs-for-xgettext.py:46-65 | Nested comment markers become blanks, up to the one that closes the comment. |
| Xgettext.ReadString | scripts/rs-for-xgettext.py:85-121 | Continuations, code-point escapes and newlines of a string, up to its closing quote. |
| Xgettext.ReadConstruct | scripts/rs-for-xgettext.py:31-137 | The construct at a position, in the order the alternatives are tried. |
| DownloadBatches.EveryBatchEndsOnce | app/src/downloads.rs:104-108 | If no item is started while its batch is live: a live batch's counters and running tracks add up to its total and no end was published; an ended one has exactly one, failed for the first failing track's reason, else stopped, else complete. |
| DownloadBatches.NoBatchIsStuck | app/src/downloads.rs:343-467 | In such runs, once no task is left no batch is. |
| DownloadBatches.StartIsAccountedIff | app/src/downloads.rs:325-341 | A start keeps the accounts of every batch if and only if the item has no live one. |
| DownloadBatches.SecondStartLosesAFailure | app/src/downloads.rs:325-341 | A run in which a second start makes a track's failure reach nobody. |
| DownloadBatches.AtMostTwoDownload | app/src/downloads.rs:346-350 | In every run at most two tracks hold a permit. |
| DownloadBatches.CancelReachesItsTracks | app/src/downloads.rs:474-481 | Stopping an item raises the flag of every running track of it, and of no other. |
| DownloadBatches.FinishTrackAccounted | app/src/downloads.rs:430-467 | A finishing track is recorded in its own batch, which ends with its last track. |
| Downloads.DownloadManager.StartDownload | app/src/downloads.rs:245-341 | Publishes a failure to resolve, completeness, or a new batch. |
| Downloads.DownloadManager.StartBatch | app/src/downloads.rs:324-341 | Registers the batch and spawns one task with its own cancel cell per track. |
| Downloads.DownloadManager.AcquirePermit | app/src/downloads.rs:343-366 | A waiting track takes a permit, or fails at once on a metered connection. |
| Downloads.DownloadManager.FinishDownload | app/src/downloads.rs:416-426 | The permit is given back and the outcome recorded. |
| Downloads.DownloadManager.FinishTrack | app/src/downloads.rs:428-467 | Counts the outcome, keeps the first failure's reason, and ends the batch with its last track. |
| Downloads.DownloadManager.CancelItem | app/src/downloads.rs:474-481 | Raises every cell of the item's batch. |
| Downloads.Follow.Changed | app/src/downloads.rs:565-569 | A change starts a read, or asks for one more when one is under way. |
| Downloads.Follow.Resume | app/src/downloads.rs:570-583 | Reads never overlap; whenever none is under way, the last finished one began after the last change. |
| I18n.SubstituteIsEval | app/src/i18n.rs:313-336 | Substituting into a printed template is evaluating it: known holes become their value, unknown ones stay, and values are never expanded again. |
| I18n.EveryTextSplits | app/src/i18n.rs:313-336 | Any text at all splits into stretches that are kept and placeholders that are filled, and nothing else happens to it. |
| I18n.SubstituteInto | app/src/i18n.rs:317-336 | The loop from brace to brace computes the substitution. |
| I18n.CountWins | app/src/i18n.rs:302-311 | In a counted text `{count}` is the count, whatever the arguments are called. |
| I18n.CountedText | app/src/i18n.rs:302-311 | In any printed template of a counted text every `{count}` is the count, and other placeholders are filled from the arguments or stay as written. |
| SyncCoordinator.OneLiveClaimPerKey | app/src/sync_coordinator.rs:67-89 | In every run, re-entrant calls included, a claim is live for one key exactly until it is completed. |
| SyncCoordinator.EveryCallbackRunsOnce | app/src/sync_coordinator.rs:91-121 | No callback is called twice; with no claim live it is called at once with nothing, otherwise when its claim completes, with that claim's outcome. |
| SyncCoordinator.ClaimIsCompletedAndTold | app/src/sync_coordinator.rs:60-121 | From any state: a claim on a free key, any number of registrations and the completion call exactly those callbacks, in the order of registration and with its outcome, and leave the key free again. |
| SyncCoordinator.Claims.ClaimStartupSync | app/src/sync_coordinator.rs:73-85 | True for the first caller, and only then is a claim made. |
| SyncCoordinator.Claims.OnCompleted | app/src/sync_coordinator.rs:93-108 | Waits for the live claim, or is called at once with nothing. |
| SyncCoordinator.Claims.MarkCompleted | app/src/sync_coordinator.rs:115-118 | The claim is gone before its waiters are called. |
| SyncCoordinator.Claims.CallNextWaiter | app/src/sync_coordinator.rs:118-121 | The innermost completion calls its next waiter with its outcome. |

## Left out

- Player.PlayerController.WriteProgressAt: asks for every write; skipping values the device or the server already has, and the server-sync interval, are not part of this model, because "the newest position always reaches disk and server" is claimed only of the queues.
- Player.PlayerController.DropStaleEndOfStream: takes from the outside world whether an error is waiting on the bus, instead of reading events off a queue.
- The minutes of a sleep timer are unbounded, not 32-bit.
- PlayerPositions.LocateTrackReaches: `locate_track` itself is not part of this model; it is specified over contiguous files, with a tolerance of a microsecond for a file that starts just after the position.
- SeekLanding.TargetIsReportedUntilItLands: the run holds readings, completions and failures of the reload, no new request of the listener; a completed reload is its last stretch.
- RichTextTrees.TreesAreKept: covers the styling elements; the paragraphs, line breaks and lists around them are those of `RichTextDocuments.DocumentsAreShown`.
- RichTextDocuments.DocumentsAreShown: an item is one line and lists do not nest; other shapes are covered by the validity theorem only.
- RichTextPieces.PiecesAreShown: text without styling, breaks and lists, which `RichTextTrees.TreesAreKept` and `RichTextDocuments.DocumentsAreShown` cover over simpler text; the three are not combined into one grammar.
- Downloads.Follow.Resume: what was read and shown is not part of the model, only when reads begin and end.
- Xgettext.ConvertSource: a `\u{` escape that is never closed is an error here; the script then raises or reads on from the start of the file. Which code points and name characters exist is a parameter.
- XgettextRust.StringsAreFoundIff: holds of sources the rewriter reads in step with Rust: no misread escaped quote, no label right behind a slash or an `r` label right before a string, and every `br` or `cr` string, read as source from its quote on, ends with a token and names no quote, backslash or newline. Each has a source in `XgettextFailures` that shows what happens without it; that being in step is not necessary, `MisreadMayBeHarmless` and `RawNamedIsFound` show. The C lexer has no trigraphs.
- XgettextStrings.RewrittenStringsAreFoundIff: assumes that no division sign has a label right behind it (`SlashLabelHidesAString`).
- XgettextValues.MessagesAreFoundIff: of strings whose escapes Rust accepts; a C escape may name any number, and adjacent strings are not joined.
- PlayerBackend.SoundsAsShownIff: an accepted pause counts as landed, while the player polls for it and releases a pipeline that has not paused after the last attempt (`Player.PlayerController.ResumePauseConfirmation`); until then such a pipeline may still sound.
- Rounding of floating-point positions and speeds: they are reals; a speed that is no number, and positions that are none, are not modelled.
- Snapshots, listeners, covers, bookmarks, the media-player bus and the screens: no effect on the state modelled. The slow-stream warning only logs.
- Skips and chapter navigation: each is a seek to a position computed from the current one.
- Player.PlayerController.ResumeStart: the server's part of a start (stream resolution, reconciling, falling back to cached tracks) is one outcome: a target, a failure, or still waiting; looking up the saved position and the file is another. A target without files counts as a failure.
- Settings other than the headphone switches: constants of the session.
- Resolving which tracks a download scope needs, clearing downloads, progress events of a track: reading or deleting files, no batch accounting.
- Blanking of secrets and of registered terms in log lines: both work on spans of one text; secrets in quotes may span lines, so the line-by-line law is stated for URLs alone. The order of the registered terms, longest first, is not part of this model.
- Bytes: texts are sequences of characters; invalid UTF-8 in a log stream, which the writer replaces, is not modelled, nor are write errors of the sink.
- The number of an ordered list wraps around at 32 bits, as a release build does; a build with overflow checks stops instead.
- Choosing the interface language: a search over two lists that changes nothing.
- Real time: timers fire at any later step, and the deadline of the shutdown is not modelled.
