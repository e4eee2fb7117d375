/** Download batches: each start of an item's download makes one batch of track tasks, which share
    two permits and report to whatever batch is registered under their item when they finish. */
module DownloadBatches {
  import opened Prelude

  const MAX_CONCURRENT: nat := 2

  datatype Key = Key(server: string, item: string)

  datatype TrackOutcome = Completed | Failed(reason: string) | Canceled

  datatype ItemState = Downloading | Complete | Stopped | ItemFailed(why: string)

  /** One batch. `number` tells batches apart; `flags` are the cells that cancel its tracks. */
  datatype Batch = Batch(
    number: nat,
    total: nat,
    completed: nat,
    failed: nat,
    canceled: nat,
    flags: seq<nat>,
    firstFailure: Option<string>)

  /** A track's suspended task: waiting for a permit, or downloading with one. */
  datatype Task = Task(key: Key, batch: nat, flag: nat, holds: bool)

  /** What listeners were told; `batch` is the batch an end state closed. */
  datatype Publication = Publication(key: Key, state: ItemState, batch: Option<nat>)

  /** `outcomes` is the history of how each batch's own tracks finished, in that order. */
  datatype Manager = Manager(
    batches: map<Key, Batch>,
    tasks: seq<Task>,
    permits: nat,
    flags: seq<bool>,
    outcomes: seq<seq<TrackOutcome>>,
    published: seq<Publication>)

  datatype Event =
    | Start(key: Key, pending: Result<seq<string>, string>)
    | Acquire(waiter: nat, metered: bool)
    | Finish(holder: nat, outcome: TrackOutcome)
    | Cancel(key: Key)

  const IDLE := Manager(map[], [], MAX_CONCURRENT, [], [], [])

  function Finished(b: Batch): nat { b.completed + b.failed + b.canceled }

  function Publish(m: Manager, key: Key, state: ItemState, batch: Option<nat>): Manager {
    m.(published := m.published + [Publication(key, state, batch)])
  }

  function NewTasks(key: Key, batch: nat, firstFlag: nat, count: nat): (tasks: seq<Task>)
    ensures |tasks| == count
    ensures forall i :: 0 <= i < count ==> tasks[i] == Task(key, batch, firstFlag + i, false)
  {
    seq(count, (i: nat) => Task(key, batch, firstFlag + i, false))
  }

  /** A start whose tracks are known registers a batch under the item, over whatever is there, and
      spawns a task per track that is not downloaded yet. */
  function StartBatch(m: Manager, key: Key, count: nat): Manager {
    var number, firstFlag := |m.outcomes|, |m.flags|;
    var flags := seq(count, (i: nat) => firstFlag + i);
    Publish(m.(batches := m.batches[key := Batch(number, count, 0, 0, 0, flags, None)],
               tasks := m.tasks + NewTasks(key, number, firstFlag, count),
               flags := m.flags + seq(count, _ => false),
               outcomes := m.outcomes + [[]]),
            key, Downloading, None)
  }

  function StartDownload(m: Manager, key: Key, pending: Result<seq<string>, string>): Manager {
    match pending
    case Err(reason) => Publish(m, key, ItemFailed(reason), None)
    case Ok(inos) => if inos == [] then Publish(m, key, Complete, None) else StartBatch(m, key, |inos|)
  }

  function Recorded(b: Batch, outcome: TrackOutcome): Batch {
    match outcome
    case Completed => b.(completed := b.completed + 1)
    case Failed(reason) => b.(failed := b.failed + 1, firstFailure := if b.firstFailure.Some? then b.firstFailure else Some(reason))
    case Canceled => b.(canceled := b.canceled + 1)
  }

  function EndState(b: Batch): ItemState {
    if b.failed > 0 then ItemFailed(b.firstFailure.GetOr("the download failed"))
    else if b.canceled > 0 then Stopped
    else Complete
  }

  /** A track's task has ended: its outcome is recorded in the batch found under its item, which
      ends when all its tracks have. */
  function FinishTrack(m: Manager, task: Task, outcome: TrackOutcome): Manager {
    var t := if task.batch < |m.outcomes| then m.(outcomes := m.outcomes[task.batch := m.outcomes[task.batch] + [outcome]]) else m;
    if task.key !in m.batches then t
    else
      var b := Recorded(m.batches[task.key], outcome);
      if Finished(b) < b.total then t.(batches := m.batches[task.key := b])
      else Publish(t.(batches := m.batches - {task.key}), task.key, EndState(b), Some(b.number))
  }

  function Without(tasks: seq<Task>, i: nat): seq<Task>
    requires i < |tasks|
  {
    tasks[..i] + tasks[i + 1..]
  }

  /** A waiting task gets a permit; on a metered connection that may not be used it ends at once. */
  function AcquirePermit(m: Manager, i: nat, metered: bool): Manager {
    if i >= |m.tasks| || m.tasks[i].holds || m.permits == 0 then m
    else if metered then FinishTrack(m.(tasks := Without(m.tasks, i)), m.tasks[i], Failed("waiting for a non-metered connection"))
    else m.(tasks := m.tasks[i := m.tasks[i].(holds := true)], permits := m.permits - 1)
  }

  function FinishDownload(m: Manager, i: nat, outcome: TrackOutcome): Manager {
    if i >= |m.tasks| || !m.tasks[i].holds then m
    else FinishTrack(m.(tasks := Without(m.tasks, i), permits := m.permits + 1), m.tasks[i], outcome)
  }

  function Raised(flags: seq<bool>, raise: seq<nat>): seq<bool> {
    seq(|flags|, i requires 0 <= i < |flags| => flags[i] || i in raise)
  }

  function CancelItem(m: Manager, key: Key): Manager {
    if key in m.batches then m.(flags := Raised(m.flags, m.batches[key].flags)) else m
  }

  function Step(m: Manager, event: Event): Manager {
    match event
    case Start(key, pending) => StartDownload(m, key, pending)
    case Acquire(i, metered) => AcquirePermit(m, i, metered)
    case Finish(i, outcome) => FinishDownload(m, i, outcome)
    case Cancel(key) => CancelItem(m, key)
  }

  function Run(m: Manager, events: seq<Event>): Manager
    decreases |events|
  {
    if events == [] then m else Run(Step(m, events[0]), events[1..])
  }

  // ---------------------------------------------------------------- what is counted

  function Running(tasks: seq<Task>, batch: nat): nat {
    if tasks == [] then 0 else (if tasks[0].batch == batch then 1 else 0) + Running(tasks[1..], batch)
  }

  function Holding(tasks: seq<Task>): nat {
    if tasks == [] then 0 else (if tasks[0].holds then 1 else 0) + Holding(tasks[1..])
  }

  function Completions(os: seq<TrackOutcome>): nat {
    if os == [] then 0 else (if os[|os| - 1].Completed? then 1 else 0) + Completions(os[..|os| - 1])
  }

  function Failures(os: seq<TrackOutcome>): nat {
    if os == [] then 0 else (if os[|os| - 1].Failed? then 1 else 0) + Failures(os[..|os| - 1])
  }

  function Cancellations(os: seq<TrackOutcome>): nat {
    if os == [] then 0 else (if os[|os| - 1].Canceled? then 1 else 0) + Cancellations(os[..|os| - 1])
  }

  /** Ends of batch `n` that were published. */
  function Ends(published: seq<Publication>, n: nat): seq<Publication> {
    if published == [] then []
    else
      var rest := Ends(published[..|published| - 1], n);
      if published[|published| - 1].batch == Some(n) then rest + [published[|published| - 1]] else rest
  }

  /** What a batch whose tracks finished like this ends as: failed for the reason of the first track
      that failed, else stopped if any track was canceled, else complete. */
  ghost predicate EndsAs(os: seq<TrackOutcome>, state: ItemState) {
    match state
    case ItemFailed(why) => exists i :: 0 <= i < |os| && os[i] == Failed(why) && forall j :: 0 <= j < i ==> !os[j].Failed?
    case Stopped => (exists i :: 0 <= i < |os| && os[i].Canceled?) && forall i :: 0 <= i < |os| ==> !os[i].Failed?
    case Complete => forall i :: 0 <= i < |os| ==> os[i].Completed?
    case Downloading => false
  }

  ghost predicate FirstFailureIs(os: seq<TrackOutcome>, reason: Option<string>) {
    match reason
    case None => forall i :: 0 <= i < |os| ==> !os[i].Failed?
    case Some(why) => EndsAs(os, ItemFailed(why))
  }

  /** The batch's counters count its own tracks' outcomes, and what is missing is still running. */
  ghost predicate BatchOk(m: Manager, b: Batch) {
    && b.number < |m.outcomes|
    && b.completed == Completions(m.outcomes[b.number]) && b.failed == Failures(m.outcomes[b.number])
    && b.canceled == Cancellations(m.outcomes[b.number])
    && FirstFailureIs(m.outcomes[b.number], b.firstFailure)
    && b.total == Finished(b) + Running(m.tasks, b.number)
    && Finished(b) < b.total
    && (forall f :: f in b.flags ==> f < |m.flags|)
  }

  ghost predicate TaskOk(m: Manager, t: Task) {
    t.key in m.batches && m.batches[t.key].number == t.batch && t.flag in m.batches[t.key].flags
  }

  /** Batch `n` has ended: nothing of it runs, and its one end state is the one its outcomes give. */
  ghost predicate EndOk(m: Manager, n: nat) {
    && n < |m.outcomes|
    && Running(m.tasks, n) == 0
    && |Ends(m.published, n)| == 1
    && EndsAs(m.outcomes[n], Ends(m.published, n)[0].state)
  }

  ghost predicate Accounted(m: Manager) {
    && (forall key :: key in m.batches ==> BatchOk(m, m.batches[key]) && Ends(m.published, m.batches[key].number) == [])
    && (forall t :: t in m.tasks ==> TaskOk(m, t))
    && (forall n :: 0 <= n < |m.outcomes| ==> EndOk(m, n) || exists key :: key in m.batches && m.batches[key].number == n)
    && (forall k, l :: k in m.batches && l in m.batches && m.batches[k].number == m.batches[l].number ==> k == l)
    && (forall p :: p in m.published && p.batch.Some? ==> p.batch.value < |m.outcomes|)
    && FlagsApart(m.batches)
  }

  /** No two batches share a cancel cell. */
  ghost predicate FlagsApart(batches: map<Key, Batch>) {
    forall k, l, f :: k in batches && l in batches && f in batches[k].flags && f in batches[l].flags ==> k == l
  }

  predicate PermitsOk(m: Manager) { m.permits + Holding(m.tasks) == MAX_CONCURRENT }

  // ---------------------------------------------------------------- counting

  lemma {:induction false} CountsAll(a: seq<Task>, b: seq<Task>, n: nat)
    ensures Running(a + b, n) == Running(a, n) + Running(b, n) && Holding(a + b) == Holding(a) + Holding(b)
  {
    if a == [] {
      assert a + b == b;
    } else {
      assert (a + b)[1..] == a[1..] + b;
      CountsAll(a[1..], b, n);
    }
  }

  lemma CountsAt(tasks: seq<Task>, i: nat, n: nat)
    requires i < |tasks|
    ensures Running(tasks, n) == Running(Without(tasks, i), n) + (if tasks[i].batch == n then 1 else 0)
    ensures Holding(tasks) == Holding(Without(tasks, i)) + (if tasks[i].holds then 1 else 0)
  {
    assert tasks == tasks[..i] + ([tasks[i]] + tasks[i + 1..]);
    CountsAll(tasks[..i], [tasks[i]] + tasks[i + 1..], n);
    CountsAll([tasks[i]], tasks[i + 1..], n);
    CountsAll(tasks[..i], tasks[i + 1..], n);
  }

  lemma CountsUpdate(tasks: seq<Task>, i: nat, n: nat)
    requires i < |tasks|
    ensures var t := tasks[i := tasks[i].(holds := true)];
            Running(t, n) == Running(tasks, n) && (!tasks[i].holds ==> Holding(t) == Holding(tasks) + 1)
  {
    var t := tasks[i := tasks[i].(holds := true)];
    CountsAt(tasks, i, n);
    CountsAt(t, i, n);
    assert Without(t, i) == Without(tasks, i);
  }

  lemma {:induction false} CountsNew(tasks: seq<Task>, n: nat, batch: nat)
    requires forall t :: t in tasks ==> t.batch == batch && !t.holds
    ensures Running(tasks, n) == (if n == batch then |tasks| else 0) && Holding(tasks) == 0
  {
    if tasks != [] { CountsNew(tasks[1..], n, batch); }
  }

  lemma {:induction false} NoneRunning(tasks: seq<Task>, n: nat)
    requires forall t :: t in tasks ==> t.batch != n
    ensures Running(tasks, n) == 0
  {
    if tasks != [] { NoneRunning(tasks[1..], n); }
  }

  lemma {:induction false} SomeRunning(tasks: seq<Task>, t: Task)
    requires t in tasks
    ensures Running(tasks, t.batch) > 0
  {
    if tasks[0] != t { SomeRunning(tasks[1..], t); }
  }

  lemma {:induction false} CountsNothing(os: seq<TrackOutcome>)
    ensures Failures(os) == 0 <==> forall i :: 0 <= i < |os| ==> !os[i].Failed?
    ensures Cancellations(os) == 0 <==> forall i :: 0 <= i < |os| ==> !os[i].Canceled?
    ensures Completions(os) + Failures(os) + Cancellations(os) == |os|
  {
    if os != [] { CountsNothing(os[..|os| - 1]); }
  }

  lemma CountsPush(os: seq<TrackOutcome>, o: TrackOutcome)
    ensures Completions(os + [o]) == Completions(os) + (if o.Completed? then 1 else 0)
    ensures Failures(os + [o]) == Failures(os) + (if o.Failed? then 1 else 0)
    ensures Cancellations(os + [o]) == Cancellations(os) + (if o.Canceled? then 1 else 0)
  {
    assert (os + [o])[..|os|] == os;
  }

  lemma EndsPush(published: seq<Publication>, p: Publication, n: nat)
    ensures Ends(published + [p], n) == Ends(published, n) + (if p.batch == Some(n) then [p] else [])
  {
    assert (published + [p])[..|published|] == published;
  }

  // ---------------------------------------------------------------- one batch

  /** Recording an outcome keeps a batch's counters and its first failure those of its tracks. */
  lemma RecordedOk(b: Batch, os: seq<TrackOutcome>, o: TrackOutcome)
    requires b.completed == Completions(os) && b.failed == Failures(os) && b.canceled == Cancellations(os) && FirstFailureIs(os, b.firstFailure)
    ensures var r := Recorded(b, o);
            && r.completed == Completions(os + [o]) && r.failed == Failures(os + [o]) && r.canceled == Cancellations(os + [o])
            && FirstFailureIs(os + [o], r.firstFailure) && Finished(r) == Finished(b) + 1
            && r.number == b.number && r.total == b.total && r.flags == b.flags
  {
    CountsPush(os, o);
    FirstFailurePush(b, os, o);
  }

  lemma FirstFailurePush(b: Batch, os: seq<TrackOutcome>, o: TrackOutcome)
    requires FirstFailureIs(os, b.firstFailure)
    ensures FirstFailureIs(os + [o], Recorded(b, o).firstFailure)
  {
    var now := os + [o];
    if b.firstFailure.Some? {
      var i :| 0 <= i < |os| && os[i] == Failed(b.firstFailure.value) && forall j :: 0 <= j < i ==> !os[j].Failed?;
      assert now[i] == os[i] && forall j :: 0 <= j < i ==> now[j] == os[j];
    } else if o.Failed? {
      assert now[|os|] == o && forall j :: 0 <= j < |os| ==> now[j] == os[j];
    }
  }

  lemma EndStateIsRight(b: Batch, os: seq<TrackOutcome>)
    requires b.failed == Failures(os) && b.canceled == Cancellations(os) && FirstFailureIs(os, b.firstFailure)
    ensures EndsAs(os, EndState(b))
  {
    CountsNothing(os);
    if b.failed == 0 && b.canceled == 0 {
      forall i | 0 <= i < |os| ensures os[i].Completed? { assert !os[i].Failed? && !os[i].Canceled?; }
    }
  }

  // ---------------------------------------------------------------- a track finishes

  /** `m` is `was` with its `i`-th task taken out. */
  ghost predicate TakenOut(was: Manager, i: nat, m: Manager) {
    i < |was.tasks| && m == was.(tasks := Without(was.tasks, i), permits := m.permits)
  }

  lemma TakenOutIn(was: Manager, i: nat, m: Manager, t: Task)
    requires TakenOut(was, i, m) && t in m.tasks
    ensures t in was.tasks
  {
  }

  /** The batch a finishing task reports to is its own. */
  lemma OwnBatch(was: Manager, i: nat, m: Manager, outcome: TrackOutcome)
    requires Accounted(was) && TakenOut(was, i, m)
    ensures var t := was.tasks[i];
            && t.key in m.batches && m.batches[t.key].number == t.batch && t.batch < |m.outcomes|
            && (var r := FinishTrack(m, t, outcome); var b := Recorded(m.batches[t.key], outcome);
                && r.outcomes == m.outcomes[t.batch := m.outcomes[t.batch] + [outcome]] && r.tasks == m.tasks && r.flags == m.flags
                && Finished(b) == Finished(m.batches[t.key]) + 1 && b.number == t.batch && b.total == m.batches[t.key].total
                && b.flags == m.batches[t.key].flags
                && b.completed == Completions(r.outcomes[t.batch]) && b.failed == Failures(r.outcomes[t.batch])
                && b.canceled == Cancellations(r.outcomes[t.batch]) && FirstFailureIs(r.outcomes[t.batch], b.firstFailure)
                && b.total == Finished(b) + Running(r.tasks, t.batch))
  {
    hide FirstFailureIs, Ends, EndOk;
    var t := was.tasks[i];
    assert TaskOk(was, t);
    assert BatchOk(was, was.batches[t.key]);
    RecordedOk(was.batches[t.key], was.outcomes[t.batch], outcome);
    CountsAt(was.tasks, i, t.batch);
  }

  lemma RecordedKeeps(b: Batch, outcome: TrackOutcome)
    ensures var r := Recorded(b, outcome); r.number == b.number && r.total == b.total && r.flags == b.flags
  {
  }

  /** Every other batch keeps its counts. */
  lemma OtherBatch(was: Manager, i: nat, m: Manager, outcome: TrackOutcome, key: Key)
    requires Accounted(was) && TakenOut(was, i, m) && key in was.batches && key != was.tasks[i].key
    ensures var r := FinishTrack(m, was.tasks[i], outcome);
            key in r.batches && r.batches[key] == was.batches[key] && BatchOk(r, r.batches[key]) && Ends(r.published, r.batches[key].number) == []
  {
    hide FirstFailureIs, EndOk, Recorded, EndState;
    var t, b := was.tasks[i], was.batches[key];
    assert TaskOk(was, t) && BatchOk(was, b) && BatchOk(was, was.batches[t.key]);
    CountsAt(was.tasks, i, b.number);
    RecordedKeeps(m.batches[t.key], outcome);
    EndsPush(m.published, Publication(t.key, EndState(Recorded(m.batches[t.key], outcome)), Some(t.batch)), b.number);
  }

  lemma EndedStaysEnded(was: Manager, i: nat, m: Manager, outcome: TrackOutcome, n: nat)
    requires Accounted(was) && TakenOut(was, i, m) && EndOk(was, n)
    ensures EndOk(FinishTrack(m, was.tasks[i], outcome), n)
  {
    hide FirstFailureIs, BatchOk, Recorded, EndState, EndsAs;
    var t := was.tasks[i];
    assert TaskOk(was, t);
    SomeRunning(was.tasks, t);
    CountsAt(was.tasks, i, n);
    RecordedKeeps(m.batches[t.key], outcome);
    EndsPush(m.published, Publication(t.key, EndState(Recorded(m.batches[t.key], outcome)), Some(t.batch)), n);
  }

  lemma SameFlags(batches: map<Key, Batch>, key: Key, b: Batch)
    requires FlagsApart(batches) && key in batches && b.flags == batches[key].flags
    ensures FlagsApart(batches[key := b]) && FlagsApart(batches - {key})
  {
  }

  lemma BatchGoesOn(was: Manager, i: nat, m: Manager, outcome: TrackOutcome)
    requires Accounted(was) && TakenOut(was, i, m) && was.tasks[i].key in m.batches
    requires Finished(Recorded(m.batches[was.tasks[i].key], outcome)) < m.batches[was.tasks[i].key].total
    ensures Accounted(FinishTrack(m, was.tasks[i], outcome))
  {
    hide FirstFailureIs, EndOk, EndsAs, Completions, Failures, Cancellations, Ends, FlagsApart, Recorded;
    OwnBatch(was, i, m, outcome);
    var t := was.tasks[i];
    SameFlags(m.batches, t.key, Recorded(m.batches[t.key], outcome));
    var r := FinishTrack(m, t, outcome);
    assert BatchOk(was, was.batches[t.key]);
    forall key | key in r.batches ensures BatchOk(r, r.batches[key]) && Ends(r.published, r.batches[key].number) == [] {
      if key != t.key { OtherBatch(was, i, m, outcome, key); }
    }
    forall x | x in r.tasks ensures TaskOk(r, x) {
      TakenOutIn(was, i, m, x);
      assert TaskOk(was, x);
    }
    forall n | 0 <= n < |r.outcomes| ensures EndOk(r, n) || exists key :: key in r.batches && r.batches[key].number == n {
      if EndOk(was, n) {
        EndedStaysEnded(was, i, m, outcome, n);
      } else {
        var key :| key in was.batches && was.batches[key].number == n;
        assert key in r.batches && r.batches[key].number == n;
      }
    }
  }

  lemma EndedBatches(was: Manager, i: nat, m: Manager, outcome: TrackOutcome)
    requires Accounted(was) && TakenOut(was, i, m) && was.tasks[i].key in m.batches
    requires Finished(Recorded(m.batches[was.tasks[i].key], outcome)) >= m.batches[was.tasks[i].key].total
    ensures var r := FinishTrack(m, was.tasks[i], outcome);
            forall key | key in r.batches :: BatchOk(r, r.batches[key]) && Ends(r.published, r.batches[key].number) == []
  {
    hide FirstFailureIs, EndOk, EndsAs, Completions, Failures, Cancellations, Ends, Recorded, EndState, FlagsApart, BatchOk;
    OwnBatch(was, i, m, outcome);
    var r := FinishTrack(m, was.tasks[i], outcome);
    forall key | key in r.batches ensures BatchOk(r, r.batches[key]) && Ends(r.published, r.batches[key].number) == [] {
      OtherBatch(was, i, m, outcome, key);
    }
  }

  lemma EndedTasks(was: Manager, i: nat, m: Manager, outcome: TrackOutcome)
    requires Accounted(was) && TakenOut(was, i, m) && was.tasks[i].key in m.batches
    requires Finished(Recorded(m.batches[was.tasks[i].key], outcome)) >= m.batches[was.tasks[i].key].total
    ensures var r := FinishTrack(m, was.tasks[i], outcome); forall x | x in r.tasks :: TaskOk(r, x)
  {
    hide FirstFailureIs, EndOk, EndsAs, Completions, Failures, Cancellations, Ends, Recorded, EndState, FlagsApart;
    OwnBatch(was, i, m, outcome);
    LastTrackEnds(was, i, m, outcome);
    var r := FinishTrack(m, was.tasks[i], outcome);
    forall x | x in r.tasks ensures TaskOk(r, x) {
      TakenOutIn(was, i, m, x);
      assert TaskOk(was, x);
      SomeRunning(r.tasks, x);
    }
  }

  lemma BatchEnds(was: Manager, i: nat, m: Manager, outcome: TrackOutcome)
    requires Accounted(was) && TakenOut(was, i, m) && was.tasks[i].key in m.batches
    requires Finished(Recorded(m.batches[was.tasks[i].key], outcome)) >= m.batches[was.tasks[i].key].total
    ensures Accounted(FinishTrack(m, was.tasks[i], outcome))
  {
    hide FirstFailureIs, EndOk, EndsAs, Completions, Failures, Cancellations, Ends, Recorded, EndState, FlagsApart;
    OwnBatch(was, i, m, outcome);
    var t := was.tasks[i];
    SameFlags(m.batches, t.key, m.batches[t.key]);
    var r := FinishTrack(m, t, outcome);
    LastTrackEnds(was, i, m, outcome);
    EndedBatches(was, i, m, outcome);
    EndedTasks(was, i, m, outcome);
    forall n | 0 <= n < |r.outcomes| ensures EndOk(r, n) || exists key :: key in r.batches && r.batches[key].number == n {
      if EndOk(was, n) {
        EndedStaysEnded(was, i, m, outcome, n);
      } else if n != t.batch {
        var key :| key in was.batches && was.batches[key].number == n;
        assert key in r.batches && r.batches[key].number == n;
      }
    }
  }

  /** When the last track of a batch finishes, its one end state is published. */
  lemma LastTrackEnds(was: Manager, i: nat, m: Manager, outcome: TrackOutcome)
    requires Accounted(was) && TakenOut(was, i, m) && was.tasks[i].key in m.batches
    requires Finished(Recorded(m.batches[was.tasks[i].key], outcome)) >= m.batches[was.tasks[i].key].total
    ensures var r := FinishTrack(m, was.tasks[i], outcome); Running(r.tasks, was.tasks[i].batch) == 0 && EndOk(r, was.tasks[i].batch)
  {
    hide FirstFailureIs, EndsAs, Completions, Failures, Cancellations, Recorded, EndState, BatchOk;
    OwnBatch(was, i, m, outcome);
    var t := was.tasks[i];
    var b, r := Recorded(m.batches[t.key], outcome), FinishTrack(m, t, outcome);
    EndStateIsRight(b, r.outcomes[t.batch]);
    EndsPush(m.published, Publication(t.key, EndState(b), Some(b.number)), t.batch);
    assert Ends(was.published, was.batches[t.key].number) == [];
  }

  lemma FinishTrackAccounted(was: Manager, i: nat, m: Manager, outcome: TrackOutcome)
    requires Accounted(was) && TakenOut(was, i, m)
    ensures Accounted(FinishTrack(m, was.tasks[i], outcome))
  {
    hide Accounted, FinishTrack;
    FoundUnderItem(was, i, m);
    if Finished(Recorded(m.batches[was.tasks[i].key], outcome)) < m.batches[was.tasks[i].key].total {
      BatchGoesOn(was, i, m, outcome);
    } else {
      BatchEnds(was, i, m, outcome);
    }
  }

  lemma FoundUnderItem(was: Manager, i: nat, m: Manager)
    requires Accounted(was) && TakenOut(was, i, m)
    ensures was.tasks[i].key in m.batches
  {
    assert TaskOk(was, was.tasks[i]);
  }

  // ---------------------------------------------------------------- starting

  /** A start under an item with no live batch keeps the accounts. */
  lemma StartFreshAccounted(m: Manager, key: Key, count: nat)
    requires Accounted(m) && key !in m.batches && count > 0
    ensures Accounted(StartBatch(m, key, count))
  {
    hide FirstFailureIs, EndsAs, Completions, Failures, Cancellations, Ends, EndOk, TaskOk, FlagsApart;
    StartFlagsApart(m, key, count);
    var r, number := StartBatch(m, key, count), |m.outcomes|;
    StartedBatchOk(m, key, count);
    forall k | k in r.batches ensures BatchOk(r, r.batches[k]) && Ends(r.published, r.batches[k].number) == [] {
      if k != key { StartOtherBatch(m, key, count, k); }
    }
    forall t | t in r.tasks ensures TaskOk(r, t) { StartTaskOk(m, key, count, t); }
    forall n | 0 <= n < |r.outcomes| ensures EndOk(r, n) || exists k :: k in r.batches && r.batches[k].number == n {
      if n == number {
        assert key in r.batches && r.batches[key].number == n;
      } else if EndOk(m, n) {
        StartEnded(m, key, count, n);
      } else {
        var k :| k in m.batches && m.batches[k].number == n;
        assert k in r.batches && r.batches[k].number == n;
      }
    }
    forall k | k in m.batches ensures m.batches[k].number != number { assert BatchOk(m, m.batches[k]); }
  }

  lemma StartFlagsApart(m: Manager, key: Key, count: nat)
    requires Accounted(m)
    ensures FlagsApart(StartBatch(m, key, count).batches)
  {
    hide FirstFailureIs, EndOk, TaskOk;
    forall k, f | k in m.batches && f in m.batches[k].flags ensures f < |m.flags| { assert BatchOk(m, m.batches[k]); }
  }

  lemma StartCounts(m: Manager, key: Key, count: nat, n: nat)
    ensures Running(StartBatch(m, key, count).tasks, n) == Running(m.tasks, n) + (if n == |m.outcomes| then count else 0)
    ensures Holding(StartBatch(m, key, count).tasks) == Holding(m.tasks)
  {
    var started := NewTasks(key, |m.outcomes|, |m.flags|, count);
    CountsAll(m.tasks, started, n);
    CountsNew(started, n, |m.outcomes|);
  }

  lemma StartedBatchOk(m: Manager, key: Key, count: nat)
    requires Accounted(m) && count > 0
    ensures var r := StartBatch(m, key, count); BatchOk(r, r.batches[key]) && Ends(r.published, |m.outcomes|) == []
  {
    StartCounts(m, key, count, |m.outcomes|);
    forall t | t in m.tasks ensures t.batch != |m.outcomes| { assert TaskOk(m, t); }
    NoneRunning(m.tasks, |m.outcomes|);
    EndsPush(m.published, Publication(key, Downloading, None), |m.outcomes|);
    NoEnds(m.published, |m.outcomes|);
  }

  lemma {:induction false} NoEnds(published: seq<Publication>, n: nat)
    requires forall p :: p in published && p.batch.Some? ==> p.batch.value < n
    ensures Ends(published, n) == []
  {
    if published != [] { NoEnds(published[..|published| - 1], n); }
  }

  lemma StartOtherBatch(m: Manager, key: Key, count: nat, k: Key)
    requires Accounted(m) && k in m.batches && k != key
    ensures var r := StartBatch(m, key, count);
            k in r.batches && r.batches[k] == m.batches[k] && BatchOk(r, r.batches[k]) && Ends(r.published, r.batches[k].number) == []
  {
    hide FirstFailureIs, EndOk, TaskOk;
    assert BatchOk(m, m.batches[k]);
    StartCounts(m, key, count, m.batches[k].number);
    EndsPush(m.published, Publication(key, Downloading, None), m.batches[k].number);
  }

  lemma StartTaskOk(m: Manager, key: Key, count: nat, t: Task)
    requires Accounted(m) && key !in m.batches && t in StartBatch(m, key, count).tasks
    ensures TaskOk(StartBatch(m, key, count), t)
  {
    hide BatchOk, EndOk;
    if t in m.tasks {
      assert TaskOk(m, t);
    } else {
      var started := NewTasks(key, |m.outcomes|, |m.flags|, count);
      var i :| 0 <= i < |started| && started[i] == t;
      assert StartBatch(m, key, count).batches[key].flags[i] == t.flag;
    }
  }

  lemma StartEnded(m: Manager, key: Key, count: nat, n: nat)
    requires EndOk(m, n)
    ensures EndOk(StartBatch(m, key, count), n)
  {
    hide EndsAs;
    StartCounts(m, key, count, n);
    EndsPush(m.published, Publication(key, Downloading, None), n);
  }

  /** A start under an item whose batch is live loses that batch: its tracks report to the new one. */
  lemma StartOverLiveBatch(m: Manager, key: Key, count: nat)
    requires Accounted(m) && key in m.batches
    ensures !Accounted(StartBatch(m, key, count))
  {
    var r, n := StartBatch(m, key, count), m.batches[key].number;
    assert BatchOk(m, m.batches[key]);
    EndsPush(m.published, Publication(key, Downloading, None), n);
    assert !EndOk(r, n);
    forall k | k in r.batches ensures r.batches[k].number != n {
      if k != key { assert k in m.batches && m.batches[k] == r.batches[k]; }
    }
  }

  /** Starting an item's download keeps the accounts of every batch exactly when no batch of that
      item is live. */
  lemma StartIsAccountedIff(m: Manager, key: Key, count: nat)
    requires Accounted(m) && count > 0
    ensures Accounted(StartBatch(m, key, count)) <==> key !in m.batches
  {
    if key in m.batches { StartOverLiveBatch(m, key, count); } else { StartFreshAccounted(m, key, count); }
  }

  // ---------------------------------------------------------------- every run

  lemma NoticeAccounted(m: Manager, key: Key, state: ItemState)
    requires Accounted(m)
    ensures Accounted(Publish(m, key, state, None))
  {
    hide FirstFailureIs, EndsAs, Ends;
    var r := Publish(m, key, state, None);
    forall n ensures Ends(r.published, n) == Ends(m.published, n) { EndsPush(m.published, Publication(key, state, None), n); }
    forall k | k in r.batches ensures BatchOk(r, r.batches[k]) { assert BatchOk(m, m.batches[k]); }
    forall t | t in r.tasks ensures TaskOk(r, t) { assert TaskOk(m, t); }
    forall n | EndOk(m, n) ensures EndOk(r, n) {}
  }

  lemma CancelAccounted(m: Manager, key: Key)
    requires Accounted(m)
    ensures Accounted(CancelItem(m, key))
  {
    hide FirstFailureIs, EndsAs, Ends;
    var r := CancelItem(m, key);
    forall k | k in r.batches ensures BatchOk(r, r.batches[k]) { assert BatchOk(m, m.batches[k]); }
    forall t | t in r.tasks ensures TaskOk(r, t) { assert TaskOk(m, t); }
    forall n | EndOk(m, n) ensures EndOk(r, n) {}
  }

  lemma AcquireAccounted(m: Manager, i: nat, metered: bool)
    requires Accounted(m)
    ensures Accounted(AcquirePermit(m, i, metered))
  {
    if i < |m.tasks| && !m.tasks[i].holds && m.permits > 0 {
      if metered {
        FinishTrackAccounted(m, i, m.(tasks := Without(m.tasks, i)), Failed("waiting for a non-metered connection"));
      } else {
        HoldingAccounted(m, i);
      }
    }
  }

  lemma HoldingAccounted(m: Manager, i: nat)
    requires Accounted(m) && i < |m.tasks| && m.permits > 0
    ensures Accounted(m.(tasks := m.tasks[i := m.tasks[i].(holds := true)], permits := m.permits - 1))
  {
    hide FirstFailureIs, EndsAs, Ends;
    var r := m.(tasks := m.tasks[i := m.tasks[i].(holds := true)], permits := m.permits - 1);
    forall n ensures Running(r.tasks, n) == Running(m.tasks, n) { CountsUpdate(m.tasks, i, n); }
    forall k | k in r.batches ensures BatchOk(r, r.batches[k]) { assert BatchOk(m, m.batches[k]); }
    forall t | t in r.tasks ensures TaskOk(r, t) {
      assert TaskOk(m, m.tasks[i]);
      if t in m.tasks { assert TaskOk(m, t); }
    }
    forall n | EndOk(m, n) ensures EndOk(r, n) {}
  }

  /** Starts only items with no live batch. */
  predicate Fresh(m: Manager, event: Event) {
    event.Start? && event.pending.Ok? && event.pending.value != [] ==> event.key !in m.batches
  }

  lemma StepAccounted(m: Manager, event: Event)
    requires Accounted(m) && Fresh(m, event)
    ensures Accounted(Step(m, event))
  {
    hide Accounted, StartBatch, AcquirePermit, CancelItem, FinishTrack;
    match event
    case Start(key, pending) =>
      match pending {
        case Err(reason) => NoticeAccounted(m, key, ItemFailed(reason));
        case Ok(inos) => if inos == [] { NoticeAccounted(m, key, Complete); } else { StartFreshAccounted(m, key, |inos|); }
      }
    case Acquire(i, metered) => AcquireAccounted(m, i, metered);
    case Finish(i, outcome) =>
      if i < |m.tasks| { FinishTrackAccounted(m, i, m.(tasks := Without(m.tasks, i), permits := m.permits + 1), outcome); }
    case Cancel(key) => CancelAccounted(m, key);
  }

  predicate FreshRun(m: Manager, events: seq<Event>)
    decreases |events|
  {
    events == [] || (Fresh(m, events[0]) && FreshRun(Step(m, events[0]), events[1..]))
  }

  lemma {:induction false} RunAccounted(m: Manager, events: seq<Event>)
    requires Accounted(m) && FreshRun(m, events)
    ensures Accounted(Run(m, events))
    decreases |events|
  {
    hide Accounted, Step, Fresh;
    if events != [] {
      StepAccounted(m, events[0]);
      RunAccounted(Step(m, events[0]), events[1..]);
    }
  }

  /** In every run that starts no item while a batch of it is live: a batch is live, its counters
      and its running tracks add up to its total, and no end of it was published; or it has ended,
      nothing of it runs, and exactly one end state was published, the one its tracks' outcomes give. */
  lemma EveryBatchEndsOnce(events: seq<Event>, n: nat)
    requires FreshRun(IDLE, events) && n < |Run(IDLE, events).outcomes|
    ensures var m := Run(IDLE, events);
            || (exists key :: key in m.batches && m.batches[key].number == n
                  && m.batches[key].total == Finished(m.batches[key]) + Running(m.tasks, n) && Running(m.tasks, n) > 0
                  && Ends(m.published, n) == [])
            || (Running(m.tasks, n) == 0 && |Ends(m.published, n)| == 1 && EndsAs(m.outcomes[n], Ends(m.published, n)[0].state))
  {
    hide Run, FreshRun, FirstFailureIs, EndsAs;
    RunAccounted(IDLE, events);
    var m := Run(IDLE, events);
    if !EndOk(m, n) {
      var key :| key in m.batches && m.batches[key].number == n;
      assert BatchOk(m, m.batches[key]);
    }
  }

  lemma LiveBatchRuns(m: Manager, key: Key)
    requires Accounted(m) && key in m.batches
    ensures m.tasks != []
  {
    hide FirstFailureIs, EndOk, TaskOk;
    assert BatchOk(m, m.batches[key]);
  }

  /** Once no task is left, no batch is: none is stuck waiting for a track that will not report. */
  lemma NoBatchIsStuck(events: seq<Event>)
    requires FreshRun(IDLE, events) && Run(IDLE, events).tasks == []
    ensures Run(IDLE, events).batches == map[]
  {
    hide Run, FreshRun, FirstFailureIs;
    RunAccounted(IDLE, events);
    var m := Run(IDLE, events);
    forall key ensures key !in m.batches {
      if key in m.batches { LiveBatchRuns(m, key); }
    }
  }

  /** Stopping an item raises the cancel flag of every track of it still running, and of no other. */
  lemma CancelReachesItsTracks(events: seq<Event>, key: Key, t: Task)
    requires FreshRun(IDLE, events) && t in Run(IDLE, events).tasks
    ensures var m := Run(IDLE, events); var c := CancelItem(m, key);
            t.flag < |m.flags| && |c.flags| == |m.flags| && c.flags[t.flag] == (m.flags[t.flag] || t.key == key)
  {
    hide Run, FreshRun, FirstFailureIs;
    RunAccounted(IDLE, events);
    var m := Run(IDLE, events);
    assert TaskOk(m, t);
    assert BatchOk(m, m.batches[t.key]);
  }

  lemma FinishTrackTasks(m: Manager, t: Task, outcome: TrackOutcome)
    ensures FinishTrack(m, t, outcome).tasks == m.tasks && FinishTrack(m, t, outcome).permits == m.permits
  {
  }

  lemma StepPermits(m: Manager, event: Event)
    requires PermitsOk(m)
    ensures PermitsOk(Step(m, event))
  {
    hide FinishTrack;
    match event
    case Start(key, pending) => if pending.Ok? { StartCounts(m, key, |pending.value|, 0); }
    case Acquire(i, metered) =>
      if i < |m.tasks| {
        CountsAt(m.tasks, i, 0);
        CountsUpdate(m.tasks, i, 0);
        FinishTrackTasks(m.(tasks := Without(m.tasks, i)), m.tasks[i], Failed("waiting for a non-metered connection"));
      }
    case Finish(i, outcome) =>
      if i < |m.tasks| {
        CountsAt(m.tasks, i, 0);
        FinishTrackTasks(m.(tasks := Without(m.tasks, i), permits := m.permits + 1), m.tasks[i], outcome);
      }
    case Cancel(key) =>
  }

  lemma {:induction false} RunPermits(m: Manager, events: seq<Event>)
    requires PermitsOk(m)
    ensures PermitsOk(Run(m, events))
    decreases |events|
  {
    hide PermitsOk, Step;
    if events != [] {
      StepPermits(m, events[0]);
      RunPermits(Step(m, events[0]), events[1..]);
    }
  }

  /** In every run, whatever is started twice or canceled: at most two tracks download at once. */
  lemma AtMostTwoDownload(events: seq<Event>)
    ensures Holding(Run(IDLE, events).tasks) <= 2
  {
    hide Run;
    RunPermits(IDLE, events);
  }

  /** The other runs: a second start of one item. The first track to finish ends the second batch,
      complete, though its own track is still to fail; that failure is then reported to nobody. */
  lemma SecondStartLosesAFailure(key: Key)
    ensures var m := Run(IDLE, [Start(key, Ok(["1"])), Start(key, Ok(["1"])), Acquire(0, false), Finish(0, Completed), Acquire(0, false), Finish(0, Failed("lost"))]);
            && m.tasks == [] && m.batches == map[] && m.outcomes == [[Completed], [Failed("lost")]]
            && Ends(m.published, 0) == [] && Ends(m.published, 1) == [Publication(key, Complete, Some(1))]
  {
    hide Run, Step, Ends;
    StartedTwice(key);
    FirstReports(key);
    SecondReports(key);
    SixSteps(IDLE, [Start(key, Ok(["1"])), Start(key, Ok(["1"])), Acquire(0, false), Finish(0, Completed), Acquire(0, false), Finish(0, Failed("lost"))]);
    OnlySecondEnds(key);
  }

  lemma OnlySecondEnds(key: Key)
    ensures Ends(OneReported(key).published, 0) == [] && Ends(OneReported(key).published, 1) == [Publication(key, Complete, Some(1))]
  {
    var notice, end := Publication(key, Downloading, None), Publication(key, Complete, Some(1));
    assert OneReported(key).published == [] + [notice] + [notice] + [end];
    forall n ensures Ends([] + [notice] + [notice] + [end], n) == (if n == 1 then [end] else []) {
      EndsPush([], notice, n);
      EndsPush([] + [notice], notice, n);
      EndsPush([] + [notice] + [notice], end, n);
    }
  }

  function TwiceStarted(key: Key): Manager {
    var notice := Publication(key, Downloading, None);
    Manager(map[key := Batch(1, 1, 0, 0, 0, [1], None)], [Task(key, 0, 0, false), Task(key, 1, 1, false)], 2, [false, false], [[], []], [notice, notice])
  }

  function OneReported(key: Key): Manager {
    TwiceStarted(key).(batches := map[], tasks := [Task(key, 1, 1, false)], outcomes := [[Completed], []],
                       published := TwiceStarted(key).published + [Publication(key, Complete, Some(1))])
  }

  lemma StartedTwice(key: Key)
    ensures Step(Step(IDLE, Start(key, Ok(["1"]))), Start(key, Ok(["1"]))) == TwiceStarted(key)
  {
    var one := Step(IDLE, Start(key, Ok(["1"])));
    assert one.tasks == [Task(key, 0, 0, false)] && one.flags == [false] && one.outcomes == [[]];
    var two := Step(one, Start(key, Ok(["1"])));
    assert two.tasks == [Task(key, 0, 0, false), Task(key, 1, 1, false)] && two.flags == [false, false] && two.outcomes == [[], []];
    assert two.batches[key].flags == [1];
  }

  lemma FirstReports(key: Key)
    ensures Step(Step(TwiceStarted(key), Acquire(0, false)), Finish(0, Completed)) == OneReported(key)
  {
    var m := Step(TwiceStarted(key), Acquire(0, false));
    var t := Task(key, 0, 0, true);
    assert m.tasks == [t, Task(key, 1, 1, false)];
    assert Without(m.tasks, 0) == [Task(key, 1, 1, false)];
    assert m.outcomes[0] + [Completed] == [Completed];
    assert m.outcomes[0 := [Completed]] == [[Completed], []];
    assert m.batches - {key} == map[];
  }

  lemma SecondReports(key: Key)
    ensures var m := Step(Step(OneReported(key), Acquire(0, false)), Finish(0, Failed("lost")));
            m == OneReported(key).(tasks := [], outcomes := [[Completed], [Failed("lost")]])
  {
    var m := Step(OneReported(key), Acquire(0, false));
    assert m.tasks == [Task(key, 1, 1, true)];
    assert Without(m.tasks, 0) == [];
    assert m.outcomes[1] + [Failed("lost")] == [Failed("lost")];
    assert m.outcomes[1 := [Failed("lost")]] == [[Completed], [Failed("lost")]];
  }

  lemma SixSteps(m: Manager, e: seq<Event>)
    requires |e| == 6
    ensures Run(m, e) == Step(Step(Step(Step(Step(Step(m, e[0]), e[1]), e[2]), e[3]), e[4]), e[5])
  {
    hide Step;
    var m3 := Step(Step(Step(m, e[0]), e[1]), e[2]);
    assert Run(m, e) == Run(m3, e[3..]) by {
      assert e[1..][1..] == e[2..] && e[2..][1..] == e[3..];
      assert Run(Step(m, e[0]), e[1..]) == Run(Step(Step(m, e[0]), e[1]), e[2..]);
    }
    assert e[3..][1..] == e[4..] && e[4..][1..] == e[5..] && e[5..][1..] == [];
    assert Run(m3, e[3..]) == Run(Step(Step(m3, e[3]), e[4]), e[5..]);
  }
}
