/** The download manager and the follower of downloaded items in their own form: maps, counters,
    cancel cells and flags updated in place. */
module Downloads {
  import opened Prelude
  import opened DownloadBatches
  import Spec = DownloadBatches

  class DownloadManager {
    var batches: map<Key, Batch>
    var tasks: seq<Task>
    var permits: nat
    var flags: seq<bool>
    var outcomes: seq<seq<TrackOutcome>>
    var published: seq<Publication>

    ghost function View(): Manager
      reads this
    {
      Manager(batches, tasks, permits, flags, outcomes, published)
    }

    constructor ()
      ensures View() == IDLE
    {
      batches, tasks, permits, flags, outcomes, published := map[], [], MAX_CONCURRENT, [], [], [];
    }

    method Publish(key: Key, state: ItemState, batch: Option<nat>)
      modifies this`published
      ensures View() == Spec.Publish(old(View()), key, state, batch)
    {
      published := published + [Publication(key, state, batch)];
    }

    method StartDownload(key: Key, pending: Result<seq<string>, string>)
      modifies this
      ensures View() == Spec.StartDownload(old(View()), key, pending)
    {
      match pending {
        case Err(reason) => Publish(key, ItemFailed(reason), None);
        case Ok(inos) =>
          if inos == [] {
            Publish(key, Complete, None);
          } else {
            StartBatch(key, |inos|);
          }
      }
    }

    /** Registers the batch, then spawns its tracks one by one, each with its own cancel cell. */
    method StartBatch(key: Key, count: nat)
      modifies this
      ensures View() == Spec.StartBatch(old(View()), key, count)
    {
      var number, firstFlag := |outcomes|, |flags|;
      var cells := seq(count, (i: nat) => firstFlag + i);
      flags := flags + seq(count, _ => false);
      outcomes := outcomes + [[]];
      batches := batches[key := Batch(number, count, 0, 0, 0, cells, None)];
      Publish(key, Downloading, None);
      var i := 0;
      while i < count
        invariant 0 <= i <= count
        invariant tasks == old(tasks) + NewTasks(key, number, firstFlag, count)[..i]
        invariant batches == old(batches)[key := Batch(number, count, 0, 0, 0, cells, None)]
        invariant flags == old(flags) + seq(count, _ => false) && outcomes == old(outcomes) + [[]]
        invariant permits == old(permits) && published == old(published) + [Publication(key, Downloading, None)]
      {
        var spawned := NewTasks(key, number, firstFlag, count);
        assert spawned[..i + 1] == spawned[..i] + [spawned[i]];
        tasks := tasks + [Task(key, number, cells[i], false)];
        i := i + 1;
      }
      assert NewTasks(key, number, firstFlag, count)[..count] == NewTasks(key, number, firstFlag, count);
    }

    method FinishTrack(task: Task, outcome: TrackOutcome)
      modifies this
      ensures View() == Spec.FinishTrack(old(View()), task, outcome)
    {
      if task.batch < |outcomes| {
        outcomes := outcomes[task.batch := outcomes[task.batch] + [outcome]];
      }
      if task.key !in batches {
        return;
      }
      var batch := batches[task.key];
      match outcome {
        case Completed => batch := batch.(completed := batch.completed + 1);
        case Failed(reason) =>
          batch := batch.(failed := batch.failed + 1);
          if batch.firstFailure.None? {
            batch := batch.(firstFailure := Some(reason));
          }
        case Canceled => batch := batch.(canceled := batch.canceled + 1);
      }
      batches := batches[task.key := batch];
      if Finished(batch) < batch.total {
        return;
      }
      batches := batches - {task.key};
      assert batches == old(batches) - {task.key};
      if batch.failed > 0 {
        Publish(task.key, ItemFailed(batch.firstFailure.GetOr("the download failed")), Some(batch.number));
      } else if batch.canceled > 0 {
        Publish(task.key, Stopped, Some(batch.number));
      } else {
        Publish(task.key, Complete, Some(batch.number));
      }
    }

    method AcquirePermit(i: nat, metered: bool)
      modifies this
      ensures View() == Spec.AcquirePermit(old(View()), i, metered)
    {
      hide Spec.FinishTrack;
      if i >= |tasks| || tasks[i].holds || permits == 0 {
        return;
      }
      var task := tasks[i];
      if metered {
        tasks := tasks[..i] + tasks[i + 1..];
        FinishTrack(task, Failed("waiting for a non-metered connection"));
        return;
      }
      permits := permits - 1;
      tasks := tasks[i := task.(holds := true)];
    }

    method FinishDownload(i: nat, outcome: TrackOutcome)
      modifies this
      ensures View() == Spec.FinishDownload(old(View()), i, outcome)
    {
      hide Spec.FinishTrack;
      if i >= |tasks| || !tasks[i].holds {
        return;
      }
      var task := tasks[i];
      tasks := tasks[..i] + tasks[i + 1..];
      permits := permits + 1;
      FinishTrack(task, outcome);
    }

    /** Raises the cancel flag of every track of the item's batch, one cell after the other. */
    method CancelItem(key: Key)
      requires key in batches ==> forall f :: f in batches[key].flags ==> f < |flags|
      modifies this`flags
      ensures View() == Spec.CancelItem(old(View()), key)
    {
      if key !in batches {
        return;
      }
      var cells := batches[key].flags;
      var i := 0;
      while i < |cells|
        invariant 0 <= i <= |cells|
        invariant flags == Raised(old(flags), cells[..i])
      {
        assert cells[i] in cells;
        assert cells[..i + 1] == cells[..i] + [cells[i]];
        flags := flags[cells[i] := true];
        i := i + 1;
      }
      assert cells[..i] == cells;
    }
  }

  // ---------------------------------------------------------------- following what is downloaded

  /** Where the follower's task is suspended: not run yet, or in a read that began at that time. */
  datatype Reader = Spawned | Reading(began: nat)

  /** Keeps a screen's set of downloaded books current. The history is the time, when the last
      change was announced, and when the last read that finished had begun. */
  class Follow {
    var reading: bool
    var again: bool
    var readers: seq<Reader>
    var now: nat
    var changedAt: Option<nat>
    var lastReadBegan: Option<nat>

    /** At most one read at a time; and whenever none is on its way, the last finished one began
        after the last change. */
    ghost predicate Valid()
      reads this
    {
      && |readers| == (if reading then 1 else 0)
      && (changedAt.Some? ==> changedAt.value < now)
      && (reading && readers[0].Reading? ==> readers[0].began < now)
      && (changedAt.Some? && reading && readers[0].Reading? ==> again || changedAt.value < readers[0].began)
      && (changedAt.Some? && !reading ==> lastReadBegan.Some? && changedAt.value < lastReadBegan.value)
    }

    constructor ()
      ensures Valid() && !reading && changedAt == None
    {
      reading, again, readers, now, changedAt, lastReadBegan := false, false, [], 0, None, None;
    }

    /** An item's download ended, was stopped or was cleared. */
    method Changed()
      requires Valid()
      modifies this
      ensures Valid() && reading && changedAt == Some(old(now)) && now == old(now) + 1 && lastReadBegan == old(lastReadBegan)
      ensures old(reading) ==> again && readers == old(readers)
      ensures !old(reading) ==> readers == [Spawned]
    {
      changedAt := Some(now);
      now := now + 1;
      if reading {
        again := true;
        return;
      }
      reading := true;
      readers := readers + [Spawned];
    }

    /** A reader goes on: the task's first stretch begins a read; after a read it begins one more if
        a change came in meanwhile, and ends otherwise. */
    method Resume(i: nat)
      requires Valid() && i < |readers|
      modifies this
      ensures Valid() && changedAt == old(changedAt)
      ensures lastReadBegan == if old(readers[i]).Reading? then Some(old(readers[i]).began) else old(lastReadBegan)
      ensures !again
      ensures reading <==> old(readers[i]).Spawned? || old(again)
      ensures reading ==> readers == [Reading(old(now))]
    {
      var reader := readers[i];
      if reader.Reading? {
        lastReadBegan := Some(reader.began);
        if !again {
          readers := [];
          reading := false;
          return;
        }
      }
      again := false;
      readers := readers[i := Reading(now)];
      now := now + 1;
    }
  }
}
