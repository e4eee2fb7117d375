/** The progress writer in its own form: two queues, their running flags and their runners, updated
    in place. Every method leaves exactly the state `ProgressQueues` gives. */
module ProgressWriting {
  import opened Prelude
  import opened ProgressQueues
  import Spec = ProgressQueues

  /** Puts `write` last, dropping the queued writes for its item and keeping what they were to do. */
  method CoalesceInto(queue: seq<Write>, write: Write) returns (coalesced: seq<Write>)
    ensures coalesced == Coalesced(queue, write)
  {
    var kept: seq<Write>, newest := [], write;
    var i := 0;
    while i < |queue|
      invariant 0 <= i <= |queue|
      invariant kept == Others(queue[..i], write.item)
      invariant newest == write.(writeLocal := newest.writeLocal, push := newest.push)
      invariant newest.writeLocal <==> write.writeLocal || exists w :: w in queue[..i] && w.item == write.item && w.writeLocal
      invariant newest.push <==> write.push || exists w :: w in queue[..i] && w.item == write.item && w.push
    {
      assert queue[..i + 1] == queue[..i] + [queue[i]];
      OthersAll(queue[..i], [queue[i]], write.item);
      if queue[i].item != write.item {
        kept := kept + [queue[i]];
      } else {
        newest := newest.(writeLocal := newest.writeLocal || queue[i].writeLocal, push := newest.push || queue[i].push);
      }
      i := i + 1;
    }
    assert queue[..i] == queue;
    coalesced := kept + [newest];
  }

  class ProgressWriter {
    var localQueue: seq<Write>
    var localRunning: bool
    var localRunners: seq<Runner>
    var pushQueue: seq<Write>
    var pushRunning: bool
    var pushRunners: seq<Runner>
    var lastLocal: Option<Written>
    var lastPushed: Option<Written>
    var inFlight: Option<Written>
    var asked: seq<Write>
    var ran: seq<Write>
    var started: seq<Write>

    ghost function View(): Writer
      reads this
    {
      Writer(localQueue, localRunning, localRunners, pushQueue, pushRunning, pushRunners, lastLocal, lastPushed, inFlight, asked, ran, started)
    }

    constructor ()
      ensures View() == EMPTY
    {
      localQueue, localRunning, localRunners := [], false, [];
      pushQueue, pushRunning, pushRunners := [], false, [];
      lastLocal, lastPushed, inFlight := None, None, None;
      asked, ran, started := [], [], [];
    }

    method Ask(item: string, position: real, finished: bool, writeLocal: bool, push: bool)
      modifies this
      ensures View() == Spec.Step(old(View()), Spec.Event.Ask(item, position, finished, writeLocal, push))
    {
      hide Spec.Enqueue;
      Enqueue(Write(|asked|, item, position, finished, writeLocal, push));
    }

    method Enqueue(write: Write)
      modifies this
      ensures View() == Spec.Enqueue(old(View()), write)
    {
      hide Coalesced;
      asked := asked + [write];
      if !write.writeLocal {
        EnqueuePush(write);
        return;
      }
      localQueue := CoalesceInto(localQueue, write);
      if !localRunning {
        localRunning := true;
        localRunners := localRunners + [Spawned];
      }
    }

    method EnqueuePush(write: Write)
      modifies this`pushQueue, this`pushRunning, this`pushRunners
      ensures View() == Spec.EnqueuePush(old(View()), write)
    {
      hide Coalesced;
      if !write.push {
        return;
      }
      pushQueue := CoalesceInto(pushQueue, write);
      if !pushRunning {
        pushRunning := true;
        pushRunners := pushRunners + [Spawned];
      }
    }

    /** A local runner takes the next write, or ends when there is none. */
    method NextLocal(i: nat)
      requires i < |localRunners|
      modifies this`localQueue, this`localRunning, this`localRunners
      ensures View() == Spec.NextLocal(old(View()), i)
    {
      if localQueue == [] {
        localRunning := false;
        localRunners := localRunners[..i] + localRunners[i + 1..];
        return;
      }
      localRunners := localRunners[i := Writing(localQueue[0])];
      localQueue := localQueue[1..];
    }

    method ResumeLocal(i: nat, ok: bool)
      modifies this
      ensures View() == Spec.LocalResumed(old(View()), i, ok)
    {
      hide Spec.EnqueuePush, Spec.NextLocal;
      if i >= |localRunners| {
        return;
      }
      match localRunners[i] {
        case Spawned =>
        case Writing(write) =>
          ran := ran + [write];
          if write.writeLocal && ok {
            lastLocal := Some(ValueOf(write));
          }
          EnqueuePushOnly(View(), write);
          EnqueuePush(write);
      }
      NextLocal(i);
    }

    method NextPush(i: nat)
      requires i < |pushRunners|
      modifies this`pushQueue, this`pushRunning, this`pushRunners, this`inFlight, this`started
      ensures View() == Spec.NextPush(old(View()), i)
    {
      if pushQueue == [] {
        pushRunning := false;
        pushRunners := pushRunners[..i] + pushRunners[i + 1..];
        return;
      }
      var write := pushQueue[0];
      pushQueue := pushQueue[1..];
      pushRunners := pushRunners[i := Writing(write)];
      inFlight := Some(ValueOf(write));
      started := started + [write];
    }

    method ResumePush(i: nat, confirmed: bool)
      modifies this
      ensures View() == Spec.PushResumed(old(View()), i, confirmed)
    {
      hide Spec.NextPush;
      if i >= |pushRunners| {
        return;
      }
      match pushRunners[i] {
        case Spawned =>
        case Writing(write) =>
          if confirmed {
            lastPushed := Some(ValueOf(write));
          }
          inFlight := None;
      }
      NextPush(i);
    }

    method ForgetPushed()
      modifies this
      ensures View() == Spec.Step(old(View()), Spec.Event.ForgetPushed)
    {
      lastPushed := None;
      inFlight := None;
    }

    /** One turn of the drain at shutdown: a write is taken only from a queue that no runner serves,
        and with the queues as every run leaves them there never is one. */
    method Drain() returns (local: Option<Write>, push: Option<Write>)
      ensures local == Drained(localRunning, localQueue) && push == Drained(pushRunning, pushQueue)
      ensures QueuesOk(View()) ==> local == None && push == None
    {
      hide OnePerItem, InHand;
      local, push := None, None;
      if !localRunning && localQueue != [] {
        local := Some(localQueue[0]);
      }
      if !pushRunning && pushQueue != [] {
        push := Some(pushQueue[0]);
      }
    }
  }
}
