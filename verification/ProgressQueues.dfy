/** The two queues that write listening progress: local rows first, then pushes to the server. Each
    queue is emptied by at most one runner, an asynchronous task that suspends on every write. */
module ProgressQueues {
  import opened Prelude

  /** One write. `ask` numbers the requests in the order they were made. */
  datatype Write = Write(ask: nat, item: string, position: real, finished: bool, writeLocal: bool, push: bool)

  /** Where a queue's runner is suspended: not run yet, or on a write. */
  datatype Runner = Spawned | Writing(write: Write)

  datatype Written = Written(item: string, position: real, finished: bool)

  /** The writer, with the history of its requests (`asked`), of the local halves that have run and
      of the pushes that have started. */
  datatype Writer = Writer(
    localQueue: seq<Write>,
    localRunning: bool,
    localRunners: seq<Runner>,
    pushQueue: seq<Write>,
    pushRunning: bool,
    pushRunners: seq<Runner>,
    lastLocal: Option<Written>,
    lastPushed: Option<Written>,
    inFlight: Option<Written>,
    asked: seq<Write>,
    ran: seq<Write>,
    started: seq<Write>)

  datatype Event =
    | Ask(item: string, position: real, finished: bool, writeLocal: bool, push: bool)
    | ResumeLocal(local: nat, ok: bool)
    | ResumePush(pusher: nat, confirmed: bool)
    | ForgetPushed

  const EMPTY := Writer([], false, [], [], false, [], None, None, None, [], [], [])

  function ValueOf(w: Write): Written { Written(w.item, w.position, w.finished) }

  function Others(queue: seq<Write>, item: string): (r: seq<Write>)
    ensures forall w :: w in r <==> w in queue && w.item != item
  {
    if queue == [] then []
    else if queue[0].item == item then Others(queue[1..], item)
    else [queue[0]] + Others(queue[1..], item)
  }

  /** `write` at the back of `queue` in place of a queued write for the same item, still doing what
      that one was going to do. */
  function Coalesced(queue: seq<Write>, write: Write): seq<Write> {
    Others(queue, write.item)
    + [write.(writeLocal := write.writeLocal || exists w :: w in queue && w.item == write.item && w.writeLocal,
              push := write.push || exists w :: w in queue && w.item == write.item && w.push)]
  }

  function EnqueuePush(s: Writer, write: Write): Writer {
    if !write.push then s
    else
      s.(pushQueue := Coalesced(s.pushQueue, write), pushRunning := true,
         pushRunners := if s.pushRunning then s.pushRunners else s.pushRunners + [Spawned])
  }

  function EnqueueLocal(s: Writer, write: Write): Writer {
    s.(localQueue := Coalesced(s.localQueue, write), localRunning := true,
       localRunners := if s.localRunning then s.localRunners else s.localRunners + [Spawned])
  }

  function Enqueue(s: Writer, write: Write): Writer {
    var t := s.(asked := s.asked + [write]);
    if write.writeLocal then EnqueueLocal(t, write) else EnqueuePush(t, write)
  }

  function Without<T>(runners: seq<T>, i: nat): seq<T>
    requires i < |runners|
  {
    runners[..i] + runners[i + 1..]
  }

  /** The runner takes the next write, or ends. */
  function NextLocal(s: Writer, i: nat): Writer
    requires i < |s.localRunners|
  {
    if s.localQueue == [] then s.(localRunning := false, localRunners := Without(s.localRunners, i))
    else s.(localQueue := s.localQueue[1..], localRunners := s.localRunners[i := Writing(s.localQueue[0])])
  }

  /** The local half of `write` has been tried; its push half follows. */
  function FinishLocal(s: Writer, write: Write, ok: bool): Writer {
    EnqueuePush(s.(ran := s.ran + [write], lastLocal := if write.writeLocal && ok then Some(ValueOf(write)) else s.lastLocal), write)
  }

  function LocalResumed(s: Writer, i: nat, ok: bool): Writer {
    if i >= |s.localRunners| then s
    else if s.localRunners[i].Spawned? then NextLocal(s, i)
    else NextLocal(FinishLocal(s, s.localRunners[i].write, ok), i)
  }

  function NextPush(s: Writer, i: nat): Writer
    requires i < |s.pushRunners|
  {
    if s.pushQueue == [] then s.(pushRunning := false, pushRunners := Without(s.pushRunners, i))
    else
      var write := s.pushQueue[0];
      s.(pushQueue := s.pushQueue[1..], pushRunners := s.pushRunners[i := Writing(write)],
         inFlight := Some(ValueOf(write)), started := s.started + [write])
  }

  function PushResumed(s: Writer, i: nat, confirmed: bool): Writer {
    if i >= |s.pushRunners| then s
    else if s.pushRunners[i].Spawned? then NextPush(s, i)
    else NextPush(s.(inFlight := None, lastPushed := if confirmed then Some(ValueOf(s.pushRunners[i].write)) else s.lastPushed), i)
  }

  function Asking(s: Writer, e: Event): Write
    requires e.Ask?
  {
    Write(|s.asked|, e.item, e.position, e.finished, e.writeLocal, e.push)
  }

  function Step(s: Writer, event: Event): Writer {
    match event
    case Ask(_, _, _, _, _) => Enqueue(s, Asking(s, event))
    case ResumeLocal(i, ok) => LocalResumed(s, i, ok)
    case ResumePush(i, confirmed) => PushResumed(s, i, confirmed)
    case ForgetPushed => s.(lastPushed := None, inFlight := None)
  }

  function Run(s: Writer, events: seq<Event>): Writer
    decreases |events|
  {
    if events == [] then s else Run(Step(s, events[0]), events[1..])
  }

  /** The writes a shutdown would take itself: only from a queue no runner is emptying. */
  function Drained(running: bool, queue: seq<Write>): Option<Write> {
    if running || queue == [] then None else Some(queue[0])
  }

  // ---------------------------------------------------------------- what every step keeps

  predicate OnePerItem(queue: seq<Write>) {
    forall i, j :: 0 <= i < j < |queue| ==> queue[i].item != queue[j].item
  }

  /** Writes for one item come in the order they were asked for. */
  predicate InAskOrder(ws: seq<Write>) {
    forall i, j :: 0 <= i < j < |ws| && ws[i].item == ws[j].item ==> ws[i].ask < ws[j].ask
  }

  function InHand(runners: seq<Runner>): seq<Write> {
    if runners == [] then [] else (if runners[0].Writing? then [runners[0].write] else []) + InHand(runners[1..])
  }

  function Pushing(ws: seq<Write>): seq<Write> {
    if ws == [] then [] else (if ws[0].push then [ws[0]] else []) + Pushing(ws[1..])
  }

  /** Every local half, from the ones that have run to the last one queued. */
  function LocalLine(s: Writer): seq<Write> { s.ran + Waiting(s) }

  /** The local halves that have not run: the one in hand, then the queue. */
  function Waiting(s: Writer): seq<Write> { InHand(s.localRunners) + s.localQueue }

  /** Every push, from the ones started to the ones whose local half is still to run. */
  function PushLine(s: Writer): seq<Write> { s.started + s.pushQueue + Pushing(Waiting(s)) }

  /** `w` carries the number and the value of a request, and does at least what that asked for. */
  predicate Genuine(asked: seq<Write>, w: Write) {
    w.ask < |asked| && ValueOf(asked[w.ask]) == ValueOf(w) && (asked[w.ask].writeLocal ==> w.writeLocal) && (asked[w.ask].push ==> w.push)
  }

  predicate AllGenuine(asked: seq<Write>, ws: seq<Write>) { forall w :: w in ws ==> Genuine(asked, w) }

  /** A queue has at most one runner, and never waits without one. */
  predicate Manned(running: bool, runners: seq<Runner>, queue: seq<Write>) {
    |runners| == (if running then 1 else 0) && (queue != [] ==> running)
  }

  /** The pushes come after their own local half, if they have one. */
  predicate AfterOwnLocal(asked: seq<Write>, ran: seq<Write>, pushes: seq<Write>) {
    forall w :: w in pushes && w.ask < |asked| && asked[w.ask].writeLocal ==> exists r :: r in ran && r.ask == w.ask
  }

  /** `ws` holds request `a`, or a later one for its item. */
  predicate Covered(a: Write, ws: seq<Write>) { exists w :: w in ws && w.item == a.item && w.ask >= a.ask }

  predicate Numbered(asked: seq<Write>) { forall i :: 0 <= i < |asked| ==> asked[i].ask == i }

  predicate QueuesOk(s: Writer) {
    && Manned(s.localRunning, s.localRunners, s.localQueue) && Manned(s.pushRunning, s.pushRunners, s.pushQueue)
    && OnePerItem(s.localQueue) && OnePerItem(s.pushQueue)
    && (forall w :: w in Waiting(s) ==> w.writeLocal)
    && (forall w :: w in s.pushQueue ==> w.push)
  }

  predicate CoversLocals(asked: seq<Write>, line: seq<Write>) { forall a :: a in asked && a.writeLocal ==> Covered(a, line) }

  predicate CoversPushes(asked: seq<Write>, line: seq<Write>) { forall a :: a in asked && a.push ==> Covered(a, line) }

  predicate LocalsOk(s: Writer) {
    && Numbered(s.asked) && AllGenuine(s.asked, LocalLine(s)) && AllGenuine(s.asked, PushLine(s))
    && InAskOrder(LocalLine(s)) && CoversLocals(s.asked, LocalLine(s))
    && AfterOwnLocal(s.asked, s.ran, s.started + s.pushQueue)
  }

  predicate PushesOk(s: Writer) { InAskOrder(PushLine(s)) && CoversPushes(s.asked, PushLine(s)) }

  // ---------------------------------------------------------------- sequences of writes

  lemma FirstInAskOrder(w: Write, rest: seq<Write>)
    ensures InAskOrder([w] + rest) <==> InAskOrder(rest) && forall x :: x in rest && x.item == w.item ==> w.ask < x.ask
  {
    var ws := [w] + rest;
    if InAskOrder(ws) {
      forall i, j | 0 <= i < j < |rest| && rest[i].item == rest[j].item ensures rest[i].ask < rest[j].ask { assert ws[i + 1] == rest[i] && ws[j + 1] == rest[j]; }
      forall x | x in rest && x.item == w.item ensures w.ask < x.ask {
        var j :| 0 <= j < |rest| && rest[j] == x;
        assert ws[0] == w && ws[j + 1] == x;
      }
    }
  }

  /** Dropping an item's writes from the middle keeps the order of the rest. */
  lemma {:induction false} OthersInAskOrder(before: seq<Write>, queue: seq<Write>, item: string, after: seq<Write>)
    requires InAskOrder(before + queue + after)
    ensures InAskOrder(before + Others(queue, item) + after)
    decreases |before|, |queue|
  {
    hide InAskOrder;
    if before != [] {
      var rest := before[1..] + queue + after;
      assert before + queue + after == [before[0]] + rest;
      FirstInAskOrder(before[0], rest);
      OthersInAskOrder(before[1..], queue, item, after);
      assert before + Others(queue, item) + after == [before[0]] + (before[1..] + Others(queue, item) + after);
      FirstInAskOrder(before[0], before[1..] + Others(queue, item) + after);
    } else if queue != [] {
      assert before + queue + after == [queue[0]] + (before + queue[1..] + after);
      FirstInAskOrder(queue[0], before + queue[1..] + after);
      OthersInAskOrder(before, queue[1..], item, after);
      var rest := Others(queue[1..], item);
      FirstInAskOrder(queue[0], before + rest + after);
      if queue[0].item != item { assert before + Others(queue, item) + after == [queue[0]] + (before + rest + after); }
    }
  }

  lemma {:induction false} OthersOnePerItem(queue: seq<Write>, w: Write)
    requires OnePerItem(queue)
    ensures OnePerItem(Others(queue, w.item) + [w])
  {
    if queue != [] {
      OthersOnePerItem(queue[1..], w);
      var rest := Others(queue[1..], w.item) + [w];
      forall x | x in Others(queue[1..], w.item) ensures x.item != queue[0].item { assert x in queue[1..]; }
      if queue[0].item != w.item {
        assert Others(queue, w.item) + [w] == [queue[0]] + rest;
        forall i, j | 0 <= i < j < |[queue[0]] + rest| ensures ([queue[0]] + rest)[i].item != ([queue[0]] + rest)[j].item {
          assert rest[j - 1] in rest;
        }
      }
    }
  }

  lemma NewestInAskOrder(ws: seq<Write>, w: Write)
    requires InAskOrder(ws) && forall x :: x in ws ==> x.ask < w.ask
    ensures InAskOrder(ws + [w])
  {
    forall i, j | 0 <= i < j < |ws + [w]| && (ws + [w])[i].item == (ws + [w])[j].item ensures (ws + [w])[i].ask < (ws + [w])[j].ask {
      if j == |ws| { assert ws[i] in ws; }
    }
  }

  /** The order of writes depends on their items and numbers alone. */
  lemma SameOrder(a: seq<Write>, b: seq<Write>)
    requires InAskOrder(a) && |a| == |b| && forall i :: 0 <= i < |a| ==> a[i].item == b[i].item && a[i].ask == b[i].ask
    ensures InAskOrder(b)
  {
  }

  lemma {:induction false} PushingAll(a: seq<Write>, b: seq<Write>)
    ensures Pushing(a + b) == Pushing(a) + Pushing(b)
  {
    if a == [] {
      assert a + b == b && [] + Pushing(b) == Pushing(b);
    } else {
      hide Pushing;
      assert (a + b)[0] == a[0] && (a + b)[1..] == a[1..] + b;
      PushingFirst(a);
      PushingFirst(a + b);
      PushingAll(a[1..], b);
      Regroup(if a[0].push then [a[0]] else [], Pushing(a[1..]), Pushing(b));
    }
  }

  lemma PushingFirst(ws: seq<Write>)
    requires ws != []
    ensures Pushing(ws) == (if ws[0].push then [ws[0]] else []) + Pushing(ws[1..])
  {
  }

  lemma {:induction false} PushingHolds(ws: seq<Write>)
    ensures forall w :: w in Pushing(ws) <==> w in ws && w.push
  {
    if ws != [] { PushingHolds(ws[1..]); }
  }

  lemma {:induction false} PushingOthers(queue: seq<Write>, item: string)
    ensures Pushing(Others(queue, item)) == Others(Pushing(queue), item)
  {
    if queue != [] {
      var first := if queue[0].push then [queue[0]] else [];
      PushingOthers(queue[1..], item);
      OthersAll(first, Pushing(queue[1..]), item);
      if queue[0].item != item { PushingAll([queue[0]], Others(queue[1..], item)); }
    }
  }

  lemma {:induction false} OthersAll(a: seq<Write>, b: seq<Write>, item: string)
    ensures Others(a + b, item) == Others(a, item) + Others(b, item)
  {
    if a == [] {
      assert a + b == b;
    } else {
      assert (a + b)[1..] == a[1..] + b;
      OthersAll(a[1..], b, item);
    }
  }

  lemma CoalescedShape(queue: seq<Write>, w: Write) returns (newest: Write)
    ensures Coalesced(queue, w) == Others(queue, w.item) + [newest] && newest == w.(writeLocal := newest.writeLocal, push := newest.push)
    ensures (w.writeLocal ==> newest.writeLocal) && (w.push ==> newest.push)
  {
    newest := Coalesced(queue, w)[|Others(queue, w.item)|];
  }

  /** The write put last has exactly the duties of those it stands for, and the others stay as they are. */
  lemma CoalescedDuties(queue: seq<Write>, w: Write)
    ensures var all := Coalesced(queue, w);
            && all != []
            && var newest := all[|all| - 1];
            && newest.ask == w.ask && ValueOf(newest) == ValueOf(w)
            && (newest.writeLocal <==> exists x :: x in queue + [w] && x.item == w.item && x.writeLocal)
            && (newest.push <==> exists x :: x in queue + [w] && x.item == w.item && x.push)
            && forall x :: x in all[..|all| - 1] <==> x in queue && x.item != w.item
  {
    var all := Coalesced(queue, w);
    var newest := CoalescedShape(queue, w);
    assert all[..|all| - 1] == Others(queue, w.item);
    assert w in queue + [w];
    if exists x :: x in queue + [w] && x.item == w.item && x.writeLocal {
      var x :| x in queue + [w] && x.item == w.item && x.writeLocal;
      assert x in queue || x == w;
    }
    if exists x :: x in queue + [w] && x.item == w.item && x.push {
      var x :| x in queue + [w] && x.item == w.item && x.push;
      assert x in queue || x == w;
    }
    if newest.writeLocal && !w.writeLocal {
      var x :| x in queue && x.item == w.item && x.writeLocal;
      assert x in queue + [w];
    }
    if newest.push && !w.push {
      var x :| x in queue && x.item == w.item && x.push;
      assert x in queue + [w];
    }
  }

  /** A write that comes right after a queue may be coalesced into it: the line stays in order, and
      every request it covered stays covered. */
  lemma HandedOver(before: seq<Write>, queue: seq<Write>, w: Write, after: seq<Write>)
    requires InAskOrder(before + queue + [w] + after)
    ensures InAskOrder(before + Coalesced(queue, w) + after)
    ensures forall a :: Covered(a, before + queue + [w] + after) ==> Covered(a, before + Coalesced(queue, w) + after)
  {
    hide InAskOrder, Coalesced;
    var newest := CoalescedShape(queue, w);
    var now := before + Coalesced(queue, w) + after;
    assert before + queue + [w] + after == before + queue + ([w] + after);
    OthersInAskOrder(before, queue, w.item, [w] + after);
    SameOrder(before + Others(queue, w.item) + ([w] + after), now);
    forall a | Covered(a, before + queue + [w] + after) ensures Covered(a, now) {
      var x :| x in before + queue + [w] + after && x.item == a.item && x.ask >= a.ask;
      if x in queue && x.item == w.item { EarlierInLine(before, queue, w, after, x); }
      assert newest in now;
      assert forall y :: y in Others(queue, w.item) ==> y in now;
    }
  }

  lemma EarlierInLine(before: seq<Write>, queue: seq<Write>, w: Write, after: seq<Write>, x: Write)
    requires InAskOrder(before + queue + [w] + after) && x in queue && x.item == w.item
    ensures x.ask < w.ask
  {
    var i :| 0 <= i < |queue| && queue[i] == x;
    var line := before + queue + [w] + after;
    assert line[|before| + i] == x && line[|before| + |queue|] == w;
  }

  /** The newest write fits into a line before `after` exactly when nothing there is for its item. */
  lemma InsertInAskOrder(before: seq<Write>, w: Write, after: seq<Write>)
    requires InAskOrder(before + after) && forall x :: x in before + after ==> x.ask < w.ask
    ensures InAskOrder(before + [w] + after) <==> forall x :: x in after ==> x.item != w.item
  {
    var now := before + [w] + after;
    if forall x :: x in after ==> x.item != w.item {
      forall i, j | 0 <= i < j < |now| && now[i].item == now[j].item ensures now[i].ask < now[j].ask {
        assert now[i] == if i < |before| then (before + after)[i] else if i == |before| then w else (before + after)[i - 1];
        assert now[j] == if j < |before| then (before + after)[j] else if j == |before| then w else (before + after)[j - 1];
      }
    } else {
      var x :| x in after && x.item == w.item;
      var i :| 0 <= i < |after| && after[i] == x;
      assert x in before + after && now[|before|] == w && now[|before| + 1 + i] == x;
    }
  }

  lemma CoalescedGenuine(asked: seq<Write>, queue: seq<Write>, w: Write)
    requires AllGenuine(asked, queue) && Genuine(asked, w)
    ensures AllGenuine(asked, Coalesced(queue, w))
  {
    var newest := CoalescedShape(queue, w);
  }

  lemma MannedAlone(running: bool, runners: seq<Runner>, queue: seq<Write>)
    requires Manned(running, runners, queue)
    ensures InHand(if running then runners else runners + [Spawned]) == InHand(runners)
    ensures Manned(true, if running then runners else runners + [Spawned], queue)
    ensures runners != [] ==> runners == [runners[0]] && InHand(runners) == (if runners[0].Writing? then [runners[0].write] else [])
  {
    if runners != [] { assert runners == [runners[0]]; }
  }

  // ---------------------------------------------------------------- the queues and their runners

  lemma EnqueuePushQueues(s: Writer, w: Write)
    requires QueuesOk(s)
    ensures QueuesOk(EnqueuePush(s, w))
  {
    if w.push {
      hide OnePerItem, Coalesced, InHand, Waiting, Manned;
      CoalescedPushes(s.pushQueue, w);
      MannedAlone(s.pushRunning, s.pushRunners, s.pushQueue);
      MannedStill(if s.pushRunning then s.pushRunners else s.pushRunners + [Spawned], s.pushQueue, Coalesced(s.pushQueue, w));
      EnqueuePushParts(s, w);
    }
  }

  lemma CoalescedPushes(queue: seq<Write>, w: Write)
    requires OnePerItem(queue) && w.push && forall x :: x in queue ==> x.push
    ensures OnePerItem(Coalesced(queue, w)) && forall x :: x in Coalesced(queue, w) ==> x.push
  {
    hide OnePerItem, Coalesced;
    var newest := CoalescedShape(queue, w);
    OthersOnePerItem(queue, newest);
  }

  lemma MannedStill(runners: seq<Runner>, a: seq<Write>, b: seq<Write>)
    requires Manned(true, runners, a)
    ensures Manned(true, runners, b)
  {
  }

  lemma EnqueueLocalQueues(s: Writer, w: Write)
    requires QueuesOk(s) && w.writeLocal
    ensures QueuesOk(EnqueueLocal(s, w))
  {
    hide OnePerItem, Coalesced, InHand, Waiting;
    var newest := CoalescedShape(s.localQueue, w);
    OthersOnePerItem(s.localQueue, newest);
    EnqueueLocalParts(s, w);
    EnqueuedStillLocal(s, w);
  }

  lemma EnqueuedStillLocal(s: Writer, w: Write)
    requires QueuesOk(s) && w.writeLocal
    ensures forall x :: x in InHand(s.localRunners) + Coalesced(s.localQueue, w) ==> x.writeLocal
  {
    hide OnePerItem, Coalesced, Manned, InHand;
    var newest := CoalescedShape(s.localQueue, w);
  }

  lemma NextLocalQueues(s: Writer)
    requires QueuesOk(s) && s.localRunners != []
    ensures QueuesOk(NextLocal(s, 0))
  {
    MannedAlone(s.localRunning, s.localRunners, s.localQueue);
    if s.localQueue != [] { assert InHand([Writing(s.localQueue[0])]) == [s.localQueue[0]]; }
  }

  lemma NextPushQueues(s: Writer)
    requires QueuesOk(s) && s.pushRunners != []
    ensures QueuesOk(NextPush(s, 0))
  {
  }

  lemma StepQueues(s: Writer, event: Event)
    requires QueuesOk(s)
    ensures QueuesOk(Step(s, event))
  {
    hide EnqueueLocal, EnqueuePush, NextLocal, NextPush, Manned, OnePerItem, InHand;
    assert Manned(s.localRunning, s.localRunners, s.localQueue) && Manned(s.pushRunning, s.pushRunners, s.pushQueue);
    match event
    case Ask(_, _, _, _, _) =>
      var w := Asking(s, event);
      EnqueueLocalOrPushQueues(s.(asked := s.asked + [w]), w);
    case ResumeLocal(i, ok) => ResumeLocalQueues(s, i, ok);
    case ResumePush(i, confirmed) => ResumePushQueues(s, i, confirmed);
    case ForgetPushed =>
  }

  lemma EnqueueLocalOrPushQueues(s: Writer, w: Write)
    requires QueuesOk(s)
    ensures QueuesOk(if w.writeLocal then EnqueueLocal(s, w) else EnqueuePush(s, w))
  {
    hide QueuesOk, EnqueueLocal, EnqueuePush;
    if w.writeLocal { EnqueueLocalQueues(s, w); } else { EnqueuePushQueues(s, w); }
  }

  lemma ResumeLocalQueues(s: Writer, i: nat, ok: bool)
    requires QueuesOk(s)
    ensures QueuesOk(LocalResumed(s, i, ok))
  {
    hide EnqueuePush, NextLocal, OnePerItem;
    if i < |s.localRunners| {
      NextLocalQueues(s);
      if s.localRunners[i].Writing? {
        var w := s.localRunners[i].write;
        var t := s.(ran := s.ran + [w], lastLocal := if w.writeLocal && ok then Some(ValueOf(w)) else s.lastLocal);
        EnqueuePushQueues(t, w);
        EnqueuePushOnly(t, w);
        NextLocalQueues(EnqueuePush(t, w));
      }
    }
  }

  lemma EnqueuePushOnly(s: Writer, w: Write)
    ensures EnqueuePush(s, w) == s.(pushQueue := EnqueuePush(s, w).pushQueue, pushRunning := EnqueuePush(s, w).pushRunning, pushRunners := EnqueuePush(s, w).pushRunners)
  {
  }

  lemma ResumePushQueues(s: Writer, i: nat, confirmed: bool)
    requires QueuesOk(s)
    ensures QueuesOk(PushResumed(s, i, confirmed))
  {
    hide NextPush, OnePerItem;
    if i < |s.pushRunners| {
      NextPushQueues(s);
      if s.pushRunners[i].Writing? {
        NextPushQueues(s.(inFlight := None, lastPushed := if confirmed then Some(ValueOf(s.pushRunners[i].write)) else s.lastPushed));
      }
    }
  }

  // ---------------------------------------------------------------- the lines, step by step

  function HandOf(r: Runner): seq<Write> { if r.Writing? then [r.write] else [] }

  /** The local runner going on: what it held has run, the rest is still to run, and a push it
      carried is in the push queue. */
  lemma ResumeLocalParts(s: Writer, ok: bool)
    requires QueuesOk(s) && s.localRunners != []
    ensures var t, r := LocalResumed(s, 0, ok), s.localRunners[0];
            && t.asked == s.asked && t.ran == s.ran + HandOf(r) && t.started == s.started
            && Waiting(s) == HandOf(r) + s.localQueue && Waiting(t) == s.localQueue
            && t.pushQueue == if r.Writing? && r.write.push then Coalesced(s.pushQueue, r.write) else s.pushQueue
  {
    hide Coalesced, OnePerItem;
    MannedAlone(s.localRunning, s.localRunners, s.localQueue);
    if s.localQueue == [] {
      assert LocalResumed(s, 0, ok).localRunners == [];
    } else {
      assert LocalResumed(s, 0, ok).localRunners == [Writing(s.localQueue[0])];
      assert InHand([Writing(s.localQueue[0])]) == [s.localQueue[0]];
    }
  }

  lemma ResumePushParts(s: Writer, confirmed: bool)
    requires QueuesOk(s) && s.pushRunners != []
    ensures var t := PushResumed(s, 0, confirmed);
            && t.asked == s.asked && t.ran == s.ran && Waiting(t) == Waiting(s)
            && t.started + t.pushQueue == s.started + s.pushQueue
  {
    hide OnePerItem;
    if s.pushQueue != [] {
      assert s.pushQueue == [s.pushQueue[0]] + s.pushQueue[1..];
      Regroup(s.started, [s.pushQueue[0]], s.pushQueue[1..]);
    }
  }

  lemma EnqueueLocalParts(s: Writer, w: Write)
    requires QueuesOk(s)
    ensures var t := EnqueueLocal(s, w);
            && t.asked == s.asked && t.ran == s.ran && t.started == s.started && t.pushQueue == s.pushQueue
            && Waiting(t) == InHand(s.localRunners) + Coalesced(s.localQueue, w)
  {
    hide Coalesced, OnePerItem;
    MannedAlone(s.localRunning, s.localRunners, s.localQueue);
  }

  lemma EnqueuePushParts(s: Writer, w: Write)
    ensures var t := EnqueuePush(s, w);
            && t.asked == s.asked && t.ran == s.ran && t.started == s.started && Waiting(t) == Waiting(s)
            && t.pushQueue == if w.push then Coalesced(s.pushQueue, w) else s.pushQueue
  {
    hide Coalesced;
  }

  lemma {:induction false} OthersNone(queue: seq<Write>, item: string)
    requires forall x :: x in queue ==> x.item != item
    ensures Others(queue, item) == queue
  {
    if queue != [] { OthersNone(queue[1..], item); }
  }

  lemma PushingCoalesced(queue: seq<Write>, w: Write)
    ensures var newest := Coalesced(queue, w)[|Others(queue, w.item)|];
            Pushing(Coalesced(queue, w)) == if newest.push then Others(Pushing(queue), w.item) + [newest] else Pushing(queue)
  {
    hide Coalesced, Pushing;
    var newest := CoalescedShape(queue, w);
    PushingAll(Others(queue, w.item), [newest]);
    PushingOne(newest);
    PushingOthers(queue, w.item);
    if !newest.push {
      assert Others(Pushing(queue), w.item) + [] == Others(Pushing(queue), w.item);
      PushingHolds(queue);
      NotPushing(queue, w, newest);
      OthersNone(Pushing(queue), w.item);
    }
  }

  lemma NotPushing(queue: seq<Write>, w: Write, newest: Write)
    requires Coalesced(queue, w) == Others(queue, w.item) + [newest] && !newest.push
    ensures forall x :: x in queue && x.item == w.item ==> !x.push
  {
    assert newest == Coalesced(queue, w)[|Others(queue, w.item)|];
  }

  lemma PushingOne(w: Write)
    ensures Pushing([w]) == if w.push then [w] else []
  {
  }

  // ---------------------------------------------------------------- the requests, step by step

  /** A new request that goes last in a line leaves it in order, genuine and covering. */
  lemma AskedLast(asked: seq<Write>, before: seq<Write>, queue: seq<Write>, w: Write)
    requires AllGenuine(asked, before + queue) && InAskOrder(before + queue) && w.ask == |asked|
    ensures InAskOrder(before + Coalesced(queue, w))
    ensures forall a :: a == w || Covered(a, before + queue) ==> Covered(a, before + Coalesced(queue, w))
  {
    hide Coalesced, InAskOrder;
    NewestInAskOrder(before + queue, w);
    assert before + queue + [w] == before + queue + [w] + [] && before + Coalesced(queue, w) + [] == before + Coalesced(queue, w);
    HandedOver(before, queue, w, []);
    assert w in before + queue + [w];
    assert forall a :: Covered(a, before + queue) ==> Covered(a, before + queue + [w]) by {
      forall a | Covered(a, before + queue) ensures Covered(a, before + queue + [w]) {
        var x :| x in before + queue && x.item == a.item && x.ask >= a.ask;
        assert x in before + queue + [w];
      }
    }
  }

  lemma AskedGenuine(asked: seq<Write>, queue: seq<Write>, line: seq<Write>, w: Write)
    requires AllGenuine(asked, queue) && AllGenuine(asked, line) && w.ask == |asked|
    ensures AllGenuine(asked + [w], line) && AllGenuine(asked + [w], Coalesced(queue, w))
  {
    hide Coalesced;
    CoalescedGenuine(asked + [w], queue, w);
  }

  lemma StillAfterOwnLocal(asked: seq<Write>, w: Write, ran: seq<Write>, pushes: seq<Write>)
    requires AfterOwnLocal(asked, ran, pushes) && AllGenuine(asked, pushes)
    ensures AfterOwnLocal(asked + [w], ran, pushes)
  {
  }

  lemma GenuineParts(asked: seq<Write>, a: seq<Write>, b: seq<Write>)
    ensures AllGenuine(asked, a + b) <==> AllGenuine(asked, a) && AllGenuine(asked, b)
  {
  }

  lemma AskedQueues(s: Writer, w: Write)
    requires QueuesOk(s)
    ensures QueuesOk(s.(asked := s.asked + [w]))
  {
  }

  lemma EnqueueLocalLocals(s: Writer, w: Write)
    requires QueuesOk(s) && LocalsOk(s) && w.ask == |s.asked| && w.writeLocal
    ensures LocalsOk(Enqueue(s, w))
  {
    hide Coalesced, InAskOrder, QueuesOk, Covered, Genuine, AllGenuine, InHand, Pushing, EnqueueLocal, AfterOwnLocal;
    var before, t := s.ran + InHand(s.localRunners), Enqueue(s, w);
    AskedQueues(s, w);
    EnqueueLocalParts(s.(asked := s.asked + [w]), w);
    Regroup(s.ran, InHand(s.localRunners), s.localQueue);
    Regroup(s.ran, InHand(s.localRunners), Coalesced(s.localQueue, w));
    AskedLast(s.asked, before, s.localQueue, w);
    GenuineParts(s.asked, before, s.localQueue);
    AskedGenuine(s.asked, s.localQueue, before, w);
    GenuineParts(s.asked + [w], before, Coalesced(s.localQueue, w));
    EnqueueLocalPushGenuine(s, w);
    GenuineParts(s.asked, s.started + s.pushQueue, Pushing(Waiting(s)));
    StillAfterOwnLocal(s.asked, w, s.ran, s.started + s.pushQueue);
  }

  lemma QueuedGenuine(s: Writer)
    requires LocalsOk(s)
    ensures AllGenuine(s.asked, s.localQueue) && AllGenuine(s.asked, InHand(s.localRunners)) && AllGenuine(s.asked, s.ran)
    ensures AllGenuine(s.asked, s.started) && AllGenuine(s.asked, s.pushQueue) && AllGenuine(s.asked, Pushing(Waiting(s)))
  {
    hide InAskOrder, Genuine, CoversLocals, AfterOwnLocal;
  }

  lemma EnqueueLocalPushGenuine(s: Writer, w: Write)
    requires QueuesOk(s) && LocalsOk(s) && w.ask == |s.asked| && w.writeLocal
    ensures AllGenuine(s.asked + [w], PushLine(Enqueue(s, w)))
  {
    hide Coalesced, InAskOrder, QueuesOk, Covered, Genuine, InHand, Pushing, EnqueueLocal, AfterOwnLocal, LocalsOk;
    AskedQueues(s, w);
    EnqueueLocalParts(s.(asked := s.asked + [w]), w);
    QueuedGenuine(s);
    AskedGenuine(s.asked, s.localQueue, InHand(s.localRunners), w);
    PushingHolds(InHand(s.localRunners) + Coalesced(s.localQueue, w));
    AskedGenuine(s.asked, s.localQueue, s.started + s.pushQueue, w);
  }

  /** A request for a local write keeps the order of the pushes: its push, if it or a write it
      replaces wants one, goes last there too. */
  lemma EnqueueLocalPushes(s: Writer, w: Write)
    requires QueuesOk(s) && LocalsOk(s) && PushesOk(s) && w.ask == |s.asked| && w.writeLocal
    ensures PushesOk(Enqueue(s, w))
  {
    hide Coalesced, InAskOrder, QueuesOk, Covered, Genuine, AllGenuine, InHand, Pushing, EnqueueLocal, LocalsOk;
    AskedQueues(s, w);
    EnqueueLocalParts(s.(asked := s.asked + [w]), w);
    var newest := CoalescedShape(s.localQueue, w);
    var before := s.started + s.pushQueue + Pushing(InHand(s.localRunners));
    PushingAll(InHand(s.localRunners), s.localQueue);
    PushingAll(InHand(s.localRunners), Coalesced(s.localQueue, w));
    Regroup(s.started + s.pushQueue, Pushing(InHand(s.localRunners)), Pushing(s.localQueue));
    Regroup(s.started + s.pushQueue, Pushing(InHand(s.localRunners)), Pushing(Coalesced(s.localQueue, w)));
    PushingCoalesced(s.localQueue, w);
    if newest.push {
      QueuedGenuine(s);
      PushLineGenuine(s);
      AskedLast(s.asked, before, Pushing(s.localQueue), newest);
      OnlyPushing(s.localQueue, newest);
    }
  }

  lemma PushLineGenuine(s: Writer)
    requires LocalsOk(s)
    ensures AllGenuine(s.asked, s.started + s.pushQueue + Pushing(Waiting(s)))
  {
  }

  /** Among pushes, a write that pushes and writes locally replaces its item's write as it is. */
  lemma OnlyPushing(queue: seq<Write>, w: Write)
    requires w.push && w.writeLocal
    ensures Coalesced(Pushing(queue), w) == Others(Pushing(queue), w.item) + [w]
  {
    hide Pushing;
  }

  /** A request for a push alone, or for nothing, leaves the local line and its order alone. */
  lemma EnqueuePushLocals(s: Writer, w: Write)
    requires QueuesOk(s) && LocalsOk(s) && w.ask == |s.asked| && !w.writeLocal
    ensures LocalsOk(Enqueue(s, w))
  {
    hide Coalesced, InAskOrder, QueuesOk, Covered, Genuine, InHand, Pushing, EnqueuePush, AfterOwnLocal, LocalLine, Waiting;
    EnqueuePushParts(s.(asked := s.asked + [w]), w);
    SameLocalLine(s, w);
    AskedGenuine(s.asked, s.pushQueue, LocalLine(s), w);
    QueuedGenuine(s);
    PushLineGenuine(s);
    AskedGenuine(s.asked, s.pushQueue, s.started + s.pushQueue + Pushing(Waiting(s)), w);
    StillAfterOwnLocal(s.asked, w, s.ran, s.started + s.pushQueue);
    if w.push { PushedAfterOwnLocal(s, w); }
  }

  lemma SameLocalLine(s: Writer, w: Write)
    ensures LocalLine(EnqueuePush(s.(asked := s.asked + [w]), w)) == LocalLine(s) && Waiting(s.(asked := s.asked + [w])) == Waiting(s)
  {
  }

  lemma PushedAfterOwnLocal(s: Writer, w: Write)
    requires LocalsOk(s) && w.ask == |s.asked| && !w.writeLocal
    ensures AfterOwnLocal(s.asked + [w], s.ran, s.started + Coalesced(s.pushQueue, w))
  {
    hide Coalesced, InAskOrder, Covered, InHand, Pushing, CoversLocals;
    var newest := CoalescedShape(s.pushQueue, w);
    StillAfterOwnLocal(s.asked, w, s.ran, s.started + s.pushQueue);
    forall x | x in s.started + Coalesced(s.pushQueue, w) && x.ask < |s.asked + [w]| && (s.asked + [w])[x.ask].writeLocal
      ensures exists r :: r in s.ran && r.ask == x.ask
    {
      assert x != newest;
      assert x in s.started + s.pushQueue;
    }
  }

  /** A push asked for alone, while the item has a local half still to run that will push as well. */
  predicate Overtakes(s: Writer, w: Write) {
    !w.writeLocal && w.push && exists x :: x in Pushing(Waiting(s)) && x.item == w.item
  }

  /** A push asked for alone keeps the pushes in the order they were asked for exactly when no local
      half of its item still to run will push as well: that older one lands later, takes the place
      of the newer push in the queue, and the server ends up behind. */
  lemma DirectPushKeepsOrderIff(s: Writer, w: Write)
    requires QueuesOk(s) && LocalsOk(s) && PushesOk(s) && w.ask == |s.asked| && !w.writeLocal && w.push
    ensures PushesOk(Enqueue(s, w)) <==> !Overtakes(s, w)
  {
    hide Coalesced, InAskOrder, QueuesOk, Covered, Genuine, InHand, Pushing, EnqueuePush, LocalsOk, Waiting;
    EnqueuePushParts(s.(asked := s.asked + [w]), w);
    SameLocalLine(s, w);
    PushLineGenuine(s);
    NewerThanAll(s.asked, s.started + s.pushQueue + Pushing(Waiting(s)), w);
    InsertInAskOrder(s.started + s.pushQueue, w, Pushing(Waiting(s)));
    if Overtakes(s, w) {
      NotInOrder(s.started, s.pushQueue, w, Pushing(Waiting(s)));
    } else {
      HandedOver(s.started, s.pushQueue, w, Pushing(Waiting(s)));
      InsertCovers(s.started + s.pushQueue, w, Pushing(Waiting(s)));
      DirectCovers(s, w);
    }
  }

  lemma DirectCovers(s: Writer, w: Write)
    requires CoversPushes(s.asked, PushLine(s))
    requires forall a :: a == w || Covered(a, PushLine(s)) ==> Covered(a, s.started + s.pushQueue + [w] + Pushing(Waiting(s)))
    ensures CoversPushes(s.asked + [w], s.started + s.pushQueue + [w] + Pushing(Waiting(s)))
  {
    hide Covered;
  }

  lemma NewerThanAll(asked: seq<Write>, ws: seq<Write>, w: Write)
    requires AllGenuine(asked, ws) && w.ask == |asked|
    ensures forall x :: x in ws ==> x.ask < w.ask
  {
  }

  lemma InsertCovers(before: seq<Write>, w: Write, after: seq<Write>)
    ensures forall a :: a == w || Covered(a, before + after) ==> Covered(a, before + [w] + after)
  {
    forall a | a == w || Covered(a, before + after) ensures Covered(a, before + [w] + after) {
      if a == w {
        assert w in before + [w] + after;
      } else {
        var x :| x in before + after && x.item == a.item && x.ask >= a.ask;
        assert x in before + [w] + after;
      }
    }
  }

  lemma NotInOrder(before: seq<Write>, queue: seq<Write>, w: Write, after: seq<Write>)
    requires (forall x :: x in after ==> x.ask < w.ask) && exists x :: x in after && x.item == w.item
    ensures !InAskOrder(before + Coalesced(queue, w) + after)
  {
    var newest := CoalescedShape(queue, w);
    var x :| x in after && x.item == w.item;
    var i :| 0 <= i < |after| && after[i] == x;
    var line, at := before + Coalesced(queue, w) + after, |before| + |Others(queue, w.item)|;
    assert line[at] == newest && line[at + 1 + i] == x;
  }

  lemma ResumeLocalLocals(s: Writer, ok: bool)
    requires QueuesOk(s) && LocalsOk(s) && s.localRunners != []
    ensures LocalsOk(LocalResumed(s, 0, ok))
  {
    hide Coalesced, InAskOrder, QueuesOk, Covered, Genuine, InHand, Pushing, LocalResumed, LocalLine, Waiting, AfterOwnLocal;
    ResumeLocalParts(s, ok);
    ResumeLocalLine(s, ok);
    var r, t := s.localRunners[0], LocalResumed(s, 0, ok);
    PushLineGenuine(s);
    QueuedGenuine(s);
    PushingAll(HandOf(r), s.localQueue);
    if r.Writing? {
      HeldIsGenuine(s);
      CoalescedGenuine(s.asked, s.pushQueue, r.write);
      LandedAfterOwnLocal(s.asked, s.ran, s.started, s.pushQueue, r.write);
    } else {
      assert s.ran + [] == s.ran;
    }
  }

  lemma ResumeLocalLine(s: Writer, ok: bool)
    requires QueuesOk(s) && s.localRunners != []
    ensures LocalLine(LocalResumed(s, 0, ok)) == LocalLine(s)
  {
    hide LocalResumed, QueuesOk, Waiting;
    ResumeLocalParts(s, ok);
    Regroup(s.ran, HandOf(s.localRunners[0]), s.localQueue);
  }

  lemma HeldIsGenuine(s: Writer)
    requires QueuesOk(s) && LocalsOk(s) && s.localRunners != [] && s.localRunners[0].Writing?
    ensures Genuine(s.asked, s.localRunners[0].write)
  {
    hide Genuine, InAskOrder, Covered, PushLine, CoversLocals, AfterOwnLocal, OnePerItem;
    MannedAlone(s.localRunning, s.localRunners, s.localQueue);
    assert s.localRunners[0].write in LocalLine(s);
  }

  lemma LandedAfterOwnLocal(asked: seq<Write>, ran: seq<Write>, started: seq<Write>, queue: seq<Write>, w: Write)
    requires AfterOwnLocal(asked, ran, started + queue)
    ensures AfterOwnLocal(asked, ran + [w], started + queue) && AfterOwnLocal(asked, ran + [w], started + Coalesced(queue, w))
  {
    hide Coalesced;
    var newest := CoalescedShape(queue, w);
    assert w in ran + [w];
    assert forall r :: r in ran ==> r in ran + [w];
    forall x | x in started + Coalesced(queue, w) && x.ask < |asked| && asked[x.ask].writeLocal
      ensures exists r :: r in ran + [w] && r.ask == x.ask
    {
      if x != newest { assert x in started + queue; }
    }
  }

  lemma ResumeLocalPushes(s: Writer, ok: bool)
    requires QueuesOk(s) && PushesOk(s) && s.localRunners != []
    ensures PushesOk(LocalResumed(s, 0, ok))
  {
    hide Coalesced, InAskOrder, QueuesOk, Covered, InHand, Pushing, LocalResumed, Waiting;
    ResumeLocalParts(s, ok);
    var r := s.localRunners[0];
    PushingAll(HandOf(r), s.localQueue);
    if r.Writing? {
      PushingOne(r.write);
      if r.write.push {
        Regroup(s.started + s.pushQueue, [r.write], Pushing(s.localQueue));
        HandedOver(s.started, s.pushQueue, r.write, Pushing(s.localQueue));
      } else {
        assert [] + Pushing(s.localQueue) == Pushing(s.localQueue);
      }
    } else {
      assert [] + s.localQueue == s.localQueue;
    }
  }

  lemma ResumePushOk(s: Writer, confirmed: bool)
    requires QueuesOk(s) && s.pushRunners != []
    ensures LocalsOk(s) ==> LocalsOk(PushResumed(s, 0, confirmed))
    ensures PushesOk(s) ==> PushesOk(PushResumed(s, 0, confirmed))
  {
    hide InAskOrder, QueuesOk, Covered, Genuine, Pushing, PushResumed, Waiting;
    ResumePushParts(s, confirmed);
  }

  // ---------------------------------------------------------------- every run

  lemma StepLocals(s: Writer, event: Event)
    requires QueuesOk(s) && LocalsOk(s)
    ensures LocalsOk(Step(s, event))
  {
    hide LocalsOk, QueuesOk, Enqueue, LocalResumed, PushResumed;
    OneRunner(s);
    match event
    case Ask(_, _, _, _, _) =>
      var w := Asking(s, event);
      if w.writeLocal { EnqueueLocalLocals(s, w); } else { EnqueuePushLocals(s, w); }
    case ResumeLocal(i, ok) => if i < |s.localRunners| { ResumeLocalLocals(s, ok); } else { OutOfRange(s, event); }
    case ResumePush(i, confirmed) => if i < |s.pushRunners| { ResumePushOk(s, confirmed); } else { OutOfRange(s, event); }
    case ForgetPushed => ForgettingChangesNothing(s);
  }

  lemma OutOfRange(s: Writer, event: Event)
    requires (event.ResumeLocal? && event.local >= |s.localRunners|) || (event.ResumePush? && event.pusher >= |s.pushRunners|)
    ensures Step(s, event) == s
  {
  }

  lemma ForgettingChangesNothing(s: Writer)
    ensures var t := Step(s, ForgetPushed); (LocalsOk(s) ==> LocalsOk(t)) && (PushesOk(s) ==> PushesOk(t))
  {
    hide InAskOrder, Covered, Genuine, Pushing, InHand, AfterOwnLocal;
  }

  /** Requests that never ask for a push alone while an older push of the item waits for its row. */
  predicate Orderly(s: Writer, event: Event) { event.Ask? ==> !Overtakes(s, Asking(s, event)) }

  lemma StepPushes(s: Writer, event: Event)
    requires QueuesOk(s) && LocalsOk(s) && PushesOk(s) && Orderly(s, event)
    ensures PushesOk(Step(s, event))
  {
    hide LocalsOk, PushesOk, Enqueue, LocalResumed, PushResumed, Overtakes;
    match event
    case Ask(_, _, _, _, _) =>
      var w := Asking(s, event);
      if w.writeLocal { EnqueueLocalPushes(s, w); } else if w.push { DirectPushKeepsOrderIff(s, w); } else { NothingAsked(s, w); }
    case ResumeLocal(i, ok) => if i < |s.localRunners| { ResumeLocalPushes(s, ok); } else { OutOfRange(s, event); }
    case ResumePush(i, confirmed) => if i < |s.pushRunners| { ResumePushOk(s, confirmed); } else { OutOfRange(s, event); }
    case ForgetPushed => ForgettingChangesNothing(s);
  }

  lemma NothingAsked(s: Writer, w: Write)
    requires PushesOk(s) && !w.writeLocal && !w.push
    ensures PushesOk(Enqueue(s, w))
  {
    hide InAskOrder, Covered, Pushing, InHand;
  }

  predicate OrderlyRun(s: Writer, events: seq<Event>)
    decreases |events|
  {
    events == [] || (Orderly(s, events[0]) && OrderlyRun(Step(s, events[0]), events[1..]))
  }

  lemma {:induction false} RunOk(s: Writer, events: seq<Event>)
    requires QueuesOk(s) && LocalsOk(s)
    ensures QueuesOk(Run(s, events)) && LocalsOk(Run(s, events))
    ensures PushesOk(s) && OrderlyRun(s, events) ==> PushesOk(Run(s, events))
    decreases |events|
  {
    hide QueuesOk, LocalsOk, PushesOk, Step, Orderly;
    if events != [] {
      StepQueues(s, events[0]);
      StepLocals(s, events[0]);
      if PushesOk(s) && OrderlyRun(s, events) { StepPushes(s, events[0]); }
      RunOk(Step(s, events[0]), events[1..]);
    }
  }

  lemma EmptyOk()
    ensures QueuesOk(EMPTY) && LocalsOk(EMPTY) && PushesOk(EMPTY)
  {
  }

  /** In every run: at most one local row and one push are being written, each queue holds at most
      one write per item, no queue waits without a runner, and so a shutdown never takes a write
      itself. Every item's local rows are written in the order they were asked for, and a push never
      starts before the local half of its own request has run. */
  lemma QueuesAreServedInOrder(events: seq<Event>)
    ensures var s := Run(EMPTY, events);
            && |s.localRunners| <= 1 && |s.pushRunners| <= 1
            && OnePerItem(s.localQueue) && OnePerItem(s.pushQueue)
            && Drained(s.localRunning, s.localQueue) == None && Drained(s.pushRunning, s.pushQueue) == None
            && InAskOrder(s.ran)
            && AfterOwnLocal(s.asked, s.ran, s.started)
  {
    hide Run, QueuesOk, LocalsOk, OnePerItem, InAskOrder, AfterOwnLocal;
    EmptyOk();
    RunOk(EMPTY, events);
    ServedInOrder(Run(EMPTY, events));
  }

  lemma ServedInOrder(s: Writer)
    requires QueuesOk(s) && LocalsOk(s)
    ensures |s.localRunners| <= 1 && |s.pushRunners| <= 1
    ensures OnePerItem(s.localQueue) && OnePerItem(s.pushQueue)
    ensures Drained(s.localRunning, s.localQueue) == None && Drained(s.pushRunning, s.pushQueue) == None
    ensures InAskOrder(s.ran) && AfterOwnLocal(s.asked, s.ran, s.started)
  {
    hide OnePerItem, InAskOrder, Genuine, CoversLocals, InHand;
    OrderOfPart(s.ran, Waiting(s));
    FewerPushes(s.asked, s.ran, s.started, s.pushQueue);
  }

  lemma FewerPushes(asked: seq<Write>, ran: seq<Write>, a: seq<Write>, b: seq<Write>)
    requires AfterOwnLocal(asked, ran, a + b)
    ensures AfterOwnLocal(asked, ran, a)
  {
  }

  lemma OrderOfPart(a: seq<Write>, b: seq<Write>)
    requires InAskOrder(a + b)
    ensures InAskOrder(a)
  {
    forall i, j | 0 <= i < j < |a| && a[i].item == a[j].item ensures a[i].ask < a[j].ask {
      assert (a + b)[i] == a[i] && (a + b)[j] == a[j];
    }
  }

  /** The last write of the item in `ws` is request `a`, with its value. */
  predicate EndsAt(ws: seq<Write>, a: Write) {
    exists k :: 0 <= k < |ws| && ws[k].ask == a.ask && ValueOf(ws[k]) == ValueOf(a) && forall j :: k < j < |ws| ==> ws[j].item != a.item
  }

  predicate Quiet(s: Writer) { s.localRunners == [] && s.pushRunners == [] }

  lemma EndsAtLast(asked: seq<Write>, ws: seq<Write>, a: Write)
    requires InAskOrder(ws) && AllGenuine(asked, ws) && Numbered(asked) && a in asked && Covered(a, ws)
    requires forall w :: w in ws && w.item == a.item ==> w.ask <= a.ask
    ensures EndsAt(ws, a)
  {
    var w :| w in ws && w.item == a.item && w.ask >= a.ask;
    var k :| 0 <= k < |ws| && ws[k] == w;
    assert w.ask == a.ask;
    forall j | k < j < |ws| ensures ws[j].item != a.item { assert ws[j] in ws; }
  }

  lemma QuietIsEmpty(s: Writer)
    requires QueuesOk(s) && Quiet(s)
    ensures LocalLine(s) == s.ran && PushLine(s) == s.started
  {
  }

  /** Once no runner is left, the local row last written for an item is the one last asked for. */
  lemma LocalRowsEndAtTheLastAsked(events: seq<Event>, a: Write)
    requires var s := Run(EMPTY, events);
             Quiet(s) && a in s.asked && a.writeLocal && forall b :: b in s.asked && b.item == a.item ==> b.ask <= a.ask
    ensures EndsAt(Run(EMPTY, events).ran, a)
  {
    hide Run, Covered, EndsAt, InAskOrder, AfterOwnLocal;
    EmptyOk();
    RunOk(EMPTY, events);
    var s := Run(EMPTY, events);
    QuietIsEmpty(s);
    forall w | w in s.ran && w.item == a.item ensures w.ask <= a.ask { assert Genuine(s.asked, w) && s.asked[w.ask] in s.asked; }
    EndsAtLast(s.asked, s.ran, a);
  }

  /** Coalescing loses no push: while an orderly run goes on, every push asked for has started, or a
      later push of its item has, or one of them is on its way; pushes of an item start in the order
      they were asked for; and once no runner is left, the last one started is the last asked for. */
  lemma NoPushIsLost(events: seq<Event>, a: Write)
    requires OrderlyRun(EMPTY, events) && a in Run(EMPTY, events).asked && a.push
    ensures var s := Run(EMPTY, events);
            && InAskOrder(s.started)
            && Covered(a, PushLine(s))
            && (Quiet(s) && (forall b :: b in s.asked && b.item == a.item ==> b.ask <= a.ask) ==> EndsAt(s.started, a))
  {
    hide Run, Covered, EndsAt, InAskOrder, AfterOwnLocal, OrderlyRun;
    EmptyOk();
    RunOk(EMPTY, events);
    var s := Run(EMPTY, events);
    Regroup(s.started, s.pushQueue, Pushing(Waiting(s)));
    OrderOfPart(s.started, s.pushQueue + Pushing(Waiting(s)));
    if Quiet(s) && forall b :: b in s.asked && b.item == a.item ==> b.ask <= a.ask {
      QuietIsEmpty(s);
      forall w | w in s.started && w.item == a.item ensures w.ask <= a.ask { assert Genuine(s.asked, w) && s.asked[w.ask] in s.asked; }
      EndsAtLast(s.asked, s.started, a);
    }
  }

  // ---------------------------------------------------------------- nothing is invented

  /** A push of the item was asked for. */
  predicate Warranted(asked: seq<Write>, w: Write) { w.push ==> exists a :: a in asked && a.push && a.item == w.item }

  predicate AllWarranted(s: Writer) { forall w :: w in s.started + s.pushQueue + Waiting(s) ==> Warranted(s.asked, w) }

  lemma CoalescedWarranted(asked: seq<Write>, queue: seq<Write>, w: Write)
    requires Warranted(asked, w) && forall x :: x in queue ==> Warranted(asked, x)
    ensures forall x :: x in Coalesced(queue, w) ==> Warranted(asked, x)
  {
    hide Warranted;
    var newest := CoalescedShape(queue, w);
    if newest.push && !w.push {
      CoalescedPush(queue, w);
      var x :| x in queue && x.item == w.item && x.push;
      SameWarrant(asked, x, newest);
    } else {
      SameWarrant(asked, w, newest);
    }
  }

  lemma CoalescedPush(queue: seq<Write>, w: Write)
    requires Coalesced(queue, w)[|Others(queue, w.item)|].push && !w.push
    ensures exists x :: x in queue && x.item == w.item && x.push
  {
  }

  lemma SameWarrant(asked: seq<Write>, x: Write, y: Write)
    requires Warranted(asked, x) && x.item == y.item && (y.push ==> x.push)
    ensures Warranted(asked, y)
  {
  }

  lemma MoreWarranted(asked: seq<Write>, w: Write, x: Write)
    requires Warranted(asked, x)
    ensures Warranted(asked + [w], x) && Warranted(asked + [w], w)
  {
    if x.push {
      var a :| a in asked && a.push && a.item == x.item;
      assert a in asked + [w];
    }
    assert w in asked + [w];
  }

  lemma {:induction false} InHandOne(runners: seq<Runner>)
    requires |runners| <= 1
    ensures InHand(runners) == if runners != [] && runners[0].Writing? then [runners[0].write] else []
  {
    if runners != [] { assert runners[1..] == []; }
  }

  lemma StepWarranted(s: Writer, event: Event)
    requires QueuesOk(s) && AllWarranted(s)
    ensures AllWarranted(Step(s, event))
  {
    hide AllWarranted, QueuesOk, Enqueue, LocalResumed, PushResumed;
    match event
    case Ask(_, _, _, _, _) => AskWarranted(s, Asking(s, event));
    case ResumeLocal(i, ok) => OneRunner(s); if i < |s.localRunners| { LocalWarranted(s, ok); } else { OutOfRange(s, event); }
    case ResumePush(i, confirmed) => OneRunner(s); if i < |s.pushRunners| { PushWarranted(s, confirmed); } else { OutOfRange(s, event); }
    case ForgetPushed => ForgettingWarranted(s);
  }

  lemma OneRunner(s: Writer)
    requires QueuesOk(s)
    ensures |s.localRunners| <= 1 && |s.pushRunners| <= 1
  {
  }

  lemma ForgettingWarranted(s: Writer)
    requires AllWarranted(s)
    ensures AllWarranted(Step(s, ForgetPushed))
  {
    hide Warranted, InHand;
  }

  lemma PushWarranted(s: Writer, confirmed: bool)
    requires AllWarranted(s) && |s.pushRunners| == 1
    ensures AllWarranted(PushResumed(s, 0, confirmed))
  {
    hide Warranted, InHand;
  }

  lemma AskWarranted(s: Writer, w: Write)
    requires QueuesOk(s) && AllWarranted(s)
    ensures AllWarranted(Enqueue(s, w))
  {
    hide Warranted, Coalesced, InHand, OnePerItem;
    var asked := s.asked + [w];
    forall x | x in s.started + s.pushQueue + Waiting(s) ensures Warranted(asked, x) { MoreWarranted(s.asked, w, x); }
    AskedIsWarranted(s.asked, w);
    CoalescedWarranted(asked, s.localQueue, w);
    CoalescedWarranted(asked, s.pushQueue, w);
    var t := Enqueue(s, w);
    InHandOne(s.localRunners);
    InHandOne(t.localRunners);
  }

  lemma AskedIsWarranted(asked: seq<Write>, w: Write)
    ensures Warranted(asked + [w], w)
  {
    assert w in asked + [w];
  }

  lemma LocalWarranted(s: Writer, ok: bool)
    requires QueuesOk(s) && AllWarranted(s) && s.localRunners != []
    ensures AllWarranted(LocalResumed(s, 0, ok))
  {
    hide Warranted, Coalesced, InHand, OnePerItem, NextLocal, FinishLocal;
    if s.localRunners[0].Writing? {
      FinishWarranted(s, s.localRunners[0].write, ok);
      NextWarranted(FinishLocal(s, s.localRunners[0].write, ok));
    } else {
      NextWarranted(s);
    }
  }

  lemma FinishWarranted(s: Writer, w: Write, ok: bool)
    requires AllWarranted(s) && |s.localRunners| == 1 && s.localRunners[0] == Writing(w)
    ensures var t := FinishLocal(s, w, ok); AllWarranted(t) && t.localRunners == s.localRunners
  {
    hide Warranted, Coalesced, InHand;
    InHandOne(s.localRunners);
    assert w in InHand(s.localRunners) + s.localQueue;
    CoalescedWarranted(s.asked, s.pushQueue, w);
  }

  lemma NextWarranted(s: Writer)
    requires AllWarranted(s) && |s.localRunners| == 1
    ensures AllWarranted(NextLocal(s, 0))
  {
    hide Warranted, InHand;
    InHandOne(s.localRunners);
    InHandOne(NextLocal(s, 0).localRunners);
  }

  lemma {:induction false} RunWarranted(s: Writer, events: seq<Event>)
    requires QueuesOk(s) && AllWarranted(s)
    ensures AllWarranted(Run(s, events))
    decreases |events|
  {
    hide QueuesOk, AllWarranted, Step;
    if events != [] {
      StepQueues(s, events[0]);
      StepWarranted(s, events[0]);
      RunWarranted(Step(s, events[0]), events[1..]);
    }
  }

  /** In every run, orderly or not: a push that starts has the value of a request, and a push of its item was
      asked for. */
  lemma NoPushIsInvented(events: seq<Event>, w: Write)
    requires w in Run(EMPTY, events).started
    ensures var s := Run(EMPTY, events);
            && w.ask < |s.asked| && ValueOf(s.asked[w.ask]) == ValueOf(w)
            && exists a :: a in s.asked && a.push && a.item == w.item
  {
    hide Run, Covered, InAskOrder, AfterOwnLocal, Warranted;
    EmptyOk();
    RunOk(EMPTY, events);
    RunWarranted(EMPTY, events);
    StartedPushes(events);
    var s := Run(EMPTY, events);
    assert w in s.started + s.pushQueue + Waiting(s);
    assert w in PushLine(s);
    WarrantOf(s.asked, w);
  }

  lemma WarrantOf(asked: seq<Write>, w: Write)
    requires Warranted(asked, w) && w.push
    ensures exists a :: a in asked && a.push && a.item == w.item
  {
  }

  /** Only pushing writes are ever started. */
  lemma StartedPushes(events: seq<Event>)
    ensures forall w :: w in Run(EMPTY, events).started ==> w.push
  {
    hide Run;
    RunStartsPushes(EMPTY, events);
  }

  lemma {:induction false} RunStartsPushes(s: Writer, events: seq<Event>)
    requires QueuesOk(s) && forall w :: w in s.started ==> w.push
    ensures forall w :: w in Run(s, events).started ==> w.push
    decreases |events|
  {
    hide QueuesOk, Step;
    if events != [] {
      StepQueues(s, events[0]);
      StepStartsPushes(s, events[0]);
      RunStartsPushes(Step(s, events[0]), events[1..]);
    }
  }

  lemma StepStartsPushes(s: Writer, event: Event)
    requires QueuesOk(s) && forall w :: w in s.started ==> w.push
    ensures forall w :: w in Step(s, event).started ==> w.push
  {
    hide Coalesced, OnePerItem;
  }

  predicate Matches(w: Written, e: Event)
    requires e.Ask?
  {
    w.item == e.item && w.finished == e.finished && -0.5 < w.position - e.position < 0.5
  }

  /** The server has the value, or is about to. */
  predicate AlreadyPushed(s: Writer, e: Event)
    requires e.Ask?
  {
    || (s.lastPushed.Some? && Matches(s.lastPushed.value, e))
    || (s.inFlight.Some? && Matches(s.inFlight.value, e))
    || (exists w :: w in s.localQueue + s.pushQueue && w.push && Matches(ValueOf(w), e))
  }

  /** A request as the player makes it: the local half is left out exactly when the row already has the
      value, and a push the server has already, or is about to have, is not asked for. */
  predicate Requested(s: Writer, e: Event)
    requires e.Ask?
  {
    && (e.writeLocal <==> !(s.lastLocal.Some? && Matches(s.lastLocal.value, e)))
    && (e.push ==> !AlreadyPushed(s, e))
    && (e.writeLocal || e.push)
  }

  const FIRST := Ask("book", 20.0, false, true, false)
  const OLDER := Ask("book", 10.0, false, true, true)
  const NEWER := Ask("book", 20.0, false, false, true)

  /** The row of 20 has landed and nothing is on its way. */
  const LANDED := Run(EMPTY, [FIRST, ResumeLocal(0, true), ResumeLocal(0, true)])

  lemma FirstLands()
    ensures var w := Write(0, "book", 20.0, false, true, false);
            LANDED == EMPTY.(asked := [w], ran := [w], lastLocal := Some(Written("book", 20.0, false)))
  {
    var w := Write(0, "book", 20.0, false, true, false);
    var s1 := Step(EMPTY, FIRST);
    assert s1.localQueue == [w] && s1.localRunners == [Spawned] && s1.asked == [w];
    var s2 := Step(s1, ResumeLocal(0, true));
    assert s2.localQueue == [] && s2.localRunners == [Writing(w)];
    var s3 := Step(s2, ResumeLocal(0, true));
    assert s3.localRunners == [] && s3.ran == [w];
    ThreeSteps(EMPTY, FIRST, ResumeLocal(0, true), ResumeLocal(0, true));
  }

  /** The row of the older write is being made: the last row that landed is still the one of 20. */
  lemma OlderIsBeingMade()
    ensures var w := Write(1, "book", 10.0, false, true, true);
            var s := Step(Step(LANDED, OLDER), ResumeLocal(0, true));
            && s == LANDED.(asked := s.asked, localRunning := true, localRunners := [Writing(w)])
            && s.asked == LANDED.asked + [w]
  {
    FirstLands();
    var w := Write(1, "book", 10.0, false, true, true);
    var s1 := Step(LANDED, OLDER);
    assert s1.localQueue == [w] && s1.localRunners == [Spawned];
    assert Step(s1, ResumeLocal(0, true)).localQueue == [];
  }

  /** The other runs: the row of 20 has landed; the listener goes back, and the row of 10 is being made;
      the listener returns to 20, whose row is taken for the last one made, so that it is asked to be
      pushed alone. Then 10's own push replaces it, and 20 is never pushed. */
  lemma OvertakenPushIsLost()
    ensures var making := Step(Step(LANDED, OLDER), ResumeLocal(0, true));
            var s := Run(LANDED, [OLDER, ResumeLocal(0, true), NEWER, ResumeLocal(0, true), ResumePush(0, true), ResumePush(0, true)]);
            && Requested(EMPTY, FIRST) && Requested(LANDED, OLDER) && Requested(making, NEWER)
            && making.lastLocal == Some(Written("book", 20.0, false))
            && Quiet(s) && |s.asked| == 3 && s.asked[2].position == 20.0 && s.started == [s.asked[1]]
  {
    hide Run;
    FirstLands();
    OlderIsBeingMade();
    var first, older, newer := Write(0, "book", 20.0, false, true, false), Write(1, "book", 10.0, false, true, true), Write(2, "book", 20.0, false, false, true);
    var s2 := Step(Step(LANDED, OLDER), ResumeLocal(0, true));
    var s3 := Step(s2, NEWER);
    assert s3.pushQueue == [newer] && s3.pushRunners == [Spawned] && s3.asked == [first, older, newer];
    var s4 := Step(s3, ResumeLocal(0, true));
    assert Others([newer], "book") == [];
    assert s4.pushQueue == [older] && s4.localRunners == [] && s4.pushRunners == [Spawned];
    var s5 := Step(s4, ResumePush(0, true));
    assert s5.pushQueue == [] && s5.started == [older] && s5.pushRunners == [Writing(older)];
    var s6 := Step(s5, ResumePush(0, true));
    assert s6.pushRunners == [] && s6.started == [older];
    SixSteps(LANDED, OLDER, ResumeLocal(0, true), NEWER, ResumeLocal(0, true), ResumePush(0, true), ResumePush(0, true));
  }

  lemma ThreeSteps(s: Writer, a: Event, b: Event, c: Event)
    ensures Run(s, [a, b, c]) == Step(Step(Step(s, a), b), c)
  {
    hide Step, Run;
    RunFirst(s, a, [b, c]);
    RunFirst(Step(s, a), b, [c]);
    RunFirst(Step(Step(s, a), b), c, []);
    RunNone(Step(Step(Step(s, a), b), c));
    assert [a, b, c] == [a] + [b, c] && [b, c] == [b] + [c] && [c] == [c] + [];
  }

  lemma SixSteps(s: Writer, a: Event, b: Event, c: Event, d: Event, e: Event, f: Event)
    ensures Run(s, [a, b, c, d, e, f]) == Step(Step(Step(Step(Step(Step(s, a), b), c), d), e), f)
  {
    hide Step, Run;
    var t := Step(Step(Step(s, a), b), c);
    assert [a, b, c, d, e, f] == [a] + [b, c, d, e, f];
    RunFirst(s, a, [b, c, d, e, f]);
    assert [b, c, d, e, f] == [b] + [c, d, e, f];
    RunFirst(Step(s, a), b, [c, d, e, f]);
    assert [c, d, e, f] == [c] + [d, e, f];
    RunFirst(Step(Step(s, a), b), c, [d, e, f]);
    ThreeSteps(t, d, e, f);
  }

  lemma RunFirst(s: Writer, first: Event, rest: seq<Event>)
    ensures Run(s, [first] + rest) == Run(Step(s, first), rest)
  {
    hide Step;
    assert ([first] + rest)[1..] == rest;
  }

  lemma RunNone(s: Writer)
    ensures Run(s, []) == s
  {
  }
}
