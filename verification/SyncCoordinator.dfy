/** Which screen runs the startup sync of an account, and who is told when it is done. A completion
    calls its waiters one after the other, and each of them may claim, register and complete again
    before the next one is called: a completion under way is a frame on a stack. */
module SyncCoordinator {
  import opened Prelude

  datatype Key = Key(server: string, account: string)

  datatype SyncOutcome = Fine | Broken(error: string)

  /** A live claim and the callbacks registered for it, in order. `number` tells claims apart. */
  datatype Entry = Entry(number: nat, waiters: seq<nat>)

  /** A completion under way: the claim it ended, and the callbacks it has still to call. */
  datatype Frame = Frame(claim: nat, outcome: SyncOutcome, remaining: seq<nat>)

  /** A registered callback: for which account, and the claim that was live then. */
  datatype Registration = Registration(key: Key, claim: Option<nat>)

  datatype Call = Call(callback: nat, outcome: Option<SyncOutcome>)

  /** The claims, the completions under way (the innermost last), and the history: every claim made,
      how each completed one ended, every callback registered and every call made. */
  datatype Coordinator = Coordinator(
    claims: map<Key, Entry>,
    frames: seq<Frame>,
    made: nat,
    done: map<nat, SyncOutcome>,
    registered: seq<Registration>,
    calls: seq<Call>)

  datatype Event =
    | Claim(key: Key)
    | Register(key: Key)
    | Complete(key: Key, outcome: SyncOutcome)
    | CallNext

  const NOBODY := Coordinator(map[], [], 0, map[], [], [])

  /** The first caller for a key gets the claim. */
  function Claimed(c: Coordinator, key: Key): Coordinator {
    if key in c.claims then c else c.(claims := c.claims[key := Entry(c.made, [])], made := c.made + 1)
  }

  /** A callback waits for the live claim; with none it is called at once, with no outcome. */
  function Registered(c: Coordinator, key: Key): Coordinator {
    var callback := |c.registered|;
    if key in c.claims then
      var entry := c.claims[key];
      c.(claims := c.claims[key := entry.(waiters := entry.waiters + [callback])],
         registered := c.registered + [Registration(key, Some(entry.number))])
    else
      c.(registered := c.registered + [Registration(key, None)], calls := c.calls + [Call(callback, None)])
  }

  /** The claim is gone before its first waiter is called. */
  function Completed(c: Coordinator, key: Key, outcome: SyncOutcome): Coordinator {
    if key !in c.claims then c
    else
      var entry := c.claims[key];
      c.(claims := c.claims - {key}, done := c.done[entry.number := outcome], frames := c.frames + [Frame(entry.number, outcome, entry.waiters)])
  }

  /** The innermost completion under way calls its next waiter, or is over. */
  function NextCalled(c: Coordinator): Coordinator {
    if c.frames == [] then c
    else
      var outer, top := c.frames[..|c.frames| - 1], c.frames[|c.frames| - 1];
      if top.remaining == [] then c.(frames := outer)
      else c.(frames := outer + [top.(remaining := top.remaining[1..])], calls := c.calls + [Call(top.remaining[0], Some(top.outcome))])
  }

  function Step(c: Coordinator, event: Event): Coordinator {
    match event
    case Claim(key) => Claimed(c, key)
    case Register(key) => Registered(c, key)
    case Complete(key, outcome) => Completed(c, key, outcome)
    case CallNext => NextCalled(c)
  }

  function Run(c: Coordinator, events: seq<Event>): Coordinator
    decreases |events|
  {
    if events == [] then c else Run(Step(c, events[0]), events[1..])
  }

  // ---------------------------------------------------------------- where a callback is

  function Count(ids: seq<nat>, id: nat): nat {
    if ids == [] then 0 else (if ids[|ids| - 1] == id then 1 else 0) + Count(ids[..|ids| - 1], id)
  }

  /** How often the callback has been called. */
  function Calls(calls: seq<Call>, id: nat): nat {
    if calls == [] then 0 else (if calls[|calls| - 1].callback == id then 1 else 0) + Calls(calls[..|calls| - 1], id)
  }

  function Due(frames: seq<Frame>, id: nat): nat {
    if frames == [] then 0 else Count(frames[|frames| - 1].remaining, id) + Due(frames[..|frames| - 1], id)
  }

  function Waiting(c: Coordinator, id: nat): nat
    requires id < |c.registered|
  {
    var key := c.registered[id].key;
    if key in c.claims then Count(c.claims[key].waiters, id) else 0
  }

  ghost predicate CallOk(c: Coordinator, call: Call) {
    && call.callback < |c.registered|
    && match c.registered[call.callback].claim
       case None => call.outcome == None
       case Some(claim) => claim in c.done && call.outcome == Some(c.done[claim])
  }

  ghost predicate FrameOk(c: Coordinator, f: Frame) {
    && f.claim in c.done && c.done[f.claim] == f.outcome
    && forall id :: id in f.remaining ==> id < |c.registered| && c.registered[id].claim == Some(f.claim)
  }

  ghost predicate EntryOk(c: Coordinator, key: Key) {
    && key in c.claims && c.claims[key].number < c.made && c.claims[key].number !in c.done
    && forall id :: id in c.claims[key].waiters ==> id < |c.registered| && c.registered[id] == Registration(key, Some(c.claims[key].number))
  }

  /** Every claim made is completed, or is the live claim of one key. */
  ghost predicate ClaimsOk(c: Coordinator) {
    && (forall key :: key in c.claims ==> EntryOk(c, key))
    && (forall n :: n in c.done ==> n < c.made)
    && (forall n :: 0 <= n < c.made && n !in c.done ==> exists key :: key in c.claims && c.claims[key].number == n)
    && (forall k, l :: k in c.claims && l in c.claims && c.claims[k].number == c.claims[l].number ==> k == l)
  }

  /** Every callback is in exactly one place: called, waiting for its claim, or due in a completion. */
  ghost predicate CallbacksOk(c: Coordinator) {
    && (forall id :: 0 <= id < |c.registered| ==> Calls(c.calls, id) + Waiting(c, id) + Due(c.frames, id) == 1)
    && (forall call :: call in c.calls ==> CallOk(c, call))
    && (forall f :: f in c.frames ==> FrameOk(c, f))
  }

  ghost predicate Ok(c: Coordinator) { ClaimsOk(c) && CallbacksOk(c) }

  lemma {:induction false} CountAbsent(ids: seq<nat>, id: nat)
    requires id !in ids
    ensures Count(ids, id) == 0
  {
    if ids != [] { CountAbsent(ids[..|ids| - 1], id); }
  }

  lemma {:induction false} CountFirst(ids: seq<nat>, id: nat)
    requires ids != []
    ensures Count(ids, id) == (if ids[0] == id then 1 else 0) + Count(ids[1..], id)
  {
    if |ids| > 1 {
      CountFirst(ids[..|ids| - 1], id);
      assert ids[..|ids| - 1][1..] == ids[1..][..|ids| - 2];
    } else {
      assert ids[..|ids| - 1] == [] && ids[1..] == [];
    }
  }

  lemma CountPush(ids: seq<nat>, x: nat, id: nat)
    ensures Count(ids + [x], id) == Count(ids, id) + (if x == id then 1 else 0)
  {
    assert (ids + [x])[..|ids|] == ids;
  }

  lemma CallsPush(calls: seq<Call>, call: Call, id: nat)
    ensures Calls(calls + [call], id) == Calls(calls, id) + (if call.callback == id then 1 else 0)
  {
    assert (calls + [call])[..|calls|] == calls;
  }

  lemma {:induction false} NotCalled(calls: seq<Call>, id: nat)
    requires forall call :: call in calls ==> call.callback != id
    ensures Calls(calls, id) == 0
  {
    if calls != [] { NotCalled(calls[..|calls| - 1], id); }
  }

  lemma {:induction false} CalledOnce(calls: seq<Call>, id: nat) returns (call: Call)
    requires Calls(calls, id) > 0
    ensures call in calls && call.callback == id
  {
    call := calls[|calls| - 1];
    if call.callback != id { call := CalledOnce(calls[..|calls| - 1], id); }
  }

  lemma DuePush(frames: seq<Frame>, f: Frame, id: nat)
    ensures Due(frames + [f], id) == Due(frames, id) + Count(f.remaining, id)
  {
    assert (frames + [f])[..|frames|] == frames;
  }

  lemma {:induction false} NotDue(frames: seq<Frame>, id: nat)
    requires forall f :: f in frames ==> id !in f.remaining
    ensures Due(frames, id) == 0
  {
    if frames != [] {
      CountAbsent(frames[|frames| - 1].remaining, id);
      NotDue(frames[..|frames| - 1], id);
    }
  }

  // ---------------------------------------------------------------- every step

  lemma ClaimOk(c: Coordinator, key: Key)
    requires Ok(c)
    ensures Ok(Claimed(c, key))
  {
    if key !in c.claims {
      var d := Claimed(c, key);
      forall k | k in d.claims ensures EntryOk(d, k) { if k != key { assert EntryOk(c, k); } }
      assert d.claims[key].number == c.made;
      forall n | 0 <= n < d.made && n !in d.done ensures exists k :: k in d.claims && d.claims[k].number == n {
        if n < c.made {
          var k :| k in c.claims && c.claims[k].number == n;
          assert k in d.claims && d.claims[k].number == n;
        }
      }
      forall k | k in c.claims ensures c.claims[k].number < c.made { assert EntryOk(c, k); }
      forall id | 0 <= id < |d.registered| ensures Waiting(d, id) == Waiting(c, id) {}
      forall call | call in d.calls ensures CallOk(d, call) { assert CallOk(c, call); }
      forall f | f in d.frames ensures FrameOk(d, f) { assert FrameOk(c, f); }
    }
  }

  lemma RegisterPlaces(c: Coordinator, key: Key)
    requires Ok(c)
    ensures var d := Registered(c, key);
            forall id :: 0 <= id < |d.registered| ==> Calls(d.calls, id) + Waiting(d, id) + Due(d.frames, id) == 1
  {
    var d, callback := Registered(c, key), |c.registered|;
    forall id | 0 <= id < |d.registered| ensures Calls(d.calls, id) + Waiting(d, id) + Due(d.frames, id) == 1 {
      CallsPush(c.calls, Call(callback, None), id);
      if key in c.claims { CountPush(c.claims[key].waiters, callback, id); }
      if id == callback {
        forall call | call in c.calls ensures call.callback != id { assert CallOk(c, call); }
        NotCalled(c.calls, id);
        forall f | f in c.frames ensures id !in f.remaining { assert FrameOk(c, f); }
        NotDue(c.frames, id);
        if key in c.claims {
          assert EntryOk(c, key);
          CountAbsent(c.claims[key].waiters, id);
        }
      }
    }
  }

  lemma RegisterEntries(c: Coordinator, key: Key, k: Key)
    requires EntryOk(c, k)
    ensures EntryOk(Registered(c, key), k) && Registered(c, key).claims[k].number == c.claims[k].number
  {
  }

  lemma RegisterClaims(c: Coordinator, key: Key)
    requires ClaimsOk(c)
    ensures ClaimsOk(Registered(c, key))
  {
    hide EntryOk;
    var d := Registered(c, key);
    assert d.claims.Keys == c.claims.Keys && d.made == c.made && d.done == c.done;
    forall k | k in d.claims ensures EntryOk(d, k) && d.claims[k].number == c.claims[k].number { RegisterEntries(c, key, k); }
    hide Registered;
    forall n | 0 <= n < d.made && n !in d.done ensures exists k :: k in d.claims && d.claims[k].number == n {
      var k :| k in c.claims && c.claims[k].number == n;
      assert k in d.claims && d.claims[k].number == n;
    }
  }

  lemma RegisterOk(c: Coordinator, key: Key)
    requires Ok(c)
    ensures Ok(Registered(c, key))
  {
    hide Calls, Waiting, Due, Count, ClaimsOk;
    var d := Registered(c, key);
    RegisterPlaces(c, key);
    RegisterClaims(c, key);
    forall call | call in d.calls ensures CallOk(d, call) { if call in c.calls { assert CallOk(c, call); } }
    forall f | f in d.frames ensures FrameOk(d, f) { assert FrameOk(c, f); }
  }

  lemma CompletePlaces(c: Coordinator, key: Key, outcome: SyncOutcome)
    requires Ok(c) && key in c.claims
    ensures var d := Completed(c, key, outcome);
            forall id :: 0 <= id < |d.registered| ==> Calls(d.calls, id) + Waiting(d, id) + Due(d.frames, id) == 1
  {
    var d, entry := Completed(c, key, outcome), c.claims[key];
    assert EntryOk(c, key);
    forall id | 0 <= id < |d.registered| ensures Calls(d.calls, id) + Waiting(d, id) + Due(d.frames, id) == 1 {
      DuePush(c.frames, Frame(entry.number, outcome, entry.waiters), id);
      if c.registered[id].key != key { CountAbsent(entry.waiters, id); }
    }
  }

  lemma CompleteOk(c: Coordinator, key: Key, outcome: SyncOutcome)
    requires Ok(c)
    ensures Ok(Completed(c, key, outcome))
  {
    hide Calls, Waiting, Due, Count;
    if key in c.claims {
      var d := Completed(c, key, outcome);
      CompletePlaces(c, key, outcome);
      assert EntryOk(c, key);
      forall k | k in d.claims ensures EntryOk(d, k) { assert EntryOk(c, k); }
      forall n | 0 <= n < d.made && n !in d.done ensures exists k :: k in d.claims && d.claims[k].number == n {
        var k :| k in c.claims && c.claims[k].number == n;
        assert k in d.claims && d.claims[k].number == n;
      }
      forall call | call in d.calls ensures CallOk(d, call) { assert CallOk(c, call); }
      forall f | f in d.frames ensures FrameOk(d, f) { if f in c.frames { assert FrameOk(c, f); } }
    }
  }

  lemma CallNextPlaces(c: Coordinator)
    requires Ok(c)
    ensures var d := NextCalled(c);
            forall id :: 0 <= id < |d.registered| ==> Calls(d.calls, id) + Waiting(d, id) + Due(d.frames, id) == 1
  {
    if c.frames != [] {
      var outer, top, d := c.frames[..|c.frames| - 1], c.frames[|c.frames| - 1], NextCalled(c);
      forall id | 0 <= id < |d.registered| ensures Calls(d.calls, id) + Waiting(d, id) + Due(d.frames, id) == 1 {
        if top.remaining != [] {
          CountFirst(top.remaining, id);
          DuePush(outer, top.(remaining := top.remaining[1..]), id);
          CallsPush(c.calls, Call(top.remaining[0], Some(top.outcome)), id);
        }
      }
    }
  }

  lemma CallOn(c: Coordinator, d: Coordinator, call: Call)
    requires CallOk(c, call) && d.registered == c.registered && d.done == c.done
    ensures CallOk(d, call)
  {
  }

  lemma FrameOn(c: Coordinator, d: Coordinator, f: Frame)
    requires FrameOk(c, f) && d.registered == c.registered && d.done == c.done
    ensures FrameOk(d, f) && (f.remaining != [] ==> FrameOk(d, f.(remaining := f.remaining[1..])) && CallOk(d, Call(f.remaining[0], Some(f.outcome))))
  {
    if f.remaining != [] { assert f.remaining[0] in f.remaining; }
  }

  lemma CallNextOk(c: Coordinator)
    requires Ok(c)
    ensures Ok(NextCalled(c))
  {
    hide Calls, Waiting, Due, Count, CallOk, FrameOk, ClaimsOk;
    CallNextPlaces(c);
    CallNextClaims(c);
    if c.frames != [] {
      var top, d := c.frames[|c.frames| - 1], NextCalled(c);
      assert FrameOk(c, top);
      FrameOn(c, d, top);
      forall call | call in c.calls ensures CallOk(d, call) { CallOn(c, d, call); }
      forall f | f in c.frames ensures FrameOk(d, f) { FrameOn(c, d, f); }
    }
  }

  lemma CallNextClaims(c: Coordinator)
    requires ClaimsOk(c)
    ensures ClaimsOk(NextCalled(c))
  {
    var d := NextCalled(c);
    forall k | k in d.claims ensures EntryOk(d, k) { assert EntryOk(c, k); }
  }

  lemma {:induction false} RunOk(c: Coordinator, events: seq<Event>)
    requires Ok(c)
    ensures Ok(Run(c, events))
    decreases |events|
  {
    hide Ok, Claimed, Registered, Completed, NextCalled;
    if events != [] {
      match events[0] {
        case Claim(key) => ClaimOk(c, key);
        case Register(key) => RegisterOk(c, key);
        case Complete(key, outcome) => CompleteOk(c, key, outcome);
        case CallNext => CallNextOk(c);
      }
      RunOk(Step(c, events[0]), events[1..]);
    }
  }

  // ---------------------------------------------------------------- every run

  /** In every run, waiters that claim, register and complete in between included: no two live claims
      are one claim, and a claim is live exactly until it is completed. */
  lemma OneLiveClaimPerKey(events: seq<Event>, n: nat)
    requires n < Run(NOBODY, events).made
    ensures var c := Run(NOBODY, events);
            && (n in c.done <==> forall key :: key in c.claims ==> c.claims[key].number != n)
            && (forall k, l :: k in c.claims && l in c.claims && c.claims[k].number == c.claims[l].number ==> k == l)
  {
    hide Run, CallbacksOk;
    NobodyOk();
    RunOk(NOBODY, events);
    var c := Run(NOBODY, events);
    forall key | key in c.claims ensures EntryOk(c, key) {}
  }

  lemma NobodyOk()
    ensures Ok(NOBODY)
  {
  }

  /** In every run no callback is called twice, and one that was not called waits for its live claim
      or is due in a completion under way. One registered with no claim live was called, with no
      outcome; one whose claim completed is called by the time no completion is under way, with that
      claim's outcome. */
  lemma EveryCallbackRunsOnce(events: seq<Event>, id: nat)
    requires id < |Run(NOBODY, events).registered|
    ensures var c := Run(NOBODY, events); var claim := c.registered[id].claim;
            && Calls(c.calls, id) <= 1
            && (Calls(c.calls, id) == 0 <==> Waiting(c, id) + Due(c.frames, id) == 1)
            && (claim == None ==> Calls(c.calls, id) == 1 && Call(id, None) in c.calls)
            && (claim.Some? && claim.value in c.done && c.frames == [] ==> Calls(c.calls, id) == 1 && Call(id, Some(c.done[claim.value])) in c.calls)
            && (claim.Some? && claim.value !in c.done ==> Calls(c.calls, id) == 0)
  {
    hide Run, Count;
    NobodyOk();
    RunOk(NOBODY, events);
    var c := Run(NOBODY, events);
    if Waiting(c, id) > 0 { WaitsForItsClaim(c, id); }
    if Calls(c.calls, id) > 0 {
      var call := CalledOnce(c.calls, id);
      assert CallOk(c, call);
    }
    if c.registered[id].claim == None {
      forall f | f in c.frames ensures id !in f.remaining { assert FrameOk(c, f); }
      NotDue(c.frames, id);
    }
  }

  lemma WaitsForItsClaim(c: Coordinator, id: nat)
    requires Ok(c) && id < |c.registered| && Waiting(c, id) > 0
    ensures c.registered[id].claim.Some? && c.registered[id].claim.value !in c.done
  {
    var key := c.registered[id].key;
    assert EntryOk(c, key);
    if id !in c.claims[key].waiters { CountAbsent(c.claims[key].waiters, id); }
  }

  // ---------------------------------------------------------------- from a claim to its last waiter

  function Times(event: Event, count: nat): seq<Event> { if count == 0 then [] else [event] + Times(event, count - 1) }

  /** The callbacks with these numbers, called in that order. */
  function Told(ids: seq<nat>, outcome: SyncOutcome): seq<Call> {
    if ids == [] then [] else [Call(ids[0], Some(outcome))] + Told(ids[1..], outcome)
  }

  /** The numbers from `from` on. */
  function Numbers(from: nat, count: nat): seq<nat>
    decreases count
  {
    if count == 0 then [] else [from] + Numbers(from + 1, count - 1)
  }

  function RegisteredFor(key: Key, claim: nat, count: nat): seq<Registration> {
    if count == 0 then [] else [Registration(key, Some(claim))] + RegisteredFor(key, claim, count - 1)
  }

  lemma {:induction false} RunsOn(c: Coordinator, first: seq<Event>, rest: seq<Event>)
    ensures Run(c, first + rest) == Run(Run(c, first), rest)
    decreases |first|
  {
    hide Step;
    if first == [] {
      assert first + rest == rest;
    } else {
      assert (first + rest)[1..] == first[1..] + rest;
      RunsOn(Step(c, first[0]), first[1..], rest);
    }
  }

  lemma StepsOn(c: Coordinator, event: Event, count: nat)
    ensures Run(c, Times(event, count + 1)) == Run(Step(c, event), Times(event, count)) && Run(c, [event]) == Step(c, event)
  {
    hide Step;
    assert Times(event, count + 1)[1..] == Times(event, count) && [event][1..] == [];
  }

  /** A completion under way calls its waiters in order and is then over. */
  lemma {:induction false} FrameEmpties(c: Coordinator, outer: seq<Frame>, f: Frame)
    requires c.frames == outer + [f]
    ensures Run(c, Times(CallNext, |f.remaining| + 1)) == c.(frames := outer, calls := c.calls + Told(f.remaining, f.outcome))
    decreases |f.remaining|
  {
    hide Run;
    StepsOn(c, CallNext, |f.remaining|);
    if f.remaining == [] {
      NoSteps(c.(frames := outer));
      assert c.calls + [] == c.calls;
    } else {
      var next := f.(remaining := f.remaining[1..]);
      var called := c.(frames := outer + [next], calls := c.calls + [Call(f.remaining[0], Some(f.outcome))]);
      assert Step(c, CallNext) == called;
      FrameEmpties(called, outer, next);
      Regroup(c.calls, [Call(f.remaining[0], Some(f.outcome))], Told(next.remaining, f.outcome));
    }
  }

  lemma NoSteps(c: Coordinator)
    ensures Run(c, []) == c
  {
  }

  lemma {:induction false} Registrations(c: Coordinator, key: Key, count: nat)
    requires key in c.claims
    ensures var entry := c.claims[key];
            Run(c, Times(Register(key), count)) ==
            c.(claims := c.claims[key := Entry(entry.number, entry.waiters + Numbers(|c.registered|, count))],
               registered := c.registered + RegisteredFor(key, entry.number, count))
    decreases count
  {
    hide Run;
    var entry, from := c.claims[key], |c.registered|;
    if count == 0 {
      NoSteps(c);
      assert entry.waiters + [] == entry.waiters && c.registered + [] == c.registered && c.claims[key := entry] == c.claims;
    } else {
      StepsOn(c, Register(key), count - 1);
      var d := Step(c, Register(key));
      Registrations(d, key, count - 1);
      Regroup(entry.waiters, [from], Numbers(from + 1, count - 1));
      Regroup(c.registered, [Registration(key, Some(entry.number))], RegisteredFor(key, entry.number, count - 1));
      assert d.claims[key := Entry(entry.number, entry.waiters + Numbers(from, count))] == c.claims[key := Entry(entry.number, entry.waiters + Numbers(from, count))];
    }
  }

  /** From whatever came before: the caller for a key that is free gets a claim of its own; the callbacks
      registered while it is live wait; and its completion frees the key and calls exactly these, in the
      order of their registration and with its outcome. Nothing else changes. */
  lemma ClaimIsCompletedAndTold(c: Coordinator, key: Key, count: nat, outcome: SyncOutcome)
    requires key !in c.claims
    ensures Run(c, [Claim(key)] + (Times(Register(key), count) + ([Complete(key, outcome)] + Times(CallNext, count + 1)))) ==
            Coordinator(c.claims, c.frames, c.made + 1, c.done[c.made := outcome],
                        c.registered + RegisteredFor(key, c.made, count), c.calls + Told(Numbers(|c.registered|, count), outcome))
  {
    hide Run, Times, Told, RegisteredFor;
    var registers, nexts := Times(Register(key), count), Times(CallNext, count + 1);
    var end := [Complete(key, outcome)] + nexts;
    RunsOn(c, [Claim(key)], registers + end);
    StepsOn(c, Claim(key), 0);
    var claimed := Step(c, Claim(key));
    RunsOn(claimed, registers, end);
    Registrations(claimed, key, count);
    var waiting := Run(claimed, registers);
    RunsOn(waiting, [Complete(key, outcome)], nexts);
    StepsOn(waiting, Complete(key, outcome), 0);
    var waiters := Numbers(|c.registered|, count);
    HowMany(|c.registered|, count);
    assert [] + waiters == waiters;
    var completed := Step(waiting, Complete(key, outcome));
    FrameEmpties(completed, c.frames, Frame(c.made, outcome, waiters));
    assert completed.claims == c.claims;
  }

  lemma {:induction false} HowMany(from: nat, count: nat)
    ensures |Numbers(from, count)| == count
    decreases count
  {
    if count > 0 { HowMany(from + 1, count - 1); }
  }

  // ---------------------------------------------------------------- the coordinator itself

  /** The process-wide registry, updated in place. */
  class Claims {
    var claims: map<Key, Entry>
    var frames: seq<Frame>
    var made: nat
    var done: map<nat, SyncOutcome>
    var registered: seq<Registration>
    var calls: seq<Call>

    ghost function View(): Coordinator
      reads this
    {
      Coordinator(claims, frames, made, done, registered, calls)
    }

    constructor ()
      ensures View() == NOBODY
    {
      claims, frames, made, done, registered, calls := map[], [], 0, map[], [], [];
    }

    method ClaimStartupSync(key: Key) returns (first: bool)
      modifies this
      ensures View() == Claimed(old(View()), key)
      ensures first <==> key !in old(claims)
    {
      if key in claims {
        return false;
      }
      claims := claims[key := Entry(made, [])];
      made := made + 1;
      return true;
    }

    method OnCompleted(key: Key)
      modifies this
      ensures View() == Registered(old(View()), key)
    {
      var callback := |registered|;
      if key in claims {
        var entry := claims[key];
        registered := registered + [Registration(key, Some(entry.number))];
        claims := claims[key := entry.(waiters := entry.waiters + [callback])];
        return;
      }
      registered := registered + [Registration(key, None)];
      calls := calls + [Call(callback, None)];
    }

    method MarkCompleted(key: Key, outcome: SyncOutcome)
      modifies this
      ensures View() == Completed(old(View()), key, outcome)
    {
      if key in claims {
        var entry := claims[key];
        claims := claims - {key};
        done := done[entry.number := outcome];
        frames := frames + [Frame(entry.number, outcome, entry.waiters)];
      }
    }

    method CallNextWaiter()
      modifies this
      ensures View() == NextCalled(old(View()))
    {
      if frames == [] {
        return;
      }
      var top := frames[|frames| - 1];
      frames := frames[..|frames| - 1];
      if top.remaining != [] {
        calls := calls + [Call(top.remaining[0], Some(top.outcome))];
        frames := frames + [top.(remaining := top.remaining[1..])];
      }
    }
  }
}
