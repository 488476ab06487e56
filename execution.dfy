/** ExecutionMananger: the async-function dispatcher and its thread watchdog registry.
    Threads are modelled as explicit steps: a package is queued by Async, moved to the
    dispatcher's private queue by Drain, given a fresh worker thread by StartNext, and its
    body runs to completion in FinishTask. Clock readings are parameters. */
module Execution {
  import opened Outcomes

  /** FunctionPackage: a named unit of work; `body` is what calling its function does. */
  datatype FunctionPackage = FunctionPackage(name: string, body: Outcome, register: bool)

  /** What one turn of the start loop did: the private queue was empty, its oldest package
      was started on a new thread, or preparing that thread threw and the package was lost. */
  datatype Dispatch = NothingToStart | Started | StartFailed

  /** RunSafe: the body's own result, or `true` (continue) when it throws. */
  function RunSafe(name: string, body: Outcome): (r: bool)
    ensures body.Returned? ==> r == body.value
    ensures body.Threw? ==> r
    ensures !r <==> Halts(body)
  {
    match body
    case Returned(b) => b
    case Threw => true
  }

  /** Every watchdog of `before` is still in `after`, with the same timestamp. */
  ghost predicate KeepsWatchdogs(before: map<int, int>, after: map<int, int>) {
    forall k :: k in before ==> k in after && after[k] == before[k]
  }

  /** What became of a package the start loop took: it runs on the live worker `id`, its body
      has finished, or its thread could not be started and it was lost. */
  datatype Fate = RunningOn(id: int) | Finished | Lost

  /** The number of taken packages whose body has finished. */
  ghost function FinishedCount(fate: seq<Fate>): nat {
    if fate == [] then 0
    else FinishedCount(fate[..|fate| - 1]) + (if fate[|fate| - 1].Finished? then 1 else 0)
  }

  lemma FinishedCountAppend(fate: seq<Fate>, f: Fate)
    ensures FinishedCount(fate + [f]) == FinishedCount(fate) + (if f.Finished? then 1 else 0)
  {
    assert (fate + [f])[..|fate|] == fate;
  }

  /** Marking one unfinished package finished raises the count by exactly one. */
  lemma {:induction false} FinishedCountMark(fate: seq<Fate>, k: nat)
    requires k < |fate| && !fate[k].Finished?
    ensures FinishedCount(fate[k := Finished]) == FinishedCount(fate) + 1
  {
    var last := |fate| - 1;
    if k == last {
      assert fate[k := Finished][..last] == fate[..last];
    } else {
      assert fate[k := Finished][..last] == fate[..last][k := Finished];
      FinishedCountMark(fate[..last], k);
    }
  }

  /** The per-package account of the start loop. `fate[i]` says what became of `taken[i]`;
      `slot` maps each live worker to the index of the package it runs. A package that runs
      is run by exactly one live worker, and every live worker runs one taken package. */
  ghost predicate Accounted(taken: seq<FunctionPackage>, fate: seq<Fate>, slot: map<int, nat>,
                            workers: map<int, FunctionPackage>)
  {
    && |fate| == |taken|
    && (forall id :: id in workers <==> id in slot)
    && (forall id :: id in slot ==>
          && slot[id] < |fate| && fate[slot[id]] == RunningOn(id)
          && id in workers && workers[id] == taken[slot[id]])
    && (forall i :: 0 <= i < |fate| && fate[i].RunningOn? ==> fate[i].id in slot && slot[fate[i].id] == i)
  }

  /** Two live workers never run the same taken package. */
  lemma NoPackageRunsTwice(taken: seq<FunctionPackage>, fate: seq<Fate>, slot: map<int, nat>,
                           workers: map<int, FunctionPackage>, id1: int, id2: int)
    requires Accounted(taken, fate, slot, workers)
    requires id1 in workers && id2 in workers && id1 != id2
    ensures slot[id1] != slot[id2]
  {
  }

  /** So one package cannot be taken once and run by two workers while another taken package
      is accounted for nowhere: no fate and no slot map explain that state. */
  lemma SharedPackageUnaccounted(a: FunctionPackage, b: FunctionPackage, fate: seq<Fate>, slot: map<int, nat>)
    requires a != b
    ensures !Accounted([a, b], fate, slot, map[1 := a, 2 := a])
  {
    var workers := map[1 := a, 2 := a];
    if Accounted([a, b], fate, slot, workers) {
      NoPackageRunsTwice([a, b], fate, slot, workers, 1, 2);
      assert false;
    }
  }

  lemma AccountedLost(taken: seq<FunctionPackage>, fate: seq<Fate>, slot: map<int, nat>,
                      workers: map<int, FunctionPackage>, p: FunctionPackage)
    requires Accounted(taken, fate, slot, workers)
    ensures Accounted(taken + [p], fate + [Lost], slot, workers)
  {
    var fate' := fate + [Lost];
    forall i | 0 <= i < |fate'| && fate'[i].RunningOn?
      ensures fate'[i].id in slot && slot[fate'[i].id] == i
    {
      assert i < |fate| && fate'[i] == fate[i];
    }
  }

  lemma AccountedStart(taken: seq<FunctionPackage>, fate: seq<Fate>, slot: map<int, nat>,
                       workers: map<int, FunctionPackage>, p: FunctionPackage, id: int)
    requires Accounted(taken, fate, slot, workers)
    requires id !in workers
    ensures Accounted(taken + [p], fate + [RunningOn(id)], slot[id := |taken|], workers[id := p])
  {
    var taken', fate', slot', workers' := taken + [p], fate + [RunningOn(id)], slot[id := |taken|], workers[id := p];
    forall k | k in slot'
      ensures && slot'[k] < |fate'| && fate'[slot'[k]] == RunningOn(k)
              && k in workers' && workers'[k] == taken'[slot'[k]]
    {
      if k != id {
        assert slot'[k] == slot[k] < |fate|;
      }
    }
    forall i | 0 <= i < |fate'| && fate'[i].RunningOn?
      ensures fate'[i].id in slot' && slot'[fate'[i].id] == i
    {
      if i < |fate| {
        assert fate'[i] == fate[i];
        assert fate[i].id != id;
      }
    }
  }

  lemma AccountedFinish(taken: seq<FunctionPackage>, fate: seq<Fate>, slot: map<int, nat>,
                        workers: map<int, FunctionPackage>, id: int)
    requires Accounted(taken, fate, slot, workers)
    requires id in workers
    ensures slot[id] < |fate| && fate[slot[id]] == RunningOn(id)
    ensures Accounted(taken, fate[slot[id] := Finished], slot - {id}, workers - {id})
  {
    var fate', slot' := fate[slot[id] := Finished], slot - {id};
    forall k | k in slot'
      ensures && slot'[k] < |fate'| && fate'[slot'[k]] == RunningOn(k)
    {
      assert slot[k] != slot[id];
    }
  }

  class ExecutionManager {
    /** _functionRegistrationQueue: packages submitted and not yet taken by the dispatcher. */
    var functionRegistrationQueue: seq<FunctionPackage>
    /** The dispatcher's private queue of packages taken and not yet started. */
    var inboundFunctions: seq<FunctionPackage>
    /** The live worker threads, by managed thread id, with the package each one runs. */
    var workers: map<int, FunctionPackage>
    /** _registeredThreads: watchdog timestamp by managed thread id. */
    var registeredThreads: map<int, int>
    /** _ranFunctions: the number of bodies that have finished (unbounded here; the source's
        counter is 32 bits wide). */
    var ranFunctions: nat

    /** Every package ever submitted and every package the start loop has taken off the private
        queue, in order; what became of each taken package; and, for each live worker, the
        index in `takenLog` of the package it runs. */
    ghost var submittedLog: seq<FunctionPackage>
    ghost var takenLog: seq<FunctionPackage>
    ghost var fate: seq<Fate>
    ghost var slot: map<int, nat>

    ghost predicate Valid()
      reads this
    {
      // Packages are taken in submission order: they pass through the two queues FIFO.
      && submittedLog == takenLog + inboundFunctions + functionRegistrationQueue
      // A watchdog exists exactly for the live workers of packages with Register set.
      && (forall id :: id in registeredThreads <==> id in workers && workers[id].register)
      // Every package taken runs on exactly one live worker, has finished, or was lost.
      && Accounted(takenLog, fate, slot, workers)
      // The finished count is the number of taken packages that finished.
      && ranFunctions == FinishedCount(fate)
    }

    /** The ids of the live workers whose package asked to be tracked. */
    ghost function TrackedWorkers(): set<int>
      reads this
    {
      set id | id in workers && workers[id].register
    }

    constructor ()
      ensures Valid()
      ensures functionRegistrationQueue == [] && inboundFunctions == []
      ensures workers == map[] && registeredThreads == map[] && ranFunctions == 0
      ensures submittedLog == [] && takenLog == [] && fate == [] && slot == map[]
    {
      functionRegistrationQueue, inboundFunctions := [], [];
      workers, registeredThreads := map[], map[];
      ranFunctions := 0;
      submittedLog, takenLog, fate, slot := [], [], [], map[];
    }

    method GetThreadCount() returns (count: int)
      requires Valid()
      ensures count == |registeredThreads|
      ensures count == |TrackedWorkers()|
    {
      forall id ensures id in registeredThreads.Keys <==> id in TrackedWorkers() {
      }
      assert registeredThreads.Keys == TrackedWorkers();
      count := |registeredThreads|;
    }

    /** KickWatchdog, called from the thread with managed id `id` at time `now`: refresh that
        thread's watchdog if it has one, otherwise only warn (`kicked` is false). */
    method KickWatchdog(id: int, now: int) returns (kicked: bool)
      requires Valid()
      modifies this
      ensures Valid()
      ensures kicked <==> id in old(registeredThreads)
      ensures registeredThreads == if kicked then old(registeredThreads)[id := now] else old(registeredThreads)
      ensures functionRegistrationQueue == old(functionRegistrationQueue) && inboundFunctions == old(inboundFunctions)
      ensures workers == old(workers) && ranFunctions == old(ranFunctions)
      ensures submittedLog == old(submittedLog) && takenLog == old(takenLog)
      ensures fate == old(fate) && slot == old(slot)
    {
      if id in registeredThreads {
        registeredThreads := registeredThreads[id := now];
        kicked := true;
      } else {
        kicked := false;
      }
    }

    /** Async: append one package at the tail of the pending queue (the lock and the wake
        signal are not modelled). */
    method Async(name: string, body: Outcome, register: bool)
      requires Valid()
      modifies this
      ensures Valid()
      ensures functionRegistrationQueue == old(functionRegistrationQueue) + [FunctionPackage(name, body, register)]
      ensures submittedLog == old(submittedLog) + [FunctionPackage(name, body, register)]
      ensures inboundFunctions == old(inboundFunctions) && takenLog == old(takenLog)
      ensures fate == old(fate) && slot == old(slot)
      ensures workers == old(workers) && registeredThreads == old(registeredThreads)
      ensures ranFunctions == old(ranFunctions)
    {
      var package := FunctionPackage(name, body, register);
      functionRegistrationQueue := functionRegistrationQueue + [package];
      submittedLog := submittedLog + [package];
    }

    /** The dispatcher's import step: when anything is pending, move every pending package,
        oldest first, to the private queue under the queue's lock. */
    method Drain()
      requires Valid()
      modifies this
      ensures Valid()
      ensures functionRegistrationQueue == []
      ensures inboundFunctions == old(inboundFunctions) + old(functionRegistrationQueue)
      ensures workers == old(workers) && registeredThreads == old(registeredThreads)
      ensures ranFunctions == old(ranFunctions)
      ensures submittedLog == old(submittedLog) && takenLog == old(takenLog)
      ensures fate == old(fate) && slot == old(slot)
    {
      if |functionRegistrationQueue| > 0 {
        while |functionRegistrationQueue| > 0
          invariant inboundFunctions + functionRegistrationQueue == old(inboundFunctions) + old(functionRegistrationQueue)
          invariant workers == old(workers) && registeredThreads == old(registeredThreads)
          invariant ranFunctions == old(ranFunctions)
          invariant submittedLog == old(submittedLog) && takenLog == old(takenLog)
          invariant fate == old(fate) && slot == old(slot)
        {
          assert [functionRegistrationQueue[0]] + functionRegistrationQueue[1..] == functionRegistrationQueue;
          inboundFunctions := inboundFunctions + [functionRegistrationQueue[0]];
          functionRegistrationQueue := functionRegistrationQueue[1..];
        }
        assert takenLog + inboundFunctions + functionRegistrationQueue
          == takenLog + (inboundFunctions + functionRegistrationQueue);
      }
    }

    /** One turn of the dispatcher's start loop: take the oldest package of the private queue,
        start it on a new thread whose managed id is `id` (the runtime gives a new thread an id
        no live thread has), and register a watchdog stamped `now` if the package asks for it
        and the id has none. `startThrows` says that building or starting the thread throws;
        the loop then logs the error and goes on, and the package is lost: it never runs and
        gets no watchdog. */
    method StartNext(id: int, now: int, startThrows: bool) returns (dispatch: Dispatch)
      requires Valid()
      requires id !in workers
      modifies this
      ensures Valid()
      ensures dispatch == NothingToStart <==> |old(inboundFunctions)| == 0
      ensures dispatch == Started <==> |old(inboundFunctions)| > 0 && !startThrows
      ensures dispatch == NothingToStart ==>
        && inboundFunctions == old(inboundFunctions) && takenLog == old(takenLog)
        && fate == old(fate) && slot == old(slot)
      ensures dispatch != NothingToStart ==>
        && inboundFunctions == old(inboundFunctions)[1..]
        && takenLog == old(takenLog) + [old(inboundFunctions)[0]]
      ensures dispatch == Started ==>
        var package := old(inboundFunctions)[0];
        && workers == old(workers)[id := package]
        && fate == old(fate) + [RunningOn(id)] && slot == old(slot)[id := |old(takenLog)|]
        && registeredThreads == (if package.register then old(registeredThreads)[id := now] else old(registeredThreads))
      ensures dispatch == StartFailed ==> fate == old(fate) + [Lost] && slot == old(slot)
      ensures dispatch != Started ==> workers == old(workers) && registeredThreads == old(registeredThreads)
      // An existing watchdog is never overwritten.
      ensures KeepsWatchdogs(old(registeredThreads), registeredThreads)
      ensures functionRegistrationQueue == old(functionRegistrationQueue) && ranFunctions == old(ranFunctions)
      ensures submittedLog == old(submittedLog)
    {
      assert KeepsWatchdogs(registeredThreads, registeredThreads);
      if |inboundFunctions| == 0 {
        return NothingToStart;
      }
      var inboundFunction := inboundFunctions[0];
      assert old(inboundFunctions) == [inboundFunction] + inboundFunctions[1..];
      inboundFunctions := inboundFunctions[1..];
      if startThrows {
        AccountedLost(takenLog, fate, slot, workers, inboundFunction);
        FinishedCountAppend(fate, Lost);
        takenLog, fate := takenLog + [inboundFunction], fate + [Lost];
        return StartFailed;
      }
      AccountedStart(takenLog, fate, slot, workers, inboundFunction, id);
      FinishedCountAppend(fate, RunningOn(id));
      slot := slot[id := |takenLog|];
      takenLog, fate := takenLog + [inboundFunction], fate + [RunningOn(id)];
      StartThread(id, now, inboundFunction);
      dispatch := Started;
    }

    /** The new thread `id` is running `package`, which has just been taken;
        it gets a watchdog stamped `now` if the package asks for it and the id has none. */
    method StartThread(id: int, now: int, package: FunctionPackage)
      requires id !in workers
      requires (forall k :: k in registeredThreads <==> k in workers && workers[k].register)
      modifies this
      ensures (forall k :: k in registeredThreads <==> k in workers && workers[k].register)
      ensures workers == old(workers)[id := package]
      ensures registeredThreads == if package.register then old(registeredThreads)[id := now] else old(registeredThreads)
      ensures KeepsWatchdogs(old(registeredThreads), registeredThreads)
      ensures functionRegistrationQueue == old(functionRegistrationQueue) && inboundFunctions == old(inboundFunctions)
      ensures ranFunctions == old(ranFunctions)
      ensures submittedLog == old(submittedLog) && takenLog == old(takenLog)
      ensures fate == old(fate) && slot == old(slot)
    {
      workers := workers[id := package];
      if package.register {
        if id !in registeredThreads {
          registeredThreads := registeredThreads[id := now];
        }
      }
    }

    /** The worker `id` runs its body through RunSafe, then drops its watchdog if the package
        was registered, and counts one more finished function. */
    method FinishTask(id: int) returns (result: bool)
      requires Valid()
      requires id in workers
      modifies this
      ensures Valid()
      ensures result == RunSafe(old(workers)[id].name, old(workers)[id].body)
      ensures workers == old(workers) - {id}
      ensures registeredThreads == if old(workers)[id].register then old(registeredThreads) - {id} else old(registeredThreads)
      ensures id !in registeredThreads
      ensures ranFunctions == old(ranFunctions) + 1
      ensures functionRegistrationQueue == old(functionRegistrationQueue) && inboundFunctions == old(inboundFunctions)
      ensures submittedLog == old(submittedLog) && takenLog == old(takenLog)
      ensures old(slot)[id] < |old(fate)| && fate == old(fate)[old(slot)[id] := Finished]
      ensures slot == old(slot) - {id}
    {
      var inboundFunction := workers[id];
      result := RunSafe(inboundFunction.name, inboundFunction.body);
      if inboundFunction.register {
        registeredThreads := registeredThreads - {id};
      }
      AccountedFinish(takenLog, fate, slot, workers, id);
      FinishedCountMark(fate, slot[id]);
      ranFunctions := ranFunctions + 1;
      fate := fate[slot[id] := Finished];
      slot := slot - {id};
      workers := workers - {id};
    }
  }

  /** Packages are started in the order in which they were submitted: the first thread
      started runs the first package. */
  method StartOrderScenario(a: FunctionPackage, b: FunctionPackage) returns (order: seq<FunctionPackage>)
    ensures order == [a, b]
  {
    var exe := new ExecutionManager();
    exe.Async(a.name, a.body, a.register);
    exe.Async(b.name, b.body, b.register);
    exe.Drain();
    var dispatch := exe.StartNext(1, 0, false);
    dispatch := exe.StartNext(2, 0, false);
    order := [exe.workers[1], exe.workers[2]];
  }

  /** A tracked body has a watchdog while it runs and none after; a kick from inside it
      refreshes the stamp; a kick from a thread without a watchdog only warns. */
  method WatchdogScenario(f: Outcome) returns (during: int, stamp: int, foreign: bool, after: int, result: bool)
    ensures during == 1 && stamp == 30 && !foreign && after == 0
    ensures result == !Halts(f)
  {
    var exe := new ExecutionManager();
    exe.Async("EngineSetup", f, true);
    exe.Async("Untracked", f, false);
    exe.Drain();
    var dispatch := exe.StartNext(7, 10, false);
    dispatch := exe.StartNext(8, 10, false);
    during := exe.GetThreadCount();
    var kicked := exe.KickWatchdog(7, 30);
    stamp := exe.registeredThreads[7];
    foreign := exe.KickWatchdog(8, 40);
    result := exe.FinishTask(7);
    after := exe.GetThreadCount();
  }

  /** A package whose thread cannot be started is lost: it never runs and gets no watchdog,
      and the dispatcher goes on to start the next package. */
  method LostStartScenario(a: FunctionPackage, b: FunctionPackage)
    returns (first: Dispatch, second: Dispatch, running: seq<FunctionPackage>, tracked: int)
    ensures first == StartFailed && second == Started
    ensures running == [b]
    ensures tracked == if b.register then 1 else 0
  {
    var exe := new ExecutionManager();
    exe.Async(a.name, a.body, a.register);
    exe.Async(b.name, b.body, b.register);
    exe.Drain();
    first := exe.StartNext(1, 0, true);
    second := exe.StartNext(1, 0, false);
    assert exe.workers.Keys == {1};
    running := [exe.workers[1]];
    tracked := exe.GetThreadCount();
  }
}
