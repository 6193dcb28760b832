/** What each region under the pool's lock does, in terms of what it finds: which workers change and how,
    which task goes where, and what stays. */
module PoolSteps {
  import opened Types
  import opened Pool

  /** Only the worker `w` changes: it is in `mode` now. */
  ghost predicate OnlyWorker(s: PoolState, t: PoolState, w: nat, mode: Mode)
  {
    t.workers == s.workers[w := mode] && SameNumbers(s, t)
  }

  /** No worker comes or goes, and the target stays. */
  ghost predicate SameNumbers(s: PoolState, t: PoolState)
  {
    t.workerCount == s.workerCount && t.target == s.target && t.created == s.created
    && t.terminating == s.terminating && t.terminated == s.terminated
  }

  /** No task is scheduled, fetched or over. */
  ghost predicate SameTasks(s: PoolState, t: PoolState)
  {
    && t.queue == s.queue && t.fetched == s.fetched && t.scheduled == s.scheduled
    && t.finished == s.finished && t.died == s.died && t.cleared == s.cleared
  }

  /** The worker takes the task that is first in line. */
  ghost predicate TakesFirst(s: PoolState, t: PoolState, w: nat)
  {
    && s.queue != [] && s.queue == [s.queue[0]] + t.queue && t.fetched == s.fetched + [s.queue[0]]
    && Is(t, w, Running(s.queue[0]))
    && t.scheduled == s.scheduled && t.finished == s.finished && t.died == s.died && t.cleared == s.cleared
  }

  // ---------------------------------------------------------------- asking for a task

  /** A ready worker leaves if and only if there is a surplus, whatever is pending; otherwise it sleeps if
      and only if nothing is pending, and else takes the first task. */
  lemma ReadyIsTold(s: PoolState, w: nat)
    requires Is(s, w, Ready)
    ensures var t := Apply(s, Enter(w));
      && (Is(t, w, Leaving) <==> s.workerCount > s.target)
      && (Is(t, w, Asleep) <==> s.workerCount <= s.target && s.queue == [])
      && (t.workers[w].Running? <==> s.workerCount <= s.target && s.queue != [])
      && OnlyWorker(s, t, w, t.workers[w])
      && (if t.workers[w].Running? then TakesFirst(s, t, w) else SameTasks(s, t))
      && t.active == s.active - (if Is(t, w, Asleep) then 1 else 0)
  {
  }

  /** A woken worker takes the first task if there is one, surplus or not; if there is none it leaves if and
      only if there is a surplus, and sleeps again otherwise. */
  lemma WokenIsTold(s: PoolState, w: nat)
    requires Is(s, w, Woken)
    ensures var t := Apply(s, Wake(w));
      && (t.workers[w].Running? <==> s.queue != [])
      && (Is(t, w, Leaving) <==> s.queue == [] && s.workerCount > s.target)
      && (Is(t, w, Asleep) <==> s.queue == [] && s.workerCount <= s.target)
      && OnlyWorker(s, t, w, t.workers[w])
      && (if t.workers[w].Running? then TakesFirst(s, t, w) else SameTasks(s, t))
      && t.active == s.active + (if Is(t, w, Asleep) then 0 else 1)
  {
  }

  /** This event lets a worker ask for a task, and it gets one. */
  ghost predicate Fetches(s: PoolState, e: Event)
  {
    s.queue != [] && (e.Wake? || (e.Enter? && s.workerCount <= s.target))
  }

  lemma {:induction false} GrowFetchesNothing(s: PoolState, threads: nat)
    ensures Grow(s, threads).fetched == s.fetched && Grow(s, threads).queue == s.queue
    decreases threads
  {
    if s.workerCount < s.target && threads > 0 { GrowFetchesNothing(Grown(s), threads - 1); }
  }

  /** Tasks are fetched by these events and by no others. */
  lemma FetchesIff(s: PoolState, e: Event)
    requires Enabled(s, e)
    ensures var t := Apply(s, e);
      if Fetches(s, e) then t.fetched == s.fetched + [s.queue[0]] else t.fetched == s.fetched
  {
    match e
    case Resize(size, threads) => GrowFetchesNothing(s.(target := size), threads);
    case Die(w, threads) =>
      var s1 := Gone(s, w).(died := s.died + {s.workers[w].task});
      GrowFetchesNothing(s1.(target := s1.workerCount + 1), threads);
    case _ =>
  }

  /** In no run does a worker that was ready take a task while there is a surplus. */
  lemma RunSurplusLeaves(run: seq<PoolState>, events: seq<Event>, k: nat)
    requires IsRun(run, events) && k < |events| && events[k].Enter? && run[k].workerCount > run[k].target
    ensures Is(run[k + 1], events[k].w, Leaving) && SameTasks(run[k], run[k + 1])
  {
    ReadyIsTold(run[k], events[k].w);
  }

  // ---------------------------------------------------------------- tasks come, end and go

  /** A task joins the queue, and one of the sleepers is woken if there are any. */
  lemma ScheduledIsLast(s: PoolState, woken: Option<nat>)
    requires Enabled(s, Schedule(woken))
    ensures var t := Apply(s, Schedule(woken));
      && t.queue == s.queue + [s.scheduled] && t.scheduled == s.scheduled + 1
      && (if exists w :: Is(s, w, Asleep) then exists w :: Is(s, w, Asleep) && t.workers == s.workers[w := Woken]
          else t.workers == s.workers)
      && SameNumbers(s, t) && t.active == s.active
      && t.fetched == s.fetched && t.finished == s.finished && t.died == s.died && t.cleared == s.cleared
  {
    if woken.Some? { assert Is(s, woken.value, Asleep); }
  }

  /** Everything pending is dropped; what is being executed goes on. */
  lemma ClearedIsPending(s: PoolState)
    ensures var t := Apply(s, Clear);
      && t.queue == [] && (forall n :: n in t.cleared <==> n in s.cleared || n in s.queue)
      && t.workers == s.workers && SameNumbers(s, t) && t.active == s.active
      && t.fetched == s.fetched && t.scheduled == s.scheduled && t.finished == s.finished && t.died == s.died
  {
  }

  /** A worker that has finished is ready for the next task. */
  lemma FinishedIsReady(s: PoolState, w: nat)
    requires Enabled(s, Finish(w))
    ensures var t := Apply(s, Finish(w));
      && OnlyWorker(s, t, w, Ready) && t.finished == s.finished + {s.workers[w].task} && t.active == s.active
      && t.queue == s.queue && t.fetched == s.fetched && t.scheduled == s.scheduled
      && t.died == s.died && t.cleared == s.cleared
  {
  }

  // ---------------------------------------------------------------- workers come and go

  /** Every sleeper is woken, and nobody else is touched. */
  ghost predicate AllWoken(m: map<nat, Mode>, m': map<nat, Mode>)
  {
    && m'.Keys == m.Keys
    && forall w :: w in m ==> m'[w] == if m[w].Asleep? then Woken else m[w]
  }

  /** `more` ready workers have come, and the others are as they were. */
  ghost predicate HasGrown(s: PoolState, t: PoolState, more: nat)
  {
    && t.workerCount == s.workerCount + more && t.active == s.active + more && t.created == s.created + more
    && (forall w :: w in t.workers <==> w in s.workers || s.created <= w < t.created)
    && (forall w :: w in s.workers ==> t.workers[w] == s.workers[w])
    && (forall w :: s.created <= w < t.created ==> t.workers[w] == Ready)
  }

  lemma GrownIsOne(s: PoolState)
    requires CountersOk(s)
    ensures HasGrown(s, Grown(s), 1)
  {
  }

  lemma GrowsTwice(s: PoolState, t: PoolState, u: PoolState, a: nat, b: nat)
    requires HasGrown(s, t, a) && HasGrown(t, u, b)
    ensures HasGrown(s, u, a + b)
  {
  }

  lemma {:induction false} GrowGrows(s: PoolState, threads: nat)
    requires CountersOk(s) && s.workerCount <= s.target
    ensures var missing := s.target - s.workerCount;
      HasGrown(s, Grow(s, threads), if threads < missing then threads else missing)
    decreases threads
  {
    if s.workerCount < s.target && threads > 0 {
      GrownCounters(s);
      GrownIsOne(s);
      GrowGrows(Grown(s), threads - 1);
      var left := s.target - Grown(s).workerCount;
      GrowsTwice(s, Grown(s), Grow(s, threads), 1, if threads - 1 < left then threads - 1 else left);
    }
  }

  lemma {:induction false} GrowKeepsRest(s: PoolState, threads: nat)
    ensures SameTasks(s, Grow(s, threads))
    ensures var t := Grow(s, threads);
      t.target == s.target && t.terminating == s.terminating && t.terminated == s.terminated
    decreases threads
  {
    if s.workerCount < s.target && threads > 0 { GrowKeepsRest(Grown(s), threads - 1); }
  }

  /** Unless the pool shuts down it gets the new target; a larger pool gets all the workers that are missing,
      or as many as there are threads for, and in a smaller one every sleeper is woken to leave. */
  lemma ResizeGrowsOrWakes(s: PoolState, size: nat, threads: nat)
    requires CountersOk(s)
    ensures var t := Apply(s, Resize(size, threads));
      if s.terminating then t == s
      else
        && t.target == size && SameTasks(s, t) && !t.terminating && t.terminated == s.terminated
        && if size >= s.workerCount then
             HasGrown(s, t, if threads < size - s.workerCount then threads else size - s.workerCount)
           else AllWoken(s.workers, t.workers) && t == s.(target := size, workers := t.workers)
  {
    if !s.terminating && size >= s.workerCount {
      GrowGrows(s.(target := size), threads);
      GrowKeepsRest(s.(target := size), threads);
    } else {
      assert WakeAll(s.workers).Keys == s.workers.Keys;
    }
  }

  /** Shutting down wakes every sleeper to leave, and there is no target any more. */
  lemma ShutdownWakes(s: PoolState)
    ensures var t := Apply(s, TerminateAll);
      AllWoken(s.workers, t.workers) && t == s.(terminating := true, target := 0, workers := t.workers)
  {
    assert WakeAll(s.workers).Keys == s.workers.Keys;
  }

  /** A worker that has left is gone, and is kept for joining if the pool shuts down. */
  lemma LeaverIsGone(s: PoolState, w: nat)
    requires Enabled(s, Destruct(w))
    ensures var t := Apply(s, Destruct(w));
      && t.workers == s.workers - {w} && t.workerCount == s.workerCount - 1 && t.active == s.active - 1
      && t.terminated == (if s.terminating then s.terminated + [w] else s.terminated)
      && SameTasks(s, t) && t.target == s.target && t.terminating == s.terminating && t.created == s.created
  {
  }

  /** A worker that a task has ended is gone, and the task with it.  Unless the pool shuts down, the target
      becomes the number of workers there were, and one takes its place if there is a thread. */
  lemma DeadIsReplaced(s: PoolState, w: nat, threads: nat)
    requires CountersOk(s) && Enabled(s, Die(w, threads))
    ensures var t, left := Apply(s, Die(w, threads)), s.(workers := s.workers - {w}, workerCount := s.workerCount - 1,
                                                         active := s.active - 1);
      && t.died == s.died + {s.workers[w].task}
      && SameTasks(s, t.(died := s.died)) && t.terminating == s.terminating
      && if s.terminating then
           t.workers == left.workers && t.workerCount == left.workerCount && t.active == left.active
           && t.target == s.target && t.terminated == s.terminated + [w] && t.created == s.created
         else
           t.target == s.workerCount && t.terminated == s.terminated && HasGrown(left, t, if threads == 0 then 0 else 1)
  {
    if !s.terminating {
      var s1 := Gone(s, w).(died := s.died + {s.workers[w].task});
      GoneCounters(s, w);
      GrowGrows(s1.(target := s.workerCount), threads);
      GrowKeepsRest(s1.(target := s.workerCount), threads);
    }
  }

  // ---------------------------------------------------------------- while there is a surplus

  /** The tasks fetched so far and the workers that are parked in the wait for tasks. */
  ghost function FetchedOrParked(s: PoolState): int
  {
    |s.fetched| + s.workerCount - s.active
  }

  lemma SurplusStep(s: PoolState, e: Event)
    requires CountersOk(s) && Enabled(s, e) && s.workerCount > s.target
    ensures FetchedOrParked(Apply(s, e)) <= FetchedOrParked(s)
  {
    match e
    case Schedule(woken) => ScheduledIsLast(s, woken);
    case Enter(w) => ReadyIsTold(s, w);
    case Wake(w) => WokenIsTold(s, w);
    case Finish(w) => FinishedIsReady(s, w);
    case Die(w, threads) => DeadIsReplaced(s, w, threads);
    case Destruct(w) => LeaverIsGone(s, w);
    case Resize(size, threads) => ResizeGrowsOrWakes(s, size, threads);
    case _ =>
  }

  lemma {:induction false} SurplusStretch(run: seq<PoolState>, events: seq<Event>, k: nat, l: nat)
    requires IsRun(run, events) && k <= l < |run|
    requires forall m :: k <= m < l ==> run[m].workerCount > run[m].target
    ensures FetchedOrParked(run[l]) <= FetchedOrParked(run[k])
  {
    if k < l {
      SurplusStretch(run, events, k, l - 1);
      RunPoolOk(run, events, l - 1);
      SurplusStep(run[l - 1], events[l - 1]);
    }
  }

  /** For as long as there is a surplus at most as many tasks are fetched as workers were parked when it
      began: each of them may take one, and nobody takes a second. */
  lemma RunSurplusFetchesFew(run: seq<PoolState>, events: seq<Event>, k: nat, l: nat)
    requires IsRun(run, events) && k <= l < |run|
    requires forall m :: k <= m < l ==> run[m].workerCount > run[m].target
    ensures |run[l].fetched| - |run[k].fetched| <= |run[k].workers| - |Busy(run[k].workers)|
  {
    SurplusStretch(run, events, k, l);
    RunPoolOk(run, events, k);
    RunPoolOk(run, events, l);
    CountersInRange(run[l]);
  }
}
