/** The thread pool as a monitor: every region under the lock is one step, and a worker is somewhere
    between two of them. */
module Pool {
  import opened Types
  import opened Collections
  import Quorum

  /** Where a worker is: about to ask for a task, asleep in the wait for tasks, woken but without the
      lock yet, executing a task, or told to leave and not yet gone. */
  datatype Mode = Ready | Asleep | Woken | Running(task: nat) | Leaving

  /** Tasks are numbered in the order in which they were scheduled.  The counters, the queue, the
      termination flag and the list of terminated workers are the fields of the code; `workers` are the
      threads; the rest is history. */
  datatype PoolState = PoolState(
    workerCount: int,
    target: int,
    active: int,
    queue: seq<nat>,
    terminating: bool,
    terminated: seq<nat>,
    workers: map<nat, Mode>,
    created: nat,
    scheduled: nat,
    fetched: seq<nat>,
    finished: set<nat>,
    died: set<nat>,
    cleared: set<nat>)

  datatype Event =
    | Schedule(woken: Option<nat>)
    | Clear
    | Enter(w: nat)
    | Wake(w: nat)
    | Spurious(w: nat)
    | Finish(w: nat)
    | Die(w: nat, threads: nat)
    | Destruct(w: nat)
    | Resize(size: nat, threads: nat)
    | TerminateAll

  const EMPTY: PoolState := PoolState(0, 0, 0, [], false, [], map[], 0, 0, [], {}, {}, {})

  function Elements(s: seq<nat>): set<nat>
  {
    set t | t in s
  }

  function WakeAll(workers: map<nat, Mode>): map<nat, Mode>
  {
    map w | w in workers :: if workers[w].Asleep? then Woken else workers[w]
  }

  function ScheduleTask(s: PoolState, woken: Option<nat>): PoolState
  {
    s.(queue := s.queue + [s.scheduled],
       scheduled := s.scheduled + 1,
       workers := if woken.Some? then s.workers[woken.value := Woken] else s.workers)
  }

  function ClearTasks(s: PoolState): PoolState
  {
    s.(queue := [], cleared := s.cleared + Elements(s.queue))
  }

  /** The loop that waits for tasks, for a worker that holds the lock; `active` includes it. */
  function FetchOrSleep(s: PoolState, active: int, w: nat): PoolState
  {
    if s.queue == [] then
      if s.workerCount > s.target then s.(active := active, workers := s.workers[w := Leaving])
      else s.(active := active - 1, workers := s.workers[w := Asleep])
    else
      s.(active := active, queue := s.queue[1..], fetched := s.fetched + [s.queue[0]],
         workers := s.workers[w := Running(s.queue[0])])
  }

  /** A worker asks for a task; it leaves at once if there are too many workers. */
  function EnterPool(s: PoolState, w: nat): PoolState
  {
    if s.workerCount > s.target then s.(workers := s.workers[w := Leaving]) else FetchOrSleep(s, s.active, w)
  }

  function FinishTask(s: PoolState, w: nat): PoolState
    requires w in s.workers && s.workers[w].Running?
  {
    s.(finished := s.finished + {s.workers[w].task}, workers := s.workers[w := Ready])
  }

  /** A worker is gone. */
  function Gone(s: PoolState, w: nat): PoolState
  {
    s.(workerCount := s.workerCount - 1, active := s.active - 1, workers := s.workers - {w},
       terminated := if s.terminating then s.terminated + [w] else s.terminated)
  }

  /** An exception has ended the worker; the size policy replaces it unless the pool shuts down. */
  function DieWorker(s: PoolState, w: nat, threads: nat): PoolState
    requires w in s.workers && s.workers[w].Running?
  {
    Replace(Gone(s, w).(died := s.died + {s.workers[w].task}), threads)
  }

  function Replace(s: PoolState, threads: nat): PoolState
  {
    if s.terminating then s else ResizePool(s, s.workerCount + 1, threads)
  }

  /** The pool with one more worker. */
  function Grown(s: PoolState): PoolState
  {
    s.(workerCount := s.workerCount + 1, active := s.active + 1,
       workers := s.workers[s.created := Ready], created := s.created + 1)
  }

  /** New workers up to the target, as long as the system provides threads. */
  function Grow(s: PoolState, threads: nat): PoolState
    decreases threads
  {
    if s.workerCount < s.target && threads > 0 then
      Grow(Grown(s), threads - 1)
    else s
  }

  function ResizePool(s: PoolState, size: int, threads: nat): PoolState
  {
    if s.terminating then s
    else if s.workerCount <= size then Grow(s.(target := size), threads)
    else s.(target := size, workers := WakeAll(s.workers))
  }

  function Terminate(s: PoolState): PoolState
  {
    s.(terminating := true, target := 0, workers := WakeAll(s.workers))
  }

  // ---------------------------------------------------------------- steps and runs

  predicate Is(s: PoolState, w: nat, mode: Mode)
  {
    w in s.workers && s.workers[w] == mode
  }

  /** A notification wakes one of the workers that are asleep, if there are any. */
  ghost predicate Notifies(s: PoolState, woken: Option<nat>)
  {
    if woken.Some? then Is(s, woken.value, Asleep) else forall w :: w in s.workers ==> !s.workers[w].Asleep?
  }

  ghost predicate Enabled(s: PoolState, e: Event)
  {
    match e
    case Schedule(woken) => Notifies(s, woken)
    case Enter(w) => Is(s, w, Ready)
    case Wake(w) => Is(s, w, Woken)
    case Spurious(w) => Is(s, w, Asleep)
    case Finish(w) => w in s.workers && s.workers[w].Running?
    case Die(w, _) => w in s.workers && s.workers[w].Running?
    case Destruct(w) => Is(s, w, Leaving)
    case _ => true
  }

  ghost function Apply(s: PoolState, e: Event): PoolState
    requires Enabled(s, e)
  {
    match e
    case Schedule(woken) => ScheduleTask(s, woken)
    case Clear => ClearTasks(s)
    case Enter(w) => EnterPool(s, w)
    case Wake(w) => FetchOrSleep(s, s.active + 1, w)
    case Spurious(w) => s.(workers := s.workers[w := Woken])
    case Finish(w) => FinishTask(s, w)
    case Die(w, threads) => DieWorker(s, w, threads)
    case Destruct(w) => Gone(s, w)
    case Resize(size, threads) => ResizePool(s, size, threads)
    case TerminateAll => Terminate(s)
  }

  ghost predicate IsRun(run: seq<PoolState>, events: seq<Event>)
  {
    && |run| == |events| + 1 && run[0] == EMPTY
    && forall k: nat {:trigger events[k]} :: k < |events| ==>
      Enabled(run[k], events[k]) && run[k + 1] == Apply(run[k], events[k])
  }

  // ---------------------------------------------------------------- the invariant

  predicate Counts(mode: Mode)
  {
    !mode.Asleep? && !mode.Woken?
  }

  /** The workers that are not parked in the wait for tasks. */
  ghost function Busy(workers: map<nat, Mode>): set<nat>
  {
    set w | w in workers && Counts(workers[w])
  }

  ghost function OnTheirWay(workers: map<nat, Mode>): set<nat>
  {
    set w | w in workers && workers[w].Woken?
  }

  ghost function Executing(workers: map<nat, Mode>): set<nat>
  {
    set w | w in workers && workers[w].Running? :: workers[w].task
  }

  ghost predicate CountersOk(s: PoolState)
  {
    && s.workerCount == |s.workers| && s.active == |Busy(s.workers)|
    && forall w :: w in s.workers ==> w < s.created
  }

  ghost predicate Increasing(s: seq<nat>)
  {
    forall k, l :: 0 <= k < l < |s| ==> s[k] < s[l]
  }

  ghost predicate OwnTasks(workers: map<nat, Mode>)
  {
    forall v, w :: v in workers && w in workers && v != w && workers[v].Running? && workers[w].Running? ==>
      workers[v].task != workers[w].task
  }

  /** No worker executes what another one does, or what has been done already. */
  ghost predicate Exclusive(workers: map<nat, Mode>, finished: set<nat>, died: set<nat>, fetched: set<nat>)
  {
    && OwnTasks(workers)
    && Executing(workers) !! finished && Executing(workers) !! died && finished !! died
    && Executing(workers) + finished + died == fetched
  }

  ghost predicate Partition(fetched: set<nat>, pending: set<nat>, cleared: set<nat>, scheduled: nat)
  {
    && fetched !! pending && fetched !! cleared && pending !! cleared
    && fetched + pending + cleared == Quorum.Nodes(scheduled)
  }

  /** Tasks are fetched in the order in which they were scheduled, and none is lost or repeated. */
  ghost predicate QueueKept(fetched: seq<nat>, queue: seq<nat>, cleared: set<nat>, scheduled: nat)
  {
    Increasing(fetched + queue) && Partition(Elements(fetched), Elements(queue), cleared, scheduled)
  }

  ghost predicate WorkKept(workers: map<nat, Mode>, finished: set<nat>, died: set<nat>, fetched: seq<nat>)
  {
    Exclusive(workers, finished, died, Elements(fetched))
  }

  ghost predicate TasksOk(s: PoolState)
  {
    QueueKept(s.fetched, s.queue, s.cleared, s.scheduled) && WorkKept(s.workers, s.finished, s.died, s.fetched)
  }

  /** While a worker sleeps there are not too many workers, and for every pending task another worker
      has been woken. */
  ghost predicate SleepOk(s: PoolState)
  {
    forall w :: w in s.workers && s.workers[w].Asleep? ==>
      s.workerCount <= s.target && |s.queue| <= |OnTheirWay(s.workers)|
  }

  ghost predicate PoolOk(s: PoolState)
  {
    CountersOk(s) && TasksOk(s) && SleepOk(s)
  }

  // ---------------------------------------------------------------- how one worker changes the counts

  lemma BusyAfter(m: map<nat, Mode>, w: nat, mode: Mode)
    ensures |Busy(m[w := mode])| ==
      |Busy(m)| - (if w in m && Counts(m[w]) then 1 else 0) + (if Counts(mode) then 1 else 0)
  {
    var rest := Busy(m) - {w};
    assert Busy(m) == if w in m && Counts(m[w]) then rest + {w} else rest;
    assert Busy(m[w := mode]) == if Counts(mode) then rest + {w} else rest;
  }

  lemma WokenAfter(m: map<nat, Mode>, w: nat, mode: Mode)
    ensures |OnTheirWay(m[w := mode])| ==
      |OnTheirWay(m)| - (if w in m && m[w].Woken? then 1 else 0) + (if mode.Woken? then 1 else 0)
  {
    var rest := OnTheirWay(m) - {w};
    assert OnTheirWay(m) == if w in m && m[w].Woken? then rest + {w} else rest;
    assert OnTheirWay(m[w := mode]) == if mode.Woken? then rest + {w} else rest;
  }

  lemma BusyWithout(m: map<nat, Mode>, w: nat)
    requires w in m && Counts(m[w])
    ensures |Busy(m - {w})| == |Busy(m)| - 1 && OnTheirWay(m - {w}) == OnTheirWay(m)
  {
    assert Busy(m) == Busy(m - {w}) + {w};
  }

  lemma WakeAllCounts(m: map<nat, Mode>)
    ensures Busy(WakeAll(m)) == Busy(m) && |WakeAll(m)| == |m| && Executing(WakeAll(m)) == Executing(m)
  {
    assert WakeAll(m).Keys == m.Keys;
    SameSize(WakeAll(m), m);
    forall t ensures t in Executing(WakeAll(m)) <==> t in Executing(m) {
      if t in Executing(m) {
        var w :| w in m && m[w].Running? && m[w].task == t;
        assert WakeAll(m)[w] == m[w];
      }
    }
  }

  /** The active count lies between 0 and the worker count, so none of the decrements wraps around. */
  lemma CountersInRange(s: PoolState)
    requires CountersOk(s)
    ensures 0 <= s.active <= s.workerCount
    ensures forall w :: w in s.workers && Counts(s.workers[w]) ==> s.active >= 1 && s.workerCount >= 1
  {
    Quorum.SubsetSize(Busy(s.workers), s.workers.Keys);
    forall w | w in s.workers && Counts(s.workers[w]) ensures s.active >= 1 {
      assert w in Busy(s.workers);
    }
  }

  // ---------------------------------------------------------------- the counters

  lemma SetCounters(s: PoolState, w: nat, mode: Mode)
    requires CountersOk(s) && w in s.workers
    ensures CountersOk(s.(workers := s.workers[w := mode],
      active := s.active - (if Counts(s.workers[w]) then 1 else 0) + (if Counts(mode) then 1 else 0)))
  {
    BusyAfter(s.workers, w, mode);
    Updated(s.workers, w, mode);
  }

  lemma GoneCounters(s: PoolState, w: nat)
    requires CountersOk(s) && w in s.workers && Counts(s.workers[w])
    ensures CountersOk(Gone(s, w))
  {
    BusyWithout(s.workers, w);
    Removed(s.workers, w);
  }

  lemma GrownCounters(s: PoolState)
    requires CountersOk(s)
    ensures CountersOk(Grown(s)) && s.created !in s.workers
  {
    BusyAfter(s.workers, s.created, Ready);
    Inserted(s.workers, s.created, Ready);
  }

  lemma {:induction false} GrowCounters(s: PoolState, threads: nat)
    requires CountersOk(s)
    ensures CountersOk(Grow(s, threads))
    decreases threads
  {
    if s.workerCount < s.target && threads > 0 {
      GrownCounters(s);
      GrowCounters(Grown(s), threads - 1);
    }
  }

  lemma ResizeCounters(s: PoolState, size: int, threads: nat)
    requires CountersOk(s)
    ensures CountersOk(ResizePool(s, size, threads))
  {
    GrowCounters(s.(target := size), threads);
    WakeAllCounts(s.workers);
  }

  lemma StepCounters(s: PoolState, e: Event)
    requires CountersOk(s) && Enabled(s, e)
    ensures CountersOk(Apply(s, e))
  {
    match e
    case Schedule(woken) => if woken.Some? { SetCounters(s, woken.value, Woken); }
    case Enter(w) => SetCounters(s, w, Apply(s, e).workers[w]);
    case Wake(w) => SetCounters(s, w, Apply(s, e).workers[w]);
    case Spurious(w) => SetCounters(s, w, Woken);
    case Finish(w) => SetCounters(s, w, Ready);
    case Die(w, threads) =>
      GoneCounters(s, w);
      var s1 := Gone(s, w).(died := s.died + {s.workers[w].task});
      ResizeCounters(s1, s1.workerCount + 1, threads);
    case Destruct(w) => GoneCounters(s, w);
    case Resize(size, threads) => ResizeCounters(s, size, threads);
    case TerminateAll => WakeAllCounts(s.workers);
    case Clear =>
  }

  // ---------------------------------------------------------------- the tasks

  lemma ExecutingAfter(m: map<nat, Mode>, w: nat, mode: Mode)
    requires w in m && OwnTasks(m)
    ensures Executing(m[w := mode]) ==
      Executing(m) - (if m[w].Running? then {m[w].task} else {}) + (if mode.Running? then {mode.task} else {})
  {
    var m' := m[w := mode];
    forall t | t in Executing(m) && !(m[w].Running? && t == m[w].task) ensures t in Executing(m') {
      var v :| v in m && m[v].Running? && m[v].task == t;
      assert m'[v] == m[v];
    }
    if mode.Running? { assert m'[w].task in Executing(m'); }
  }

  lemma ExecutingWithout(m: map<nat, Mode>, w: nat)
    requires w in m && OwnTasks(m)
    ensures Executing(m - {w}) == Executing(m) - (if m[w].Running? then {m[w].task} else {})
    ensures OwnTasks(m - {w})
  {
    forall t | t in Executing(m) && !(m[w].Running? && t == m[w].task) ensures t in Executing(m - {w}) {
      var v :| v in m && m[v].Running? && m[v].task == t;
      assert (m - {w})[v] == m[v];
    }
  }

  lemma ExecutingSame(m: map<nat, Mode>, w: nat, mode: Mode)
    requires !mode.Running? && (w in m ==> !m[w].Running?)
    ensures Executing(m[w := mode]) == Executing(m)
  {
    var m' := m[w := mode];
    forall t | t in Executing(m) ensures t in Executing(m') {
      var v :| v in m && m[v].Running? && m[v].task == t;
      assert m'[v] == m[v];
    }
  }

  lemma SplitOrder(a: seq<nat>, b: seq<nat>)
    requires Increasing(a + b)
    ensures Increasing(a) && Increasing(b)
  {
    forall k, l | 0 <= k < l < |a| ensures a[k] < a[l] {
      assert (a + b)[k] < (a + b)[l];
    }
    forall k, l | 0 <= k < l < |b| ensures b[k] < b[l] {
      assert (a + b)[|a| + k] < (a + b)[|a| + l];
    }
  }

  lemma MoveFirst(a: seq<nat>, b: seq<nat>)
    requires Increasing(a + b) && b != []
    ensures Increasing((a + [b[0]]) + b[1..])
    ensures Elements(a + [b[0]]) == Elements(a) + {b[0]}
    ensures Elements(b) == {b[0]} + Elements(b[1..]) && b[0] !in Elements(b[1..])
  {
    assert (a + [b[0]]) + b[1..] == a + b;
    SplitOrder(a, b);
    assert b == [b[0]] + b[1..];
  }

  lemma AppendOrder(a: seq<nat>, b: seq<nat>, n: nat)
    requires Increasing(a + b) && forall t :: t in Elements(a) + Elements(b) ==> t < n
    ensures Increasing(a + (b + [n])) && Elements(b + [n]) == Elements(b) + {n}
  {
    forall k | 0 <= k < |a + b| ensures (a + b)[k] < n {
      assert (a + b)[k] in Elements(a) + Elements(b);
    }
    assert a + (b + [n]) == (a + b) + [n];
  }

  /** Task `t` is fetched by worker `w`. */
  lemma FetchExclusive(m: map<nat, Mode>, finished: set<nat>, died: set<nat>, fetched: set<nat>, w: nat, t: nat)
    requires Exclusive(m, finished, died, fetched) && w in m && !m[w].Running? && t !in fetched
    ensures Exclusive(m[w := Running(t)], finished, died, fetched + {t})
  {
    ExecutingAfter(m, w, Running(t));
    forall v | v in m && m[v].Running? ensures m[v].task != t {
      assert m[v].task in Executing(m);
    }
  }

  lemma FetchQueue(fetched: seq<nat>, queue: seq<nat>, cleared: set<nat>, scheduled: nat)
    requires QueueKept(fetched, queue, cleared, scheduled) && queue != []
    ensures QueueKept(fetched + [queue[0]], queue[1..], cleared, scheduled)
    ensures queue[0] !in Elements(fetched) && Elements(fetched + [queue[0]]) == Elements(fetched) + {queue[0]}
  {
    MoveFirst(fetched, queue);
    assert queue[0] in Elements(queue);
  }

  lemma FetchTasks(s: PoolState, active: int, w: nat)
    requires TasksOk(s) && w in s.workers && !s.workers[w].Running? && s.queue != []
    ensures TasksOk(FetchOrSleep(s, active, w))
  {
    FetchQueue(s.fetched, s.queue, s.cleared, s.scheduled);
    FetchExclusive(s.workers, s.finished, s.died, Elements(s.fetched), w, s.queue[0]);
  }

  /** A worker that does not execute anything, before and after. */
  lemma IdleWork(m: map<nat, Mode>, finished: set<nat>, died: set<nat>, fetched: seq<nat>, w: nat, mode: Mode)
    requires WorkKept(m, finished, died, fetched) && !mode.Running? && (w in m ==> !m[w].Running?)
    ensures WorkKept(m[w := mode], finished, died, fetched)
  {
    ExecutingSame(m, w, mode);
  }

  lemma IdleTasks(s: PoolState, w: nat, mode: Mode)
    requires TasksOk(s) && !mode.Running? && (w in s.workers ==> !s.workers[w].Running?)
    ensures TasksOk(s.(workers := s.workers[w := mode]))
  {
    IdleWork(s.workers, s.finished, s.died, s.fetched, w, mode);
  }

  lemma FetchOrSleepTasks(s: PoolState, active: int, w: nat)
    requires TasksOk(s) && w in s.workers && !s.workers[w].Running?
    ensures TasksOk(FetchOrSleep(s, active, w))
  {
    if s.queue == [] {
      IdleTasks(s, w, FetchOrSleep(s, active, w).workers[w]);
    } else {
      FetchTasks(s, active, w);
    }
  }

  lemma AppendPartition(fetched: set<nat>, pending: set<nat>, cleared: set<nat>, n: nat)
    requires Partition(fetched, pending, cleared, n)
    ensures forall t :: t in fetched + pending ==> t < n
    ensures Partition(fetched, pending + {n}, cleared, n + 1)
  {
    assert fetched + pending <= Quorum.Nodes(n);
    assert n !in Quorum.Nodes(n);
    assert Quorum.Nodes(n + 1) == Quorum.Nodes(n) + {n};
  }

  lemma ScheduleQueue(fetched: seq<nat>, queue: seq<nat>, cleared: set<nat>, scheduled: nat)
    requires QueueKept(fetched, queue, cleared, scheduled)
    ensures QueueKept(fetched, queue + [scheduled], cleared, scheduled + 1)
  {
    AppendPartition(Elements(fetched), Elements(queue), cleared, scheduled);
    AppendOrder(fetched, queue, scheduled);
  }

  lemma ClearQueue(fetched: seq<nat>, queue: seq<nat>, cleared: set<nat>, scheduled: nat)
    requires QueueKept(fetched, queue, cleared, scheduled)
    ensures QueueKept(fetched, [], cleared + Elements(queue), scheduled)
  {
    SplitOrder(fetched, queue);
    assert fetched + [] == fetched;
    assert Elements([]) == {};
  }

  lemma ClearTasksOk(s: PoolState)
    requires TasksOk(s)
    ensures TasksOk(ClearTasks(s))
  {
    ClearQueue(s.fetched, s.queue, s.cleared, s.scheduled);
  }

  lemma FinishWork(m: map<nat, Mode>, finished: set<nat>, died: set<nat>, fetched: seq<nat>, w: nat)
    requires WorkKept(m, finished, died, fetched) && w in m && m[w].Running?
    ensures WorkKept(m[w := Ready], finished + {m[w].task}, died, fetched)
  {
    ExecutingAfter(m, w, Ready);
    assert m[w].task in Executing(m);
  }

  lemma FinishTasks(s: PoolState, w: nat)
    requires TasksOk(s) && w in s.workers && s.workers[w].Running?
    ensures TasksOk(FinishTask(s, w))
  {
    FinishWork(s.workers, s.finished, s.died, s.fetched, w);
  }

  lemma DieWork(m: map<nat, Mode>, finished: set<nat>, died: set<nat>, fetched: seq<nat>, w: nat)
    requires WorkKept(m, finished, died, fetched) && w in m && m[w].Running?
    ensures WorkKept(m - {w}, finished, died + {m[w].task}, fetched)
  {
    ExecutingWithout(m, w);
    assert m[w].task in Executing(m);
  }

  lemma DieTasks(s: PoolState, w: nat)
    requires TasksOk(s) && w in s.workers && s.workers[w].Running?
    ensures TasksOk(Gone(s, w).(died := s.died + {s.workers[w].task}))
  {
    DieWork(s.workers, s.finished, s.died, s.fetched, w);
  }

  lemma {:induction false} GrowExecutes(s: PoolState, threads: nat)
    requires CountersOk(s) && OwnTasks(s.workers)
    ensures Executing(Grow(s, threads).workers) == Executing(s.workers) && OwnTasks(Grow(s, threads).workers)
    decreases threads
  {
    if s.workerCount < s.target && threads > 0 {
      GrownCounters(s);
      ExecutingSame(s.workers, s.created, Ready);
      GrowExecutes(Grown(s), threads - 1);
    }
  }

  lemma {:induction false} GrowLeaves(s: PoolState, threads: nat)
    ensures var g := Grow(s, threads);
      g == s.(workerCount := g.workerCount, active := g.active, workers := g.workers, created := g.created)
    decreases threads
  {
    if s.workerCount < s.target && threads > 0 {
      GrowLeaves(Grown(s), threads - 1);
    }
  }

  lemma GrowTasks(s: PoolState, threads: nat)
    requires TasksOk(s) && CountersOk(s)
    ensures TasksOk(Grow(s, threads))
  {
    GrowExecutes(s, threads);
    GrowLeaves(s, threads);
  }

  lemma WakeAllTasks(s: PoolState)
    requires TasksOk(s)
    ensures TasksOk(s.(workers := WakeAll(s.workers)))
  {
    WakeAllCounts(s.workers);
  }

  lemma ResizeTasks(s: PoolState, size: int, threads: nat)
    requires TasksOk(s) && CountersOk(s)
    ensures TasksOk(ResizePool(s, size, threads))
  {
    GrowTasks(s.(target := size), threads);
    WakeAllTasks(s);
  }

  lemma DieStepTasks(s: PoolState, w: nat, threads: nat)
    requires TasksOk(s) && CountersOk(s) && w in s.workers && s.workers[w].Running?
    ensures TasksOk(DieWorker(s, w, threads))
  {
    DieTasks(s, w);
    GoneCounters(s, w);
    ReplaceTasks(Gone(s, w).(died := s.died + {s.workers[w].task}), threads);
  }

  lemma ReplaceTasks(s: PoolState, threads: nat)
    requires TasksOk(s) && CountersOk(s)
    ensures TasksOk(Replace(s, threads))
  {
    GrowTasks(s.(target := s.workerCount + 1), threads);
  }

  lemma ScheduleTasks(s: PoolState, woken: Option<nat>)
    requires TasksOk(s) && Notifies(s, woken)
    ensures TasksOk(ScheduleTask(s, woken))
  {
    ScheduleQueue(s.fetched, s.queue, s.cleared, s.scheduled);
    if woken.Some? { IdleWork(s.workers, s.finished, s.died, s.fetched, woken.value, Woken); }
  }

  lemma EnterTasks(s: PoolState, w: nat)
    requires TasksOk(s) && Is(s, w, Ready)
    ensures TasksOk(EnterPool(s, w))
  {
    if s.workerCount > s.target { IdleTasks(s, w, Leaving); } else { FetchOrSleepTasks(s, s.active, w); }
  }

  lemma SpuriousTasks(s: PoolState, w: nat)
    requires TasksOk(s) && Is(s, w, Asleep)
    ensures TasksOk(s.(workers := s.workers[w := Woken]))
  {
    IdleTasks(s, w, Woken);
  }

  lemma GoneTasks(s: PoolState, w: nat)
    requires TasksOk(s) && Is(s, w, Leaving)
    ensures TasksOk(Gone(s, w))
  {
    ExecutingWithout(s.workers, w);
  }

  /** The events that need the lock but leave the set of workers alone. */
  lemma AskTasks(s: PoolState, e: Event)
    requires TasksOk(s) && Enabled(s, e) && (e.Enter? || e.Wake? || e.Spurious?)
    ensures TasksOk(Apply(s, e))
  {
    match e
    case Enter(w) => EnterTasks(s, w);
    case Wake(w) => FetchOrSleepTasks(s, s.active + 1, w);
    case Spurious(w) => SpuriousTasks(s, w);
  }

  lemma StepTasks(s: PoolState, e: Event)
    requires TasksOk(s) && CountersOk(s) && Enabled(s, e)
    ensures TasksOk(Apply(s, e))
  {
    match e
    case Die(w, threads) => DieStepTasks(s, w, threads);
    case Resize(size, threads) => ResizeTasks(s, size, threads);
    case TerminateAll => WakeAllTasks(s);
    case Schedule(woken) => ScheduleTasks(s, woken);
    case Clear => ClearTasksOk(s);
    case Finish(w) => FinishTasks(s, w);
    case Destruct(w) => GoneTasks(s, w);
    case _ => AskTasks(s, e);
  }

  // ---------------------------------------------------------------- sleeping workers

  lemma FetchOrSleepSleeps(s: PoolState, active: int, w: nat)
    requires SleepOk(s) && w in s.workers && (s.workers[w].Ready? || s.workers[w].Woken?)
    ensures SleepOk(FetchOrSleep(s, active, w))
  {
    WokenAfter(s.workers, w, FetchOrSleep(s, active, w).workers[w]);
  }

  lemma GrownSleeps(s: PoolState)
    requires SleepOk(s) && s.created !in s.workers && s.workerCount < s.target
    ensures SleepOk(Grown(s))
  {
    WokenAfter(s.workers, s.created, Ready);
  }

  lemma {:induction false} GrowSleeps(s: PoolState, threads: nat)
    requires SleepOk(s) && CountersOk(s) && s.workerCount <= s.target
    ensures SleepOk(Grow(s, threads))
    decreases threads
  {
    if s.workerCount < s.target && threads > 0 {
      GrownCounters(s);
      GrownSleeps(s);
      GrowSleeps(Grown(s), threads - 1);
    }
  }

  lemma ResizeSleeps(s: PoolState, size: int, threads: nat)
    requires SleepOk(s) && CountersOk(s)
    ensures SleepOk(ResizePool(s, size, threads))
  {
    if s.workerCount <= size { GrowSleeps(s.(target := size), threads); }
  }

  lemma StepSleeps(s: PoolState, e: Event)
    requires SleepOk(s) && CountersOk(s) && Enabled(s, e)
    ensures SleepOk(Apply(s, e))
  {
    match e
    case Schedule(woken) => if woken.Some? { WokenAfter(s.workers, woken.value, Woken); }
    case Enter(w) =>
      if s.workerCount > s.target { WokenAfter(s.workers, w, Leaving); } else { FetchOrSleepSleeps(s, s.active, w); }
    case Wake(w) => FetchOrSleepSleeps(s, s.active + 1, w);
    case Spurious(w) => WokenAfter(s.workers, w, Woken);
    case Finish(w) => WokenAfter(s.workers, w, Ready);
    case Die(w, threads) =>
      BusyWithout(s.workers, w);
      GoneCounters(s, w);
      var s1 := Gone(s, w).(died := s.died + {s.workers[w].task});
      ResizeSleeps(s1, s1.workerCount + 1, threads);
    case Destruct(w) => BusyWithout(s.workers, w);
    case Resize(size, threads) => ResizeSleeps(s, size, threads);
    case Clear =>
    case TerminateAll =>
  }

  // ---------------------------------------------------------------- whole runs

  lemma EmptyOk()
    ensures PoolOk(EMPTY)
  {
    assert Elements([]) == {};
    assert EMPTY.fetched + EMPTY.queue == [];
  }

  lemma StepPoolOk(s: PoolState, e: Event)
    requires PoolOk(s) && Enabled(s, e)
    ensures PoolOk(Apply(s, e))
  {
    StepCounters(s, e);
    StepTasks(s, e);
    StepSleeps(s, e);
  }

  /** Every state of every run is in order. */
  lemma {:induction false} RunPoolOk(run: seq<PoolState>, events: seq<Event>, k: nat)
    requires IsRun(run, events) && k < |run|
    ensures PoolOk(run[k])
  {
    if k == 0 {
      EmptyOk();
    } else {
      RunPoolOk(run, events, k - 1);
      assert Enabled(run[k - 1], events[k - 1]);
      StepPoolOk(run[k - 1], events[k - 1]);
    }
  }

  datatype Fate = Pending | Executed(w: nat) | Finished | Died | Cleared | Unknown

  /** Where task `t` is. */
  ghost predicate IsAt(s: PoolState, t: nat, fate: Fate)
  {
    match fate
    case Pending => t in s.queue
    case Executed(w) => w in s.workers && s.workers[w] == Running(t)
    case Finished => t in s.finished
    case Died => t in s.died
    case Cleared => t in s.cleared
    case Unknown => t >= s.scheduled
  }

  /** Conservation: at every moment each task is in exactly one place, at exactly one worker if it is
      being executed, and is somewhere from the moment it is scheduled on. */
  lemma RunConserves(run: seq<PoolState>, events: seq<Event>, k: nat, t: nat)
    requires IsRun(run, events) && k < |run|
    ensures exists fate :: IsAt(run[k], t, fate)
    ensures forall f, g :: IsAt(run[k], t, f) && IsAt(run[k], t, g) ==> f == g
  {
    RunPoolOk(run, events, k);
    OneFate(run[k], t);
  }

  lemma OneFate(s: PoolState, t: nat)
    requires TasksOk(s)
    ensures exists fate :: IsAt(s, t, fate)
    ensures forall f, g :: IsAt(s, t, f) && IsAt(s, t, g) ==> f == g
  {
    SomeFate(s, t);
    forall f, g | IsAt(s, t, f) && IsAt(s, t, g) ensures f == g {
      SameFate(s, t, f, g);
    }
  }

  lemma SomeFate(s: PoolState, t: nat)
    requires TasksOk(s)
    ensures exists fate :: IsAt(s, t, fate)
  {
    if t >= s.scheduled {
      assert IsAt(s, t, Unknown);
    } else {
      assert t in Quorum.Nodes(s.scheduled);
      if t in Executing(s.workers) {
        var w :| w in s.workers && s.workers[w].Running? && s.workers[w].task == t;
        assert IsAt(s, t, Executed(w));
      } else {
        assert IsAt(s, t, Pending) || IsAt(s, t, Finished) || IsAt(s, t, Died) || IsAt(s, t, Cleared);
      }
    }
  }

  lemma SameFate(s: PoolState, t: nat, f: Fate, g: Fate)
    requires TasksOk(s) && IsAt(s, t, f) && IsAt(s, t, g)
    ensures f == g
  {
    forall h | (h == f || h == g) && h.Executed? ensures t in Executing(s.workers) {
      assert s.workers[h.w].task in Executing(s.workers);
    }
    assert t in s.fetched <==> t in Elements(s.fetched);
    assert t in s.queue <==> t in Elements(s.queue);
    assert t in Elements(s.fetched) + Elements(s.queue) + s.cleared <==> t in Quorum.Nodes(s.scheduled);
  }

  /** When a wait for `threshold` may return, that is all there is left to do: with threshold 0 every
      task scheduled so far has been executed to its end, has died with its worker, or was cleared. */
  ghost predicate MayReturn(s: PoolState, threshold: nat)
  {
    if threshold == 0 then s.active == 0 && s.queue == [] else s.active + |s.queue| <= threshold
  }

  lemma NothingLeft(s: PoolState, threshold: nat)
    requires PoolOk(s) && MayReturn(s, threshold)
    ensures |Executing(s.workers)| + |s.queue| <= threshold
    ensures threshold == 0 ==> s.finished + s.died + s.cleared == Quorum.Nodes(s.scheduled)
  {
    ExecutingIsBusy(s.workers);
  }

  lemma RunWaitMeansDone(run: seq<PoolState>, events: seq<Event>, k: nat, threshold: nat)
    requires IsRun(run, events) && k < |run| && MayReturn(run[k], threshold)
    ensures |Executing(run[k].workers)| + |run[k].queue| <= threshold
    ensures threshold == 0 ==> run[k].finished + run[k].died + run[k].cleared == Quorum.Nodes(run[k].scheduled)
  {
    RunPoolOk(run, events, k);
    NothingLeft(run[k], threshold);
  }

  lemma ExecutingRest(m: map<nat, Mode>, w: nat)
    requires w in m
    ensures |Executing(m)| <= |Executing(m - {w})| + (if m[w].Running? then 1 else 0)
  {
    var rest := m - {w};
    var bound := Executing(rest) + (if m[w].Running? then {m[w].task} else {});
    forall t | t in Executing(m) ensures t in bound {
      var v :| v in m && m[v].Running? && m[v].task == t;
      assert v != w ==> rest[v] == m[v];
    }
    Quorum.SubsetSize(Executing(m), bound);
  }

  lemma BusyRest(m: map<nat, Mode>, w: nat)
    requires w in m
    ensures |Busy(m)| == |Busy(m - {w})| + (if Counts(m[w]) then 1 else 0)
  {
    assert Busy(m) == Busy(m - {w}) + (if Counts(m[w]) then {w} else {});
  }

  /** No more tasks are executed than workers are active. */
  lemma {:induction false} ExecutingIsBusy(m: map<nat, Mode>)
    ensures |Executing(m)| <= |Busy(m)|
    decreases |m|
  {
    if m.Keys == {} {
      assert Executing(m) == {};
    } else {
      var w :| w in m;
      Removed(m, w);
      ExecutingRest(m, w);
      BusyRest(m, w);
      ExecutingIsBusy(m - {w});
    }
  }

  /** The counters at every moment: active is the number of workers that are not parked in the wait for
      tasks, and it never leaves its range. */
  lemma RunCounters(run: seq<PoolState>, events: seq<Event>, k: nat)
    requires IsRun(run, events) && k < |run|
    ensures run[k].workerCount == |run[k].workers| && run[k].active == |Busy(run[k].workers)|
    ensures 0 <= run[k].active <= run[k].workerCount
  {
    RunPoolOk(run, events, k);
    CountersInRange(run[k]);
  }

  /** Tasks are fetched in the order in which they were scheduled, and ahead of everything pending. */
  lemma RunFetchesInOrder(run: seq<PoolState>, events: seq<Event>, k: nat)
    requires IsRun(run, events) && k < |run|
    ensures Increasing(run[k].fetched + run[k].queue)
  {
    RunPoolOk(run, events, k);
  }

  /** No wake-up is lost: a worker sleeps beside a pending task only if a worker that was woken is on
      its way for each pending task, and such a worker fetches a task whatever the target is. */
  lemma RunLosesNoWakeUp(run: seq<PoolState>, events: seq<Event>, k: nat, w: nat)
    requires IsRun(run, events) && k < |run| && Is(run[k], w, Asleep) && run[k].queue != []
    ensures |OnTheirWay(run[k].workers)| >= |run[k].queue|
    ensures exists v :: v in OnTheirWay(run[k].workers)
    ensures forall v :: v in OnTheirWay(run[k].workers) ==>
      Enabled(run[k], Wake(v)) && Apply(run[k], Wake(v)).workers[v] == Running(run[k].queue[0])
  {
    RunPoolOk(run, events, k);
    SleeperIsCovered(run[k], w);
  }

  lemma SleeperIsCovered(s: PoolState, w: nat)
    requires SleepOk(s) && Is(s, w, Asleep) && s.queue != []
    ensures |OnTheirWay(s.workers)| >= |s.queue|
    ensures exists v :: v in OnTheirWay(s.workers)
    ensures forall v :: v in OnTheirWay(s.workers) ==>
      Enabled(s, Wake(v)) && Apply(s, Wake(v)).workers[v] == Running(s.queue[0])
  {
    assert |OnTheirWay(s.workers)| >= 1;
    var v :| v in OnTheirWay(s.workers);
  }

  // ---------------------------------------------------------------- stranded tasks

  /** Neither a new size, nor shutdown, nor a dying worker. */
  predicate Ordinary(e: Event)
  {
    !e.Resize? && !e.TerminateAll? && !e.Die?
  }

  ghost predicate Path(run: seq<PoolState>, events: seq<Event>, s: PoolState, t: PoolState)
  {
    && |run| == |events| + 1 && run[0] == s && run[|events|] == t
    && forall k: nat {:trigger events[k]} :: k < |events| ==>
         Ordinary(events[k]) && Enabled(run[k], events[k]) && run[k + 1] == Apply(run[k], events[k])
  }

  /** Ordinary events lead from `s` to `t`. */
  ghost predicate Leads(s: PoolState, t: PoolState)
  {
    exists run, events :: Path(run, events, s, t)
  }

  /** A task is pending and nobody is left who could execute it. */
  predicate Stranded(s: PoolState)
  {
    s.workers == map[] && s.queue != []
  }

  ghost predicate CanStrand(s: PoolState)
  {
    exists t :: Leads(s, t) && Stranded(t)
  }

  lemma LeadsNowhere(s: PoolState)
    ensures Leads(s, s)
  {
    assert Path([s], [], s, s);
  }

  lemma LeadsOn(s: PoolState, t: PoolState, e: Event)
    requires Leads(s, t) && Ordinary(e) && Enabled(t, e)
    ensures Leads(s, Apply(t, e))
  {
    var run, events :| Path(run, events, s, t);
    assert Path(run + [Apply(t, e)], events + [e], s, Apply(t, e));
  }

  /** What leaving changes of a pool that is too large and has nothing to do. */
  ghost predicate Surplus(s: PoolState)
  {
    s.workerCount > s.target && s.queue == []
  }

  ghost predicate Alike(s: PoolState, t: PoolState)
  {
    t.workerCount == s.workerCount && t.target == s.target && t.terminating == s.terminating && t.queue == s.queue
  }

  /** In such a pool any worker, wherever it is, can be brought to leave. */
  lemma MakeLeave(s: PoolState, t: PoolState, w: nat) returns (u: PoolState)
    requires Leads(s, t) && Surplus(t) && w in t.workers
    ensures Leads(s, u) && Alike(t, u) && u.workers == t.workers[w := Leaving]
  {
    match t.workers[w]
    case Leaving =>
      assert t.workers[w := Leaving] == t.workers;
      u := t;
    case Ready => u := EnterLeaves(s, t, w);
    case Running(_) =>
      LeadsOn(s, t, Finish(w));
      u := EnterLeaves(s, Apply(t, Finish(w)), w);
      UpdatedTwice(t.workers, w, Ready, Leaving);
    case Woken => u := WakeLeaves(s, t, w);
    case Asleep =>
      LeadsOn(s, t, Spurious(w));
      u := WakeLeaves(s, Apply(t, Spurious(w)), w);
      UpdatedTwice(t.workers, w, Woken, Leaving);
  }

  lemma EnterLeaves(s: PoolState, t: PoolState, w: nat) returns (u: PoolState)
    requires Leads(s, t) && Surplus(t) && Is(t, w, Ready)
    ensures Leads(s, u) && Alike(t, u) && u.workers == t.workers[w := Leaving]
  {
    LeadsOn(s, t, Enter(w));
    u := Apply(t, Enter(w));
  }

  lemma WakeLeaves(s: PoolState, t: PoolState, w: nat) returns (u: PoolState)
    requires Leads(s, t) && Surplus(t) && Is(t, w, Woken)
    ensures Leads(s, u) && Alike(t, u) && u.workers == t.workers[w := Leaving]
  {
    LeadsOn(s, t, Wake(w));
    u := Apply(t, Wake(w));
  }

  ghost function Staying(m: map<nat, Mode>): set<nat>
  {
    set w | w in m && !m[w].Leaving?
  }

  lemma StayingAfter(m: map<nat, Mode>, w: nat)
    requires w in Staying(m)
    ensures |Staying(m[w := Leaving])| < |Staying(m)| && m[w := Leaving].Keys == m.Keys
  {
    assert Staying(m) == Staying(m[w := Leaving]) + {w};
  }

  lemma {:induction false} MakeAllLeave(s: PoolState, t: PoolState) returns (u: PoolState)
    requires Leads(s, t) && Surplus(t)
    ensures Leads(s, u) && Alike(t, u) && Staying(u.workers) == {}
    decreases |Staying(t.workers)|
  {
    if Staying(t.workers) == {} {
      u := t;
    } else {
      var w :| w in Staying(t.workers);
      var t1 := MakeLeave(s, t, w);
      StayingAfter(t.workers, w);
      u := MakeAllLeave(s, t1);
    }
  }

  lemma {:induction false} DestructAll(s: PoolState, t: PoolState) returns (u: PoolState)
    requires Leads(s, t) && Staying(t.workers) == {}
    ensures Leads(s, u) && u.workers == map[] && u.target == t.target && u.terminating == t.terminating
    ensures u.queue == t.queue
    decreases |t.workers|
  {
    if t.workers == map[] {
      u := t;
    } else {
      var w :| w in t.workers;
      assert w !in Staying(t.workers);
      LeadsOn(s, t, Destruct(w));
      Removed(t.workers, w);
      forall v | v in t.workers - {w} ensures (t.workers - {w})[v].Leaving? { assert v !in Staying(t.workers); }
      u := DestructAll(s, Apply(t, Destruct(w)));
    }
  }

  /** A pool without workers strands the next task that is scheduled. */
  lemma EmptyStrands(s: PoolState, t: PoolState)
    requires Leads(s, t) && t.workers == map[]
    ensures CanStrand(s)
  {
    LeadsOn(s, t, Schedule(None));
    assert Stranded(Apply(t, Schedule(None)));
  }

  /** A pool with more workers than its target can lose them all, whatever they are doing: who leaves is
      still counted while others decide whether to leave. */
  lemma SurplusStrands(s: PoolState)
    requires s.workerCount > s.target
    ensures CanStrand(s)
  {
    LeadsNowhere(s);
    LeadsOn(s, s, Clear);
    var t := MakeAllLeave(s, Apply(s, Clear));
    var u := DestructAll(s, t);
    EmptyStrands(s, u);
  }

  /** Worker `w` is one that nobody tells to leave. */
  ghost predicate Keeps(s: PoolState, w: nat)
  {
    s.workerCount <= s.target && w in Staying(s.workers)
  }

  lemma EventKeeps(s: PoolState, e: Event, w: nat)
    requires Keeps(s, w) && Ordinary(e) && Enabled(s, e)
    ensures Keeps(Apply(s, e), w)
  {
  }

  lemma {:induction false} PathKeeps(run: seq<PoolState>, events: seq<Event>, s: PoolState, t: PoolState, k: nat,
                                     w: nat)
    requires Keeps(s, w) && Path(run, events, s, t) && k <= |events|
    ensures Keeps(run[k], w)
  {
    if k > 0 {
      PathKeeps(run, events, s, t, k - 1, w);
      assert Ordinary(events[k - 1]);
      EventKeeps(run[k - 1], events[k - 1], w);
    }
  }

  /** Exactly when a pool can strand a task: it has more workers than its target, or all its workers, if it
      has any, are leaving already. */
  lemma StrandsIff(s: PoolState)
    ensures CanStrand(s) <==> s.workerCount > s.target || Staying(s.workers) == {}
  {
    if s.workerCount > s.target {
      SurplusStrands(s);
    } else if Staying(s.workers) == {} {
      LeadsNowhere(s);
      var u := DestructAll(s, s);
      EmptyStrands(s, u);
    } else {
      var w :| w in Staying(s.workers);
      forall t | Leads(s, t) ensures !Stranded(t) {
        var run, events :| Path(run, events, s, t);
        PathKeeps(run, events, s, t, |events|, w);
        assert w in t.workers;
      }
    }
  }

  /** Growing adds workers that stay and changes no others. */
  lemma {:induction false} GrowStays(s: PoolState, threads: nat)
    requires CountersOk(s) && s.workerCount <= s.target
    ensures var g := Grow(s, threads);
      && g.workerCount <= g.target
      && (Staying(g.workers) == {} <==> Staying(s.workers) == {} && (s.workerCount == s.target || threads == 0))
    decreases threads
  {
    if s.workerCount < s.target && threads > 0 {
      GrownCounters(s);
      assert s.created in Staying(Grown(s).workers);
      GrowStays(Grown(s), threads - 1);
    }
  }

  /** After a resize, and without another one, a shutdown or a death, a task can be stranded if and only if
      the pool was made smaller than it was, or every worker was leaving already and no new one was made. */
  lemma ResizeStrands(s: PoolState, size: nat, threads: nat)
    requires PoolOk(s) && !s.terminating
    ensures CanStrand(ResizePool(s, size, threads)) <==>
      size < s.workerCount || (Staying(s.workers) == {} && (size == s.workerCount || threads == 0))
  {
    StrandsIff(ResizePool(s, size, threads));
    if size >= s.workerCount { GrowStays(s.(target := size), threads); }
  }

  /** The pool between a death and the replacement. */
  ghost function Bereft(s: PoolState, w: nat): PoolState
    requires w in s.workers && s.workers[w].Running?
  {
    Gone(s, w).(died := s.died + {s.workers[w].task}, target := s.workerCount)
  }

  lemma DeathGrows(s: PoolState, w: nat, threads: nat)
    requires !s.terminating && w in s.workers && s.workers[w].Running?
    ensures DieWorker(s, w, threads) == Grow(Bereft(s, w), threads)
  {
  }

  lemma BereftOk(s: PoolState, w: nat)
    requires CountersOk(s) && w in s.workers && s.workers[w].Running?
    ensures var b := Bereft(s, w); CountersOk(b) && b.workerCount == b.target - 1
    ensures Staying(s.workers) == Staying(Bereft(s, w).workers) + {w} && w !in Staying(Bereft(s, w).workers)
  {
    GoneCounters(s, w);
  }

  lemma GrownStrands(b: PoolState, threads: nat)
    requires CountersOk(b) && b.workerCount < b.target
    ensures CanStrand(Grow(b, threads)) <==> Staying(b.workers) == {} && threads == 0
  {
    GrowStays(b, threads);
    StrandsIff(Grow(b, threads));
  }

  /** After the death of a worker a task can be stranded if and only if every other worker was leaving
      already and the system has no thread for a new one.  The size policy makes the number of workers
      there were the new target, so a surplus is forgotten. */
  lemma DeathStrands(s: PoolState, w: nat, threads: nat)
    requires PoolOk(s) && !s.terminating && w in s.workers && s.workers[w].Running?
    ensures CanStrand(DieWorker(s, w, threads)) <==> Staying(s.workers) == {w} && threads == 0
  {
    DeathGrows(s, w, threads);
    BereftOk(s, w);
    GrownStrands(Bereft(s, w), threads);
    assert Staying(s.workers) == {w} <==> Staying(Bereft(s, w).workers) == {};
  }

  lemma {:induction false} GrowReaches(s: PoolState, threads: nat)
    requires s.workerCount <= s.target <= s.workerCount + threads
    ensures Grow(s, threads).workerCount == s.target
    decreases threads
  {
    if s.workerCount < s.target { GrowReaches(Grown(s), threads - 1); }
  }

  lemma FirstWorkers(size: nat)
    ensures var s := Apply(EMPTY, Resize(size, size)); PoolOk(s) && !s.terminating && s.workerCount == size
  {
    var s := EMPTY.(target := size);
    EmptyOk();
    StepPoolOk(EMPTY, Resize(size, size));
    GrowLeaves(s, size);
    GrowReaches(s, size);
  }

  lemma TwoSteps(e: Event, f: Event)
    requires Enabled(EMPTY, e) && Enabled(Apply(EMPTY, e), f)
    ensures var s := Apply(EMPTY, e); IsRun([EMPTY, s, Apply(s, f)], [e, f])
  {
  }

  /** So a pool of any size that is made smaller, by however little, may lose all its workers. */
  lemma AllMayLeave(size: nat, smaller: nat, threads: nat)
    requires size > smaller
    ensures exists run :: IsRun(run, [Resize(size, size), Resize(smaller, threads)]) && CanStrand(run[2])
  {
    var s := Apply(EMPTY, Resize(size, size));
    var run := [EMPTY, s, Apply(s, Resize(smaller, threads))];
    FirstWorkers(size);
    ResizeStrands(s, smaller, threads);
    TwoSteps(Resize(size, size), Resize(smaller, threads));
    assert CanStrand(run[2]);
  }

  // ---------------------------------------------------------------- the object

  /** What a worker is told when it asks for a task. */
  datatype Answer = Leave | Sleep | Execute(task: nat)

  ghost predicate Told(s: PoolState, w: nat, answer: Answer)
  {
    match answer
    case Leave => Is(s, w, Leaving)
    case Sleep => Is(s, w, Asleep)
    case Execute(task) => Is(s, w, Running(task))
  }

  /** The pool core; each method is one region under the lock.  `Valid` is the part of the invariant that
      keeps the counters in range; `StepPoolOk` is about the rest of it. */
  class PoolCore {
    var workerCount: nat
    var targetWorkerCount: nat
    var activeWorkerCount: nat
    var container: seq<nat>
    var terminateAllWorkers: bool
    var terminatedWorkers: seq<nat>

    ghost var workers: map<nat, Mode>
    ghost var created: nat
    ghost var scheduled: nat
    ghost var fetched: seq<nat>
    ghost var finished: set<nat>
    ghost var died: set<nat>
    ghost var cleared: set<nat>

    ghost function State(): PoolState
      reads this
    {
      PoolState(workerCount, targetWorkerCount, activeWorkerCount, container, terminateAllWorkers, terminatedWorkers,
                workers, created, scheduled, fetched, finished, died, cleared)
    }

    ghost predicate Valid()
      reads this
    {
      CountersOk(State())
    }

    constructor ()
      ensures Valid() && State() == EMPTY
    {
      workerCount, targetWorkerCount, activeWorkerCount, container := 0, 0, 0, [];
      terminateAllWorkers, terminatedWorkers := false, [];
      workers, created, scheduled, fetched := map[], 0, 0, [];
      finished, died, cleared := {}, {}, {};
    }

    /** Tasks are named by the number under which they were scheduled. */
    method ScheduleNext(task: nat, ghost woken: Option<nat>) returns (ok: bool)
      requires Valid() && task == scheduled && Notifies(State(), woken)
      modifies this
      ensures Valid() && State() == ScheduleTask(old(State()), woken) && ok
    {
      StepCounters(State(), Schedule(woken));
      container := container + [task];
      workers := if woken.Some? then workers[woken.value := Woken] else workers;
      scheduled := scheduled + 1;
      ok := true;
    }

    method ClearPending()
      requires Valid()
      modifies this
      ensures Valid() && State() == ClearTasks(old(State()))
    {
      StepCounters(State(), Clear);
      cleared := cleared + Elements(container);
      container := [];
    }

    /** The loop that waits for tasks, up to where it sleeps or ends. */
    method FetchTask(w: nat) returns (answer: Answer)
      requires activeWorkerCount >= 1
      modifies this
      ensures State() == FetchOrSleep(old(State()), old(State()).active, w) && Told(State(), w, answer)
    {
      if container == [] {
        if workerCount > targetWorkerCount {
          workers := workers[w := Leaving];
          return Leave;
        }
        activeWorkerCount := activeWorkerCount - 1;
        workers := workers[w := Asleep];
        return Sleep;
      }
      var task := container[0];
      container := container[1..];
      fetched := fetched + [task];
      workers := workers[w := Running(task)];
      answer := Execute(task);
    }

    method ExecuteTask(w: nat) returns (answer: Answer)
      requires Valid() && Is(State(), w, Ready)
      modifies this
      ensures Valid() && State() == EnterPool(old(State()), w) && Told(State(), w, answer)
      ensures answer.Leave? <==> old(workerCount) > old(targetWorkerCount)
      ensures answer.Sleep? <==> old(workerCount) <= old(targetWorkerCount) && old(container) == []
      ensures answer.Execute? ==> old(container) == [answer.task] + container
    {
      StepCounters(State(), Enter(w));
      CountersInRange(State());
      if workerCount > targetWorkerCount {
        workers := workers[w := Leaving];
        return Leave;
      }
      answer := FetchTask(w);
    }

    /** A worker that was woken has the lock again. */
    method Awake(w: nat) returns (answer: Answer)
      requires Valid() && Is(State(), w, Woken)
      modifies this
      ensures Valid() && State() == FetchOrSleep(old(State()), old(State()).active + 1, w) && Told(State(), w, answer)
      ensures answer.Leave? <==> old(workerCount) > old(targetWorkerCount) && old(container) == []
      ensures answer.Sleep? <==> old(workerCount) <= old(targetWorkerCount) && old(container) == []
      ensures answer.Execute? ==> old(container) == [answer.task] + container
    {
      StepCounters(State(), Wake(w));
      activeWorkerCount := activeWorkerCount + 1;
      answer := FetchTask(w);
    }

    /** `threads` is how many threads the system can still create; false if that was too few. */
    method ResizeTo(size: nat, threads: nat) returns (ok: bool)
      requires Valid()
      modifies this
      ensures Valid() && State() == ResizePool(old(State()), size, threads)
      ensures ok <==> !terminateAllWorkers && (workerCount >= size || old(workerCount) > size)
    {
      StepCounters(State(), Resize(size, threads));
      ok := Adjust(size, threads);
    }

    method Adjust(size: nat, threads: nat) returns (ok: bool)
      modifies this
      ensures State() == ResizePool(old(State()), size, threads)
      ensures ok <==> !terminateAllWorkers && (workerCount >= size || old(workerCount) > size)
    {
      if terminateAllWorkers {
        return false;
      }
      targetWorkerCount := size;
      if workerCount <= targetWorkerCount {
        ok := AddWorkers(threads);
      } else {
        workers := WakeAll(workers);
        ok := true;
      }
    }

    /** New workers up to the target; false if the system runs out of threads. */
    method AddWorkers(threads: nat) returns (ok: bool)
      modifies this
      ensures State() == Grow(old(State()), threads)
      ensures terminateAllWorkers == old(terminateAllWorkers) && targetWorkerCount == old(targetWorkerCount)
      ensures ok <==> workerCount >= targetWorkerCount
    {
      var left := threads;
      while workerCount < targetWorkerCount
        invariant Grow(State(), left) == Grow(old(State()), threads)
        invariant targetWorkerCount == old(targetWorkerCount) && terminateAllWorkers == old(terminateAllWorkers)
      {
        if left == 0 {
          return false;
        }
        left := left - 1;
        workers := workers[created := Ready];
        created := created + 1;
        workerCount := workerCount + 1;
        activeWorkerCount := activeWorkerCount + 1;
      }
      ok := true;
    }

    method Remove(w: nat)
      requires workerCount >= 1 && activeWorkerCount >= 1
      modifies this
      ensures State() == Gone(old(State()), w)
    {
      workerCount := workerCount - 1;
      activeWorkerCount := activeWorkerCount - 1;
      workers := workers - {w};
      if terminateAllWorkers {
        terminatedWorkers := terminatedWorkers + [w];
      }
    }

    method ReplaceWorker(threads: nat)
      modifies this
      ensures State() == Replace(old(State()), threads)
    {
      if !terminateAllWorkers {
        var ok := Adjust(workerCount + 1, threads);
      }
    }

    /** The worker that a task's exception has ended is replaced, unless the pool shuts down. */
    method WorkerDiedUnexpectedly(w: nat, threads: nat)
      requires Valid() && w in workers && workers[w].Running?
      modifies this
      ensures State() == DieWorker(old(State()), w, threads)
      ensures Valid()
    {
      StepCounters(State(), Die(w, threads));
      CountersInRange(State());
      died := died + {workers[w].task};
      Remove(w);
      ReplaceWorker(threads);
    }

    method WorkerDestructed(w: nat)
      requires Valid() && Is(State(), w, Leaving)
      modifies this
      ensures Valid() && State() == Gone(old(State()), w)
    {
      StepCounters(State(), Destruct(w));
      CountersInRange(State());
      Remove(w);
    }

    method TerminateWorkers()
      requires Valid()
      modifies this
      ensures Valid() && State() == Terminate(old(State()))
    {
      StepCounters(State(), TerminateAll);
      terminateAllWorkers := true;
      targetWorkerCount := 0;
      workers := WakeAll(workers);
    }

    /** The condition that the wait for a threshold tests. */
    method WaitIsOver(threshold: nat) returns (over: bool)
      ensures over == MayReturn(State(), threshold)
    {
      if threshold == 0 {
        over := !(activeWorkerCount != 0 || container != []);
      } else {
        over := !(threshold < activeWorkerCount + |container|);
      }
    }
  }
}
