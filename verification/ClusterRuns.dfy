/** All events, and hence all runs, keep the invariant of the cluster as long as they stay in range; and a
    run in which only the master proposes always does. */
module ClusterRuns {
  import opened Types
  import opened Ballots
  import opened SlotPaxos
  import opened ChosenLog
  import opened Replica
  import opened ReplicaSafety
  import opened Refinement
  import opened Cluster
  import opened ClusterLocal
  import opened ClusterSafety
  import SlotSafety

  // ---------------------------------------------------------------- what nodes say is so

  lemma KnownValue(sys: System, l: Log, slot: nat)
    requires LogKnown(sys, l) && Has(l, slot)
    ensures Settled(sys, slot, l.values[slot].value)
  {
    assert slot in Contents(l) && Contents(l)[slot] == l.values[slot].value;
  }

  lemma CommitTruthful(ctx: Ctx, sys: System, c: CaptainState, value: PropValue, client: string, asked: set<nat>)
    requires CaptainOk(ctx, c) && LogKnown(sys, c.log) && LossesKnown(sys, c)
    ensures Truthful(sys, Commit(ctx, c, value, client, asked))
  {
    if |c.proposers| < ctx.window {
      RoomStarts(ctx, c, value, client, asked);
      StartFastTruthful(ctx, sys, c.(submitted := c.submitted + [Submission(value, client)]), value, client, asked);
    }
  }

  lemma ContendTruthful(ctx: Ctx, sys: System, c: CaptainState, slot: nat, value: PropValue, client: string,
                        asked: set<nat>)
    requires PlacesOk(c) && slot > c.maxSlot && LogKnown(sys, c.log) && LossesKnown(sys, c)
    ensures Truthful(sys, Contend(ctx, c, slot, value, client, asked))
  {
  }

  /** Giving a value an id, and committing it or bringing it to a slot. */
  lemma OwnTruthful(par: Params, sys: System, e: Event)
    requires par.Valid() && |sys.nodes| == par.cfg.n && Cluster.Enabled(par, sys, e)
    requires e.ClientCommit? || e.DeliverCommit? || e.Contends?
    requires NodeKnown(sys, Actor(par, e)) && CaptainOk(par.At(Actor(par, e)), sys.nodes[Actor(par, e)])
    ensures Truthful(sys, Does(par, sys, e))
  {
    var ctx, c := par.At(Actor(par, e)), sys.nodes[Actor(par, e)];
    CountedOk(ctx, c);
    match e
    case ClientCommit(i, data, client, asked) =>
      if i == par.cfg.master { CommitTruthful(ctx, sys, Counted(c), NextValue(c, data), client, asked); }
    case DeliverCommit(value, asked) => if c.work { CommitTruthful(ctx, sys, c, value, "", asked); }
    case Contends(_, slot, data, client, asked) =>
      ContendTruthful(ctx, sys, Counted(c), slot, NextValue(c, data), client, asked);
  }

  /** Saying what is known, and falling mute. */
  lemma SideTruthful(par: Params, sys: System, e: Event)
    requires par.Valid() && |sys.nodes| == par.cfg.n && Cluster.Enabled(par, sys, e)
    requires (e.ServeLog? || e.SendDecide? || e.Crash?) && NodeKnown(sys, Actor(par, e))
    ensures Truthful(sys, Does(par, sys, e))
  {
    if e.ServeLog? || e.SendDecide? { KnownValue(sys, sys.nodes[e.i].log, e.slot); }
  }

  /** Handling a packet, or a log entry. */
  lemma PacketTruthful(par: Params, sys: System, e: Event)
    requires par.Valid() && SysOk(par, sys) && Cluster.Enabled(par, sys, e) && (e.Deliver? || e.DeliverLog?)
    ensures Truthful(sys, Does(par, sys, e))
  {
    if e.Deliver? {
      assert Packet(e.p.dst, e.p.msg) == e.p;
      HandleMsgTruthful(par, sys, e.p.dst, e.p.msg, e.asked, e.name);
    } else {
      assert PacketKnown(sys, e.p.msg);
      TeachTruthful(par, sys, e.i, e.p.msg.slot, e.p.msg.value);
    }
  }

  lemma DoesTruthful(par: Params, sys: System, e: Event)
    requires par.Valid() && SysOk(par, sys) && Cluster.Enabled(par, sys, e)
    ensures Truthful(sys, Does(par, sys, e))
  {
    assert NodeKnown(sys, Actor(par, e)) && CaptainOk(par.At(Actor(par, e)), sys.nodes[Actor(par, e)]);
    match e
    case Deliver(_, _, _) => PacketTruthful(par, sys, e);
    case DeliverLog(_, _) => PacketTruthful(par, sys, e);
    case ServeLog(_, _) => SideTruthful(par, sys, e);
    case SendDecide(_, _, _) => SideTruthful(par, sys, e);
    case Crash(_) => SideTruthful(par, sys, e);
    case _ => OwnTruthful(par, sys, e);
  }

  ghost predicate AllKnown(sys: System)
  {
    (forall i: nat :: i < |sys.nodes| ==> NodeKnown(sys, i)) && forall p :: p in sys.sent ==> PacketKnown(sys, p.msg)
  }

  lemma KnowledgeStays(sys: System, sys': System, i: nat, h: Handled)
    requires SysGrows(sys, sys') && AllKnown(sys) && Truthful(sys, h) && i < |sys.nodes|
    requires sys'.nodes == sys.nodes[i := h.state] && sys'.sent == sys.sent + h.out
    ensures AllKnown(sys')
  {
    forall j: nat | j < |sys.nodes| ensures NodeKnown(sys', j) {
      assert NodeKnown(sys, j);
      LogStays(sys, sys', sys'.nodes[j].log);
      LossesStay(sys, sys', sys'.nodes[j]);
    }
    forall p | p in sys'.sent ensures PacketKnown(sys', p.msg) { PacketStaysKnown(sys, sys', p.msg); }
  }

  // ---------------------------------------------------------------- the range

  /** Fast slots and placements stay on record. */
  lemma RecordsStay(par: Params, sys: System, e: Event, i: nat)
    requires par.Valid() && |sys.nodes| == par.cfg.n && Cluster.Enabled(par, sys, e) && i < par.cfg.n
    ensures var c, c' := sys.nodes[i], Cluster.Apply(par, sys, e).nodes[i];
      c.fast <= c'.fast && c.placed.Keys <= c'.placed.Keys
  {
    DoesLeaves(par, sys, e);
  }

  /** So a run that ends in range was always in range. */
  lemma EventStaysInRange(par: Params, sys: System, e: Event)
    requires par.Valid() && |sys.nodes| == par.cfg.n && Cluster.Enabled(par, sys, e)
    requires InRange(par, Cluster.Apply(par, sys, e))
    ensures InRange(par, sys)
  {
    var m, sys' := par.cfg.master, Cluster.Apply(par, sys, e);
    RecordsStay(par, sys, e, m);
    forall s | s in sys.nodes[m].fast ensures par.cfg.PrePromised(s) || NobodyCame(par, sys, s) {
      if NobodyCame(par, sys', s) {
        forall i: nat | i < m ensures s !in sys.nodes[i].placed { RecordsStay(par, sys, e, i); }
      }
    }
  }

  // ---------------------------------------------------------------- slots

  /** A node runs a proposer only where it has placed a value. */
  lemma ProposerIsPlaced(ctx: Ctx, c: CaptainState, s: nat)
    requires CaptainOk(ctx, c)
    ensures s in c.proposers ==> s in c.placed
  {
    if s in c.proposers { assert RunsPlaced(c.proposers[s], c.placed, s); }
  }

  /** Where nobody below the master has placed anything, nobody below the master is active. */
  lemma NobodyIsActive(par: Params, sys: System, s: nat)
    requires |sys.nodes| == par.cfg.n == |par.windows| && NodesOk(par, sys) && NobodyCame(par, sys, s)
    ensures NobodyBelow(par.cfg, View(sys, s))
  {
    forall j: nat | j < par.cfg.master && j < |sys.nodes| ensures View(sys, s).nodes[j].role.Idle? {
      ProposerIsPlaced(par.At(j), sys.nodes[j], s);
    }
  }

  lemma FloorIsFloor(par: Params, sys: System, s: nat)
    requires par.Valid() && |sys.nodes| == par.cfg.n && NodesOk(par, sys) && InRange(par, sys)
    ensures SlotSafety.IsFloor(par.cfg, Floor(par, sys, s), View(sys, s))
  {
    if Floor(par, sys, s) != STEP { NobodyIsActive(par, sys, s); }
  }

  /** When the floor rises to the master's first ballot, nothing had been proposed below that. */
  lemma FloorMayRise(par: Params, sys: System, sys': System, s: nat)
    requires par.Valid() && |sys.nodes| == |sys'.nodes| == par.cfg.n
    requires Inv(par.cfg, s, Floor(par, sys, s), View(sys, s)) && Grows(View(sys, s), View(sys', s))
    requires sys.nodes[par.cfg.master].fast <= sys'.nodes[par.cfg.master].fast
    requires SlotSafety.IsFloor(par.cfg, Floor(par, sys', s), View(sys', s))
    ensures Inv(par.cfg, s, Floor(par, sys', s), View(sys, s))
    ensures SlotSafety.IsFloor(par.cfg, Floor(par, sys', s), View(sys, s))
  {
    if Floor(par, sys', s) != STEP {
      SlotSafety.NobodyBefore(par.cfg, View(sys, s), View(sys', s));
      if Floor(par, sys, s) == STEP { SlotSafety.RaiseFloor(par.cfg, s, View(sys, s)); }
    }
  }

  lemma FastIsAllowed(par: Params, sys: System, e: Event, s: nat, step: SlotStep)
    requires par.Valid() && |sys.nodes| == par.cfg.n && Cluster.Enabled(par, sys, e)
    requires var i := Actor(par, e);
      && Legal(par.At(i), sys.nodes[i], s, step, Received(e), AskedBy(e))
      && Takes(par.At(i), sys.nodes[i], Does(par, sys, e), s, step)
    ensures SlotSafety.FastAllowed(par.cfg, s, Floor(par, Cluster.Apply(par, sys, e), s), step)
  {
  }

  lemma SlotStaysSafe(par: Params, sys: System, e: Event, s: nat)
    requires par.Valid() && |sys.nodes| == par.cfg.n && Cluster.Enabled(par, sys, e)
    requires CaptainOk(par.At(Actor(par, e)), sys.nodes[Actor(par, e)])
    requires Inv(par.cfg, s, Floor(par, sys, s), View(sys, s))
    requires SlotSafety.IsFloor(par.cfg, Floor(par, Cluster.Apply(par, sys, e), s), View(Cluster.Apply(par, sys, e), s))
    ensures var sys' := Cluster.Apply(par, sys, e); Safe(View(sys', s), Floor(par, sys', s))
  {
    var i, h, sys' := Actor(par, e), Does(par, sys, e), Cluster.Apply(par, sys, e);
    SlotStaysCoherent(par, sys, e, s);
    RecordsStay(par, sys, e, par.cfg.master);
    FloorMayRise(par, sys, sys', s);
    DoesFollows(par, sys, e, s);
    if Stutters(sys.nodes[i], h, s) {
      ViewStutters(sys, sys', i, h, s);
    } else {
      var step :| Legal(par.At(i), sys.nodes[i], s, step, Received(e), AskedBy(e))
        && Takes(par.At(i), sys.nodes[i], h, s, step);
      LegalIsEnabled(par, sys, e, s, step);
      FastIsAllowed(par, sys, e, s, step);
      ViewSteps(par, sys, sys', i, h, s, step);
      SlotSafety.StepKeeps(par.cfg, s, Floor(par, sys', s), View(sys, s), i, step);
    }
  }

  lemma SlotsStaySafe(par: Params, sys: System, e: Event)
    requires par.Valid() && LocalOk(par, sys) && SlotsSafe(par, sys) && Cluster.Enabled(par, sys, e)
    requires NodesOk(par, Cluster.Apply(par, sys, e)) && InRange(par, Cluster.Apply(par, sys, e))
    ensures SlotsSafe(par, Cluster.Apply(par, sys, e))
  {
    var sys' := Cluster.Apply(par, sys, e);
    assert CaptainOk(par.At(Actor(par, e)), sys.nodes[Actor(par, e)]);
    forall s: nat ensures Safe(View(sys', s), Floor(par, sys', s)) {
      assert Coherent(par.cfg, s, View(sys, s)) && Safe(View(sys, s), Floor(par, sys, s));
      FloorIsFloor(par, sys', s);
      SlotStaysSafe(par, sys, e, s);
    }
  }

  // ---------------------------------------------------------------- all events, all runs

  /** Every event after which the cluster is in range keeps its invariant. */
  lemma EventKeeps(par: Params, sys: System, e: Event)
    requires par.Valid() && SysOk(par, sys) && Cluster.Enabled(par, sys, e)
    requires InRange(par, Cluster.Apply(par, sys, e))
    ensures SysOk(par, Cluster.Apply(par, sys, e))
  {
    EventLocal(par, sys, e);
    SlotsStaySafe(par, sys, e);
    DoesTruthful(par, sys, e);
    KnowledgeStays(sys, Cluster.Apply(par, sys, e), Actor(par, e), Does(par, sys, e));
  }

  lemma StartOk(par: Params)
    requires par.Valid()
    ensures SysOk(par, Cluster.Start(par))
  {
    var sys := Cluster.Start(par);
    StartLocal(par);
    forall s: nat ensures Safe(View(sys, s), Floor(par, sys, s)) { StartView(par, s); }
  }

  lemma NextKeeps(par: Params, sys: System, e: Event, sys': System)
    requires par.Valid() && Cluster.Next(par, sys, e, sys') && InRange(par, sys')
    ensures InRange(par, sys)
    ensures SysOk(par, sys) ==> SysOk(par, sys')
  {
    EventStaysInRange(par, sys, e);
    if SysOk(par, sys) { EventKeeps(par, sys, e); }
  }

  lemma StepKeeps(par: Params, run: seq<System>, events: seq<Event>, k: nat)
    requires par.Valid() && Cluster.IsRun(par, run, events) && 0 < k < |run| && InRange(par, run[k])
    ensures InRange(par, run[k - 1])
    ensures SysOk(par, run[k - 1]) ==> SysOk(par, run[k])
  {
    assert Cluster.StepAt(par, run, events, k - 1);
    NextKeeps(par, run[k - 1], events[k - 1], run[k]);
  }

  /** Every state in range that the cluster can reach satisfies the invariant. */
  lemma {:induction false} RunOk(par: Params, run: seq<System>, events: seq<Event>, k: nat)
    requires par.Valid() && Cluster.IsRun(par, run, events) && k < |run| && InRange(par, run[k])
    ensures SysOk(par, run[k])
  {
    if k == 0 {
      StartOk(par);
    } else {
      StepKeeps(par, run, events, k);
      RunOk(par, run, events, k - 1);
    }
  }

  /** A run that ends in range was always in range. */
  lemma {:induction false} RunStaysInRange(par: Params, run: seq<System>, events: seq<Event>, k: nat, l: nat)
    requires par.Valid() && Cluster.IsRun(par, run, events) && k <= l < |run| && InRange(par, run[l])
    ensures InRange(par, run[k])
  {
    if k < l {
      StepKeeps(par, run, events, l);
      RunStaysInRange(par, run, events, k, l - 1);
    }
  }

  // ---------------------------------------------------------------- only the master proposes

  /** A node that has no proposer of its own. */
  ghost predicate Passive(c: CaptainState)
  {
    c.proposers == map[] && c.placed == map[]
  }

  lemma HandleMsgPassive(ctx: Ctx, c: CaptainState, m: Msg, asked: set<nat>, name: string)
    requires Passive(c)
    ensures Passive(HandleMsg(ctx, c, m, asked, name).state)
  {
  }

  lemma EventPassive(par: Params, sys: System, e: Event, i: nat)
    requires par.Valid() && |sys.nodes| == par.cfg.n && Cluster.Enabled(par, sys, e) && i < par.cfg.n
    requires i != par.cfg.master && (e.Contends? ==> e.i != i) && Passive(sys.nodes[i])
    ensures Passive(Cluster.Apply(par, sys, e).nodes[i])
  {
    if e.Deliver? && e.p.dst == i { HandleMsgPassive(par.At(e.p.dst), sys.nodes[e.p.dst], e.p.msg, e.asked, e.name); }
  }

  /** No node with a smaller id than the master brings a value to a slot by itself. */
  ghost predicate NobodyBelowContends(par: Params, events: seq<Event>)
  {
    forall k :: 0 <= k < |events| && events[k].Contends? ==> par.cfg.master <= events[k].i
  }

  lemma {:induction false} RunPassive(par: Params, run: seq<System>, events: seq<Event>, k: nat, i: nat)
    requires par.Valid() && Cluster.IsRun(par, run, events) && k < |run| && i < par.cfg.master
    requires NobodyBelowContends(par, events)
    ensures i < |run[k].nodes| && Passive(run[k].nodes[i])
  {
    if k > 0 {
      RunPassive(par, run, events, k - 1, i);
      StepPassive(par, run, events, k, i);
    }
  }

  lemma StepPassive(par: Params, run: seq<System>, events: seq<Event>, k: nat, i: nat)
    requires par.Valid() && Cluster.IsRun(par, run, events) && 0 < k < |run| && i < par.cfg.master
    requires NobodyBelowContends(par, events) && i < |run[k - 1].nodes| && Passive(run[k - 1].nodes[i])
    ensures i < |run[k].nodes| && Passive(run[k].nodes[i])
  {
    LastNext(par, run, events, k);
    EventPassive(par, run[k - 1], events[k - 1], i);
  }

  /** As long as no node below the master contends, a run is in range whatever `length_` is: this is what
      the code does while its master is fixed. */
  lemma RunInRange(par: Params, run: seq<System>, events: seq<Event>, k: nat)
    requires par.Valid() && Cluster.IsRun(par, run, events) && k < |run| && NobodyBelowContends(par, events)
    ensures InRange(par, run[k])
  {
    RunLocal(par, run, events, k);
    forall s: nat ensures NobodyCame(par, run[k], s) {
      forall i: nat | i < par.cfg.master && i < |run[k].nodes| ensures s !in run[k].nodes[i].placed {
        RunPassive(par, run, events, k, i);
      }
    }
  }
}
