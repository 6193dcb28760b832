/** What the cluster is for: one log, delivered everywhere in the same order, in which no submitted
    value appears twice. */
module ReplicatedLog {
  import opened Types
  import opened SlotPaxos
  import opened Proposers
  import Ballots
  import opened ChosenLog
  import opened Replica
  import opened ReplicaSafety
  import opened Cluster
  import opened ClusterLocal
  import opened ClusterSafety
  import opened ClusterRuns
  import opened Submissions

  /** A slot is settled on one value. */
  lemma SettledAgree(par: Params, sys: System, s: nat, v: PropValue, w: PropValue)
    requires par.Valid() && SysOk(par, sys) && Settled(sys, s, v) && Settled(sys, s, w)
    ensures v == w
  {
    SettledIdsAgree(par, sys, s, v.id, w.id);
  }

  /** What a node has delivered so far are settled values, slot by slot from slot 1. */
  lemma DeliveredIsSettled(par: Params, sys: System, i: nat, k: nat)
    requires par.Valid() && SysOk(par, sys) && i < par.cfg.n && k < |sys.nodes[i].log.delivered|
    ensures var d := sys.nodes[i].log.delivered[k]; d.slot == k + 1 && Settled(sys, k + 1, d.value)
  {
    assert NodeKnown(sys, i) && CaptainOk(par.At(i), sys.nodes[i]);
    DeliveredIsStored(sys.nodes[i].log, k);
  }

  // ---------------------------------------------------------------- one slot per value

  lemma PlacedOnce(par: Params, sys: System, i: nat, s: nat, j: nat, t: nat)
    requires LocalOk(par, sys) && i < par.cfg.n && j < par.cfg.n
    requires s in sys.nodes[i].placed && t in sys.nodes[j].placed
    requires sys.nodes[i].placed[s].id == sys.nodes[j].placed[t].id
    ensures i == j
  {
    PlacedIsSubmitted(par, sys, i, s);
    PlacedIsSubmitted(par, sys, j, t);
  }

  lemma PlacedIsSubmitted(par: Params, sys: System, i: nat, s: nat)
    requires LocalOk(par, sys) && i < par.cfg.n && s in sys.nodes[i].placed
    ensures Submitted(sys.nodes[i].submitted, sys.nodes[i].placed[s].id)
  {
    var c := sys.nodes[i];
    assert CaptainOk(par.At(i), c);
    var k :| 0 <= k < |c.started| && c.started[k].value == c.placed[s];
    assert c.submitted[k] == c.started[k];
  }

  ghost predicate AllHomed(sys: System)
  {
    forall i: nat :: i < |sys.nodes| ==> Homed(sys.nodes[i])
  }

  /** Unless a value was submitted twice, no id is chosen in two slots, although a value that loses its slot
      is moved to another: it moves only after a different value has been chosen there. */
  lemma OneSlotPerValue(par: Params, sys: System, s: nat, t: nat, id: nat)
    requires par.Valid() && SysOk(par, sys) && AllHomed(sys) && AllOnce(sys)
    requires SettledId(sys, s, id) && SettledId(sys, t, id)
    ensures s == t
  {
    var i := SettledWasPlaced(par, sys, s, id);
    var j := SettledWasPlaced(par, sys, t, id);
    PlacedOnce(par, sys, i, s, j, t);
    var c := sys.nodes[i];
    assert CaptainOk(par.At(i), c) && Homed(c);
    if s != t {
      assert s in c.lost || OthersLost(c.placed, c.lost, s);
      var u := if s in c.lost then s else t;
      LostIsNotSettled(par, sys, i, u);
    }
  }

  /** A slot that a node has given up on is not settled on the value it had there. */
  lemma LostIsNotSettled(par: Params, sys: System, i: nat, s: nat)
    requires par.Valid() && SysOk(par, sys) && i < par.cfg.n && s in sys.nodes[i].lost && s in sys.nodes[i].placed
    ensures !SettledId(sys, s, sys.nodes[i].placed[s].id)
  {
    var id := sys.nodes[i].placed[s].id;
    assert NodeKnown(sys, i);
    assert LossKnown(sys, s, id);
    var id' :| id' != id && SettledId(sys, s, id');
    if SettledId(sys, s, id) { SettledIdsAgree(par, sys, s, id, id'); }
  }

  // ---------------------------------------------------------------- agreement in whole runs

  /** Whatever was settled at an earlier moment of a run is settled at a later one. */
  lemma RunStaysSettled(par: Params, run: seq<System>, events: seq<Event>, k: nat, l: nat, s: nat, value: PropValue)
    requires par.Valid() && Cluster.IsRun(par, run, events) && k <= l < |run|
    requires Settled(run[k], s, value)
    ensures Settled(run[l], s, value)
  {
    RunGrows(par, run, events, k, l);
    SettledStays(run[k], run[l], s, value.id);
  }

  /** Whatever a node has called back in slot order is what those slots are settled on. */
  lemma RunDeliversSettled(par: Params, run: seq<System>, events: seq<Event>, k: nat, i: nat, a: nat)
    requires par.Valid() && Cluster.IsRun(par, run, events) && k < |run| && InRange(par, run[k]) && i < par.cfg.n
    ensures |run[k].nodes| == par.cfg.n
    ensures var d := run[k].nodes[i].log.delivered;
      a < |d| ==> d[a].slot == a + 1 && Settled(run[k], a + 1, d[a].value)
  {
    RunOk(par, run, events, k);
    if a < |run[k].nodes[i].log.delivered| { DeliveredIsSettled(par, run[k], i, a); }
  }

  /** Two values that a slot was settled on at two moments of a run are the same. */
  lemma RunSettledAgree(par: Params, run: seq<System>, events: seq<Event>, k: nat, l: nat, s: nat, v: PropValue,
                        w: PropValue)
    requires par.Valid() && Cluster.IsRun(par, run, events) && k <= l < |run| && InRange(par, run[l])
    requires Settled(run[k], s, v) && Settled(run[l], s, w)
    ensures v == w
  {
    RunStaysSettled(par, run, events, k, l, s, v);
    RunOk(par, run, events, l);
    SettledAgree(par, run[l], s, v, w);
  }

  /** In every run, what node `i` had delivered at one moment and what node `j` has delivered at a
      later one agree slot by slot. */
  lemma RunDeliveriesAgree(par: Params, run: seq<System>, events: seq<Event>, k: nat, l: nat, i: nat, j: nat)
    requires par.Valid() && Cluster.IsRun(par, run, events) && k <= l < |run| && InRange(par, run[l])
    requires i < par.cfg.n && j < par.cfg.n
    ensures |run[k].nodes| == |run[l].nodes| == par.cfg.n
    ensures var a, b := run[k].nodes[i].log.delivered, run[l].nodes[j].log.delivered; a <= b || b <= a
  {
    RunStaysInRange(par, run, events, k, l);
    RunDeliversSettled(par, run, events, k, i, 0);
    RunDeliversSettled(par, run, events, l, j, 0);
    var a, b := run[k].nodes[i].log.delivered, run[l].nodes[j].log.delivered;
    forall m: nat | m < |a| && m < |b| ensures a[m] == b[m] { RunSameDelivery(par, run, events, k, l, i, j, m); }
  }

  lemma RunSameDelivery(par: Params, run: seq<System>, events: seq<Event>, k: nat, l: nat, i: nat, j: nat, m: nat)
    requires par.Valid() && Cluster.IsRun(par, run, events) && k <= l < |run| && InRange(par, run[k])
    requires InRange(par, run[l])
    requires i < par.cfg.n == |run[k].nodes| == |run[l].nodes| && j < par.cfg.n
    requires m < |run[k].nodes[i].log.delivered| && m < |run[l].nodes[j].log.delivered|
    ensures run[k].nodes[i].log.delivered[m] == run[l].nodes[j].log.delivered[m]
  {
    var a, b := run[k].nodes[i].log.delivered, run[l].nodes[j].log.delivered;
    RunDeliversSettled(par, run, events, k, i, m);
    RunDeliversSettled(par, run, events, l, j, m);
    RunSettledAgree(par, run, events, k, l, m + 1, a[m].value, b[m].value);
  }

  /** However a node learned a value, by CHOOSE, a piggybacked or separate decide, TEACH or log data, it
      is the one value that was issued and chosen for that slot. */
  lemma RunLearnsTheChosen(par: Params, run: seq<System>, events: seq<Event>, k: nat, i: nat, s: nat)
    requires par.Valid() && Cluster.IsRun(par, run, events) && k < |run| && InRange(par, run[k]) && i < par.cfg.n
    ensures |run[k].nodes| == par.cfg.n
    ensures Has(run[k].nodes[i].log, s) ==> Settled(run[k], s, run[k].nodes[i].log.values[s].value)
  {
    RunOk(par, run, events, k);
    assert NodeKnown(run[k], i);
    if Has(run[k].nodes[i].log, s) { KnownValue(run[k], run[k].nodes[i].log, s); }
  }

  /** Two nodes that know a slot, at any two moments, know the same value, also above a hole. */
  lemma RunKnownAgree(par: Params, run: seq<System>, events: seq<Event>, k: nat, l: nat, i: nat, j: nat, s: nat)
    requires par.Valid() && Cluster.IsRun(par, run, events) && k <= l < |run| && InRange(par, run[l])
    requires i < par.cfg.n && j < par.cfg.n
    ensures |run[k].nodes| == |run[l].nodes| == par.cfg.n
    ensures var a, b := run[k].nodes[i].log, run[l].nodes[j].log; Has(a, s) && Has(b, s) ==> a.values[s] == b.values[s]
  {
    RunStaysInRange(par, run, events, k, l);
    RunLearnsTheChosen(par, run, events, k, i, s);
    RunLearnsTheChosen(par, run, events, l, j, s);
    var a, b := run[k].nodes[i].log, run[l].nodes[j].log;
    if Has(a, s) && Has(b, s) {
      RunSettledAgree(par, run, events, k, l, s, a.values[s].value, b.values[s].value);
    }
  }

  /** While no node below the master contends, which is how the code runs with a fixed master, everyone
      delivers the same sequence however far beyond `length_` the slots go. */
  lemma RunFixedMasterAgrees(par: Params, run: seq<System>, events: seq<Event>, k: nat, l: nat, i: nat, j: nat)
    requires par.Valid() && Cluster.IsRun(par, run, events) && k <= l < |run| && NobodyBelowContends(par, events)
    requires i < par.cfg.n && j < par.cfg.n
    ensures |run[k].nodes| == |run[l].nodes| == par.cfg.n
    ensures var a, b := run[k].nodes[i].log.delivered, run[l].nodes[j].log.delivered; a <= b || b <= a
  {
    RunInRange(par, run, events, l);
    RunDeliveriesAgree(par, run, events, k, l, i, j);
  }

  // ---------------------------------------------------------------- values appear once

  /** If no COMMIT is delivered twice, then in every run an id chosen in one slot at one moment is not
      chosen in another slot at any later one. */
  lemma RunOneSlotPerValue(par: Params, run: seq<System>, events: seq<Event>, k: nat, l: nat, s: nat, t: nat,
                           value: PropValue)
    requires par.Valid() && Cluster.IsRun(par, run, events) && k <= l < |run| && InRange(par, run[l])
    requires CommitsOnce(events, l)
    requires Settled(run[k], s, value) && SettledId(run[l], t, value.id)
    ensures s == t
  {
    RunStaysSettled(par, run, events, k, l, s, value);
    RunOk(par, run, events, l);
    forall i: nat | i < |run[l].nodes| ensures Homed(run[l].nodes[i]) { RunHomed(par, run, events, l, i); }
    RunSubmitsOnce(par, run, events, l);
    OneSlotPerValue(par, run[l], s, t, value.id);
  }

  /** If no COMMIT is delivered twice, no submission is called back twice at a node. */
  lemma RunDeliveredOnce(par: Params, run: seq<System>, events: seq<Event>, k: nat, i: nat, a: nat, b: nat)
    requires par.Valid() && Cluster.IsRun(par, run, events) && k < |run| && InRange(par, run[k]) && i < par.cfg.n
    requires CommitsOnce(events, k)
    ensures |run[k].nodes| == par.cfg.n
    ensures var d := run[k].nodes[i].log.delivered;
      a < |d| && b < |d| && d[a].value.id == d[b].value.id ==> a == b
  {
    RunDeliversSettled(par, run, events, k, i, a);
    RunDeliversSettled(par, run, events, k, i, b);
    var d := run[k].nodes[i].log.delivered;
    if a < |d| && b < |d| && d[a].value.id == d[b].value.id {
      RunOneSlotPerValue(par, run, events, k, k, a + 1, b + 1, d[a].value);
    }
  }

  // ---------------------------------------------------------------- what every run keeps

  /** The order a node keeps: the window is respected and values wait only while it is full; values
      get their first slots in submission order, paired with their clients; status and proposer agree;
      and the decides announced so far are the first ones delivered, in order. */
  ghost predicate Orderly(ctx: Ctx, c: CaptainState)
  {
    && |c.proposers| <= ctx.window && (c.waiting != [] ==> |c.proposers| == ctx.window)
    && |c.waiting| == |c.clients| && c.started + Pairs(c.waiting, c.clients) == c.submitted
    && (forall s :: s in c.proposers ==>
          (c.proposers[s].status in {Init, PhaseI} <==> c.proposers[s].proposer.currValue.None?))
    && c.lastSlot == |c.announced| <= c.log.withoutHole == |c.log.delivered|
    && (forall m :: 0 <= m < |c.announced| ==> c.announced[m] == Announcement(m + 1, c.log.delivered[m].value.id))
  }

  lemma CaptainIsOrderly(ctx: Ctx, c: CaptainState)
    requires CaptainOk(ctx, c)
    ensures Orderly(ctx, c)
  {
    forall s | s in c.proposers
      ensures c.proposers[s].status in {Init, PhaseI} <==> c.proposers[s].proposer.currValue.None?
    {
      assert RunsPlaced(c.proposers[s], c.placed, s);
    }
    forall m | 0 <= m < |c.announced| ensures c.announced[m] == Announcement(m + 1, c.log.delivered[m].value.id) {
      DeliveredIsStored(c.log, m);
    }
  }

  /** Every node is orderly at every moment of every run. */
  lemma RunNodesOrderly(par: Params, run: seq<System>, events: seq<Event>, k: nat, i: nat)
    requires par.Valid() && Cluster.IsRun(par, run, events) && k < |run| && i < par.cfg.n
    ensures |run[k].nodes| == par.cfg.n && Orderly(par.At(i), run[k].nodes[i])
  {
    RunLocal(par, run, events, k);
    assert CaptainOk(par.At(i), run[k].nodes[i]);
    CaptainIsOrderly(par.At(i), run[k].nodes[i]);
  }

  /** Every acknowledgement a proposer has stored answers its current ballot, which is one that only this
      node can generate: the test for stale acknowledgements lets no other ballot through. */
  ghost predicate CountsCurrent(me: nat, p: ProposerState)
  {
    && Ballots.Own(me, p.currBallot)
    && (forall j :: j in p.promises ==> p.promises[j].ballot == p.currBallot)
    && (forall j :: j in p.accepts ==> p.accepts[j].ballot == p.currBallot)
  }

  lemma RunCountsCurrent(par: Params, run: seq<System>, events: seq<Event>, k: nat, i: nat, s: nat)
    requires par.Valid() && Cluster.IsRun(par, run, events) && k < |run| && i < par.cfg.n
    ensures |run[k].nodes| == par.cfg.n
    ensures s in run[k].nodes[i].proposers ==> CountsCurrent(i, run[k].nodes[i].proposers[s].proposer)
  {
    RunLocal(par, run, events, k);
    var st := View(run[k], s);
    assert Coherent(par.cfg, s, st);
    assert NodeOk(par.cfg, s, st, i);
    if s in run[k].nodes[i].proposers {
      var p := run[k].nodes[i].proposers[s].proposer;
      assert ProposerOk(s, st, i, p);
      forall j | j in p.promises ensures p.promises[j].ballot == p.currBallot { assert StoredPromise(s, st, i, p, j); }
      forall j | j in p.accepts ensures p.accepts[j].ballot == p.currBallot { assert StoredAccept(s, st, i, p, j); }
    }
  }

  /** No two values ever get the same id, and the id names the node that gave it. */
  lemma RunIdsUnique(par: Params, run: seq<System>, events: seq<Event>, k: nat, v: PropValue, w: PropValue)
    requires par.Valid() && Cluster.IsRun(par, run, events) && k < |run|
    requires v in run[k].issued && w in run[k].issued
    ensures v.id == w.id ==> v == w
    ensures v.id % Ballots.STEP < par.cfg.n
  {
    RunLocal(par, run, events, k);
  }
}
