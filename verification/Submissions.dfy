/** What holds of submissions if no COMMIT is delivered twice: at one node a value has at most one slot
    that it has not lost. */
module Submissions {
  import opened Types
  import opened Proposers
  import opened SlotPaxos
  import opened ChosenLog
  import opened Replica
  import opened ReplicaSafety
  import opened Cluster
  import opened ClusterLocal
  import Quorum

  ghost predicate DistinctIds(s: seq<Submission>)
  {
    forall k, l {:trigger s[k].value, s[l].value} :: 0 <= k < l < |s| ==> s[k].value.id != s[l].value.id
  }

  /** The value `id` has lost every slot it was placed in. */
  ghost predicate AllLost(placed: map<nat, PropValue>, lost: set<nat>, id: nat)
  {
    forall t :: t in placed && placed[t].id == id ==> t in lost
  }

  /** The value placed at `t` has lost every other slot it was placed in. */
  ghost predicate OthersLost(placed: map<nat, PropValue>, lost: set<nat>, t: nat)
    requires t in placed
  {
    forall s :: s in placed && s != t && placed[s].id == placed[t].id ==> s in lost
  }

  /** Of all the slots a value was placed in at most one is not lost. */
  ghost predicate OneHome(placed: map<nat, PropValue>, lost: set<nat>)
  {
    forall t :: t in placed && t !in lost ==> OthersLost(placed, lost, t)
  }

  ghost predicate Homed(c: CaptainState)
  {
    DistinctIds(c.submitted) ==> OneHome(c.placed, c.lost)
  }

  // ---------------------------------------------------------------- one node

  lemma StillDistinct(s: seq<Submission>, s': seq<Submission>)
    requires s <= s' && DistinctIds(s')
    ensures DistinctIds(s)
  {
    forall k, l | 0 <= k < l < |s| ensures s[k].value.id != s[l].value.id {
      assert s'[k].value == s[k].value && s'[l].value == s[l].value;
    }
  }

  lemma LoseHome(placed: map<nat, PropValue>, lost: set<nat>, slot: nat)
    requires OneHome(placed, lost) && slot in placed && slot !in lost
    ensures OneHome(placed, lost + {slot}) && AllLost(placed, lost + {slot}, placed[slot].id)
  {
    assert OthersLost(placed, lost, slot);
    forall t | t in placed && t !in lost + {slot} ensures OthersLost(placed, lost + {slot}, t) {
      assert OthersLost(placed, lost, t);
    }
  }

  lemma NewHome(placed: map<nat, PropValue>, lost: set<nat>, slot: nat, value: PropValue)
    requires OneHome(placed, lost) && slot !in placed && AllLost(placed, lost, value.id)
    ensures OneHome(placed[slot := value], lost)
  {
    var placed' := placed[slot := value];
    forall t | t in placed' && t !in lost ensures OthersLost(placed', lost, t) {
      if t != slot { assert OthersLost(placed, lost, t); }
    }
  }

  /** What was started is not what waits, nor what has not been submitted yet. */
  lemma NotPlacedYet(placed: map<nat, PropValue>, lost: set<nat>, started: seq<Submission>, submitted: seq<Submission>,
                     k: nat)
    requires forall t :: t in placed ==> SubmittedValue(started, placed[t])
    requires started <= submitted && DistinctIds(submitted) && |started| <= k < |submitted|
    ensures AllLost(placed, lost, submitted[k].value.id)
  {
    forall t | t in placed ensures placed[t].id != submitted[k].value.id {
      var i :| 0 <= i < |started| && started[i].value == placed[t];
      assert submitted[i].value == started[i].value;
    }
  }

  /** The first value in line gets a slot. */
  lemma FirstHome(ctx: Ctx, c: CaptainState, slot: nat)
    requires PlacesOk(c) && QueueOk(ctx, c) && OneHome(c.placed, c.lost) && DistinctIds(c.submitted)
    requires c.waiting != [] && slot > c.maxSlot
    ensures OneHome(c.placed[slot := c.waiting[0]], c.lost)
  {
    assert c.submitted[|c.started|] == Pairs(c.waiting, c.clients)[0];
    NotPlacedYet(c.placed, c.lost, c.started, c.submitted, |c.started|);
    NewHome(c.placed, c.lost, slot, c.waiting[0]);
  }

  /** A value that was not submitted before gets a slot. */
  lemma FreshHome(ctx: Ctx, c: CaptainState, slot: nat, value: PropValue, client: string)
    requires PlacesOk(c) && OneHome(c.placed, c.lost) && c.started == c.submitted && slot > c.maxSlot
    requires DistinctIds(c.submitted + [Submission(value, client)])
    ensures OneHome(c.placed[slot := value], c.lost)
  {
    var submitted := c.submitted + [Submission(value, client)];
    assert submitted[|c.submitted|].value == value;
    NotPlacedYet(c.placed, c.lost, c.started, submitted, |c.submitted|);
    NewHome(c.placed, c.lost, slot, value);
  }

  /** With room for another proposer nothing waits. */
  lemma RoomMeansStarted(ctx: Ctx, c: CaptainState)
    requires QueueOk(ctx, c) && |c.proposers| < ctx.window
    ensures c.waiting == [] && c.started == c.submitted
  {
    assert Pairs(c.waiting, c.clients) == [];
  }

  /** Everything but CHOOSE leaves placements alone. */
  lemma OthersPlaceNothing(ctx: Ctx, c: CaptainState, m: Msg, asked: set<nat>, name: string)
    requires !m.Accepted?
    ensures SamePlaces(c, HandleMsg(ctx, c, m, asked, name).state)
  {
    match m
    case Promise(_, _, _, _, _, _) => PromisePlacesNothing(ctx, c, m, asked);
    case Accept(_, _, _, _, _) => AcceptPlacesNothing(ctx, c, m);
    case _ =>
  }

  lemma PromisePlacesNothing(ctx: Ctx, c: CaptainState, m: Msg, asked: set<nat>)
    requires m.Promise?
    ensures SamePlaces(c, OnPromiseMsg(ctx, c, m, asked).state)
  {
  }

  lemma AcceptPlacesNothing(ctx: Ctx, c: CaptainState, m: Msg)
    requires m.Accept?
    ensures SamePlaces(c, OnAcceptMsg(ctx, c, m).state)
  {
  }

  ghost predicate SamePlaces(c: CaptainState, c': CaptainState)
  {
    c'.placed == c.placed && c'.lost == c.lost && c'.submitted == c.submitted
  }

  lemma OwnChosenPlaces(ctx: Ctx, c: CaptainState, slot: nat, asked: set<nat>)
    requires |c.waiting| == |c.clients|
    ensures var c' := OnOwnChosen(ctx, c, slot, asked).state;
      && c'.placed == (if c.waiting == [] then c.placed else c.placed[c.maxSlot + 1 := c.waiting[0]])
      && c'.lost == c.lost && c'.submitted == c.submitted
  {
  }

  /** The slot went to this node's own value; the next one in line starts. */
  lemma WonHomed(ctx: Ctx, c: CaptainState, slot: nat, asked: set<nat>)
    requires PlacesOk(c) && QueueOk(ctx, c) && Homed(c)
    ensures Homed(OnOwnChosen(ctx, c, slot, asked).state)
  {
    OwnChosenPlaces(ctx, c, slot, asked);
    if c.waiting != [] && DistinctIds(c.submitted) { FirstHome(ctx, c, c.maxSlot + 1); }
  }

  /** The slot went to another value; this node's own gets a new one. */
  lemma MovedHome(placed: map<nat, PropValue>, lost: set<nat>, slot: nat, slot': nat)
    requires OneHome(placed, lost) && slot in placed && slot !in lost && slot' !in placed
    ensures OneHome(placed[slot' := placed[slot]], lost + {slot})
  {
    LoseHome(placed, lost, slot);
    NewHome(placed, lost + {slot}, slot', placed[slot]);
  }

  lemma LostPlaces(ctx: Ctx, c: CaptainState, slot: nat, value: PropValue, name: string, tryTime: nat, asked: set<nat>)
    ensures var c' := BeginSlot(ctx, FreedLost(c, slot), c.maxSlot + 1, value, name, tryTime, asked).state;
      c'.placed == c.placed[c.maxSlot + 1 := value] && c'.lost == c.lost + {slot} && c'.submitted == c.submitted
  {
  }

  lemma LostHomed(ctx: Ctx, c: CaptainState, slot: nat, name: string, tryTime: nat, asked: set<nat>)
    requires PlacesOk(c) && Homed(c) && slot in c.proposers
    ensures Homed(BeginSlot(ctx, FreedLost(c, slot), c.maxSlot + 1, c.proposers[slot].proposer.initValue,
      name, tryTime, asked).state)
  {
    assert RunsPlaced(c.proposers[slot], c.placed, slot);
    LostPlaces(ctx, c, slot, c.placed[slot], name, tryTime, asked);
    if DistinctIds(c.submitted) { MovedHome(c.placed, c.lost, slot, c.maxSlot + 1); }
  }

  lemma ChooseHomed(ctx: Ctx, c: CaptainState, slot: nat, p: ProposerState, tryTime: nat, asked: set<nat>, name: string)
    requires PlacesOk(c) && QueueOk(ctx, c) && Homed(c)
    requires slot in c.proposers && p.initValue == c.proposers[slot].proposer.initValue
    ensures Homed(OnChoose(ctx, c, slot, p, tryTime, asked, name).state)
  {
    if p.currValue.Some? {
      if p.currValue.value.id == p.initValue.id {
        WonHomed(ctx, Learned(c, slot, p.currValue.value), slot, asked);
      } else {
        LostHomed(ctx, Learned(c, slot, p.currValue.value), slot, name, tryTime + 1, asked);
      }
    }
  }

  lemma AcceptedHomed(ctx: Ctx, c: CaptainState, m: Msg, asked: set<nat>, name: string)
    requires PlacesOk(c) && QueueOk(ctx, c) && Homed(c) && m.Accepted?
    ensures Homed(OnAcceptedMsg(ctx, c, m, asked, name).state)
  {
    if m.slot in c.proposers {
      var info := c.proposers[m.slot];
      var p := OnAccepted(info.proposer, m.src, AcceptAck(m.ballot, m.reply), Quorum.Size(ctx.cfg.n)).0;
      ChooseHomed(ctx, c, m.slot, p, info.tryTime, asked, name);
    }
  }

  lemma HandleMsgHomed(ctx: Ctx, c: CaptainState, m: Msg, asked: set<nat>, name: string)
    requires PlacesOk(c) && QueueOk(ctx, c) && Homed(c)
    ensures Homed(HandleMsg(ctx, c, m, asked, name).state)
  {
    if m.Accepted? {
      AcceptedHomed(ctx, c, m, asked, name);
    } else {
      OthersPlaceNothing(ctx, c, m, asked, name);
    }
  }

  lemma CommitHomed(ctx: Ctx, c: CaptainState, value: PropValue, client: string, asked: set<nat>)
    requires PlacesOk(c) && QueueOk(ctx, c) && Homed(c)
    ensures Homed(Commit(ctx, c, value, client, asked).state)
  {
    var c' := Commit(ctx, c, value, client, asked).state;
    assert c'.submitted == c.submitted + [Submission(value, client)] && c'.lost == c.lost;
    if |c.proposers| < ctx.window {
      RoomMeansStarted(ctx, c);
      assert c'.placed == c.placed[c.maxSlot + 1 := value];
    } else {
      assert c'.placed == c.placed;
    }
    if DistinctIds(c'.submitted) {
      StillDistinct(c.submitted, c'.submitted);
      if |c.proposers| < ctx.window { FreshHome(ctx, c, c.maxSlot + 1, value, client); }
    }
  }

  lemma ContendHomed(ctx: Ctx, c: CaptainState, slot: nat, value: PropValue, client: string, asked: set<nat>)
    requires PlacesOk(c) && QueueOk(ctx, c) && Homed(c) && slot > c.maxSlot && |c.proposers| < ctx.window
    ensures Homed(Contend(ctx, c, slot, value, client, asked).state)
  {
    var c' := Contend(ctx, c, slot, value, client, asked).state;
    assert c'.lost == c.lost && c'.placed == c.placed[slot := value];
    if DistinctIds(c'.submitted) {
      StillDistinct(c.submitted, c'.submitted);
      RoomMeansStarted(ctx, c);
      FreshHome(ctx, c, slot, value, client);
    }
  }

  // ---------------------------------------------------------------- all nodes, all runs

  lemma DoesHomed(par: Params, sys: System, e: Event)
    requires par.Valid() && |sys.nodes| == par.cfg.n && Cluster.Enabled(par, sys, e)
    requires var i := Actor(par, e);
      PlacesOk(sys.nodes[i]) && QueueOk(par.At(i), sys.nodes[i]) && Homed(sys.nodes[i])
    ensures Homed(Does(par, sys, e).state)
  {
    var ctx, c := par.At(Actor(par, e)), sys.nodes[Actor(par, e)];
    match e
    case Deliver(p, asked, name) => HandleMsgHomed(ctx, c, p.msg, asked, name);
    case ClientCommit(_, data, client, asked) => CommitHomed(ctx, Counted(c), NextValue(c, data), client, asked);
    case DeliverCommit(value, asked) => CommitHomed(ctx, c, value, "", asked);
    case Contends(_, slot, data, client, asked) =>
      ContendHomed(ctx, Counted(c), slot, NextValue(c, data), client, asked);
    case _ =>
  }

  lemma EventHomed(par: Params, sys: System, e: Event, i: nat)
    requires par.Valid() && |sys.nodes| == par.cfg.n && Cluster.Enabled(par, sys, e) && i < par.cfg.n
    requires CaptainOk(par.At(i), sys.nodes[i]) && Homed(sys.nodes[i])
    ensures Homed(Cluster.Apply(par, sys, e).nodes[i])
  {
    if i == Actor(par, e) { DoesHomed(par, sys, e); }
  }

  lemma OneStepHomed(par: Params, run: seq<System>, events: seq<Event>, k: nat, i: nat)
    requires par.Valid() && Cluster.IsRun(par, run, events) && 0 < k < |run| && i < par.cfg.n == |run[k - 1].nodes|
    requires Homed(run[k - 1].nodes[i])
    ensures |run[k].nodes| == par.cfg.n && Homed(run[k].nodes[i])
  {
    RunNode(par, run, events, k - 1, i);
    LastNext(par, run, events, k);
    EventHomed(par, run[k - 1], events[k - 1], i);
  }

  lemma {:induction false} RunHomed(par: Params, run: seq<System>, events: seq<Event>, k: nat, i: nat)
    requires par.Valid() && Cluster.IsRun(par, run, events) && k < |run| && i < par.cfg.n
    ensures |run[k].nodes| == par.cfg.n && Homed(run[k].nodes[i])
  {
    if k > 0 {
      RunHomed(par, run, events, k - 1, i);
      OneStepHomed(par, run, events, k, i);
    }
  }

  // ---------------------------------------------------------------- no COMMIT is delivered twice

  /** Of the first `k` events no two deliver the same COMMIT. */
  ghost predicate CommitsOnce(events: seq<Event>, k: nat)
  {
    forall a, b :: 0 <= a < b < k && b < |events| && events[a].DeliverCommit? && events[b].DeliverCommit? ==>
      events[a].value != events[b].value
  }

  /** The COMMIT that an event delivers. */
  ghost function Delivered(e: Event): set<PropValue>
  {
    if e.DeliverCommit? then {e.value} else {}
  }

  /** The COMMITs that the first `k` events deliver. */
  ghost function Arrived(events: seq<Event>, k: nat): set<PropValue>
    requires k <= |events|
  {
    if k == 0 then {} else Arrived(events, k - 1) + Delivered(events[k - 1])
  }

  /** What the next event delivers was not delivered before. */
  lemma NotYetArrived(events: seq<Event>, k: nat)
    requires k < |events| && CommitsOnce(events, k + 1)
    ensures Arrived(events, k) !! Delivered(events[k])
  {
    if events[k].DeliverCommit? { NotAmong(events, k, k); }
  }

  lemma {:induction false} NotAmong(events: seq<Event>, j: nat, k: nat)
    requires j <= k < |events| && events[k].DeliverCommit? && CommitsOnce(events, k + 1)
    ensures events[k].value !in Arrived(events, j)
  {
    if j > 0 { NotAmong(events, j - 1, k); }
  }

  ghost predicate AllOnce(sys: System)
  {
    forall i: nat :: i < |sys.nodes| ==> DistinctIds(sys.nodes[i].submitted)
  }

  /** What the master has of the values sent to it has arrived. */
  ghost predicate Accounted(par: Params, sys: System, arrived: set<PropValue>)
  {
    par.cfg.master < |sys.nodes| ==>
      forall v :: v in sys.commits && Submitted(sys.nodes[par.cfg.master].submitted, v.id) ==> v in arrived
  }

  ghost predicate Once(par: Params, sys: System, arrived: set<PropValue>)
  {
    AllOnce(sys) && Accounted(par, sys, arrived)
  }

  lemma OneMoreDistinct(s: seq<Submission>, value: PropValue, client: string)
    requires DistinctIds(s) && !Submitted(s, value.id)
    ensures DistinctIds(s + [Submission(value, client)])
  {
  }

  /** No two values that were sent have one id. */
  ghost predicate SentOnce(sys: System)
  {
    forall v, w :: v in sys.commits && w in sys.commits && v.id == w.id ==> v == w
  }

  /** A value that is not submitted yet is taken by node `i`. */
  lemma TakenOnce(sys: System, sys': System, i: nat, value: PropValue, client: string, issues: set<PropValue>)
    requires AllOnce(sys) && Submitting(sys, sys', i, [Submission(value, client)], issues)
    requires !Submitted(sys.nodes[i].submitted, value.id)
    ensures AllOnce(sys')
  {
    OneMoreDistinct(sys.nodes[i].submitted, value, client);
  }

  /** The master takes a value that was sent to it and has not arrived before. */
  lemma ArrivesOnce(par: Params, sys: System, sys': System, value: PropValue, arrived: set<PropValue>)
    requires Once(par, sys, arrived) && SentOnce(sys) && value in sys.commits && value !in arrived
    requires Submitting(sys, sys', par.cfg.master, [Submission(value, "")], {}) && sys'.commits == sys.commits
    ensures Once(par, sys', arrived + {value})
  {
    var m := par.cfg.master;
    TakenOnce(sys, sys', m, value, "", {});
    forall v | v in sys'.commits && Submitted(sys'.nodes[m].submitted, v.id) ensures v in arrived + {value} {
      SubmittedOneMore(sys.nodes[m].submitted, value, "", v.id);
    }
  }

  /** Node `i` takes a value of its own that is nowhere yet. */
  lemma OwnTakenOnce(par: Params, sys: System, sys': System, i: nat, value: PropValue, client: string,
                     arrived: set<PropValue>)
    requires Once(par, sys, arrived) && Unused(sys, value)
    requires Submitting(sys, sys', i, [Submission(value, client)], {value}) && sys'.commits == sys.commits
    ensures Once(par, sys', arrived)
  {
    var m := par.cfg.master;
    TakenOnce(sys, sys', i, value, client, {value});
    forall v | v in sys'.commits && m < |sys.nodes| && Submitted(sys'.nodes[m].submitted, v.id) ensures v in arrived {
      if i == m { SubmittedOneMore(sys.nodes[m].submitted, value, client, v.id); }
    }
  }

  /** Nothing is submitted, and what is sent was not submitted before. */
  lemma QuietOnce(par: Params, sys: System, sys': System, i: nat, issues: set<PropValue>, arrived: set<PropValue>)
    requires Once(par, sys, arrived) && Submitting(sys, sys', i, [], issues)
    requires forall v, j: nat :: v in sys'.commits && v !in sys.commits && j < |sys.nodes| ==>
      !Submitted(sys.nodes[j].submitted, v.id)
    ensures Once(par, sys', arrived)
  {
    assert forall j: nat :: j < |sys.nodes| ==> sys'.nodes[j].submitted == sys.nodes[j].submitted;
  }

  lemma OwnOnce(par: Params, sys: System, sys': System, e: Event, more: seq<Submission>, arrived: set<PropValue>)
    requires (e.ClientCommit? || e.Contends?) && e.i < |sys.nodes| && Once(par, sys, arrived)
    requires var value := NextValue(sys.nodes[e.i], e.data);
      Unused(sys, value) && Submitting(sys, sys', e.i, more, {value})
    requires var value := NextValue(sys.nodes[e.i], e.data);
      if e.Contends? || e.i == par.cfg.master then more == [Submission(value, e.client)] && sys'.commits == sys.commits
      else more == [] && sys'.commits == sys.commits + {value}
    ensures Once(par, sys', arrived)
  {
    var value := NextValue(sys.nodes[e.i], e.data);
    if e.Contends? || e.i == par.cfg.master {
      OwnTakenOnce(par, sys, sys', e.i, value, e.client, arrived);
    } else {
      QuietOnce(par, sys, sys', e.i, {value}, arrived);
    }
  }

  lemma CommitOnce(par: Params, sys: System, sys': System, e: Event, more: seq<Submission>, arrived: set<PropValue>)
    requires e.DeliverCommit? && e.value in sys.commits && e.value !in arrived && Once(par, sys, arrived)
    requires SentOnce(sys)
    requires Submitting(sys, sys', par.cfg.master, more, {}) && sys'.commits == sys.commits
    requires more == [] || more == [Submission(e.value, "")]
    ensures Once(par, sys', arrived + {e.value})
  {
    if more == [] {
      QuietOnce(par, sys, sys', par.cfg.master, {}, arrived);
    } else {
      ArrivesOnce(par, sys, sys', e.value, arrived);
    }
  }

  lemma EventOnce(par: Params, sys: System, e: Event, arrived: set<PropValue>)
    requires par.Valid() && |sys.nodes| == par.cfg.n && Cluster.Enabled(par, sys, e)
    requires IdsOk(sys) && OwnersOk(sys, par.cfg.master) && Once(par, sys, arrived) && arrived !! Delivered(e)
    ensures Once(par, Cluster.Apply(par, sys, e), arrived + Delivered(e))
  {
    var sys' := Cluster.Apply(par, sys, e);
    EventSubmits(par, sys, e);
    if e.ClientCommit? || e.Contends? {
      NewIdIsFresh(sys, par.cfg.master, e.i, e.data);
      OwnOnce(par, sys, sys', e, Taken(par, sys, e), arrived);
    } else if e.DeliverCommit? {
      CommitOnce(par, sys, sys', e, Taken(par, sys, e), arrived);
    } else {
      QuietOnce(par, sys, sys', Actor(par, e), {}, arrived);
    }
  }

  lemma NextOnce(par: Params, sys: System, e: Event, sys': System, arrived: set<PropValue>)
    requires par.Valid() && Cluster.Next(par, sys, e, sys') && arrived !! Delivered(e)
    requires IdsOk(sys) && OwnersOk(sys, par.cfg.master) && Once(par, sys, arrived)
    ensures Once(par, sys', arrived + Delivered(e))
  {
    EventOnce(par, sys, e, arrived);
  }

  lemma StartOnce(par: Params)
    requires par.Valid()
    ensures Once(par, Cluster.Start(par), {})
  {
  }

  lemma OneStepOnce(par: Params, run: seq<System>, events: seq<Event>, k: nat, arrived: set<PropValue>)
    requires par.Valid() && Cluster.IsRun(par, run, events) && 0 < k < |run|
    requires Once(par, run[k - 1], arrived) && arrived !! Delivered(events[k - 1])
    ensures Once(par, run[k], arrived + Delivered(events[k - 1]))
  {
    RunIds(par, run, events, k - 1);
    LastNext(par, run, events, k);
    NextOnce(par, run[k - 1], events[k - 1], run[k], arrived);
  }

  /** If no COMMIT is delivered twice, no value is submitted twice anywhere. */
  lemma {:induction false} RunSubmitsOnce(par: Params, run: seq<System>, events: seq<Event>, k: nat)
    requires par.Valid() && Cluster.IsRun(par, run, events) && k < |run| && CommitsOnce(events, k)
    ensures Once(par, run[k], Arrived(events, k))
  {
    if k == 0 {
      StartOnce(par);
    } else {
      RunSubmitsOnce(par, run, events, k - 1);
      NotYetArrived(events, k - 1);
      OneStepOnce(par, run, events, k, Arrived(events, k - 1));
    }
  }
}
