/** What every run of the cluster keeps wherever the master starts in phase II: every slot is coherent,
    every node keeps its own invariant, and value ids are never shared. */
module ClusterLocal {
  import opened Types
  import opened Ballots
  import opened Proposers
  import opened SlotPaxos
  import opened ChosenLog
  import opened Replica
  import opened ReplicaSafety
  import opened Refinement
  import opened Cluster
  import SlotSafety
  import Quorum

  ghost predicate Submits(c: CaptainState, issued: set<PropValue>)
  {
    forall k :: 0 <= k < |c.submitted| ==> c.submitted[k].value in issued
  }

  /** Ids are given out by node and counter, so no two values share one. */
  ghost predicate IdsOk(sys: System)
  {
    && (forall v, w :: v in sys.issued && w in sys.issued && v.id == w.id ==> v == w)
    && (forall v :: v in sys.issued ==> v.id % STEP < |sys.nodes| && v.id <= sys.nodes[v.id % STEP].valueId)
    && (forall i: nat :: i < |sys.nodes| ==> sys.nodes[i].valueId % STEP == i && Submits(sys.nodes[i], sys.issued))
  }

  /** No value is submitted at two nodes; one that was sent to the master, at no other node. */
  ghost predicate OwnersOk(sys: System, master: nat)
  {
    && (forall i: nat, j: nat, id ::
          i < |sys.nodes| && j < |sys.nodes| && i != j && Submitted(sys.nodes[i].submitted, id) ==>
          !Submitted(sys.nodes[j].submitted, id))
    && (forall v :: v in sys.commits ==> v in sys.issued)
    && (forall v, i: nat :: v in sys.commits && i < |sys.nodes| && i != master ==>
          !Submitted(sys.nodes[i].submitted, v.id))
  }

  ghost predicate NodesOk(par: Params, sys: System)
    requires |sys.nodes| == |par.windows|
  {
    forall i: nat :: i < |sys.nodes| ==> CaptainOk(par.At(i), sys.nodes[i])
  }

  ghost predicate SlotsCoherent(par: Params, sys: System)
  {
    forall s: nat :: Coherent(par.cfg, s, View(sys, s))
  }

  /** Packets speak of slots from 1 on. */
  ghost predicate SentFrom1(sent: set<Packet>)
  {
    forall p :: p in sent ==> LearnsFrom1(p.msg)
  }

  ghost predicate LocalOk(par: Params, sys: System)
  {
    && |sys.nodes| == par.cfg.n == |par.windows|
    && SlotsCoherent(par, sys)
    && NodesOk(par, sys)
    && SentFrom1(sys.sent)
    && IdsOk(sys)
    && OwnersOk(sys, par.cfg.master)
  }

  // ---------------------------------------------------------------- the start

  lemma StartView(par: Params, s: nat)
    requires par.Valid()
    ensures View(Cluster.Start(par), s) == SlotPaxos.Start(par.cfg, s)
  {
    var sys := Cluster.Start(par);
    forall i: nat | i < par.cfg.n ensures View(sys, s).nodes[i] == NodeSlot(par.cfg.FirstAcceptor(s), Idle) {
      InitialAt(par.At(i), s);
    }
    assert View(sys, s).nodes == SlotPaxos.Start(par.cfg, s).nodes;
    assert View(sys, s).msgs == {};
  }

  lemma StartSlots(par: Params)
    requires par.Valid()
    ensures SlotsCoherent(par, Cluster.Start(par))
  {
    forall s: nat ensures Coherent(par.cfg, s, View(Cluster.Start(par), s)) {
      StartView(par, s);
      SlotSafety.StartInv(par.cfg, s, STEP);
    }
  }

  lemma StartNodes(par: Params)
    requires par.Valid()
    ensures NodesOk(par, Cluster.Start(par))
  {
    forall i: nat | i < par.cfg.n ensures CaptainOk(par.At(i), Cluster.Start(par).nodes[i]) { InitialOk(par.At(i)); }
  }

  lemma StartIds(par: Params)
    requires par.Valid()
    ensures var sys := Cluster.Start(par); IdsOk(sys) && OwnersOk(sys, par.cfg.master) && SentFrom1(sys.sent)
  {
  }

  lemma StartLocal(par: Params)
    requires par.Valid()
    ensures LocalOk(par, Cluster.Start(par))
  {
    StartIds(par);
    StartSlots(par);
    StartNodes(par);
  }

  // ---------------------------------------------------------------- slots

  /** What it looks like in slot `s` that node `i` has done `h`. */
  lemma ViewAfter(sys: System, sys': System, i: nat, h: Handled, s: nat)
    requires i < |sys.nodes| && sys'.nodes == sys.nodes[i := h.state] && sys'.sent == sys.sent + h.out
    ensures View(sys', s) ==
      SlotState(View(sys, s).nodes[i := NodeAt(h.state, s)], View(sys, s).msgs + SlotPackets(h.out, s))
  {
    assert View(sys', s).nodes == View(sys, s).nodes[i := NodeAt(h.state, s)];
    assert View(sys', s).msgs == View(sys, s).msgs + SlotPackets(h.out, s);
  }

  /** A step of the slot protocol at node `i` is a step of the view of the slot. */
  lemma ViewSteps(par: Params, sys: System, sys': System, i: nat, h: Handled, s: nat, step: SlotStep)
    requires |sys.nodes| == par.cfg.n && i < par.cfg.n && i < |par.windows|
    requires sys'.nodes == sys.nodes[i := h.state] && sys'.sent == sys.sent + h.out
    requires Takes(par.At(i), sys.nodes[i], h, s, step)
    ensures View(sys', s) == SlotPaxos.Apply(par.cfg, s, View(sys, s), i, step)
  {
    ViewAfter(sys, sys', i, h, s);
    assert View(sys, s).nodes[i] == NodeAt(sys.nodes[i], s);
  }

  lemma ViewStutters(sys: System, sys': System, i: nat, h: Handled, s: nat)
    requires i < |sys.nodes| && sys'.nodes == sys.nodes[i := h.state] && sys'.sent == sys.sent + h.out
    requires Stutters(sys.nodes[i], h, s)
    ensures View(sys', s) == View(sys, s)
  {
    ViewAfter(sys, sys', i, h, s);
    assert View(sys, s).nodes[i := NodeAt(sys.nodes[i], s)] == View(sys, s).nodes;
  }

  ghost function Received(e: Event): Option<Msg>
  {
    if e.Deliver? then Some(e.p.msg) else None
  }

  ghost function AskedBy(e: Event): set<nat>
  {
    match e
    case Deliver(_, asked, _) => asked
    case ClientCommit(_, _, _, asked) => asked
    case DeliverCommit(_, asked) => asked
    case Contends(_, _, _, _, asked) => asked
    case _ => {}
  }

  /** A legal step is one the slot protocol allows. */
  lemma LegalIsEnabled(par: Params, sys: System, e: Event, s: nat, step: SlotStep)
    requires par.Valid() && |sys.nodes| == par.cfg.n && Cluster.Enabled(par, sys, e)
    requires Legal(par.At(Actor(par, e)), sys.nodes[Actor(par, e)], s, step, Received(e), AskedBy(e))
    ensures SlotPaxos.Enabled(par.cfg, s, View(sys, s), Actor(par, e), step)
  {
    assert View(sys, s).nodes[Actor(par, e)] == NodeAt(sys.nodes[Actor(par, e)], s);
    if e.Deliver? { assert Packet(e.p.dst, e.p.msg) == e.p; }
  }

  lemma CountedFollows(ctx: Ctx, c: CaptainState, h: Handled, s: nat, asked: set<nat>)
    requires Follows(ctx, Counted(c), h, s, None, asked)
    ensures Follows(ctx, c, h, s, None, asked)
  {
    assert NodeAt(Counted(c), s) == NodeAt(c, s);
    if !Stutters(c, h, s) {
      var step :| Legal(ctx, Counted(c), s, step, None, asked) && Takes(ctx, Counted(c), h, s, step);
      assert Legal(ctx, c, s, step, None, asked) && Takes(ctx, c, h, s, step);
    }
  }

  lemma SaysFollows(ctx: Ctx, c: CaptainState, h: Handled, s: nat, m: Option<Msg>, asked: set<nat>)
    requires h.state == c.(log := h.state.log, work := h.state.work, valueId := h.state.valueId)
    requires forall p :: p in h.out ==> p.msg.Decide? || p.msg.LogData?
    ensures Follows(ctx, c, h, s, m, asked)
  {
    assert SlotPackets(h.out, s) == {};
    assert Stutters(c, h, s);
  }

  /** What the node does is in every slot nothing or one legal step. */
  lemma DoesFollows(par: Params, sys: System, e: Event, s: nat)
    requires par.Valid() && |sys.nodes| == par.cfg.n && Cluster.Enabled(par, sys, e)
    requires CaptainOk(par.At(Actor(par, e)), sys.nodes[Actor(par, e)])
    ensures Follows(par.At(Actor(par, e)), sys.nodes[Actor(par, e)], Does(par, sys, e), s, Received(e), AskedBy(e))
  {
    var i, h := Actor(par, e), Does(par, sys, e);
    var ctx, c := par.At(i), sys.nodes[i];
    match e
    case Deliver(p, asked, name) => HandleMsgFollows(ctx, c, p.msg, asked, name, s);
    case ClientCommit(_, data, client, asked) =>
      if i == par.cfg.master {
        CountedOk(ctx, c);
        CommitFollows(ctx, Counted(c), NextValue(c, data), client, asked, s);
        CountedFollows(ctx, c, h, s, asked);
      } else {
        SaysFollows(ctx, c, h, s, None, asked);
      }
    case DeliverCommit(value, asked) =>
      if c.work { CommitFollows(ctx, c, value, "", asked, s); } else { SaysFollows(ctx, c, h, s, None, asked); }
    case Contends(_, slot, data, client, asked) =>
      CountedOk(ctx, c);
      ContendFollows(ctx, Counted(c), slot, NextValue(c, data), client, asked, s);
      CountedFollows(ctx, c, h, s, asked);
    case _ => SaysFollows(ctx, c, h, s, None, {});
  }

  lemma CountedOk(ctx: Ctx, c: CaptainState)
    requires CaptainOk(ctx, c)
    ensures CaptainOk(ctx, Counted(c))
  {
  }

  lemma SlotStaysCoherent(par: Params, sys: System, e: Event, s: nat)
    requires par.Valid() && |sys.nodes| == par.cfg.n && Cluster.Enabled(par, sys, e)
    requires CaptainOk(par.At(Actor(par, e)), sys.nodes[Actor(par, e)])
    requires Coherent(par.cfg, s, View(sys, s))
    ensures var sys' := Cluster.Apply(par, sys, e);
      Coherent(par.cfg, s, View(sys', s)) && Grows(View(sys, s), View(sys', s))
  {
    var i, h, sys' := Actor(par, e), Does(par, sys, e), Cluster.Apply(par, sys, e);
    DoesFollows(par, sys, e, s);
    if Stutters(sys.nodes[i], h, s) {
      ViewStutters(sys, sys', i, h, s);
    } else {
      var step :| Legal(par.At(i), sys.nodes[i], s, step, Received(e), AskedBy(e))
        && Takes(par.At(i), sys.nodes[i], h, s, step);
      LegalIsEnabled(par, sys, e, s, step);
      ViewSteps(par, sys, sys', i, h, s, step);
      SlotSafety.StepCoherent(par.cfg, s, View(sys, s), i, step);
    }
  }

  // ---------------------------------------------------------------- nodes and packets

  lemma DoesOk(par: Params, sys: System, e: Event)
    requires par.Valid() && |sys.nodes| == par.cfg.n && Cluster.Enabled(par, sys, e) && SentFrom1(sys.sent)
    requires CaptainOk(par.At(Actor(par, e)), sys.nodes[Actor(par, e)])
    ensures CaptainOk(par.At(Actor(par, e)), Does(par, sys, e).state)
  {
    var i := Actor(par, e);
    var ctx, c := par.At(i), sys.nodes[i];
    CountedOk(ctx, c);
    match e
    case Deliver(p, asked, name) => HandleMsgKeeps(ctx, c, p.msg, asked, name);
    case DeliverLog(_, p) => LearnedOk(ctx, c, p.msg.slot, p.msg.value);
    case ClientCommit(_, data, client, asked) =>
      if i == par.cfg.master { CommitKeeps(ctx, Counted(c), NextValue(c, data), client, asked); }
    case DeliverCommit(value, asked) => if c.work { CommitKeeps(ctx, c, value, "", asked); }
    case Contends(_, slot, data, client, asked) =>
      ContendKeeps(ctx, Counted(c), slot, NextValue(c, data), client, asked);
    case _ =>
  }

  lemma KnownFrom1(l: Log, slot: nat)
    requires Ok(l) && Has(l, slot)
    ensures slot >= 1
  {
  }

  lemma StartFrom1(ctx: Ctx, c: CaptainState, value: PropValue, client: string, asked: set<nat>)
    ensures SentFrom1(StartFast(ctx, c, value, client, asked).out)
  {
  }

  lemma ChooseFrom1(ctx: Ctx, c: CaptainState, slot: nat, p: ProposerState, tryTime: nat, asked: set<nat>, name: string)
    ensures SentFrom1(OnChoose(ctx, c, slot, p, tryTime, asked, name).out)
  {
    if p.currValue.Some? {
      var c1 := Freed(Learned(c, slot, p.currValue.value), slot);
      if p.currValue.value.id == p.initValue.id && c.waiting != [] && c.clients != [] {
        StartFrom1(ctx, Dequeued(c1), c1.waiting[0], c1.clients[0], asked);
      }
    }
  }

  lemma AcceptedFrom1(ctx: Ctx, c: CaptainState, m: Msg, asked: set<nat>, name: string)
    requires m.Accepted?
    ensures SentFrom1(OnAcceptedMsg(ctx, c, m, asked, name).out)
  {
    if m.slot in c.proposers {
      var info := c.proposers[m.slot];
      var p := OnAccepted(info.proposer, m.src, AcceptAck(m.ballot, m.reply), Quorum.Size(ctx.cfg.n)).0;
      ChooseFrom1(ctx, c, m.slot, p, info.tryTime, asked, name);
    }
  }

  lemma PromiseFrom1(ctx: Ctx, c: CaptainState, m: Msg, asked: set<nat>)
    requires m.Promise?
    ensures SentFrom1(OnPromiseMsg(ctx, c, m, asked).out)
  {
  }

  lemma AcceptFrom1(ctx: Ctx, c: CaptainState, m: Msg)
    requires m.Accept? && LearnsFrom1(m)
    ensures SentFrom1(OnAcceptMsg(ctx, c, m).out)
  {
  }

  lemma HandleMsgFrom1(ctx: Ctx, c: CaptainState, m: Msg, asked: set<nat>, name: string)
    requires Ok(c.log) && LearnsFrom1(m)
    ensures SentFrom1(HandleMsg(ctx, c, m, asked, name).out)
  {
    match m
    case Promise(_, _, _, _, _, _) => PromiseFrom1(ctx, c, m, asked);
    case Accept(_, _, _, _, _) => AcceptFrom1(ctx, c, m);
    case Accepted(_, _, _, _) => AcceptedFrom1(ctx, c, m, asked, name);
    case Learn(_, slot) => if Has(c.log, slot) { KnownFrom1(c.log, slot); }
    case _ =>
  }

  lemma CommitFrom1(ctx: Ctx, c: CaptainState, value: PropValue, client: string, asked: set<nat>)
    ensures SentFrom1(Commit(ctx, c, value, client, asked).out)
  {
  }

  lemma DoesFrom1(par: Params, sys: System, e: Event)
    requires par.Valid() && |sys.nodes| == par.cfg.n && Cluster.Enabled(par, sys, e) && SentFrom1(sys.sent)
    requires Ok(sys.nodes[Actor(par, e)].log)
    ensures SentFrom1(Does(par, sys, e).out)
  {
    var i := Actor(par, e);
    var ctx, c := par.At(i), sys.nodes[i];
    match e
    case Deliver(p, asked, name) => HandleMsgFrom1(ctx, c, p.msg, asked, name);
    case ServeLog(_, slot) => KnownFrom1(c.log, slot);
    case SendDecide(_, slot, _) => KnownFrom1(c.log, slot);
    case ClientCommit(_, data, client, asked) => CommitFrom1(ctx, Counted(c), NextValue(c, data), client, asked);
    case DeliverCommit(value, asked) => CommitFrom1(ctx, c, value, "", asked);
    case _ =>
  }

  // ---------------------------------------------------------------- what an event leaves alone

  /** The submissions that the event adds at its node. */
  ghost function Taken(par: Params, sys: System, e: Event): seq<Submission>
    requires par.Valid() && |sys.nodes| == par.cfg.n && Cluster.Enabled(par, sys, e)
  {
    match e
    case ClientCommit(i, data, client, _) =>
      if i == par.cfg.master then [Submission(NextValue(sys.nodes[i], data), client)] else []
    case DeliverCommit(value, _) => if sys.nodes[par.cfg.master].work then [Submission(value, "")] else []
    case Contends(i, _, data, client, _) => [Submission(NextValue(sys.nodes[i], data), client)]
    case _ => []
  }

  /** `more` is submitted, and no record of a slot is lost. */
  ghost predicate Leaves(c: CaptainState, c': CaptainState, more: seq<Submission>)
  {
    c'.submitted == c.submitted + more && c.fast <= c'.fast && c.placed.Keys <= c'.placed.Keys
  }

  ghost predicate LeavesId(c: CaptainState, c': CaptainState, more: seq<Submission>)
  {
    Leaves(c, c', more) && c'.valueId == c.valueId
  }

  lemma OwnChosenLeaves(ctx: Ctx, c: CaptainState, slot: nat, asked: set<nat>)
    ensures LeavesId(c, OnOwnChosen(ctx, c, slot, asked).state, [])
  {
  }

  lemma ChooseLeaves(ctx: Ctx, c: CaptainState, slot: nat, p: ProposerState, tryTime: nat, asked: set<nat>,
                     name: string)
    ensures LeavesId(c, OnChoose(ctx, c, slot, p, tryTime, asked, name).state, [])
  {
    if p.currValue.Some? { OwnChosenLeaves(ctx, Learned(c, slot, p.currValue.value), slot, asked); }
  }

  lemma AcceptedLeaves(ctx: Ctx, c: CaptainState, m: Msg, asked: set<nat>, name: string)
    requires m.Accepted?
    ensures LeavesId(c, OnAcceptedMsg(ctx, c, m, asked, name).state, [])
  {
    if m.slot in c.proposers {
      var info := c.proposers[m.slot];
      var p := OnAccepted(info.proposer, m.src, AcceptAck(m.ballot, m.reply), Quorum.Size(ctx.cfg.n)).0;
      ChooseLeaves(ctx, c, m.slot, p, info.tryTime, asked, name);
    }
  }

  lemma PromiseLeaves(ctx: Ctx, c: CaptainState, m: Msg, asked: set<nat>)
    requires m.Promise?
    ensures LeavesId(c, OnPromiseMsg(ctx, c, m, asked).state, [])
  {
  }

  lemma AcceptLeaves(ctx: Ctx, c: CaptainState, m: Msg)
    requires m.Accept?
    ensures LeavesId(c, OnAcceptMsg(ctx, c, m).state, [])
  {
  }

  lemma HandleMsgLeaves(ctx: Ctx, c: CaptainState, m: Msg, asked: set<nat>, name: string)
    ensures LeavesId(c, HandleMsg(ctx, c, m, asked, name).state, [])
  {
    match m
    case Accepted(_, _, _, _) => AcceptedLeaves(ctx, c, m, asked, name);
    case Promise(_, _, _, _, _, _) => PromiseLeaves(ctx, c, m, asked);
    case Accept(_, _, _, _, _) => AcceptLeaves(ctx, c, m);
    case _ =>
  }

  lemma CommitLeaves(ctx: Ctx, c: CaptainState, value: PropValue, client: string, asked: set<nat>)
    ensures LeavesId(c, Commit(ctx, c, value, client, asked).state, [Submission(value, client)])
  {
  }

  lemma ContendLeaves(ctx: Ctx, c: CaptainState, slot: nat, value: PropValue, client: string, asked: set<nat>)
    ensures LeavesId(c, Contend(ctx, c, slot, value, client, asked).state, [Submission(value, client)])
  {
  }

  lemma DoesLeaves(par: Params, sys: System, e: Event)
    requires par.Valid() && |sys.nodes| == par.cfg.n && Cluster.Enabled(par, sys, e)
    ensures var c, c' := sys.nodes[Actor(par, e)], Does(par, sys, e).state;
      && Leaves(c, c', Taken(par, sys, e))
      && c'.valueId == c.valueId + (if e.ClientCommit? || e.Contends? then STEP else 0)
  {
    var i := Actor(par, e);
    var ctx, c := par.At(i), sys.nodes[i];
    match e
    case Deliver(p, asked, name) => HandleMsgLeaves(ctx, c, p.msg, asked, name);
    case ClientCommit(_, data, client, asked) => CommitLeaves(ctx, Counted(c), NextValue(c, data), client, asked);
    case DeliverCommit(value, asked) => CommitLeaves(ctx, c, value, "", asked);
    case Contends(_, slot, data, client, asked) =>
      ContendLeaves(ctx, Counted(c), slot, NextValue(c, data), client, asked);
    case _ =>
  }

  // ---------------------------------------------------------------- ids and owners

  /** The value was submitted nowhere and sent to nobody. */
  ghost predicate Unused(sys: System, value: PropValue)
  {
    && (forall j: nat :: j < |sys.nodes| ==> !Submitted(sys.nodes[j].submitted, value.id))
    && (forall v :: v in sys.commits ==> v.id != value.id)
  }

  lemma NextId(id: nat)
    ensures (id + STEP) % STEP == id % STEP
  {
  }

  /** A new id is above all that the node gave out before, and no other node can give it out. */
  lemma NewIdIsFresh(sys: System, master: nat, i: nat, data: string)
    requires IdsOk(sys) && OwnersOk(sys, master) && i < |sys.nodes|
    ensures var value := NextValue(sys.nodes[i], data);
      value.id % STEP == i && (forall v :: v in sys.issued ==> v.id != value.id) && Unused(sys, value)
  {
    var value := NextValue(sys.nodes[i], data);
    NextId(sys.nodes[i].valueId);
    forall j: nat | j < |sys.nodes| ensures !Submitted(sys.nodes[j].submitted, value.id) {
      assert Submits(sys.nodes[j], sys.issued);
    }
  }

  /** What changes of the submissions: node `i` takes `more`, and gives out `issues`. */
  ghost predicate Submitting(sys: System, sys': System, i: nat, more: seq<Submission>, issues: set<PropValue>)
  {
    && i < |sys.nodes| == |sys'.nodes|
    && (forall j: nat :: j < |sys.nodes| && j != i ==> sys'.nodes[j] == sys.nodes[j])
    && sys'.nodes[i].submitted == sys.nodes[i].submitted + more
    && sys'.issued == sys.issued + issues
  }

  lemma SubmittedOneMore(s: seq<Submission>, value: PropValue, client: string, id: nat)
    requires Submitted(s + [Submission(value, client)], id)
    ensures id == value.id || Submitted(s, id)
  {
    var s' := s + [Submission(value, client)];
    var k :| 0 <= k < |s'| && s'[k].value.id == id;
    if k < |s| { assert s[k].value.id == id; }
  }

  lemma SubmitsMore(c: CaptainState, c': CaptainState, more: seq<Submission>, issued: set<PropValue>,
                    issued': set<PropValue>)
    requires Submits(c, issued) && issued <= issued' && c'.submitted == c.submitted + more
    requires forall k :: 0 <= k < |more| ==> more[k].value in issued'
    ensures Submits(c', issued')
  {
    forall k | 0 <= k < |c'.submitted| ensures c'.submitted[k].value in issued' {
      if k < |c.submitted| { assert c'.submitted[k] == c.submitted[k]; }
    }
  }

  /** Nothing is given out. */
  lemma SameIds(sys: System, sys': System, i: nat, more: seq<Submission>)
    requires IdsOk(sys) && Submitting(sys, sys', i, more, {}) && sys'.nodes[i].valueId == sys.nodes[i].valueId
    requires forall k :: 0 <= k < |more| ==> more[k].value in sys.issued
    ensures IdsOk(sys')
  {
    SubmitsMore(sys.nodes[i], sys'.nodes[i], more, sys.issued, sys'.issued);
  }

  /** The next id of node `i` is given to new data. */
  lemma OneMoreId(sys: System, sys': System, i: nat, data: string, more: seq<Submission>)
    requires IdsOk(sys) && i < |sys.nodes| && Submitting(sys, sys', i, more, {NextValue(sys.nodes[i], data)})
    requires sys'.nodes[i].valueId == sys.nodes[i].valueId + STEP
    requires forall k :: 0 <= k < |more| ==> more[k].value == NextValue(sys.nodes[i], data)
    ensures IdsOk(sys')
  {
    var value := NextValue(sys.nodes[i], data);
    NextId(sys.nodes[i].valueId);
    assert value.id % STEP == i && value.id == sys'.nodes[i].valueId;
    forall v | v in sys.issued ensures v.id != value.id && v.id <= sys'.nodes[v.id % STEP].valueId {
      assert v.id <= sys.nodes[v.id % STEP].valueId;
    }
    SubmitsMore(sys.nodes[i], sys'.nodes[i], more, sys.issued, sys'.issued);
    forall j: nat | j < |sys.nodes| && j != i ensures Submits(sys'.nodes[j], sys'.issued) {
      SubmitsMore(sys.nodes[j], sys'.nodes[j], [], sys.issued, sys'.issued);
    }
  }

  lemma EventSubmits(par: Params, sys: System, e: Event)
    requires par.Valid() && |sys.nodes| == par.cfg.n && Cluster.Enabled(par, sys, e)
    ensures var i, sys' := Actor(par, e), Cluster.Apply(par, sys, e);
      && Submitting(sys, sys', i, Taken(par, sys, e), Issues(sys, e))
      && sys'.nodes[i].valueId == sys.nodes[i].valueId + (if e.ClientCommit? || e.Contends? then STEP else 0)
      && sys'.commits == sys.commits + Sends(par, sys, e)
  {
    DoesLeaves(par, sys, e);
  }

  /** What is taken is the value that is given out, or one that was sent. */
  lemma TakenIs(par: Params, sys: System, e: Event)
    requires par.Valid() && |sys.nodes| == par.cfg.n && Cluster.Enabled(par, sys, e)
    ensures var t := Taken(par, sys, e);
      |t| <= 1 && (t != [] ==> if e.DeliverCommit? then t[0].value in sys.commits else t[0].value in Issues(sys, e))
  {
  }

  lemma EventIds(par: Params, sys: System, e: Event)
    requires par.Valid() && |sys.nodes| == par.cfg.n && Cluster.Enabled(par, sys, e)
    requires IdsOk(sys) && OwnersOk(sys, par.cfg.master)
    ensures IdsOk(Cluster.Apply(par, sys, e))
  {
    EventSubmits(par, sys, e);
    TakenIs(par, sys, e);
    IdsAfter(sys, Cluster.Apply(par, sys, e), Actor(par, e), e, Taken(par, sys, e));
  }

  lemma IdsAfter(sys: System, sys': System, i: nat, e: Event, more: seq<Submission>)
    requires IdsOk(sys) && (forall v :: v in sys.commits ==> v in sys.issued) && i < |sys.nodes|
    requires (e.ClientCommit? || e.Contends?) ==> e.i == i
    requires Submitting(sys, sys', i, more, Issues(sys, e)) && |more| <= 1
    requires sys'.nodes[i].valueId == sys.nodes[i].valueId + (if e.ClientCommit? || e.Contends? then STEP else 0)
    requires more != [] ==> if e.DeliverCommit? then more[0].value in sys.commits else more[0].value in Issues(sys, e)
    ensures IdsOk(sys')
  {
    if e.ClientCommit? || e.Contends? {
      OneMoreId(sys, sys', i, e.data, more);
    } else {
      SameIds(sys, sys', i, more);
    }
  }

  /** Node `i` may take the value: no other node has, and if it was sent, `i` is the master. */
  ghost predicate MayTake(sys: System, value: PropValue, i: nat, master: nat)
  {
    && (forall j: nat :: j < |sys.nodes| && j != i ==> !Submitted(sys.nodes[j].submitted, value.id))
    && (forall v :: v in sys.commits && v.id == value.id ==> i == master)
  }

  lemma NobodyTakes(sys: System, sys': System, i: nat, issues: set<PropValue>, master: nat)
    requires OwnersOk(sys, master) && Submitting(sys, sys', i, [], issues) && sys'.commits == sys.commits
    ensures OwnersOk(sys', master)
  {
    assert forall j: nat :: j < |sys.nodes| ==> sys'.nodes[j].submitted == sys.nodes[j].submitted;
  }

  lemma OneTakes(sys: System, sys': System, i: nat, value: PropValue, client: string, issues: set<PropValue>,
                 master: nat)
    requires OwnersOk(sys, master) && MayTake(sys, value, i, master)
    requires Submitting(sys, sys', i, [Submission(value, client)], issues) && sys'.commits == sys.commits
    ensures OwnersOk(sys', master)
  {
    forall id | Submitted(sys'.nodes[i].submitted, id) ensures id == value.id || Submitted(sys.nodes[i].submitted, id) {
      SubmittedOneMore(sys.nodes[i].submitted, value, client, id);
    }
  }

  lemma OneIsSent(sys: System, sys': System, i: nat, value: PropValue, master: nat)
    requires OwnersOk(sys, master) && Unused(sys, value) && Submitting(sys, sys', i, [], {value})
    requires sys'.commits == sys.commits + {value}
    ensures OwnersOk(sys', master)
  {
    assert forall j: nat :: j < |sys.nodes| ==> sys'.nodes[j].submitted == sys.nodes[j].submitted;
  }

  lemma EventOwners(par: Params, sys: System, e: Event)
    requires par.Valid() && |sys.nodes| == par.cfg.n && Cluster.Enabled(par, sys, e)
    requires IdsOk(sys) && OwnersOk(sys, par.cfg.master)
    ensures OwnersOk(Cluster.Apply(par, sys, e), par.cfg.master)
  {
    EventSubmits(par, sys, e);
    if e.ClientCommit? || e.Contends? {
      OwnOwners(sys, Cluster.Apply(par, sys, e), e, Taken(par, sys, e), par.cfg.master);
    } else {
      OtherOwners(sys, Cluster.Apply(par, sys, e), Actor(par, e), e, Taken(par, sys, e), par.cfg.master);
    }
  }

  lemma OwnOwners(sys: System, sys': System, e: Event, more: seq<Submission>, master: nat)
    requires (e.ClientCommit? || e.Contends?) && e.i < |sys.nodes| && IdsOk(sys) && OwnersOk(sys, master)
    requires Submitting(sys, sys', e.i, more, {NextValue(sys.nodes[e.i], e.data)})
    requires var value := NextValue(sys.nodes[e.i], e.data);
      if e.Contends? || e.i == master then more == [Submission(value, e.client)] && sys'.commits == sys.commits
      else more == [] && sys'.commits == sys.commits + {value}
    ensures OwnersOk(sys', master)
  {
    var value := NextValue(sys.nodes[e.i], e.data);
    NewIdIsFresh(sys, master, e.i, e.data);
    if e.Contends? || e.i == master {
      OneTakes(sys, sys', e.i, value, e.client, {value}, master);
    } else {
      OneIsSent(sys, sys', e.i, value, master);
    }
  }

  lemma OtherOwners(sys: System, sys': System, i: nat, e: Event, more: seq<Submission>, master: nat)
    requires OwnersOk(sys, master) && Submitting(sys, sys', i, more, {}) && sys'.commits == sys.commits
    requires more == [] || (e.DeliverCommit? && i == master && e.value in sys.commits
      && more == [Submission(e.value, "")])
    ensures OwnersOk(sys', master)
  {
    if more == [] {
      NobodyTakes(sys, sys', i, {}, master);
    } else {
      OneTakes(sys, sys', i, e.value, "", {}, master);
    }
  }

  // ---------------------------------------------------------------- all events, all runs

  ghost predicate SysGrows(sys: System, sys': System)
  {
    (forall s: nat :: Grows(View(sys, s), View(sys', s))) && sys.issued <= sys'.issued
  }

  lemma EventSubmissions(par: Params, sys: System, e: Event)
    requires par.Valid() && |sys.nodes| == par.cfg.n && Cluster.Enabled(par, sys, e)
    requires IdsOk(sys) && OwnersOk(sys, par.cfg.master)
    ensures IdsOk(Cluster.Apply(par, sys, e)) && OwnersOk(Cluster.Apply(par, sys, e), par.cfg.master)
  {
    EventIds(par, sys, e);
    EventOwners(par, sys, e);
  }

  lemma EventNodes(par: Params, sys: System, e: Event)
    requires par.Valid() && |sys.nodes| == par.cfg.n && Cluster.Enabled(par, sys, e)
    requires NodesOk(par, sys) && SentFrom1(sys.sent)
    ensures NodesOk(par, Cluster.Apply(par, sys, e)) && SentFrom1(Cluster.Apply(par, sys, e).sent)
  {
    DoesOk(par, sys, e);
    DoesFrom1(par, sys, e);
    OneNodeOk(par, sys, Cluster.Apply(par, sys, e), Actor(par, e));
  }

  lemma OneNodeOk(par: Params, sys: System, sys': System, i: nat)
    requires |sys.nodes| == |par.windows| == |sys'.nodes| && NodesOk(par, sys) && i < |sys.nodes|
    requires sys'.nodes == sys.nodes[i := sys'.nodes[i]] && CaptainOk(par.At(i), sys'.nodes[i])
    ensures NodesOk(par, sys')
  {
  }

  /** Every event, wherever the master starts in phase II. */
  lemma EventLocal(par: Params, sys: System, e: Event)
    requires par.Valid() && LocalOk(par, sys) && Cluster.Enabled(par, sys, e)
    ensures LocalOk(par, Cluster.Apply(par, sys, e)) && SysGrows(sys, Cluster.Apply(par, sys, e))
  {
    EventSubmissions(par, sys, e);
    EventSlots(par, sys, e);
    EventNodes(par, sys, e);
  }

  lemma EventSlots(par: Params, sys: System, e: Event)
    requires par.Valid() && |sys.nodes| == par.cfg.n && Cluster.Enabled(par, sys, e)
    requires NodesOk(par, sys) && SlotsCoherent(par, sys)
    ensures SlotsCoherent(par, Cluster.Apply(par, sys, e)) && SysGrows(sys, Cluster.Apply(par, sys, e))
  {
    var sys' := Cluster.Apply(par, sys, e);
    forall s: nat ensures Coherent(par.cfg, s, View(sys', s)) && Grows(View(sys, s), View(sys', s)) {
      SlotStaysCoherent(par, sys, e, s);
    }
  }

  lemma GrowsTwice(a: System, b: System, c: System)
    requires SysGrows(a, b) && SysGrows(b, c)
    ensures SysGrows(a, c)
  {
    forall s: nat ensures Grows(View(a, s), View(c, s)) {
      assert Grows(View(a, s), View(b, s)) && Grows(View(b, s), View(c, s));
    }
  }

  lemma GrowsReflexive(sys: System)
    ensures SysGrows(sys, sys)
  {
    forall s: nat ensures Grows(View(sys, s), View(sys, s)) {}
  }

  lemma StepLocal(par: Params, run: seq<System>, events: seq<Event>, k: nat)
    requires par.Valid() && Cluster.IsRun(par, run, events) && 0 < k < |run|
    ensures LocalOk(par, run[k - 1]) ==> LocalOk(par, run[k]) && SysGrows(run[k - 1], run[k])
  {
    assert Cluster.StepAt(par, run, events, k - 1);
    NextLocal(par, run[k - 1], events[k - 1], run[k]);
  }

  lemma NextLocal(par: Params, sys: System, e: Event, sys': System)
    requires par.Valid() && Cluster.Next(par, sys, e, sys')
    ensures LocalOk(par, sys) ==> LocalOk(par, sys') && SysGrows(sys, sys')
  {
    if LocalOk(par, sys) { EventLocal(par, sys, e); }
  }

  /** Every reachable state of the cluster. */
  lemma {:induction false} RunLocal(par: Params, run: seq<System>, events: seq<Event>, k: nat)
    requires par.Valid() && Cluster.IsRun(par, run, events) && k < |run|
    ensures LocalOk(par, run[k])
  {
    if k == 0 {
      StartLocal(par);
    } else {
      StepLocal(par, run, events, k);
      RunLocal(par, run, events, k - 1);
    }
  }

  /** What it says of a node, and of the submissions. */
  lemma RunNode(par: Params, run: seq<System>, events: seq<Event>, k: nat, i: nat)
    requires par.Valid() && Cluster.IsRun(par, run, events) && k < |run| && i < par.cfg.n
    ensures |run[k].nodes| == par.cfg.n && CaptainOk(par.At(i), run[k].nodes[i])
  {
    RunLocal(par, run, events, k);
  }

  lemma RunIds(par: Params, run: seq<System>, events: seq<Event>, k: nat)
    requires par.Valid() && Cluster.IsRun(par, run, events) && k < |run|
    ensures IdsOk(run[k]) && OwnersOk(run[k], par.cfg.master)
  {
    RunLocal(par, run, events, k);
  }

  /** The step that ends a run. */
  lemma LastStep(par: Params, run: seq<System>, events: seq<Event>, k: nat)
    requires par.Valid() && Cluster.IsRun(par, run, events) && 0 < k < |run|
    ensures LocalOk(par, run[k - 1]) && SysGrows(run[k - 1], run[k])
  {
    StepLocal(par, run, events, k);
    RunLocal(par, run, events, k - 1);
  }

  lemma LastNext(par: Params, run: seq<System>, events: seq<Event>, k: nat)
    requires par.Valid() && Cluster.IsRun(par, run, events) && 0 < k < |run|
    ensures Cluster.Next(par, run[k - 1], events[k - 1], run[k])
  {
    assert Cluster.StepAt(par, run, events, k - 1);
  }

  /** Over a run the views of all slots only grow. */
  lemma {:induction false} RunGrows(par: Params, run: seq<System>, events: seq<Event>, k: nat, l: nat)
    requires par.Valid() && Cluster.IsRun(par, run, events) && k <= l < |run|
    ensures SysGrows(run[k], run[l])
  {
    if k == l {
      GrowsReflexive(run[k]);
    } else {
      LastStep(par, run, events, l);
      RunGrows(par, run, events, k, l - 1);
      GrowsTwice(run[k], run[l - 1], run[l]);
    }
  }
}
