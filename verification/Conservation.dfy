/** No value is dropped on the way: what was submitted waits, is being proposed, or has its slot. */
module Conservation {
  import opened Types
  import opened Proposers
  import opened SlotPaxos
  import opened ChosenLog
  import opened Replica
  import opened ReplicaSafety
  import opened Reactions
  import opened Cluster
  import opened ClusterLocal
  import opened ClusterSafety
  import opened ClusterRuns

  /** Some slot in which the value was placed is not lost. */
  ghost predicate HasHome(placed: map<nat, PropValue>, lost: set<nat>, value: PropValue)
  {
    exists t :: t in placed && t !in lost && placed[t] == value
  }

  ghost predicate AllHome(c: CaptainState)
  {
    forall k :: 0 <= k < |c.started| ==> HasHome(c.placed, c.lost, c.started[k].value)
  }

  /** A slot with a value of this node and no proposer any more is known. */
  ghost predicate OverIsKnown(c: CaptainState)
  {
    forall t :: t in c.placed && t !in c.proposers ==> t in Contents(c.log)
  }

  ghost predicate Conserved(c: CaptainState)
  {
    AllHome(c) && OverIsKnown(c)
  }

  /** The slot is known, and it went to the value that this node had placed there. */
  ghost predicate WentToOwn(c: CaptainState, t: nat)
  {
    t in c.placed && t in Contents(c.log) && Contents(c.log)[t].id == c.placed[t].id
  }

  /** The slot is over and not lost. */
  ghost predicate IsOver(c: CaptainState, t: nat)
  {
    t in c.placed && t !in c.lost && t !in c.proposers
  }

  /** Slots that are over and not lost went to this node's own value. */
  ghost predicate WinsAreOwn(c: CaptainState)
  {
    forall t :: IsOver(c, t) ==> WentToOwn(c, t)
  }

  // ---------------------------------------------------------------- what an operation may do

  ghost predicate Extends(m: map<nat, PropValue>, m': map<nat, PropValue>)
  {
    forall t :: t in m ==> t in m' && m'[t] == m[t]
  }

  /** Places and knowledge only grow, a slot ends only when it is known, and a value that loses its slot, or
      starts, has one that is not lost. */
  ghost predicate Conserves(c: CaptainState, c': CaptainState)
  {
    && Extends(c.placed, c'.placed) && Extends(Contents(c.log), Contents(c'.log)) && c.started <= c'.started
    && (forall t :: t in c'.placed && t !in c'.proposers ==>
          t in Contents(c'.log) || (t in c.placed && t !in c.proposers))
    && (forall t :: t in c'.lost && t !in c.lost && t in c.placed ==> HasHome(c'.placed, c'.lost, c.placed[t]))
    && (forall k :: |c.started| <= k < |c'.started| ==> HasHome(c'.placed, c'.lost, c'.started[k].value))
  }

  /** A slot that ends without being lost went to this node's own value. */
  ghost predicate EndsOwn(c: CaptainState, c': CaptainState)
  {
    forall t :: IsOver(c', t) ==> IsOver(c, t) || WentToOwn(c', t)
  }

  lemma ConservesConserved(c: CaptainState, c': CaptainState)
    requires Conserved(c) && Conserves(c, c')
    ensures Conserved(c')
  {
    forall k | 0 <= k < |c'.started| ensures HasHome(c'.placed, c'.lost, c'.started[k].value) {
      if k < |c.started| {
        var value := c.started[k].value;
        assert c'.started[k] == c.started[k] && HasHome(c.placed, c.lost, value);
        var t :| t in c.placed && t !in c.lost && c.placed[t] == value;
        assert t in c'.placed && c'.placed[t] == value;
      }
    }
  }

  lemma ConservesWins(c: CaptainState, c': CaptainState)
    requires WinsAreOwn(c) && Conserves(c, c') && EndsOwn(c, c')
    ensures WinsAreOwn(c')
  {
    forall t | IsOver(c', t) ensures WentToOwn(c', t) {
      if IsOver(c, t) { assert WentToOwn(c, t) && t in Contents(c'.log) && t in c'.placed; }
    }
  }

  // ---------------------------------------------------------------- one node

  /** Nothing is placed or lost, no proposer begins or ends, and the log grows. */
  ghost predicate Quiet(c: CaptainState, c': CaptainState)
  {
    && c'.placed == c.placed && c'.lost == c.lost && c'.started == c.started
    && c'.proposers.Keys == c.proposers.Keys && Extends(Contents(c.log), Contents(c'.log))
  }

  lemma QuietConserves(c: CaptainState, c': CaptainState)
    requires Quiet(c, c')
    ensures Conserves(c, c') && EndsOwn(c, c')
  {
    forall t | t !in c'.proposers ensures t !in c.proposers { assert t !in c'.proposers.Keys; }
  }

  /** Only a vote that settles a slot ends a proposer. */
  lemma OthersAreQuiet(ctx: Ctx, c: CaptainState, m: Msg, asked: set<nat>, name: string)
    requires CaptainOk(ctx, c) && LearnsFrom1(m) && !(c.work && Settles(ctx, c, m))
    ensures Quiet(c, HandleMsg(ctx, c, m, asked, name).state)
  {
    if c.work {
      match m
      case Prepare(_, _, _) => PrepareIsAnswered(ctx, c, m, asked, name);
      case Promise(_, _, _, _, _, _) => PromiseIsQuiet(ctx, c, m, asked);
      case Accept(_, _, _, _, _) =>
        AcceptIsVoted(ctx, c, m, asked, name);
        AnnouncementIsLearned(ctx, c, m, asked, name);
      case Accepted(_, _, _, _) => VoteIsQuiet(ctx, c, m, asked, name);
      case Decide(_, _, _) => DecideIsLearned(ctx, c, m, asked, name);
      case Learn(_, _) => LearnIsTaught(ctx, c, m, asked, name);
      case Teach(_, _, _) => TeachIsLearned(ctx, c, m, asked, name);
      case LogData(_, _) =>
    }
  }

  lemma PromiseIsQuiet(ctx: Ctx, c: CaptainState, m: Msg, asked: set<nat>)
    requires m.Promise?
    ensures Quiet(c, OnPromiseMsg(ctx, c, m, asked).state)
  {
    var c' := OnPromiseMsg(ctx, c, m, asked).state;
    assert c' == c.(proposers := c'.proposers);
    assert c'.proposers == c.proposers
      || (m.slot in c.proposers && c'.proposers == c.proposers[m.slot := c'.proposers[m.slot]]);
  }

  lemma VoteIsQuiet(ctx: Ctx, c: CaptainState, m: Msg, asked: set<nat>, name: string)
    requires CaptainOk(ctx, c) && c.work && m.Accepted? && !Settles(ctx, c, m)
    ensures Quiet(c, HandleMsg(ctx, c, m, asked, name).state)
  {
    VoteIsCounted(ctx, c, m, asked, name);
  }

  /** What the slot that `m` settles is known to be, if it is known. */
  ghost predicate AgreesWithLog(c: CaptainState, m: Msg)
  {
    HearsVote(c, m) && m.slot in Contents(c.log) ==>
      Contents(c.log)[m.slot].id == c.proposers[m.slot].proposer.currValue.value.id
  }

  lemma SettledSlot(ctx: Ctx, c: CaptainState, slot: nat)
    requires CaptainOk(ctx, c) && slot in c.proposers
    ensures slot in c.placed && c.placed[slot] == c.proposers[slot].proposer.initValue
    ensures c.maxSlot + 1 !in c.placed && c.maxSlot + 1 !in c.lost && slot <= c.maxSlot
  {
    assert RunsPlaced(c.proposers[slot], c.placed, slot);
  }

  /** The loser goes from one slot to another. */
  lemma MovingConserves(c: CaptainState, c': CaptainState, slot: nat, t: nat)
    requires slot in c.placed && t !in c.placed && t !in c.lost && slot != t
    requires c'.placed == c.placed[t := c.placed[slot]] && c'.lost == c.lost + {slot} && c'.started == c.started
    requires t in c'.proposers && OtherProposersStay(c, c', slot, t)
    requires slot in Contents(c'.log) && Extends(Contents(c.log), Contents(c'.log))
    ensures Conserves(c, c') && EndsOwn(c, c')
  {
    assert c'.placed[t] == c.placed[slot] && t !in c'.lost;
    assert HasHome(c'.placed, c'.lost, c.placed[slot]);
  }

  /** The winner ends, and nothing starts. */
  lemma EndingConserves(c: CaptainState, c': CaptainState, slot: nat)
    requires c'.placed == c.placed && c'.lost == c.lost && c'.started == c.started
    requires c'.proposers == c.proposers - {slot}
    requires slot in Contents(c'.log) && Extends(Contents(c.log), Contents(c'.log))
    ensures Conserves(c, c') && (WentToOwn(c', slot) ==> EndsOwn(c, c'))
  {
  }

  /** A value starts in a new slot, and perhaps another slot has ended. */
  lemma StartingConserves(c: CaptainState, c': CaptainState, done: nat, t: nat, value: PropValue, client: string)
    requires t !in c.placed && t !in c.lost && c'.lost == c.lost
    requires c'.placed == c.placed[t := value] && c'.started == c.started + [Submission(value, client)]
    requires t in c'.proposers && OtherProposersStay(c, c', done, t)
    requires done in Contents(c'.log) || done == t
    requires Extends(Contents(c.log), Contents(c'.log))
    ensures Conserves(c, c') && (done == t || WentToOwn(c', done) ==> EndsOwn(c, c'))
  {
    assert c'.placed[t] == value && t !in c'.lost;
    assert HasHome(c'.placed, c'.lost, value);
  }

  lemma LoserConserves(ctx: Ctx, c: CaptainState, h: Handled, slot: nat, asked: set<nat>, name: string)
    requires CaptainOk(ctx, c) && slot in c.proposers && c.proposers[slot].proposer.currValue.Some?
    requires Moved(ctx, c, h, slot, asked, name)
    ensures Conserves(c, h.state) && EndsOwn(c, h.state)
  {
    SettledSlot(ctx, c, slot);
    MovingConserves(c, h.state, slot, c.maxSlot + 1);
  }

  lemma WinnerConserves(ctx: Ctx, c: CaptainState, h: Handled, slot: nat, asked: set<nat>)
    requires slot in c.proposers && c.proposers[slot].proposer.currValue.Some? && |c.waiting| == |c.clients|
    requires Won(ctx, c, h, slot, asked) && c.maxSlot + 1 !in c.placed && c.maxSlot + 1 !in c.lost
    ensures Conserves(c, h.state) && (WentToOwn(h.state, slot) ==> EndsOwn(c, h.state))
  {
    if c.waiting == [] {
      EndingConserves(c, h.state, slot);
    } else {
      StartingConserves(c, h.state, slot, c.maxSlot + 1, c.waiting[0], c.clients[0]);
    }
  }

  lemma SettlingConserves(ctx: Ctx, c: CaptainState, m: Msg, asked: set<nat>, name: string)
    requires CaptainOk(ctx, c) && c.work && Settles(ctx, c, m)
    ensures var c' := HandleMsg(ctx, c, m, asked, name).state;
      Conserves(c, c') && (AgreesWithLog(c, m) ==> EndsOwn(c, c'))
  {
    var h, p := HandleMsg(ctx, c, m, asked, name), c.proposers[m.slot].proposer;
    if p.currValue.value.id != p.initValue.id {
      LosingValueMoves(ctx, c, m, asked, name);
      LoserConserves(ctx, c, h, m.slot, asked, name);
    } else {
      WinnerLetsNextStart(ctx, c, m, asked, name);
      SettledSlot(ctx, c, m.slot);
      WinnerConserves(ctx, c, h, m.slot, asked);
    }
  }

  lemma HandleMsgConserves(ctx: Ctx, c: CaptainState, m: Msg, asked: set<nat>, name: string)
    requires CaptainOk(ctx, c) && LearnsFrom1(m)
    ensures var c' := HandleMsg(ctx, c, m, asked, name).state;
      Conserves(c, c') && ((c.work && Settles(ctx, c, m) ==> AgreesWithLog(c, m)) ==> EndsOwn(c, c'))
  {
    if c.work && Settles(ctx, c, m) {
      SettlingConserves(ctx, c, m, asked, name);
    } else {
      OthersAreQuiet(ctx, c, m, asked, name);
      QuietConserves(c, HandleMsg(ctx, c, m, asked, name).state);
    }
  }

  lemma NextSlotIsNew(c: CaptainState, slot: nat)
    requires CoreOk(c) && slot > c.maxSlot
    ensures slot !in c.placed && slot !in c.lost
  {
  }

  lemma TakingConserves(ctx: Ctx, c: CaptainState, h: Handled, value: PropValue, client: string, asked: set<nat>)
    requires CoreOk(c) && IsTaken(ctx, c, h, value, client, asked)
    ensures Conserves(c, h.state) && EndsOwn(c, h.state)
  {
    if |c.proposers| == ctx.window {
      QuietConserves(c, h.state);
    } else {
      NextSlotIsNew(c, c.maxSlot + 1);
      StartingConserves(c, h.state, c.maxSlot + 1, c.maxSlot + 1, value, client);
    }
  }

  lemma CommitConserves(ctx: Ctx, c: CaptainState, value: PropValue, client: string, asked: set<nat>)
    requires CaptainOk(ctx, c)
    ensures var c' := Commit(ctx, c, value, client, asked).state; Conserves(c, c') && EndsOwn(c, c')
  {
    CommitIsQueuedOrStarts(ctx, c, value, client, asked);
    TakingConserves(ctx, c, Commit(ctx, c, value, client, asked), value, client, asked);
  }

  lemma ContendConserves(ctx: Ctx, c: CaptainState, slot: nat, value: PropValue, client: string, asked: set<nat>)
    requires CaptainOk(ctx, c) && slot > c.maxSlot
    ensures var c' := Contend(ctx, c, slot, value, client, asked).state; Conserves(c, c') && EndsOwn(c, c')
  {
    ContenderPrepares(ctx, c, slot, value, client, asked);
    NextSlotIsNew(c, slot);
    StartingConserves(c, Contend(ctx, c, slot, value, client, asked).state, slot, slot, value, client);
  }

  lemma LogDataConserves(c: CaptainState, slot: nat, value: PropValue)
    requires CoreOk(c) && slot >= 1
    ensures var c' := OnLogData(c, slot, value); Conserves(c, c') && EndsOwn(c, c')
  {
    LogDataIsLearned(c, slot, value);
    QuietConserves(c, OnLogData(c, slot, value));
  }

  // ---------------------------------------------------------------- all nodes, all runs

  /** If the event settles a slot, the node does not know it as another value's. */
  ghost predicate AgreesAt(par: Params, sys: System, e: Event)
  {
    e.Deliver? && e.p.dst < |sys.nodes| == |par.windows| ==>
      var c := sys.nodes[e.p.dst];
      c.work && Settles(par.At(e.p.dst), c, e.p.msg) ==> AgreesWithLog(c, e.p.msg)
  }

  lemma DoesConserve(par: Params, sys: System, e: Event)
    requires par.Valid() && |sys.nodes| == par.cfg.n && Cluster.Enabled(par, sys, e) && SentFrom1(sys.sent)
    requires CaptainOk(par.At(Actor(par, e)), sys.nodes[Actor(par, e)])
    ensures var c, c' := sys.nodes[Actor(par, e)], Does(par, sys, e).state;
      Conserves(c, c') && (AgreesAt(par, sys, e) ==> EndsOwn(c, c'))
  {
    var i := Actor(par, e);
    var ctx, c, c' := par.At(i), sys.nodes[i], Does(par, sys, e).state;
    CountedOk(ctx, c);
    match e
    case Deliver(p, asked, name) => HandleMsgConserves(ctx, c, p.msg, asked, name);
    case DeliverLog(_, p) => LogDataConserves(c, p.msg.slot, p.msg.value);
    case ClientCommit(_, data, client, asked) =>
      if i == par.cfg.master {
        CommitConserves(ctx, Counted(c), NextValue(c, data), client, asked);
      } else {
        QuietConserves(c, c');
      }
    case DeliverCommit(value, asked) =>
      if c.work { CommitConserves(ctx, c, value, "", asked); } else { QuietConserves(c, c'); }
    case Contends(_, slot, data, client, asked) =>
      ContendConserves(ctx, Counted(c), slot, NextValue(c, data), client, asked);
    case _ => QuietConserves(c, c');
  }

  /** What an event makes of one node. */
  ghost predicate NodeConserves(par: Params, sys: System, e: Event, sys': System, i: nat)
  {
    && i < |sys.nodes| == |sys'.nodes|
    && (Conserved(sys.nodes[i]) ==> Conserved(sys'.nodes[i]))
    && (AgreesAt(par, sys, e) && WinsAreOwn(sys.nodes[i]) ==> WinsAreOwn(sys'.nodes[i]))
  }

  lemma NextConserves(par: Params, sys: System, e: Event, sys': System, i: nat)
    requires par.Valid() && Cluster.Next(par, sys, e, sys') && SentFrom1(sys.sent) && i < par.cfg.n
    requires CaptainOk(par.At(Actor(par, e)), sys.nodes[Actor(par, e)])
    ensures NodeConserves(par, sys, e, sys', i)
  {
    if i == Actor(par, e) {
      var c, c' := sys.nodes[i], sys'.nodes[i];
      DoesConserve(par, sys, e);
      if Conserved(c) { ConservesConserved(c, c'); }
      if AgreesAt(par, sys, e) && WinsAreOwn(c) { ConservesWins(c, c'); }
    }
  }

  lemma NextLocallyConserves(par: Params, sys: System, e: Event, sys': System, i: nat)
    requires par.Valid() && Cluster.Next(par, sys, e, sys') && i < par.cfg.n
    ensures LocalOk(par, sys) ==> NodeConserves(par, sys, e, sys', i)
  {
    if LocalOk(par, sys) {
      assert CaptainOk(par.At(Actor(par, e)), sys.nodes[Actor(par, e)]);
      NextConserves(par, sys, e, sys', i);
    }
  }

  lemma StepConserves(par: Params, run: seq<System>, events: seq<Event>, k: nat, i: nat)
    requires par.Valid() && Cluster.IsRun(par, run, events) && 0 < k < |run| && i < par.cfg.n
    ensures LocalOk(par, run[k - 1]) ==> NodeConserves(par, run[k - 1], events[k - 1], run[k], i)
  {
    LastNext(par, run, events, k);
    NextLocallyConserves(par, run[k - 1], events[k - 1], run[k], i);
  }

  lemma OneStepConserves(par: Params, run: seq<System>, events: seq<Event>, k: nat, i: nat)
    requires par.Valid() && Cluster.IsRun(par, run, events) && 0 < k < |run| && i < par.cfg.n
    ensures NodeConserves(par, run[k - 1], events[k - 1], run[k], i)
  {
    StepConserves(par, run, events, k, i);
    RunLocal(par, run, events, k - 1);
  }

  /** At every moment of every run each started value has a slot that it has not lost, and each slot in which
      a proposer has ended is known. */
  lemma {:induction false} RunConserved(par: Params, run: seq<System>, events: seq<Event>, k: nat, i: nat)
    requires par.Valid() && Cluster.IsRun(par, run, events) && k < |run| && i < par.cfg.n
    ensures |run[k].nodes| == par.cfg.n && Conserved(run[k].nodes[i])
  {
    if k > 0 {
      RunConserved(par, run, events, k - 1, i);
      OneStepConserves(par, run, events, k, i);
    }
  }

  /** What a vote settles is what the node knows, if it knows the slot. */
  lemma VoteAgrees(par: Params, sys: System, e: Event)
    requires par.Valid() && SysOk(par, sys) && Cluster.Enabled(par, sys, e)
    ensures AgreesAt(par, sys, e)
  {
    if e.Deliver? && Settles(par.At(e.p.dst), sys.nodes[e.p.dst], e.p.msg) {
      var i, m := e.p.dst, e.p.msg;
      assert Packet(i, m) == e.p;
      YesAreVotes(Votes(sys.nodes[i], m));
      ChosenIsSettled(par, sys, i, m);
      assert NodeKnown(sys, i);
      if m.slot in Contents(sys.nodes[i].log) {
        assert Settled(sys, m.slot, Contents(sys.nodes[i].log)[m.slot]);
        SettledIdsAgree(par, sys, m.slot, Contents(sys.nodes[i].log)[m.slot].id,
          sys.nodes[i].proposers[m.slot].proposer.currValue.value.id);
      }
    }
  }

  lemma StepAgrees(par: Params, run: seq<System>, events: seq<Event>, k: nat)
    requires par.Valid() && Cluster.IsRun(par, run, events) && 0 < k < |run| && InRange(par, run[k - 1])
    ensures AgreesAt(par, run[k - 1], events[k - 1])
  {
    RunOk(par, run, events, k - 1);
    LastNext(par, run, events, k);
    VoteAgrees(par, run[k - 1], events[k - 1]);
  }

  lemma {:induction false} RunWinsAreOwn(par: Params, run: seq<System>, events: seq<Event>, k: nat, i: nat)
    requires par.Valid() && Cluster.IsRun(par, run, events) && k < |run| && i < par.cfg.n && InRange(par, run[k])
    ensures |run[k].nodes| == par.cfg.n && WinsAreOwn(run[k].nodes[i])
  {
    if k > 0 {
      RunStaysInRange(par, run, events, k - 1, k);
      RunWinsAreOwn(par, run, events, k - 1, i);
      StepAgrees(par, run, events, k);
      OneStepConserves(par, run, events, k, i);
    }
  }

  // ---------------------------------------------------------------- where a submitted value is

  /** Submission `k` of the node is still in the queue. */
  ghost predicate Waits(c: CaptainState, k: nat)
  {
    && |c.started| <= k < |c.submitted| && k - |c.started| < |c.waiting|
    && c.waiting[k - |c.started|] == c.submitted[k].value
  }

  /** A proposer of the node works for the value in slot `t`. */
  ghost predicate ProposedIn(c: CaptainState, t: nat, value: PropValue)
  {
    t in c.proposers && c.proposers[t].proposer.initValue == value
  }

  /** Slot `t` is settled on the value, and the node knows. */
  ghost predicate KnownSettled(sys: System, c: CaptainState, t: nat, value: PropValue)
  {
    t in Contents(c.log) && Contents(c.log)[t] == value && Settled(sys, t, value)
  }

  lemma SubmissionIs(ctx: Ctx, c: CaptainState, k: nat)
    requires QueueOk(ctx, c) && k < |c.submitted|
    ensures if k < |c.started| then c.submitted[k] == c.started[k] else Waits(c, k)
  {
    assert c.submitted[k] == (c.started + Pairs(c.waiting, c.clients))[k];
  }

  /** At every moment of every run a submission waits, or has a slot `t` it has not lost: there it is being
      proposed, or the node knows what the slot went to. */
  lemma RunForgetsNothing(par: Params, run: seq<System>, events: seq<Event>, k: nat, i: nat, j: nat) returns (t: nat)
    requires par.Valid() && Cluster.IsRun(par, run, events) && k < |run| && i < par.cfg.n
    requires i < |run[k].nodes| && j < |run[k].nodes[i].submitted|
    ensures var c, value := run[k].nodes[i], run[k].nodes[i].submitted[j].value;
      || Waits(c, j)
      || (t in c.placed && c.placed[t] == value && t !in c.lost
          && (ProposedIn(c, t, value) || t in Contents(c.log)))
  {
    t := 0;
    RunNode(par, run, events, k, i);
    RunConserved(par, run, events, k, i);
    t := HomeOf(par.At(i), run[k].nodes[i], j);
  }

  lemma HomeOf(ctx: Ctx, c: CaptainState, j: nat) returns (t: nat)
    requires CaptainOk(ctx, c) && Conserved(c) && j < |c.submitted|
    ensures var value := c.submitted[j].value;
      || Waits(c, j)
      || (t in c.placed && c.placed[t] == value && t !in c.lost
          && (ProposedIn(c, t, value) || (IsOver(c, t) && t in Contents(c.log))))
  {
    t := 0;
    SubmissionIs(ctx, c, j);
    if j < |c.started| {
      assert HasHome(c.placed, c.lost, c.started[j].value);
      t :| t in c.placed && t !in c.lost && c.placed[t] == c.started[j].value;
      if t in c.proposers { assert RunsPlaced(c.proposers[t], c.placed, t); }
    }
  }

  /** Where the fast path is sound: a submission waits, is being proposed, or is the value of a settled slot
      that its node knows. */
  lemma RunConservesValues(par: Params, run: seq<System>, events: seq<Event>, k: nat, i: nat, j: nat)
    returns (t: nat)
    requires par.Valid() && Cluster.IsRun(par, run, events) && k < |run| && i < par.cfg.n && InRange(par, run[k])
    requires i < |run[k].nodes| && j < |run[k].nodes[i].submitted|
    ensures var c, value := run[k].nodes[i], run[k].nodes[i].submitted[j].value;
      Waits(c, j) || ProposedIn(c, t, value) || KnownSettled(run[k], c, t, value)
  {
    RunOk(par, run, events, k);
    RunConserved(par, run, events, k, i);
    RunWinsAreOwn(par, run, events, k, i);
    t := FateOf(par, run[k], i, j);
  }

  lemma FateOf(par: Params, sys: System, i: nat, j: nat) returns (t: nat)
    requires par.Valid() && SysOk(par, sys) && i < par.cfg.n && Conserved(sys.nodes[i]) && WinsAreOwn(sys.nodes[i])
    requires j < |sys.nodes[i].submitted|
    ensures var c, value := sys.nodes[i], sys.nodes[i].submitted[j].value;
      Waits(c, j) || ProposedIn(c, t, value) || KnownSettled(sys, c, t, value)
  {
    var c, value := sys.nodes[i], sys.nodes[i].submitted[j].value;
    assert CaptainOk(par.At(i), c) && NodeKnown(sys, i) && Submits(c, sys.issued);
    t := HomeOf(par.At(i), c, j);
    if !Waits(c, j) && !ProposedIn(c, t, value) {
      assert WentToOwn(c, t) && Settled(sys, t, Contents(c.log)[t]);
    }
  }
}
