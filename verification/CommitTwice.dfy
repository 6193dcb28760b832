/** Exactly where one COMMIT may be delivered twice without harm: in a cluster of one, where none is ever
    sent.  In every other cluster the value is settled in, and delivered from, as many slots as the COMMIT
    was delivered times. */
module CommitTwice {
  import opened Types
  import opened Acceptors
  import opened Proposers
  import opened SlotPaxos
  import opened ChosenLog
  import opened Replica
  import opened Refinement
  import opened Cluster
  import opened ClusterLocal
  import opened ClusterSafety
  import opened Submissions
  import opened ReplicatedLog
  import Ballots
  import Quorum

  ghost predicate EndsAt(par: Params, run: seq<System>, events: seq<Event>, sys: System)
    requires par.Valid()
  {
    Cluster.IsRun(par, run, events) && run[|events|] == sys && |sys.nodes| == par.cfg.n
  }

  ghost predicate Reachable(par: Params, sys: System)
    requires par.Valid()
  {
    exists run, events :: EndsAt(par, run, events, sys)
  }

  lemma StartIsReachable(par: Params)
    requires par.Valid()
    ensures Reachable(par, Cluster.Start(par))
  {
    assert EndsAt(par, [Cluster.Start(par)], [], Cluster.Start(par));
  }

  lemma OneMore(par: Params, run: seq<System>, events: seq<Event>, sys: System, e: Event, sys': System)
    requires par.Valid() && EndsAt(par, run, events, sys) && Cluster.Next(par, sys, e, sys')
    ensures Cluster.IsRun(par, run + [sys'], events + [e])
  {
    forall k: nat | k < |events| + 1 ensures StepAt(par, run + [sys'], events + [e], k) {
      if k < |events| { assert StepAt(par, run, events, k); }
    }
  }

  lemma StepIsReachable(par: Params, sys: System, e: Event)
    requires par.Valid() && |sys.nodes| == par.cfg.n && Reachable(par, sys) && Cluster.Enabled(par, sys, e)
    ensures Reachable(par, Cluster.Apply(par, sys, e)) && |Cluster.Apply(par, sys, e).nodes| == par.cfg.n
  {
    var sys' := Cluster.Apply(par, sys, e);
    var run, events :| EndsAt(par, run, events, sys);
    OneMore(par, run, events, sys, e, sys');
    assert EndsAt(par, run + [sys'], events + [e], sys');
  }

  /** `r` is what node `i` does on the way from `sys` to `sys'`. */
  ghost predicate Leads(sys: System, sys': System, i: nat, r: Handled)
    requires i < |sys.nodes|
  {
    sys'.nodes == sys.nodes[i := r.state] && sys'.sent == sys.sent + r.out && sys'.commits == sys.commits
  }

  lemma Delivers(par: Params, sys: System, p: Packet) returns (sys': System)
    requires par.Valid() && |sys.nodes| == par.cfg.n && Reachable(par, sys) && p in sys.sent && p.dst < par.cfg.n
    ensures Reachable(par, sys') && Leads(sys, sys', p.dst, HandleMsg(par.At(p.dst), sys.nodes[p.dst], p.msg, {}, ""))
  {
    StepIsReachable(par, sys, Deliver(p, {}, ""));
    sys' := Cluster.Apply(par, sys, Deliver(p, {}, ""));
  }

  // ---------------------------------------------------------------- between two deliveries

  /** `value` is known in slots 1 to k and in no other. */
  ghost function LogOf(value: PropValue, k: nat): Log
  {
    Log([None] + seq(k, _ => Some(value)), k, k, seq(k, i requires 0 <= i < k => Delivery(i + 1, value)))
  }

  /** The master has got `value` settled in slots 1 to k and has nothing to do. */
  ghost predicate MasterAt(c: CaptainState, value: PropValue, k: nat)
  {
    && c.work && c.proposers == map[] && c.waiting == [] && c.clients == [] && c.maxSlot == k
    && c.log == LogOf(value, k)
  }

  /** No acceptor has promised more than the master's first ballot above slot `k`. */
  ghost predicate Untouched(par: Params, c: CaptainState, k: nat)
  {
    forall s: nat :: s > k ==> AccAt(c.acceptors, s).maxProposed <= par.cfg.MasterBallot()
  }

  /** A node other than the master proposes nothing and knows no slot above `announced`. */
  ghost predicate Follower(c: CaptainState, announced: nat)
  {
    && c.work && c.placed == map[]
    && forall s: nat :: s > announced ==> !Has(c.log, s)
  }

  ghost predicate Followers(par: Params, sys: System, announced: nat)
  {
    forall j: nat :: j < |sys.nodes| && j != par.cfg.master ==> Follower(sys.nodes[j], announced)
  }

  ghost predicate AllUntouched(par: Params, sys: System, k: nat)
  {
    forall j: nat :: j < |sys.nodes| ==> Untouched(par, sys.nodes[j], k)
  }

  /** `value` was delivered to the master `k` times, and each time it was settled. */
  ghost predicate Rest(par: Params, sys: System, value: PropValue, k: nat)
  {
    && |sys.nodes| == par.cfg.n && par.cfg.master < par.cfg.n && value in sys.commits
    && AllUntouched(par, sys, k)
    && MasterAt(sys.nodes[par.cfg.master], value, k)
    && Followers(par, sys, sys.nodes[par.cfg.master].lastSlot)
  }

  lemma InitialUntouched(par: Params, j: nat)
    requires par.Valid() && j < par.cfg.n
    ensures Untouched(par, Initial(par.At(j)), 0) && Untouched(par, Counted(Initial(par.At(j))), 0)
  {
    forall s: nat ensures AccAt(Initial(par.At(j)).acceptors, s).maxProposed <= par.cfg.MasterBallot() {}
  }

  lemma SentIsRest(par: Params, i: nat)
    requires par.Valid() && i < par.cfg.n && i != par.cfg.master
    ensures var start := Cluster.Start(par);
      Rest(par, Cluster.Apply(par, start, ClientCommit(i, "", "", {})), NextValue(start.nodes[i], ""), 0)
  {
    forall j: nat | j < par.cfg.n ensures Untouched(par, Initial(par.At(j)), 0)
      && Untouched(par, Counted(Initial(par.At(j))), 0)
    {
      InitialUntouched(par, j);
    }
    assert LogOf(NextValue(Cluster.Start(par).nodes[i], ""), 0) == EMPTY;
  }

  /** A node other than the master sends it a value. */
  lemma SendOne(par: Params) returns (sys: System, value: PropValue)
    requires par.Valid() && par.cfg.n >= 2
    ensures Reachable(par, sys) && Rest(par, sys, value, 0)
  {
    var start, i := Cluster.Start(par), if par.cfg.master == 0 then 1 else 0;
    var e := ClientCommit(i, "", "", {});
    StartIsReachable(par);
    StepIsReachable(par, start, e);
    SentIsRest(par, i);
    sys, value := Cluster.Apply(par, start, e), NextValue(start.nodes[i], "");
  }

  // ---------------------------------------------------------------- a COMMIT arrives

  /** The proposer of the master after acknowledgements from nodes 0 to h-1. */
  ghost function Counting(me: nat, value: PropValue, h: nat): ProposerState
  {
    FastStarted(me, value).(accepts := map j: nat | j in Quorum.Nodes(h) :: AcceptAck(Ballots.Next(me, 0), true))
  }

  /** The master runs slot `k` for `value` and has counted `h` acknowledgements. */
  ghost predicate MasterRuns(ctx: Ctx, c: CaptainState, value: PropValue, k: nat, h: nat)
  {
    && c.work && c.waiting == [] && c.clients == [] && c.maxSlot == k && k >= 1
    && c.log == LogOf(value, k - 1)
    && c.proposers == map[k := ProposerInfo(1, "", Counting(ctx.me, value, h), PhaseII)]
  }

  ghost predicate MayAnnounce(last: Option<Announcement>, lastSlot: nat, lastSlot': nat)
  {
    lastSlot <= lastSlot' && (last.Some? ==> last.value.slot == lastSlot + 1 == lastSlot')
  }

  lemma CommitStarts(ctx: Ctx, c: CaptainState, value: PropValue, asked: set<nat>, k: nat)
    returns (last: Option<Announcement>)
    requires ctx.Valid() && MasterAt(c, value, k)
    ensures var h := Commit(ctx, c, value, "", asked);
      && MasterRuns(ctx, h.state, value, k + 1, 0)
      && h.state.acceptors == c.acceptors && MayAnnounce(last, c.lastSlot, h.state.lastSlot)
      && h.out == Broadcast(asked, Accept(ctx.me, k + 1, Ballots.Next(ctx.me, 0), value, last))
  {
    var c1 := c.(submitted := c.submitted + [Submission(value, "")]);
    last := Announce(Started(ctx, c1, value, "")).1;
    assert Counting(ctx.me, value, 0) == FastStarted(ctx.me, value);
  }

  /** The accept request of slot `k` has been sent to the first q nodes. */
  ghost function Ask(par: Params, k: nat, value: PropValue, last: Option<Announcement>): Msg
  {
    Accept(par.cfg.master, k, par.cfg.MasterBallot(), value, last)
  }

  ghost predicate Asked(par: Params, sys: System, m: Msg)
  {
    forall j: nat :: j < Quorum.Size(par.cfg.n) ==> Packet(j, m) in sys.sent
  }

  /** Nodes can accept `m`, and will acknowledge it. */
  ghost predicate WillAck(ctx: Ctx, c: CaptainState, m: Msg)
    requires m.Accept?
  {
    && c.work && AccAt(c.acceptors, m.slot).maxProposed <= m.ballot
    && (m.src == ctx.me || m.last.None? || !Has(c.log, m.last.value.slot))
  }

  /** What accepting `m` changes. */
  ghost predicate Accepts(c: CaptainState, c': CaptainState, m: Msg, log: bool)
    requires m.Accept?
  {
    && c' == c.(acceptors := c'.acceptors, log := c'.log)
    && (forall s: nat :: s != m.slot ==> AccAt(c'.acceptors, s) == AccAt(c.acceptors, s))
    && (!log || m.last.None? ==> c'.log == c.log)
    && (forall s: nat :: Has(c'.log, s) && !Has(c.log, s) ==> m.last.Some? && s == m.last.value.slot)
  }

  lemma LearnsOnly(l: Log, slot: nat, value: PropValue, s: nat)
    requires Ok(l) && slot >= 1 && Has(AddChosen(l, slot, value), s) && !Has(l, s)
    ensures s == slot
  {
    AddRefinesFirstWrite(l, slot, value);
    assert s in Contents(AddChosen(l, slot, value)) && s !in Contents(l);
  }

  lemma AcceptAcks(ctx: Ctx, c: CaptainState, m: Msg)
    requires m.Accept? && WillAck(ctx, c, m) && Ok(c.log) && (m.last.Some? ==> m.last.value.slot >= 1)
    ensures var h := HandleMsg(ctx, c, m, {}, "");
      && Packet(m.src, Accepted(ctx.me, m.slot, m.ballot, true)) in h.out
      && Accepts(c, h.state, m, m.src != ctx.me)
  {
    var grown := Grown(c.acceptors, m.slot);
    forall s: nat {
      GrownAt(c.acceptors, m.slot, OnAccept(grown[m.slot], m.ballot, m.value), s);
    }
    var c' := OnAcceptMsg(ctx, c, m).state;
    forall s: nat | Has(c'.log, s) && !Has(c.log, s) ensures m.last.Some? && s == m.last.value.slot {
      var accs := c'.acceptors;
      assert c'.log == AddChosen(c.log, m.last.value.slot, accs[m.last.value.slot].maxValue.value);
      LearnsOnly(c.log, m.last.value.slot, accs[m.last.value.slot].maxValue.value, s);
    }
  }

  // ---------------------------------------------------------------- a quorum accepts

  /** The first `k` nodes have accepted `m`; the others are as they were. */
  ghost predicate AckedBy(par: Params, sys: System, sys': System, m: Msg, k: nat)
    requires m.Accept?
  {
    && |sys'.nodes| == |sys.nodes| && sys.sent <= sys'.sent && sys'.commits == sys.commits
    && (forall j: nat :: j < k ==> Packet(m.src, Accepted(j, m.slot, m.ballot, true)) in sys'.sent)
    && (forall j: nat :: k <= j < |sys.nodes| ==> sys'.nodes[j] == sys.nodes[j])
    && (forall j: nat :: j < |sys.nodes| ==> Accepts(sys.nodes[j], sys'.nodes[j], m, m.src != j))
  }

  ghost predicate AllWillAck(par: Params, sys: System, m: Msg)
    requires m.Accept? && |sys.nodes| == |par.windows|
  {
    forall j: nat :: j < |sys.nodes| ==> WillAck(par.At(j), sys.nodes[j], m)
  }

  lemma AcceptsNothing(c: CaptainState, m: Msg, log: bool)
    requires m.Accept?
    ensures Accepts(c, c, m, log)
  {
  }

  lemma AckAt(par: Params, sys: System, m: Msg, j: nat) returns (sys': System, r: Handled)
    requires par.Valid() && |sys.nodes| == par.cfg.n && Reachable(par, sys) && j < par.cfg.n && m.Accept?
    requires Packet(j, m) in sys.sent && WillAck(par.At(j), sys.nodes[j], m) && Ok(sys.nodes[j].log)
    requires m.last.Some? ==> m.last.value.slot >= 1
    ensures Reachable(par, sys') && Leads(sys, sys', j, r)
    ensures Packet(m.src, Accepted(j, m.slot, m.ballot, true)) in r.out && Accepts(sys.nodes[j], r.state, m, m.src != j)
  {
    AcceptAcks(par.At(j), sys.nodes[j], m);
    sys' := Delivers(par, sys, Packet(j, m));
    r := HandleMsg(par.At(j), sys.nodes[j], m, {}, "");
  }

  lemma AckedMore(par: Params, sys: System, sys1: System, sys': System, m: Msg, j: nat, r: Handled)
    requires m.Accept? && j < |sys.nodes| && AckedBy(par, sys, sys1, m, j) && Leads(sys1, sys', j, r)
    requires Packet(m.src, Accepted(j, m.slot, m.ballot, true)) in r.out
    requires Accepts(sys.nodes[j], r.state, m, m.src != j)
    ensures AckedBy(par, sys, sys', m, j + 1)
  {
  }

  lemma OneAcks(par: Params, sys: System, sys1: System, m: Msg, j: nat) returns (sys': System)
    requires par.Valid() && |sys.nodes| == par.cfg.n && Reachable(par, sys1) && m.Accept? && Packet(j, m) in sys.sent
    requires j < par.cfg.n && AckedBy(par, sys, sys1, m, j)
    requires WillAck(par.At(j), sys.nodes[j], m) && Ok(sys.nodes[j].log) && (m.last.Some? ==> m.last.value.slot >= 1)
    ensures Reachable(par, sys') && AckedBy(par, sys, sys', m, j + 1)
  {
    var r;
    sys', r := AckAt(par, sys1, m, j);
    AckedMore(par, sys, sys1, sys', m, j, r);
  }

  lemma {:induction false} AllAck(par: Params, sys: System, m: Msg, k: nat) returns (sys': System)
    requires par.Valid() && |sys.nodes| == par.cfg.n && Reachable(par, sys) && m.Accept? && Asked(par, sys, m)
    requires k <= Quorum.Size(par.cfg.n) <= par.cfg.n && AllWillAck(par, sys, m)
    requires (m.last.Some? ==> m.last.value.slot >= 1) && forall j: nat :: j < |sys.nodes| ==> Ok(sys.nodes[j].log)
    ensures Reachable(par, sys') && AckedBy(par, sys, sys', m, k)
  {
    if k == 0 {
      sys' := sys;
      forall j: nat | j < |sys.nodes| ensures Accepts(sys.nodes[j], sys'.nodes[j], m, m.src != j) {
        AcceptsNothing(sys.nodes[j], m, m.src != j);
      }
    } else {
      var sys1 := AllAck(par, sys, m, k - 1);
      assert WillAck(par.At(k - 1), sys.nodes[k - 1], m);
      sys' := OneAcks(par, sys, sys1, m, k - 1);
    }
  }

  // ---------------------------------------------------------------- the master hears of it

  lemma CountOne(me: nat, value: PropValue, h: nat, q: int)
    requires h < q
    ensures OnAccepted(Counting(me, value, h), h, AcceptAck(Ballots.Next(me, 0), true), q) ==
      (Counting(me, value, h + 1), if h + 1 < q then NotEnough else Choose)
  {
    var acks := Counting(me, value, h + 1).accepts;
    assert acks == Counting(me, value, h).accepts[h := AcceptAck(Ballots.Next(me, 0), true)];
    assert acks.Keys == Quorum.Nodes(h + 1);
    assert |acks| == |acks.Keys|;
    assert YesAccepts(acks, acks.Keys) == acks.Keys;
  }

  lemma LogGrows(value: PropValue, k: nat)
    ensures AddChosen(LogOf(value, k), k + 1, value) == LogOf(value, k + 1)
  {
    var l, l' := LogOf(value, k), LogOf(value, k + 1);
    var stored := Store(l, k + 1, value);
    assert stored.values == l'.values;
    var l1 := stored.(withoutHole := k + 1, delivered := l.delivered + [Delivery(k + 1, value)]);
    assert l1.delivered == l'.delivered;
    assert Advance(stored) == Advance(l1) == l1;
  }

  /** The last acknowledgement settles the slot. */
  lemma ChooseOne(ctx: Ctx, c: CaptainState, value: PropValue, k: nat, h: nat)
    requires MasterRuns(ctx, c, value, k, h)
    ensures var r := OnChoose(ctx, c, k, Counting(ctx.me, value, h + 1), 1, {}, "");
      r.out == {} && r.state.acceptors == c.acceptors && r.state.lastSlot == c.lastSlot && MasterAt(r.state, value, k)
  {
    LogGrows(value, k - 1);
    assert c.proposers - {k} == map[];
  }

  /** What one more acknowledgement does: count it, or settle the slot. */
  lemma HearOne(ctx: Ctx, c: CaptainState, value: PropValue, k: nat, h: nat)
    requires MasterRuns(ctx, c, value, k, h) && h < Quorum.Size(ctx.cfg.n)
    ensures var r := HandleMsg(ctx, c, Accepted(h, k, Ballots.Next(ctx.me, 0), true), {}, "");
      HasHeard(ctx, c, r, value, k, h + 1)
  {
    var info := c.proposers[k];
    var info' := info.(proposer := Counting(ctx.me, value, h + 1));
    CountOne(ctx.me, value, h, Quorum.Size(ctx.cfg.n));
    if h + 1 < Quorum.Size(ctx.cfg.n) {
      assert c.proposers[k := info'] == map[k := info'];
    } else {
      ChooseOne(ctx, c, value, k, h);
    }
  }

  ghost predicate HasHeard(ctx: Ctx, c: CaptainState, r: Handled, value: PropValue, k: nat, h: nat)
  {
    && r.out == {} && r.state.acceptors == c.acceptors && r.state.lastSlot == c.lastSlot
    && (if h < Quorum.Size(ctx.cfg.n) then MasterRuns(ctx, r.state, value, k, h) else MasterAt(r.state, value, k))
  }

  /** The master after it has heard `h` acknowledgements; nobody else has changed. */
  ghost predicate Heard(par: Params, sys: System, sys': System, value: PropValue, k: nat, h: nat)
    requires |sys.nodes| == par.cfg.n == |par.windows| && par.cfg.master < par.cfg.n
  {
    var m := par.cfg.master;
    && |sys'.nodes| == |sys.nodes| && sys'.sent == sys.sent && sys'.commits == sys.commits
    && (forall j: nat :: j < |sys.nodes| && j != m ==> sys'.nodes[j] == sys.nodes[j])
    && sys'.nodes[m].acceptors == sys.nodes[m].acceptors && sys'.nodes[m].lastSlot == sys.nodes[m].lastSlot
    && (if h < Quorum.Size(par.cfg.n) then MasterRuns(par.At(m), sys'.nodes[m], value, k, h)
        else MasterAt(sys'.nodes[m], value, k))
  }

  lemma {:induction false} AllHeard(par: Params, sys: System, value: PropValue, k: nat, h: nat) returns (sys': System)
    requires par.Valid() && |sys.nodes| == par.cfg.n && Reachable(par, sys) && h <= Quorum.Size(par.cfg.n)
    requires MasterRuns(par.At(par.cfg.master), sys.nodes[par.cfg.master], value, k, 0) && 0 < Quorum.Size(par.cfg.n)
    requires forall j: nat :: j < Quorum.Size(par.cfg.n) ==>
      Packet(par.cfg.master, Accepted(j, k, par.cfg.MasterBallot(), true)) in sys.sent
    ensures Reachable(par, sys') && Heard(par, sys, sys', value, k, h)
  {
    if h == 0 {
      sys' := sys;
    } else {
      var sys1 := AllHeard(par, sys, value, k, h - 1);
      sys' := OneHeard(par, sys, sys1, value, k, h - 1);
    }
  }

  lemma HearAt(par: Params, sys: System, value: PropValue, k: nat, h: nat) returns (sys': System, r: Handled)
    requires par.Valid() && |sys.nodes| == par.cfg.n && Reachable(par, sys) && h < Quorum.Size(par.cfg.n)
    requires MasterRuns(par.At(par.cfg.master), sys.nodes[par.cfg.master], value, k, h)
    requires Packet(par.cfg.master, Accepted(h, k, par.cfg.MasterBallot(), true)) in sys.sent
    ensures Reachable(par, sys') && Leads(sys, sys', par.cfg.master, r)
    ensures HasHeard(par.At(par.cfg.master), sys.nodes[par.cfg.master], r, value, k, h + 1)
  {
    var m, msg := par.cfg.master, Accepted(h, k, par.cfg.MasterBallot(), true);
    HearOne(par.At(m), sys.nodes[m], value, k, h);
    sys' := Delivers(par, sys, Packet(m, msg));
    r := HandleMsg(par.At(m), sys.nodes[m], msg, {}, "");
  }

  lemma HeardMore(par: Params, sys: System, sys1: System, sys': System, value: PropValue, k: nat, h: nat, r: Handled)
    requires |sys.nodes| == par.cfg.n == |par.windows| && par.cfg.master < par.cfg.n
    requires h < Quorum.Size(par.cfg.n) && Heard(par, sys, sys1, value, k, h)
    requires HasHeard(par.At(par.cfg.master), sys1.nodes[par.cfg.master], r, value, k, h + 1)
    requires Leads(sys1, sys', par.cfg.master, r)
    ensures Heard(par, sys, sys', value, k, h + 1)
  {
  }

  lemma OneHeard(par: Params, sys: System, sys1: System, value: PropValue, k: nat, h: nat) returns (sys': System)
    requires par.Valid() && |sys.nodes| == par.cfg.n && Reachable(par, sys1) && h < Quorum.Size(par.cfg.n)
    requires Heard(par, sys, sys1, value, k, h)
    requires Packet(par.cfg.master, Accepted(h, k, par.cfg.MasterBallot(), true)) in sys.sent
    ensures Reachable(par, sys') && Heard(par, sys, sys', value, k, h + 1)
  {
    var r;
    sys', r := HearAt(par, sys1, value, k, h);
    HeardMore(par, sys, sys1, sys', value, k, h, r);
  }

  // ---------------------------------------------------------------- once more

  ghost predicate HasArrived(par: Params, sys: System, value: PropValue, k: nat, last: Option<Announcement>,
                             announced: nat)
    requires par.Valid()
  {
    var m := par.cfg.master;
    && |sys.nodes| == par.cfg.n && value in sys.commits
    && AllUntouched(par, sys, k) && Asked(par, sys, Ask(par, k + 1, value, last))
    && MasterRuns(par.At(m), sys.nodes[m], value, k + 1, 0)
    && Followers(par, sys, announced) && MayAnnounce(last, announced, sys.nodes[m].lastSlot)
  }

  lemma CommitArrives(par: Params, sys: System, sys': System, value: PropValue, k: nat, last: Option<Announcement>,
                      h: Handled)
    requires par.Valid() && Rest(par, sys, value, k)
    requires var m := par.cfg.master;
      && MasterRuns(par.At(m), h.state, value, k + 1, 0) && h.state.acceptors == sys.nodes[m].acceptors
      && MayAnnounce(last, sys.nodes[m].lastSlot, h.state.lastSlot)
      && h.out == Broadcast(Quorum.Nodes(Quorum.Size(par.cfg.n)), Ask(par, k + 1, value, last))
      && Leads(sys, sys', m, h)
    ensures HasArrived(par, sys', value, k, last, sys.nodes[par.cfg.master].lastSlot)
  {
    forall j: nat | j < |sys.nodes| ensures Untouched(par, sys'.nodes[j], k) { assert Untouched(par, sys.nodes[j], k); }
    forall j: nat | j < |sys.nodes| && j != par.cfg.master
      ensures Follower(sys'.nodes[j], sys.nodes[par.cfg.master].lastSlot)
    {
      assert Follower(sys.nodes[j], sys.nodes[par.cfg.master].lastSlot);
    }
  }

  /** The COMMIT has arrived: the master asks a quorum to accept the value in the next slot. */
  lemma Arrives(par: Params, sys: System, value: PropValue, k: nat) returns (sys': System, last: Option<Announcement>)
    requires par.Valid() && Reachable(par, sys) && Rest(par, sys, value, k)
    ensures Reachable(par, sys') && HasArrived(par, sys', value, k, last, sys.nodes[par.cfg.master].lastSlot)
  {
    var m, asked := par.cfg.master, Quorum.Nodes(Quorum.Size(par.cfg.n));
    Quorum.SizeIsMajority(par.cfg.n);
    last := CommitStarts(par.At(m), sys.nodes[m], value, asked, k);
    StepIsReachable(par, sys, DeliverCommit(value, asked));
    sys' := Cluster.Apply(par, sys, DeliverCommit(value, asked));
    CommitArrives(par, sys, sys', value, k, last, Commit(par.At(m), sys.nodes[m], value, "", asked));
  }

  lemma WillAckAll(par: Params, sys: System, value: PropValue, k: nat, last: Option<Announcement>, announced: nat)
    requires par.Valid() && |sys.nodes| == par.cfg.n && AllUntouched(par, sys, k) && Followers(par, sys, announced)
    requires sys.nodes[par.cfg.master].work && (last.Some? ==> last.value.slot == announced + 1)
    ensures AllWillAck(par, sys, Ask(par, k + 1, value, last))
  {
    forall j: nat | j < |sys.nodes| ensures WillAck(par.At(j), sys.nodes[j], Ask(par, k + 1, value, last)) {
      assert Untouched(par, sys.nodes[j], k);
      if j != par.cfg.master { assert Follower(sys.nodes[j], announced); }
    }
  }

  lemma LogsAreOk(par: Params, sys: System)
    requires par.Valid() && Reachable(par, sys)
    ensures forall j: nat :: j < |sys.nodes| ==> Ok(sys.nodes[j].log)
  {
    var run, events :| EndsAt(par, run, events, sys);
    forall j: nat | j < |sys.nodes| ensures Ok(sys.nodes[j].log) { RunNode(par, run, events, |events|, j); }
  }

  /** What acceptance leaves of the state before it. */
  lemma AfterAcks(par: Params, sys: System, sys': System, m: Msg, k: nat, announced: nat, announced': nat)
    requires par.Valid() && |sys.nodes| == par.cfg.n && m.Accept? && m.slot == k + 1
    requires AckedBy(par, sys, sys', m, Quorum.Size(par.cfg.n)) && AllUntouched(par, sys, k)
    requires Followers(par, sys, announced) && MayAnnounce(m.last, announced, announced')
    ensures AllUntouched(par, sys', k + 1) && Followers(par, sys', announced')
  {
    forall j: nat | j < |sys.nodes| ensures Untouched(par, sys'.nodes[j], k + 1) {
      assert Accepts(sys.nodes[j], sys'.nodes[j], m, m.src != j) && Untouched(par, sys.nodes[j], k);
    }
    forall j: nat | j < |sys.nodes| && j != par.cfg.master ensures Follower(sys'.nodes[j], announced') {
      assert Accepts(sys.nodes[j], sys'.nodes[j], m, m.src != j) && Follower(sys.nodes[j], announced);
    }
  }

  /** The COMMIT is delivered, and its value is settled in one more slot. */
  lemma OnceMore(par: Params, sys: System, value: PropValue, k: nat) returns (sys': System)
    requires par.Valid() && Reachable(par, sys) && Rest(par, sys, value, k)
    ensures Reachable(par, sys') && Rest(par, sys', value, k + 1)
  {
    var m, q, announced := par.cfg.master, Quorum.Size(par.cfg.n), sys.nodes[par.cfg.master].lastSlot;
    Quorum.SizeIsMajority(par.cfg.n);
    var sys1, last := Arrives(par, sys, value, k);
    var ask := Ask(par, k + 1, value, last);
    WillAckAll(par, sys1, value, k, last, announced);
    LogsAreOk(par, sys1);
    var sys2 := AllAck(par, sys1, ask, q);
    AfterAcks(par, sys1, sys2, ask, k, announced, sys1.nodes[m].lastSlot);
    assert Accepts(sys1.nodes[m], sys2.nodes[m], ask, false);
    sys' := AllHeard(par, sys2, value, k + 1, q);
  }

  /** One COMMIT that is delivered `k` times. */
  lemma {:induction false} AsOften(par: Params, k: nat) returns (sys: System, value: PropValue)
    requires par.Valid() && par.cfg.n >= 2
    ensures Reachable(par, sys) && Rest(par, sys, value, k)
  {
    if k == 0 {
      sys, value := SendOne(par);
    } else {
      var sys1;
      sys1, value := AsOften(par, k - 1);
      sys := OnceMore(par, sys1, value, k - 1);
    }
  }

  lemma RestIsInRange(par: Params, sys: System, value: PropValue, k: nat)
    requires Rest(par, sys, value, k)
    ensures InRange(par, sys)
  {
    forall s: nat ensures NobodyCame(par, sys, s) {
      forall i: nat | i < par.cfg.master && i < |sys.nodes| ensures s !in sys.nodes[i].placed {
        assert Follower(sys.nodes[i], sys.nodes[par.cfg.master].lastSlot);
      }
    }
  }

  /** In every cluster of two nodes or more, one COMMIT delivered k times gets its value settled in slots
      1 to k, and delivered k times by the master. */
  lemma SettledAsOften(par: Params, k: nat) returns (sys: System, value: PropValue)
    requires par.Valid() && par.cfg.n >= 2
    ensures Reachable(par, sys) && InRange(par, sys) && |sys.nodes| == par.cfg.n
    ensures sys.nodes[par.cfg.master].log.delivered == seq(k, i requires 0 <= i < k => Delivery(i + 1, value))
    ensures forall s :: 1 <= s <= k ==> Settled(sys, s, value)
  {
    sys, value := AsOften(par, k);
    RestIsInRange(par, sys, value, k);
    var run, events :| EndsAt(par, run, events, sys);
    forall s | 1 <= s <= k ensures Settled(sys, s, value) {
      RunLearnsTheChosen(par, run, events, |events|, par.cfg.master, s);
    }
  }

  // ---------------------------------------------------------------- a cluster of one

  /** A node on its own sends no COMMIT. */
  lemma {:induction false} AloneSendsNothing(par: Params, run: seq<System>, events: seq<Event>, k: nat)
    requires par.Valid() && Cluster.IsRun(par, run, events) && k < |run| && par.cfg.n == 1
    ensures run[k].commits == {} && (k > 0 ==> !events[k - 1].DeliverCommit?)
  {
    if k > 0 {
      LastNext(par, run, events, k);
      AloneSendsNothing(par, run, events, k - 1);
    }
  }

  lemma AloneIsOnce(par: Params, run: seq<System>, events: seq<Event>)
    requires par.Valid() && Cluster.IsRun(par, run, events) && par.cfg.n == 1
    ensures CommitsOnce(events, |events|)
  {
    forall a | 0 <= a < |events| ensures !events[a].DeliverCommit? { AloneSendsNothing(par, run, events, a + 1); }
  }

  // ---------------------------------------------------------------- exactly there

  /** In every reachable state in range no id is settled in two slots. */
  ghost predicate SettlesOnce(par: Params)
    requires par.Valid()
  {
    forall sys, s, t, value :: Reachable(par, sys) && InRange(par, sys) ==>
      Settled(sys, s, value) && SettledId(sys, t, value.id) ==> s == t
  }

  /** In every reachable state in range no node has delivered an id twice. */
  ghost predicate DeliversOnce(par: Params)
    requires par.Valid()
  {
    forall sys, i: nat, a: nat, b: nat :: Reachable(par, sys) && InRange(par, sys) && i < |sys.nodes| ==>
      var d := sys.nodes[i].log.delivered;
      a < |d| && b < |d| && d[a].value.id == d[b].value.id ==> a == b
  }

  /** Without a promise about COMMITs values appear once if and only if there is one node. */
  lemma OnceIff(par: Params)
    requires par.Valid()
    ensures SettlesOnce(par) <==> par.cfg.n == 1
    ensures DeliversOnce(par) <==> par.cfg.n == 1
  {
    if par.cfg.n == 1 {
      AloneSettlesOnce(par);
      AloneDeliversOnce(par);
    } else {
      var sys, value := SettledAsOften(par, 2);
      assert Settled(sys, 1, value) && Settled(sys, 2, value);
      var d := sys.nodes[par.cfg.master].log.delivered;
      assert d[0].value.id == d[1].value.id;
    }
  }

  lemma AloneSettlesOnce(par: Params)
    requires par.Valid() && par.cfg.n == 1
    ensures SettlesOnce(par)
  {
    forall sys, s, t, value | Reachable(par, sys) && InRange(par, sys) && Settled(sys, s, value)
      && SettledId(sys, t, value.id)
      ensures s == t
    {
      var run, events :| EndsAt(par, run, events, sys);
      AloneIsOnce(par, run, events);
      RunOneSlotPerValue(par, run, events, |events|, |events|, s, t, value);
    }
  }

  lemma AloneDeliversOnce(par: Params)
    requires par.Valid() && par.cfg.n == 1
    ensures DeliversOnce(par)
  {
    forall sys, i: nat, a: nat, b: nat | Reachable(par, sys) && InRange(par, sys) && i < |sys.nodes|
      ensures var d := sys.nodes[i].log.delivered; a < |d| && b < |d| && d[a].value.id == d[b].value.id ==> a == b
    {
      var run, events :| EndsAt(par, run, events, sys);
      AloneIsOnce(par, run, events);
      RunDeliveredOnce(par, run, events, |events|, i, a, b);
    }
  }
}
