/** What a proposer remembers, over all its rounds, of the accepted pairs that promises reported. */
module Reports {
  import opened Types
  import opened Collections
  import opened Proposers
  import opened SlotPaxos
  import opened Replica
  import opened ReplicaSafety
  import opened Refinement
  import opened Reactions
  import Cluster
  import ClusterLocal
  import SlotSafety
  import Quorum

  /** The ballot remembered never falls, and its value changes only when it rises. */
  ghost predicate Retains(p: ProposerState, p': ProposerState)
  {
    p.maxBallot <= p'.maxBallot && (p'.maxBallot == p.maxBallot ==> p'.maxValue == p.maxValue)
  }

  /** A node that has come to a slot does not leave it, a proposer that is done stays so, and one that runs
      on retains what it remembers. */
  ghost predicate RoleRetains(r: Role, r': Role)
  {
    !r.Idle? ==> !r'.Idle? && (r'.Running? ==> r.Running? && Retains(r.p, r'.p))
  }

  /** A proposer in phase II proposes the value it remembers, or its own if it remembers none. */
  ghost predicate ProposesBest(r: Role)
  {
    r.Running? && r.p.currValue.Some? ==>
      r.p.currValue.value == if r.p.maxValue.Some? then r.p.maxValue.value else r.p.initValue
  }

  // ---------------------------------------------------------------- one step

  /** Scanning without a larger report changes nothing. */
  lemma {:induction false} BestRises(acks: map<nat, PromiseAck>, from: set<nat>, ballot: nat, value: Option<PropValue>)
    requires from <= acks.Keys
    ensures var best := Best(acks, from, ballot, value);
      ballot <= best.0 && (best.0 == ballot ==> best.1 == value)
  {
    if from != {} { BestRises(acks, from - {MaxKey(from)}, ballot, value); }
  }

  lemma PromiseRetains(p: ProposerState, src: nat, ack: PromiseAck, q: int)
    ensures Retains(p, OnPromise(p, src, ack, q).0)
  {
    var acks := p.promises[src := ack];
    BestRises(acks, acks.Keys, p.maxBallot, p.maxValue);
  }

  /** What any step but a first one makes of a role. */
  lemma HandleRetains(n: nat, slot: nat, me: nat, ns: NodeSlot, step: SlotStep)
    requires step.Handle?
    ensures var r := Local(n, slot, me, ns, step).0.role;
      RoleRetains(ns.role, r) && (ProposesBest(ns.role) ==> ProposesBest(r))
  {
    if step.m.Promise? && ns.role.Running? {
      var m := step.m;
      PromiseRetains(ns.role.p, m.src, PromiseAck(m.ballot, m.reply, m.maxBallot, m.maxValue), Quorum.Size(n));
    }
  }

  lemma BeginRetains(n: nat, slot: nat, me: nat, ns: NodeSlot, step: SlotStep)
    requires ns.role.Idle? && !step.Handle?
    ensures var r := Local(n, slot, me, ns, step).0.role; RoleRetains(ns.role, r) && ProposesBest(r)
  {
  }

  lemma RetainsTwice(a: Role, b: Role, c: Role)
    requires RoleRetains(a, b) && RoleRetains(b, c)
    ensures RoleRetains(a, c)
  {
  }

  lemma RetainsItself(r: Role)
    ensures RoleRetains(r, r)
  {
  }

  // ---------------------------------------------------------------- runs of a slot

  lemma MoveRetains(cfg: Config, slot: nat, run: seq<SlotState>, moves: seq<SlotSafety.Move>, k: nat, i: nat)
    requires SlotSafety.IsRun(cfg, slot, run, moves) && k < |moves| && i < |run[k].nodes|
    ensures |run[k + 1].nodes| == |run[k].nodes| && RoleRetains(run[k].nodes[i].role, run[k + 1].nodes[i].role)
    ensures ProposesBest(run[k].nodes[i].role) ==> ProposesBest(run[k + 1].nodes[i].role)
  {
    var move := moves[k];
    assert SlotSafety.Moves(cfg, slot, run[k], move, run[k + 1]);
    if i == move.node {
      if move.step.Handle? {
        HandleRetains(cfg.n, slot, i, run[k].nodes[i], move.step);
      } else {
        BeginRetains(cfg.n, slot, i, run[k].nodes[i], move.step);
      }
    }
  }

  lemma {:induction false} RunSize(cfg: Config, slot: nat, run: seq<SlotState>, moves: seq<SlotSafety.Move>, k: nat)
    requires SlotSafety.IsRun(cfg, slot, run, moves) && k < |run|
    ensures |run[k].nodes| == cfg.n
  {
    if k > 0 {
      RunSize(cfg, slot, run, moves, k - 1);
      assert SlotSafety.Moves(cfg, slot, run[k - 1], moves[k - 1], run[k]);
    }
  }

  /** Between any two moments of any run of a slot. */
  lemma {:induction false} RunRetains(cfg: Config, slot: nat, run: seq<SlotState>, moves: seq<SlotSafety.Move>, k: nat,
                                      l: nat, i: nat)
    requires SlotSafety.IsRun(cfg, slot, run, moves) && k <= l < |run| && i < cfg.n
    ensures |run[k].nodes| == |run[l].nodes| == cfg.n && RoleRetains(run[k].nodes[i].role, run[l].nodes[i].role)
  {
    RunSize(cfg, slot, run, moves, k);
    if k < l {
      RunRetains(cfg, slot, run, moves, k, l - 1, i);
      MoveRetains(cfg, slot, run, moves, l - 1, i);
      RetainsTwice(run[k].nodes[i].role, run[l - 1].nodes[i].role, run[l].nodes[i].role);
    }
  }

  lemma {:induction false} RunProposesBest(cfg: Config, slot: nat, run: seq<SlotState>, moves: seq<SlotSafety.Move>,
                                           k: nat, i: nat)
    requires SlotSafety.IsRun(cfg, slot, run, moves) && k < |run| && i < cfg.n
    ensures |run[k].nodes| == cfg.n && ProposesBest(run[k].nodes[i].role)
  {
    RunSize(cfg, slot, run, moves, k);
    if k > 0 {
      RunProposesBest(cfg, slot, run, moves, k - 1, i);
      MoveRetains(cfg, slot, run, moves, k - 1, i);
    }
  }

  /** The promises of the round that `m` is counted in. */
  ghost function Round(p: ProposerState, m: Msg): map<nat, PromiseAck>
    requires m.Promise?
  {
    p.promises[m.src := PromiseAck(m.ballot, m.reply, m.maxBallot, m.maxValue)]
  }

  /** With `m`, which is not stale, a quorum has answered in phase I: the round ends, one way or the other. */
  ghost predicate EndsRound(n: nat, p: ProposerState, m: Msg)
  {
    m.Promise? && p.currValue.None? && m.ballot >= p.currBallot && |Round(p, m)| >= Quorum.Size(n)
  }

  /** Nothing that the round reports is above what is remembered. */
  ghost predicate Covers(p: ProposerState, acks: map<nat, PromiseAck>)
  {
    forall j :: j in acks && acks[j].reply ==> acks[j].maxBallot <= p.maxBallot
  }

  lemma EndCovers(n: nat, slot: nat, me: nat, ns: NodeSlot, step: SlotStep)
    requires ns.role.Running? && step.Handle? && EndsRound(n, ns.role.p, step.m)
    ensures var r := Local(n, slot, me, ns, step).0.role; r.Running? && Covers(r.p, Round(ns.role.p, step.m))
  {
    var p, acks := ns.role.p, Round(ns.role.p, step.m);
    BestIsMaximum(acks, acks.Keys, p.maxBallot, p.maxValue);
  }

  /** Once a round has ended, the proposer remembers at least the largest ballot reported in it, through
      all its later rounds; and whenever it proposes, it proposes the value it remembers. */
  lemma RunRemembers(cfg: Config, slot: nat, run: seq<SlotState>, moves: seq<SlotSafety.Move>, k: nat, l: nat)
    requires SlotSafety.IsRun(cfg, slot, run, moves) && k < l < |run| && moves[k].step.Handle?
    requires var i := moves[k].node;
      && i < cfg.n == |run[k].nodes| == |run[l].nodes|
      && run[k].nodes[i].role.Running? && EndsRound(cfg.n, run[k].nodes[i].role.p, moves[k].step.m)
      && run[l].nodes[i].role.Running?
    ensures var p, p' := run[k].nodes[moves[k].node].role.p, run[l].nodes[moves[k].node].role.p;
      && Covers(p', Round(p, moves[k].step.m))
      && (p'.currValue.Some? ==> p'.currValue.value == if p'.maxValue.Some? then p'.maxValue.value else p'.initValue)
  {
    var i := moves[k].node;
    assert SlotSafety.Moves(cfg, slot, run[k], moves[k], run[k + 1]);
    EndCovers(cfg.n, slot, i, run[k].nodes[i], moves[k].step);
    RunRetains(cfg, slot, run, moves, k + 1, l, i);
    RunProposesBest(cfg, slot, run, moves, l, i);
  }

  // ---------------------------------------------------------------- runs of the cluster

  lemma FollowingRetains(ctx: Ctx, c: CaptainState, h: Handled, s: nat, m: Option<Msg>, asked: set<nat>)
    requires Follows(ctx, c, h, s, m, asked)
    ensures RoleRetains(RoleAt(c, s), RoleAt(h.state, s))
  {
    if !Stutters(c, h, s) {
      var step :| Legal(ctx, c, s, step, m, asked) && Takes(ctx, c, h, s, step);
      if step.Handle? {
        HandleRetains(ctx.cfg.n, s, ctx.me, NodeAt(c, s), step);
      } else {
        BeginRetains(ctx.cfg.n, s, ctx.me, NodeAt(c, s), step);
      }
    }
  }

  lemma NextRetains(par: Cluster.Params, sys: Cluster.System, e: Cluster.Event, sys': Cluster.System, i: nat, s: nat)
    requires par.Valid() && Cluster.Next(par, sys, e, sys') && i < par.cfg.n && CaptainOk(par.At(i), sys.nodes[i])
    ensures |sys'.nodes| == par.cfg.n && RoleRetains(RoleAt(sys.nodes[i], s), RoleAt(sys'.nodes[i], s))
  {
    if i == Cluster.Actor(par, e) {
      ClusterLocal.DoesFollows(par, sys, e, s);
      FollowingRetains(par.At(i), sys.nodes[i], Cluster.Does(par, sys, e), s, ClusterLocal.Received(e),
        ClusterLocal.AskedBy(e));
    }
  }

  lemma RunHasNodes(par: Cluster.Params, run: seq<Cluster.System>, events: seq<Cluster.Event>, k: nat)
    requires par.Valid() && Cluster.IsRun(par, run, events) && k < |run|
    ensures |run[k].nodes| == par.cfg.n
  {
    ClusterLocal.RunLocal(par, run, events, k);
  }

  lemma OneStepRetains(par: Cluster.Params, run: seq<Cluster.System>, events: seq<Cluster.Event>, k: nat, i: nat,
                       s: nat)
    requires par.Valid() && Cluster.IsRun(par, run, events) && 0 < k < |run| && i < par.cfg.n
    ensures |run[k - 1].nodes| == |run[k].nodes| == par.cfg.n
    ensures RoleRetains(RoleAt(run[k - 1].nodes[i], s), RoleAt(run[k].nodes[i], s))
  {
    ClusterLocal.RunNode(par, run, events, k - 1, i);
    ClusterLocal.LastNext(par, run, events, k);
    NextRetains(par, run[k - 1], events[k - 1], run[k], i, s);
  }

  /** The proposers of every node retain what they remember, in every slot and over every run. */
  lemma {:induction false} RunNodeRetains(par: Cluster.Params, run: seq<Cluster.System>, events: seq<Cluster.Event>,
                                          k: nat, l: nat, i: nat, s: nat)
    requires par.Valid() && Cluster.IsRun(par, run, events) && k <= l < |run| && i < par.cfg.n
    ensures |run[k].nodes| == |run[l].nodes| == par.cfg.n
    ensures RoleRetains(RoleAt(run[k].nodes[i], s), RoleAt(run[l].nodes[i], s))
  {
    if k == l {
      RunHasNodes(par, run, events, k);
      RetainsItself(RoleAt(run[k].nodes[i], s));
    } else {
      RunNodeRetains(par, run, events, k, l - 1, i, s);
      OneStepRetains(par, run, events, l, i, s);
      RetainsTwice(RoleAt(run[k].nodes[i], s), RoleAt(run[l - 1].nodes[i], s), RoleAt(run[l].nodes[i], s));
    }
  }

  /** This event ends a round of phase I in slot `s` at a working node. */
  ghost predicate EndsRoundAt(par: Cluster.Params, sys: Cluster.System, e: Cluster.Event, i: nat, s: nat)
  {
    && e.Deliver? && e.p.dst == i < |sys.nodes| && e.p.msg.slot == s && sys.nodes[i].work
    && HearsPromise(sys.nodes[i], e.p.msg) && e.p.msg.ballot >= sys.nodes[i].proposers[s].proposer.currBallot
    && |Heard(sys.nodes[i], e.p.msg)| >= Quorum.Size(par.cfg.n)
  }

  /** If it ends a round there, all that the round reported is remembered afterwards. */
  ghost predicate EndIsRemembered(par: Cluster.Params, sys: Cluster.System, e: Cluster.Event, sys': Cluster.System,
                                  i: nat, s: nat)
  {
    EndsRoundAt(par, sys, e, i, s) ==>
      && i < |sys'.nodes| && s in sys'.nodes[i].proposers
      && Covers(sys'.nodes[i].proposers[s].proposer, Heard(sys.nodes[i], e.p.msg))
  }

  lemma NextRemembers(par: Cluster.Params, sys: Cluster.System, e: Cluster.Event, sys': Cluster.System, i: nat, s: nat)
    requires par.Valid() && Cluster.Next(par, sys, e, sys') && i < par.cfg.n && CaptainOk(par.At(i), sys.nodes[i])
    ensures EndIsRemembered(par, sys, e, sys', i, s)
  {
    if EndsRoundAt(par, sys, e, i, s) { PromiseIsCounted(par.At(i), sys.nodes[i], e.p.msg, e.asked, e.name); }
  }

  lemma StillCovers(c: CaptainState, c': CaptainState, s: nat, acks: map<nat, PromiseAck>)
    requires RoleRetains(RoleAt(c, s), RoleAt(c', s)) && s in c'.proposers
    requires s in c.proposers && Covers(c.proposers[s].proposer, acks)
    ensures Covers(c'.proposers[s].proposer, acks)
  {
  }

  lemma OneStepRemembers(par: Cluster.Params, run: seq<Cluster.System>, events: seq<Cluster.Event>, k: nat, i: nat,
                         s: nat)
    requires par.Valid() && Cluster.IsRun(par, run, events) && 0 < k < |run| && i < par.cfg.n
    ensures EndIsRemembered(par, run[k - 1], events[k - 1], run[k], i, s)
  {
    ClusterLocal.RunNode(par, run, events, k - 1, i);
    ClusterLocal.LastNext(par, run, events, k);
    NextRemembers(par, run[k - 1], events[k - 1], run[k], i, s);
  }

  /** A promise that ends a round at a working node is remembered there for as long as the proposer of that
      slot runs. */
  lemma RunNodeRemembers(par: Cluster.Params, run: seq<Cluster.System>, events: seq<Cluster.Event>, k: nat, l: nat,
                         i: nat, s: nat)
    requires par.Valid() && Cluster.IsRun(par, run, events) && k < l < |run| && i < par.cfg.n
    requires EndsRoundAt(par, run[k], events[k], i, s)
    requires i < |run[l].nodes| && s in run[l].nodes[i].proposers
    ensures Covers(run[l].nodes[i].proposers[s].proposer, Heard(run[k].nodes[i], events[k].p.msg))
  {
    OneStepRemembers(par, run, events, k + 1, i, s);
    RunNodeRetains(par, run, events, k + 1, l, i, s);
    StillCovers(run[k + 1].nodes[i], run[l].nodes[i], s, Heard(run[k].nodes[i], events[k].p.msg));
  }
}
