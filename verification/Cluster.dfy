/** The whole cluster: n nodes, all packets ever sent, and the client submissions.  A packet that was
    sent can be delivered at any later time, any number of times, or never. */
module Cluster {
  import opened Types
  import opened Ballots
  import opened SlotPaxos
  import opened ChosenLog
  import opened Replica
  import opened Refinement
  import Quorum

  datatype Params = Params(cfg: Config, windows: seq<nat>) {
    ghost predicate Valid()
    {
      cfg.Valid() && |windows| == cfg.n && forall i :: 0 <= i < |windows| ==> windows[i] >= 1
    }

    ghost function At(i: nat): Ctx
      requires i < |windows|
    {
      Ctx(cfg, i, windows[i])
    }
  }

  /** `commits` are the COMMIT messages sent to the master; like any packet they can be delivered any
      number of times.  `issued` is history: every value that was given an id. */
  datatype System = System(nodes: seq<CaptainState>, sent: set<Packet>, commits: set<PropValue>, issued: set<PropValue>)

  datatype Event =
    | Deliver(p: Packet, asked: set<nat>, name: string)
    | DeliverLog(i: nat, p: Packet)
    | ServeLog(i: nat, slot: nat)
    | SendDecide(i: nat, slot: nat, dst: nat)
    | ClientCommit(i: nat, data: string, client: string, asked: set<nat>)
    | DeliverCommit(value: PropValue, asked: set<nat>)
    | Contends(i: nat, slot: nat, data: string, client: string, asked: set<nat>)
    | Crash(i: nat)

  ghost function Start(par: Params): System
    requires par.Valid()
  {
    System(seq(par.cfg.n, i requires 0 <= i < par.cfg.n => Initial(par.At(i))), {}, {}, {})
  }

  /** A new value at node `c`, with the next id of that node. */
  ghost function NextValue(c: CaptainState, data: string): PropValue
  {
    PropValue(c.valueId + STEP, data)
  }

  ghost function Counted(c: CaptainState): CaptainState
  {
    c.(valueId := c.valueId + STEP)
  }

  ghost predicate Enabled(par: Params, sys: System, e: Event)
  {
    var nodes := Quorum.Nodes(par.cfg.n);
    match e
    case Deliver(p, asked, _) => p in sys.sent && p.dst < |sys.nodes| && asked <= nodes
    case DeliverLog(i, p) => i < |sys.nodes| && p in sys.sent && p.msg.LogData?
    case ServeLog(i, slot) => i < |sys.nodes| && Has(sys.nodes[i].log, slot)
    case SendDecide(i, slot, _) => i < |sys.nodes| && Has(sys.nodes[i].log, slot)
    case ClientCommit(i, _, _, asked) => i < |sys.nodes| && asked <= nodes
    case DeliverCommit(value, asked) => value in sys.commits && asked <= nodes
    case Contends(i, slot, _, _, asked) =>
      && i < |sys.nodes| <= |par.windows| && slot > sys.nodes[i].maxSlot
      && |sys.nodes[i].proposers| < par.windows[i] && asked <= nodes
    case Crash(i) => i < |sys.nodes|
  }

  /** The node that takes the event. */
  ghost function Actor(par: Params, e: Event): nat
  {
    match e
    case Deliver(p, _, _) => p.dst
    case DeliverCommit(_, _) => par.cfg.master
    case DeliverLog(i, _) => i
    case ServeLog(i, _) => i
    case SendDecide(i, _, _) => i
    case ClientCommit(i, _, _, _) => i
    case Contends(i, _, _, _, _) => i
    case Crash(i) => i
  }

  /** What that node does. */
  ghost function Does(par: Params, sys: System, e: Event): Handled
    requires par.Valid() && |sys.nodes| == par.cfg.n && Enabled(par, sys, e)
  {
    var i := Actor(par, e);
    var ctx, c := par.At(i), sys.nodes[i];
    match e
    case Deliver(p, asked, name) => HandleMsg(ctx, c, p.msg, asked, name)
    case DeliverLog(_, p) => Handled(OnLogData(c, p.msg.slot, p.msg.value), {})
    case ServeLog(_, slot) => Handled(c, {Packet(i, LogData(slot, c.log.values[slot].value))})
    case SendDecide(_, slot, dst) => Handled(c, {Packet(dst, Decide(i, slot, c.log.values[slot].value.id))})
    case ClientCommit(_, data, client, asked) =>
      if i == par.cfg.master then Commit(ctx, Counted(c), NextValue(c, data), client, asked)
        else Handled(Counted(c), {})
    case DeliverCommit(value, asked) => if c.work then Commit(ctx, c, value, "", asked) else Handled(c, {})
    case Contends(_, slot, data, client, asked) => Contend(ctx, Counted(c), slot, NextValue(c, data), client, asked)
    case Crash(_) => Handled(c.(work := false), {})
  }

  /** The value that is given an id, if any, and the one that is sent to the master. */
  ghost function Issues(sys: System, e: Event): set<PropValue>
    requires (e.ClientCommit? || e.Contends?) ==> e.i < |sys.nodes|
  {
    if e.ClientCommit? || e.Contends? then {NextValue(sys.nodes[e.i], e.data)} else {}
  }

  ghost function Sends(par: Params, sys: System, e: Event): set<PropValue>
    requires (e.ClientCommit? || e.Contends?) ==> e.i < |sys.nodes|
  {
    if e.ClientCommit? && e.i != par.cfg.master then Issues(sys, e) else {}
  }

  ghost function Apply(par: Params, sys: System, e: Event): System
    requires par.Valid() && |sys.nodes| == par.cfg.n && Enabled(par, sys, e)
  {
    var h := Does(par, sys, e);
    System(sys.nodes[Actor(par, e) := h.state], sys.sent + h.out, sys.commits + Sends(par, sys, e),
           sys.issued + Issues(sys, e))
  }

  ghost predicate Next(par: Params, sys: System, e: Event, sys': System)
    requires par.Valid()
  {
    |sys.nodes| == par.cfg.n && Enabled(par, sys, e) && sys' == Apply(par, sys, e)
  }

  ghost predicate StepAt(par: Params, run: seq<System>, events: seq<Event>, k: nat)
    requires par.Valid() && k < |events| && |run| == |events| + 1
  {
    Next(par, run[k], events[k], run[k + 1])
  }

  ghost predicate IsRun(par: Params, run: seq<System>, events: seq<Event>)
    requires par.Valid()
  {
    && |run| == |events| + 1
    && run[0] == Start(par)
    && forall k: nat :: k < |events| ==> StepAt(par, run, events, k)
  }

  /** Every slot that the master has started in phase II begins promised to its first ballot, or no node
      with a smaller id, which could use a smaller ballot, has come to it. */
  ghost predicate InRange(par: Params, sys: System)
  {
    && par.cfg.master < |sys.nodes|
    && forall s :: s in sys.nodes[par.cfg.master].fast ==> par.cfg.PrePromised(s) || NobodyCame(par, sys, s)
  }

  ghost predicate NobodyCame(par: Params, sys: System, s: nat)
  {
    forall i: nat :: i < par.cfg.master && i < |sys.nodes| ==> s !in sys.nodes[i].placed
  }

  /** The cluster as slot `s` sees it. */
  ghost function View(sys: System, s: nat): SlotState
  {
    SlotState(seq(|sys.nodes|, i requires 0 <= i < |sys.nodes| => NodeAt(sys.nodes[i], s)), SlotPackets(sys.sent, s))
  }
}
