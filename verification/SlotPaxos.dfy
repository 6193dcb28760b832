/** The protocol of one log slot: every node is an acceptor, any node may run a proposer in two
    phases, and the configured master may start directly in phase II.  Messages can be lost,
    duplicated and reordered: a packet that was sent once can be handled any number of times. */
module SlotPaxos {
  import opened Types
  import opened Acceptors
  import opened Proposers
  import opened Ballots
  import Quorum

  /** What all nodes share.  The acceptors of slots 1..length start promised to the master's first
      ballot. */
  datatype Config = Config(n: nat, master: nat, length: nat) {
    ghost predicate Valid() { master < n <= STEP }

    ghost function MasterBallot(): nat { STEP + master }

    ghost predicate PrePromised(slot: nat) { 1 <= slot <= length }

    ghost function FirstAcceptor(slot: nat): AcceptorState
    {
      if PrePromised(slot) then FRESH.(maxProposed := MasterBallot()) else FRESH
    }
  }

  datatype Role = Idle | Running(p: ProposerState) | Done(init: PropValue)

  datatype NodeSlot = NodeSlot(acc: AcceptorState, role: Role)

  datatype SlotState = SlotState(nodes: seq<NodeSlot>, msgs: set<Packet>)

  datatype SlotStep =
    | BeginPrepare(value: PropValue, asked: set<nat>)
    | BeginFast(value: PropValue, asked: set<nat>, last: Option<Announcement>)
    | Handle(m: Msg, asked: set<nat>, acked: bool)

  /** What a step does at the node `me` that takes it: its new state and the packets it sends.
      `asked` are the nodes a broadcast goes to; an acceptor may fail to acknowledge. */
  ghost function Local(n: nat, slot: nat, me: nat, ns: NodeSlot, step: SlotStep): (NodeSlot, set<Packet>)
  {
    var q := Quorum.Size(n);
    match step
    case BeginPrepare(value, asked) =>
      (ns.(role := Running(Prepared(me, value))), Broadcast(asked, Prepare(me, slot, Next(me, 0))))
    case BeginFast(value, asked, last) =>
      (ns.(role := Running(FastStarted(me, value))), Broadcast(asked, Accept(me, slot, Next(me, 0), value, last)))
    case Handle(m, asked, acked) =>
      match m
      case Prepare(src, _, ballot) =>
        (ns.(acc := OnPrepare(ns.acc, ballot)), {Packet(src, PromiseReply(ns.acc, me, slot, ballot))})
      case Accept(src, _, ballot, value, _) =>
        (ns.(acc := OnAccept(ns.acc, ballot, value)),
         if acked then {Packet(src, AcceptReply(ns.acc, me, slot, ballot))} else {})
      case Promise(src, _, ballot, reply, maxBallot, maxValue) =>
        if !ns.role.Running? then (ns, {}) else
        var (p, result) := OnPromise(ns.role.p, src, PromiseAck(ballot, reply, maxBallot, maxValue), q);
        if result == Continue then
          (ns.(role := Running(p)), Broadcast(asked, Accept(me, slot, p.currBallot, p.currValue.value, None)))
        else if result == Restart then
          var p1 := Restarted(p, me);
          (ns.(role := Running(p1)), Broadcast(asked, Prepare(me, slot, p1.currBallot)))
        else (ns.(role := Running(p)), {})
      case Accepted(src, _, ballot, reply) =>
        if !ns.role.Running? then (ns, {}) else
        var (p, result) := OnAccepted(ns.role.p, src, AcceptAck(ballot, reply), q);
        if result == Choose then (ns.(role := Done(p.initValue)), {})
        else if result == Restart then
          var p1 := Restarted(p, me);
          (ns.(role := Running(p1)), Broadcast(asked, Prepare(me, slot, p1.currBallot)))
        else (ns.(role := Running(p)), {})
      case _ => (ns, {})
  }

  ghost predicate Enabled(cfg: Config, slot: nat, st: SlotState, i: nat, step: SlotStep)
  {
    && i < |st.nodes|
    && step.asked <= Quorum.Nodes(cfg.n)
    && match step
       case BeginPrepare(_, _) => st.nodes[i].role.Idle?
       case BeginFast(_, _, _) => st.nodes[i].role.Idle? && i == cfg.master
       case Handle(m, _, _) => Packet(i, m) in st.msgs
  }

  ghost function Apply(cfg: Config, slot: nat, st: SlotState, i: nat, step: SlotStep): SlotState
    requires i < |st.nodes|
  {
    var (ns, out) := Local(cfg.n, slot, i, st.nodes[i], step);
    SlotState(st.nodes[i := ns], st.msgs + out)
  }

  ghost function Start(cfg: Config, slot: nat): SlotState
  {
    SlotState(seq(cfg.n, _ => NodeSlot(cfg.FirstAcceptor(slot), Idle)), {})
  }

  // ---------------------------------------------------------------- what has been chosen

  ghost function Voters(st: SlotState, ballot: nat): set<nat>
  {
    set i: nat | i < |st.nodes| && ballot in st.nodes[i].acc.voted
  }

  ghost predicate IsAccept(m: Msg, ballot: nat, id: nat)
  {
    m.Accept? && m.ballot == ballot && m.value.id == id
  }

  ghost predicate ProposedId(st: SlotState, ballot: nat, id: nat)
  {
    exists p :: p in st.msgs && IsAccept(p.msg, ballot, id)
  }

  ghost predicate Proposed(st: SlotState, ballot: nat)
  {
    exists p :: p in st.msgs && p.msg.Accept? && p.msg.ballot == ballot
  }

  /** A quorum has accepted value id `id` at `ballot`. */
  ghost predicate ChosenAt(st: SlotState, ballot: nat, id: nat)
  {
    |Voters(st, ballot)| >= Quorum.Size(|st.nodes|) && ProposedId(st, ballot, id)
  }

  ghost predicate ChosenId(st: SlotState, id: nat)
  {
    exists ballot :: ChosenAt(st, ballot, id)
  }

  /** The nodes that have not accepted at `ballot` and never will. */
  ghost function Refusers(st: SlotState, ballot: nat): set<nat>
  {
    set i: nat | i < |st.nodes| && ballot < st.nodes[i].acc.maxProposed && ballot !in st.nodes[i].acc.voted
  }

  /** Nothing was or can become chosen at `ballot`. */
  ghost predicate Dead(st: SlotState, ballot: nat)
  {
    |Refusers(st, ballot)| >= Quorum.Size(|st.nodes|)
  }

  // ---------------------------------------------------------------- the invariant

  ghost function InitOf(role: Role): Option<PropValue>
  {
    match role
    case Idle => None
    case Running(p) => Some(p.initValue)
    case Done(init) => Some(init)
  }

  /** `value` was brought to this slot by some node's proposer. */
  ghost predicate Home(st: SlotState, value: PropValue)
  {
    exists i :: 0 <= i < |st.nodes| && InitOf(st.nodes[i].role) == Some(value)
  }

  ghost predicate Used(st: SlotState, i: nat, ballot: nat)
  {
    && i < |st.nodes|
    && Own(i, ballot)
    && !st.nodes[i].role.Idle?
    && (st.nodes[i].role.Running? ==> ballot <= st.nodes[i].role.p.currBallot)
  }

  /** An accepted pair as acceptors report it and proposers store it. */
  ghost predicate ReportOk(st: SlotState, ballot: nat, value: Option<PropValue>)
  {
    && (ballot == 0 <==> value.None?)
    && (value.Some? ==> ProposedId(st, ballot, value.value.id) && Home(st, value.value))
  }

  ghost predicate PacketOk(slot: nat, st: SlotState, p: Packet)
  {
    && p.dst < |st.nodes|
    && match p.msg
       case Prepare(src, s, ballot) => s == slot && Used(st, src, ballot)
       case Accept(src, s, ballot, value, _) =>
         && s == slot && Used(st, src, ballot) && Home(st, value)
         && (st.nodes[src].role.Running? && st.nodes[src].role.p.currBallot == ballot ==>
               st.nodes[src].role.p.currValue == Some(value))
       case Promise(src, s, ballot, reply, maxBallot, maxValue) =>
         && s == slot && src < |st.nodes| && Used(st, p.dst, ballot)
         && (reply ==>
               && ballot <= st.nodes[src].acc.maxProposed
               && maxBallot < ballot
               && ReportOk(st, maxBallot, maxValue)
               && forall b :: b in st.nodes[src].acc.voted && b < ballot ==> b <= maxBallot)
       case Accepted(src, s, ballot, reply) =>
         && s == slot && src < |st.nodes| && Used(st, p.dst, ballot)
         && (reply ==> ballot in st.nodes[src].acc.voted)
       case _ => false
  }

  ghost predicate AcceptorOk(cfg: Config, slot: nat, st: SlotState, a: AcceptorState)
  {
    && a.maxAccepted <= a.maxProposed
    && ReportOk(st, a.maxAccepted, a.maxValue)
    && (forall b :: b in a.voted ==> STEP <= b <= a.maxAccepted && Proposed(st, b))
    && (cfg.PrePromised(slot) ==>
          cfg.MasterBallot() <= a.maxProposed && forall b :: b in a.voted ==> cfg.MasterBallot() <= b)
  }

  ghost predicate ProposerOk(slot: nat, st: SlotState, i: nat, p: ProposerState)
  {
    && Own(i, p.currBallot)
    && p.maxBallot < p.currBallot
    && ReportOk(st, p.maxBallot, p.maxValue)
    && (p.currValue.Some? ==> Home(st, p.currValue.value))
    && (forall j :: j in p.promises ==> StoredPromise(slot, st, i, p, j))
    && (forall j :: j in p.accepts ==> StoredAccept(slot, st, i, p, j))
  }

  /** Every stored acknowledgement answers the current ballot. */
  ghost predicate StoredPromise(slot: nat, st: SlotState, i: nat, p: ProposerState, j: nat)
    requires j in p.promises
  {
    var a := p.promises[j];
    a.ballot == p.currBallot && Packet(i, Promise(j, slot, a.ballot, a.reply, a.maxBallot, a.maxValue)) in st.msgs
  }

  ghost predicate StoredAccept(slot: nat, st: SlotState, i: nat, p: ProposerState, j: nat)
    requires j in p.accepts
  {
    var a := p.accepts[j];
    a.ballot == p.currBallot && Packet(i, Accepted(j, slot, a.ballot, a.reply)) in st.msgs
  }

  ghost predicate NodeOk(cfg: Config, slot: nat, st: SlotState, i: nat)
    requires i < |st.nodes|
  {
    && AcceptorOk(cfg, slot, st, st.nodes[i].acc)
    && (st.nodes[i].role.Running? ==> ProposerOk(slot, st, i, st.nodes[i].role.p))
  }

  /** One value per ballot. */
  ghost predicate Unique(msgs: set<Packet>)
  {
    forall p, r :: p in msgs && r in msgs && p.msg.Accept? && r.msg.Accept? && p.msg.ballot == r.msg.ballot ==>
      p.msg.value == r.msg.value
  }

  /** What holds of the packets and of each node, however the master starts. */
  ghost predicate Coherent(cfg: Config, slot: nat, st: SlotState)
  {
    && |st.nodes| == cfg.n
    && (forall p :: p in st.msgs ==> PacketOk(slot, st, p))
    && (forall i: nat :: i < cfg.n ==> NodeOk(cfg, slot, st, i))
    && Unique(st.msgs)
  }

  /** From `floor` up to the ballot of a proposal of `id`, every ballot is dead or proposed the same id. */
  ghost predicate SafeBelow(st: SlotState, floor: nat, top: nat, id: nat)
  {
    forall b :: floor <= b < top ==> Dead(st, b) || ProposedId(st, b, id)
  }

  /** Nothing is proposed below `floor`, and every proposal agrees with what can be chosen before it. */
  ghost predicate Safe(st: SlotState, floor: nat)
  {
    forall p :: p in st.msgs && p.msg.Accept? ==>
      floor <= p.msg.ballot && SafeBelow(st, floor, p.msg.ballot, p.msg.value.id)
  }

  ghost predicate Inv(cfg: Config, slot: nat, floor: nat, st: SlotState)
  {
    Coherent(cfg, slot, st) && Safe(st, floor)
  }

  /** No node with a smaller id than the master has come to the slot. */
  ghost predicate NobodyBelow(cfg: Config, st: SlotState)
  {
    forall j: nat :: j < cfg.master && j < |st.nodes| ==> st.nodes[j].role.Idle?
  }

  // ---------------------------------------------------------------- agreement

  lemma ChosenIsNotDead(st: SlotState, ballot: nat, id: nat)
    requires ChosenAt(st, ballot, id)
    ensures !Dead(st, ballot)
  {
    if Dead(st, ballot) {
      Quorum.Intersect(|st.nodes|, Voters(st, ballot), Refusers(st, ballot));
    }
  }

  /** Any two values chosen in the slot, at whatever ballots, have the same id. */
  lemma Agreement(cfg: Config, slot: nat, floor: nat, st: SlotState, b: nat, id: nat, b': nat, id': nat)
    requires Inv(cfg, slot, floor, st) && ChosenAt(st, b, id) && ChosenAt(st, b', id')
    ensures id == id'
  {
    if b > b' {
      Agreement(cfg, slot, floor, st, b', id', b, id);
    } else {
      var p :| p in st.msgs && IsAccept(p.msg, b, id);
      var r :| r in st.msgs && IsAccept(r.msg, b', id');
      if b < b' {
        assert SafeBelow(st, floor, b', id');
        ChosenIsNotDead(st, b, id);
      }
    }
  }

  // ---------------------------------------------------------------- what every step keeps

  ghost predicate RoleAdvances(r: Role, r': Role)
  {
    match r
    case Idle => true
    case Running(p) =>
      (match r'
       case Idle => false
       case Running(p') =>
         && p'.initValue == p.initValue
         && p.currBallot <= p'.currBallot
         && (p.currBallot == p'.currBallot && p.currValue.Some? ==> p'.currValue == p.currValue)
       case Done(init) => init == p.initValue)
    case Done(init) => r' == r
  }

  ghost predicate Grows(st: SlotState, st': SlotState)
  {
    && |st.nodes| == |st'.nodes|
    && st.msgs <= st'.msgs
    && forall i: nat :: i < |st.nodes| ==>
         Advances(st.nodes[i].acc, st'.nodes[i].acc) && RoleAdvances(st.nodes[i].role, st'.nodes[i].role)
  }

  lemma HomeStays(st: SlotState, st': SlotState, value: PropValue)
    requires Grows(st, st') && Home(st, value)
    ensures Home(st', value)
  {
    var i: nat :| i < |st.nodes| && InitOf(st.nodes[i].role) == Some(value);
    assert RoleAdvances(st.nodes[i].role, st'.nodes[i].role);
    assert InitOf(st'.nodes[i].role) == Some(value);
  }

  lemma DeadStays(st: SlotState, st': SlotState, ballot: nat)
    requires Grows(st, st') && Dead(st, ballot)
    ensures Dead(st', ballot)
  {
    forall i: nat | i in Refusers(st, ballot) ensures i in Refusers(st', ballot) {
      assert Advances(st.nodes[i].acc, st'.nodes[i].acc);
    }
    Quorum.SubsetSize(Refusers(st, ballot), Refusers(st', ballot));
  }

  lemma ChosenStays(st: SlotState, st': SlotState, ballot: nat, id: nat)
    requires Grows(st, st') && ChosenAt(st, ballot, id)
    ensures ChosenAt(st', ballot, id)
  {
    forall i: nat | i in Voters(st, ballot) ensures i in Voters(st', ballot) {
      assert Advances(st.nodes[i].acc, st'.nodes[i].acc);
    }
    Quorum.SubsetSize(Voters(st, ballot), Voters(st', ballot));
  }

  lemma ReportStays(st: SlotState, st': SlotState, ballot: nat, value: Option<PropValue>)
    requires Grows(st, st') && ReportOk(st, ballot, value)
    ensures ReportOk(st', ballot, value)
  {
    if value.Some? { HomeStays(st, st', value.value); }
  }

  lemma SafeStays(st: SlotState, st': SlotState, floor: nat, top: nat, id: nat)
    requires Grows(st, st') && SafeBelow(st, floor, top, id)
    ensures SafeBelow(st', floor, top, id)
  {
    forall b: nat | floor <= b < top ensures Dead(st', b) || ProposedId(st', b, id) {
      if Dead(st, b) { DeadStays(st, st', b); }
    }
  }

  lemma PacketStays(slot: nat, st: SlotState, st': SlotState, p: Packet)
    requires Grows(st, st') && PacketOk(slot, st, p)
    ensures PacketOk(slot, st', p)
  {
    match p.msg
    case Prepare(src, _, _) => assert RoleAdvances(st.nodes[src].role, st'.nodes[src].role);
    case Accept(src, _, _, value, _) =>
      assert RoleAdvances(st.nodes[src].role, st'.nodes[src].role);
      HomeStays(st, st', value);
    case Promise(src, _, _, reply, maxBallot, maxValue) =>
      assert RoleAdvances(st.nodes[p.dst].role, st'.nodes[p.dst].role);
      assert Advances(st.nodes[src].acc, st'.nodes[src].acc);
      if reply { ReportStays(st, st', maxBallot, maxValue); }
    case Accepted(src, _, _, _) =>
      assert RoleAdvances(st.nodes[p.dst].role, st'.nodes[p.dst].role);
      assert Advances(st.nodes[src].acc, st'.nodes[src].acc);
    case _ =>
  }

  lemma NodeStays(cfg: Config, slot: nat, st: SlotState, st': SlotState, i: nat)
    requires Grows(st, st') && i < |st.nodes| && NodeOk(cfg, slot, st, i) && st'.nodes[i] == st.nodes[i]
    ensures NodeOk(cfg, slot, st', i)
  {
    AcceptorStays(cfg, slot, st, st', st.nodes[i].acc);
    if st.nodes[i].role.Running? {
      ProposerStays(slot, st, st', i, st.nodes[i].role.p);
    }
  }

  lemma AcceptorStays(cfg: Config, slot: nat, st: SlotState, st': SlotState, a: AcceptorState)
    requires Grows(st, st') && AcceptorOk(cfg, slot, st, a)
    ensures AcceptorOk(cfg, slot, st', a)
  {
    ReportStays(st, st', a.maxAccepted, a.maxValue);
  }

  lemma ProposerStays(slot: nat, st: SlotState, st': SlotState, i: nat, p: ProposerState)
    requires Grows(st, st') && ProposerOk(slot, st, i, p)
    ensures ProposerOk(slot, st', i, p)
  {
    ReportStays(st, st', p.maxBallot, p.maxValue);
    if p.currValue.Some? { HomeStays(st, st', p.currValue.value); }
    forall j | j in p.promises ensures StoredPromise(slot, st', i, p, j) { assert StoredPromise(slot, st, i, p, j); }
    forall j | j in p.accepts ensures StoredAccept(slot, st', i, p, j) { assert StoredAccept(slot, st, i, p, j); }
  }

  /** What a step of node `i` that sends `out` has to provide: it advances the node, leaves the node
      and its packets in order, and a proposal in it is for a new ballot. */
  ghost predicate StepOk(cfg: Config, slot: nat, st: SlotState, st': SlotState, i: nat, out: set<Packet>)
  {
    && i < |st.nodes| == |st'.nodes|
    && (forall j: nat :: j < |st.nodes| && j != i ==> st'.nodes[j] == st.nodes[j])
    && st'.msgs == st.msgs + out
    && Grows(st, st')
    && NodeOk(cfg, slot, st', i)
    && forall p :: p in out ==> PacketOk(slot, st', p) && (p.msg.Accept? ==> IsNew(st, out, p.msg))
  }

  ghost predicate IsNew(st: SlotState, out: set<Packet>, m: Msg)
    requires m.Accept?
  {
    && (forall r :: r in out && r.msg.Accept? ==> r.msg == m)
    && (forall r :: r in st.msgs && r.msg.Accept? ==> r.msg.ballot != m.ballot)
  }

  lemma KeepsCoherent(cfg: Config, slot: nat, st: SlotState, st': SlotState, i: nat, out: set<Packet>)
    requires Coherent(cfg, slot, st) && StepOk(cfg, slot, st, st', i, out)
    ensures Coherent(cfg, slot, st')
  {
    forall p | p in st'.msgs ensures PacketOk(slot, st', p) {
      if p in st.msgs { PacketStays(slot, st, st', p); }
    }
    forall j: nat | j < cfg.n ensures NodeOk(cfg, slot, st', j) {
      if j != i { NodeStays(cfg, slot, st, st', j); }
    }
  }

  /** What is proposed in a step that sends `out` was safe to propose when it was taken. */
  ghost predicate SafeToSend(st: SlotState, floor: nat, out: set<Packet>)
  {
    forall p :: p in out && p.msg.Accept? ==>
      floor <= p.msg.ballot && SafeBelow(st, floor, p.msg.ballot, p.msg.value.id)
  }

  lemma KeepsSafe(st: SlotState, st': SlotState, floor: nat, out: set<Packet>)
    requires Safe(st, floor) && Grows(st, st') && st'.msgs == st.msgs + out && SafeToSend(st, floor, out)
    ensures Safe(st', floor)
  {
    forall p | p in st'.msgs && p.msg.Accept? ensures SafeBelow(st', floor, p.msg.ballot, p.msg.value.id) {
      SafeStays(st, st', floor, p.msg.ballot, p.msg.value.id);
    }
  }
}
